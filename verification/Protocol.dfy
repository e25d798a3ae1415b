/** The reasoning core of Raft, free of messages, roles and disks. A Protocol value records what each node
    holds now (term, log) and what has happened so far: which log each candidate campaigned with, which
    ballot each voter cast (and the log it held then), the log each elected leader has built, and how much
    of a leader's log each node has acknowledged in that leader's term. */
module Protocol {
  import opened RaftTypes

  datatype Ballot = Ballot(candidate: NodeId, log: Log)

  datatype Proto = Proto(term: map<NodeId, Term>,
                         log: map<NodeId, Log>,
                         campaign: map<(NodeId, Term), Log>,
                         ballots: map<(NodeId, Term), Ballot>,
                         leaderOf: map<Term, NodeId>,
                         tlog: map<Term, Log>,
                         acked: map<(NodeId, Term), nat>)

  function Acked(p: Proto, q: NodeId, t: Term): nat {
    if (q, t) in p.acked then p.acked[(q, t)] else 0
  }

  // ---------- Quorums ----------

  ghost predicate IsQuorum(ids: set<NodeId>, a: set<NodeId>) {
    a <= ids && 2 * |a| > |ids|
  }

  lemma SubsetSize(a: set<NodeId>, b: set<NodeId>)
    requires a <= b
    ensures |a| <= |b|
  {
    assert b == a + (b - a);
  }

  lemma QuorumGrows(ids: set<NodeId>, a: set<NodeId>, b: set<NodeId>)
    requires IsQuorum(ids, a) && a <= b <= ids
    ensures IsQuorum(ids, b)
  {
    SubsetSize(a, b);
  }

  lemma QuorumsMeet(ids: set<NodeId>, a: set<NodeId>, b: set<NodeId>) returns (q: NodeId)
    requires IsQuorum(ids, a) && IsQuorum(ids, b)
    ensures q in a && q in b
  {
    if a * b == {} {
      SubsetSize(a + b, ids);
      assert false;
    }
    q :| q in a * b;
  }

  /** Everyone who voted for c in term t. */
  ghost function Voters(ids: set<NodeId>, p: Proto, t: Term, c: NodeId): set<NodeId> {
    set q | q in ids && (q, t) in p.ballots && p.ballots[(q, t)].candidate == c
  }

  /** Everyone who acknowledged index n of the leader of term t, or who still may. */
  ghost function Supporters(ids: set<NodeId>, p: Proto, t: Term, n: nat): set<NodeId>
    requires ids <= p.term.Keys
  {
    set q | q in ids && (p.term[q] <= t || Acked(p, q, t) >= n)
  }

  ghost function Ackers(ids: set<NodeId>, p: Proto, t: Term, n: nat): set<NodeId> {
    set q | q in ids && Acked(p, q, t) >= n
  }

  // ---------- Logs ----------

  /** Entry k was created by the leader of its own term, and everything before it came along. */
  ghost predicate OwnedPrefix(tlog: map<Term, Log>, log: Log, k: nat)
    requires k < |log|
  {
    var t := log[k].term;
    t in tlog && k < |tlog[t]| && log[..k + 1] == tlog[t][..k + 1]
  }

  ghost predicate FromLeaders(tlog: map<Term, Log>, log: Log) {
    forall k :: 0 <= k < |log| ==> OwnedPrefix(tlog, log, k)
  }

  ghost predicate LogOk(tlog: map<Term, Log>, log: Log, bound: Term) {
    |log| <= RAFT_LOG_CAP && WellFormed(log) && TermsAtMost(log, bound) && FromLeaders(tlog, log)
  }

  /** Leaders' logs only get longer. */
  ghost predicate TlogGrows(a: map<Term, Log>, b: map<Term, Log>) {
    forall t :: t in a ==> t in b && a[t] <= b[t]
  }

  lemma LogOkGrows(a: map<Term, Log>, b: map<Term, Log>, log: Log, bound: Term, bound': Term)
    requires LogOk(a, log, bound) && TlogGrows(a, b) && bound <= bound'
    ensures LogOk(b, log, bound')
  {
    forall k | 0 <= k < |log| ensures OwnedPrefix(b, log, k) {
      assert OwnedPrefix(a, log, k);
      var t := log[k].term;
      assert b[t][..k + 1] == a[t][..k + 1];
    }
  }

  lemma LogOkPrefix(tlog: map<Term, Log>, log: Log, bound: Term, n: nat)
    requires LogOk(tlog, log, bound) && n <= |log|
    ensures LogOk(tlog, log[..n], bound)
  {
    forall k | 0 <= k < n ensures OwnedPrefix(tlog, log[..n], k) {
      assert OwnedPrefix(tlog, log, k);
      assert log[..n][..k + 1] == log[..k + 1];
    }
  }

  /** Log Matching: same index and same term means same prefix. */
  lemma LogsMatch(tlog: map<Term, Log>, a: Log, b: Log, k: nat)
    requires FromLeaders(tlog, a) && FromLeaders(tlog, b)
    requires k < |a| && k < |b| && a[k].term == b[k].term
    ensures a[..k + 1] == b[..k + 1]
  {
    assert OwnedPrefix(tlog, a, k);
    assert OwnedPrefix(tlog, b, k);
  }

  // ---------- The invariant ----------

  ghost predicate Domains(ids: set<NodeId>, p: Proto) {
    p.term.Keys == ids && p.log.Keys == ids && p.leaderOf.Keys == p.tlog.Keys
  }

  /** A log built by the leader of term t on top of the log it was elected with. */
  ghost predicate LedFrom(start: Log, log: Log, t: Term) {
    && start <= log
    && (forall k :: 0 <= k < |start| ==> start[k].term < t)
    && (forall k :: |start| <= k < |log| ==> log[k].term == t)
  }

  ghost predicate LeaderOk(ids: set<NodeId>, p: Proto, t: Term)
    requires Domains(ids, p)
  {
    t in p.tlog ==>
      var c := p.leaderOf[t];
      && LogOk(p.tlog, p.tlog[t], t)
      && c in ids
      && t <= p.term[c]
      && IsQuorum(ids, Voters(ids, p, t, c))
      && (c, t) in p.campaign && LedFrom(p.campaign[(c, t)], p.tlog[t], t)
      && Acked(p, c, t) == |p.tlog[t]|
      && (p.term[c] == t ==> p.log[c] == p.tlog[t])
  }

  ghost predicate NodeOk(ids: set<NodeId>, p: Proto, q: NodeId)
    requires Domains(ids, p)
  {
    q in ids ==> LogOk(p.tlog, p.log[q], p.term[q])
  }

  ghost predicate BallotOk(ids: set<NodeId>, p: Proto, q: NodeId, t: Term)
    requires Domains(ids, p)
  {
    (q, t) in p.ballots ==>
      var b := p.ballots[(q, t)];
      && q in ids
      && t <= p.term[q]
      && (b.candidate, t) in p.campaign
      && UpToDate(p.campaign[(b.candidate, t)], b.log)
      && LogOk(p.tlog, b.log, t)
  }

  ghost predicate CampaignOk(ids: set<NodeId>, p: Proto, c: NodeId, t: Term)
    requires Domains(ids, p)
  {
    (c, t) in p.campaign ==> c in ids && t <= p.term[c]
  }

  ghost predicate AckOk(ids: set<NodeId>, p: Proto, q: NodeId, t: Term)
    requires Domains(ids, p)
  {
    var a := Acked(p, q, t);
    a > 0 ==>
      && t in p.tlog && a <= |p.tlog[t]|
      && q in ids && t <= p.term[q]
      && (p.term[q] == t ==> a <= |p.log[q]| && p.log[q][..a] == p.tlog[t][..a])
  }

  /** Entry n of term t's leader carries that very term, and a quorum has acknowledged it or still may. */
  ghost predicate Choosable(ids: set<NodeId>, p: Proto, t: Term, n: nat)
    requires Domains(ids, p)
  {
    t in p.tlog && 1 <= n <= |p.tlog[t]| && p.tlog[t][n - 1].term == t && IsQuorum(ids, Supporters(ids, p, t, n))
  }

  /** Entry n of term t's leader carries that very term, and a quorum has acknowledged it. */
  ghost predicate Chosen(ids: set<NodeId>, p: Proto, t: Term, n: nat) {
    t in p.tlog && 1 <= n <= |p.tlog[t]| && p.tlog[t][n - 1].term == t && IsQuorum(ids, Ackers(ids, p, t, n))
  }

  ghost predicate KeepOk(ids: set<NodeId>, p: Proto, q: NodeId, t: Term, n: nat)
    requires Domains(ids, p)
  {
    Choosable(ids, p, t, n) && q in ids && Acked(p, q, t) >= n ==> Carries(p.log[q], p.tlog[t], n)
  }

  ghost predicate KeepVoteOk(ids: set<NodeId>, p: Proto, q: NodeId, u: Term, t: Term, n: nat)
    requires Domains(ids, p)
  {
    Choosable(ids, p, t, n) && (q, u) in p.ballots && t < u && Acked(p, q, t) >= n ==>
      Carries(p.ballots[(q, u)].log, p.tlog[t], n)
  }

  ghost predicate LeadOk(ids: set<NodeId>, p: Proto, t: Term, u: Term, n: nat)
    requires Domains(ids, p)
  {
    Choosable(ids, p, t, n) && u in p.tlog && t < u ==> Carries(p.tlog[u], p.tlog[t], n)
  }

  ghost predicate LeadersOk(ids: set<NodeId>, p: Proto)
    requires Domains(ids, p)
  { forall t: Term :: LeaderOk(ids, p, t) }

  ghost predicate NodesOk(ids: set<NodeId>, p: Proto)
    requires Domains(ids, p)
  { forall q: NodeId :: NodeOk(ids, p, q) }

  ghost predicate BallotsOk(ids: set<NodeId>, p: Proto)
    requires Domains(ids, p)
  { forall q: NodeId, t: Term :: BallotOk(ids, p, q, t) }

  ghost predicate CampaignsOk(ids: set<NodeId>, p: Proto)
    requires Domains(ids, p)
  { forall c: NodeId, t: Term :: CampaignOk(ids, p, c, t) }

  ghost predicate AcksOk(ids: set<NodeId>, p: Proto)
    requires Domains(ids, p)
  { forall q: NodeId, t: Term :: AckOk(ids, p, q, t) }

  ghost predicate KeepsOk(ids: set<NodeId>, p: Proto)
    requires Domains(ids, p)
  { forall q: NodeId, t: Term, n: nat :: KeepOk(ids, p, q, t, n) }

  ghost predicate KeepVotesOk(ids: set<NodeId>, p: Proto)
    requires Domains(ids, p)
  { forall q: NodeId, u: Term, t: Term, n: nat :: KeepVoteOk(ids, p, q, u, t, n) }

  ghost predicate LeadsOk(ids: set<NodeId>, p: Proto)
    requires Domains(ids, p)
  { forall t: Term, u: Term, n: nat :: LeadOk(ids, p, t, u, n) }

  ghost predicate ProtoInv(ids: set<NodeId>, p: Proto) {
    && Domains(ids, p)
    && LeadersOk(ids, p)
    && NodesOk(ids, p)
    && BallotsOk(ids, p)
    && CampaignsOk(ids, p)
    && AcksOk(ids, p)
    && KeepsOk(ids, p)
    && KeepVotesOk(ids, p)
    && LeadsOk(ids, p)
  }

  // ---------- How history moves ----------

  /** What every step keeps: terms and leaders' logs grow, ballots and campaigns are never revised,
      acknowledgements grow and are frozen once the node has moved past the term. */
  ghost predicate Grows(p: Proto, p': Proto) {
    && p.term.Keys == p'.term.Keys
    && (forall q :: q in p.term ==> p.term[q] <= p'.term[q])
    && TlogGrows(p.tlog, p'.tlog)
    && (forall t :: t in p.leaderOf ==> t in p'.leaderOf && p'.leaderOf[t] == p.leaderOf[t])
    && (forall b :: b in p.ballots ==> b in p'.ballots && p'.ballots[b] == p.ballots[b])
    && (forall c :: c in p.campaign ==> c in p'.campaign && p'.campaign[c] == p.campaign[c])
    && (forall q: NodeId, t: Term :: Acked(p, q, t) <= Acked(p', q, t))
    && (forall q: NodeId, t: Term :: q in p.term && t < p.term[q] ==> Acked(p', q, t) == Acked(p, q, t))
  }

  /** Nothing that belongs to a node other than i has changed. */
  ghost predicate OnlyBy(p: Proto, p': Proto, i: NodeId) {
    && p.log.Keys == p'.log.Keys
    && p.term.Keys == p'.term.Keys
    && (forall q :: q in p.term && q != i ==> p'.term[q] == p.term[q])
    && (forall q :: q in p.log && q != i ==> p'.log[q] == p.log[q])
    && (forall q: NodeId, t: Term :: (q, t) in p'.ballots && q != i ==> (q, t) in p.ballots)
    && (forall t :: t in p'.leaderOf && t !in p.leaderOf ==> p'.leaderOf[t] == i)
  }

  ghost predicate StepBy(p: Proto, p': Proto, i: NodeId) {
    Grows(p, p') && OnlyBy(p, p', i)
  }

  lemma GrowsTransitive(p: Proto, p1: Proto, p2: Proto)
    requires Grows(p, p1) && Grows(p1, p2)
    ensures Grows(p, p2)
  {
    forall t | t in p.tlog ensures t in p2.tlog && p.tlog[t] <= p2.tlog[t] {
      assert p.tlog[t] <= p1.tlog[t] <= p2.tlog[t];
    }
    forall q: NodeId, t: Term ensures Acked(p, q, t) <= Acked(p2, q, t) {
      assert Acked(p, q, t) <= Acked(p1, q, t) <= Acked(p2, q, t);
    }
    forall q: NodeId, t: Term | q in p.term && t < p.term[q] ensures Acked(p2, q, t) == Acked(p, q, t) {
      assert Acked(p1, q, t) == Acked(p, q, t);
    }
  }

  lemma StepByTransitive(p: Proto, p1: Proto, p2: Proto, i: NodeId)
    requires StepBy(p, p1, i) && StepBy(p1, p2, i)
    ensures StepBy(p, p2, i)
  {
    GrowsTransitive(p, p1, p2);
  }

  /** Being choosable can only be lost as time passes. */
  lemma ChoosableBack(ids: set<NodeId>, p: Proto, p': Proto, t: Term, n: nat)
    requires Domains(ids, p) && Domains(ids, p') && Grows(p, p')
    requires Choosable(ids, p', t, n) && t in p.tlog && n <= |p.tlog[t]|
    ensures Choosable(ids, p, t, n)
  {
    var a, b := Supporters(ids, p', t, n), Supporters(ids, p, t, n);
    forall q | q in a ensures q in b {
      if p.term[q] > t {
        assert Acked(p', q, t) == Acked(p, q, t);
      }
    }
    QuorumGrows(ids, a, b);
    assert p.tlog[t] <= p'.tlog[t];
  }

  lemma ChosenIsChoosable(ids: set<NodeId>, p: Proto, t: Term, n: nat)
    requires Domains(ids, p) && Chosen(ids, p, t, n)
    ensures Choosable(ids, p, t, n)
  {
    QuorumGrows(ids, Ackers(ids, p, t, n), Supporters(ids, p, t, n));
  }

  /** What is chosen stays chosen. */
  lemma ChosenGrows(ids: set<NodeId>, p: Proto, p': Proto, t: Term, n: nat)
    requires Grows(p, p') && Chosen(ids, p, t, n)
    ensures Chosen(ids, p', t, n)
  {
    var a, b := Ackers(ids, p, t, n), Ackers(ids, p', t, n);
    forall q | q in a ensures q in b {
      assert Acked(p, q, t) <= Acked(p', q, t);
    }
    QuorumGrows(ids, a, b);
    assert p.tlog[t] <= p'.tlog[t];
  }
}
