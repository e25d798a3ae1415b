/** What holds in every run of a cluster, with loss, duplication, reordering, crashes and restarts. */
module Safety {
  import opened RaftTypes
  import opened RaftNode
  import opened Cluster
  import opened Protocol
  import opened ProtocolSteps
  import opened ClusterInv
  import opened ServerSteps
  import opened ReplicaSteps
  import opened AppendLoops
  import opened ClusterSteps

  predicate Leads(s: State, a: NodeId, t: Term) {
    a in s.servers && s.servers[a].node.role == Leader && s.servers[a].node.pstate.term == t
  }

  function LogOf(s: State, a: NodeId): Log
    requires a in s.servers
  {
    s.servers[a].node.pstate.log
  }

  /** A leading server is the elected leader of its term, and its log is that leader's log. */
  lemma LeadsFacts(cfg: Config, s: State, p: Proto, a: NodeId, t: Term)
    requires Inv(cfg, s, p) && Leads(s, a, t)
    ensures a in cfg && t in p.tlog && p.leaderOf[t] == a && LogOf(s, a) == p.tlog[t] && p.term[a] == t
  {
    assert ServerAt(cfg, s, p, a) && LeaderOk(cfg.Keys, p, t);
  }

  /** Election Safety: at most one node ever leads a given term. */
  lemma ElectionSafety(cfg: Config, steps: seq<Step>, j: nat, k: nat, a: NodeId, b: NodeId, t: Term)
    requires ValidConfig(cfg) && j <= |steps| && k <= |steps|
    requires Leads(At(cfg, steps, j), a, t) && Leads(At(cfg, steps, k), b, t)
    ensures a == b
  {
    var ps := RunInv(cfg, steps);
    var lo, hi := if j <= k then j else k, if j <= k then k else j;
    assert HistoryAt(cfg, steps, ps, lo, hi) && HistoryAt(cfg, steps, ps, hi, hi);
    LeadsFacts(cfg, At(cfg, steps, j), ps[j], a, t);
    LeadsFacts(cfg, At(cfg, steps, k), ps[k], b, t);
  }

  lemma LogsMatchOrdered(cfg: Config, steps: seq<Step>, ps: seq<Proto>, j: nat, k: nat, a: NodeId, b: NodeId, n: nat)
    requires Histories(cfg, steps, ps) && j <= k <= |steps| && a in cfg && b in cfg
    requires a in At(cfg, steps, j).servers && b in At(cfg, steps, k).servers
    requires var x, y := LogOf(At(cfg, steps, j), a), LogOf(At(cfg, steps, k), b);
             n < |x| && n < |y| && x[n].term == y[n].term
    ensures LogOf(At(cfg, steps, j), a)[..n + 1] == LogOf(At(cfg, steps, k), b)[..n + 1]
  {
    assert HistoryAt(cfg, steps, ps, j, k) && HistoryAt(cfg, steps, ps, k, k);
    var p, p' := ps[j], ps[k];
    assert ServerAt(cfg, At(cfg, steps, j), p, a) && ServerAt(cfg, At(cfg, steps, k), p', b);
    assert NodeOk(cfg.Keys, p, a) && NodeOk(cfg.Keys, p', b);
    LogOkGrows(p.tlog, p'.tlog, p.log[a], p.term[a], p.term[a]);
    LogsMatch(p'.tlog, p.log[a], p'.log[b], n);
  }

  /** Log Matching: two logs, held by any two nodes at any two moments of a run, that have an entry with the
      same index and term are identical up to that index. */
  lemma LogMatching(cfg: Config, steps: seq<Step>, j: nat, k: nat, a: NodeId, b: NodeId, n: nat)
    requires ValidConfig(cfg) && j <= |steps| && k <= |steps|
    requires a in At(cfg, steps, j).servers && b in At(cfg, steps, k).servers
    requires var x, y := LogOf(At(cfg, steps, j), a), LogOf(At(cfg, steps, k), b);
             n < |x| && n < |y| && x[n].term == y[n].term
    ensures LogOf(At(cfg, steps, j), a)[..n + 1] == LogOf(At(cfg, steps, k), b)[..n + 1]
  {
    var ps := RunInv(cfg, steps);
    assert HistoryAt(cfg, steps, ps, j, j) && HistoryAt(cfg, steps, ps, k, k);
    if j <= k {
      LogsMatchOrdered(cfg, steps, ps, j, k, a, b, n);
    } else {
      LogsMatchOrdered(cfg, steps, ps, k, j, b, a, n);
    }
  }

  /** Structural log invariant: entries are numbered from one, terms never go down and never exceed the
      node's term, and the log fits its array. */
  lemma LogStructure(cfg: Config, steps: seq<Step>, i: NodeId)
    requires ValidConfig(cfg) && i in cfg
    ensures i in Run(cfg, steps).servers
    ensures var n := Run(cfg, steps).servers[i].node;
            WellFormed(n.pstate.log) && TermsAtMost(n.pstate.log, n.pstate.term) && |n.pstate.log| <= RAFT_LOG_CAP
  {
    var ps := RunInv(cfg, steps);
    var k := |steps|;
    assert HistoryAt(cfg, steps, ps, k, k);
    assert steps[..k] == steps;
    assert ServerAt(cfg, Run(cfg, steps), ps[k], i) && NodeOk(cfg.Keys, ps[k], i);
  }

  /** Crash recovery: at any moment, replaying a node's log file succeeds and gives exactly the term, vote and
      log that the node holds in memory. */
  lemma RecoveryRefinesMemory(cfg: Config, steps: seq<Step>, i: NodeId)
    requires ValidConfig(cfg) && i in cfg
    ensures i in Run(cfg, steps).servers
    ensures var srv := Run(cfg, steps).servers[i]; Replay(srv.disk) == Restored(srv.node.pstate)
  {
    var ps := RunInv(cfg, steps);
    var k := |steps|;
    assert HistoryAt(cfg, steps, ps, k, k);
    assert steps[..k] == steps;
    assert ServerAt(cfg, Run(cfg, steps), ps[k], i);
  }

  /** Acknowledgement soundness: a leader's trackers stay within its log, and a peer still in the leader's term
      holds the leader's entries up to its match index, in memory and on disk. */
  lemma AcknowledgementSoundness(cfg: Config, steps: seq<Step>, a: NodeId, t: Term, k: nat)
    requires ValidConfig(cfg) && Leads(Run(cfg, steps), a, t) && k < |Run(cfg, steps).servers[a].node.peers|
    ensures var n := Run(cfg, steps).servers[a].node;
            && |n.lstate.next| == |n.lstate.matched| == |n.peers|
            && 1 <= n.lstate.next[k] <= |n.pstate.log| + 1
            && n.lstate.matched[k] <= |n.pstate.log|
            && n.peers[k] in Run(cfg, steps).servers
            && var peer := Run(cfg, steps).servers[n.peers[k]];
               peer.node.pstate.term == t ==>
                 && Carries(peer.node.pstate.log, n.pstate.log, n.lstate.matched[k])
                 && Replay(peer.disk) == Restored(peer.node.pstate)
  {
    var ps := RunInv(cfg, steps);
    var m := |steps|;
    assert HistoryAt(cfg, steps, ps, m, m);
    assert steps[..m] == steps;
    AckFacts(cfg, Run(cfg, steps), ps[m], a, t, k);
  }

  lemma AckFacts(cfg: Config, s: State, p: Proto, a: NodeId, t: Term, k: nat)
    requires Inv(cfg, s, p) && Leads(s, a, t) && k < |s.servers[a].node.peers|
    ensures var n := s.servers[a].node;
            && Shaped(n)
            && n.lstate.matched[k] <= |n.pstate.log|
            && n.peers[k] in s.servers
            && var peer := s.servers[n.peers[k]];
               peer.node.pstate.term == t ==>
                 && Carries(peer.node.pstate.log, n.pstate.log, n.lstate.matched[k])
                 && Replay(peer.disk) == Restored(peer.node.pstate)
  {
    LeadsFacts(cfg, s, p, a, t);
    assert ServerAt(cfg, s, p, a);
    var n := s.servers[a].node;
    var q := n.peers[k];
    assert q in PeerSet(cfg[a]);
    assert ServerAt(cfg, s, p, q) && AckOk(cfg.Keys, p, q, t);
    if s.servers[q].node.pstate.term == t && Acked(p, q, t) > 0 {
      CarriesAt(p.log[q], p.tlog[t], Acked(p, q, t));
    }
  }

  // ---------- Leader Completeness ----------

  /** Step k of the run leaves a a leader and raises its commit index to n. */
  predicate Commits(cfg: Config, steps: seq<Step>, k: nat, a: NodeId, n: Index) {
    && k < |steps|
    && a in At(cfg, steps, k).servers && a in At(cfg, steps, k + 1).servers
    && var before, after := At(cfg, steps, k).servers[a].node, At(cfg, steps, k + 1).servers[a].node;
       after.role == Leader && before.commitIndex < n == after.commitIndex
  }

  lemma {:induction false} ScanCommitExact(n: Node, k: Index)
    requires k <= |n.pstate.log|
    ensures var c := ScanCommit(n, k);
            && n.commitIndex <= c
            && (c == n.commitIndex || (c <= k && Committable(n, c)))
            && forall m :: c < m <= k ==> !Committable(n, m)
  {
    if n.commitIndex < k && !Committable(n, k) {
      ScanCommitExact(n, k - 1);
    }
  }

  /** Commit advance is exact: the scan moves the commit index to the largest index above it whose entry carries
      the current term and is held by the leader and peers that are more than half of the cluster, and leaves it if
      there is none. */
  lemma AdvanceCommitExact(n: Node)
    requires n.role == Leader
    ensures var c := AdvanceCommit(n).commitIndex;
            && AdvanceCommit(n) == n.(commitIndex := c)
            && n.commitIndex <= c
            && (c != n.commitIndex ==> c <= |n.pstate.log| && Committable(n, c))
            && forall m :: c < m <= |n.pstate.log| ==> !Committable(n, m)
    ensures var c := AdvanceCommit(n).commitIndex;
            && (c != n.commitIndex ==> HeldByMost(n, c))
            && forall m :: c < m <= |n.pstate.log| ==> !HeldByMost(n, m)
  {
    ScanCommitExact(n, |n.pstate.log|);
    forall m | 1 <= m <= |n.pstate.log| ensures Committable(n, m) <==> HeldByMost(n, m) {
      CommittableExact(n, m);
    }
  }

  /** How one step can change one server. */
  ghost predicate ServerMoves(srv: Server, step: Step, after: Server)
    requires Shaped(srv.node)
  {
    || (step.TimeoutStep? && after == Install(srv, Timeout(srv.node, step.w).0))
    || (step.ReceiveStep? && after == Answer(srv, step.pkt, step.w).0)
    || (step.CommandStep? && after == Install(srv, SendCommand(srv.node, step.cmd, step.w).0))
    || (step.RestartStep? && after == Boot(srv.node.id, srv.node.peers, srv.disk))
    || (step.DrainStep? && srv.node.commitIndex <= |srv.node.pstate.log| && after == Drained(srv, step.cap))
    || after == srv
  }

  lemma StepMoves(s: State, step: Step, a: NodeId)
    requires a in s.servers && Shaped(s.servers[a].node)
    ensures a in Apply(s, step).servers && ServerMoves(s.servers[a], step, Apply(s, step).servers[a])
  {
  }

  /** An acknowledgement makes a leader commit only what it may commit, and changes neither its log nor its past. */
  lemma AppendResponseCommits(n: Node, resp: AppendResponse, peer: NodeId, w: nat)
    requires Shaped(n)
    ensures var o := HandleAppendResponse(n, resp, peer, w).node;
            && o.pstate.log == n.pstate.log && o.lastApplied == n.lastApplied && n.pstate.term <= o.pstate.term
            && n.commitIndex <= o.commitIndex
            && (n.commitIndex < o.commitIndex ==>
                  o.role == Leader && o.commitIndex <= |o.pstate.log| && Committable(o, o.commitIndex))
  {
    var f := FindPeer(n.peers, peer);
    if n.role == Leader && f.Some? {
      var k := f.value;
      var l := if n.lstate.next[k] < resp.matchIndex
               then LeaderState(n.lstate.next[k := resp.matchIndex + 1], n.lstate.matched[k := resp.matchIndex])
               else n.lstate;
      var n1 := n.(lstate := l);
      AdvanceCommitExact(n1);
      var c := AdvanceCommit(n1).commitIndex;
      assert c != n.commitIndex ==> Committable(n1.(commitIndex := c), c);
    }
  }

  /** Only the majority scan, or a one-node cluster's own command, makes a leader commit. */
  lemma CommitIsCommittable(srv: Server, step: Step, after: Server)
    requires Shaped(srv.node) && ServerMoves(srv, step, after)
    requires after.node.role == Leader && srv.node.commitIndex < after.node.commitIndex
    ensures after.node.commitIndex <= |after.node.pstate.log| && Committable(after.node, after.node.commitIndex)
  {
    if step.ReceiveStep? && step.pkt.body.AppendResp? {
      AppendResponseCommits(srv.node, step.pkt.body.aresp, step.pkt.src, step.w);
    }
  }

  /** The peers that a leader counts, and the leader itself, have acknowledged the index. */
  lemma CountedHaveAcked(ids: set<NodeId>, p: Proto, a: NodeId, t: Term, peers: seq<NodeId>, matched: seq<Index>, n: Index)
    requires Domains(ids, p) && a in ids && PeersOk(ids, a, peers) && |matched| == |peers|
    requires MatchesOk(t, peers, matched, p) && Acked(p, a, t) >= n
    requires 1 + CountTrue(AtLeast(matched, n)) >= Majority(|peers| + 1)
    ensures IsQuorum(ids, Ackers(ids, p, t, n))
  {
    var flags := AtLeast(matched, n);
    FlagsMakeQuorum(ids, a, peers, flags);
    var q := Flagged(peers, flags) + {a};
    assert q <= Ackers(ids, p, t, n) by {
      assert forall k :: 0 <= k < |peers| ==> peers[k] in PeerSet(peers);
    }
    QuorumGrows(ids, q, Ackers(ids, p, t, n));
  }

  /** An index that a leader may commit is chosen: a quorum has acknowledged it in the leader's term. */
  lemma CommittableIsChosen(cfg: Config, s: State, p: Proto, a: NodeId, n: Index)
    requires Inv(cfg, s, p) && a in s.servers && s.servers[a].node.role == Leader
    requires 1 <= n <= |LogOf(s, a)| && Committable(s.servers[a].node, n)
    ensures Chosen(cfg.Keys, p, s.servers[a].node.pstate.term, n)
  {
    var node := s.servers[a].node;
    var t, ids := node.pstate.term, cfg.Keys;
    LeadsFacts(cfg, s, p, a, t);
    assert ServerAt(cfg, s, p, a) && LeaderOk(ids, p, t);
    CountedHaveAcked(ids, p, a, t, node.peers, node.lstate.matched, n);
  }

  /** A commit of the run, seen in its history. */
  lemma CommitsAreChosen(cfg: Config, steps: seq<Step>, ps: seq<Proto>, k: nat, a: NodeId, n: Index)
    requires Histories(cfg, steps, ps) && Commits(cfg, steps, k, a, n)
    ensures var t := At(cfg, steps, k + 1).servers[a].node.pstate.term;
            && Chosen(cfg.Keys, ps[k + 1], t, n)
            && LogOf(At(cfg, steps, k + 1), a) == ps[k + 1].tlog[t]
  {
    var s, s' := At(cfg, steps, k), At(cfg, steps, k + 1);
    assert HistoryAt(cfg, steps, ps, k, k) && HistoryAt(cfg, steps, ps, k + 1, k + 1);
    AtNext(cfg, steps, k);
    assert ServerAt(cfg, s, ps[k], a);
    StepMoves(s, steps[k], a);
    CommitIsCommittable(s.servers[a], steps[k], s'.servers[a]);
    CommittableIsChosen(cfg, s', ps[k + 1], a, n);
    LeadsFacts(cfg, s', ps[k + 1], a, s'.servers[a].node.pstate.term);
  }

  /** Chosen first, carried later. */
  lemma CarriedLater(ids: set<NodeId>, p: Proto, p': Proto, t: Term, u: Term, n: nat)
    requires ProtoInv(ids, p') && Grows(p, p') && Chosen(ids, p, t, n) && t < u && u in p'.tlog
    ensures Carries(p'.tlog[u], p.tlog[t], n)
  {
    ChosenGrows(ids, p, p', t, n);
    ChosenIsChoosable(ids, p', t, n);
    assert LeadOk(ids, p', t, u, n);
    assert p.tlog[t] <= p'.tlog[t];
  }

  /** Chosen only after the later leader was elected, and carried by it nevertheless. */
  lemma CarriedBefore(ids: set<NodeId>, p: Proto, p': Proto, t: Term, u: Term, n: nat)
    requires ProtoInv(ids, p) && Domains(ids, p') && Grows(p, p') && Chosen(ids, p', t, n) && t < u && u in p.tlog
    ensures Carries(p.tlog[u], p'.tlog[t], n)
  {
    ChosenIsChoosable(ids, p', t, n);
    NothingNewIsChoosable(ids, p, p', t, u, n);
    ChoosableBack(ids, p, p', t, n);
    assert LeadOk(ids, p, t, u, n);
    assert p.tlog[t] <= p'.tlog[t];
  }

  /** A chosen entry at one moment, a later term's leader at another: the leader carries the entry. */
  lemma ChosenIsCarried(cfg: Config, steps: seq<Step>, ps: seq<Proto>, k: nat, j: nat, t: Term, u: Term, n: nat)
    requires Histories(cfg, steps, ps) && k <= |steps| && j <= |steps|
    requires Chosen(cfg.Keys, ps[k], t, n) && t < u && u in ps[j].tlog
    ensures Carries(ps[j].tlog[u], ps[k].tlog[t], n)
  {
    assert HistoryAt(cfg, steps, ps, j, j) && HistoryAt(cfg, steps, ps, k, k);
    if k <= j {
      assert HistoryAt(cfg, steps, ps, k, j);
      CarriedLater(cfg.Keys, ps[k], ps[j], t, u, n);
    } else {
      assert HistoryAt(cfg, steps, ps, j, k);
      CarriedBefore(cfg.Keys, ps[j], ps[k], t, u, n);
    }
  }

  /** Leader Completeness: once a leader of term t has moved its commit index to n, the leader of every later
      term, at any moment of the run, holds the same first n entries. */
  lemma LeaderCompleteness(cfg: Config, steps: seq<Step>, k: nat, a: NodeId, n: Index, j: nat, b: NodeId, u: Term)
    requires ValidConfig(cfg) && Commits(cfg, steps, k, a, n) && j <= |steps|
    requires Leads(At(cfg, steps, j), b, u) && At(cfg, steps, k + 1).servers[a].node.pstate.term < u
    ensures Carries(LogOf(At(cfg, steps, j), b), LogOf(At(cfg, steps, k + 1), a), n)
  {
    var ps := RunInv(cfg, steps);
    CommitsAreChosen(cfg, steps, ps, k, a, n);
    assert HistoryAt(cfg, steps, ps, j, j);
    LeadsFacts(cfg, At(cfg, steps, j), ps[j], b, u);
    ChosenIsCarried(cfg, steps, ps, k + 1, j, At(cfg, steps, k + 1).servers[a].node.pstate.term, u, n);
  }

  // ---------- Durability ----------

  /** Everyone who acknowledged a chosen entry still holds it, whatever term it has moved on to. */
  lemma AckersHold(cfg: Config, s: State, p: Proto, t: Term, n: nat, q: NodeId)
    requires Inv(cfg, s, p) && Chosen(cfg.Keys, p, t, n) && q in Ackers(cfg.Keys, p, t, n)
    ensures q in s.servers && Carries(LogOf(s, q), p.tlog[t], n)
    ensures Replay(s.servers[q].disk) == Restored(s.servers[q].node.pstate)
  {
    ChosenIsChoosable(cfg.Keys, p, t, n);
    assert KeepOk(cfg.Keys, p, q, t, n);
    assert ServerAt(cfg, s, p, q);
  }

  /** The same for an entry that was chosen some time ago. */
  lemma HolderLater(cfg: Config, s: State, p: Proto, p': Proto, t: Term, n: nat, q: NodeId)
    requires Inv(cfg, s, p') && Grows(p, p') && Chosen(cfg.Keys, p, t, n) && Chosen(cfg.Keys, p', t, n)
    requires q in Ackers(cfg.Keys, p', t, n)
    ensures q in s.servers && Carries(LogOf(s, q), p.tlog[t], n)
    ensures Replay(s.servers[q].disk) == Restored(s.servers[q].node.pstate)
  {
    AckersHold(cfg, s, p', t, n, q);
    assert p.tlog[t] <= p'.tlog[t];
    CarriedAcross(LogOf(s, q), p'.tlog[t], p.tlog[t], n);
  }

  /** Committed entries are on a majority for good: from the moment a leader commits index n, at every later
      moment of the run, a quorum of nodes holds the leader's first n entries, in memory and on disk. */
  lemma CommittedOnMajority(cfg: Config, steps: seq<Step>, k: nat, a: NodeId, n: Index, j: nat) returns (holders: set<NodeId>)
    requires ValidConfig(cfg) && Commits(cfg, steps, k, a, n) && k < j <= |steps|
    ensures holders <= cfg.Keys && 2 * |holders| > |cfg.Keys|
    ensures forall q :: q in holders ==>
              && q in At(cfg, steps, j).servers
              && Carries(LogOf(At(cfg, steps, j), q), LogOf(At(cfg, steps, k + 1), a), n)
              && Replay(At(cfg, steps, j).servers[q].disk) == Restored(At(cfg, steps, j).servers[q].node.pstate)
  {
    var ps := RunInv(cfg, steps);
    CommitsAreChosen(cfg, steps, ps, k, a, n);
    var t := At(cfg, steps, k + 1).servers[a].node.pstate.term;
    assert HistoryAt(cfg, steps, ps, k + 1, j) && HistoryAt(cfg, steps, ps, j, j);
    ChosenGrows(cfg.Keys, ps[k + 1], ps[j], t, n);
    holders := Ackers(cfg.Keys, ps[j], t, n);
    forall q | q in holders
      ensures q in At(cfg, steps, j).servers
      ensures Carries(LogOf(At(cfg, steps, j), q), LogOf(At(cfg, steps, k + 1), a), n)
      ensures Replay(At(cfg, steps, j).servers[q].disk) == Restored(At(cfg, steps, j).servers[q].node.pstate)
    {
      HolderLater(cfg, At(cfg, steps, j), ps[k + 1], ps[j], t, n, q);
    }
  }

  lemma CarriedAcross(log: Log, ldr: Log, early: Log, n: nat)
    requires Carries(log, ldr, n) && early <= ldr && n <= |early|
    ensures Carries(log, early, n)
  {
  }

  /** A log that carries the first n entries of another is at least as up to date as those entries. */
  lemma CarrierIsUpToDate(log: Log, ldr: Log, n: nat)
    requires Sorted(log) && 1 <= n && Carries(log, ldr, n)
    ensures CheckLog(|log|, LastTerm(log), n, ldr[n - 1].term)
  {
    CarriesAt(log, ldr, n);
    assert log[n - 1].term <= log[|log| - 1].term;
  }

  lemma ChosenIsCarriedIff(ids: set<NodeId>, p: Proto, t: Term, n: nat, q: NodeId)
    requires ProtoInv(ids, p) && Chosen(ids, p, t, n) && q in ids
    ensures Carries(p.log[q], p.tlog[t], n) <==>
              CheckLog(|p.log[q]|, LastTerm(p.log[q]), n, p.tlog[t][n - 1].term)
  {
    var log, ldr := p.log[q], p.tlog[t];
    assert NodeOk(ids, p, q) && LeaderOk(ids, p, t);
    if Carries(log, ldr, n) {
      CarrierIsUpToDate(log, ldr, n);
    } else if CheckLog(|log|, LastTerm(log), n, ldr[n - 1].term) {
      var u := p.term[q] + t;
      LogOkGrows(p.tlog, p.tlog, log, p.term[q], u);
      LogOkGrows(p.tlog, p.tlog, ldr, t, u);
      LogOkPrefix(p.tlog, ldr, u, n);
      ChosenIsChoosable(ids, p, t, n);
      assert ldr[..n][..n] == ldr[..n];
      UpToDateCarries(ids, p, log, ldr[..n], t, n, u);
    }
  }

  /** The same for an entry that was chosen some time ago. */
  lemma HeldLaterIff(cfg: Config, s: State, p: Proto, p': Proto, t: Term, n: nat, q: NodeId)
    requires Inv(cfg, s, p') && Grows(p, p') && Chosen(cfg.Keys, p, t, n) && q in cfg
    ensures q in s.servers
    ensures Carries(LogOf(s, q), p.tlog[t], n) <==>
              CheckLog(|LogOf(s, q)|, LastTerm(LogOf(s, q)), n, p.tlog[t][n - 1].term)
  {
    assert ServerAt(cfg, s, p', q);
    ChosenGrows(cfg.Keys, p, p', t, n);
    ChosenIsCarriedIff(cfg.Keys, p', t, n, q);
    assert p.tlog[t] <= p'.tlog[t];
    assert p.tlog[t][..n] == p'.tlog[t][..n];
  }

  /** Who holds what is committed: at every moment after a leader commits index n, an instance holds the leader's
      first n entries if and only if its log is, by the voting rule, at least as up to date as those entries. */
  lemma HoldsCommittedExact(cfg: Config, steps: seq<Step>, k: nat, a: NodeId, n: Index, j: nat, q: NodeId)
    requires ValidConfig(cfg) && Commits(cfg, steps, k, a, n) && k < j <= |steps| && q in cfg
    ensures q in At(cfg, steps, j).servers && 1 <= n <= |LogOf(At(cfg, steps, k + 1), a)|
    ensures var log, ldr := LogOf(At(cfg, steps, j), q), LogOf(At(cfg, steps, k + 1), a);
            Carries(log, ldr, n) <==> CheckLog(|log|, LastTerm(log), n, ldr[n - 1].term)
  {
    var ps := RunInv(cfg, steps);
    CommitsAreChosen(cfg, steps, ps, k, a, n);
    var t := At(cfg, steps, k + 1).servers[a].node.pstate.term;
    assert HistoryAt(cfg, steps, ps, k + 1, j) && HistoryAt(cfg, steps, ps, j, j);
    HeldLaterIff(cfg, At(cfg, steps, j), ps[k + 1], ps[j], t, n, q);
  }

  // ---------- Requests and votes ----------

  /** No request in flight ever trips the receiver's index or capacity check: a batch is refused only by the term
      check or by the consistency check. */
  lemma NoStructuralRejection(cfg: Config, steps: seq<Step>, pkt: Packet, w: nat)
    requires ValidConfig(cfg) && pkt in Run(cfg, steps).net && pkt.body.AppendReq?
    ensures pkt.dst in Run(cfg, steps).servers
    ensures var req, log := pkt.body.areq, LogOf(Run(cfg, steps), pkt.dst);
            PrevMatches(log, req) ==> AppendLoop(log, req.prevIndex, req.entries, 0, w).stop != Rejected
  {
    var ps := RunInv(cfg, steps);
    var m := |steps|;
    assert HistoryAt(cfg, steps, ps, m, m);
    assert steps[..m] == steps;
    var p, req := ps[m], pkt.body.areq;
    assert PacketAt(cfg.Keys, Run(cfg, steps).net, pkt, p) && ServerAt(cfg, Run(cfg, steps), p, pkt.dst);
    if PrevMatches(p.log[pkt.dst], req) {
      assert LeaderOk(cfg.Keys, p, req.term);
      ServerMatches(cfg.Keys, p, pkt.dst, req.term);
      PrevCarries(p.log[pkt.dst], p.tlog[req.term], req);
      var pos, last, cut := LoopEnds(p.log[pkt.dst], p.tlog[req.term], req, 0, w);
    }
  }

  /** A voter that was behind grants its vote under its old term, and the candidate drops that answer. */
  lemma LateGrantIsDropped(voter: Node, cand: Node, req: VoteRequest, w: nat, v: nat)
    requires voter.pstate.term < req.term <= cand.pstate.term
    requires |cand.cstate.responded| == |cand.cstate.granted| == |cand.peers|
    ensures HandleVoteResponse(cand, HandleVoteRequest(voter, req, w).1, voter.id, v) == Outcome(cand, [], false)
  {
  }
}
