/** The moves that history can make, one per record written or per vote, election or acknowledgement,
    and the proof that each of them keeps the protocol invariant. */
module ProtocolSteps {
  import opened RaftTypes
  import opened Protocol

  // ---------- What any step keeps ----------

  /** Anything choosable and already acknowledged was choosable before, with the same entries. */
  lemma CarryBack(ids: set<NodeId>, p: Proto, p': Proto, q: NodeId, t: Term, n: nat)
    requires Domains(ids, p) && Domains(ids, p') && Grows(p, p') && AckOk(ids, p, q, t)
    requires Acked(p, q, t) >= n && Choosable(ids, p', t, n)
    ensures Choosable(ids, p, t, n) && Carries(p'.tlog[t], p.tlog[t], n)
  {
    ChoosableBack(ids, p, p', t, n);
  }

  lemma KeepPoint(ids: set<NodeId>, p: Proto, p': Proto, q: NodeId, t: Term, n: nat)
    requires Domains(ids, p) && Domains(ids, p') && Grows(p, p') && AckOk(ids, p, q, t) && KeepOk(ids, p, q, t, n)
    requires q in ids ==> Acked(p', q, t) == Acked(p, q, t) && p.log[q] <= p'.log[q]
    ensures KeepOk(ids, p', q, t, n)
  {
    if Choosable(ids, p', t, n) && q in ids && Acked(p', q, t) >= n {
      CarryBack(ids, p, p', q, t, n);
    }
  }

  lemma KeepVotePoint(ids: set<NodeId>, p: Proto, p': Proto, q: NodeId, u: Term, t: Term, n: nat)
    requires Domains(ids, p) && Domains(ids, p') && Grows(p, p') && AckOk(ids, p, q, t)
    requires (q, u) in p.ballots && BallotOk(ids, p, q, u) && KeepVoteOk(ids, p, q, u, t, n)
    ensures KeepVoteOk(ids, p', q, u, t, n)
  {
    if Choosable(ids, p', t, n) && (q, u) in p'.ballots && t < u && Acked(p', q, t) >= n {
      CarryBack(ids, p, p', q, t, n);
    }
  }

  lemma NewVotePoint(ids: set<NodeId>, p: Proto, p': Proto, q: NodeId, u: Term, t: Term, n: nat)
    requires Domains(ids, p) && Domains(ids, p') && Grows(p, p') && AckOk(ids, p, q, t) && KeepOk(ids, p, q, t, n)
    requires q in ids && (q, u) in p'.ballots && p'.ballots[(q, u)].log == p.log[q] && p'.acked == p.acked
    ensures KeepVoteOk(ids, p', q, u, t, n)
  {
    if Choosable(ids, p', t, n) && t < u && Acked(p', q, t) >= n {
      assert Acked(p', q, t) == Acked(p, q, t);
      CarryBack(ids, p, p', q, t, n);
    }
  }

  /** Ballots already cast stay safe; a ballot cast now is safe because the voter's log is. */
  lemma KeepVotesStep(ids: set<NodeId>, p: Proto, p': Proto)
    requires Domains(ids, p) && AcksOk(ids, p) && BallotsOk(ids, p) && KeepsOk(ids, p) && KeepVotesOk(ids, p)
    requires Domains(ids, p') && Grows(p, p')
    requires forall q: NodeId, u: Term :: (q, u) in p'.ballots && (q, u) !in p.ballots ==>
               q in ids && p'.acked == p.acked && p'.ballots[(q, u)].log == p.log[q]
    ensures KeepVotesOk(ids, p')
  {
    forall q: NodeId, u: Term, t: Term, n: nat ensures KeepVoteOk(ids, p', q, u, t, n) {
      assert AckOk(ids, p, q, t);
      if (q, u) in p.ballots {
        assert KeepVoteOk(ids, p, q, u, t, n);
        KeepVotePoint(ids, p, p', q, u, t, n);
      } else if (q, u) in p'.ballots {
        assert KeepOk(ids, p, q, t, n);
        NewVotePoint(ids, p, p', q, u, t, n);
      }
    }
  }

  /** A later leader exists, so nothing new can become choosable in an older term. */
  lemma NothingNewIsChoosable(ids: set<NodeId>, p: Proto, p': Proto, t: Term, u: Term, n: nat)
    requires Domains(ids, p) && LeadersOk(ids, p) && BallotsOk(ids, p) && AcksOk(ids, p)
    requires Domains(ids, p') && Grows(p, p')
    requires t < u && u in p.tlog && Choosable(ids, p', t, n)
    ensures t in p.tlog && n <= |p.tlog[t]|
  {
    assert LeaderOk(ids, p, u);
    var q := QuorumsMeet(ids, Voters(ids, p, u, p.leaderOf[u]), Supporters(ids, p', t, n));
    assert BallotOk(ids, p, q, u);
    assert Acked(p', q, t) == Acked(p, q, t);
    assert AckOk(ids, p, q, t);
  }

  lemma LeadPoint(ids: set<NodeId>, p: Proto, p': Proto, t: Term, u: Term, n: nat)
    requires Domains(ids, p) && LeadersOk(ids, p) && BallotsOk(ids, p) && AcksOk(ids, p)
    requires Domains(ids, p') && Grows(p, p')
    requires u in p.tlog && LeadOk(ids, p, t, u, n)
    ensures LeadOk(ids, p', t, u, n)
  {
    if Choosable(ids, p', t, n) && t < u {
      NothingNewIsChoosable(ids, p, p', t, u, n);
      ChoosableBack(ids, p, p', t, n);
    }
  }

  lemma LeadsStep(ids: set<NodeId>, p: Proto, p': Proto)
    requires Domains(ids, p) && LeadersOk(ids, p) && BallotsOk(ids, p) && AcksOk(ids, p) && LeadsOk(ids, p)
    requires Domains(ids, p') && Grows(p, p') && p'.tlog.Keys == p.tlog.Keys
    ensures LeadsOk(ids, p')
  {
    forall t: Term, u: Term, n: nat ensures LeadOk(ids, p', t, u, n) {
      assert LeadOk(ids, p, t, u, n);
      if u in p.tlog {
        LeadPoint(ids, p, p', t, u, n);
      }
    }
  }

  lemma KeepsStep(ids: set<NodeId>, p: Proto, p': Proto, i: NodeId)
    requires Domains(ids, p) && AcksOk(ids, p) && KeepsOk(ids, p)
    requires Domains(ids, p') && StepBy(p, p', i)
    requires forall q: NodeId, t: Term :: q != i ==> Acked(p', q, t) == Acked(p, q, t)
    requires forall t: Term, n: nat :: KeepOk(ids, p', i, t, n)
    ensures KeepsOk(ids, p')
  {
    forall q: NodeId, t: Term, n: nat ensures KeepOk(ids, p', q, t, n) {
      if q != i {
        assert AckOk(ids, p, q, t) && KeepOk(ids, p, q, t, n);
        KeepPoint(ids, p, p', q, t, n);
      }
    }
  }

  lemma AckPoint(ids: set<NodeId>, p: Proto, p': Proto, q: NodeId, t: Term)
    requires Domains(ids, p) && Domains(ids, p') && Grows(p, p') && AckOk(ids, p, q, t)
    requires Acked(p', q, t) == Acked(p, q, t)
    requires q in ids ==> p.log[q] <= p'.log[q]
    ensures AckOk(ids, p', q, t)
  {
  }

  lemma AcksStep(ids: set<NodeId>, p: Proto, p': Proto, i: NodeId)
    requires Domains(ids, p) && AcksOk(ids, p)
    requires Domains(ids, p') && StepBy(p, p', i)
    requires forall q: NodeId, t: Term :: q != i ==> Acked(p', q, t) == Acked(p, q, t)
    requires forall t: Term :: AckOk(ids, p', i, t)
    ensures AcksOk(ids, p')
  {
    forall q: NodeId, t: Term ensures AckOk(ids, p', q, t) {
      if q != i {
        assert AckOk(ids, p, q, t);
        AckPoint(ids, p, p', q, t);
      }
    }
  }

  lemma NodesStep(ids: set<NodeId>, p: Proto, p': Proto, i: NodeId)
    requires Domains(ids, p) && NodesOk(ids, p)
    requires Domains(ids, p') && StepBy(p, p', i)
    requires NodeOk(ids, p', i)
    ensures NodesOk(ids, p')
  {
    forall q: NodeId ensures NodeOk(ids, p', q) {
      assert NodeOk(ids, p, q);
      if q != i && q in ids {
        LogOkGrows(p.tlog, p'.tlog, p.log[q], p.term[q], p'.term[q]);
      }
    }
  }

  lemma BallotPoint(ids: set<NodeId>, p: Proto, p': Proto, q: NodeId, t: Term)
    requires Domains(ids, p) && Domains(ids, p') && Grows(p, p') && BallotOk(ids, p, q, t)
    requires (q, t) in p.ballots
    ensures BallotOk(ids, p', q, t)
  {
    LogOkGrows(p.tlog, p'.tlog, p.ballots[(q, t)].log, t, t);
  }

  lemma BallotsStep(ids: set<NodeId>, p: Proto, p': Proto)
    requires Domains(ids, p) && BallotsOk(ids, p) && CampaignsOk(ids, p)
    requires Domains(ids, p') && Grows(p, p')
    requires forall q: NodeId, t: Term :: (q, t) in p'.ballots && (q, t) !in p.ballots ==> BallotOk(ids, p', q, t)
    requires forall c: NodeId, t: Term :: (c, t) in p'.campaign && (c, t) !in p.campaign ==> CampaignOk(ids, p', c, t)
    ensures BallotsOk(ids, p') && CampaignsOk(ids, p')
  {
    forall q: NodeId, t: Term ensures BallotOk(ids, p', q, t) {
      assert BallotOk(ids, p, q, t);
      if (q, t) in p.ballots {
        BallotPoint(ids, p, p', q, t);
      }
    }
    forall c: NodeId, t: Term ensures CampaignOk(ids, p', c, t) {
      assert CampaignOk(ids, p, c, t);
    }
  }

  lemma VotersGrow(ids: set<NodeId>, p: Proto, p': Proto, t: Term, c: NodeId)
    requires Grows(p, p') && IsQuorum(ids, Voters(ids, p, t, c))
    ensures IsQuorum(ids, Voters(ids, p', t, c))
  {
    QuorumGrows(ids, Voters(ids, p, t, c), Voters(ids, p', t, c));
  }

  /** The leader of t is not i, or i has not touched what it built as leader. */
  lemma LeaderPoint(ids: set<NodeId>, p: Proto, p': Proto, i: NodeId, t: Term)
    requires Domains(ids, p) && Domains(ids, p') && StepBy(p, p', i)
    requires t in p.tlog && LeaderOk(ids, p, t) && p'.tlog[t] == p.tlog[t]
    requires Acked(p', p.leaderOf[t], t) == Acked(p, p.leaderOf[t], t)
    requires p.leaderOf[t] == i && p'.term[i] == t ==> p.term[i] == t && p'.log[i] == p.log[i]
    ensures LeaderOk(ids, p', t)
  {
    LogOkGrows(p.tlog, p'.tlog, p.tlog[t], t, t);
    VotersGrow(ids, p, p', t, p.leaderOf[t]);
  }

  /** Leaders of all terms but w are as before. */
  lemma LeadersStep(ids: set<NodeId>, p: Proto, p': Proto, i: NodeId, w: Term)
    requires Domains(ids, p) && LeadersOk(ids, p) && Domains(ids, p') && StepBy(p, p', i)
    requires i in ids && w == p.term[i] && LeaderOk(ids, p', w)
    requires forall u: Term :: u in p'.tlog && u != w ==> u in p.tlog && p'.tlog[u] == p.tlog[u]
    requires forall q: NodeId, u: Term :: u != w ==> Acked(p', q, u) == Acked(p, q, u)
    requires p'.term[i] != w ==> p'.log[i] == p.log[i]
    ensures LeadersOk(ids, p')
  {
    forall u: Term ensures LeaderOk(ids, p', u) {
      assert LeaderOk(ids, p, u);
      if u in p.tlog && u != w {
        LeaderPoint(ids, p, p', i, u);
      }
    }
  }

  /** All that a step of i has to show for itself. */
  lemma Assemble(ids: set<NodeId>, p: Proto, p': Proto, i: NodeId)
    requires ProtoInv(ids, p) && Domains(ids, p') && StepBy(p, p', i)
    requires forall q: NodeId, t: Term :: q != i ==> Acked(p', q, t) == Acked(p, q, t)
    requires NodeOk(ids, p', i)
    requires forall t: Term :: AckOk(ids, p', i, t)
    requires forall t: Term, n: nat :: KeepOk(ids, p', i, t, n)
    requires forall q: NodeId, t: Term :: (q, t) in p'.ballots && (q, t) !in p.ballots ==>
               BallotOk(ids, p', q, t) && p'.ballots[(q, t)].log == p.log[q] && p'.acked == p.acked && q in ids
    requires forall c: NodeId, t: Term :: (c, t) in p'.campaign && (c, t) !in p.campaign ==> CampaignOk(ids, p', c, t)
    requires LeadersOk(ids, p') && LeadsOk(ids, p')
    ensures ProtoInv(ids, p')
  {
    NodesStep(ids, p, p', i);
    BallotsStep(ids, p, p');
    AcksStep(ids, p, p', i);
    KeepsStep(ids, p, p', i);
    KeepVotesStep(ids, p, p');
  }

  /** i keeps its log (or extends it) and acknowledges nothing new. */
  lemma SameAcks(ids: set<NodeId>, p: Proto, p': Proto, i: NodeId)
    requires Domains(ids, p) && AcksOk(ids, p) && KeepsOk(ids, p) && Domains(ids, p') && Grows(p, p')
    requires i in ids && p'.acked == p.acked && p.log[i] <= p'.log[i]
    ensures forall t: Term :: AckOk(ids, p', i, t)
    ensures forall t: Term, n: nat :: KeepOk(ids, p', i, t, n)
  {
    forall u: Term ensures AckOk(ids, p', i, u) {
      assert AckOk(ids, p, i, u);
      AckPoint(ids, p, p', i, u);
    }
    forall u: Term, n: nat ensures KeepOk(ids, p', i, u, n) {
      assert AckOk(ids, p, i, u) && KeepOk(ids, p, i, u, n);
      KeepPoint(ids, p, p', i, u, n);
    }
  }

  /** i keeps its log (or extends it) and acknowledges, in its current term, a prefix that it holds. */
  lemma OwnTermAcks(ids: set<NodeId>, p: Proto, p': Proto, i: NodeId)
    requires Domains(ids, p) && AcksOk(ids, p) && KeepsOk(ids, p) && Domains(ids, p') && Grows(p, p')
    requires i in ids && p.log[i] <= p'.log[i] && p'.term[i] == p.term[i] && p.term[i] in p'.tlog
    requires forall u: Term :: u != p.term[i] ==> Acked(p', i, u) == Acked(p, i, u)
    requires Carries(p'.log[i], p'.tlog[p.term[i]], Acked(p', i, p.term[i]))
    ensures forall t: Term :: AckOk(ids, p', i, t)
    ensures forall t: Term, n: nat :: KeepOk(ids, p', i, t, n)
  {
    forall u: Term ensures AckOk(ids, p', i, u) {
      assert AckOk(ids, p, i, u);
      if u != p.term[i] {
        AckPoint(ids, p, p', i, u);
      }
    }
    forall u: Term, n: nat ensures KeepOk(ids, p', i, u, n) {
      assert AckOk(ids, p, i, u) && KeepOk(ids, p, i, u, n);
      if u != p.term[i] {
        KeepPoint(ids, p, p', i, u, n);
      } else {
        CarriesAt(p'.log[i], p'.tlog[u], Acked(p', i, u));
      }
    }
  }

  /** A step of i that elects nobody and acknowledges nothing, leaves leaders' logs alone,
      and lets i's own log only grow. */
  lemma QuietStep(ids: set<NodeId>, p: Proto, p': Proto, i: NodeId)
    requires ProtoInv(ids, p) && i in ids && Domains(ids, p') && StepBy(p, p', i)
    requires p'.tlog == p.tlog && p'.acked == p.acked && p.log[i] <= p'.log[i]
    requires p.term[i] != p'.term[i] ==> p'.log[i] == p.log[i]
    requires NodeOk(ids, p', i)
    requires p.log[i] == p'.log[i] || (p.term[i] in p.tlog ==> |p.log[i]| < |p.tlog[p.term[i]]|)
    requires forall q: NodeId, t: Term :: (q, t) in p'.ballots && (q, t) !in p.ballots ==>
               BallotOk(ids, p', q, t) && p'.ballots[(q, t)].log == p.log[q] && q in ids
    requires forall c: NodeId, t: Term :: (c, t) in p'.campaign && (c, t) !in p.campaign ==> CampaignOk(ids, p', c, t)
    ensures ProtoInv(ids, p')
  {
    SameAcks(ids, p, p', i);
    LeadsStep(ids, p, p');
    assert LeaderOk(ids, p, p.term[i]);
    if p.term[i] in p.tlog {
      LeaderPoint(ids, p, p', i, p.term[i]);
    }
    LeadersStep(ids, p, p', i, p.term[i]);
    Assemble(ids, p, p', i);
  }

  // ---------- Terms and ballots ----------

  ghost function Bump(p: Proto, i: NodeId, t: Term): Proto {
    p.(term := p.term[i := t])
  }

  lemma BumpMoves(ids: set<NodeId>, p: Proto, i: NodeId, t: Term)
    requires Domains(ids, p) && i in ids && p.term[i] <= t
    ensures Domains(ids, Bump(p, i, t)) && StepBy(p, Bump(p, i, t), i)
  {
    assert Bump(p, i, t).term.Keys == ids;
  }

  /** update_term_locked: a node learns of a higher term. */
  lemma BumpStep(ids: set<NodeId>, p: Proto, i: NodeId, t: Term)
    requires ProtoInv(ids, p) && i in ids && p.term[i] <= t
    ensures ProtoInv(ids, Bump(p, i, t)) && StepBy(p, Bump(p, i, t), i)
  {
    assert NodeOk(ids, p, i);
    LogOkGrows(p.tlog, p.tlog, p.log[i], p.term[i], t);
    BumpMoves(ids, p, i, t);
    QuietStep(ids, p, Bump(p, i, t), i);
  }

  ghost function Cast(p: Proto, i: NodeId, c: NodeId): Proto
    requires i in p.term && i in p.log
  {
    p.(ballots := p.ballots[(i, p.term[i]) := Ballot(c, p.log[i])])
  }

  /** A node casts its one ballot of this term. */
  lemma CastStep(ids: set<NodeId>, p: Proto, i: NodeId, c: NodeId)
    requires ProtoInv(ids, p) && i in ids && (i, p.term[i]) !in p.ballots
    requires (c, p.term[i]) in p.campaign && UpToDate(p.campaign[(c, p.term[i])], p.log[i])
    ensures ProtoInv(ids, Cast(p, i, c)) && StepBy(p, Cast(p, i, c), i)
  {
    assert NodeOk(ids, p, i);
    QuietStep(ids, p, Cast(p, i, c), i);
  }

  ghost function Announce(p: Proto, i: NodeId): Proto
    requires i in p.term && i in p.log
  {
    p.(campaign := p.campaign[(i, p.term[i]) := p.log[i]])
  }

  /** A node starts to campaign with the log it holds. */
  lemma AnnounceStep(ids: set<NodeId>, p: Proto, i: NodeId)
    requires ProtoInv(ids, p) && i in ids && (i, p.term[i]) !in p.campaign
    ensures ProtoInv(ids, Announce(p, i)) && StepBy(p, Announce(p, i), i)
  {
    assert NodeOk(ids, p, i);
    QuietStep(ids, p, Announce(p, i), i);
  }

  // ---------- A follower's log ----------

  ghost function SetLog(p: Proto, i: NodeId, log: Log): Proto {
    p.(log := p.log[i := log])
  }

  lemma LogOkExtend(tlog: map<Term, Log>, ldr: Log, bound: Term, k: nat)
    requires LogOk(tlog, ldr, bound) && k < |ldr|
    ensures LogOk(tlog, ldr[..k] + [ldr[k]], bound)
  {
    LogOkPrefix(tlog, ldr, bound, k + 1);
    assert ldr[..k] + [ldr[k]] == ldr[..k + 1];
  }

  /** A follower whose log is a proper prefix of its leader's appends the leader's next entry. */
  lemma ExtendStep(ids: set<NodeId>, p: Proto, i: NodeId)
    requires ProtoInv(ids, p) && i in ids && p.term[i] in p.tlog
    requires p.log[i] < p.tlog[p.term[i]]
    ensures var p' := SetLog(p, i, p.log[i] + [p.tlog[p.term[i]][|p.log[i]|]]); ProtoInv(ids, p') && StepBy(p, p', i)
  {
    var ldr := p.tlog[p.term[i]];
    assert LeaderOk(ids, p, p.term[i]);
    assert p.log[i] == ldr[..|p.log[i]|];
    LogOkExtend(p.tlog, ldr, p.term[i], |p.log[i]|);
    QuietStep(ids, p, SetLog(p, i, p.log[i] + [ldr[|p.log[i]|]]), i);
  }

  /** Entries that agree with the leader's log in every choosable position survive a cut at the first
      position where the leader disagrees. */
  lemma CutPoint(ids: set<NodeId>, p: Proto, p': Proto, i: NodeId, pos: nat, t: Term, n: nat)
    requires Domains(ids, p) && LeadersOk(ids, p) && AcksOk(ids, p) && KeepsOk(ids, p) && LeadsOk(ids, p)
    requires i in ids && p.term[i] in p.tlog && pos < |p.log[i]| && pos < |p.tlog[p.term[i]]|
    requires p.log[i][pos].term != p.tlog[p.term[i]][pos].term
    requires p' == SetLog(p, i, p.log[i][..pos]) && Domains(ids, p') && Grows(p, p')
    ensures KeepOk(ids, p', i, t, n)
  {
    if Choosable(ids, p', t, n) && Acked(p', i, t) >= n {
      assert AckOk(ids, p, i, t);
      CarryBack(ids, p, p', i, t, n);
      assert KeepOk(ids, p, i, t, n);
      assert LeadOk(ids, p, t, p.term[i], n);
      CarriesAt(p.log[i], p.tlog[t], n);
      CarriesAt(p.tlog[p.term[i]], p.tlog[t], n);
    }
  }

  lemma CutAckPoint(ids: set<NodeId>, p: Proto, p': Proto, i: NodeId, pos: nat, u: Term)
    requires Domains(ids, p) && AckOk(ids, p, i, u)
    requires i in ids && p.term[i] in p.tlog && pos < |p.log[i]| && pos < |p.tlog[p.term[i]]|
    requires p.log[i][pos].term != p.tlog[p.term[i]][pos].term
    requires p' == SetLog(p, i, p.log[i][..pos]) && Domains(ids, p')
    ensures AckOk(ids, p', i, u)
  {
    var a := Acked(p, i, u);
    if a > 0 && u == p.term[i] {
      CarriesAt(p.log[i], p.tlog[u], a);
    }
  }

  lemma CutAcks(ids: set<NodeId>, p: Proto, p': Proto, i: NodeId, pos: nat)
    requires Domains(ids, p) && LeadersOk(ids, p) && AcksOk(ids, p) && KeepsOk(ids, p) && LeadsOk(ids, p)
    requires i in ids && p.term[i] in p.tlog && pos < |p.log[i]| && pos < |p.tlog[p.term[i]]|
    requires p.log[i][pos].term != p.tlog[p.term[i]][pos].term
    requires p' == SetLog(p, i, p.log[i][..pos]) && Domains(ids, p') && Grows(p, p')
    ensures forall t: Term :: AckOk(ids, p', i, t)
    ensures forall t: Term, n: nat :: KeepOk(ids, p', i, t, n)
  {
    forall u: Term ensures AckOk(ids, p', i, u) {
      assert AckOk(ids, p, i, u);
      CutAckPoint(ids, p, p', i, pos, u);
    }
    forall u: Term, n: nat ensures KeepOk(ids, p', i, u, n) {
      CutPoint(ids, p, p', i, pos, u, n);
    }
  }

  /** A follower cuts its log at the first entry that its leader's log contradicts. */
  lemma CutStep(ids: set<NodeId>, p: Proto, i: NodeId, pos: nat)
    requires ProtoInv(ids, p) && i in ids && p.term[i] in p.tlog
    requires pos < |p.log[i]| && pos < |p.tlog[p.term[i]]|
    requires p.log[i][pos].term != p.tlog[p.term[i]][pos].term
    ensures var p' := SetLog(p, i, p.log[i][..pos]); ProtoInv(ids, p') && StepBy(p, p', i)
  {
    var p' := SetLog(p, i, p.log[i][..pos]);
    assert LeaderOk(ids, p, p.term[i]) && NodeOk(ids, p, i);
    assert StepBy(p, p', i);
    CutAcks(ids, p, p', i, pos);
    LogOkPrefix(p.tlog, p.log[i], p.term[i], pos);
    LeadsStep(ids, p, p');
    LeaderPoint(ids, p, p', i, p.term[i]);
    LeadersStep(ids, p, p', i, p.term[i]);
    Assemble(ids, p, p', i);
  }

  // ---------- Acknowledgements ----------

  ghost function SetAck(p: Proto, i: NodeId, n: nat): Proto
    requires i in p.term
  {
    p.(acked := p.acked[(i, p.term[i]) := n])
  }

  /** A node acknowledges, in the leader's own term, a prefix that it holds. */
  lemma AckStep(ids: set<NodeId>, p: Proto, i: NodeId, n: nat)
    requires ProtoInv(ids, p) && i in ids && p.term[i] in p.tlog
    requires Acked(p, i, p.term[i]) <= n && Carries(p.log[i], p.tlog[p.term[i]], n)
    ensures ProtoInv(ids, SetAck(p, i, n)) && StepBy(p, SetAck(p, i, n), i)
  {
    var p' := SetAck(p, i, n);
    forall q: NodeId, t: Term ensures Acked(p', q, t) == if q == i && t == p.term[i] then n else Acked(p, q, t) { }
    assert LeaderOk(ids, p, p.term[i]) && NodeOk(ids, p, i);
    assert StepBy(p, p', i);
    OwnTermAcks(ids, p, p', i);
    LeadsStep(ids, p, p');
    LeaderPoint(ids, p, p', i, p.term[i]);
    LeadersStep(ids, p, p', i, p.term[i]);
    Assemble(ids, p, p', i);
  }

  // ---------- A leader's log ----------

  ghost function Lead(p: Proto, i: NodeId, log: Log): Proto
    requires i in p.term
  {
    var t := p.term[i];
    p.(log := p.log[i := log], tlog := p.tlog[t := log], acked := p.acked[(i, t) := |log|])
  }

  lemma LogOkAppend(tlog: map<Term, Log>, tlog': map<Term, Log>, log: Log, t: Term, e: Entry)
    requires LogOk(tlog, log, t) && TlogGrows(tlog, tlog') && e.index == |log| + 1 && e.term == t && |log| < RAFT_LOG_CAP
    requires t in tlog' && tlog'[t] == log + [e]
    ensures LogOk(tlog', log + [e], t)
  {
    LogOkGrows(tlog, tlog', log, t, t);
    var l := log + [e];
    forall k | 0 <= k < |l| ensures OwnedPrefix(tlog', l, k) {
      if k < |log| {
        assert OwnedPrefix(tlog', log, k);
        assert l[..k + 1] == log[..k + 1];
      }
    }
  }

  lemma LeadAcks(p: Proto, i: NodeId, log: Log)
    requires i in p.term
    ensures forall q: NodeId, u: Term ::
              Acked(Lead(p, i, log), q, u) == if q == i && u == p.term[i] then |log| else Acked(p, q, u)
  {
  }

  /** What leading with a longer log changes: the leader's log, its own copy and its own acknowledgement. */
  lemma LeadMoves(ids: set<NodeId>, p: Proto, i: NodeId, log: Log)
    requires Domains(ids, p) && i in ids && p.term[i] in p.tlog && p.leaderOf[p.term[i]] == i
    requires p.tlog[p.term[i]] <= log && Acked(p, i, p.term[i]) <= |log|
    ensures var p' := Lead(p, i, log);
            && Domains(ids, p') && StepBy(p, p', i)
            && forall q: NodeId, u: Term ::
                 Acked(p', q, u) == if q == i && u == p.term[i] then |log| else Acked(p, q, u)
  {
    LeadAcks(p, i, log);
  }

  /** The leader of the current term appends a command of its own. */
  lemma AppendStep(ids: set<NodeId>, p: Proto, i: NodeId, e: Entry)
    requires ProtoInv(ids, p) && i in ids && p.term[i] in p.tlog && p.leaderOf[p.term[i]] == i
    requires e.index == |p.log[i]| + 1 && e.term == p.term[i] && |p.log[i]| < RAFT_LOG_CAP
    ensures var p' := Lead(p, i, p.log[i] + [e]); ProtoInv(ids, p') && StepBy(p, p', i)
  {
    var t := p.term[i];
    var p' := Lead(p, i, p.log[i] + [e]);
    assert LeaderOk(ids, p, t) && NodeOk(ids, p, i);
    LeadMoves(ids, p, i, p.log[i] + [e]);
    OwnTermAcks(ids, p, p', i);
    LogOkAppend(p.tlog, p'.tlog, p.log[i], t, e);
    LeadsStep(ids, p, p');
    VotersGrow(ids, p, p', t, i);
    LeadersStep(ids, p, p', i, t);
    Assemble(ids, p, p', i);
  }

  // ---------- Election ----------

  ghost function Elect(p: Proto, i: NodeId): Proto
    requires i in p.term && i in p.log
  {
    Lead(p, i, p.log[i]).(leaderOf := p.leaderOf[p.term[i] := i])
  }

  /** The heart of Leader Completeness: a log at least as up to date as one that carries a choosable entry
      carries it as well. */
  lemma UpToDateCarries(ids: set<NodeId>, p: Proto, cand: Log, voter: Log, t: Term, n: nat, u: Term)
    requires Domains(ids, p) && LeadersOk(ids, p) && LeadsOk(ids, p)
    requires LogOk(p.tlog, cand, u) && LogOk(p.tlog, voter, u) && UpToDate(cand, voter)
    requires Choosable(ids, p, t, n) && Carries(voter, p.tlog[t], n)
    ensures Carries(cand, p.tlog[t], n)
  {
    assert voter[n - 1] == voter[..n][n - 1] == p.tlog[t][..n][n - 1];
    var tc, k := LastTerm(cand), |cand| - 1;
    assert cand != [];
    assert OwnedPrefix(p.tlog, cand, k);
    assert cand == cand[..k + 1] == p.tlog[tc][..k + 1];
    if tc == LastTerm(voter) {
      assert OwnedPrefix(p.tlog, voter, |voter| - 1);
      assert voter == voter[..|voter|] == cand[..|voter|];
      assert cand[..n] == voter[..n];
    } else {
      assert LeaderOk(ids, p, tc);
      assert LeadOk(ids, p, t, tc, n);
      assert p.tlog[tc][n - 1] == p.tlog[tc][..n][n - 1];
      assert n - 1 < k;
      assert cand[..n] == p.tlog[tc][..n];
    }
  }

  /** Anything choosable in an earlier term is carried by the log of whoever wins now. */
  lemma WinnerCarries(ids: set<NodeId>, p: Proto, i: NodeId, t: Term, n: nat)
    requires ProtoInv(ids, p) && i in ids && p.term[i] !in p.tlog
    requires (i, p.term[i]) in p.campaign && p.campaign[(i, p.term[i])] == p.log[i]
    requires IsQuorum(ids, Voters(ids, p, p.term[i], i))
    requires t < p.term[i] && Choosable(ids, p, t, n)
    ensures Carries(p.log[i], p.tlog[t], n)
  {
    var u := p.term[i];
    var q := QuorumsMeet(ids, Voters(ids, p, u, i), Supporters(ids, p, t, n));
    assert BallotOk(ids, p, q, u) && NodeOk(ids, p, i);
    assert KeepVoteOk(ids, p, q, u, t, n);
    UpToDateCarries(ids, p, p.log[i], p.ballots[(q, u)].log, t, n, u);
  }

  lemma ElectLeads(ids: set<NodeId>, p: Proto, i: NodeId, p': Proto)
    requires ProtoInv(ids, p) && i in ids && p.term[i] !in p.tlog
    requires (i, p.term[i]) in p.campaign && p.campaign[(i, p.term[i])] == p.log[i]
    requires IsQuorum(ids, Voters(ids, p, p.term[i], i))
    requires p' == Elect(p, i) && Domains(ids, p') && Grows(p, p')
    ensures LeadsOk(ids, p')
  {
    var w := p.term[i];
    forall t: Term, u: Term, n: nat ensures LeadOk(ids, p', t, u, n) {
      assert LeadOk(ids, p, t, u, n);
      if u in p.tlog {
        LeadPoint(ids, p, p', t, u, n);
      } else if u == w && t < u && Choosable(ids, p', t, n) {
        ChoosableBack(ids, p, p', t, n);
        WinnerCarries(ids, p, i, t, n);
      }
    }
  }

  lemma ElectMoves(ids: set<NodeId>, p: Proto, i: NodeId)
    requires Domains(ids, p) && i in ids && p.term[i] !in p.tlog && Acked(p, i, p.term[i]) <= |p.log[i]|
    ensures var p' := Elect(p, i);
            && Domains(ids, p') && StepBy(p, p', i)
            && forall q: NodeId, u: Term ::
                 Acked(p', q, u) == if q == i && u == p.term[i] then |p.log[i]| else Acked(p, q, u)
  {
    LeadAcks(p, i, p.log[i]);
    assert p.log[i := p.log[i]] == p.log;
  }

  /** Before a term has a leader, no entry carries it. */
  lemma NoEntryYet(tlog: map<Term, Log>, log: Log, t: Term)
    requires LogOk(tlog, log, t) && t !in tlog
    ensures LedFrom(log, log, t)
  {
    forall k | 0 <= k < |log| ensures log[k].term < t {
      assert OwnedPrefix(tlog, log, k);
    }
  }

  /** A candidate with a quorum of ballots becomes the one leader of its term. */
  lemma ElectStep(ids: set<NodeId>, p: Proto, i: NodeId)
    requires ProtoInv(ids, p) && i in ids && p.term[i] !in p.tlog
    requires (i, p.term[i]) in p.campaign && p.campaign[(i, p.term[i])] == p.log[i]
    requires IsQuorum(ids, Voters(ids, p, p.term[i], i))
    ensures ProtoInv(ids, Elect(p, i)) && StepBy(p, Elect(p, i), i)
  {
    var t := p.term[i];
    var p' := Elect(p, i);
    assert NodeOk(ids, p, i) && AckOk(ids, p, i, t);
    ElectMoves(ids, p, i);
    OwnTermAcks(ids, p, p', i);
    LogOkGrows(p.tlog, p'.tlog, p.log[i], t, t);
    NoEntryYet(p.tlog, p.log[i], t);
    ElectLeads(ids, p, i, p');
    VotersGrow(ids, p, p', t, i);
    LeadersStep(ids, p, p', i, t);
    Assemble(ids, p, p', i);
  }
}
