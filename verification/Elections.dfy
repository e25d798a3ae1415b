/** An election can be won: from every state of every run, further steps make any node the leader of a new term whose
    log is at least as up to date as the logs of a quorum. */
module Elections {
  import opened RaftTypes
  import opened RaftNode
  import opened Cluster
  import opened Protocol
  import opened ClusterInv
  import opened ServerSteps
  import opened ClusterSteps
  import opened Paths
  import opened Safety
  import opened Recovery
  import opened Duties

  /** What every state of a run says of a server. */
  ghost predicate Sane(cfg: Config, s: State, i: NodeId)
    requires i in cfg
  {
    && i in s.servers && NodeOf(s, i).id == i && NodeOf(s, i).peers == cfg[i] && Distinct(cfg[i]) && i !in cfg[i]
    && NodeOf(s, i).role != Failed && Shaped(NodeOf(s, i)) && Replay(DiskOf(s, i)) == Restored(NodeOf(s, i).pstate)
  }

  lemma SoundSane(cfg: Config, s: State, i: NodeId)
    requires Sound(cfg, s) && i in cfg
    ensures ValidConfig(cfg) && s.servers.Keys == cfg.Keys && Sane(cfg, s, i)
  {
    var p: Proto :| Inv(cfg, s, p);
    assert ServerAt(cfg, s, p, i);
    assert PeersOk(cfg.Keys, i, cfg[i]);
    assert i in PeerSet(cfg[i]) <==> i in cfg[i];
  }

  lemma SoundShaped(cfg: Config, s: State, i: NodeId)
    requires Sound(cfg, s) && i in cfg
    ensures s.servers.Keys == cfg.Keys && Shaped(NodeOf(s, i)) && NodeOf(s, i).peers == cfg[i]
    ensures Distinct(cfg[i]) && i !in cfg[i]
  {
    SoundSane(cfg, s, i);
  }

  // ---------- Asking ----------

  function Ask(t: Term, log: Log, i: NodeId): VoteRequest {
    VoteRequest(t, |log|, LastTerm(log), i)
  }

  ghost predicate AskedAt(s: State, i: NodeId, peers: seq<NodeId>, req: VoteRequest, k: nat) {
    k < |peers| ==> Packet(i, peers[k], VoteReq(req)) in s.net
  }

  /** The server has committed and delivered nothing in this lifetime. */
  predicate Blank(srv: Server) {
    srv.node.commitIndex == 0 && srv.node.lastApplied == 0 && srv.output == []
  }

  /** Node i campaigns in term t with this log, has asked everyone, and has these votes, which are not enough. */
  ghost predicate Polling(s: State, i: NodeId, peers: seq<NodeId>, t: Term, log: Log, granted: seq<bool>) {
    && i in s.servers && NodeOf(s, i).role == Candidate && NodeOf(s, i).pstate == Persistent(t, i, log)
    && NodeOf(s, i).cstate == CandidateState(t, granted, granted) && |granted| == |peers|
    && !MostOf(Slots(granted), |peers|) && Blank(s.servers[i])
    && (forall k: nat :: AskedAt(s, i, peers, Ask(t, log, i), k))
  }

  lemma OneTimeout(cfg: Config, s: State, i: NodeId)
    requires i in cfg && Sane(cfg, s, i) && NodeOf(s, i).role != Leader && cfg[i] != [] && Blank(s.servers[i])
    ensures var (s', n) := (Apply(s, TimeoutStep(i, |cfg[i]|, 1)), NodeOf(s, i));
            && OnlyAt(s, s', {i})
            && Polling(s', i, cfg[i], n.pstate.term + 1, n.pstate.log, Falses(|cfg[i]|))
  {
    var n := NodeOf(s, i);
    var s', t, none := Apply(s, TimeoutStep(i, |cfg[i]|, 1)), n.pstate.term + 1, Falses(|cfg[i]|);
    TimeoutExact(n, 1);
    var c := NodeOf(s', i).cstate;
    assert c.responded == none && c.granted == none;
    assert Slots(none) == {};
    var req := Ask(t, n.pstate.log, i);
    forall k: nat ensures AskedAt(s', i, cfg[i], req, k) {
      if k < |cfg[i]| { assert Packet(i, cfg[i][k], VoteReq(req)) in Broadcast(i, cfg[i], |cfg[i]|, req); }
    }
  }

  /** A node can time out until it campaigns in any higher term. */
  lemma {:induction false} Climb(cfg: Config, s: State, i: NodeId, t: Term) returns (more: seq<Step>, s': State)
    requires Sound(cfg, s) && i in cfg && cfg[i] != [] && i in s.servers
    requires NodeOf(s, i).role != Leader && NodeOf(s, i).pstate.term < t && Blank(s.servers[i])
    ensures Path(s, more, s') && OnlyAt(s, s', {i})
    ensures Polling(s', i, cfg[i], t, LogOf(s, i), Falses(|cfg[i]|))
    decreases t - NodeOf(s, i).pstate.term
  {
    var one := TimeoutStep(i, |cfg[i]|, 1);
    SoundSane(cfg, s, i);
    OneTimeout(cfg, s, i);
    PathOne(s, one);
    more, s' := [one], Apply(s, one);
    if NodeOf(s, i).pstate.term + 1 < t {
      PathSound(cfg, s, [one], s');
      var s1 := s';
      var rest: seq<Step>;
      rest, s' := Climb(cfg, s1, i, t);
      PathJoin(s, [one], s1, rest, s');
      OnlyAtOn(s, s1, s', {i});
      more := [one] + rest;
    }
  }

  // ---------- Voting ----------

  /** The voter is asked: whatever it was, it ends in term t with its vote given to i and its log as it was. */
  lemma VoterVotes(s: State, q: NodeId, ask: Packet, w: nat)
    requires q in s.servers && Shaped(NodeOf(s, q)) && ask in s.net && ask.dst == q && ask.body.VoteReq?
    requires HandleVoteRequest(NodeOf(s, q), ask.body.vreq, w).1.granted
    ensures var (s', h, req) := (Apply(s, ReceiveStep(ask, w)), HandleVoteRequest(NodeOf(s, q), ask.body.vreq, w), ask.body.vreq);
            && OnlyAt(s, s', {q})
            && NodeOf(s', q) == h.0.node && NodeOf(s', q).pstate == Persistent(req.term, req.candidateId, NodeOf(s, q).pstate.log)
            && Packet(q, ask.src, VoteResp(VoteResponse(NodeOf(s, q).pstate.term, true))) in s'.net
  {
    GrantExact(NodeOf(s, q), ask.body.vreq, w);
  }

  lemma GrantIsNoLeader(n: Node, req: VoteRequest, w: nat)
    requires HandleVoteRequest(n, req, w).1.granted
    ensures HandleVoteRequest(n, req, w).0.node.role != Leader
  {
  }

  /** A voter that is behind, or has voted for this candidate already, and is no more up to date. */
  predicate WillVote(n: Node, req: VoteRequest, w: nat) {
    && (req.term > n.pstate.term || (req.term == n.pstate.term && n.role != Leader && n.pstate.votedFor == req.candidateId))
    && EndsNoEarlier(req.lastIndex, req.lastTerm, n.pstate.log) && w >= (if req.term > n.pstate.term then 2 else 1)
  }

  lemma WillVoteTwice(n: Node, req: VoteRequest, log: Log)
    requires n.pstate.term < req.term && UpToDate(log, n.pstate.log) && req.lastIndex == |log| && req.lastTerm == LastTerm(log)
    ensures WillVote(n, req, 2)
    ensures forall n': Node :: n'.pstate == Persistent(req.term, req.candidateId, n.pstate.log) && n'.role != Leader ==>
              WillVote(n', req, 1)
  {
  }

  /** Asked twice, a voter that is behind grants its vote under the new term. */
  lemma VoterGrants(cfg: Config, s: State, q: NodeId, ask: Packet, t: Term, log: Log) returns (more: seq<Step>, s': State)
    requires Sound(cfg, s) && q in cfg && q in s.servers && ask in s.net
    requires ask.dst == q && ask.body == VoteReq(Ask(t, log, ask.src))
    requires NodeOf(s, q).pstate.term < t && UpToDate(log, LogOf(s, q))
    ensures |more| == 2 && Path(s, more, s') && OnlyAt(s, s', {q})
    ensures NodeOf(s', q).pstate == Persistent(t, ask.src, LogOf(s, q))
    ensures Packet(q, ask.src, VoteResp(VoteResponse(t, true))) in s'.net
  {
    SoundShaped(cfg, s, q);
    WillVoteTwice(NodeOf(s, q), Ask(t, log, ask.src), log);
    var s1 := VoterSteps(s, q, ask, 2);
    PathSound(cfg, s, [ReceiveStep(ask, 2)], s1);
    SoundShaped(cfg, s1, q);
    s' := VoterSteps(s1, q, ask, 1);
    PathJoin(s, [ReceiveStep(ask, 2)], s1, [ReceiveStep(ask, 1)], s');
    OnlyAtOn(s, s1, s', {q});
    more := [ReceiveStep(ask, 2)] + [ReceiveStep(ask, 1)];
  }

  /** Asked once, by a candidate that it may vote for. */
  lemma VoterSteps(s: State, q: NodeId, ask: Packet, w: nat) returns (s': State)
    requires q in s.servers && Shaped(NodeOf(s, q)) && ask in s.net && ask.dst == q && ask.body.VoteReq?
    requires WillVote(NodeOf(s, q), ask.body.vreq, w)
    ensures Path(s, [ReceiveStep(ask, w)], s') && OnlyAt(s, s', {q}) && NodeOf(s', q).role != Leader
    ensures NodeOf(s', q).pstate == Persistent(ask.body.vreq.term, ask.body.vreq.candidateId, NodeOf(s, q).pstate.log)
    ensures Packet(q, ask.src, VoteResp(VoteResponse(NodeOf(s, q).pstate.term, true))) in s'.net
  {
    GrantExact(NodeOf(s, q), ask.body.vreq, w);
    VoterVotes(s, q, ask, w);
    GrantIsNoLeader(NodeOf(s, q), ask.body.vreq, w);
    PathOne(s, ReceiveStep(ask, w));
    s' := Apply(s, ReceiveStep(ask, w));
  }

  /** Node i leads term t with this log and knows of no acknowledgement yet. */
  ghost predicate Fresh(s: State, i: NodeId, t: Term, log: Log) {
    && Leads(s, i, t) && LogOf(s, i) == log && Shaped(NodeOf(s, i)) && Blank(s.servers[i])
    && forall k :: 0 <= k < |NodeOf(s, i).peers| ==>
         NodeOf(s, i).lstate.next[k] == |log| + 1 && NodeOf(s, i).lstate.matched[k] == 0
  }

  /** A grant that arrives is counted, and decides the election or does not. */
  lemma VoteArrives(cfg: Config, s: State, i: NodeId, t: Term, log: Log, granted: seq<bool>, k: nat)
    requires i in cfg && Sane(cfg, s, i) && Polling(s, i, cfg[i], t, log, granted) && k < |cfg[i]| && !granted[k]
    requires Packet(cfg[i][k], i, VoteResp(VoteResponse(t, true))) in s.net
    ensures var s' := Apply(s, ReceiveStep(Packet(cfg[i][k], i, VoteResp(VoteResponse(t, true))), 0));
            && OnlyAt(s, s', {i})
            && (if MostOf(Slots(granted[k := true]), |cfg[i]|) then Fresh(s', i, t, log)
                else Polling(s', i, cfg[i], t, log, granted[k := true]))
  {
    var yes := Packet(cfg[i][k], i, VoteResp(VoteResponse(t, true)));
    var s' := Apply(s, ReceiveStep(yes, 0));
    CountedVoteExact(NodeOf(s, i), yes.body.vresp, cfg[i][k], 0, k);
    forall j: nat ensures AskedAt(s', i, cfg[i], Ask(t, log, i), j) {
      assert AskedAt(s, i, cfg[i], Ask(t, log, i), j);
    }
  }

  /** One more vote: three steps. */
  lemma GetVote(cfg: Config, s: State, i: NodeId, t: Term, log: Log, granted: seq<bool>, k: nat) returns (more: seq<Step>, s': State)
    requires Sound(cfg, s) && i in cfg && Polling(s, i, cfg[i], t, log, granted)
    requires k < |cfg[i]| && !granted[k] && cfg[i][k] in cfg && cfg[i][k] in s.servers && cfg[i][k] != i
    requires NodeOf(s, cfg[i][k]).pstate.term < t && UpToDate(log, LogOf(s, cfg[i][k]))
    ensures |more| == 3 && Path(s, more, s') && OnlyAt(s, s', {i, cfg[i][k]})
    ensures NodeOf(s', cfg[i][k]).pstate == Persistent(t, i, LogOf(s, cfg[i][k]))
    ensures if MostOf(Slots(granted[k := true]), |cfg[i]|) then Fresh(s', i, t, log)
            else Polling(s', i, cfg[i], t, log, granted[k := true])
  {
    var q := cfg[i][k];
    var ask := Packet(i, q, VoteReq(Ask(t, log, i)));
    var count := ReceiveStep(Packet(q, i, VoteResp(VoteResponse(t, true))), 0);
    assert AskedAt(s, i, cfg[i], Ask(t, log, i), k);
    var two, s1 := VoterGrants(cfg, s, q, ask, t, log);
    PollingStays(s, s1, i, cfg[i], t, log, granted, q);
    PathSound(cfg, s, two, s1);
    s' := VoteCounted(cfg, s1, i, t, log, granted, k);
    PathJoin(s, two, s1, [count], s');
    more := two + [count];
  }

  lemma VoteCounted(cfg: Config, s: State, i: NodeId, t: Term, log: Log, granted: seq<bool>, k: nat) returns (s': State)
    requires Sound(cfg, s) && i in cfg && Polling(s, i, cfg[i], t, log, granted) && k < |cfg[i]| && !granted[k]
    requires Packet(cfg[i][k], i, VoteResp(VoteResponse(t, true))) in s.net
    ensures Path(s, [ReceiveStep(Packet(cfg[i][k], i, VoteResp(VoteResponse(t, true))), 0)], s') && OnlyAt(s, s', {i})
    ensures if MostOf(Slots(granted[k := true]), |cfg[i]|) then Fresh(s', i, t, log)
            else Polling(s', i, cfg[i], t, log, granted[k := true])
  {
    var count := ReceiveStep(Packet(cfg[i][k], i, VoteResp(VoteResponse(t, true))), 0);
    SoundSane(cfg, s, i);
    VoteArrives(cfg, s, i, t, log, granted, k);
    PathOne(s, count);
    s' := Apply(s, count);
  }

  lemma PollingStays(s: State, s': State, i: NodeId, peers: seq<NodeId>, t: Term, log: Log, granted: seq<bool>, q: NodeId)
    requires Polling(s, i, peers, t, log, granted) && OnlyAt(s, s', {q}) && q != i
    ensures Polling(s', i, peers, t, log, granted)
  {
    forall k: nat ensures AskedAt(s', i, peers, Ask(t, log, i), k) {
      assert AskedAt(s, i, peers, Ask(t, log, i), k);
    }
  }

  // ---------- Winning ----------

  /** The first k of these flags. */
  function FirstFlags(flags: seq<bool>, k: nat): seq<bool> {
    seq(|flags|, j requires 0 <= j < |flags| => j < k && flags[j])
  }

  lemma NextFlag(flags: seq<bool>, k: nat)
    requires k < |flags|
    ensures FirstFlags(flags, k + 1) == if flags[k] then FirstFlags(flags, k)[k := true] else FirstFlags(flags, k)
    ensures FirstFlags(flags, |flags|) == flags
  {
  }

  /** A peer that is still to be asked and will vote: behind in term, and no more up to date than this log. */
  ghost predicate Willing(s: State, peers: seq<NodeId>, flags: seq<bool>, t: Term, log: Log, k: nat, j: nat)
    requires |flags| == |peers|
  {
    k <= j < |peers| && flags[j] ==>
      peers[j] in s.servers && NodeOf(s, peers[j]).pstate.term < t && UpToDate(log, LogOf(s, peers[j]))
  }

  ghost predicate AllWilling(s: State, peers: seq<NodeId>, flags: seq<bool>, t: Term, log: Log, k: nat)
    requires |flags| == |peers|
  {
    forall j: nat :: Willing(s, peers, flags, t, log, k, j)
  }

  ghost predicate KeptAt(s: State, s': State, t: Term, j: NodeId) {
    j in s.servers ==> j in s'.servers && LogOf(s', j) == LogOf(s, j) && NodeOf(s', j).pstate.term <= t
  }

  /** Everybody's log is as it was, and no term is above t. */
  ghost predicate LogsKept(s: State, s': State, t: Term) {
    s'.servers.Keys == s.servers.Keys && forall j: NodeId :: KeptAt(s, s', t, j)
  }

  lemma LogsKeptOn(a: State, b: State, c: State, t: Term)
    requires LogsKept(a, b, t) && LogsKept(b, c, t)
    ensures LogsKept(a, c, t)
  {
    forall j: NodeId ensures KeptAt(a, c, t, j) {
      assert KeptAt(a, b, t, j) && KeptAt(b, c, t, j);
    }
  }

  /** Between these states only i and q have moved, to term t, and kept their logs. */
  lemma VoteKeepsLogs(s: State, s': State, i: NodeId, q: NodeId, t: Term)
    requires i in s.servers && q in s.servers && OnlyAt(s, s', {i, q}) && LogsKept(s, s, t)
    requires LogOf(s', i) == LogOf(s, i) && NodeOf(s', i).pstate.term == t
    requires LogOf(s', q) == LogOf(s, q) && NodeOf(s', q).pstate.term == t
    ensures LogsKept(s, s', t)
  {
    forall j: NodeId ensures KeptAt(s, s', t, j) {
      assert KeptAt(s, s, t, j);
    }
  }

  lemma WillingStays(s: State, s': State, i: NodeId, peers: seq<NodeId>, flags: seq<bool>, t: Term, log: Log, k: nat)
    requires k < |peers| == |flags| && Distinct(peers) && i !in peers
    requires AllWilling(s, peers, flags, t, log, k) && OnlyAt(s, s', {i, peers[k]})
    ensures AllWilling(s', peers, flags, t, log, k + 1)
  {
    var next := k + 1;
    forall j: nat ensures Willing(s', peers, flags, t, log, next, j) {
      assert Willing(s, peers, flags, t, log, k, j);
    }
  }

  lemma WillingSkip(s: State, peers: seq<NodeId>, flags: seq<bool>, t: Term, log: Log, k: nat)
    requires k < |peers| == |flags| && AllWilling(s, peers, flags, t, log, k)
    ensures AllWilling(s, peers, flags, t, log, k + 1)
  {
    var next := k + 1;
    forall j: nat ensures Willing(s, peers, flags, t, log, next, j) {
      assert Willing(s, peers, flags, t, log, k, j);
    }
  }

  /** The candidate has asked the first k peers, and the rest of the quorum will vote. */
  ghost predicate Asking(cfg: Config, s: State, i: NodeId, t: Term, log: Log, flags: seq<bool>, k: nat) {
    && i in cfg && s.servers.Keys == cfg.Keys && |flags| == |cfg[i]| && k <= |flags|
    && Polling(s, i, cfg[i], t, log, FirstFlags(flags, k)) && AllWilling(s, cfg[i], flags, t, log, k) && LogsKept(s, s, t)
  }

  /** The next peer of the quorum votes: the election is won, or goes on. */
  lemma AskOne(cfg: Config, s: State, i: NodeId, t: Term, log: Log, flags: seq<bool>, k: nat) returns (one: seq<Step>, s': State)
    requires Sound(cfg, s) && Asking(cfg, s, i, t, log, flags, k) && k < |flags| && flags[k]
    ensures |one| == 3 && Path(s, one, s') && LogsKept(s, s', t)
    ensures Fresh(s', i, t, log) || Asking(cfg, s', i, t, log, flags, k + 1)
  {
    assert Willing(s, cfg[i], flags, t, log, k, k);
    SoundSane(cfg, s, i);
    NextFlag(flags, k);
    one, s' := GetVote(cfg, s, i, t, log, FirstFlags(flags, k), k);
    VoteKeepsLogs(s, s', i, cfg[i][k], t);
    WillingStays(s, s', i, cfg[i], flags, t, log, k);
    KeptSelf(s, s', t);
  }

  lemma KeptSelf(s: State, s': State, t: Term)
    requires LogsKept(s, s', t)
    ensures LogsKept(s', s', t)
  {
    forall j: NodeId ensures KeptAt(s', s', t, j) {
      assert KeptAt(s, s', t, j);
    }
  }

  lemma {:induction false} PollFrom(cfg: Config, s: State, i: NodeId, t: Term, log: Log, flags: seq<bool>, k: nat)
      returns (more: seq<Step>, s': State)
    requires Sound(cfg, s) && Asking(cfg, s, i, t, log, flags, k) && MostOf(Slots(flags), |cfg[i]|)
    ensures Path(s, more, s') && Fresh(s', i, t, log) && LogsKept(s, s', t) && |more| <= 3 * (|flags| - k)
    decreases |flags| - k
  {
    FlagsEnd(flags, k);
    if k < |flags| {
      if flags[k] {
        var one, s1 := AskOne(cfg, s, i, t, log, flags, k);
        more, s' := one, s1;
        if !Fresh(s1, i, t, log) {
          PathSound(cfg, s, one, s1);
          more, s' := PollFrom(cfg, s1, i, t, log, flags, k + 1);
          LogsKeptOn(s, s1, s', t);
          PathJoin(s, one, s1, more, s');
          more := one + more;
        }
      } else {
        NextFlag(flags, k);
        WillingSkip(s, cfg[i], flags, t, log, k);
        more, s' := PollFrom(cfg, s, i, t, log, flags, k + 1);
      }
    }
  }

  lemma FlagsEnd(flags: seq<bool>, k: nat)
    requires k <= |flags|
    ensures k == |flags| ==> FirstFlags(flags, k) == flags
  {
  }

  // ---------- Any node that is up to date ----------

  /** A term beyond those of all these nodes. */
  lemma {:induction false} TermBeyond(s: State, ids: set<NodeId>) returns (t: Term)
    requires ids <= s.servers.Keys
    ensures forall j :: j in ids ==> NodeOf(s, j).pstate.term < t
  {
    if ids == {} {
      t := 0;
    } else {
      var q :| q in ids;
      var u := TermBeyond(s, ids - {q});
      t := Max(u, NodeOf(s, q).pstate.term + 1);
    }
  }

  /** The quorum, seen as flags of i's peers. */
  function Members(peers: seq<NodeId>, q: set<NodeId>): seq<bool> {
    seq(|peers|, k requires 0 <= k < |peers| => peers[k] in q)
  }

  lemma QuorumIsMost(ids: set<NodeId>, i: NodeId, peers: seq<NodeId>, q: set<NodeId>)
    requires i in ids && PeersOk(ids, i, peers) && IsQuorum(ids, q) && i in q
    ensures MostOf(Slots(Members(peers, q)), |peers|)
  {
    var flags := Members(peers, q);
    assert Flagged(peers, flags) + {i} == q by {
      forall j | j in q && j != i ensures j in Flagged(peers, flags) {
        assert j in PeerSet(peers);
        var k :| 0 <= k < |peers| && peers[k] == j;
        assert flags[k];
      }
    }
    FlagsMakeQuorum(ids, i, peers, flags);
    CountIsMost(flags, |peers|);
  }

  lemma Restarted(cfg: Config, s: State, i: NodeId)
    requires i in cfg && Sane(cfg, s, i)
    ensures var s' := Apply(s, RestartStep(i));
            && OnlyAt(s, s', {i}) && NodeOf(s', i).role == Follower && NodeOf(s', i).pstate == NodeOf(s, i).pstate
            && Blank(s'.servers[i])
  {
  }

  /** Every node of a quorum is no more up to date than node i. */
  ghost predicate BestOf(s: State, i: NodeId, quorum: set<NodeId>) {
    && i in quorum && quorum <= s.servers.Keys
    && forall q :: q in quorum ==> UpToDate(LogOf(s, i), LogOf(s, q))
  }

  /** A node alone needs no votes but its own. */
  lemma LoneElection(cfg: Config, s: State, i: NodeId)
    requires i in cfg && Sane(cfg, s, i) && NodeOf(s, i).role != Leader && cfg[i] == [] && Blank(s.servers[i])
    ensures var (s', t) := (Apply(s, TimeoutStep(i, 0, 1)), NodeOf(s, i).pstate.term + 1);
            OnlyAt(s, s', {i}) && Fresh(s', i, t, LogOf(s, i))
  {
    TimeoutExact(NodeOf(s, i), 1);
  }

  lemma OneNode(cfg: Config, i: NodeId)
    requires ValidConfig(cfg) && i in cfg && cfg[i] == []
    ensures cfg.Keys == {i}
  {
    assert PeersOk(cfg.Keys, i, cfg[i]);
    assert PeerSet(cfg[i]) == {};
  }

  /** Node i has become leader of term t with its old log, and nobody's log has changed. */
  ghost predicate Elected(s: State, s': State, i: NodeId, t: Term) {
    i in s.servers && Fresh(s', i, t, LogOf(s, i)) && LogsKept(s, s', t)
  }

  lemma ElectedLater(s: State, s1: State, s': State, i: NodeId, t: Term)
    requires OnlyAt(s, s1, {i}) && i in s.servers && NodeOf(s1, i).pstate == NodeOf(s, i).pstate && Elected(s1, s', i, t)
    ensures Elected(s, s', i, t)
  {
    forall j: NodeId ensures KeptAt(s, s', t, j) {
      assert KeptAt(s1, s', t, j);
    }
  }

  /** Alone: one timeout. */
  lemma AloneElected(cfg: Config, s: State, i: NodeId) returns (more: seq<Step>, s': State, t: Term)
    requires Sound(cfg, s) && i in cfg && cfg[i] == [] && i in s.servers && NodeOf(s, i).role != Leader && Blank(s.servers[i])
    ensures Path(s, more, s') && Elected(s, s', i, t)
  {
    SoundSane(cfg, s, i);
    OneNode(cfg, i);
    t, more := NodeOf(s, i).pstate.term + 1, [TimeoutStep(i, 0, 1)];
    LoneElection(cfg, s, i);
    PathOne(s, TimeoutStep(i, 0, 1));
    s' := Apply(s, TimeoutStep(i, 0, 1));
    forall j: NodeId ensures KeptAt(s, s', t, j) { }
  }

  lemma StartsAsking(cfg: Config, s: State, s': State, i: NodeId, quorum: set<NodeId>, t: Term, log: Log)
    requires i in cfg && s.servers.Keys == cfg.Keys && OnlyAt(s, s', {i}) && BestOf(s, i, quorum) && LogOf(s, i) == log
    requires i !in cfg[i] && Polling(s', i, cfg[i], t, log, Falses(|cfg[i]|))
    requires forall j :: j in cfg ==> NodeOf(s, j).pstate.term < t
    ensures Asking(cfg, s', i, t, log, Members(cfg[i], quorum), 0) && LogsKept(s, s', t)
  {
    var flags := Members(cfg[i], quorum);
    assert FirstFlags(flags, 0) == Falses(|cfg[i]|);
    forall j: nat ensures Willing(s', cfg[i], flags, t, log, 0, j) { }
    forall j: NodeId ensures KeptAt(s, s', t, j) { }
    forall j: NodeId ensures KeptAt(s', s', t, j) { }
  }

  /** With peers: time out into a term beyond all, and ask. */
  lemma Campaigns(cfg: Config, s: State, i: NodeId, quorum: set<NodeId>, t: Term) returns (more: seq<Step>, s': State)
    requires Sound(cfg, s) && i in cfg && cfg[i] != [] && IsQuorum(cfg.Keys, quorum) && BestOf(s, i, quorum)
    requires s.servers.Keys == cfg.Keys && NodeOf(s, i).role != Leader && Blank(s.servers[i])
    requires forall j :: j in cfg ==> NodeOf(s, j).pstate.term < t
    ensures Path(s, more, s') && Elected(s, s', i, t)
  {
    var log := LogOf(s, i);
    SoundSane(cfg, s, i);
    var climb, s1 := Climb(cfg, s, i, t);
    StartsAsking(cfg, s, s1, i, quorum, t, log);
    assert PeersOk(cfg.Keys, i, cfg[i]);
    QuorumIsMost(cfg.Keys, i, cfg[i], quorum);
    PathSound(cfg, s, climb, s1);
    more, s' := PollFrom(cfg, s1, i, t, log, Members(cfg[i], quorum), 0);
    LogsKeptOn(s, s1, s', t);
    PathJoin(s, climb, s1, more, s');
    more := climb + more;
  }

  lemma BestStays(s: State, s': State, i: NodeId, quorum: set<NodeId>)
    requires BestOf(s, i, quorum) && OnlyAt(s, s', {i}) && NodeOf(s', i).pstate == NodeOf(s, i).pstate
    ensures BestOf(s', i, quorum)
  {
  }

  /** The same, state by state. */
  lemma ElectedFrom(cfg: Config, s: State, i: NodeId, quorum: set<NodeId>) returns (more: seq<Step>, s': State, t: Term)
    requires Sound(cfg, s) && i in cfg && IsQuorum(cfg.Keys, quorum) && BestOf(s, i, quorum)
    ensures Path(s, more, s') && Elected(s, s', i, t)
  {
    SoundSane(cfg, s, i);
    Restarted(cfg, s, i);
    var s1 := Apply(s, RestartStep(i));
    PathOne(s, RestartStep(i));
    PathSound(cfg, s, [RestartStep(i)], s1);
    BestStays(s, s1, i, quorum);
    if cfg[i] == [] {
      more, s', t := AloneElected(cfg, s1, i);
    } else {
      t := TermBeyond(s1, cfg.Keys);
      more, s' := Campaigns(cfg, s1, i, quorum, t);
    }
    ElectedLater(s, s1, s', i, t);
    PathJoin(s, [RestartStep(i)], s1, more, s');
    more := [RestartStep(i)] + more;
  }

  /** Elections can be won: in every state of every run, each node whose log is at least as up to date as those of a
      quorum can become leader, of a term that nobody has passed, by further steps that leave every log as it is. */
  lemma CanBeElected(cfg: Config, steps: seq<Step>, i: NodeId, quorum: set<NodeId>) returns (more: seq<Step>, t: Term)
    requires ValidConfig(cfg) && i in cfg && IsQuorum(cfg.Keys, quorum) && BestOf(Run(cfg, steps), i, quorum)
    ensures Elected(Run(cfg, steps), Run(cfg, steps + more), i, t)
  {
    RunSound(cfg, steps);
    var s': State;
    more, s', t := ElectedFrom(cfg, Run(cfg, steps), i, quorum);
    PathRun(cfg, steps, more, s');
  }
}
