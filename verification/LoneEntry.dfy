/** What the strict comparison in HandleAppendEntriesResponse costs: an acknowledgement of one new entry is never
    recorded, so an entry that goes out alone is held by every peer and still not committed. */
module LoneEntry {
  import opened RaftTypes
  import opened RaftNode
  import opened AppendLoops
  import opened Cluster
  import opened ClusterInv
  import opened ServerSteps
  import opened ClusterSteps
  import opened Safety
  import opened Commitment
  import opened Recovery
  import opened CatchUp

  // ---------- One leader and one peer ----------

  /** An accepted round records the acknowledgement if and only if the batch has two entries or more. */
  lemma RecordedIffTwo(x: Pair, k: nat, w: nat)
    requires InStep(x, k) && Enough(w) && PrevMatches(x.follower.pstate.log, Request(x, k))
    ensures var l, l', req := x.leader, Round(x, k, w).0.leader, Request(x, k);
            var recorded := LeaderState(l.lstate.next[k := EndIndex(req) + 1], l.lstate.matched[k := EndIndex(req)]);
            && l' == AdvanceCommit(l.(lstate := l'.lstate))
            && (l'.lstate == recorded && recorded != l.lstate <==> |req.entries| >= 2)
            && (l'.lstate == l.lstate <==> |req.entries| < 2)
  {
    FollowerRound(x, k, w);
    RequestIsSlice(x, k);
    var l, req := x.leader, Request(x, k);
    var resp := HandleAppendRequest(x.follower, req, w).1;
    assert resp.success && resp.matchIndex == EndIndex(req) == l.lstate.next[k] - 1 + |req.entries|;
    assert l.(lstate := l.lstate) == l;
    assert l.lstate.next[k := EndIndex(req) + 1][k] == EndIndex(req) + 1;
  }

  /** The round that reaches the end of the leader's log commits all of it if and only if the last entry is of the
      leader's term and more than half have acknowledged it, where this peer counts as new only if at least two entries
      were sent. */
  lemma LastRoundCommits(x: Pair, k: nat, w: nat)
    requires InStep(x, k) && Enough(w) && PrevMatches(x.follower.pstate.log, Request(x, k))
    requires Unsent(x, k) <= RAFT_APPEND_BATCH && x.leader.commitIndex < |x.leader.pstate.log|
    ensures var l, len := x.leader, |x.leader.pstate.log|;
            var matched := if Unsent(x, k) >= 2 then l.lstate.matched[k := len] else l.lstate.matched;
            Round(x, k, w).0.leader.commitIndex == len <==>
              && LastTerm(l.pstate.log) == l.pstate.term
              && MostOf(MatchingSlots(matched, len), |l.peers|)
  {
    RecordedIffTwo(x, k, w);
    RequestIsSlice(x, k);
    var l, l' := x.leader, Round(x, k, w).0.leader;
    var n := l.(lstate := l'.lstate);
    AdvanceCommitExact(n);
    assert HeldByMost(n, |l.pstate.log|) <==> HeldByMost(l', |l.pstate.log|);
  }

  /** At most one entry is outstanding, the next request will be accepted, and there is nothing to commit now. */
  ghost predicate Lone(x: Pair, k: nat) {
    && InStep(x, k) && PrevMatches(x.follower.pstate.log, Request(x, k))
    && Unsent(x, k) <= 1 && AdvanceCommit(x.leader) == x.leader
  }

  /** A round over one outstanding entry leaves the leader exactly as it was, although the peer now holds the entry. */
  lemma LoneRound(x: Pair, k: nat, w: nat)
    requires Lone(x, k) && Enough(w)
    ensures var y := Round(x, k, w).0; y.leader == x.leader && CaughtUp(y) && Lone(y, k)
  {
    RecordedIffTwo(x, k, w);
    AcceptedRound(x, k, w);
    var y := Round(x, k, w).0;
    CarriesAt(y.follower.pstate.log, x.leader.pstate.log, |x.leader.pstate.log|);
  }

  lemma LoneNext(trace: seq<Pair>, k: nat, w: nat, r: nat, j: nat)
    requires Exchange(trace, k, w, r) && Enough(w) && j + 1 < |trace| && Lone(trace[j], k)
    ensures trace[j + 1].leader == trace[j].leader && CaughtUp(trace[j + 1]) && Lone(trace[j + 1], k)
  {
    assert RoundAt(trace, k, w, r, j);
    LoneRound(trace[j], k, w);
  }

  /** A lone entry stalls: however often it is sent, handled and acknowledged, the leader records nothing and commits
      nothing, while the peer holds the entry from the first round on. */
  lemma {:induction false} LoneEntryStalls(trace: seq<Pair>, k: nat, w: nat, r: nat, j: nat)
    requires Exchange(trace, k, w, r) && Enough(w) && j < |trace| && Lone(trace[0], k)
    ensures trace[j].leader == trace[0].leader && (j > 0 ==> CaughtUp(trace[j])) && Lone(trace[j], k)
  {
    if j > 0 {
      LoneEntryStalls(trace, k, w, r, j - 1);
      LoneNext(trace, k, w, r, j - 1);
    }
  }

  // ---------- Whole runs: no commit stops at index 1 ----------

  /** No peer of a leader has acknowledged exactly one entry, as far as the leader has recorded it. */
  ghost predicate NoLoneMatch(n: Node) {
    n.role == Leader ==> forall k :: 0 <= k < |n.lstate.matched| ==> n.lstate.matched[k] != 1
  }

  lemma AnswerKeepsMatch(srv: Server, pkt: Packet, w: nat)
    requires Shaped(srv.node) && NoLoneMatch(srv.node)
    ensures NoLoneMatch(Answer(srv, pkt, w).0.node)
  {
  }

  lemma MovesKeepMatch(srv: Server, step: Step, after: Server)
    requires Shaped(srv.node) && ServerMoves(srv, step, after) && NoLoneMatch(srv.node)
    ensures NoLoneMatch(after.node)
  {
    if step.ReceiveStep? {
      AnswerKeepsMatch(srv, step.pkt, step.w);
    }
  }

  lemma {:induction false} RunKeepsMatch(cfg: Config, steps: seq<Step>, m: nat, i: NodeId)
    requires ValidConfig(cfg) && m <= |steps| && i in cfg
    ensures i in At(cfg, steps, m).servers && NoLoneMatch(NodeOf(At(cfg, steps, m), i))
  {
    if m > 0 {
      RunKeepsMatch(cfg, steps, m - 1, i);
      Recovers(cfg, steps, i, m - 1);
      AtNext(cfg, steps, m - 1);
      StepMoves(At(cfg, steps, m - 1), steps[m - 1], i);
      MovesKeepMatch(At(cfg, steps, m - 1).servers[i], steps[m - 1], At(cfg, steps, m).servers[i]);
    }
  }

  /** What a leader commits is the most that it may commit. */
  lemma ResponseCommitsMost(n: Node, resp: AppendResponse, peer: NodeId, w: nat, m: Index)
    requires Shaped(n)
    requires var o := HandleAppendResponse(n, resp, peer, w).node; n.commitIndex < o.commitIndex < m <= |o.pstate.log|
    ensures !Committable(HandleAppendResponse(n, resp, peer, w).node, m)
  {
    var k := FindPeer(n.peers, peer).value;
    var l := if n.lstate.next[k] < resp.matchIndex
             then LeaderState(n.lstate.next[k := resp.matchIndex + 1], n.lstate.matched[k := resp.matchIndex])
             else n.lstate;
    var n1 := n.(lstate := l);
    AdvanceCommitExact(n1);
    assert Committable(AdvanceCommit(n1), m) == Committable(n1, m);
  }

  lemma CommitsMost(srv: Server, step: Step, after: Server, m: Index)
    requires Shaped(srv.node) && ServerMoves(srv, step, after)
    requires after.node.role == Leader && srv.node.commitIndex < after.node.commitIndex < m <= |after.node.pstate.log|
    ensures !Committable(after.node, m)
  {
    if step.ReceiveStep? && step.pkt.body.AppendResp? {
      ResponseCommitsMost(srv.node, step.pkt.body.aresp, step.pkt.src, step.w, m);
    }
  }

  lemma {:induction false} SomeFlag(flags: seq<bool>) returns (k: nat)
    requires CountTrue(flags) > 0
    ensures k < |flags| && flags[k]
  {
    if flags[|flags| - 1] {
      k := |flags| - 1;
    } else {
      k := SomeFlag(flags[..|flags| - 1]);
    }
  }

  /** If index 1 may be committed, so may index 2. */
  lemma TwoIsCommittable(n: Node)
    requires Shaped(n) && n.role == Leader && NoLoneMatch(n) && |n.peers| >= 1
    requires Sorted(n.pstate.log) && TermsAtMost(n.pstate.log, n.pstate.term)
    requires forall k :: 0 <= k < |n.peers| ==> n.lstate.matched[k] <= |n.pstate.log|
    requires |n.pstate.log| >= 1 && Committable(n, 1)
    ensures |n.pstate.log| >= 2 && Committable(n, 2)
  {
    var k := SomeFlag(AtLeast(n.lstate.matched, 1));
    assert n.lstate.matched[k] >= 2;
    assert n.pstate.log[0].term <= n.pstate.log[1].term;
    assert AtLeast(n.lstate.matched, 1) == AtLeast(n.lstate.matched, 2);
  }

  lemma HasPeers(cfg: Config, i: NodeId)
    requires ValidConfig(cfg) && i in cfg && |cfg| >= 2
    ensures |cfg[i]| >= 1
  {
    assert PeersOk(cfg.Keys, i, cfg[i]);
    PeerCount(cfg[i]);
    assert cfg.Keys == PeerSet(cfg[i]) + {i};
    assert |cfg.Keys| == |cfg|;
  }

  /** A leader of a run meets the conditions of TwoIsCommittable. */
  lemma LeaderFacts(cfg: Config, steps: seq<Step>, m: nat, a: NodeId)
    requires ValidConfig(cfg) && |cfg| >= 2 && m <= |steps| && a in At(cfg, steps, m).servers
    requires NodeOf(At(cfg, steps, m), a).role == Leader
    ensures a in cfg
    ensures var n := NodeOf(At(cfg, steps, m), a);
            && Shaped(n) && |n.peers| >= 1 && Sorted(n.pstate.log) && TermsAtMost(n.pstate.log, n.pstate.term)
            && NoLoneMatch(n) && forall k :: 0 <= k < |n.peers| ==> n.lstate.matched[k] <= |n.pstate.log|
  {
    var n := NodeOf(At(cfg, steps, m), a);
    var ps := RunInv(cfg, steps);
    assert HistoryAt(cfg, steps, ps, m, m);
    assert ServerAt(cfg, At(cfg, steps, m), ps[m], a);
    LogStructure(cfg, steps[..m], a);
    RunKeepsMatch(cfg, steps, m, a);
    HasPeers(cfg, a);
    forall k | 0 <= k < |n.peers| ensures n.lstate.matched[k] <= |n.pstate.log| {
      AcknowledgementSoundness(cfg, steps[..m], a, n.pstate.term, k);
    }
  }

  /** In a cluster of two or more nodes no commit ever stops at index 1: the first entry is committed only together with
      the second. */
  lemma FirstEntryNeverAlone(cfg: Config, steps: seq<Step>, k: nat, a: NodeId, n: Index)
    requires ValidConfig(cfg) && |cfg| >= 2 && Commits(cfg, steps, k, a, n)
    ensures 2 <= n <= |LogOf(At(cfg, steps, k + 1), a)|
  {
    var s, s' := At(cfg, steps, k), At(cfg, steps, k + 1);
    LeaderFacts(cfg, steps, k + 1, a);
    Recovers(cfg, steps, a, k);
    AtNext(cfg, steps, k);
    StepMoves(s, steps[k], a);
    CommitIsCommittable(s.servers[a], steps[k], s'.servers[a]);
    if n == 1 {
      TwoIsCommittable(NodeOf(s', a));
      CommitsMost(s.servers[a], steps[k], s'.servers[a], 2);
    }
  }

  // ---------- Whole runs: one command ----------

  function Commands(steps: seq<Step>): nat {
    if steps == [] then 0
    else Commands(steps[..|steps| - 1]) + if steps[|steps| - 1].CommandStep? then 1 else 0
  }

  lemma {:induction false} LoopLength(log: Log, prev: Index, entries: seq<Entry>, i: nat, w: nat)
    requires i <= |entries| && prev + i <= |log|
    ensures |AppendLoop(log, prev, entries, i, w).log| <= Max(|log|, prev + |entries|)
    decreases |entries| - i
  {
    if i < |entries| && entries[i].index == prev + i + 1 {
      if prev + i < |log| && log[prev + i].term == entries[i].term {
        LoopLength(log, prev, entries, i + 1, w);
      } else {
        LoopTurn(log, prev, entries, i, w);
        var t := TakeOne(log, prev + i, entries[i], w);
        if t.stop == Done {
          LoopLength(t.log, prev, entries, i + 1, w - |t.writes|);
        }
      }
    }
  }

  /** No batch that the step delivers reaches past index c. */
  predicate Within(step: Step, c: nat) {
    step.ReceiveStep? && step.pkt.body.AppendReq? ==> EndIndex(step.pkt.body.areq) <= c
  }

  /** Only a command makes a log longer than the longest log and batch so far, and by one entry. */
  lemma HandledLength(n: Node, step: Step, c: nat)
    requires Shaped(n) && |n.pstate.log| <= c && Within(step, c)
    ensures |Handled(n, step).node.pstate.log| <= c + if step.CommandStep? then 1 else 0
  {
    if step.ReceiveStep? && step.pkt.body.AppendReq? && PrevMatches(n.pstate.log, step.pkt.body.areq) {
      var req := step.pkt.body.areq;
      if req.term >= n.pstate.term {
        LoopLength(n.pstate.log, req.prevIndex, req.entries, 0, step.w - |UpdateTerm(n, req.term, step.w).writes|);
      }
    }
  }

  /** The same of a node that dies in the middle and comes back. */
  lemma InstallLength(srv: Server, step: Step, c: nat)
    requires Shaped(srv.node) && Replay(srv.disk) == Restored(srv.node.pstate)
    requires |srv.node.pstate.log| <= c && Within(step, c)
    ensures |Install(srv, Handled(srv.node, step)).node.pstate.log| <= c + if step.CommandStep? then 1 else 0
  {
    var o := Handled(srv.node, step);
    HandledLength(srv.node, step, c);
    if o.failed {
      HandlerHeld(srv.disk, srv.node, step, |o.writes|);
      assert o.writes[..|o.writes|] == o.writes;
      HandledLength(srv.node, WithBudget(step, |o.writes|), c);
    }
  }

  /** A step runs its handler at the server it names, and changes no other server's log. */
  lemma StepServer(s: State, step: Step, i: NodeId)
    requires i in s.servers && Shaped(NodeOf(s, i)) && Replay(DiskOf(s, i)) == Restored(NodeOf(s, i).pstate)
    ensures i in Apply(s, step).servers
    ensures if Acts(s, step, i) then Apply(s, step).servers[i] == Install(s.servers[i], Handled(NodeOf(s, i), step))
            else NodeOf(Apply(s, step), i).pstate == NodeOf(s, i).pstate
  {
  }

  ghost predicate LogWithin(s: State, c: nat, i: NodeId) {
    i in s.servers ==> |LogOf(s, i)| <= c
  }

  ghost predicate BatchWithin(s: State, c: nat, pkt: Packet) {
    pkt in s.net && pkt.body.AppendReq? ==> EndIndex(pkt.body.areq) <= c
  }

  ghost predicate Bounded(s: State, c: nat) {
    (forall i: NodeId :: LogWithin(s, c, i)) && (forall pkt: Packet :: BatchWithin(s, c, pkt))
  }

  /** A batch that is new on the network ends within its sender's log. */
  lemma NewBatch(s: State, step: Step, pkt: Packet)
    requires pkt in Apply(s, step).net && pkt !in s.net && pkt.body.AppendReq?
    ensures (step.AppendStep? || step.HeartbeatStep?) && step.i in s.servers
    ensures EndIndex(pkt.body.areq) <= |LogOf(s, step.i)|
  {
  }

  lemma StepBounded(cfg: Config, steps: seq<Step>, m: nat, c: nat)
    requires ValidConfig(cfg) && m < |steps| && Bounded(At(cfg, steps, m), c)
    ensures Bounded(At(cfg, steps, m + 1), c + if steps[m].CommandStep? then 1 else 0)
  {
    var s, s', step := At(cfg, steps, m), At(cfg, steps, m + 1), steps[m];
    var c' := c + if step.CommandStep? then 1 else 0;
    AtNext(cfg, steps, m);
    forall i: NodeId ensures LogWithin(s', c', i) {
      if i in s'.servers { ServerBounded(cfg, steps, m, c, i); }
    }
    forall pkt: Packet ensures BatchWithin(s', c', pkt) {
      assert BatchWithin(s, c, pkt);
      if pkt in s'.net && pkt !in s.net && pkt.body.AppendReq? {
        NewBatch(s, step, pkt);
        assert LogWithin(s, c, step.i);
      }
    }
  }

  lemma ServerBounded(cfg: Config, steps: seq<Step>, m: nat, c: nat, i: NodeId)
    requires ValidConfig(cfg) && m < |steps| && Bounded(At(cfg, steps, m), c) && i in At(cfg, steps, m + 1).servers
    ensures LogWithin(At(cfg, steps, m + 1), c + (if steps[m].CommandStep? then 1 else 0), i)
  {
    var s, step := At(cfg, steps, m), steps[m];
    RunServers(cfg, steps, m + 1, i);
    Recovers(cfg, steps, i, m);
    AtNext(cfg, steps, m);
    StepServer(s, step, i);
    assert LogWithin(s, c, i);
    if Acts(s, step, i) {
      assert step.ReceiveStep? ==> BatchWithin(s, c, step.pkt);
      InstallLength(s.servers[i], step, c);
    }
  }

  lemma RunServers(cfg: Config, steps: seq<Step>, m: nat, i: NodeId)
    requires ValidConfig(cfg) && m <= |steps| && i in At(cfg, steps, m).servers
    ensures i in cfg
  {
    var ps := RunInv(cfg, steps);
    assert HistoryAt(cfg, steps, ps, m, m);
  }

  /** No log and no batch is longer than the number of commands so far. */
  lemma {:induction false} LogsWithinCommands(cfg: Config, steps: seq<Step>, m: nat)
    requires ValidConfig(cfg) && m <= |steps|
    ensures Bounded(At(cfg, steps, m), Commands(steps[..m]))
  {
    if m == 0 {
      forall i: NodeId ensures LogWithin(Init(cfg), 0, i) { }
      forall pkt: Packet ensures BatchWithin(Init(cfg), 0, pkt) { }
    } else {
      LogsWithinCommands(cfg, steps, m - 1);
      assert steps[..m][..m - 1] == steps[..m - 1];
      StepBounded(cfg, steps, m - 1, Commands(steps[..m - 1]));
    }
  }

  lemma {:induction false} CommandsGrow(steps: seq<Step>, m: nat)
    requires m <= |steps|
    ensures Commands(steps[..m]) <= Commands(steps)
    decreases |steps|
  {
    if m == |steps| {
      assert steps[..m] == steps;
    } else {
      CommandsGrow(steps[..|steps| - 1], m);
      assert steps[..|steps| - 1][..m] == steps[..m];
    }
  }

  ghost predicate IdleAt(s: State, i: NodeId) {
    i in s.servers ==> NodeOf(s, i).commitIndex == 0
  }

  ghost predicate SilentAt(s: State, pkt: Packet) {
    pkt in s.net && pkt.body.AppendReq? ==> pkt.body.areq.leaderCommit == 0
  }

  /** Nobody has committed or delivered anything, and nobody says otherwise. */
  ghost predicate Uncommitted(s: State) {
    (forall i: NodeId :: IdleAt(s, i)) && (forall pkt: Packet :: SilentAt(s, pkt)) && s.delivered == {}
  }

  /** A node commits as a leader, or because a request tells it to. */
  lemma RaisedBy(srv: Server, step: Step, after: Server)
    requires Shaped(srv.node) && ServerMoves(srv, step, after) && srv.node.commitIndex < after.node.commitIndex
    ensures || after.node.role == Leader
            || (step.ReceiveStep? && step.pkt.body.AppendReq? && step.pkt.body.areq.leaderCommit > srv.node.commitIndex)
  {
    if step.ReceiveStep? && step.pkt.body.AppendResp? {
      AppendResponseCommits(srv.node, step.pkt.body.aresp, step.pkt.src, step.w);
    }
  }

  /** A message that a server acts on was on the network. */
  lemma MovedByMessage(s: State, step: Step, i: NodeId)
    requires i in s.servers && i in Apply(s, step).servers && Apply(s, step).servers[i] != s.servers[i] && step.ReceiveStep?
    ensures step.pkt in s.net
  {
  }

  lemma ServerIdle(cfg: Config, steps: seq<Step>, m: nat, i: NodeId)
    requires ValidConfig(cfg) && |cfg| >= 2 && m < |steps| && Commands(steps) <= 1 && Uncommitted(At(cfg, steps, m))
    ensures IdleAt(At(cfg, steps, m + 1), i)
  {
    var s, s', step := At(cfg, steps, m), At(cfg, steps, m + 1), steps[m];
    LogsWithinCommands(cfg, steps, m + 1);
    CommandsGrow(steps, m + 1);
    assert LogWithin(s', Commands(steps[..m + 1]), i);
    assert step.ReceiveStep? ==> SilentAt(s, step.pkt);
    if i in s'.servers && NodeOf(s', i).commitIndex > 0 {
      RunServers(cfg, steps, m + 1, i);
      Recovers(cfg, steps, i, m);
      AtNext(cfg, steps, m);
      assert IdleAt(s, i);
      StepMoves(s, step, i);
      RaisedBy(s.servers[i], step, s'.servers[i]);
      if NodeOf(s', i).role == Leader {
        FirstEntryNeverAlone(cfg, steps, m, i, NodeOf(s', i).commitIndex);
      } else {
        MovedByMessage(s, step, i);
      }
    }
  }

  lemma StepUncommitted(cfg: Config, steps: seq<Step>, m: nat)
    requires ValidConfig(cfg) && |cfg| >= 2 && m < |steps| && Commands(steps) <= 1 && Uncommitted(At(cfg, steps, m))
    ensures Uncommitted(At(cfg, steps, m + 1))
  {
    var s, s', step := At(cfg, steps, m), At(cfg, steps, m + 1), steps[m];
    forall i: NodeId ensures IdleAt(s', i) { ServerIdle(cfg, steps, m, i); }
    AtNext(cfg, steps, m);
    forall pkt: Packet ensures SilentAt(s', pkt) {
      assert SilentAt(s, pkt);
      if pkt in s'.net && pkt !in s.net && pkt.body.AppendReq? {
        NewRequest(s, step, pkt);
        assert IdleAt(s, step.i);
      }
    }
    NothingDelivered(s, step);
  }

  lemma NothingDelivered(s: State, step: Step)
    requires Uncommitted(s)
    ensures Apply(s, step).delivered == {}
  {
    if step.DrainStep? && step.i in s.servers {
      assert IdleAt(s, step.i);
      assert Deliveries(step.i, NodeOf(s, step.i).lastApplied, []) == {};
    }
  }

  lemma {:induction false} UncommittedAt(cfg: Config, steps: seq<Step>, m: nat)
    requires ValidConfig(cfg) && |cfg| >= 2 && m <= |steps| && Commands(steps) <= 1
    ensures Uncommitted(At(cfg, steps, m))
  {
    if m == 0 {
      forall i: NodeId ensures IdleAt(Init(cfg), i) { }
      forall pkt: Packet ensures SilentAt(Init(cfg), pkt) { }
    } else {
      UncommittedAt(cfg, steps, m - 1);
      StepUncommitted(cfg, steps, m - 1);
    }
  }

  /** A single command is never committed: in a cluster of two or more nodes, whatever is sent and resent, whoever is
      elected and restarted, a run with one command commits nothing at any node and delivers nothing. */
  lemma OneCommandNeverCommits(cfg: Config, steps: seq<Step>)
    requires ValidConfig(cfg) && |cfg| >= 2 && Commands(steps) <= 1
    ensures Run(cfg, steps).delivered == {}
    ensures forall i :: i in Run(cfg, steps).servers ==> NodeOf(Run(cfg, steps), i).commitIndex == 0
  {
    assert steps[..|steps|] == steps;
    UncommittedAt(cfg, steps, |steps|);
    forall i | i in Run(cfg, steps).servers ensures NodeOf(Run(cfg, steps), i).commitIndex == 0 {
      assert IdleAt(At(cfg, steps, |steps|), i);
    }
  }
}
