/** A run of three nodes in which two nodes deliver different entries at index 1. Node 0 leads term 1 and holds
    an entry that nobody else has; node 1 leads term 2, replicates two entries to node 2 and commits them; its
    heartbeat then makes node 0 commit its own, contradicting, entry. That heartbeat is the only step of the run
    that breaks the guard. */
module Witness {
  import opened RaftTypes
  import opened RaftNode
  import opened Cluster
  import opened ClusterSteps
  import opened Safety
  import opened Commitment
  import opened LoneEntry

  const CFG: Config := map[0 := [1, 2], 1 := [0, 2], 2 := [0, 1]]

  const A := Entry(1, 1, Command(GameInput, 0, 0, 1))
  const B := Entry(1, 2, Command(GameInput, 0, 0, 2))
  const C := Entry(2, 2, Command(GameInput, 0, 0, 3))

  const ASK1 := Packet(0, 1, VoteReq(VoteRequest(1, 0, 0, 0)))
  const YES1 := Packet(1, 0, VoteResp(VoteResponse(1, true)))
  const ASK2 := Packet(1, 2, VoteReq(VoteRequest(2, 0, 0, 1)))
  const YES2 := Packet(2, 1, VoteResp(VoteResponse(2, true)))
  const BATCH := Packet(1, 2, AppendReq(AppendRequest(2, 1, 0, 0, 0, [B, C])))
  const ACK := Packet(2, 1, AppendResp(AppendResponse(2, true, 2)))
  const BEAT := Packet(1, 0, AppendReq(AppendRequest(2, 1, 0, 0, 2, [])))

  const TRACE: seq<Step> :=
    [ TimeoutStep(0, 2, 1), ReceiveStep(ASK1, 2), ReceiveStep(ASK1, 1), ReceiveStep(YES1, 0), CommandStep(0, A.command, 1),
      TimeoutStep(1, 2, 1), ReceiveStep(ASK2, 2), ReceiveStep(ASK2, 1), ReceiveStep(YES2, 0), CommandStep(1, B.command, 1),
      CommandStep(1, C.command, 1), AppendStep(1, 1), ReceiveStep(BATCH, 2), ReceiveStep(ACK, 0), HeartbeatStep(1, 0),
      ReceiveStep(BEAT, 1), DrainStep(0, 1), DrainStep(1, 1) ]

  /** The three nodes, and messages that have been sent. */
  ghost predicate Shows(s: State, n0: Node, n1: Node, n2: Node, sent: set<Packet>) {
    && s.servers.Keys == {0, 1, 2} && sent <= s.net
    && s.servers[0].node == n0 && s.servers[1].node == n1 && s.servers[2].node == n2
  }

  function Idle(i: NodeId): Node
    requires i in CFG
  {
    InitNode(i, CFG[i], FRESH)
  }

  const NONE2 := CandidateState(0, [false, false], [false, false])
  const ZERO2 := LeaderState([0, 0], [0, 0])

  function Asking(i: NodeId, t: Term): Node
    requires i in CFG
  {
    Node(Candidate, i, RAFT_NONE, CFG[i], Persistent(t, i, []), 0, 0, CandidateState(t, [false, false], [false, false]), ZERO2)
  }

  function Voted(i: NodeId, t: Term, c: NodeId): Node
    requires i in CFG
  {
    Node(Follower, i, RAFT_NONE, CFG[i], Persistent(t, c, []), 0, 0, NONE2, ZERO2)
  }

  function Leading(i: NodeId, t: Term, flags: seq<bool>, log: Log, next: seq<Index>, matched: seq<Index>, commit: Index): Node
    requires i in CFG
  {
    Node(Leader, i, i, CFG[i], Persistent(t, i, log), commit, 0, CandidateState(t, flags, flags), LeaderState(next, matched))
  }

  lemma Pairs()
    ensures Falses(2) == [false, false]
    ensures forall x: Index :: Fill(2, x) == [x, x]
  {
  }

  lemma Start()
    ensures Shows(Init(CFG), Idle(0), Idle(1), Idle(2), {})
  {
  }

  /** A timeout starts an election and asks the other two nodes. */
  lemma AsksFirst(s: State)
    requires Shows(s, Idle(0), Idle(1), Idle(2), {})
    ensures Shows(Apply(s, TRACE[0]), Asking(0, 1), Idle(1), Idle(2), {ASK1})
  {
    Pairs();
    var req := VoteRequest(1, 0, 0, 0);
    assert Packet(0, CFG[0][0], VoteReq(req)) in Broadcast(0, CFG[0], 2, req);
  }

  /** The voter was behind, so its grant carries its old term and is never counted. */
  lemma VotesUncounted(s: State, n0: Node)
    requires Shows(s, n0, Idle(1), Idle(2), {ASK1})
    ensures Shows(Apply(s, TRACE[1]), n0, Voted(1, 1, 0), Idle(2), {ASK1})
  {
    Pairs();
  }

  lemma VotesAgain(s: State, n0: Node)
    requires Shows(s, n0, Voted(1, 1, 0), Idle(2), {ASK1})
    ensures Shows(Apply(s, TRACE[2]), n0, Voted(1, 1, 0), Idle(2), {YES1})
  {
  }

  lemma WinsFirst(s: State, n1: Node)
    requires Shows(s, Asking(0, 1), n1, Idle(2), {YES1})
    ensures Shows(Apply(s, TRACE[3]), Leading(0, 1, [true, false], [], [1, 1], [0, 0], 0), n1, Idle(2), {})
  {
    Pairs();
    assert FindPeer(CFG[0][..1], 1) == Some(0);
    assert FindPeer(CFG[0], 1) == Some(0);
    assert [false, false][0 := true] == [true, false];
    assert CountTrue([true, false]) == 1 by {
      assert [true, false][..1] == [true];
      assert CountTrue([true]) == 1;
    }
  }

  lemma TakesA(s: State, n1: Node)
    requires Shows(s, Leading(0, 1, [true, false], [], [1, 1], [0, 0], 0), n1, Idle(2), {})
    ensures Shows(Apply(s, TRACE[4]), Leading(0, 1, [true, false], [A], [1, 1], [0, 0], 0), n1, Idle(2), {})
  {
  }

  lemma AsksSecond(s: State, n0: Node)
    requires Shows(s, n0, Voted(1, 1, 0), Idle(2), {})
    ensures Shows(Apply(s, TRACE[5]), n0, Asking(1, 2), Idle(2), {ASK2})
  {
    Pairs();
    var req := VoteRequest(2, 0, 0, 1);
    assert Packet(1, CFG[1][1], VoteReq(req)) in Broadcast(1, CFG[1], 2, req);
  }

  lemma VotesUncounted2(s: State, n0: Node)
    requires Shows(s, n0, Asking(1, 2), Idle(2), {ASK2})
    ensures Shows(Apply(s, TRACE[6]), n0, Asking(1, 2), Voted(2, 2, 1), {ASK2})
  {
    Pairs();
  }

  lemma VotesAgain2(s: State, n0: Node)
    requires Shows(s, n0, Asking(1, 2), Voted(2, 2, 1), {ASK2})
    ensures Shows(Apply(s, TRACE[7]), n0, Asking(1, 2), Voted(2, 2, 1), {YES2})
  {
  }

  lemma WinsSecond(s: State, n0: Node)
    requires Shows(s, n0, Asking(1, 2), Voted(2, 2, 1), {YES2})
    ensures Shows(Apply(s, TRACE[8]), n0, Leading(1, 2, [false, true], [], [1, 1], [0, 0], 0), Voted(2, 2, 1), {})
  {
    Pairs();
    assert FindPeer(CFG[1], 2) == Some(1);
    assert [false, false][1 := true] == [false, true];
    assert CountTrue([false, true]) == 1 by {
      assert [false, true][..1] == [false];
      assert CountTrue([false]) == 0;
    }
  }

  lemma TakesBC(s: State, n0: Node)
    requires Shows(s, n0, Leading(1, 2, [false, true], [], [1, 1], [0, 0], 0), Voted(2, 2, 1), {})
    ensures Shows(Apply(Apply(s, TRACE[9]), TRACE[10]), n0,
                  Leading(1, 2, [false, true], [B, C], [1, 1], [0, 0], 0), Voted(2, 2, 1), {})
  {
    var s1 := Apply(s, TRACE[9]);
    assert Shows(s1, n0, Leading(1, 2, [false, true], [B], [1, 1], [0, 0], 0), Voted(2, 2, 1), {});
    assert [B] + [C] == [B, C];
  }

  /** Sending adds the built request to the network and changes no server. */
  lemma SendAdds(s: State, n0: Node, n1: Node, n2: Node, n: Node, step: Step, pkt: Packet)
    requires Shows(s, n0, n1, n2, {}) && step.AppendStep? && step.i in s.servers && s.servers[step.i].node == n
    requires Shaped(n) && step.k < |n.peers| && pkt.body.AppendReq?
    requires BuildAppend(n, step.k) == Some(pkt.body.areq) && pkt.src == n.id && pkt.dst == n.peers[step.k]
    ensures Shows(Apply(s, step), n0, n1, n2, {pkt})
  {
    assert pkt == Packet(n.id, n.peers[step.k], AppendReq(pkt.body.areq));
  }

  /** To a peer that has nothing yet, a short log goes out whole. */
  lemma SendsWholeLog(n: Node, k: nat)
    requires n.role == Leader && |n.lstate.next| == |n.peers| && k < |n.peers|
    requires n.lstate.next[k] == 1 && |n.pstate.log| <= RAFT_APPEND_BATCH
    ensures BuildAppend(n, k) == Some(AppendRequest(n.pstate.term, n.id, 0, 0, n.commitIndex, n.pstate.log))
  {
    assert n.pstate.log[0..|n.pstate.log|] == n.pstate.log;
  }

  lemma BuildsBatch(n: Node, k: nat)
    requires n == Leading(1, 2, [false, true], [B, C], [1, 1], [0, 0], 0) && k == 1
    ensures Shaped(n) && n.id == 1 && |n.peers| == 2 && n.peers[k] == 2
    ensures BuildAppend(n, k) == Some(AppendRequest(2, 1, 0, 0, 0, [B, C]))
  {
    SendsWholeLog(n, k);
  }

  lemma SendsBatch(s: State, n0: Node, n1: Node, n2: Node)
    requires Shows(s, n0, n1, n2, {}) && n1 == Leading(1, 2, [false, true], [B, C], [1, 1], [0, 0], 0)
    ensures Shows(Apply(s, TRACE[11]), n0, n1, n2, {BATCH})
  {
    var step := TRACE[11];
    BuildsBatch(n1, step.k);
    SendAdds(s, n0, n1, n2, n1, step, BATCH);
  }

  function Following(log: Log): Node {
    Node(Follower, 2, 1, CFG[2], Persistent(2, 1, log), 0, 0, NONE2, ZERO2)
  }

  lemma TakesBatch(s: State, n0: Node, n1: Node)
    requires Shows(s, n0, n1, Voted(2, 2, 1), {BATCH})
    ensures Shows(Apply(s, TRACE[12]), n0, n1, Following([B, C]), {ACK})
  {
    var es := [B, C];
    assert AppendLoop([B, C], 0, es, 2, 0) == LoopResult([B, C], [], Done);
    assert [B] + [C] == [B, C];
    assert AppendLoop([B], 0, es, 1, 1) == LoopResult([B, C], [EntryRecord(C)], Done);
    assert [] + [B] == [B];
    assert AppendLoop([], 0, es, 0, 2).log == [B, C];
  }

  lemma CommitsBC(s: State, n0: Node)
    requires Shows(s, n0, Leading(1, 2, [false, true], [B, C], [1, 1], [0, 0], 0), Following([B, C]), {ACK})
    ensures Shows(Apply(s, TRACE[13]), n0, Leading(1, 2, [false, true], [B, C], [1, 3], [0, 2], 2), Following([B, C]), {})
  {
    var n := Leading(1, 2, [false, true], [B, C], [1, 3], [0, 2], 0);
    assert FindPeer(CFG[1], 2) == Some(1);
    assert [1, 1][1 := 3] == [1, 3] && [0, 0][1 := 2] == [0, 2];
    assert AtLeast([0, 2], 2) == [false, true];
    assert CountTrue([false, true]) == 1 by {
      assert [false, true][..1] == [false];
      assert CountTrue([false]) == 0;
    }
    assert Committable(n, 2);
  }

  lemma SendsBeat(s: State, n0: Node, n1: Node, n2: Node)
    requires Shows(s, n0, n1, n2, {}) && n1 == Leading(1, 2, [false, true], [B, C], [1, 3], [0, 2], 2)
    ensures Shows(Apply(s, TRACE[14]), n0, n1, n2, {BEAT})
  {
  }

  function Misled(applied: Index): Node {
    Node(Follower, 0, 1, CFG[0], Persistent(2, RAFT_NONE, [A]), 1, applied, NONE2, ZERO2)
  }

  lemma LearnsWrong(s: State, n1: Node, n2: Node)
    requires Shows(s, Leading(0, 1, [true, false], [A], [1, 1], [0, 0], 0), n1, n2, {BEAT})
    ensures Shows(Apply(s, TRACE[15]), Misled(0), n1, n2, {}) && !SafeStep(s, TRACE[15])
  {
    Pairs();
    assert !Conflicts([A], BEAT.body.areq);
  }

  lemma DeliversA(s: State, n1: Node, n2: Node)
    requires Shows(s, Misled(0), n1, n2, {})
    ensures var s' := Apply(s, TRACE[16]);
            Shows(s', Misled(1), n1, n2, {}) && Delivery(0, 1, A) in s'.delivered
  {
    assert [A][0..1] == [A];
    assert Drain(Misled(0), 1).1 == [A];
    assert Delivery(0, 0 + 0 + 1, [A][0]) in Deliveries(0, 0, [A]);
  }

  lemma DeliversB(s: State, n0: Node, n2: Node)
    requires Shows(s, n0, Leading(1, 2, [false, true], [B, C], [1, 3], [0, 2], 2), n2, {})
    ensures var s' := Apply(s, TRACE[17]); Delivery(1, 1, B) in s'.delivered && s.delivered <= s'.delivered
  {
    var n := Leading(1, 2, [false, true], [B, C], [1, 3], [0, 2], 2);
    assert Drain(n, 1).1 == [B];
    assert Delivery(1, 0 + 0 + 1, [B][0]) in Deliveries(1, 0, [B]);
  }

  /** The first election. */
  lemma FirstHalf()
    ensures Shows(At(CFG, TRACE, 5), Leading(0, 1, [true, false], [A], [1, 1], [0, 0], 0), Voted(1, 1, 0), Idle(2), {})
  {
    Start();
    assert At(CFG, TRACE, 0) == Init(CFG);
    AtNext(CFG, TRACE, 0); AsksFirst(At(CFG, TRACE, 0));
    AtNext(CFG, TRACE, 1); VotesUncounted(At(CFG, TRACE, 1), Asking(0, 1));
    AtNext(CFG, TRACE, 2); VotesAgain(At(CFG, TRACE, 2), Asking(0, 1));
    AtNext(CFG, TRACE, 3); WinsFirst(At(CFG, TRACE, 3), Voted(1, 1, 0));
    AtNext(CFG, TRACE, 4); TakesA(At(CFG, TRACE, 4), Voted(1, 1, 0));
  }

  /** The second election and the commit of its leader. */
  lemma SecondHalf()
    ensures 1 in At(CFG, TRACE, 13).servers && At(CFG, TRACE, 13).servers[1].node.commitIndex == 0
    ensures Shows(At(CFG, TRACE, 14), Leading(0, 1, [true, false], [A], [1, 1], [0, 0], 0),
                  Leading(1, 2, [false, true], [B, C], [1, 3], [0, 2], 2), Following([B, C]), {})
  {
    var n0 := Leading(0, 1, [true, false], [A], [1, 1], [0, 0], 0);
    FirstHalf();
    AtNext(CFG, TRACE, 5); AsksSecond(At(CFG, TRACE, 5), n0);
    AtNext(CFG, TRACE, 6); VotesUncounted2(At(CFG, TRACE, 6), n0);
    AtNext(CFG, TRACE, 7); VotesAgain2(At(CFG, TRACE, 7), n0);
    AtNext(CFG, TRACE, 8); WinsSecond(At(CFG, TRACE, 8), n0);
    AtNext(CFG, TRACE, 9); AtNext(CFG, TRACE, 10); TakesBC(At(CFG, TRACE, 9), n0);
    var n1 := Leading(1, 2, [false, true], [B, C], [1, 1], [0, 0], 0);
    AtNext(CFG, TRACE, 11); SendsBatch(At(CFG, TRACE, 11), n0, n1, Voted(2, 2, 1));
    AtNext(CFG, TRACE, 12); TakesBatch(At(CFG, TRACE, 12), n0, n1);
    AtNext(CFG, TRACE, 13); CommitsBC(At(CFG, TRACE, 13), n0);
  }

  lemma ConfigIsValid()
    ensures ValidConfig(CFG)
  {
    assert CFG.Keys == {0, 1, 2};
    forall i | i in CFG ensures PeersOk(CFG.Keys, i, CFG[i]) {
      if i == 0 { assert PeerSet([1, 2]) == {1, 2}; }
      if i == 1 { assert PeerSet([0, 2]) == {0, 2}; }
      if i == 2 { assert PeerSet([0, 1]) == {0, 1}; }
    }
  }

  /** Not every instance holds what is committed: node 1 commits two entries at step 13, of which node 0, up and
      running, holds none. LeaderHoldsCommitted and CommittedOnMajority say who does. */
  lemma SurvivorLacksCommitted()
    ensures ValidConfig(CFG) && Commits(CFG, TRACE, 13, 1, 2)
    ensures 0 in At(CFG, TRACE, 14).servers && LogOf(At(CFG, TRACE, 14), 0) == [A]
    ensures 1 in At(CFG, TRACE, 14).servers && LogOf(At(CFG, TRACE, 14), 1) == [B, C]
  {
    ConfigIsValid();
    SecondHalf();
  }

  /** No other step of the run is a request that could raise a commit index. */
  lemma OtherStepsAreSafe(k: nat)
    requires k != 15
    ensures SafeAt(CFG, TRACE, k)
  {
    if k < |TRACE| && k != 12 {
      assert !(TRACE[k].ReceiveStep? && TRACE[k].pkt.body.AppendReq?);
    }
  }

  /** The heartbeat is the one step of the run that breaks the guard. */
  lemma OnlyHeartbeatUnguarded()
    ensures forall k: nat :: SafeAt(CFG, TRACE, k) <==> k != 15
  {
    SecondHalf();
    var n0, n1 := Leading(0, 1, [true, false], [A], [1, 1], [0, 0], 0), Leading(1, 2, [false, true], [B, C], [1, 3], [0, 2], 2);
    AtNext(CFG, TRACE, 14); SendsBeat(At(CFG, TRACE, 14), n0, n1, Following([B, C]));
    LearnsWrong(At(CFG, TRACE, 15), n1, Following([B, C]));
    forall k: nat ensures SafeAt(CFG, TRACE, k) <==> k != 15 {
      if k != 15 { OtherStepsAreSafe(k); }
    }
  }

  lemma BothDeliver()
    ensures Delivery(0, 1, A) in Run(CFG, TRACE).delivered && Delivery(1, 1, B) in Run(CFG, TRACE).delivered
  {
    SecondHalf();
    var n1 := Leading(1, 2, [false, true], [B, C], [1, 3], [0, 2], 2);
    AtNext(CFG, TRACE, 14);
    SendsBeat(At(CFG, TRACE, 14), Leading(0, 1, [true, false], [A], [1, 1], [0, 0], 0), n1, Following([B, C]));
    AtNext(CFG, TRACE, 15); LearnsWrong(At(CFG, TRACE, 15), n1, Following([B, C]));
    AtNext(CFG, TRACE, 16); DeliversA(At(CFG, TRACE, 16), n1, Following([B, C]));
    AtNext(CFG, TRACE, 17); DeliversB(At(CFG, TRACE, 17), Misled(1), Following([B, C]));
    assert TRACE[..18] == TRACE;
  }

  /** Without the guard State Machine Safety fails: a heartbeat makes two nodes deliver different entries at
      index 1 of a valid three-node cluster. */
  lemma HeartbeatBreaksSafety()
    ensures ValidConfig(CFG) && |CFG| == 3
    ensures Delivery(0, 1, A) in Run(CFG, TRACE).delivered && Delivery(1, 1, B) in Run(CFG, TRACE).delivered
    ensures A != B && !SafeRun(CFG, TRACE)
  {
    ConfigIsValid();
    BothDeliver();
    OnlyHeartbeatUnguarded();
    assert |CFG.Keys| == |{0, 1, 2}|;
    assert !SafeAt(CFG, TRACE, 15);
  }

  // ---------- One command ----------

  const COPY1 := Packet(0, 1, AppendReq(AppendRequest(1, 0, 0, 0, 0, [A])))
  const COPY2 := Packet(0, 2, AppendReq(AppendRequest(1, 0, 0, 0, 0, [A])))

  /** Node 0 is elected, takes one command and brings it to both peers. */
  const LONE: seq<Step> :=
    TRACE[..5] + [AppendStep(0, 0), ReceiveStep(COPY1, 1), AppendStep(0, 1), ReceiveStep(COPY2, 2)]

  function Holding(i: NodeId, vote: NodeId): Node
    requires i in CFG
  {
    Node(Follower, i, 0, CFG[i], Persistent(1, vote, [A]), 0, 0, NONE2, ZERO2)
  }

  lemma BuildsCopy(n: Node, k: nat)
    requires n == Leading(0, 1, [true, false], [A], [1, 1], [0, 0], 0) && k < 2
    ensures Shaped(n) && n.id == 0 && |n.peers| == 2 && n.peers[k] == k + 1
    ensures BuildAppend(n, k) == Some(AppendRequest(1, 0, 0, 0, 0, [A]))
  {
    SendsWholeLog(n, k);
  }

  lemma SendsCopy(s: State, n0: Node, n1: Node, n2: Node, k: nat, pkt: Packet)
    requires Shows(s, n0, n1, n2, {}) && n0 == Leading(0, 1, [true, false], [A], [1, 1], [0, 0], 0) && k < 2
    requires pkt == if k == 0 then COPY1 else COPY2
    ensures Shows(Apply(s, AppendStep(0, k)), n0, n1, n2, {pkt})
  {
    BuildsCopy(n0, k);
    SendAdds(s, n0, n1, n2, n0, AppendStep(0, k), pkt);
  }

  lemma CopiesA(w: nat)
    requires w > 0
    ensures AppendLoop([], 0, [A], 0, w) == LoopResult([A], [EntryRecord(A)], Done)
  {
    assert AppendLoop([A], 0, [A], 1, w - 1) == LoopResult([A], [], Done);
    assert [] + [A] == [A] && [] + [EntryRecord(A)] == [EntryRecord(A)];
  }

  lemma TakesCopy1(s: State, n0: Node)
    requires Shows(s, n0, Voted(1, 1, 0), Idle(2), {COPY1})
    ensures Shows(Apply(s, ReceiveStep(COPY1, 1)), n0, Holding(1, 0), Idle(2), {})
  {
    CopiesA(1);
  }

  lemma TakesCopy2(s: State, n0: Node, n1: Node)
    requires Shows(s, n0, n1, Idle(2), {COPY2})
    ensures Shows(Apply(s, ReceiveStep(COPY2, 2)), n0, n1, Holding(2, RAFT_NONE), {})
  {
    Pairs();
    CopiesA(1);
  }

  lemma AllHoldA()
    ensures Shows(Run(CFG, LONE), Leading(0, 1, [true, false], [A], [1, 1], [0, 0], 0), Holding(1, 0), Holding(2, RAFT_NONE), {})
  {
    var n0 := Leading(0, 1, [true, false], [A], [1, 1], [0, 0], 0);
    FirstHalf();
    assert LONE[..5] == TRACE[..5];
    AtNext(CFG, LONE, 5); SendsCopy(At(CFG, LONE, 5), n0, Voted(1, 1, 0), Idle(2), 0, COPY1);
    AtNext(CFG, LONE, 6); TakesCopy1(At(CFG, LONE, 6), n0);
    AtNext(CFG, LONE, 7); SendsCopy(At(CFG, LONE, 7), n0, Holding(1, 0), Idle(2), 1, COPY2);
    AtNext(CFG, LONE, 8); TakesCopy2(At(CFG, LONE, 8), n0, Holding(1, 0));
    assert LONE[..9] == LONE;
  }

  lemma {:induction false} CommandsAppend(a: seq<Step>, b: seq<Step>)
    ensures Commands(a + b) == Commands(a) + Commands(b)
  {
    if b == [] {
      assert a + b == a;
    } else {
      CommandsAppend(a, b[..|b| - 1]);
      assert (a + b)[..|a + b| - 1] == a + b[..|b| - 1];
    }
  }

  lemma OneCommand()
    ensures Commands(LONE) == 1
  {
    var rest := [AppendStep(0, 0), ReceiveStep(COPY1, 1), AppendStep(0, 1), ReceiveStep(COPY2, 2)];
    assert forall k :: 0 <= k < 4 ==> TRACE[..4][k] == TRACE[k] && !TRACE[k].CommandStep?;
    NoCommands(TRACE[..4]);
    NoCommands(rest);
    assert TRACE[..5][..4] == TRACE[..4] && TRACE[..5][4] == TRACE[4];
    CommandsAppend(TRACE[..5], rest);
  }

  lemma {:induction false} NoCommands(steps: seq<Step>)
    requires forall k :: 0 <= k < |steps| ==> !steps[k].CommandStep?
    ensures Commands(steps) == 0
  {
    if steps != [] {
      NoCommands(steps[..|steps| - 1]);
    }
  }

  /** All three nodes hold the one command, and yet, however the run goes on, nobody commits or delivers it until
      another command is sent. */
  lemma HeldByAllNeverCommitted(more: seq<Step>)
    requires Commands(more) == 0
    ensures ValidConfig(CFG) && Commands(LONE) == 1
    ensures forall i :: i in CFG ==> i in Run(CFG, LONE).servers && LogOf(Run(CFG, LONE), i) == [A]
    ensures Run(CFG, LONE + more).delivered == {}
    ensures forall i :: i in Run(CFG, LONE + more).servers ==> Run(CFG, LONE + more).servers[i].node.commitIndex == 0
  {
    ConfigIsValid();
    AllHoldA();
    OneCommand();
    CommandsAppend(LONE, more);
    assert |CFG.Keys| == |{0, 1, 2}|;
    OneCommandNeverCommits(CFG, LONE + more);
  }
}
