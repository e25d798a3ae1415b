/** A run of two nodes in which a leader's match index goes down: old rejections move next_index back to 1, and then an
    old acknowledgement is recorded over a newer one. */
module MatchWitness {
  import opened RaftTypes
  import opened RaftNode
  import opened Cluster
  import opened Safety

  const PAIR: Config := map[0 := [1], 1 := [0]]

  const A := Entry(1, 1, Command(GameInput, 0, 0, 1))
  const B := Entry(2, 2, Command(GameInput, 0, 0, 2))
  const C := Entry(3, 2, Command(GameInput, 0, 0, 3))

  const PROBE := Packet(0, 1, AppendReq(AppendRequest(2, 0, 1, 1, 0, [])))
  const NAK := Packet(1, 0, AppendResp(AppendResponse(2, false, 0)))
  const TWO := Packet(0, 1, AppendReq(AppendRequest(2, 0, 0, 0, 0, [A, B])))
  const ACK2 := Packet(1, 0, AppendResp(AppendResponse(2, true, 2)))
  const THREE := Packet(0, 1, AppendReq(AppendRequest(2, 0, 1, 1, 2, [B, C])))
  const ACK3 := Packet(1, 0, AppendResp(AppendResponse(2, true, 3)))

  ghost predicate Two(s: State, n0: Node, n1: Node) {
    s.servers.Keys == {0, 1} && s.servers[0].node == n0 && s.servers[1].node == n1
  }

  const NONE1 := CandidateState(0, [false], [false])
  const ZERO1 := LeaderState([0], [0])

  function Plain(i: NodeId, leader: NodeId, t: Term, vote: NodeId, log: Log, commit: Index): Node
    requires i in PAIR
  {
    Node(Follower, i, leader, PAIR[i], Persistent(t, vote, log), commit, 0, NONE1, ZERO1)
  }

  function Asking(t: Term, log: Log): Node {
    Node(Candidate, 0, RAFT_NONE, PAIR[0], Persistent(t, 0, log), 0, 0, CandidateState(t, [false], [false]), ZERO1)
  }

  function Leading(t: Term, log: Log, next: Index, matched: Index, commit: Index): Node {
    Node(Leader, 0, 0, PAIR[0], Persistent(t, 0, log), commit, 0, CandidateState(t, [true], [true]), LeaderState([next], [matched]))
  }

  lemma Singles()
    ensures Falses(1) == [false]
    ensures forall x: Index :: Fill(1, x) == [x]
  {
  }

  // ---------- Elections ----------

  lemma Asks(s: State, n1: Node, t: Term, vote: NodeId, log: Log, ask: Packet)
    requires Two(s, Plain(0, RAFT_NONE, t, vote, log, 0), n1)
    requires ask == Packet(0, 1, VoteReq(VoteRequest(t + 1, |log|, LastTerm(log), 0)))
    ensures var s' := Apply(s, TimeoutStep(0, 1, 1)); Two(s', Asking(t + 1, log), n1) && ask in s'.net
  {
    Singles();
    var req := ask.body.vreq;
    assert Packet(0, PAIR[0][0], VoteReq(req)) in Broadcast(0, PAIR[0], 1, req);
  }

  lemma VotesLate(s: State, n0: Node, t: Term, vote: NodeId, ask: Packet)
    requires Two(s, n0, Plain(1, RAFT_NONE, t, vote, [], 0)) && ask in s.net
    requires ask.src == 0 && ask.dst == 1 && ask.body.VoteReq? && ask.body.vreq.term == t + 1 && ask.body.vreq.candidateId == 0
    ensures Two(Apply(s, ReceiveStep(ask, 2)), n0, Plain(1, RAFT_NONE, t + 1, 0, [], 0))
    ensures ask in Apply(s, ReceiveStep(ask, 2)).net
  {
    Singles();
  }

  lemma VotesInTime(s: State, n0: Node, t: Term, ask: Packet)
    requires Two(s, n0, Plain(1, RAFT_NONE, t, 0, [], 0)) && ask in s.net
    requires ask.src == 0 && ask.dst == 1 && ask.body.VoteReq? && ask.body.vreq.term == t && ask.body.vreq.candidateId == 0
    ensures var s' := Apply(s, ReceiveStep(ask, 1));
            Two(s', n0, Plain(1, RAFT_NONE, t, 0, [], 0)) && Packet(1, 0, VoteResp(VoteResponse(t, true))) in s'.net
  {
  }

  lemma Wins(s: State, n1: Node, t: Term, log: Log, yes: Packet)
    requires Two(s, Asking(t, log), n1) && yes in s.net && yes == Packet(1, 0, VoteResp(VoteResponse(t, true)))
    ensures Two(Apply(s, ReceiveStep(yes, 0)), Leading(t, log, |log| + 1, 0, 0), n1)
  {
    Singles();
    assert FindPeer(PAIR[0], 1) == Some(0);
    assert [false][0 := true] == [true];
    assert CountTrue([true]) == 1 by { assert [true][..0] == []; }
  }

  lemma Takes(s: State, n1: Node, t: Term, log: Log, next: Index, matched: Index, commit: Index, cmd: Command)
    requires Two(s, Leading(t, log, next, matched, commit), n1) && |log| < RAFT_LOG_CAP
    ensures Two(Apply(s, CommandStep(0, cmd, 1)), Leading(t, log + [Entry(|log| + 1, t, cmd)], next, matched, commit), n1)
  {
  }

  lemma Restarts(s: State, n1: Node, t: Term, log: Log, next: Index, matched: Index, commit: Index)
    requires Two(s, Leading(t, log, next, matched, commit), n1)
    requires Replay(s.servers[0].disk) == Restored(Persistent(t, 0, log))
    ensures Two(Apply(s, RestartStep(0)), Plain(0, RAFT_NONE, t, 0, log, 0), n1)
  {
    Singles();
  }

  // ---------- Batches ----------

  lemma Sends(s: State, n0: Node, n1: Node, pkt: Packet)
    requires Two(s, n0, n1) && Shaped(n0) && n0.id == 0 && n0.peers == [1]
    requires pkt.src == 0 && pkt.dst == 1 && pkt.body.AppendReq? && BuildAppend(n0, 0) == Some(pkt.body.areq)
    ensures Two(Apply(s, AppendStep(0, 0)), n0, n1) && pkt in Apply(s, AppendStep(0, 0)).net
  {
    assert pkt == Packet(n0.id, n0.peers[0], AppendReq(pkt.body.areq));
  }

  /** A short log from some index on. */
  lemma Builds(n: Node, prev: Index, log: Log)
    requires n.role == Leader && |n.lstate.next| == |n.peers| == 1 && n.lstate.next[0] == prev + 1 && prev <= |n.pstate.log|
    requires n.pstate.log[prev..] == log && |log| <= RAFT_APPEND_BATCH
    ensures BuildAppend(n, 0) == Some(AppendRequest(n.pstate.term, n.id, prev, TermAt(n.pstate.log, prev), n.commitIndex, log))
  {
    assert n.pstate.log[prev..prev + |log|] == log;
  }

  lemma Refuses(s: State, n0: Node)
    requires Two(s, n0, Plain(1, RAFT_NONE, 2, 0, [], 0)) && PROBE in s.net
    ensures var s' := Apply(s, ReceiveStep(PROBE, 0)); Two(s', n0, Plain(1, 0, 2, 0, [], 0)) && NAK in s'.net
  {
  }

  lemma TakesTwo(s: State, n0: Node)
    requires Two(s, n0, Plain(1, 0, 2, 0, [], 0)) && TWO in s.net
    ensures var s' := Apply(s, ReceiveStep(TWO, 2)); Two(s', n0, Plain(1, 0, 2, 0, [A, B], 0)) && ACK2 in s'.net
  {
    var es := [A, B];
    assert AppendLoop([A, B], 0, es, 2, 0) == LoopResult([A, B], [], Done);
    assert [A] + [B] == [A, B];
    assert AppendLoop([A], 0, es, 1, 1) == LoopResult([A, B], [EntryRecord(B)], Done);
    assert [] + [A] == [A];
    assert AppendLoop([], 0, es, 0, 2).log == [A, B];
  }

  lemma TakesThree(s: State, n0: Node)
    requires Two(s, n0, Plain(1, 0, 2, 0, [A, B], 0)) && THREE in s.net
    ensures var s' := Apply(s, ReceiveStep(THREE, 1)); Two(s', n0, Plain(1, 0, 2, 0, [A, B, C], 2)) && ACK3 in s'.net
  {
    var es := [B, C];
    assert AppendLoop([A, B, C], 1, es, 2, 0) == LoopResult([A, B, C], [], Done);
    assert [A, B] + [C] == [A, B, C];
    assert AppendLoop([A, B], 1, es, 1, 1).log == [A, B, C];
    assert AppendLoop([A, B], 1, es, 0, 1) == AppendLoop([A, B], 1, es, 1, 1);
  }

  // ---------- Replies ----------

  lemma StepsBack(s: State, n1: Node, log: Log, next: Index, matched: Index, commit: Index)
    requires Two(s, Leading(2, log, next, matched, commit), n1) && NAK in s.net && 1 < next <= |log| + 1
    ensures Two(Apply(s, ReceiveStep(NAK, 0)), Leading(2, log, next - 1, matched, commit), n1)
  {
    assert FindPeer(PAIR[0], 1) == Some(0);
    assert [next][0 := next - 1] == [next - 1];
  }

  /** An acknowledgement that is recorded, whatever match index stood there before, and what is committed then. */
  lemma Records(s: State, n1: Node, log: Log, next: Index, matched: Index, commit: Index, ack: Packet, m: Index)
    requires Two(s, Leading(2, log, next, matched, commit), n1) && ack in s.net
    requires ack == Packet(1, 0, AppendResp(AppendResponse(2, true, m))) && 1 <= next < m <= |log| && log[m - 1].term == 2
    requires m < |log| ==> commit >= |log|
    ensures Two(Apply(s, ReceiveStep(ack, 0)), Leading(2, log, m + 1, m, if m < |log| then commit else Max(commit, m)), n1)
  {
    assert FindPeer(PAIR[0], 1) == Some(0);
    assert [next][0 := m + 1] == [m + 1] && [matched][0 := m] == [m];
    var n := Leading(2, log, m + 1, m, commit);
    assert AtLeast([m], m) == [true];
    assert CountTrue([true]) == 1 by { assert [true][..0] == []; }
    assert Committable(n, m);
  }

  // ---------- The run ----------

  /** One more step: what is in flight stays in flight. */
  lemma Then(steps: seq<Step>, step: Step) returns (more: seq<Step>)
    ensures more == steps + [step] && Run(PAIR, more) == Apply(Run(PAIR, steps), step)
    ensures Run(PAIR, steps).net <= Run(PAIR, more).net
  {
    more := steps + [step];
    assert more[..|steps|] == steps;
  }

  lemma Start()
    ensures Two(Init(PAIR), Plain(0, RAFT_NONE, 0, RAFT_NONE, [], 0), Plain(1, RAFT_NONE, 0, RAFT_NONE, [], 0))
  {
    Singles();
    assert Init(PAIR).servers.Keys == {0, 1};
  }

  lemma PairIsValid()
    ensures ValidConfig(PAIR)
  {
    assert PAIR.Keys == {0, 1};
    forall i | i in PAIR ensures PeersOk(PAIR.Keys, i, PAIR[i]) {
      if i == 0 { assert PeerSet([1]) == {1}; }
      if i == 1 { assert PeerSet([0]) == {0}; }
    }
  }

  /** An election of node 0: asked once, node 1 votes under its old term; asked again, its grant counts. */
  lemma Election(steps: seq<Step>, t: Term, vote0: NodeId, vote1: NodeId, log: Log) returns (more: seq<Step>)
    requires Two(Run(PAIR, steps), Plain(0, RAFT_NONE, t, vote0, log, 0), Plain(1, RAFT_NONE, t, vote1, [], 0))
    ensures Two(Run(PAIR, more), Leading(t + 1, log, |log| + 1, 0, 0), Plain(1, RAFT_NONE, t + 1, 0, [], 0))
  {
    var ask := Packet(0, 1, VoteReq(VoteRequest(t + 1, |log|, LastTerm(log), 0)));
    var yes := Packet(1, 0, VoteResp(VoteResponse(t + 1, true)));
    var n1 := Plain(1, RAFT_NONE, t + 1, 0, [], 0);
    Asks(Run(PAIR, steps), Plain(1, RAFT_NONE, t, vote1, [], 0), t, vote0, log, ask);
    more := Then(steps, TimeoutStep(0, 1, 1));
    VotesLate(Run(PAIR, more), Asking(t + 1, log), t, vote1, ask);
    more := Then(more, ReceiveStep(ask, 2));
    VotesInTime(Run(PAIR, more), Asking(t + 1, log), t + 1, ask);
    more := Then(more, ReceiveStep(ask, 1));
    Wins(Run(PAIR, more), n1, t + 1, log, yes);
    more := Then(more, ReceiveStep(yes, 0));
  }

  /** Node 0 leads term 1 and takes A. */
  lemma OneTerm() returns (steps: seq<Step>)
    ensures Two(Run(PAIR, steps), Leading(1, [A], 1, 0, 0), Plain(1, RAFT_NONE, 1, 0, [], 0))
  {
    Start();
    steps := Election([], 0, RAFT_NONE, RAFT_NONE, []);
    Takes(Run(PAIR, steps), Plain(1, RAFT_NONE, 1, 0, [], 0), 1, [], 1, 0, 0, A.command);
    steps := Then(steps, CommandStep(0, A.command, 1));
    assert [] + [A] == [A];
  }

  /** Node 0 leads term 1, takes A, restarts, and leads term 2 with a log that node 1 has nothing of. */
  lemma TwoTerms() returns (steps: seq<Step>)
    ensures Two(Run(PAIR, steps), Leading(2, [A], 2, 0, 0), Plain(1, RAFT_NONE, 2, 0, [], 0))
  {
    PairIsValid();
    var n1 := Plain(1, RAFT_NONE, 1, 0, [], 0);
    steps := OneTerm();
    RecoveryRefinesMemory(PAIR, steps, 0);
    Restarts(Run(PAIR, steps), n1, 1, [A], 1, 0, 0);
    steps := Then(steps, RestartStep(0));
    steps := Election(steps, 1, 0, 0, [A]);
  }

  /** A probe beyond node 1's log is refused; then B is taken. */
  lemma Probed() returns (steps: seq<Step>)
    ensures Two(Run(PAIR, steps), Leading(2, [A, B], 1, 0, 0), Plain(1, 0, 2, 0, [], 0)) && NAK in Run(PAIR, steps).net
  {
    steps := TwoTerms();
    var l, f := Leading(2, [A], 2, 0, 0), Plain(1, 0, 2, 0, [], 0);
    Builds(l, 1, []);
    Sends(Run(PAIR, steps), l, Plain(1, RAFT_NONE, 2, 0, [], 0), PROBE);
    steps := Then(steps, AppendStep(0, 0));
    Refuses(Run(PAIR, steps), l);
    steps := Then(steps, ReceiveStep(PROBE, 0));
    StepsBack(Run(PAIR, steps), f, [A], 2, 0, 0);
    steps := Then(steps, ReceiveStep(NAK, 0));
    Takes(Run(PAIR, steps), f, 2, [A], 1, 0, 0, B.command);
    steps := Then(steps, CommandStep(0, B.command, 1));
    assert [A] + [B] == [A, B];
  }

  lemma FirstAck() returns (steps: seq<Step>)
    ensures Two(Run(PAIR, steps), Leading(2, [A, B], 3, 2, 2), Plain(1, 0, 2, 0, [A, B], 0))
    ensures NAK in Run(PAIR, steps).net && ACK2 in Run(PAIR, steps).net
  {
    steps := Probed();
    var l := Leading(2, [A, B], 1, 0, 0);
    assert [A, B][0..] == [A, B];
    Builds(l, 0, [A, B]);
    Sends(Run(PAIR, steps), l, Plain(1, 0, 2, 0, [], 0), TWO);
    steps := Then(steps, AppendStep(0, 0));
    TakesTwo(Run(PAIR, steps), l);
    steps := Then(steps, ReceiveStep(TWO, 2));
    Records(Run(PAIR, steps), Plain(1, 0, 2, 0, [A, B], 0), [A, B], 1, 0, 0, ACK2, 2);
    steps := Then(steps, ReceiveStep(ACK2, 0));
  }

  /** C is taken, the old refusal moves next_index back, and the batch of two is acknowledged and recorded. */
  lemma SecondAck() returns (steps: seq<Step>)
    ensures Two(Run(PAIR, steps), Leading(2, [A, B, C], 4, 3, 3), Plain(1, 0, 2, 0, [A, B, C], 2))
    ensures NAK in Run(PAIR, steps).net && ACK2 in Run(PAIR, steps).net
  {
    steps := FirstAck();
    var f, l := Plain(1, 0, 2, 0, [A, B], 0), Leading(2, [A, B, C], 2, 2, 2);
    Takes(Run(PAIR, steps), f, 2, [A, B], 3, 2, 2, C.command);
    steps := Then(steps, CommandStep(0, C.command, 1));
    assert [A, B] + [C] == [A, B, C];
    StepsBack(Run(PAIR, steps), f, [A, B, C], 3, 2, 2);
    steps := Then(steps, ReceiveStep(NAK, 0));
    assert [A, B, C][1..] == [B, C];
    Builds(l, 1, [B, C]);
    Sends(Run(PAIR, steps), l, f, THREE);
    steps := Then(steps, AppendStep(0, 0));
    TakesThree(Run(PAIR, steps), l);
    steps := Then(steps, ReceiveStep(THREE, 1));
    Records(Run(PAIR, steps), Plain(1, 0, 2, 0, [A, B, C], 2), [A, B, C], 2, 2, 2, ACK3, 3);
    steps := Then(steps, ReceiveStep(ACK3, 0));
  }

  /** The match index of one and the same leader, in one and the same term, goes from 3 down to 2, although its peer
      holds all three entries. */
  lemma MatchIndexGoesDown() returns (steps: seq<Step>)
    ensures ValidConfig(PAIR) && Leads(Run(PAIR, steps), 0, 2) && Leads(Run(PAIR, steps + [ReceiveStep(ACK2, 0)]), 0, 2)
    ensures Run(PAIR, steps).servers[0].node.lstate.matched == [3]
    ensures Run(PAIR, steps + [ReceiveStep(ACK2, 0)]).servers[0].node.lstate.matched == [2]
    ensures 1 in Run(PAIR, steps).servers && LogOf(Run(PAIR, steps), 1) == LogOf(Run(PAIR, steps), 0) == [A, B, C]
  {
    PairIsValid();
    steps := SecondAck();
    var f, log := Plain(1, 0, 2, 0, [A, B, C], 2), [A, B, C];
    StepsBack(Run(PAIR, steps), f, log, 4, 3, 3);
    steps := Then(steps, ReceiveStep(NAK, 0));
    StepsBack(Run(PAIR, steps), f, log, 3, 3, 3);
    steps := Then(steps, ReceiveStep(NAK, 0));
    StepsBack(Run(PAIR, steps), f, log, 2, 3, 3);
    steps := Then(steps, ReceiveStep(NAK, 0));
    Records(Run(PAIR, steps), f, log, 1, 3, 3, ACK2, 2);
    var last := Then(steps, ReceiveStep(ACK2, 0));
  }
}
