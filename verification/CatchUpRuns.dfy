/** Catch-up inside a run: whenever a node leads and a peer's term is no higher, some further steps of the
    cluster, and no more than the bound says, bring the peer's log up to the leader's. */
module CatchUpRuns {
  import opened RaftTypes
  import opened RaftNode
  import opened Cluster
  import opened Protocol
  import opened ReplicaSteps
  import opened ClusterInv
  import opened ClusterSteps
  import opened Paths
  import opened Safety
  import opened CatchUp

  ghost predicate Both(s: State, a: NodeId, b: NodeId) {
    a in s.servers && b in s.servers && a != b
  }

  ghost function PairOf(s: State, a: NodeId, b: NodeId): Pair
    requires Both(s, a, b)
  {
    Pair(s.servers[a].node, s.servers[b].node)
  }

  /** A leader of any run and a peer whose term is no higher meet the conditions of the exchange. */
  lemma LeaderAndPeer(cfg: Config, s: State, p: Proto, a: NodeId, t: Term, k: nat)
    requires Inv(cfg, s, p) && Leads(s, a, t) && k < |s.servers[a].node.peers|
    requires var b := s.servers[a].node.peers[k]; b in s.servers ==> s.servers[b].node.pstate.term <= t
    ensures Both(s, a, s.servers[a].node.peers[k]) && InStep(PairOf(s, a, s.servers[a].node.peers[k]), k)
  {
    LeadsFacts(cfg, s, p, a, t);
    AckFacts(cfg, s, p, a, t, k);
    var b := s.servers[a].node.peers[k];
    assert ServerAt(cfg, s, p, a) && ServerAt(cfg, s, p, b) && LeaderOk(cfg.Keys, p, t) && NodeOk(cfg.Keys, p, a);
    assert b in PeerSet(cfg[a]);
    FindPeerExact(cfg[a], k);
    ServerMatches(cfg.Keys, p, b, t);
  }

  // ---------- One round is three steps ----------

  /** What the proofs below need of a state: both nodes are in place and have their lists. */
  ghost predicate Placed(s: State, a: NodeId, b: NodeId, k: nat) {
    && Both(s, a, b) && s.servers[a].node.id == a && s.servers[b].node.id == b
    && Shaped(s.servers[a].node) && Shaped(s.servers[b].node)
    && k < |s.servers[a].node.peers| && s.servers[a].node.peers[k] == b
    && InStep(PairOf(s, a, b), k)
  }

  ghost function Ask(s: State, a: NodeId, b: NodeId, k: nat): Packet
    requires Placed(s, a, b, k)
  {
    Packet(a, b, AppendReq(Request(PairOf(s, a, b), k)))
  }

  ghost function Reply(s: State, a: NodeId, b: NodeId, k: nat, w: nat): Packet
    requires Placed(s, a, b, k)
  {
    Packet(b, a, AppendResp(HandleAppendRequest(s.servers[b].node, Request(PairOf(s, a, b), k), w).1))
  }

  lemma AskStep(s: State, a: NodeId, b: NodeId, k: nat)
    requires Placed(s, a, b, k)
    ensures var s' := Apply(s, AppendStep(a, k));
            s'.servers == s.servers && OnlyAt(s, s', {}) && Ask(s, a, b, k) in s'.net
  {
  }

  lemma ReplyStep(s: State, b: NodeId, pkt: Packet, w: nat)
    requires b in s.servers && Shaped(s.servers[b].node) && pkt in s.net && pkt.dst == b && pkt.body.AppendReq?
    requires !HandleAppendRequest(s.servers[b].node, pkt.body.areq, w).0.failed
    ensures var (s', h) := (Apply(s, ReceiveStep(pkt, w)), HandleAppendRequest(s.servers[b].node, pkt.body.areq, w));
            && OnlyAt(s, s', {b}) && s'.servers[b].node == h.0.node
            && Packet(b, pkt.src, AppendResp(h.1)) in s'.net
  {
  }

  lemma RecordStep(s: State, a: NodeId, pkt: Packet, w: nat)
    requires a in s.servers && Shaped(s.servers[a].node) && pkt in s.net && pkt.dst == a && pkt.body.AppendResp?
    requires !HandleAppendResponse(s.servers[a].node, pkt.body.aresp, pkt.src, w).failed
    ensures var s' := Apply(s, ReceiveStep(pkt, w));
            && OnlyAt(s, s', {a}) && s'.servers[a].output == s.servers[a].output
            && s'.servers[a].node == HandleAppendResponse(s.servers[a].node, pkt.body.aresp, pkt.src, w).node
  {
  }

  lemma ReplyIsRecorded(x: Pair, k: nat, w: nat)
    requires InStep(x, k) && Enough(w)
    ensures var (o, resp) := HandleAppendRequest(x.follower, Request(x, k), w);
            !o.failed && !HandleAppendResponse(x.leader, resp, x.follower.id, w).failed
  {
    RequestIsSlice(x, k);
    FollowerRound(x, k, w);
  }

  /** The pair of nodes goes from x to y, and nobody else moves. */
  ghost predicate Paired(s: State, s': State, a: NodeId, b: NodeId, y: Pair) {
    OnlyAt(s, s', {a, b}) && Both(s', a, b) && PairOf(s', a, b) == y && a in s.servers && s'.servers[a].output == s.servers[a].output
  }

  /** Sending, handling and recording are one round of the exchange. */
  lemma RoundPath(s: State, a: NodeId, b: NodeId, k: nat, w: nat) returns (t: seq<Step>, s': State)
    requires Placed(s, a, b, k) && Enough(w)
    ensures |t| == 3 && Path(s, t, s') && Paired(s, s', a, b, Round(PairOf(s, a, b), k, w).0)
  {
    var ask, reply := Ask(s, a, b, k), Reply(s, a, b, k, w);
    ReplyIsRecorded(PairOf(s, a, b), k, w);
    AskStep(s, a, b, k);
    PathOne(s, AppendStep(a, k));
    var s1 := Apply(s, AppendStep(a, k));
    ReplyStep(s1, b, ask, w);
    PathOne(s1, ReceiveStep(ask, w));
    var s2 := Apply(s1, ReceiveStep(ask, w));
    RecordStep(s2, a, reply, w);
    PathOne(s2, ReceiveStep(reply, w));
    s' := Apply(s2, ReceiveStep(reply, w));
    t := ThreeSteps(s, AppendStep(a, k), s1, ReceiveStep(ask, w), s2, ReceiveStep(reply, w), s');
  }

  lemma ThreeSteps(s: State, x: Step, s1: State, y: Step, s2: State, z: Step, s': State) returns (t: seq<Step>)
    requires Path(s, [x], s1) && Path(s1, [y], s2) && Path(s2, [z], s')
    ensures |t| == 3 && Path(s, t, s')
  {
    PathJoin(s, [x], s1, [y], s2);
    PathJoin(s, [x] + [y], s2, [z], s');
    t := [x] + [y] + [z];
  }

  // ---------- The whole exchange ----------

  /** In a state of a run, a leading node and a peer that meet the conditions are in place. */
  lemma SoundPlaces(cfg: Config, s: State, a: NodeId, b: NodeId, k: nat)
    requires Sound(cfg, s) && Both(s, a, b) && InStep(PairOf(s, a, b), k)
    ensures Placed(s, a, b, k)
  {
    var p: Proto :| Inv(cfg, s, p);
    assert ServerAt(cfg, s, p, a) && ServerAt(cfg, s, p, b);
  }

  lemma PairedOn(s: State, s1: State, s': State, a: NodeId, b: NodeId, y: Pair, z: Pair)
    requires Paired(s, s1, a, b, y) && Paired(s1, s', a, b, z)
    ensures Paired(s, s', a, b, z)
  {
    OnlyAtOn(s, s1, s', {a, b});
  }

  lemma TracePath(cfg: Config, s: State, a: NodeId, b: NodeId, k: nat, w: nat, trace: seq<Pair>, j: nat, r: nat)
      returns (t: seq<Step>, s': State)
    requires Sound(cfg, s) && Enough(w) && Exchange(trace, k, w, r) && j + 1 < |trace|
    requires Both(s, a, b) && PairOf(s, a, b) == trace[j]
    ensures |t| == 3 && Path(s, t, s') && Sound(cfg, s') && Paired(s, s', a, b, trace[j + 1])
  {
    assert RoundAt(trace, k, w, r, j);
    SoundPlaces(cfg, s, a, b, k);
    t, s' := RoundPath(s, a, b, k, w);
    PathSound(cfg, s, t, s');
  }

  /** An exchange that starts in a state of a run can be run from there, three steps to the round. */
  lemma {:induction false} ExchangePath(cfg: Config, s: State, a: NodeId, b: NodeId, k: nat, w: nat,
                                        trace: seq<Pair>, j: nat, r: nat) returns (more: seq<Step>, s': State)
    requires Sound(cfg, s) && Enough(w) && Exchange(trace, k, w, r) && j < |trace|
    requires Both(s, a, b) && PairOf(s, a, b) == trace[j]
    ensures |more| == 3 * (|trace| - 1 - j) && Path(s, more, s') && Sound(cfg, s')
    ensures Paired(s, s', a, b, trace[|trace| - 1])
    decreases |trace| - j
  {
    if j == |trace| - 1 {
      more, s' := [], s;
      PathNil(s);
    } else {
      var t, s1 := TracePath(cfg, s, a, b, k, w, trace, j, r);
      more, s' := ExchangePath(cfg, s1, a, b, k, w, trace, j + 1, r);
      PathJoin(s, t, s1, more, s');
      PairedOn(s, s1, s', a, b, trace[j + 1], trace[|trace| - 1]);
      more := t + more;
    }
  }

  /** A leader and a peer whose term is no higher, in any state of a run. */
  lemma SoundPair(cfg: Config, s: State, a: NodeId, t: Term, k: nat)
    requires Sound(cfg, s) && Leads(s, a, t) && k < |s.servers[a].node.peers|
    requires var b := s.servers[a].node.peers[k]; b in s.servers ==> s.servers[b].node.pstate.term <= t
    ensures Both(s, a, s.servers[a].node.peers[k]) && InStep(PairOf(s, a, s.servers[a].node.peers[k]), k)
  {
    var p: Proto :| Inv(cfg, s, p);
    LeaderAndPeer(cfg, s, p, a, t, k);
  }

  /** The same, state by state. */
  lemma CatchesUpFrom(cfg: Config, s: State, a: NodeId, t: Term, k: nat) returns (more: seq<Step>, s': State)
    requires Sound(cfg, s) && Leads(s, a, t) && k < |s.servers[a].node.peers|
    requires var b := s.servers[a].node.peers[k]; b in s.servers ==> s.servers[b].node.pstate.term <= t
    ensures Path(s, more, s')
    ensures var b := s.servers[a].node.peers[k];
            && Both(s', a, b) && LogOf(s', a) == LogOf(s, a) && LogOf(s, a) <= LogOf(s', b)
            && k < |s.servers[a].node.lstate.next|
            && |more| <= 3 * (s.servers[a].node.lstate.next[k] - 1 + Batches(|LogOf(s, a)|))
  {
    var b, w := s.servers[a].node.peers[k], RAFT_APPEND_BATCH + 3;
    SoundPair(cfg, s, a, t, k);
    var trace, r := CatchUpTerminates(PairOf(s, a, b), k, w);
    more, s' := ExchangePath(cfg, s, a, b, k, w, trace, 0, r);
  }

  /** A peer that is reachable for long enough catches up, in any run: further steps of the cluster, three for
      each of at most next - 1 rejected and max(1, ceil(length / 64)) accepted rounds, leave the leader's log
      as it was and make it a prefix of the peer's. */
  lemma PeerCatchesUp(cfg: Config, steps: seq<Step>, a: NodeId, t: Term, k: nat) returns (more: seq<Step>)
    requires ValidConfig(cfg) && Leads(Run(cfg, steps), a, t) && k < |Run(cfg, steps).servers[a].node.peers|
    requires var s := Run(cfg, steps);
             s.servers[a].node.peers[k] in s.servers ==> s.servers[s.servers[a].node.peers[k]].node.pstate.term <= t
    ensures var (s, s') := (Run(cfg, steps), Run(cfg, steps + more));
            var b := s.servers[a].node.peers[k];
            && Both(s', a, b) && LogOf(s', a) == LogOf(s, a) && LogOf(s, a) <= LogOf(s', b)
            && k < |s.servers[a].node.lstate.next|
            && |more| <= 3 * (s.servers[a].node.lstate.next[k] - 1 + Batches(|LogOf(s, a)|))
  {
    RunSound(cfg, steps);
    var s': State;
    more, s' := CatchesUpFrom(cfg, Run(cfg, steps), a, t, k);
    PathRun(cfg, steps, more, s');
  }
}
