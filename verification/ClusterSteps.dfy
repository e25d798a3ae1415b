/** Every step of a run keeps the cluster invariant, and history only grows along a run. */
module ClusterSteps {
  import opened RaftTypes
  import opened RaftNode
  import opened Cluster
  import opened Protocol
  import opened ClusterInv
  import opened ServerSteps
  import opened ReplicaSteps

  /** A server and what it sends are in order. */
  ghost predicate AnsweredOk(ids: set<NodeId>, peers: seq<NodeId>, i: NodeId, answer: (Server, set<Packet>), p: Proto)
    requires Domains(ids, p) && i in ids
  {
    ServerOk(peers, i, answer.0, p) && forall m :: m in answer.1 ==> PacketOk(ids, m, p)
  }

  lemma ReplyOk(ids: set<NodeId>, p: Proto, peers: seq<NodeId>, i: NodeId, srv: Server, pkt: Packet, w: nat) returns (p': Proto)
    requires ProtoInv(ids, p) && i in ids && PeersOk(ids, i, peers) && RAFT_NONE !in ids && ServerOk(peers, i, srv, p)
    requires PacketOk(ids, pkt, p) && pkt.dst == i
    ensures ProtoInv(ids, p') && StepBy(p, p', i)
    ensures AnsweredOk(ids, peers, i, Answer(srv, pkt, w), p')
  {
    match pkt.body {
      case VoteReq(req) => p' := VoteRequestOk(ids, p, peers, i, srv, pkt.src, req, w);
      case VoteResp(resp) => p' := VoteResponseOk(ids, p, peers, i, srv, pkt.src, resp, w);
      case AppendReq(req) => p' := AppendRequestOk(ids, p, peers, i, srv, pkt.src, req, w);
      case AppendResp(resp) => p' := AppendResponseOk(ids, p, peers, i, srv, pkt.src, resp, w);
    }
  }

  lemma AnswerOk(cfg: Config, s: State, p: Proto, pkt: Packet, w: nat) returns (p': Proto)
    requires Inv(cfg, s, p) && pkt in s.net
    ensures pkt.dst in cfg && Shaped(s.servers[pkt.dst].node)
    ensures ProtoInv(cfg.Keys, p') && StepBy(p, p', pkt.dst)
    ensures AnsweredOk(cfg.Keys, cfg[pkt.dst], pkt.dst, Answer(s.servers[pkt.dst], pkt, w), p')
  {
    var ids, i := cfg.Keys, pkt.dst;
    assert PacketAt(ids, s.net, pkt, p) && ServerAt(cfg, s, p, i);
    p' := ReplyOk(ids, p, cfg[i], i, s.servers[i], pkt, w);
  }

  /** Sending what one server may send keeps the invariant. */
  lemma SendInv(cfg: Config, s: State, p: Proto, sent: set<Packet>)
    requires Inv(cfg, s, p) && forall pkt :: pkt in sent ==> PacketOk(cfg.Keys, pkt, p)
    ensures Inv(cfg, s.(net := s.net + sent), p)
  {
    var s' := s.(net := s.net + sent);
    forall j: NodeId ensures ServerAt(cfg, s', p, j) { assert ServerAt(cfg, s, p, j); }
    forall pkt: Packet ensures PacketAt(cfg.Keys, s'.net, pkt, p) { assert PacketAt(cfg.Keys, s.net, pkt, p); }
  }

  lemma DeliveredIrrelevant(cfg: Config, s: State, p: Proto, s': State)
    requires Inv(cfg, s, p) && s'.servers == s.servers && s'.net == s.net
    ensures Inv(cfg, s', p)
  {
    forall j: NodeId ensures ServerAt(cfg, s', p, j) { assert ServerAt(cfg, s, p, j); }
    forall pkt: Packet ensures PacketAt(cfg.Keys, s'.net, pkt, p) { assert PacketAt(cfg.Keys, s.net, pkt, p); }
  }

  lemma TimeoutInv(cfg: Config, s: State, p: Proto, i: NodeId, cap: nat, w: nat) returns (p': Proto)
    requires Inv(cfg, s, p) && i in cfg
    ensures Inv(cfg, Apply(s, TimeoutStep(i, cap, w)), p') && Grows(p, p')
  {
    assert ServerAt(cfg, s, p, i);
    var srv := s.servers[i];
    p' := TimeoutOk(cfg.Keys, p, cfg[i], i, srv, w);
    var (o, req) := Timeout(srv.node, w);
    var sent := if req.Some? then Broadcast(i, srv.node.peers, cap, req.value) else {};
    forall pkt | pkt in sent ensures PacketOk(cfg.Keys, pkt, p') {
      var k :| 0 <= k < |srv.node.peers| && k < cap && pkt == Packet(i, srv.node.peers[k], VoteReq(req.value));
      assert cfg[i][k] in PeerSet(cfg[i]);
    }
    PutInv(cfg, s, p, p', i, Install(srv, o), sent);
  }

  lemma DrainInv(cfg: Config, s: State, p: Proto, i: NodeId, cap: nat)
    requires Inv(cfg, s, p) && i in cfg
    ensures Inv(cfg, Apply(s, DrainStep(i, cap)), p)
  {
    assert ServerAt(cfg, s, p, i);
    var srv := s.servers[i];
    if srv.node.commitIndex <= |srv.node.pstate.log| {
      var srv' := Drained(srv, cap);
      StepBySelf(p, i);
      assert ServerOk(cfg[i], i, srv', p);
      PutInv(cfg, s, p, p, i, srv', {});
      assert s.net + {} == s.net;
      DeliveredIrrelevant(cfg, Put(s, i, srv', {}), p, Apply(s, DrainStep(i, cap)));
    }
  }

  lemma GrowsSelf(p: Proto)
    ensures Grows(p, p)
  {
  }

  lemma ReceiveInv(cfg: Config, s: State, p: Proto, pkt: Packet, w: nat) returns (p': Proto)
    requires Inv(cfg, s, p) && pkt in s.net
    ensures Inv(cfg, Apply(s, ReceiveStep(pkt, w)), p') && Grows(p, p')
  {
    p' := AnswerOk(cfg, s, p, pkt, w);
    var (srv, sent) := Answer(s.servers[pkt.dst], pkt, w);
    PutInv(cfg, s, p, p', pkt.dst, srv, sent);
  }

  lemma CommandInv(cfg: Config, s: State, p: Proto, i: NodeId, cmd: Command, w: nat) returns (p': Proto)
    requires Inv(cfg, s, p) && i in cfg
    ensures Inv(cfg, Apply(s, CommandStep(i, cmd, w)), p') && Grows(p, p')
  {
    assert ServerAt(cfg, s, p, i);
    p' := CommandOk(cfg.Keys, p, cfg[i], i, s.servers[i], cmd, w);
    PutInv(cfg, s, p, p', i, Install(s.servers[i], SendCommand(s.servers[i].node, cmd, w).0), {});
  }

  lemma SendStepsInv(cfg: Config, s: State, p: Proto, i: NodeId, k: nat)
    requires Inv(cfg, s, p) && i in cfg
    ensures Inv(cfg, Apply(s, AppendStep(i, k)), p)
    ensures Inv(cfg, Apply(s, HeartbeatStep(i, k)), p)
  {
    assert ServerAt(cfg, s, p, i);
    SendOk(cfg.Keys, p, cfg[i], i, s.servers[i], k);
    SendInv(cfg, s, p, ToPeer(s.servers[i].node, k, BuildAppend(s.servers[i].node, k)));
    SendInv(cfg, s, p, ToPeer(s.servers[i].node, k, BuildHeartbeat(s.servers[i].node)));
  }

  lemma RestartInv(cfg: Config, s: State, p: Proto, i: NodeId)
    requires Inv(cfg, s, p) && i in cfg
    ensures Inv(cfg, Apply(s, RestartStep(i)), p)
  {
    assert ServerAt(cfg, s, p, i);
    BootOk(cfg[i], i, s.servers[i].node.pstate, s.servers[i].disk, p);
    StepBySelf(p, i);
    PutInv(cfg, s, p, p, i, Boot(i, cfg[i], s.servers[i].disk), {});
  }

  /** The cluster invariant is inductive. */
  lemma StepInv(cfg: Config, s: State, p: Proto, step: Step) returns (p': Proto)
    requires Inv(cfg, s, p)
    ensures Inv(cfg, Apply(s, step), p') && Grows(p, p')
  {
    p' := p;
    GrowsSelf(p);
    match step {
      case TimeoutStep(i, cap, w) => if i in cfg { p' := TimeoutInv(cfg, s, p, i, cap, w); }
      case ReceiveStep(pkt, w) => if pkt in s.net { p' := ReceiveInv(cfg, s, p, pkt, w); }
      case CommandStep(i, cmd, w) => if i in cfg { p' := CommandInv(cfg, s, p, i, cmd, w); }
      case AppendStep(i, k) => if i in cfg { SendStepsInv(cfg, s, p, i, k); }
      case HeartbeatStep(i, k) => if i in cfg { SendStepsInv(cfg, s, p, i, k); }
      case DrainStep(i, cap) => if i in cfg { DrainInv(cfg, s, p, i, cap); }
      case RestartStep(i) => if i in cfg { RestartInv(cfg, s, p, i); }
    }
  }

  lemma RunAppend(cfg: Config, steps: seq<Step>, step: Step)
    ensures Run(cfg, steps + [step]) == Apply(Run(cfg, steps), step)
  {
    assert (steps + [step])[..|steps|] == steps;
  }

  /** The state after the first k steps of a run. */
  function At(cfg: Config, steps: seq<Step>, k: nat): State
    requires k <= |steps|
  {
    Run(cfg, steps[..k])
  }

  lemma AtNext(cfg: Config, steps: seq<Step>, k: nat)
    requires k < |steps|
    ensures At(cfg, steps, k + 1) == Apply(At(cfg, steps, k), steps[k])
  {
    assert steps[..k + 1][..k] == steps[..k];
  }

  /** ps[j] is a history of the state after j steps, and later histories extend it. */
  ghost predicate HistoryAt(cfg: Config, steps: seq<Step>, ps: seq<Proto>, j: nat, k: nat)
    requires |ps| == |steps| + 1
  {
    j <= k <= |steps| ==> Inv(cfg, At(cfg, steps, j), ps[j]) && Grows(ps[j], ps[k])
  }

  /** One history per moment of the run. */
  ghost predicate Histories(cfg: Config, steps: seq<Step>, ps: seq<Proto>) {
    |ps| == |steps| + 1 && forall j: nat, k: nat :: HistoryAt(cfg, steps, ps, j, k)
  }

  lemma HistoriesExtend(cfg: Config, steps: seq<Step>, ps: seq<Proto>, step: Step, p': Proto)
    requires Histories(cfg, steps, ps) && Grows(ps[|steps|], p')
    requires Inv(cfg, Run(cfg, steps + [step]), p')
    ensures Histories(cfg, steps + [step], ps + [p'])
  {
    var m, steps', ps' := |steps|, steps + [step], ps + [p'];
    forall j: nat, k: nat ensures HistoryAt(cfg, steps', ps', j, k) {
      if j <= k <= m {
        assert HistoryAt(cfg, steps, ps, j, k);
        assert steps'[..j] == steps[..j];
      } else if j <= m && k == m + 1 {
        assert HistoryAt(cfg, steps, ps, j, m);
        assert steps'[..j] == steps[..j];
        GrowsTransitive(ps[j], ps[m], p');
      } else if j == k == m + 1 {
        GrowsSelf(p');
        assert steps'[..j] == steps';
      }
    }
  }

  lemma {:induction false} RunInv(cfg: Config, steps: seq<Step>) returns (ps: seq<Proto>)
    requires ValidConfig(cfg)
    ensures Histories(cfg, steps, ps)
  {
    if steps == [] {
      InitInv(cfg);
      GrowsSelf(InitProto(cfg.Keys));
      ps := [InitProto(cfg.Keys)];
      forall j: nat, k: nat ensures HistoryAt(cfg, steps, ps, j, k) { }
    } else {
      var m := |steps| - 1;
      var ps0 := RunInv(cfg, steps[..m]);
      assert HistoryAt(cfg, steps[..m], ps0, m, m);
      assert steps[..m][..m] == steps[..m];
      var p' := StepInv(cfg, Run(cfg, steps[..m]), ps0[m], steps[m]);
      assert steps == steps[..m] + [steps[m]];
      HistoriesExtend(cfg, steps[..m], ps0, steps[m], p');
      ps := ps0 + [p'];
    }
  }
}
