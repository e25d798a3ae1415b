/** A fixed set of raft nodes and a network that may lose, repeat and reorder messages.

    A run is a sequence of steps. Messages are never removed from the network, so a message may be handled
    any number of times, in any order, or never. A handler is one atomic step. A step whose write budget
    runs out stands for a process that dies at that write: it keeps the records written so far, comes back
    as initialise_raft_sm would bring it back, and sends nothing. */
module Cluster {
  import opened RaftTypes
  import opened RaftNode

  /** The peer list of every node. */
  type Config = map<NodeId, seq<NodeId>>

  ghost predicate Distinct(peers: seq<NodeId>) {
    forall j, k :: 0 <= j < k < |peers| ==> peers[j] != peers[k]
  }

  lemma {:induction false} FindPeerExact(peers: seq<NodeId>, k: nat)
    requires Distinct(peers) && k < |peers|
    ensures FindPeer(peers, peers[k]) == Some(k)
  {
    if k < |peers| - 1 {
      FindPeerExact(peers[..|peers| - 1], k);
    }
  }

  ghost function PeerSet(peers: seq<NodeId>): set<NodeId> {
    set q | q in peers
  }

  ghost predicate PeersOk(ids: set<NodeId>, i: NodeId, peers: seq<NodeId>) {
    Distinct(peers) && PeerSet(peers) == ids - {i}
  }

  /** Every node knows every other node once, never itself, and no id is RAFT_NONE. */
  ghost predicate ValidConfig(cfg: Config) {
    RAFT_NONE !in cfg && forall i :: i in cfg ==> PeersOk(cfg.Keys, i, cfg[i])
  }

  /** A node, its log file, and what the application has received in this process lifetime. */
  datatype Server = Server(node: Node, disk: seq<Record>, output: seq<Entry>)

  datatype Body = VoteReq(vreq: VoteRequest) | VoteResp(vresp: VoteResponse)
                | AppendReq(areq: AppendRequest) | AppendResp(aresp: AppendResponse)

  datatype Packet = Packet(src: NodeId, dst: NodeId, body: Body)

  /** Entry number index was handed to the application at a node. */
  datatype Delivery = Delivery(node: NodeId, index: Index, entry: Entry)

  datatype State = State(servers: map<NodeId, Server>, net: set<Packet>, delivered: set<Delivery>)

  datatype Step =
    | TimeoutStep(i: NodeId, cap: nat, w: nat)
    | ReceiveStep(pkt: Packet, w: nat)
    | CommandStep(i: NodeId, cmd: Command, w: nat)
    | AppendStep(i: NodeId, k: nat)
    | HeartbeatStep(i: NodeId, k: nat)
    | DrainStep(i: NodeId, cap: nat)
    | RestartStep(i: NodeId)

  function Boot(id: NodeId, peers: seq<NodeId>, disk: seq<Record>): Server {
    Server(InitNode(id, peers, Replay(disk).p), disk, [])
  }

  /** Take over a handler's outcome, or die and come back if one of its writes failed. */
  function Install(s: Server, o: Outcome): Server {
    if o.failed then Boot(s.node.id, s.node.peers, s.disk + o.writes)
    else Server(o.node, s.disk + o.writes, s.output)
  }

  function Init(cfg: Config): State {
    State(map i | i in cfg :: Boot(i, cfg[i], []), {}, {})
  }

  /** The lists and trackers of a node have one slot per peer, and a leader's next indices lie in its log. */
  predicate Shaped(n: Node) {
    && |n.cstate.responded| == |n.cstate.granted| == |n.peers|
    && |n.lstate.next| == |n.lstate.matched| == |n.peers|
    && (n.role == Leader ==> forall k :: 0 <= k < |n.peers| ==> 1 <= n.lstate.next[k] <= |n.pstate.log| + 1)
  }

  function Put(s: State, i: NodeId, srv: Server, sent: set<Packet>): State {
    s.(servers := s.servers[i := srv], net := s.net + sent)
  }

  /** What a server does with a message addressed to it: its new state and its reply. */
  function Answer(srv: Server, pkt: Packet, w: nat): (Server, set<Packet>)
    requires Shaped(srv.node)
  {
    match pkt.body
    case VoteReq(req) =>
      var (o, resp) := HandleVoteRequest(srv.node, req, w);
      (Install(srv, o), if o.failed then {} else {Packet(pkt.dst, pkt.src, VoteResp(resp))})
    case VoteResp(resp) =>
      (Install(srv, HandleVoteResponse(srv.node, resp, pkt.src, w)), {})
    case AppendReq(req) =>
      var (o, resp) := HandleAppendRequest(srv.node, req, w);
      (Install(srv, o), if o.failed then {} else {Packet(pkt.dst, pkt.src, AppendResp(resp))})
    case AppendResp(resp) =>
      (Install(srv, HandleAppendResponse(srv.node, resp, pkt.src, w)), {})
  }

  /** The vote requests that fit in the caller's buffer, one per peer. */
  function Broadcast(i: NodeId, peers: seq<NodeId>, cap: nat, req: VoteRequest): set<Packet> {
    set k | 0 <= k < |peers| && k < cap :: Packet(i, peers[k], VoteReq(req))
  }

  function ToPeer(n: Node, k: nat, req: Option<AppendRequest>): set<Packet> {
    if req.Some? && k < |n.peers| then {Packet(n.id, n.peers[k], AppendReq(req.value))} else {}
  }

  function Drained(srv: Server, cap: nat): Server
    requires srv.node.commitIndex <= |srv.node.pstate.log|
  {
    var (n, es) := Drain(srv.node, cap);
    Server(n, srv.disk, srv.output + es)
  }

  function Deliveries(i: NodeId, from: nat, es: seq<Entry>): set<Delivery> {
    set k | 0 <= k < |es| :: Delivery(i, from + k + 1, es[k])
  }

  /** One step of a run. A step that names no server, or a message that was never sent, changes nothing. */
  function Apply(s: State, step: Step): State {
    match step
    case TimeoutStep(i, cap, w) =>
      if i !in s.servers then s else
        var srv := s.servers[i];
        var (o, req) := Timeout(srv.node, w);
        Put(s, i, Install(srv, o), if req.Some? then Broadcast(i, srv.node.peers, cap, req.value) else {})
    case ReceiveStep(pkt, w) =>
      if pkt !in s.net || pkt.dst !in s.servers || !Shaped(s.servers[pkt.dst].node) then s else
        var (srv, sent) := Answer(s.servers[pkt.dst], pkt, w);
        Put(s, pkt.dst, srv, sent)
    case CommandStep(i, cmd, w) =>
      if i !in s.servers then s else
        Put(s, i, Install(s.servers[i], SendCommand(s.servers[i].node, cmd, w).0), {})
    case AppendStep(i, k) =>
      if i !in s.servers || !Shaped(s.servers[i].node) then s else
        s.(net := s.net + ToPeer(s.servers[i].node, k, BuildAppend(s.servers[i].node, k)))
    case HeartbeatStep(i, k) =>
      if i !in s.servers then s else
        s.(net := s.net + ToPeer(s.servers[i].node, k, BuildHeartbeat(s.servers[i].node)))
    case DrainStep(i, cap) =>
      if i !in s.servers || s.servers[i].node.commitIndex > |s.servers[i].node.pstate.log| then s else
        var srv := s.servers[i];
        s.(servers := s.servers[i := Drained(srv, cap)],
           delivered := s.delivered + Deliveries(i, srv.node.lastApplied, Drain(srv.node, cap).1))
    case RestartStep(i) =>
      if i !in s.servers then s else
        Put(s, i, Boot(s.servers[i].node.id, s.servers[i].node.peers, s.servers[i].disk), {})
  }

  function Run(cfg: Config, steps: seq<Step>): State {
    if steps == [] then Init(cfg) else Apply(Run(cfg, steps[..|steps| - 1]), steps[|steps| - 1])
  }
}
