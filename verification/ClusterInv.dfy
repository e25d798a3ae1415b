/** How a cluster state and its history fit together, and the frame rules that let a proof about one
    server speak for the whole cluster. */
module ClusterInv {
  import opened RaftTypes
  import opened RaftNode
  import opened Cluster
  import opened Protocol

  lemma SliceGrows(req: AppendRequest, ldr: Log, ldr': Log)
    requires IsSlice(req, ldr) && ldr <= ldr'
    ensures IsSlice(req, ldr')
  {
  }

  ghost predicate PacketOk(ids: set<NodeId>, pkt: Packet, p: Proto)
    requires Domains(ids, p)
  {
    && pkt.src in ids && pkt.dst in ids && pkt.src != pkt.dst
    && match pkt.body
       case VoteReq(r) =>
         && r.candidateId == pkt.src
         && (pkt.src, r.term) in p.campaign
         && r.lastIndex == |p.campaign[(pkt.src, r.term)]|
         && r.lastTerm == LastTerm(p.campaign[(pkt.src, r.term)])
       case VoteResp(r) =>
         r.granted ==>
           || ((pkt.src, r.term) in p.ballots && p.ballots[(pkt.src, r.term)].candidate == pkt.dst)
           || r.term < p.term[pkt.dst]
       case AppendReq(r) =>
         r.leaderId == pkt.src && r.term in p.tlog && p.leaderOf[r.term] == pkt.src && IsSlice(r, p.tlog[r.term])
       case AppendResp(r) =>
         r.success ==> r.term in p.tlog && r.matchIndex <= Acked(p, pkt.src, r.term)
  }

  /** A log that a node may hold in the term in which it voted for c: the log that c's was compared with, or a log that
      the leader of the term has overwritten since. */
  ghost predicate VotedLog(c: NodeId, t: Term, log: Log, p: Proto) {
    && (c, t) in p.campaign
    && (UpToDate(p.campaign[(c, t)], log) || (t in p.tlog && log <= p.tlog[t]))
  }

  /** votedFor is the node's ballot of the current term. */
  ghost predicate VoteOk(i: NodeId, ps: Persistent, p: Proto) {
    if ps.votedFor == RAFT_NONE then (i, ps.term) !in p.ballots
    else
      && (i, ps.term) in p.ballots && p.ballots[(i, ps.term)].candidate == ps.votedFor
      && VotedLog(ps.votedFor, ps.term, ps.log, p)
  }

  /** A flag raised for a peer stands for a ballot that the peer really cast. */
  ghost predicate GrantsOk(i: NodeId, t: Term, peers: seq<NodeId>, granted: seq<bool>, p: Proto)
    requires |granted| == |peers|
  {
    forall k :: 0 <= k < |peers| && granted[k] ==>
      (peers[k], t) in p.ballots && p.ballots[(peers[k], t)].candidate == i
  }

  ghost predicate CandidateOk(i: NodeId, n: Node, p: Proto)
    requires Shaped(n)
  {
    var t := n.pstate.term;
    && n.cstate.electionTerm == t
    && (i, t) in p.campaign && p.campaign[(i, t)] == n.pstate.log
    && n.pstate.votedFor == i
    && GrantsOk(i, t, n.peers, n.cstate.granted, p)
    && !(t in p.leaderOf && p.leaderOf[t] == i)
  }

  /** Acknowledgement soundness: a match index never exceeds what the peer has acknowledged. */
  ghost predicate MatchesOk(t: Term, peers: seq<NodeId>, matched: seq<Index>, p: Proto)
    requires |matched| == |peers|
  {
    forall k :: 0 <= k < |peers| ==> matched[k] <= Acked(p, peers[k], t)
  }

  ghost predicate LeadingOk(i: NodeId, n: Node, p: Proto)
    requires Shaped(n)
  {
    var t := n.pstate.term;
    t in p.leaderOf && p.leaderOf[t] == i && MatchesOk(t, n.peers, n.lstate.matched, p)
  }

  ghost predicate DurableOk(i: NodeId, ps: Persistent, disk: seq<Record>, p: Proto)
    requires i in p.term && i in p.log
  {
    && ps.term == p.term[i]
    && ps.log == p.log[i]
    && Replay(disk) == Restored(ps)
    && VoteOk(i, ps, p)
  }

  ghost predicate ServerOk(peers: seq<NodeId>, i: NodeId, srv: Server, p: Proto)
    requires i in p.term && i in p.log
  {
    var n := srv.node;
    && n.id == i && n.peers == peers && n.role != Failed
    && Shaped(n)
    && DurableOk(i, n.pstate, srv.disk, p)
    && (n.role == Candidate ==> CandidateOk(i, n, p))
    && (n.role == Leader ==> LeadingOk(i, n, p))
  }

  ghost predicate ServerAt(cfg: Config, s: State, p: Proto, i: NodeId)
    requires s.servers.Keys == cfg.Keys && Domains(cfg.Keys, p)
  {
    i in cfg ==> ServerOk(cfg[i], i, s.servers[i], p)
  }

  ghost predicate PacketAt(ids: set<NodeId>, net: set<Packet>, pkt: Packet, p: Proto)
    requires Domains(ids, p)
  {
    pkt in net ==> PacketOk(ids, pkt, p)
  }

  ghost predicate Inv(cfg: Config, s: State, p: Proto) {
    && ValidConfig(cfg)
    && s.servers.Keys == cfg.Keys
    && ProtoInv(cfg.Keys, p)
    && (forall i: NodeId :: ServerAt(cfg, s, p, i))
    && (forall pkt: Packet :: PacketAt(cfg.Keys, s.net, pkt, p))
  }

  // ---------- Frame rules ----------

  lemma PacketGrows(ids: set<NodeId>, pkt: Packet, p: Proto, p': Proto)
    requires Domains(ids, p) && Domains(ids, p') && Grows(p, p') && PacketOk(ids, pkt, p)
    ensures PacketOk(ids, pkt, p')
  {
    if pkt.body.AppendReq? {
      SliceGrows(pkt.body.areq, p.tlog[pkt.body.areq.term], p'.tlog[pkt.body.areq.term]);
    }
  }

  lemma OtherServer(ids: set<NodeId>, peers: seq<NodeId>, j: NodeId, srv: Server, p: Proto, p': Proto, i: NodeId)
    requires Domains(ids, p) && Domains(ids, p') && StepBy(p, p', i) && j in ids && j != i
    requires ServerOk(peers, j, srv, p)
    ensures ServerOk(peers, j, srv, p')
  {
  }

  /** Replacing one server and adding messages keeps the cluster invariant. */
  lemma PutInv(cfg: Config, s: State, p: Proto, p': Proto, i: NodeId, srv: Server, sent: set<Packet>)
    requires Inv(cfg, s, p) && i in cfg && ProtoInv(cfg.Keys, p') && StepBy(p, p', i)
    requires ServerOk(cfg[i], i, srv, p')
    requires forall pkt :: pkt in sent ==> PacketOk(cfg.Keys, pkt, p')
    ensures Inv(cfg, Put(s, i, srv, sent), p')
  {
    var s' := Put(s, i, srv, sent);
    forall j: NodeId ensures ServerAt(cfg, s', p', j) {
      assert ServerAt(cfg, s, p, j);
      if j in cfg && j != i {
        OtherServer(cfg.Keys, cfg[j], j, s.servers[j], p, p', i);
      }
    }
    forall pkt: Packet ensures PacketAt(cfg.Keys, s'.net, pkt, p') {
      assert PacketAt(cfg.Keys, s.net, pkt, p);
      if pkt in s.net {
        PacketGrows(cfg.Keys, pkt, p, p');
      }
    }
  }

  lemma StepBySelf(p: Proto, i: NodeId)
    ensures StepBy(p, p, i)
  {
  }

  // ---------- Initially ----------

  ghost function InitProto(ids: set<NodeId>): Proto {
    Proto(map i | i in ids :: 0, map i | i in ids :: [], map[], map[], map[], map[], map[])
  }

  lemma InitInv(cfg: Config)
    requires ValidConfig(cfg)
    ensures Inv(cfg, Init(cfg), InitProto(cfg.Keys))
  {
    var s, p := Init(cfg), InitProto(cfg.Keys);
    assert s.servers.Keys == cfg.Keys;
    assert Domains(cfg.Keys, p);
    forall i: NodeId ensures ServerAt(cfg, s, p, i) { }
    forall q: NodeId ensures NodeOk(cfg.Keys, p, q) { }
  }
}
