/** Each handler of one server, seen as a short sequence of protocol moves. */
module ServerSteps {
  import opened RaftTypes
  import opened RaftNode
  import opened Cluster
  import opened Protocol
  import opened ProtocolSteps
  import opened ClusterInv

  // ---------- Counting ----------

  ghost function Flagged(peers: seq<NodeId>, flags: seq<bool>): set<NodeId>
    requires |flags| == |peers|
  {
    set k | 0 <= k < |peers| && flags[k] :: peers[k]
  }

  /** The last peer is flagged or not, and is none of the others. */
  lemma FlaggedLast(peers: seq<NodeId>, flags: seq<bool>)
    requires |flags| == |peers| > 0 && Distinct(peers)
    ensures var m := |peers| - 1;
            var rest := Flagged(peers[..m], flags[..m]);
            Flagged(peers, flags) == (if flags[m] then rest + {peers[m]} else rest) && peers[m] !in rest
  {
    var m := |peers| - 1;
    forall k | 0 <= k < m ensures peers[..m][k] == peers[k] && flags[..m][k] == flags[k] { }
  }

  /** With distinct peers, raised flags and flagged peers are equally many. */
  lemma {:induction false} FlaggedCount(peers: seq<NodeId>, flags: seq<bool>)
    requires |flags| == |peers| && Distinct(peers)
    ensures |Flagged(peers, flags)| == CountTrue(flags)
  {
    if peers != [] {
      var m := |peers| - 1;
      FlaggedCount(peers[..m], flags[..m]);
      FlaggedLast(peers, flags);
    }
  }

  lemma {:induction false} PeerCount(peers: seq<NodeId>)
    requires Distinct(peers)
    ensures |PeerSet(peers)| == |peers|
  {
    if peers != [] {
      var m := |peers| - 1;
      PeerCount(peers[..m]);
      var rest := PeerSet(peers[..m]);
      assert peers == peers[..m] + [peers[m]];
      assert PeerSet(peers) == rest + {peers[m]};
      assert peers[m] !in rest;
    }
  }

  /** Raised flags and the node itself are enough exactly when they are a quorum. */
  lemma FlagsMakeQuorum(ids: set<NodeId>, i: NodeId, peers: seq<NodeId>, flags: seq<bool>)
    requires i in ids && PeersOk(ids, i, peers) && |flags| == |peers|
    ensures 1 + CountTrue(flags) >= Majority(|peers| + 1) <==> IsQuorum(ids, Flagged(peers, flags) + {i})
  {
    MajorityExact(1 + CountTrue(flags), |peers| + 1);
    FlaggedCount(peers, flags);
    PeerCount(peers);
    assert forall k :: 0 <= k < |peers| ==> peers[k] in PeerSet(peers);
    assert i !in Flagged(peers, flags);
    assert ids == (ids - {i}) + {i};
  }

  // ---------- Crash and restart ----------

  /** A server that dies comes back with exactly the durable part of what it held. */
  lemma BootOk(peers: seq<NodeId>, i: NodeId, ps: Persistent, disk: seq<Record>, p: Proto)
    requires i in p.term && i in p.log && DurableOk(i, ps, disk, p)
    ensures ServerOk(peers, i, Boot(i, peers, disk), p)
  {
  }

  /** A handler that writes nothing and changes nothing, or dies at its first write. */
  lemma UnwrittenOk(peers: seq<NodeId>, i: NodeId, srv: Server, o: Outcome, p: Proto)
    requires i in p.term && i in p.log && ServerOk(peers, i, srv, p)
    requires o.writes == [] && (o.failed || o.node == srv.node)
    ensures ServerOk(peers, i, Install(srv, o), p)
  {
    assert srv.disk + o.writes == srv.disk;
    BootOk(peers, i, srv.node.pstate, srv.disk, p);
  }

  // ---------- Terms ----------

  /** update_term_locked. */
  lemma UpdateTermOk(ids: set<NodeId>, p: Proto, peers: seq<NodeId>, i: NodeId, srv: Server, t: Term, w: nat)
      returns (p': Proto)
    requires ProtoInv(ids, p) && i in ids && ServerOk(peers, i, srv, p)
    ensures ProtoInv(ids, p') && StepBy(p, p', i)
    ensures p'.tlog == p.tlog && p'.ballots == p.ballots && p'.campaign == p.campaign && p'.leaderOf == p.leaderOf
    ensures p'.log == p.log
    ensures ServerOk(peers, i, Install(srv, UpdateTerm(srv.node, t, w)), p')
  {
    var o := UpdateTerm(srv.node, t, w);
    if t <= srv.node.pstate.term || o.failed {
      p' := p;
      StepBySelf(p, i);
      UnwrittenOk(peers, i, srv, o, p);
    } else {
      p' := Bump(p, i, t);
      BumpStep(ids, p, i, t);
      assert BallotOk(ids, p, i, t);
      ReplayOne(srv.disk, StateRecord(t, RAFT_NONE));
    }
  }

  // ---------- Elections ----------

  lemma TimeoutProto(ids: set<NodeId>, p: Proto, i: NodeId) returns (p': Proto)
    requires ProtoInv(ids, p) && i in ids
    ensures ProtoInv(ids, p') && StepBy(p, p', i)
    ensures p'.term[i] == p.term[i] + 1 && p'.log == p.log
    ensures p'.tlog == p.tlog && p'.leaderOf == p.leaderOf
    ensures (i, p'.term[i]) in p'.campaign && p'.campaign[(i, p'.term[i])] == p.log[i]
    ensures (i, p'.term[i]) in p'.ballots && p'.ballots[(i, p'.term[i])].candidate == i
  {
    var t := p.term[i] + 1;
    var p1 := Bump(p, i, t);
    BumpStep(ids, p, i, t);
    assert CampaignOk(ids, p, i, t) && BallotOk(ids, p, i, t);
    var p2 := Announce(p1, i);
    AnnounceStep(ids, p1, i);
    p' := Cast(p2, i, i);
    CastStep(ids, p2, i, i);
    StepByTransitive(p, p1, p2, i);
    StepByTransitive(p, p2, p', i);
  }

  /** The peers that a candidate counts, and the candidate itself, have voted for it. */
  lemma CountedHaveVoted(ids: set<NodeId>, p: Proto, i: NodeId, t: Term, peers: seq<NodeId>, granted: seq<bool>)
    requires Domains(ids, p) && i in ids && PeersOk(ids, i, peers) && |granted| == |peers| && GrantsOk(i, t, peers, granted, p)
    requires (i, t) in p.ballots && p.ballots[(i, t)].candidate == i && 1 + CountTrue(granted) >= Majority(|peers| + 1)
    ensures IsQuorum(ids, Voters(ids, p, t, i))
  {
    FlagsMakeQuorum(ids, i, peers, granted);
    var q := Flagged(peers, granted) + {i};
    assert q <= Voters(ids, p, t, i) by {
      assert forall k :: 0 <= k < |peers| ==> peers[k] in PeerSet(peers);
    }
    QuorumGrows(ids, q, Voters(ids, p, t, i));
  }

  /** Two quorums of one term share a voter, and a voter has one ballot. */
  lemma NoOtherLeader(ids: set<NodeId>, p: Proto, i: NodeId, t: Term)
    requires Domains(ids, p) && LeadersOk(ids, p) && IsQuorum(ids, Voters(ids, p, t, i))
    ensures t in p.tlog ==> p.leaderOf[t] == i
  {
    assert LeaderOk(ids, p, t);
    if t in p.tlog {
      var q := QuorumsMeet(ids, Voters(ids, p, t, i), Voters(ids, p, t, p.leaderOf[t]));
    }
  }

  /** A term without a leader so far, a campaign and a quorum of flags: the candidate becomes leader. */
  lemma WinOk(ids: set<NodeId>, p: Proto, peers: seq<NodeId>, i: NodeId, srv: Server) returns (p': Proto)
    requires ProtoInv(ids, p) && i in ids && PeersOk(ids, i, peers) && RAFT_NONE !in ids
    requires ServerOk(peers, i, srv, p) && srv.node.role == Candidate
    requires 1 + CountTrue(srv.node.cstate.granted) >= Majority(|peers| + 1)
    ensures ProtoInv(ids, p') && StepBy(p, p', i)
    ensures p'.campaign == p.campaign && p'.term == p.term
    ensures ServerOk(peers, i, srv.(node := InitLeader(srv.node)), p')
  {
    CountedHaveVoted(ids, p, i, srv.node.pstate.term, peers, srv.node.cstate.granted);
    NoOtherLeader(ids, p, i, srv.node.pstate.term);
    p' := Elect(p, i);
    ElectStep(ids, p, i);
  }

  function Campaigner(n: Node): Node {
    n.(leaderId := RAFT_NONE, role := Candidate, pstate := n.pstate.(term := n.pstate.term + 1, votedFor := n.id),
       cstate := CandidateState(n.pstate.term + 1, Falses(|n.peers|), Falses(|n.peers|)))
  }

  /** A node that has just voted for itself is a candidate in good order. */
  lemma CampaignerOk(ids: set<NodeId>, p: Proto, peers: seq<NodeId>, i: NodeId, srv: Server) returns (p': Proto)
    requires ProtoInv(ids, p) && i in ids && RAFT_NONE !in ids && ServerOk(peers, i, srv, p)
    ensures ProtoInv(ids, p') && StepBy(p, p', i)
    ensures var n := Campaigner(srv.node);
            && ServerOk(peers, i, Server(n, srv.disk + [StateRecord(n.pstate.term, i)], srv.output), p')
            && (i, n.pstate.term) in p'.campaign && p'.campaign[(i, n.pstate.term)] == n.pstate.log
  {
    var t := srv.node.pstate.term + 1;
    assert LeaderOk(ids, p, t);
    p' := TimeoutProto(ids, p, i);
    ReplayOne(srv.disk, StateRecord(t, i));
  }

  /** raft_timeout of a node that may start an election and record it. */
  lemma ElectionOk(ids: set<NodeId>, p: Proto, peers: seq<NodeId>, i: NodeId, srv: Server, w: nat) returns (p': Proto)
    requires ProtoInv(ids, p) && i in ids && PeersOk(ids, i, peers) && RAFT_NONE !in ids && ServerOk(peers, i, srv, p)
    requires srv.node.role != Leader && w > 0
    ensures ProtoInv(ids, p') && StepBy(p, p', i)
    ensures ServerOk(peers, i, Install(srv, Timeout(srv.node, w).0), p')
    ensures var t := srv.node.pstate.term + 1; (i, t) in p'.campaign && p'.campaign[(i, t)] == srv.node.pstate.log
  {
    var n := srv.node;
    var p1 := CampaignerOk(ids, p, peers, i, srv);
    var c := Server(Campaigner(n), srv.disk + [StateRecord(n.pstate.term + 1, i)], srv.output);
    if Majority(|peers| + 1) == 1 {
      p' := WinOk(ids, p1, peers, i, c);
      StepByTransitive(p, p1, p', i);
    } else {
      p' := p1;
    }
  }

  /** raft_timeout. */
  lemma TimeoutOk(ids: set<NodeId>, p: Proto, peers: seq<NodeId>, i: NodeId, srv: Server, w: nat) returns (p': Proto)
    requires ProtoInv(ids, p) && i in ids && PeersOk(ids, i, peers) && RAFT_NONE !in ids && ServerOk(peers, i, srv, p)
    ensures ProtoInv(ids, p') && StepBy(p, p', i)
    ensures ServerOk(peers, i, Install(srv, Timeout(srv.node, w).0), p')
    ensures var req := Timeout(srv.node, w).1;
            req.Some? ==> forall d :: d in ids && d != i ==> PacketOk(ids, Packet(i, d, VoteReq(req.value)), p')
  {
    if srv.node.role == Leader || w == 0 {
      p' := p;
      StepBySelf(p, i);
      UnwrittenOk(peers, i, srv, Timeout(srv.node, w).0, p);
    } else {
      p' := ElectionOk(ids, p, peers, i, srv, w);
    }
  }

  /** The vote itself, once the terms agree. */
  lemma GrantOk(ids: set<NodeId>, p: Proto, peers: seq<NodeId>, i: NodeId, srv: Server, req: VoteRequest)
      returns (p': Proto)
    requires ProtoInv(ids, p) && i in ids && RAFT_NONE !in ids && ServerOk(peers, i, srv, p)
    requires srv.node.role != Leader && srv.node.pstate.term == req.term && MayVote(srv.node, req)
    requires req.candidateId in ids && (req.candidateId, req.term) in p.campaign
    requires var c := p.campaign[(req.candidateId, req.term)]; req.lastIndex == |c| && req.lastTerm == LastTerm(c)
    ensures ProtoInv(ids, p') && StepBy(p, p', i)
    ensures (i, req.term) in p'.ballots && p'.ballots[(i, req.term)].candidate == req.candidateId
    ensures var n := srv.node.(pstate := srv.node.pstate.(votedFor := req.candidateId));
            ServerOk(peers, i, Server(n, srv.disk + [StateRecord(req.term, req.candidateId)], srv.output), p')
  {
    ReplayOne(srv.disk, StateRecord(req.term, req.candidateId));
    if srv.node.pstate.votedFor == RAFT_NONE {
      p' := Cast(p, i, req.candidateId);
      CastStep(ids, p, i, req.candidateId);
    } else {
      p' := p;
      StepBySelf(p, i);
    }
  }

  /** The ways HandleRequestVoteRequest can end: after the term update, dead at the vote, or with a vote. */
  lemma VoteRequestSplit(srv: Server, req: VoteRequest, w: nat)
    ensures var up := UpdateTerm(srv.node, req.term, w);
            var s1 := Install(srv, up);
            var n := s1.node.(pstate := s1.node.pstate.(votedFor := req.candidateId));
            var (o, resp) := HandleVoteRequest(srv.node, req, w);
            && resp.term == srv.node.pstate.term
            && (!resp.granted ==>
                  || o == up
                  || (o.failed && Install(srv, o) == Boot(srv.node.id, srv.node.peers, s1.disk)))
            && (resp.granted ==>
                  && !o.failed && s1.node.role != Leader && s1.node.pstate.term == req.term && MayVote(s1.node, req)
                  && Install(srv, o) == Server(n, s1.disk + [StateRecord(req.term, req.candidateId)], srv.output)
                  && s1.output == srv.output)
  {
    var up := UpdateTerm(srv.node, req.term, w);
    assert srv.disk + (up.writes + [StateRecord(req.term, req.candidateId)])
        == srv.disk + up.writes + [StateRecord(req.term, req.candidateId)];
  }

  /** HandleRequestVoteRequest. */
  lemma VoteRequestOk(ids: set<NodeId>, p: Proto, peers: seq<NodeId>, i: NodeId, srv: Server,
                      src: NodeId, req: VoteRequest, w: nat) returns (p': Proto)
    requires ProtoInv(ids, p) && i in ids && RAFT_NONE !in ids && ServerOk(peers, i, srv, p)
    requires PacketOk(ids, Packet(src, i, VoteReq(req)), p)
    ensures ProtoInv(ids, p') && StepBy(p, p', i)
    ensures var (o, resp) := HandleVoteRequest(srv.node, req, w);
            && ServerOk(peers, i, Install(srv, o), p')
            && (!o.failed ==> PacketOk(ids, Packet(i, src, VoteResp(resp)), p'))
  {
    var up := UpdateTerm(srv.node, req.term, w);
    var p1 := UpdateTermOk(ids, p, peers, i, srv, req.term, w);
    var (o, resp) := HandleVoteRequest(srv.node, req, w);
    var s1 := Install(srv, up);
    VoteRequestSplit(srv, req, w);
    if resp.granted {
      p' := GrantOk(ids, p1, peers, i, s1, req);
      StepByTransitive(p, p1, p', i);
      assert CampaignOk(ids, p1, src, req.term);
    } else {
      p' := p1;
      BootOk(peers, i, s1.node.pstate, s1.disk, p1);
    }
  }

  /** HandleRequestVoteResponse. */
  lemma VoteResponseOk(ids: set<NodeId>, p: Proto, peers: seq<NodeId>, i: NodeId, srv: Server,
                       src: NodeId, resp: VoteResponse, w: nat) returns (p': Proto)
    requires ProtoInv(ids, p) && i in ids && PeersOk(ids, i, peers) && RAFT_NONE !in ids && ServerOk(peers, i, srv, p)
    requires PacketOk(ids, Packet(src, i, VoteResp(resp)), p)
    ensures ProtoInv(ids, p') && StepBy(p, p', i)
    ensures ServerOk(peers, i, Install(srv, HandleVoteResponse(srv.node, resp, src, w)), p')
  {
    var n := srv.node;
    var o := HandleVoteResponse(n, resp, src, w);
    if resp.term > n.pstate.term {
      p' := UpdateTermOk(ids, p, peers, i, srv, resp.term, w);
    } else {
      p' := p;
      StepBySelf(p, i);
      assert srv.disk + o.writes == srv.disk;
      var f := FindPeer(n.peers, src);
      if n.role == Candidate && resp.term == n.pstate.term && resp.term == n.cstate.electionTerm
         && f.Some? && !n.cstate.responded[f.value] {
        var c := n.cstate.(responded := n.cstate.responded[f.value := true],
                           granted := n.cstate.granted[f.value := resp.granted]);
        var s1 := srv.(node := n.(cstate := c));
        assert ServerOk(peers, i, s1, p);
        if 1 + CountTrue(c.granted) >= Majority(|peers| + 1) {
          p' := WinOk(ids, p, peers, i, s1);
        }
      }
    }
  }
}
