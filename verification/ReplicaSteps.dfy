/** The replication handlers of one server, seen as protocol moves: one move per record written. */
module ReplicaSteps {
  import opened RaftTypes
  import opened RaftNode
  import opened AppendLoops
  import opened Cluster
  import opened Protocol
  import opened ProtocolSteps
  import opened ClusterInv
  import opened ServerSteps

  // ---------- The follower ----------

  lemma SetLogTwice(p: Proto, i: NodeId, a: Log, b: Log)
    ensures SetLog(SetLog(p, i, a), i, b) == SetLog(p, i, b)
  {
    assert p.log[i := a][i := b] == p.log[i := b];
  }

  lemma SetLogSame(p: Proto, i: NodeId)
    requires i in p.log
    ensures SetLog(p, i, p.log[i]) == p
  {
    assert p.log[i := p.log[i]] == p.log;
  }

  /** The history after i's log and log file have changed, and that they still belong together. */
  ghost predicate LogMoved(ids: set<NodeId>, p: Proto, i: NodeId, ps: Persistent, disk: seq<Record>, log: Log)
    requires i in ids && Domains(ids, p)
  {
    var p' := SetLog(p, i, log);
    ProtoInv(ids, p') && StepBy(p, p', i) && DurableOk(i, ps.(log := log), disk, p')
  }

  lemma LogMovedCompose(ids: set<NodeId>, p: Proto, i: NodeId, ps: Persistent, disk1: seq<Record>, log1: Log,
                        disk2: seq<Record>, log2: Log)
    requires i in ids && Domains(ids, p)
    requires LogMoved(ids, p, i, ps, disk1, log1)
    requires LogMoved(ids, SetLog(p, i, log1), i, ps.(log := log1), disk2, log2)
    ensures LogMoved(ids, p, i, ps, disk2, log2)
  {
    SetLogTwice(p, i, log1, log2);
    StepByTransitive(p, SetLog(p, i, log1), SetLog(p, i, log2), i);
  }

  lemma LogMovedHere(ids: set<NodeId>, p: Proto, i: NodeId, ps: Persistent, disk: seq<Record>)
    requires ProtoInv(ids, p) && i in ids && DurableOk(i, ps, disk, p)
    ensures LogMoved(ids, p, i, ps, disk, ps.log)
  {
    SetLogSame(p, i);
    StepBySelf(p, i);
  }

  /** The cut of a conflicting suffix, with its TRUNCATE record. */
  lemma CutOk(ids: set<NodeId>, p: Proto, i: NodeId, ps: Persistent, disk: seq<Record>, pos: nat)
    requires ProtoInv(ids, p) && i in ids && DurableOk(i, ps, disk, p) && ps.term in p.tlog
    requires pos < |ps.log| && pos < |p.tlog[ps.term]| && ps.log[pos].term != p.tlog[ps.term][pos].term
    requires Carries(ps.log, p.tlog[ps.term], pos)
    ensures LogMoved(ids, p, i, ps, disk + [TruncateRecord(pos + 1)], ps.log[..pos])
  {
    CutStep(ids, p, i, pos);
    ReplayOne(disk, TruncateRecord(pos + 1));
  }

  /** The next entry of the leader's log, with its ENTRY record. */
  lemma ExtendOk(ids: set<NodeId>, p: Proto, i: NodeId, ps: Persistent, disk: seq<Record>)
    requires ProtoInv(ids, p) && i in ids && DurableOk(i, ps, disk, p) && ps.term in p.tlog
    requires ps.log < p.tlog[ps.term]
    ensures var e := p.tlog[ps.term][|ps.log|];
            LogMoved(ids, p, i, ps, disk + [EntryRecord(e)], ps.log + [e])
  {
    var e := p.tlog[ps.term][|ps.log|];
    ExtendStep(ids, p, i);
    assert LeaderOk(ids, p, ps.term);
    ReplayOne(disk, EntryRecord(e));
  }

  lemma EntryRecordsSnoc(disk: seq<Record>, ldr: Log, a: nat, m: nat)
    requires a < m <= |ldr|
    ensures disk + EntryRecords(ldr[a..m]) == disk + EntryRecords(ldr[a..m - 1]) + [EntryRecord(ldr[m - 1])]
  {
    assert ldr[a..m] == ldr[a..m - 1] + [ldr[m - 1]];
    assert EntryRecords(ldr[a..m]) == EntryRecords(ldr[a..m - 1]) + [EntryRecord(ldr[m - 1])];
  }

  lemma CopyOne(ids: set<NodeId>, p: Proto, i: NodeId, ps: Persistent, disk: seq<Record>, m: nat)
    requires Domains(ids, p) && i in ids && ps.term in p.tlog && 0 < m <= |p.tlog[ps.term]|
    requires LogMoved(ids, p, i, ps, disk, p.tlog[ps.term][..m - 1])
    ensures LogMoved(ids, p, i, ps, disk + [EntryRecord(p.tlog[ps.term][m - 1])], p.tlog[ps.term][..m])
  {
    var ldr := p.tlog[ps.term];
    ExtendOk(ids, SetLog(p, i, ldr[..m - 1]), i, ps.(log := ldr[..m - 1]), disk);
    assert ldr[..m - 1] + [ldr[m - 1]] == ldr[..m];
    LogMovedCompose(ids, p, i, ps, disk, ldr[..m - 1], disk + [EntryRecord(ldr[m - 1])], ldr[..m]);
  }

  /** Copying the leader's log up to index m, one record per entry. */
  lemma {:induction false} CopyOk(ids: set<NodeId>, p: Proto, i: NodeId, ps: Persistent, disk: seq<Record>, m: nat)
    requires ProtoInv(ids, p) && i in ids && DurableOk(i, ps, disk, p) && ps.term in p.tlog
    requires |ps.log| <= m <= |p.tlog[ps.term]| && ps.log == p.tlog[ps.term][..|ps.log|]
    ensures var ldr := p.tlog[ps.term];
            LogMoved(ids, p, i, ps, disk + EntryRecords(ldr[|ps.log|..m]), ldr[..m])
    decreases m
  {
    var ldr, a := p.tlog[ps.term], |ps.log|;
    if m == a {
      assert disk + EntryRecords(ldr[a..m]) == disk;
      LogMovedHere(ids, p, i, ps, disk);
    } else {
      CopyOk(ids, p, i, ps, disk, m - 1);
      CopyOne(ids, p, i, ps, disk + EntryRecords(ldr[a..m - 1]), m);
      EntryRecordsSnoc(disk, ldr, a, m);
    }
  }

  /** Any way the append loop can end is a sequence of protocol moves. */
  lemma ShapeOk(ids: set<NodeId>, p: Proto, i: NodeId, ps: Persistent, disk: seq<Record>,
                r: LoopResult, pos: nat, m: nat, cut: bool, n: nat)
    requires ProtoInv(ids, p) && i in ids && DurableOk(i, ps, disk, p) && ps.term in p.tlog
    requires LoopShape(ps.log, p.tlog[ps.term], r, pos, m, cut, n)
    ensures LogMoved(ids, p, i, ps, disk + r.writes, r.log)
  {
    var ldr := p.tlog[ps.term];
    if cut {
      var d1 := disk + [TruncateRecord(pos + 1)];
      CutOk(ids, p, i, ps, disk, pos);
      CopyOk(ids, SetLog(p, i, ps.log[..pos]), i, ps.(log := ps.log[..pos]), d1, m);
      assert d1 + EntryRecords(ldr[pos..m]) == disk + r.writes;
      LogMovedCompose(ids, p, i, ps, d1, ps.log[..pos], disk + r.writes, r.log);
    } else if pos == m {
      assert disk + r.writes == disk;
      LogMovedHere(ids, p, i, ps, disk);
    } else {
      assert ps.log == ps.log[..pos];
      CopyOk(ids, p, i, ps, disk, m);
      assert r.writes == EntryRecords(ldr[pos..m]);
    }
  }

  /** Log Matching between a server's log and its leader's. */
  lemma ServerMatches(ids: set<NodeId>, p: Proto, i: NodeId, t: Term)
    requires ProtoInv(ids, p) && i in ids && t in p.tlog
    ensures Matching(p.log[i], p.tlog[t])
  {
    assert NodeOk(ids, p, i) && LeaderOk(ids, p, t);
    forall k: nat ensures MatchingAt(p.log[i], p.tlog[t], k) {
      if k < |p.log[i]| && k < |p.tlog[t]| && p.log[i][k].term == p.tlog[t][k].term {
        LogsMatch(p.tlog, p.log[i], p.tlog[t], k);
      }
    }
  }

  /** The loop as a whole. */
  lemma LoopOk(ids: set<NodeId>, p: Proto, i: NodeId, ps: Persistent, disk: seq<Record>, req: AppendRequest, w: nat)
    requires ProtoInv(ids, p) && i in ids && DurableOk(i, ps, disk, p) && ps.term in p.tlog
    requires IsSlice(req, p.tlog[ps.term]) && PrevMatches(ps.log, req)
    ensures var r := AppendLoop(ps.log, req.prevIndex, req.entries, 0, w);
            && r.stop != Rejected
            && LogMoved(ids, p, i, ps, disk + r.writes, r.log)
            && (r.stop == Done ==> Carries(r.log, p.tlog[ps.term], EndIndex(req)))
  {
    var ldr := p.tlog[ps.term];
    ServerMatches(ids, p, i, ps.term);
    assert LeaderOk(ids, p, ps.term);
    PrevCarries(ps.log, ldr, req);
    var pos, m, cut := LoopEnds(ps.log, ldr, req, 0, w);
    ShapeOk(ids, p, i, ps, disk, AppendLoop(ps.log, req.prevIndex, req.entries, 0, w), pos, m, cut, EndIndex(req));
  }

  /** Recording that i holds the leader's log up to n. */
  lemma AckUpTo(ids: set<NodeId>, p: Proto, i: NodeId, n: nat) returns (p': Proto)
    requires ProtoInv(ids, p) && i in ids && p.term[i] in p.tlog && Carries(p.log[i], p.tlog[p.term[i]], n)
    ensures ProtoInv(ids, p') && StepBy(p, p', i) && n <= Acked(p', i, p.term[i])
    ensures p'.term == p.term && p'.log == p.log && p'.ballots == p.ballots && p'.tlog == p.tlog && p'.campaign == p.campaign
    ensures p'.leaderOf == p.leaderOf
  {
    var a := Max(Acked(p, i, p.term[i]), n);
    assert AckOk(ids, p, i, p.term[i]);
    p' := SetAck(p, i, a);
    AckStep(ids, p, i, a);
  }

  /** The loop ran to its end, so what the batch covers is held and may be acknowledged. */
  lemma FollowDone(ids: set<NodeId>, p: Proto, i: NodeId, ps: Persistent, disk: seq<Record>, log: Log, n: nat)
      returns (p': Proto)
    requires i in ids && Domains(ids, p) && LogMoved(ids, p, i, ps, disk, log)
    requires ps.term in p.tlog && Carries(log, p.tlog[ps.term], n)
    ensures ProtoInv(ids, p') && StepBy(p, p', i)
    ensures DurableOk(i, ps.(log := log), disk, p')
    ensures n <= Acked(p', i, ps.term) && p'.tlog == p.tlog
  {
    var p1 := SetLog(p, i, log);
    p' := AckUpTo(ids, p1, i, n);
    StepByTransitive(p, p1, p', i);
  }

  /** A handler left its server and its reply in order. */
  ghost predicate Replied(ids: set<NodeId>, peers: seq<NodeId>, i: NodeId, srv: Server, failed: bool, reply: Packet, p: Proto)
    requires Domains(ids, p) && i in ids
  {
    ServerOk(peers, i, srv, p) && (!failed ==> PacketOk(ids, reply, p))
  }

  /** HandleAppendEntriesRequest after the term checks, when the consistency check passes. */
  lemma FollowMatchedOk(ids: set<NodeId>, p: Proto, peers: seq<NodeId>, i: NodeId, srv: Server,
                        src: NodeId, req: AppendRequest, w: nat) returns (p': Proto)
    requires ProtoInv(ids, p) && i in ids && ServerOk(peers, i, srv, p) && srv.node.pstate.term == req.term
    requires PacketOk(ids, Packet(src, i, AppendReq(req)), p) && PrevMatches(srv.node.pstate.log, req)
    ensures ProtoInv(ids, p') && StepBy(p, p', i)
    ensures var r := AppendLoop(srv.node.pstate.log, req.prevIndex, req.entries, 0, w);
            && r.stop != Rejected
            && DurableOk(i, srv.node.pstate.(log := r.log), srv.disk + r.writes, p')
            && (r.stop == Done ==> req.term in p'.tlog && EndIndex(req) <= Acked(p', i, req.term))
  {
    var ps := srv.node.pstate;
    var r := AppendLoop(ps.log, req.prevIndex, req.entries, 0, w);
    LoopOk(ids, p, i, ps, srv.disk, req, w);
    if r.stop == Done {
      p' := FollowDone(ids, p, i, ps, srv.disk + r.writes, r.log, EndIndex(req));
    } else {
      p' := SetLog(p, i, r.log);
    }
  }

  /** HandleAppendEntriesRequest after the term checks. */
  lemma FollowOk(ids: set<NodeId>, p: Proto, peers: seq<NodeId>, i: NodeId, srv: Server,
                 src: NodeId, req: AppendRequest, w: nat) returns (p': Proto)
    requires ProtoInv(ids, p) && i in ids && ServerOk(peers, i, srv, p) && srv.node.pstate.term == req.term
    requires PacketOk(ids, Packet(src, i, AppendReq(req)), p)
    ensures ProtoInv(ids, p') && StepBy(p, p', i)
    ensures var (o, resp) := FollowLeader(srv.node, req, w);
            Replied(ids, peers, i, Install(srv, o), o.failed, Packet(i, src, AppendResp(resp)), p')
  {
    var ps := srv.node.pstate;
    if !PrevMatches(ps.log, req) {
      p' := p;
      StepBySelf(p, i);
      assert srv.disk + [] == srv.disk;
    } else {
      p' := FollowMatchedOk(ids, p, peers, i, srv, src, req, w);
      var r := AppendLoop(ps.log, req.prevIndex, req.entries, 0, w);
      BootOk(peers, i, ps.(log := r.log), srv.disk + r.writes, p');
      FollowedOk(peers, i, srv, FollowLeader(srv.node, req, w).0, ps.(log := r.log), srv.disk + r.writes, p');
    }
  }

  /** A follower after a batch, which it has handled to its end or died in. */
  lemma FollowedOk(peers: seq<NodeId>, i: NodeId, srv: Server, o: Outcome, ps: Persistent, disk: seq<Record>, p: Proto)
    requires i in p.term && i in p.log && DurableOk(i, ps, disk, p) && srv.node.id == i && srv.node.peers == peers
    requires srv.disk + o.writes == disk && Shaped(srv.node)
    requires !o.failed ==> o.node.role == Follower && o.node.pstate == ps && o.node.id == i && o.node.peers == peers
    requires !o.failed ==> o.node.cstate == srv.node.cstate && o.node.lstate == srv.node.lstate
    ensures ServerOk(peers, i, Install(srv, o), p)
  {
    BootOk(peers, i, ps, disk, p);
  }

  /** The term update and what follows it, one after the other. */
  lemma AppendRequestSplit(srv: Server, req: AppendRequest, w: nat)
    requires req.term >= srv.node.pstate.term && !UpdateTerm(srv.node, req.term, w).failed
    ensures var up := UpdateTerm(srv.node, req.term, w);
            var s1 := Install(srv, up);
            var (o1, resp1) := FollowLeader(s1.node, req, w - |up.writes|);
            var (o, resp) := HandleAppendRequest(srv.node, req, w);
            && s1.node.pstate.term == req.term
            && Install(srv, o) == Install(s1, o1) && resp == resp1 && o.failed == o1.failed
  {
    var up := UpdateTerm(srv.node, req.term, w);
    var o1 := FollowLeader(up.node, req, w - |up.writes|).0;
    assert srv.disk + (up.writes + o1.writes) == srv.disk + up.writes + o1.writes;
  }

  /** HandleAppendEntriesRequest of a request that is not stale, when the term update succeeds. */
  lemma AppendFreshOk(ids: set<NodeId>, p: Proto, peers: seq<NodeId>, i: NodeId, srv: Server,
                      src: NodeId, req: AppendRequest, w: nat) returns (p': Proto)
    requires ProtoInv(ids, p) && i in ids
    requires req.term >= srv.node.pstate.term && !UpdateTerm(srv.node, req.term, w).failed
    requires ServerOk(peers, i, Install(srv, UpdateTerm(srv.node, req.term, w)), p)
    requires PacketOk(ids, Packet(src, i, AppendReq(req)), p)
    ensures ProtoInv(ids, p') && StepBy(p, p', i)
    ensures var (o, resp) := HandleAppendRequest(srv.node, req, w);
            Replied(ids, peers, i, Install(srv, o), o.failed, Packet(i, src, AppendResp(resp)), p')
  {
    var up := UpdateTerm(srv.node, req.term, w);
    AppendRequestSplit(srv, req, w);
    p' := FollowOk(ids, p, peers, i, Install(srv, up), src, req, w - |up.writes|);
  }

  /** HandleAppendEntriesRequest. */
  lemma AppendRequestOk(ids: set<NodeId>, p: Proto, peers: seq<NodeId>, i: NodeId, srv: Server,
                        src: NodeId, req: AppendRequest, w: nat) returns (p': Proto)
    requires ProtoInv(ids, p) && i in ids && ServerOk(peers, i, srv, p)
    requires PacketOk(ids, Packet(src, i, AppendReq(req)), p)
    ensures ProtoInv(ids, p') && StepBy(p, p', i)
    ensures var (o, resp) := HandleAppendRequest(srv.node, req, w);
            Replied(ids, peers, i, Install(srv, o), o.failed, Packet(i, src, AppendResp(resp)), p')
  {
    var p1 := UpdateTermOk(ids, p, peers, i, srv, req.term, w);
    if req.term < srv.node.pstate.term || UpdateTerm(srv.node, req.term, w).failed {
      p' := p1;
    } else {
      PacketGrows(ids, Packet(src, i, AppendReq(req)), p, p1);
      p' := AppendFreshOk(ids, p1, peers, i, srv, src, req, w);
      StepByTransitive(p, p1, p', i);
    }
  }

  // ---------- The leader ----------

  lemma AdvanceCommitKeeps(n: Node)
    ensures AdvanceCommit(n) == n.(commitIndex := AdvanceCommit(n).commitIndex)
  {
  }

  /** HandleAppendEntriesResponse. */
  lemma AppendResponseOk(ids: set<NodeId>, p: Proto, peers: seq<NodeId>, i: NodeId, srv: Server,
                         src: NodeId, resp: AppendResponse, w: nat) returns (p': Proto)
    requires ProtoInv(ids, p) && i in ids && ServerOk(peers, i, srv, p)
    requires PacketOk(ids, Packet(src, i, AppendResp(resp)), p)
    ensures ProtoInv(ids, p') && StepBy(p, p', i)
    ensures ServerOk(peers, i, Install(srv, HandleAppendResponse(srv.node, resp, src, w)), p')
  {
    var n := srv.node;
    if n.role == Leader && n.pstate.term < resp.term {
      p' := UpdateTermOk(ids, p, peers, i, srv, resp.term, w);
    } else {
      p' := p;
      StepBySelf(p, i);
      assert srv.disk + [] == srv.disk;
      if n.role == Leader && n.pstate.term == resp.term {
        assert AckOk(ids, p, src, resp.term) && LeaderOk(ids, p, resp.term);
        AdvanceCommitKeeps(n);
        var f := FindPeer(n.peers, src);
        if f.Some? && resp.success {
          var k := f.value;
          var l := if n.lstate.next[k] < resp.matchIndex
                   then LeaderState(n.lstate.next[k := resp.matchIndex + 1], n.lstate.matched[k := resp.matchIndex])
                   else n.lstate;
          assert MatchesOk(resp.term, peers, l.matched, p);
          AdvanceCommitKeeps(n.(lstate := l));
        }
      }
    }
  }

  lemma CommandTaken(ids: set<NodeId>, p: Proto, peers: seq<NodeId>, i: NodeId, srv: Server, cmd: Command, c: Index)
      returns (p': Proto)
    requires ProtoInv(ids, p) && i in ids && ServerOk(peers, i, srv, p)
    requires srv.node.role == Leader && |srv.node.pstate.log| < RAFT_LOG_CAP
    ensures ProtoInv(ids, p') && StepBy(p, p', i)
    ensures var n := srv.node;
            var e := Entry(|n.pstate.log| + 1, n.pstate.term, cmd);
            var n1 := n.(pstate := n.pstate.(log := n.pstate.log + [e]), commitIndex := c);
            ServerOk(peers, i, Server(n1, srv.disk + [EntryRecord(e)], srv.output), p')
  {
    var e := Entry(|srv.node.pstate.log| + 1, srv.node.pstate.term, cmd);
    p' := Lead(p, i, p.log[i] + [e]);
    ProtocolSteps.AppendStep(ids, p, i, e);
    ReplayOne(srv.disk, EntryRecord(e));
  }

  /** raft_leader_send_command. */
  lemma CommandOk(ids: set<NodeId>, p: Proto, peers: seq<NodeId>, i: NodeId, srv: Server, cmd: Command, w: nat)
      returns (p': Proto)
    requires ProtoInv(ids, p) && i in ids && ServerOk(peers, i, srv, p)
    ensures ProtoInv(ids, p') && StepBy(p, p', i)
    ensures ServerOk(peers, i, Install(srv, SendCommand(srv.node, cmd, w).0), p')
  {
    var n := srv.node;
    var o := SendCommand(n, cmd, w).0;
    if n.role != Leader || |n.pstate.log| >= RAFT_LOG_CAP || w == 0 {
      p' := p;
      StepBySelf(p, i);
      UnwrittenOk(peers, i, srv, o, p);
    } else {
      p' := CommandTaken(ids, p, peers, i, srv, cmd, o.node.commitIndex);
    }
  }

  /** raft_append_entries and heartbeat_tick send batches of the leader's log. */
  lemma SendOk(ids: set<NodeId>, p: Proto, peers: seq<NodeId>, i: NodeId, srv: Server, k: nat)
    requires ProtoInv(ids, p) && i in ids && PeersOk(ids, i, peers) && ServerOk(peers, i, srv, p)
    ensures forall pkt :: pkt in ToPeer(srv.node, k, BuildAppend(srv.node, k)) ==> PacketOk(ids, pkt, p)
    ensures forall pkt :: pkt in ToPeer(srv.node, k, BuildHeartbeat(srv.node)) ==> PacketOk(ids, pkt, p)
  {
    if srv.node.role == Leader && k < |peers| {
      assert LeaderOk(ids, p, srv.node.pstate.term);
      assert peers[k] in PeerSet(peers);
    }
  }
}
