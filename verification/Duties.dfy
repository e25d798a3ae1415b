/** What each handler must do: for every handler, exactly when it takes effect and what it then leads to, said of the
    node, the message and the write budget alone. */
module Duties {
  import opened RaftTypes
  import opened RaftNode
  import opened AppendLoops
  import opened Cluster
  import opened ClusterInv
  import opened ServerSteps
  import opened ClusterSteps
  import opened Safety
  import opened Commitment
  import opened Recovery

  /** A log that ends in (lastIndex, lastTerm) ends in a later term than this one, or in the same term and no earlier. */
  predicate EndsNoEarlier(lastIndex: Index, lastTerm: Term, log: Log) {
    var own := if |log| == 0 then 0 else log[|log| - 1].term;
    lastTerm > own || (lastTerm == own && lastIndex >= |log|)
  }

  // ---------- Timeouts ----------

  /** An election timeout of a node that neither leads nor has failed starts an election of the next term, also when the
      node is a candidate already: the vote for itself is recorded, and it asks for votes with the end of its log, or
      leads at once if it has no peers. */
  lemma TimeoutExact(n: Node, w: nat)
    ensures var (o, req) := Timeout(n, w);
            if n.role == Leader || n.role == Failed then o == Outcome(n, [], false) && req == None
            else if w == 0 then o.failed && o.writes == [] && req == None
            else
              && !o.failed && o.writes == [StateRecord(n.pstate.term + 1, n.id)]
              && o.node.pstate == Persistent(n.pstate.term + 1, n.id, n.pstate.log)
              && o.node.peers == n.peers && o.node.id == n.id
              && o.node.commitIndex == n.commitIndex && o.node.lastApplied == n.lastApplied
              && (if n.peers == [] then o.node.role == Leader && req == None
                  else && o.node.role == Candidate && o.node.cstate.electionTerm == n.pstate.term + 1
                       && |o.node.cstate.responded| == |o.node.cstate.granted| == |n.peers|
                       && (forall k :: 0 <= k < |n.peers| ==> !o.node.cstate.responded[k] && !o.node.cstate.granted[k])
                       && req == Some(VoteRequest(n.pstate.term + 1, |n.pstate.log|, LastTerm(n.pstate.log), n.id)))
  {
    MajorityExact(1, |n.peers| + 1);
  }

  // ---------- Votes ----------

  /** The vote itself is free for the candidate once the node is in the request's term. */
  predicate VoteFree(n: Node, req: VoteRequest) {
    req.term > n.pstate.term || n.pstate.votedFor == RAFT_NONE || n.pstate.votedFor == req.candidateId
  }

  /** A vote is granted if and only if the request is not stale, the node does not lead that very term, the vote is free,
      the candidate's log ends no earlier than the node's, and the records succeed. */
  lemma GrantExact(n: Node, req: VoteRequest, w: nat)
    ensures var (o, resp) := HandleVoteRequest(n, req, w);
            && resp.term == n.pstate.term
            && (resp.granted <==>
                  && req.term >= n.pstate.term
                  && !(n.role == Leader && req.term == n.pstate.term)
                  && VoteFree(n, req)
                  && EndsNoEarlier(req.lastIndex, req.lastTerm, n.pstate.log)
                  && w >= (if req.term > n.pstate.term then 2 else 1))
            && (resp.granted ==>
                  && !o.failed && o.node.pstate == Persistent(req.term, req.candidateId, n.pstate.log)
                  && o.writes == (if req.term > n.pstate.term then [StateRecord(req.term, RAFT_NONE)] else [])
                                   + [StateRecord(req.term, req.candidateId)])
  {
  }

  /** The response is counted: it answers this election, and its sender, in slot k, has not answered before. */
  predicate Counted(n: Node, resp: VoteResponse, peer: NodeId, k: nat)
    requires Shaped(n)
  {
    && n.role == Candidate && resp.term == n.pstate.term == n.cstate.electionTerm
    && k < |n.peers| && n.peers[k] == peer && !n.cstate.responded[k]
  }

  /** A counted response is noted, and the candidate then leads if and only if its granters and itself are more than half
      of the cluster. */
  lemma CountedVoteExact(n: Node, resp: VoteResponse, peer: NodeId, w: nat, k: nat)
    requires Shaped(n) && Distinct(n.peers) && Counted(n, resp, peer, k)
    ensures var (o, granted) := (HandleVoteResponse(n, resp, peer, w), n.cstate.granted[k := resp.granted]);
            && !o.failed && o.writes == [] && o.node.pstate == n.pstate && o.node.peers == n.peers && o.node.id == n.id
            && o.node.commitIndex == n.commitIndex && o.node.lastApplied == n.lastApplied
            && o.node.cstate == CandidateState(n.cstate.electionTerm, n.cstate.responded[k := true], granted)
            && (o.node.role == Leader <==> MostOf(Slots(granted), |n.peers|))
            && (o.node.role != Leader ==> o.node.role == Candidate)
            && (o.node.role == Leader ==>
                  && o.node.leaderId == n.id && |o.node.lstate.next| == |o.node.lstate.matched| == |n.peers|
                  && forall j :: 0 <= j < |n.peers| ==>
                       o.node.lstate.next[j] == |n.pstate.log| + 1 && o.node.lstate.matched[j] == 0)
  {
    FindPeerExact(n.peers, k);
    CountIsMost(n.cstate.granted[k := resp.granted], |n.peers|);
  }

  // ---------- Newer terms ----------

  /** Nothing is left of an earlier campaign or leadership. */
  predicate Wiped(n: Node) {
    && n.cstate == CandidateState(0, Falses(|n.peers|), Falses(|n.peers|))
    && n.lstate == LeaderState(Fill(|n.peers|, 0), Fill(|n.peers|, 0))
  }

  /** The node has moved to term t as a follower that has not voted, after a STATE record that says so. */
  predicate Demoted(n: Node, t: Term, o: Outcome) {
    && !o.failed && o.writes == [StateRecord(t, RAFT_NONE)]
    && o.node.role == Follower && o.node.leaderId == RAFT_NONE
    && o.node.pstate == Persistent(t, RAFT_NONE, n.pstate.log)
    && o.node.commitIndex == n.commitIndex && o.node.lastApplied == n.lastApplied && Wiped(o.node)
  }

  /** A vote response of a newer term deposes the node, whatever it was. */
  lemma NewerVoteResponse(n: Node, resp: VoteResponse, peer: NodeId, w: nat)
    requires Shaped(n) && n.role != Failed && resp.term > n.pstate.term && w > 0
    ensures Demoted(n, resp.term, HandleVoteResponse(n, resp, peer, w))
  {
  }

  /** An append response of a newer term deposes a leader. */
  lemma NewerAppendResponse(n: Node, resp: AppendResponse, peer: NodeId, w: nat)
    requires Shaped(n) && n.role == Leader && resp.term > n.pstate.term && w > 0
    ensures Demoted(n, resp.term, HandleAppendResponse(n, resp, peer, w))
  {
  }

  /** A vote request of a newer term moves the node to that term, whether or not it then votes. */
  lemma NewerVoteRequest(n: Node, req: VoteRequest, w: nat)
    requires n.role != Failed && req.term > n.pstate.term && w > 1
    ensures var (o, resp) := HandleVoteRequest(n, req, w);
            && !o.failed && o.node.role == Follower && o.node.leaderId == RAFT_NONE && o.node.pstate.log == n.pstate.log
            && Wiped(o.node) && o.node.pstate.term == req.term && o.node.pstate.votedFor == (if resp.granted then req.candidateId else RAFT_NONE)
            && o.writes == [StateRecord(req.term, RAFT_NONE)]
                             + if resp.granted then [StateRecord(req.term, req.candidateId)] else []
  {
  }

  /** An append request of the node's term or a newer one makes it a follower of the sender in that term; a newer term
      frees its vote, with a STATE record first. */
  lemma NewerAppendRequest(n: Node, req: AppendRequest, w: nat)
    requires n.role != Failed && req.term >= n.pstate.term && w > 0
    ensures var (o, resp) := HandleAppendRequest(n, req, w);
            && resp.term == req.term && o.node.pstate.term == req.term && o.node.leaderId == req.leaderId
            && (!o.failed ==> o.node.role == Follower) && (o.failed ==> o.node.role == Failed)
            && o.node.pstate.votedFor == (if req.term > n.pstate.term then RAFT_NONE else n.pstate.votedFor)
            && (req.term > n.pstate.term ==> Wiped(o.node) && o.writes != [] && o.writes[0] == StateRecord(req.term, RAFT_NONE))
  {
  }

  // ---------- Append requests ----------

  /** A stale request is refused under the node's own term and changes nothing. */
  lemma StaleRequest(n: Node, req: AppendRequest, w: nat)
    requires req.term < n.pstate.term
    ensures HandleAppendRequest(n, req, w) == (Outcome(n, [], false), AppendResponse(n.pstate.term, false, 0))
  {
  }

  /** The consistency check passes exactly when the log holds the leader's first prevIndex entries. */
  lemma CheckExact(log: Log, ldr: Log, req: AppendRequest)
    requires IsSlice(req, ldr) && Matching(log, ldr)
    ensures PrevMatches(log, req) <==> Carries(log, ldr, req.prevIndex)
  {
    if PrevMatches(log, req) {
      PrevCarries(log, ldr, req);
    } else if Carries(log, ldr, req.prevIndex) {
      CarriesAt(log, ldr, req.prevIndex);
    }
  }

  /** Entries i and later are numbered as they should be after prev. */
  predicate NumberedFrom(entries: seq<Entry>, prev: Index, i: nat) {
    forall k :: i <= k < |entries| ==> entries[k].index == prev + k + 1
  }

  /** Whatever the batch: as long as writes succeed, the loop takes it if and only if its entries are numbered as they
      should be and fit; then the log holds an entry of the right term in each of their places, and keeps what is before. */
  lemma {:induction false} LoopAccepts(log: Log, prev: Index, entries: seq<Entry>, i: nat, w: nat)
    requires i <= |entries| && prev + i <= |log| <= RAFT_LOG_CAP && w >= 2 * (|entries| - i)
    ensures var r := AppendLoop(log, prev, entries, i, w);
            && r.stop != WriteFailed && |r.log| >= prev + i && r.log[..prev + i] == log[..prev + i]
            && (r.stop == Done <==> NumberedFrom(entries, prev, i) && prev + |entries| <= RAFT_LOG_CAP)
            && (r.stop == Done ==>
                  prev + |entries| <= |r.log| && forall k :: i <= k < |entries| ==> r.log[prev + k].term == entries[k].term)
    decreases |entries| - i
  {
    if i < |entries| && entries[i].index == prev + i + 1 {
      var pos := prev + i;
      if pos < |log| && log[pos].term == entries[i].term {
        LoopAccepts(log, prev, entries, i + 1, w);
        PrefixAt(AppendLoop(log, prev, entries, i, w).log, log, pos);
      } else {
        LoopTurn(log, prev, entries, i, w);
        var t := TakeOne(log, pos, entries[i], w);
        if t.stop == Done {
          LoopAccepts(t.log, prev, entries, i + 1, w - |t.writes|);
          PrefixAt(AppendLoop(log, prev, entries, i, w).log, t.log, pos);
          assert t.log[..pos] == log[..pos];
        }
      }
    }
  }

  /** Two logs that agree up to and including a position. */
  lemma PrefixAt(a: Log, b: Log, pos: nat)
    requires pos < |a| && pos < |b| && a[..pos + 1] == b[..pos + 1]
    ensures a[pos] == b[pos] && a[..pos] == b[..pos]
  {
    assert a[..pos + 1][pos] == b[..pos + 1][pos];
    assert a[..pos + 1][..pos] == a[..pos] && b[..pos + 1][..pos] == b[..pos];
  }

  /** A request succeeds, as long as writes do, if and only if it is not stale, its previous entry is there, its entries
      are numbered as they should be, and they fit. */
  lemma RequestExact(n: Node, req: AppendRequest, w: nat)
    requires |n.pstate.log| <= RAFT_LOG_CAP && w > 2 * |req.entries|
    ensures var (o, resp) := HandleAppendRequest(n, req, w);
            resp.success <==>
              && req.term >= n.pstate.term
              && (req.prevIndex == 0
                  || (req.prevIndex <= |n.pstate.log| && n.pstate.log[req.prevIndex - 1].term == req.prevTerm))
              && NumberedFrom(req.entries, req.prevIndex, 0) && EndIndex(req) <= RAFT_LOG_CAP
  {
    var up := UpdateTerm(n, req.term, w);
    if req.prevIndex <= |n.pstate.log| {
      LoopAccepts(n.pstate.log, req.prevIndex, req.entries, 0, w - |up.writes|);
    }
  }

  /** A batch of a leader that reaches the follower while its writes succeed is accepted if and only if the log holds the
      entries before it; then it is held, and the follower commits as far as the leader has and its own log goes. */
  lemma BatchExact(n: Node, ldr: Log, req: AppendRequest, w: nat)
    requires req.term >= n.pstate.term && Numbered(ldr) && |ldr| <= RAFT_LOG_CAP && w > RAFT_APPEND_BATCH + 2
    requires IsSlice(req, ldr) && Matching(n.pstate.log, ldr)
    ensures var (o, resp) := HandleAppendRequest(n, req, w);
            && !o.failed && (resp.success <==> Carries(n.pstate.log, ldr, req.prevIndex))
            && (resp.success ==>
                  && resp.matchIndex == EndIndex(req) && Carries(o.node.pstate.log, ldr, EndIndex(req))
                  && o.node.commitIndex ==
                       if req.leaderCommit > n.commitIndex then Min(req.leaderCommit, |o.node.pstate.log|) else n.commitIndex)
            && (!resp.success ==> o.node.pstate.log == n.pstate.log && o.node.commitIndex == n.commitIndex)
  {
    var up := UpdateTerm(n, req.term, w);
    CheckExact(n.pstate.log, ldr, req);
    BatchFollowed(up.node, ldr, req, w - |up.writes|);
  }

  lemma BatchFollowed(n: Node, ldr: Log, req: AppendRequest, w: nat)
    requires Numbered(ldr) && |ldr| <= RAFT_LOG_CAP && w > RAFT_APPEND_BATCH + 1
    requires IsSlice(req, ldr) && Matching(n.pstate.log, ldr)
    ensures var (o, resp) := FollowLeader(n, req, w);
            && !o.failed && resp.success == PrevMatches(n.pstate.log, req)
            && (resp.success ==>
                  && resp.matchIndex == EndIndex(req) && Carries(o.node.pstate.log, ldr, EndIndex(req))
                  && o.node.commitIndex ==
                       if req.leaderCommit > n.commitIndex then Min(req.leaderCommit, |o.node.pstate.log|) else n.commitIndex)
            && (!resp.success ==> o.node.pstate.log == n.pstate.log && o.node.commitIndex == n.commitIndex)
  {
    var log := n.pstate.log;
    if PrevMatches(log, req) {
      LoopBudget(log, req.prevIndex, req.entries, 0, w);
      PrevCarries(log, ldr, req);
      var pos, m, cut := LoopEnds(log, ldr, req, 0, w);
    }
  }

  // ---------- The leader ----------

  /** Commands are accepted exactly by a leader that has room and can write; then, and only then, the log grows, by
      exactly that entry, after its record. A leader without peers commits it at once. */
  lemma CommandExact(n: Node, c: Command, w: nat)
    ensures var ((o, accepted), e) := (SendCommand(n, c, w), Entry(|n.pstate.log| + 1, n.pstate.term, c));
            && (accepted <==> n.role == Leader && |n.pstate.log| < RAFT_LOG_CAP && w > 0)
            && (accepted ==>
                  && !o.failed && o.writes == [EntryRecord(e)]
                  && o.node == n.(pstate := n.pstate.(log := n.pstate.log + [e]),
                                  commitIndex := if n.peers == [] then |n.pstate.log| + 1 else n.commitIndex))
            && (!accepted ==> o.node.pstate == n.pstate && o.writes == [] && o.node.commitIndex == n.commitIndex)
            && (o.failed <==> n.role == Leader && |n.pstate.log| < RAFT_LOG_CAP && w == 0)
  {
    MajorityExact(1, |n.peers| + 1);
  }

  /** A leader sends, and only a leader: a batch from the peer's next index on, to the end of its log or full, and a
      heartbeat, both with its term and commit index. */
  lemma SendExact(n: Node, k: nat)
    requires Shaped(n)
    ensures BuildAppend(n, k).Some? <==> n.role == Leader && k < |n.peers|
    ensures n.role == Leader && k < |n.peers| ==>
              var req := BuildAppend(n, k).value;
              && req.term == n.pstate.term && req.leaderId == n.id && req.leaderCommit == n.commitIndex
              && req.prevIndex == n.lstate.next[k] - 1 && IsSlice(req, n.pstate.log)
              && EndIndex(req) == Min(|n.pstate.log|, n.lstate.next[k] - 1 + RAFT_APPEND_BATCH)
    ensures BuildHeartbeat(n) ==
              if n.role == Leader then Some(AppendRequest(n.pstate.term, n.id, 0, 0, n.commitIndex, [])) else None
  {
  }

  /** What a leader of this term makes of a peer's answer: it records an acknowledgement beyond its next index, moves
      back after a rejection if it can, and after every success commits the largest index that is held by most. */
  lemma AnswerExact(n: Node, resp: AppendResponse, k: nat, w: nat)
    requires Shaped(n) && Distinct(n.peers) && n.role == Leader && resp.term == n.pstate.term && k < |n.peers|
    ensures var (o, l) := (HandleAppendResponse(n, resp, n.peers[k], w), n.lstate);
            && !o.failed && o.writes == []
            && (if resp.success then
                  var l' := if l.next[k] < resp.matchIndex
                            then LeaderState(l.next[k := resp.matchIndex + 1], l.matched[k := resp.matchIndex]) else l;
                  && o.node == n.(lstate := l', commitIndex := o.node.commitIndex)
                  && o.node.commitIndex >= n.commitIndex
                  && (o.node.commitIndex > n.commitIndex ==> HeldByMost(o.node, o.node.commitIndex))
                  && (forall m :: o.node.commitIndex < m <= |n.pstate.log| ==> !HeldByMost(o.node, m))
                else o.node == n.(lstate := l.(next := l.next[k := if l.next[k] > 1 then l.next[k] - 1 else l.next[k]])))
  {
    FindPeerExact(n.peers, k);
    var l := n.lstate;
    if resp.success {
      var l' := if l.next[k] < resp.matchIndex
                then LeaderState(l.next[k := resp.matchIndex + 1], l.matched[k := resp.matchIndex]) else l;
      var n1, o := n.(lstate := l'), HandleAppendResponse(n, resp, n.peers[k], w).node;
      AdvanceCommitExact(n1);
      forall m: Index ensures HeldByMost(o, m) <==> HeldByMost(n1, m) { }
    } else {
      assert l.next[k := l.next[k]] == l.next;
      assert n.(lstate := l.(next := l.next)) == n;
    }
  }

  /** Any other answer is ignored: of an older term, to a node that does not lead, or of a node that is no peer. */
  lemma OtherAnswers(n: Node, resp: AppendResponse, peer: NodeId, w: nat)
    requires Shaped(n)
    requires n.role != Leader || resp.term < n.pstate.term || (resp.term == n.pstate.term && peer !in n.peers)
    ensures HandleAppendResponse(n, resp, peer, w) == Outcome(n, [], false)
  {
  }

  // ---------- Delivery ----------

  /** A drain hands over, in order, as many committed entries as there are and fit, and counts them as applied. */
  lemma DrainExact(n: Node, cap: nat)
    requires n.commitIndex <= |n.pstate.log|
    ensures var (n', es) := Drain(n, cap);
            && n' == n.(lastApplied := n.lastApplied + |es|)
            && |es| == (if n.lastApplied < n.commitIndex then Min(n.commitIndex - n.lastApplied, cap) else 0)
            && (forall k :: 0 <= k < |es| ==> es[k] == n.pstate.log[n.lastApplied + k])
            && (n.lastApplied <= n.commitIndex ==> n'.lastApplied == n.commitIndex || |es| == cap)
  {
  }

  /** In a guarded run, a drain leaves nothing committed undelivered, or fills the caller's buffer. */
  lemma DrainRuns(cfg: Config, steps: seq<Step>, m: nat, i: NodeId, cap: nat)
    requires ValidConfig(cfg) && SafeRun(cfg, steps) && m < |steps| && i in cfg && steps[m] == DrainStep(i, cap)
    ensures i in At(cfg, steps, m).servers && i in At(cfg, steps, m + 1).servers
    ensures var (before, after) := (At(cfg, steps, m).servers[i], At(cfg, steps, m + 1).servers[i]);
            && before.output <= after.output
            && (after.node.lastApplied == after.node.commitIndex || |after.output| == |before.output| + cap)
            && |after.output| == after.node.lastApplied
  {
    SafeStart(cfg, steps, m);
    OrderedDelivery(cfg, steps[..m], i);
    AtNext(cfg, steps, m);
    DrainExact(NodeOf(At(cfg, steps, m), i), cap);
  }

  lemma SafeStart(cfg: Config, steps: seq<Step>, m: nat)
    requires SafeRun(cfg, steps) && m <= |steps|
    ensures SafeRun(cfg, steps[..m])
  {
    if |cfg| > 2 {
      forall k: nat ensures SafeAt(cfg, steps[..m], k) {
        assert SafeAt(cfg, steps, k);
        if k < m { assert steps[..m][..k] == steps[..k]; }
      }
    }
  }

  /** In a cluster of one node, every command that is accepted is committed at once. */
  lemma OneNodeCommits(cfg: Config, steps: seq<Step>, m: nat, i: NodeId, c: Command, w: nat)
    requires ValidConfig(cfg) && |cfg| == 1 && i in cfg && m < |steps| && steps[m] == CommandStep(i, c, w)
    requires i in At(cfg, steps, m).servers && NodeOf(At(cfg, steps, m), i).role == Leader
    requires |LogOf(At(cfg, steps, m), i)| < RAFT_LOG_CAP && w > 0
    ensures i in At(cfg, steps, m + 1).servers
    ensures var (n, n') := (NodeOf(At(cfg, steps, m), i), NodeOf(At(cfg, steps, m + 1), i));
            && n'.pstate.log == n.pstate.log + [Entry(|n.pstate.log| + 1, n.pstate.term, c)]
            && n'.commitIndex == |n'.pstate.log|
  {
    RunPeers(cfg, steps, m, i);
    NoPeers(cfg, i);
    AtNext(cfg, steps, m);
    CommandExact(NodeOf(At(cfg, steps, m), i), c, w);
  }

  lemma RunPeers(cfg: Config, steps: seq<Step>, m: nat, i: NodeId)
    requires ValidConfig(cfg) && i in cfg && m <= |steps|
    ensures i in At(cfg, steps, m).servers && NodeOf(At(cfg, steps, m), i).peers == cfg[i]
  {
    var ps := RunInv(cfg, steps);
    assert HistoryAt(cfg, steps, ps, m, m);
    assert ServerAt(cfg, At(cfg, steps, m), ps[m], i);
  }

  lemma NoPeers(cfg: Config, i: NodeId)
    requires ValidConfig(cfg) && |cfg| == 1 && i in cfg
    ensures cfg[i] == []
  {
    assert |cfg.Keys| == |cfg|;
    assert PeersOk(cfg.Keys, i, cfg[i]);
    PeerCount(cfg[i]);
    assert cfg.Keys == PeerSet(cfg[i]) + {i};
  }

  // ---------- Restoring ----------

  /** Restoring refuses exactly a TRUNCATE of index 0, an ENTRY that does not continue the log, and an ENTRY that does not
      fit; a TRUNCATE beyond the log is without effect. */
  lemma RefusalExact(p: Persistent, r: Record)
    ensures ReplayStep(p, r).Corrupt? <==>
              || r == TruncateRecord(0)
              || (r.EntryRecord? && (r.entry.index != |p.log| + 1 || |p.log| >= RAFT_LOG_CAP))
    ensures r.TruncateRecord? && r.from > |p.log| ==> ReplayStep(p, r).p == p
    ensures ReplayStep(p, r).Restored? ==>
              ReplayStep(p, r).p ==
                match r
                case StateRecord(t, v) => Persistent(t, v, p.log)
                case EntryRecord(e) => Persistent(p.term, p.votedFor, p.log + [e])
                case TruncateRecord(from) => Persistent(p.term, p.votedFor, p.log[..Min(from - 1, |p.log|)])
  {
    assert p.log[..|p.log|] == p.log;
  }
}
