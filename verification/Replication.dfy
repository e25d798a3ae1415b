/** One leader and one follower: when a commit index may be learned, and why repeated and reordered batches are
    harmless. */
module Replication {
  import opened RaftTypes
  import opened RaftNode
  import opened AppendLoops
  import opened Cluster
  import opened Protocol
  import opened ClusterInv
  import opened ReplicaSteps
  import opened Commitment

  // ---------- The commit guard is exact ----------

  /** The entries of a leader of term t that it was elected with. */
  function Before(log: Log, t: Term): Log {
    if log == [] || log[|log| - 1].term < t then log else Before(log[..|log| - 1], t)
  }

  lemma {:induction false} BeforeIsStart(start: Log, log: Log, t: Term)
    requires LedFrom(start, log, t)
    ensures Before(log, t) == start
  {
    if log != start {
      BeforeIsStart(start, log[..|log| - 1], t);
    } else if log != [] {
      assert start[|log| - 1].term < t;
    }
  }

  /** What a vote for the sender tells: its log was then at least as up to date as the voter's, and the voter's log is
      still the same, or the sender has overwritten it since. */
  ghost predicate VoteKnown(ldr: Log, req: AppendRequest, n: Node) {
    VotedForSender(n, req) ==> n.pstate.log <= ldr || UpToDate(Before(ldr, req.term), n.pstate.log)
  }

  /** A log that the sender of req may hold, as far as a follower can tell from its own log, commit index and vote. */
  ghost predicate PossibleLeader(ldr: Log, req: AppendRequest, n: Node) {
    var log := n.pstate.log;
    && WellFormed(ldr) && TermsAtMost(ldr, req.term) && |ldr| <= RAFT_LOG_CAP
    && IsSlice(req, ldr) && req.leaderCommit <= |ldr|
    && SameLeaders(log, ldr) && Carries(log, ldr, n.commitIndex) && VoteKnown(ldr, req, n)
    && (forall k :: 0 <= k < |log| && log[k].term == req.term ==> k < |ldr| && ldr[k].term == req.term)
  }

  /** The commit index that the follower would learn covers only entries of this leader. */
  ghost predicate LearnsFrom(ldr: Log, n: Node, req: AppendRequest, log: Log) {
    Carries(log, ldr, LearnCommit(n.commitIndex, req.leaderCommit, log))
  }

  /** The follower's vote shows that its whole log is the sender's. */
  lemma VoteSuffices(ldr: Log, req: AppendRequest, n: Node)
    requires PossibleLeader(ldr, req, n) && VotedForSender(n, req) && LastTerm(n.pstate.log) + 1 == req.term
    ensures Carries(n.pstate.log, ldr, |n.pstate.log|)
  {
    var log, start := n.pstate.log, Before(ldr, req.term);
    BeforeIsPrefix(ldr, req.term);
    assert start != [] ==> start[|start| - 1] == ldr[|start| - 1];
    assert log != [] && start != [] ==> SharedAt(log, ldr, |log| - 1, |start| - 1);
  }

  lemma {:induction false} BeforeIsPrefix(log: Log, t: Term)
    ensures Before(log, t) <= log && (Before(log, t) != [] ==> LastTerm(Before(log, t)) < t)
  {
    if log != [] && log[|log| - 1].term >= t {
      BeforeIsPrefix(log[..|log| - 1], t);
    }
  }

  lemma GuardSuffices(n: Node, req: AppendRequest, w: nat, ldr: Log)
    requires PossibleLeader(ldr, req, n) && PrevMatches(n.pstate.log, req)
    requires req.leaderCommit > n.commitIndex && LearnsSafely(n, req)
    requires AppendLoop(n.pstate.log, req.prevIndex, req.entries, 0, w).stop == Done
    ensures LearnsFrom(ldr, n, req, AppendLoop(n.pstate.log, req.prevIndex, req.entries, 0, w).log)
  {
    var log := n.pstate.log;
    SameLeadersMatch(log, ldr);
    PrevCarries(log, ldr, req);
    var pos, m, cut := LoopEnds(log, ldr, req, 0, w);
    if LastTerm(log) == req.term && log != [] {
      assert log[|log| - 1].term == ldr[|log| - 1].term && MatchingAt(log, ldr, |log| - 1);
    }
    if VotedForSender(n, req) && LastTerm(log) + 1 == req.term {
      VoteSuffices(ldr, req, n);
      CarriesLess(log, ldr, |log|, Min(req.leaderCommit, |log|));
    }
    ShapeLearns(log, ldr, req, AppendLoop(log, req.prevIndex, req.entries, 0, w), pos, m, cut, n.commitIndex);
  }

  /** How much of its log a follower knows to be the sender's: the batch, and what is committed already. */
  function Shared(n: Node, req: AppendRequest): nat {
    Max(EndIndex(req), n.commitIndex)
  }

  /** The term of the entries that a stranger puts in their place. A sender that the follower voted for must have had a
      log as up to date as the follower's before it led; any other sender may have made them itself. */
  function StrangeTerm(n: Node, req: AppendRequest): Term {
    if VotedForSender(n, req) && req.term > 0 then req.term - 1 else req.term
  }

  /** A leader that shares no more than that with the follower, and has other entries from there on. */
  ghost function Stranger(n: Node, req: AppendRequest): Log
    requires Shared(n, req) <= |n.pstate.log| && Shared(n, req) <= req.leaderCommit
  {
    var m := Shared(n, req);
    n.pstate.log[..m]
      + seq(req.leaderCommit - m, k requires 0 <= k => Entry(m + k + 1, StrangeTerm(n, req), Command(Noop, 0, 0, 0)))
  }

  /** The first m entries of log, and then entries of term s up to len. */
  ghost predicate Departs(other: Log, log: Log, m: nat, len: nat, s: Term) {
    && m <= |log| && m < len == |other| && other[..m] == log[..m]
    && (forall k :: m <= k < len ==> other[k].index == k + 1 && other[k].term == s)
  }

  lemma StrangerDeparts(n: Node, req: AppendRequest)
    requires Shared(n, req) <= |n.pstate.log| && Shared(n, req) < req.leaderCommit
    ensures Departs(Stranger(n, req), n.pstate.log, Shared(n, req), req.leaderCommit, StrangeTerm(n, req))
  {
  }

  lemma DepartsAt(other: Log, log: Log, m: nat, len: nat, s: Term, k: nat)
    requires Departs(other, log, m, len, s) && k < m
    ensures other[k] == log[k]
  {
    assert other[..m][k] == log[..m][k];
  }

  lemma DepartsWellFormed(other: Log, log: Log, m: nat, len: nat, s: Term)
    requires Departs(other, log, m, len, s) && WellFormed(log) && forall k :: 0 <= k < |log| ==> log[k].term < s
    ensures WellFormed(other) && TermsAtMost(other, s)
  {
    forall k | 0 <= k < m ensures other[k] == log[k] {
      DepartsAt(other, log, m, len, s, k);
    }
  }

  lemma DepartsShared(other: Log, log: Log, m: nat, len: nat, s: Term)
    requires Departs(other, log, m, len, s) && forall k :: 0 <= k < |log| ==> log[k].term < s
    ensures SameLeaders(log, other)
  {
    forall j: nat, k: nat ensures SharedAt(log, other, j, k) {
      if j < |log| && k < len && log[j].term == other[k].term {
        assert k < m;
        DepartsCarries(other, log, m, len, s, Min(j, k) + 1);
      }
    }
  }

  lemma DepartsCarries(other: Log, log: Log, m: nat, len: nat, s: Term, c: nat)
    requires Departs(other, log, m, len, s) && c <= m
    ensures Carries(log, other, c)
  {
    assert log[..m][..c] == log[..c] && other[..m][..c] == other[..c];
  }

  lemma DepartsSlice(other: Log, log: Log, m: nat, len: nat, s: Term, ldr: Log, req: AppendRequest)
    requires Departs(other, log, m, len, s) && EndIndex(req) <= m && Carries(log, ldr, EndIndex(req)) && IsSlice(req, ldr)
    ensures IsSlice(req, other)
  {
    var end := EndIndex(req);
    DepartsCarries(other, log, m, len, s, end);
    assert other[..end] == ldr[..end];
    assert other[..end][req.prevIndex..] == other[req.prevIndex..end] && ldr[..end][req.prevIndex..] == ldr[req.prevIndex..end];
    if req.prevIndex > 0 { assert other[..end][req.prevIndex - 1] == ldr[..end][req.prevIndex - 1]; }
  }

  /** All terms of a sorted log lie below s if its last one does. */
  lemma TermsBelow(log: Log, s: Term)
    requires Sorted(log) && LastTerm(log) < s
    ensures forall k :: 0 <= k < |log| ==> log[k].term < s
  {
  }

  lemma StrangerIsPossible(n: Node, req: AppendRequest, ldr: Log)
    requires PossibleLeader(ldr, req, n) && Carries(n.pstate.log, ldr, EndIndex(req))
    requires WellFormed(n.pstate.log) && LastTerm(n.pstate.log) < StrangeTerm(n, req)
    requires Shared(n, req) < req.leaderCommit
    ensures PossibleLeader(Stranger(n, req), req, n)
  {
    StrangerDeparts(n, req);
    DepartingIsPossible(n, req, ldr, Stranger(n, req));
  }

  lemma DepartingIsPossible(n: Node, req: AppendRequest, ldr: Log, other: Log)
    requires PossibleLeader(ldr, req, n) && Carries(n.pstate.log, ldr, EndIndex(req))
    requires WellFormed(n.pstate.log) && LastTerm(n.pstate.log) < StrangeTerm(n, req)
    requires Departs(other, n.pstate.log, Shared(n, req), req.leaderCommit, StrangeTerm(n, req))
    ensures PossibleLeader(other, req, n)
  {
    var log, m, len, s := n.pstate.log, Shared(n, req), req.leaderCommit, StrangeTerm(n, req);
    TermsBelow(log, s);
    DepartsWellFormed(other, log, m, len, s);
    DepartsShared(other, log, m, len, s);
    DepartsCarries(other, log, m, len, s, n.commitIndex);
    DepartsSlice(other, log, m, len, s, ldr, req);
  }

  lemma CutMeansConflict(log: Log, ldr: Log, req: AppendRequest, pos: nat)
    requires IsSlice(req, ldr) && req.prevIndex <= pos < EndIndex(req) && pos < |log| && log[pos].term != ldr[pos].term
    ensures Conflicts(log, req)
  {
    var k := pos - req.prevIndex;
    assert req.entries[k] == ldr[pos] && req.prevIndex + k == pos;
  }

  /** Without the guard the loop leaves the log as it was. */
  lemma UnsafeMeansUnchanged(n: Node, req: AppendRequest, w: nat, ldr: Log)
    requires PossibleLeader(ldr, req, n) && PrevMatches(n.pstate.log, req) && !LearnsSafely(n, req)
    requires AppendLoop(n.pstate.log, req.prevIndex, req.entries, 0, w).stop == Done
    ensures AppendLoop(n.pstate.log, req.prevIndex, req.entries, 0, w).log == n.pstate.log
    ensures Carries(n.pstate.log, ldr, EndIndex(req))
  {
    var log := n.pstate.log;
    SameLeadersMatch(log, ldr);
    PrevCarries(log, ldr, req);
    var pos, m, cut := LoopEnds(log, ldr, req, 0, w);
    if cut {
      CutMeansConflict(log, ldr, req, pos);
    }
  }

  /** Without the guard the stranger is a possible leader whose entries the follower does not hold. */
  lemma StrangerRefutes(n: Node, req: AppendRequest, ldr: Log)
    requires PossibleLeader(ldr, req, n) && Carries(n.pstate.log, ldr, EndIndex(req))
    requires WellFormed(n.pstate.log) && TermsAtMost(n.pstate.log, n.pstate.term) && Accepts(n, req)
    requires !LearnsSafely(n, req)
    ensures Shared(n, req) < |n.pstate.log| && Shared(n, req) < req.leaderCommit
    ensures PossibleLeader(Stranger(n, req), req, n)
    ensures !LearnsFrom(Stranger(n, req), n, req, n.pstate.log)
  {
    var log, m := n.pstate.log, Shared(n, req);
    StrangerIsPossible(n, req, ldr);
    StrangerDeparts(n, req);
    TermsBelow(log, StrangeTerm(n, req));
    var other, c := Stranger(n, req), LearnCommit(n.commitIndex, req.leaderCommit, log);
    assert log[m].term < other[m].term && m < c;
    if Carries(log, other, c) { CarriesAt(log, other, c); }
  }

  /** Learning a commit index is safe exactly under the guard: the entries it covers are the sender's, whatever
      log the sender may hold, if and only if the guard holds. */
  lemma CommitGuardExact(n: Node, req: AppendRequest, w: nat, ldr: Log)
    requires PossibleLeader(ldr, req, n)
    requires WellFormed(n.pstate.log) && TermsAtMost(n.pstate.log, n.pstate.term) && Accepts(n, req)
    requires AppendLoop(n.pstate.log, req.prevIndex, req.entries, 0, w).stop == Done
    ensures LearnsSafely(n, req) <==>
              forall other :: PossibleLeader(other, req, n) ==>
                LearnsFrom(other, n, req, AppendLoop(n.pstate.log, req.prevIndex, req.entries, 0, w).log)
  {
    if LearnsSafely(n, req) {
      forall other | PossibleLeader(other, req, n)
        ensures LearnsFrom(other, n, req, AppendLoop(n.pstate.log, req.prevIndex, req.entries, 0, w).log)
      {
        if req.leaderCommit > n.commitIndex {
          GuardSuffices(n, req, w, other);
        } else {
          SameLeadersMatch(n.pstate.log, other);
          BatchKeeps(n.pstate.log, other, req, w, n.commitIndex);
        }
      }
    } else {
      UnsafeMeansUnchanged(n, req, w, ldr);
      StrangerRefutes(n, req, ldr);
    }
  }

  lemma OwnTermEntries(ids: set<NodeId>, p: Proto, i: NodeId, t: Term, k: nat)
    requires ProtoInv(ids, p) && i in ids && t in p.tlog && k < |p.log[i]| && p.log[i][k].term == t
    ensures k < |p.tlog[t]| && p.tlog[t][k].term == t
  {
    assert NodeOk(ids, p, i);
    assert OwnedPrefix(p.tlog, p.log[i], k);
    assert p.log[i][..k + 1][k] == p.tlog[t][..k + 1][k];
  }

  lemma ServerShares(ids: set<NodeId>, p: Proto, i: NodeId, t: Term)
    requires ProtoInv(ids, p) && i in ids && t in p.tlog
    ensures SameLeaders(p.log[i], p.tlog[t])
  {
    var a, b := p.log[i], p.tlog[t];
    assert NodeOk(ids, p, i) && LeaderOk(ids, p, t);
    forall j: nat, k: nat ensures SharedAt(a, b, j, k) {
      if j < |a| && k < |b| && a[j].term == b[k].term { LogsShare(p.tlog, a, b, j, k); }
    }
  }

  lemma LogsShare(tlog: map<Term, Log>, a: Log, b: Log, j: nat, k: nat)
    requires FromLeaders(tlog, a) && FromLeaders(tlog, b) && j < |a| && k < |b| && a[j].term == b[k].term
    ensures Carries(a, b, Min(j, k) + 1)
  {
    assert OwnedPrefix(tlog, a, j) && OwnedPrefix(tlog, b, k);
    var l, m := tlog[a[j].term], Min(j, k) + 1;
    assert a[..j + 1][..m] == a[..m] && b[..k + 1][..m] == b[..m];
    assert l[..j + 1][..m] == l[..m] == l[..k + 1][..m];
  }

  /** In a safe run the sender of any request in flight is such a leader for a receiver that accepts the request: in
      particular it holds everything that the receiver has committed. */
  lemma SenderIsPossible(cfg: Config, steps: seq<Step>, pkt: Packet) returns (ldr: Log)
    requires ValidConfig(cfg) && SafeRun(cfg, steps) && pkt in Run(cfg, steps).net && pkt.body.AppendReq?
    ensures pkt.dst in Run(cfg, steps).servers
    ensures var n := Run(cfg, steps).servers[pkt.dst].node;
            Accepts(n, pkt.body.areq) ==> PossibleLeader(ldr, pkt.body.areq, n)
  {
    var p := SafeRunInv(cfg, steps);
    var s, ids, req, i := Run(cfg, steps), cfg.Keys, pkt.body.areq, pkt.dst;
    assert PacketAt(ids, s.net, pkt, p) && ServerAt(cfg, s, p, i) && LeaderCommitAt(cfg, s, p, pkt);
    assert LeaderOk(ids, p, req.term) && CommitsAt(cfg, s, p, i);
    ldr := p.tlog[req.term];
    var n := s.servers[i].node;
    if Accepts(n, req) {
      ServerShares(ids, p, i, req.term);
      BeforeIsStart(p.campaign[(pkt.src, req.term)], ldr, req.term);
      CommittedIsCarried(ids, p, n.pstate.term, n.pstate.log[..n.commitIndex], req.term);
      assert n.pstate.log[..n.commitIndex][..n.commitIndex] == n.pstate.log[..n.commitIndex];
      forall k | 0 <= k < |n.pstate.log| && n.pstate.log[k].term == req.term
        ensures k < |ldr| && ldr[k].term == req.term
      {
        OwnTermEntries(ids, p, i, req.term, k);
      }
    }
  }

  // ---------- Repeated and reordered batches ----------

  /** Any batch of the leader, handled to its end or cut short by a failing write, leaves alone what the
      follower already shares with the leader, and leaves the two logs matching. */
  lemma BatchKeeps(log: Log, ldr: Log, req: AppendRequest, w: nat, c: nat)
    requires Numbered(ldr) && |ldr| <= RAFT_LOG_CAP && IsSlice(req, ldr) && Matching(log, ldr) && PrevMatches(log, req)
    requires Carries(log, ldr, c)
    ensures var r := AppendLoop(log, req.prevIndex, req.entries, 0, w);
            && r.stop != Rejected
            && Carries(r.log, ldr, c) && Matching(r.log, ldr)
            && (r.stop == Done ==> Carries(r.log, ldr, EndIndex(req)))
  {
    PrevCarries(log, ldr, req);
    var pos, m, cut := LoopEnds(log, ldr, req, 0, w);
    var r := AppendLoop(log, req.prevIndex, req.entries, 0, w);
    ShapeKeeps(log, ldr, r, pos, m, cut, EndIndex(req), c);
    if cut || pos < m {
      forall k: nat ensures MatchingAt(r.log, ldr, k) { }
    }
  }

  /** A batch whose entries the log already holds changes nothing and writes nothing. */
  lemma {:induction false} HeldBatchIsNoop(log: Log, ldr: Log, req: AppendRequest, k: nat, w: nat)
    requires Numbered(ldr) && IsSlice(req, ldr) && Carries(log, ldr, EndIndex(req)) && k <= |req.entries|
    ensures AppendLoop(log, req.prevIndex, req.entries, k, w) == LoopResult(log, [], Done)
    decreases |req.entries| - k
  {
    if k < |req.entries| {
      CarriesAt(log, ldr, EndIndex(req));
      assert req.entries[k] == ldr[req.prevIndex + k];
      HeldBatchIsNoop(log, ldr, req, k + 1, w);
    }
  }

  /** The same node as before, as far as requests of its current leader are concerned. */
  ghost predicate Follows(n: Node, t: Term, ldr: Log) {
    n.pstate.term == t && Numbered(ldr) && |ldr| <= RAFT_LOG_CAP && Matching(n.pstate.log, ldr)
  }

  ghost predicate FromLeader(req: AppendRequest, t: Term, ldr: Log) {
    req.term == t && IsSlice(req, ldr)
  }

  /** One request of the current leader: what was shared stays shared, and success confirms the whole batch. */
  lemma RequestKeeps(n: Node, t: Term, ldr: Log, req: AppendRequest, w: nat, c: nat)
    requires Follows(n, t, ldr) && FromLeader(req, t, ldr) && Carries(n.pstate.log, ldr, c)
    ensures var (o, resp) := HandleAppendRequest(n, req, w);
            && Follows(o.node, t, ldr) && Carries(o.node.pstate.log, ldr, c)
            && (resp.success ==> resp.matchIndex == EndIndex(req) && Carries(o.node.pstate.log, ldr, EndIndex(req)))
  {
    if PrevMatches(n.pstate.log, req) {
      BatchKeeps(n.pstate.log, ldr, req, w, c);
    }
  }

  /** Repeating an accepted request leaves the log and the log file unchanged. */
  lemma RepeatIsHarmless(n: Node, t: Term, ldr: Log, req: AppendRequest, w: nat, w2: nat)
    requires Follows(n, t, ldr) && FromLeader(req, t, ldr) && HandleAppendRequest(n, req, w).1.success
    ensures var o := HandleAppendRequest(n, req, w).0;
            var (o2, resp2) := HandleAppendRequest(o.node, req, w2);
            o2.node.pstate == o.node.pstate && o2.writes == [] && resp2 == HandleAppendRequest(n, req, w).1
  {
    var o := HandleAppendRequest(n, req, w).0;
    RequestKeeps(n, t, ldr, req, w, 0);
    var log := o.node.pstate.log;
    assert PrevMatches(log, req) by { CarriesAt(log, ldr, EndIndex(req)); }
    HeldBatchIsNoop(log, ldr, req, 0, w2);
  }

  /** Request k of the list takes the follower from trace[k] to trace[k + 1]. */
  ghost predicate HandlesAt(trace: seq<Node>, reqs: seq<AppendRequest>, ws: seq<nat>, k: nat)
    requires |trace| == |reqs| + 1 && |ws| == |reqs|
  {
    k < |reqs| ==> trace[k + 1] == HandleAppendRequest(trace[k], reqs[k], ws[k]).0.node
  }

  /** A follower handles a list of requests of one leader, each with its own write budget. */
  ghost predicate Handles(trace: seq<Node>, reqs: seq<AppendRequest>, ws: seq<nat>, t: Term, ldr: Log) {
    && |trace| == |reqs| + 1 && |ws| == |reqs| && Follows(trace[0], t, ldr)
    && (forall k: nat :: HandlesAt(trace, reqs, ws, k))
    && (forall k :: 0 <= k < |reqs| ==> FromLeader(reqs[k], t, ldr))
  }

  lemma {:induction false} KeepsFollowing(trace: seq<Node>, reqs: seq<AppendRequest>, ws: seq<nat>, t: Term, ldr: Log, k: nat)
    requires Handles(trace, reqs, ws, t, ldr) && k <= |reqs|
    ensures Follows(trace[k], t, ldr)
    decreases k
  {
    if k > 0 {
      KeepsFollowing(trace, reqs, ws, t, ldr, k - 1);
      assert HandlesAt(trace, reqs, ws, k - 1);
      RequestKeeps(trace[k - 1], t, ldr, reqs[k - 1], ws[k - 1], 0);
    }
  }

  /** Old, repeated and reordered batches are harmless: whatever batches of one leader's growing log a follower
      handles, in whatever order and however often, every entry that an accepted one confirmed stays. */
  lemma {:induction false} ConfirmedEntriesStay(trace: seq<Node>, reqs: seq<AppendRequest>, ws: seq<nat>, t: Term, ldr: Log,
                                                j: nat, k: nat)
    requires Handles(trace, reqs, ws, t, ldr) && j < k <= |reqs|
    requires HandleAppendRequest(trace[j], reqs[j], ws[j]).1.success
    ensures Carries(trace[k].pstate.log, ldr, EndIndex(reqs[j]))
    decreases k
  {
    var i := k - 1;
    KeepsFollowing(trace, reqs, ws, t, ldr, i);
    assert HandlesAt(trace, reqs, ws, i);
    if j == i {
      RequestKeeps(trace[i], t, ldr, reqs[i], ws[i], 0);
    } else {
      ConfirmedEntriesStay(trace, reqs, ws, t, ldr, j, i);
      RequestKeeps(trace[i], t, ldr, reqs[i], ws[i], EndIndex(reqs[j]));
    }
  }

  // ---------- Requests of a leader at most one batch ahead ----------

  /** A leader whose peer is at most one batch behind sends the rest of its log, so the commit index that goes
      with it is confirmed by the request itself. */
  lemma OneBatchBehindIsSafe(l: Node, k: nat, n: Node)
    requires |l.lstate.next| == |l.peers| && l.role == Leader && k < |l.peers|
    requires 1 <= l.lstate.next[k] <= |l.pstate.log| + 1
    requires |l.pstate.log| < l.lstate.next[k] + RAFT_APPEND_BATCH && l.commitIndex <= |l.pstate.log|
    ensures EndIndex(BuildAppend(l, k).value) == |l.pstate.log| && LearnsSafely(n, BuildAppend(l, k).value)
  {
  }
}
