/** A leader and a lagging follower that exchange one request and one reply after another. */
module CatchUp {
  import opened RaftTypes
  import opened RaftNode
  import opened AppendLoops
  import opened Replication

  datatype Pair = Pair(leader: Node, follower: Node)

  /** The leader tracks the follower in slot k, the follower's term is no higher, and their logs match. */
  ghost predicate InStep(x: Pair, k: nat) {
    var l, f := x.leader, x.follower;
    && l.role == Leader && k < |l.peers| && |l.lstate.next| == |l.lstate.matched| == |l.peers|
    && FindPeer(l.peers, f.id) == Some(k)
    && 1 <= l.lstate.next[k] <= |l.pstate.log| + 1
    && Numbered(l.pstate.log) && |l.pstate.log| <= RAFT_LOG_CAP
    && f.pstate.term <= l.pstate.term && Matching(f.pstate.log, l.pstate.log)
  }

  ghost function Request(x: Pair, k: nat): AppendRequest
    requires InStep(x, k)
  {
    BuildAppend(x.leader, k).value
  }

  /** raft_append_entries, HandleAppendEntriesRequest, HandleAppendEntriesResponse; no write fails. */
  ghost function Round(x: Pair, k: nat, w: nat): (Pair, bool)
    requires InStep(x, k)
  {
    var (o, resp) := HandleAppendRequest(x.follower, Request(x, k), w);
    (Pair(HandleAppendResponse(x.leader, resp, x.follower.id, w).node, o.node), resp.success)
  }

  /** One STATE record, one TRUNCATE record and a batch of ENTRY records fit. */
  ghost predicate Enough(w: nat) {
    w > RAFT_APPEND_BATCH + 2
  }

  lemma RequestIsSlice(x: Pair, k: nat)
    requires InStep(x, k)
    ensures IsSlice(Request(x, k), x.leader.pstate.log) && Request(x, k).term == x.leader.pstate.term
    ensures Request(x, k).prevIndex == x.leader.lstate.next[k] - 1
  {
  }

  /** The batch reaches the end of the leader's log or is full. */
  lemma RequestReach(x: Pair, k: nat)
    requires InStep(x, k)
    ensures EndIndex(Request(x, k)) == |x.leader.pstate.log|
         || EndIndex(Request(x, k)) == x.leader.lstate.next[k] - 1 + RAFT_APPEND_BATCH
  {
  }

  /** The batch itself, handled by a follower that is in the leader's term and whose writes succeed. */
  lemma FollowBatch(n: Node, ldr: Log, req: AppendRequest, w: nat)
    requires n.pstate.term == req.term && Numbered(ldr) && |ldr| <= RAFT_LOG_CAP && w > RAFT_APPEND_BATCH + 1
    requires IsSlice(req, ldr) && Matching(n.pstate.log, ldr)
    ensures var (o, resp) := FollowLeader(n, req, w);
            BatchAnswered(n, ldr, req, o.failed, o.node, resp)
  {
    var log := n.pstate.log;
    if PrevMatches(log, req) {
      BatchKeeps(log, ldr, req, w, 0);
      BatchFits(log, ldr, req, w);
    }
  }

  lemma BatchFits(log: Log, ldr: Log, req: AppendRequest, w: nat)
    requires Numbered(ldr) && |ldr| <= RAFT_LOG_CAP && w > RAFT_APPEND_BATCH + 1
    requires IsSlice(req, ldr) && Matching(log, ldr) && PrevMatches(log, req)
    ensures AppendLoop(log, req.prevIndex, req.entries, 0, w).stop != WriteFailed
  {
    LoopBudget(log, req.prevIndex, req.entries, 0, w);
    PrevCarries(log, ldr, req);
    var pos, m, cut := LoopEnds(log, ldr, req, 0, w);
  }

  /** Catching up with the leader's term first changes neither id nor log, and costs at most one write. */
  lemma TermCatchesUp(n: Node, req: AppendRequest, w: nat)
    requires n.pstate.term <= req.term && w > 0
    ensures var up := UpdateTerm(n, req.term, w);
            && !up.failed && |up.writes| <= 1 && up.node.id == n.id
            && up.node.pstate.term == req.term && up.node.pstate.log == n.pstate.log
            && var (a, b) := (HandleAppendRequest(n, req, w), FollowLeader(up.node, req, w - |up.writes|));
               a.0.failed == b.0.failed && a.0.node == b.0.node && a.1 == b.1
  {
  }

  /** How a follower answers a batch of ldr: on success it holds the batch, otherwise its log is as it was. */
  ghost predicate BatchAnswered(n: Node, ldr: Log, req: AppendRequest, failed: bool, n': Node, resp: AppendResponse) {
    && !failed && n'.id == n.id && n'.pstate.term == req.term && Matching(n'.pstate.log, ldr)
    && resp.term == req.term && resp.success == PrevMatches(n.pstate.log, req)
    && (resp.success ==> resp.matchIndex == EndIndex(req) && Carries(n'.pstate.log, ldr, resp.matchIndex))
    && (!resp.success ==> n'.pstate.log == n.pstate.log)
  }

  /** The follower's side of a round. */
  lemma FollowerRound(x: Pair, k: nat, w: nat)
    requires InStep(x, k) && Enough(w)
    ensures var (o, resp) := HandleAppendRequest(x.follower, Request(x, k), w);
            BatchAnswered(x.follower, x.leader.pstate.log, Request(x, k), o.failed, o.node, resp)
  {
    RequestIsSlice(x, k);
    BatchRound(x.follower, x.leader.pstate.log, Request(x, k), w);
  }

  lemma BatchRound(n: Node, ldr: Log, req: AppendRequest, w: nat)
    requires n.pstate.term <= req.term && Numbered(ldr) && |ldr| <= RAFT_LOG_CAP && Enough(w)
    requires IsSlice(req, ldr) && Matching(n.pstate.log, ldr)
    ensures var (o, resp) := HandleAppendRequest(n, req, w);
            BatchAnswered(n, ldr, req, o.failed, o.node, resp)
  {
    TermCatchesUp(n, req, w);
    var up := UpdateTerm(n, req.term, w);
    FollowBatch(up.node, ldr, req, w - |up.writes|);
  }

  /** The leader's side of a round: only its trackers and its commit index move. */
  lemma LeaderRound(x: Pair, k: nat, resp: AppendResponse, w: nat)
    requires InStep(x, k) && resp.term == x.leader.pstate.term && (resp.success ==> resp.matchIndex <= |x.leader.pstate.log|)
    ensures var l, l' := x.leader, HandleAppendResponse(x.leader, resp, x.follower.id, w).node;
            && l'.role == Leader && l'.peers == l.peers && l'.pstate == l.pstate
            && |l'.lstate.next| == |l'.lstate.matched| == |l'.peers|
            && l'.lstate.next[k] ==
                 if resp.success then (if l.lstate.next[k] < resp.matchIndex then resp.matchIndex + 1 else l.lstate.next[k])
                 else (if l.lstate.next[k] > 1 then l.lstate.next[k] - 1 else l.lstate.next[k])
  {
  }

  /** A round in which the consistency check fails only moves the next index back by one. */
  lemma RejectedRound(x: Pair, k: nat, w: nat)
    requires InStep(x, k) && Enough(w) && !PrevMatches(x.follower.pstate.log, Request(x, k))
    ensures var (y, ok) := Round(x, k, w);
            && !ok && InStep(y, k) && y.leader.pstate == x.leader.pstate
            && y.follower.pstate.log == x.follower.pstate.log
            && x.leader.lstate.next[k] > 1 && y.leader.lstate.next[k] == x.leader.lstate.next[k] - 1
  {
    FollowerRound(x, k, w);
    LeaderRound(x, k, HandleAppendRequest(x.follower, Request(x, k), w).1, w);
  }

  /** A round in which the check passes ends the catch-up, or moves the next index on by a whole batch. */
  lemma AcceptedRound(x: Pair, k: nat, w: nat)
    requires InStep(x, k) && Enough(w) && PrevMatches(x.follower.pstate.log, Request(x, k))
    ensures var (y, ok) := Round(x, k, w);
            && ok && InStep(y, k) && y.leader.pstate == x.leader.pstate
            && var next, len := x.leader.lstate.next[k], |x.leader.pstate.log|;
               if len < next + RAFT_APPEND_BATCH
               then Carries(y.follower.pstate.log, x.leader.pstate.log, len) && y.leader.lstate.next[k] >= len
               else y.leader.lstate.next[k] == next + RAFT_APPEND_BATCH && PrevMatches(y.follower.pstate.log, Request(y, k))
  {
    var ldr := x.leader.pstate.log;
    FollowerRound(x, k, w);
    RequestIsSlice(x, k);
    RequestReach(x, k);
    LeaderRound(x, k, HandleAppendRequest(x.follower, Request(x, k), w).1, w);
    var y := Round(x, k, w).0;
    RequestIsSlice(y, k);
    CarriesAt(y.follower.pstate.log, ldr, EndIndex(Request(x, k)));
  }

  // ---------- Many rounds ----------

  ghost predicate CaughtUp(x: Pair) {
    Carries(x.follower.pstate.log, x.leader.pstate.log, |x.leader.pstate.log|)
  }

  /** Round j takes trace[j] to trace[j + 1], and is accepted exactly from round r on. */
  ghost predicate RoundAt(trace: seq<Pair>, k: nat, w: nat, r: nat, j: nat) {
    j + 1 < |trace| ==> InStep(trace[j], k) && Round(trace[j], k, w) == (trace[j + 1], j >= r)
  }

  ghost predicate Exchange(trace: seq<Pair>, k: nat, w: nat, r: nat) {
    trace != [] && forall j: nat :: RoundAt(trace, k, w, r, j)
  }

  function Batches(len: nat): nat {
    if len <= RAFT_APPEND_BATCH then 1 else 1 + Batches(len - RAFT_APPEND_BATCH)
  }

  lemma {:induction false} BatchesIsCeiling(len: nat)
    ensures Batches(len) == if len == 0 then 1 else (len + RAFT_APPEND_BATCH - 1) / RAFT_APPEND_BATCH
  {
    if len > RAFT_APPEND_BATCH {
      BatchesIsCeiling(len - RAFT_APPEND_BATCH);
    }
  }

  lemma {:induction false} BatchesMonotone(a: nat, b: nat)
    requires a <= b
    ensures Batches(a) <= Batches(b)
  {
    if a > RAFT_APPEND_BATCH {
      BatchesMonotone(a - RAFT_APPEND_BATCH, b - RAFT_APPEND_BATCH);
    }
  }

  lemma PrependAt(x: Pair, trace: seq<Pair>, k: nat, w: nat, r: nat, r': nat, j: nat)
    requires Exchange(trace, k, w, r) && Exchange([x, trace[0]], k, w, r') && (r' == r + 1 || r' == r == 0)
    ensures RoundAt([x] + trace, k, w, r', j)
  {
    var t := [x] + trace;
    if j == 0 {
      assert RoundAt([x, trace[0]], k, w, r', 0);
    } else if j + 1 < |t| {
      assert RoundAt(trace, k, w, r, j - 1);
      assert t[j] == trace[j - 1] && t[j + 1] == trace[j];
    }
  }

  lemma Prepend(x: Pair, trace: seq<Pair>, k: nat, w: nat, r: nat, r': nat)
    requires Exchange(trace, k, w, r) && Exchange([x, trace[0]], k, w, r') && (r' == r + 1 || r' == r == 0)
    ensures Exchange([x] + trace, k, w, r')
  {
    forall j: nat ensures RoundAt([x] + trace, k, w, r', j) {
      PrependAt(x, trace, k, w, r, r', j);
    }
  }

  lemma OneRound(x: Pair, k: nat, w: nat, r: nat)
    requires InStep(x, k) && Round(x, k, w).1 == (r == 0)
    ensures Exchange([x, Round(x, k, w).0], k, w, r)
  {
    forall j: nat ensures RoundAt([x, Round(x, k, w).0], k, w, r, j) { }
  }

  /** Entries that the leader has not yet sent in this exchange. */
  ghost function Unsent(x: Pair, k: nat): nat
    requires InStep(x, k)
  {
    |x.leader.pstate.log| + 1 - x.leader.lstate.next[k]
  }

  /** An exchange that starts at x, with r rejected rounds first, and ends with the leader's log copied and at
      most one entry of it to send again. */
  ghost predicate CatchesUp(x: Pair, trace: seq<Pair>, k: nat, w: nat, r: nat) {
    && Exchange(trace, k, w, r) && trace[0] == x
    && var y := trace[|trace| - 1];
       CaughtUp(y) && InStep(y, k) && Unsent(y, k) <= 1 && y.leader.pstate == x.leader.pstate
  }

  /** Nothing is left to do. */
  lemma NoRounds(x: Pair, k: nat, w: nat)
    requires CaughtUp(x) && InStep(x, k) && Unsent(x, k) <= 1
    ensures CatchesUp(x, [x], k, w, 0)
  {
    forall j: nat ensures RoundAt([x], k, w, 0, j) { }
  }

  lemma OneMoreRound(x: Pair, y: Pair, trace: seq<Pair>, k: nat, w: nat, r: nat, r': nat)
    requires CatchesUp(y, trace, k, w, r) && Exchange([x, y], k, w, r') && (r' == r + 1 || r' == r == 0)
    requires y.leader.pstate == x.leader.pstate
    ensures CatchesUp(x, [x] + trace, k, w, r')
  {
    Prepend(x, trace, k, w, r, r');
    assert ([x] + trace)[|trace|] == trace[|trace| - 1];
  }

  /** An accepted round ends the exchange or leaves a whole batch less to send. */
  lemma Progress(x: Pair, k: nat, w: nat) returns (y: Pair)
    requires InStep(x, k) && Enough(w) && PrevMatches(x.follower.pstate.log, Request(x, k))
    ensures Exchange([x, y], k, w, 0) && y.leader.pstate == x.leader.pstate && InStep(y, k)
    ensures if Unsent(x, k) <= RAFT_APPEND_BATCH then CaughtUp(y) && Unsent(y, k) <= 1
            else Unsent(y, k) == Unsent(x, k) - RAFT_APPEND_BATCH && PrevMatches(y.follower.pstate.log, Request(y, k))
  {
    y := Round(x, k, w).0;
    AcceptedRound(x, k, w);
    OneRound(x, k, w, 0);
  }

  lemma {:induction false} AcceptedRounds(x: Pair, k: nat, w: nat) returns (trace: seq<Pair>)
    requires InStep(x, k) && Enough(w) && PrevMatches(x.follower.pstate.log, Request(x, k))
    ensures CatchesUp(x, trace, k, w, 0)
    ensures 1 <= |trace| - 1 <= Batches(Unsent(x, k))
    decreases Unsent(x, k)
  {
    var y := Progress(x, k, w);
    if Unsent(x, k) <= RAFT_APPEND_BATCH {
      NoRounds(y, k, w);
      trace := [y];
    } else {
      trace := AcceptedRounds(y, k, w);
    }
    OneMoreRound(x, y, trace, k, w, 0, 0);
    trace := [x] + trace;
  }

  /** A rejected round moves the next index back by one and changes no log. */
  lemma Retreat(x: Pair, k: nat, w: nat) returns (y: Pair)
    requires InStep(x, k) && Enough(w) && !PrevMatches(x.follower.pstate.log, Request(x, k))
    ensures (forall r: nat :: r > 0 ==> Exchange([x, y], k, w, r)) && y.leader.pstate == x.leader.pstate && InStep(y, k)
    ensures y.leader.lstate.next[k] == x.leader.lstate.next[k] - 1
  {
    y := Round(x, k, w).0;
    RejectedRound(x, k, w);
    forall r: nat | r > 0 ensures Exchange([x, y], k, w, r) {
      OneRound(x, k, w, r);
    }
  }

  /** Catch-up terminates: with no other traffic, at most next - 1 rejected and then at most
      max(1, ceil(length / 64)) accepted rounds make the leader's log a prefix of the follower's. */
  lemma {:induction false} CatchUpTerminates(x: Pair, k: nat, w: nat) returns (trace: seq<Pair>, r: nat)
    requires InStep(x, k) && Enough(w)
    ensures CatchesUp(x, trace, k, w, r)
    ensures r <= x.leader.lstate.next[k] - 1
    ensures r < |trace| - 1 <= r + Batches(|x.leader.pstate.log|)
    decreases x.leader.lstate.next[k]
  {
    if PrevMatches(x.follower.pstate.log, Request(x, k)) {
      r := 0;
      trace := AcceptedRounds(x, k, w);
      BatchesMonotone(Unsent(x, k), |x.leader.pstate.log|);
    } else {
      var y := Retreat(x, k, w);
      trace, r := CatchUpTerminates(y, k, w);
      OneMoreRound(x, y, trace, k, w, r, r + 1);
      trace, r := [x] + trace, r + 1;
    }
  }
}
