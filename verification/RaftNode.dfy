/** What each handler of raft.c does to one node, as a function of the node and its input.

    Every handler takes `w`, the number of record writes that still succeed; the write after that fails,
    as dprintf or fdatasync would report it. An outcome lists the records written and says whether a write
    failed on the way. */
module RaftNode {
  import opened RaftTypes

  datatype Outcome = Outcome(node: Node, writes: seq<Record>, failed: bool)

  // ---------- Small helpers ----------

  function Falses(n: nat): (r: seq<bool>) {
    seq(n, _ => false)
  }

  function Fill(n: nat, x: Index): (r: seq<Index>) {
    seq(n, _ => x)
  }

  function CountTrue(flags: seq<bool>): nat {
    if flags == [] then 0 else CountTrue(flags[..|flags| - 1]) + if flags[|flags| - 1] then 1 else 0
  }

  function AtLeast(xs: seq<Index>, n: Index): (r: seq<bool>) {
    seq(|xs|, k requires 0 <= k < |xs| => xs[k] >= n)
  }

  /** The slots with a raised flag. */
  ghost function Slots(flags: seq<bool>): set<nat> {
    set k: nat | k < |flags| && flags[k]
  }

  lemma {:induction false} SlotsCount(flags: seq<bool>)
    ensures |Slots(flags)| == CountTrue(flags)
  {
    if flags != [] {
      var m := |flags| - 1;
      SlotsCount(flags[..m]);
      assert Slots(flags) == Slots(flags[..m]) + if flags[m] then {m} else {};
    }
  }

  /** The peers in these slots and the node itself are more than half of the cluster. */
  ghost predicate MostOf(slots: set<nat>, peers: nat) {
    2 * (|slots| + 1) > peers + 1
  }

  /** The slots of the peers that have acknowledged index k, as far as the leader has recorded it. */
  ghost function MatchingSlots(matched: seq<Index>, k: Index): set<nat> {
    set j: nat | j < |matched| && matched[j] >= k
  }

  /** Counting flags against the majority is asking for more than half. */
  lemma CountIsMost(flags: seq<bool>, peers: nat)
    ensures 1 + CountTrue(flags) >= Majority(peers + 1) <==> MostOf(Slots(flags), peers)
  {
    SlotsCount(flags);
    MajorityExact(1 + CountTrue(flags), peers + 1);
  }

  lemma MatchingIsMost(matched: seq<Index>, k: Index, peers: nat)
    ensures 1 + CountTrue(AtLeast(matched, k)) >= Majority(peers + 1) <==> MostOf(MatchingSlots(matched, k), peers)
  {
    CountIsMost(AtLeast(matched, k), peers);
    assert Slots(AtLeast(matched, k)) == MatchingSlots(matched, k);
  }

  /** find_peer_idx: the last slot that holds the id. */
  function FindPeer(peers: seq<NodeId>, id: NodeId): (r: Option<nat>)
    ensures r.Some? ==> r.value < |peers| && peers[r.value] == id
    ensures r.None? ==> id !in peers
  {
    if peers == [] then None
    else if peers[|peers| - 1] == id then Some(|peers| - 1)
    else FindPeer(peers[..|peers| - 1], id)
  }

  // ---------- Role changes ----------

  function Cleared(n: nat): CandidateState {
    CandidateState(0, Falses(n), Falses(n))
  }

  function ClearedLeader(n: nat): LeaderState {
    LeaderState(Fill(n, 0), Fill(n, 0))
  }

  /** initialise_raft_sm, given what the log file restored. */
  function InitNode(id: NodeId, peers: seq<NodeId>, p: Persistent): Node {
    Node(Follower, id, RAFT_NONE, peers, p, 0, 0, Cleared(|peers|), ClearedLeader(|peers|))
  }

  /** raft_init_leader_state. */
  function InitLeader(n: Node): Node {
    n.(role := Leader, leaderId := n.id,
       lstate := LeaderState(Fill(|n.peers|, |n.pstate.log| + 1), Fill(|n.peers|, 0)))
  }

  /** update_term_locked. */
  function UpdateTerm(n: Node, t: Term, w: nat): (o: Outcome)
    ensures |o.writes| <= w
  {
    if t <= n.pstate.term then
      Outcome(n, [], false)
    else
      var n1 := n.(role := if n.role == Failed then Failed else Follower,
                   leaderId := RAFT_NONE,
                   pstate := n.pstate.(term := t, votedFor := RAFT_NONE));
      if w == 0 then
        Outcome(n1.(role := Failed), [], true)
      else
        Outcome(n1.(cstate := Cleared(|n.peers|), lstate := ClearedLeader(|n.peers|)),
                [StateRecord(t, RAFT_NONE)], false)
  }

  /** raft_timeout once the election timer has expired; the request is for as many peers as fit. */
  function Timeout(n: Node, w: nat): (Outcome, Option<VoteRequest>) {
    if n.role == Failed || n.role == Leader then
      (Outcome(n, [], false), None)
    else
      var t := n.pstate.term + 1;
      var n1 := n.(leaderId := RAFT_NONE, role := Candidate, pstate := n.pstate.(term := t, votedFor := n.id));
      if w == 0 then
        (Outcome(n1, [], true), None)
      else
        var n2 := n1.(cstate := CandidateState(t, Falses(|n.peers|), Falses(|n.peers|)));
        var writes := [StateRecord(t, n.id)];
        if Majority(|n.peers| + 1) == 1 then
          (Outcome(InitLeader(n2), writes, false), None)
        else
          (Outcome(n2, writes, false),
           Some(VoteRequest(t, |n.pstate.log|, LastTerm(n.pstate.log), n.id)))
  }

  // ---------- Votes ----------

  predicate MayVote(n: Node, req: VoteRequest) {
    && (n.pstate.votedFor == RAFT_NONE || n.pstate.votedFor == req.candidateId)
    && CheckLog(req.lastIndex, req.lastTerm, |n.pstate.log|, LastTerm(n.pstate.log))
  }

  /** HandleRequestVoteRequest; the response carries the term held before any update. */
  function HandleVoteRequest(n: Node, req: VoteRequest, w: nat): (Outcome, VoteResponse) {
    var no := VoteResponse(n.pstate.term, false);
    var up := UpdateTerm(n, req.term, w);
    var n1 := up.node;
    if req.term < n1.pstate.term || n1.role == Leader || !MayVote(n1, req) then
      (up, no)
    else
      var n2 := n1.(pstate := n1.pstate.(votedFor := req.candidateId));
      if w <= |up.writes| then
        (Outcome(n2.(role := Failed), up.writes, true), no)
      else
        (Outcome(n2, up.writes + [StateRecord(n2.pstate.term, n2.pstate.votedFor)], false),
         VoteResponse(n.pstate.term, true))
  }

  /** HandleRequestVoteResponse. */
  function HandleVoteResponse(n: Node, resp: VoteResponse, peer: NodeId, w: nat): Outcome
    requires |n.cstate.responded| == |n.cstate.granted| == |n.peers|
  {
    if resp.term > n.pstate.term then
      UpdateTerm(n, resp.term, w)
    else if n.role != Candidate || resp.term != n.pstate.term || resp.term != n.cstate.electionTerm then
      Outcome(n, [], false)
    else
      match FindPeer(n.peers, peer)
      case None => Outcome(n, [], false)
      case Some(k) =>
        if n.cstate.responded[k] then
          Outcome(n, [], false)
        else
          var c := n.cstate.(responded := n.cstate.responded[k := true],
                             granted := n.cstate.granted[k := resp.granted]);
          var n1 := n.(cstate := c);
          if 1 + CountTrue(c.granted) >= Majority(|n.peers| + 1) then
            Outcome(InitLeader(n1), [], false)
          else
            Outcome(n1, [], false)
  }

  // ---------- Replication: the follower ----------

  datatype Stop = Done | Rejected | WriteFailed

  datatype LoopResult = LoopResult(log: Log, writes: seq<Record>, stop: Stop)

  /** The loop of HandleAppendEntriesRequest from entry i on: skip what is there already, cut the log at
      the first conflict, append the rest, and write each cut and each entry before doing it. */
  function AppendLoop(log: Log, prev: Index, entries: seq<Entry>, i: nat, w: nat): LoopResult
    requires i <= |entries|
    decreases |entries| - i
  {
    if i == |entries| then
      LoopResult(log, [], Done)
    else
      var e := entries[i];
      var pos := prev + i;
      if e.index != pos + 1 then
        LoopResult(log, [], Rejected)
      else if pos < |log| && log[pos].term == e.term then
        AppendLoop(log, prev, entries, i + 1, w)
      else if pos < |log| && w == 0 then
        LoopResult(log, [], WriteFailed)
      else
        var cut := pos < |log|;
        var log1 := if cut then log[..pos] else log;
        var ws := if cut then [TruncateRecord(e.index)] else [];
        var w1 := w - |ws|;
        if |log1| >= RAFT_LOG_CAP then
          LoopResult(log1, ws, Rejected)
        else if w1 == 0 then
          LoopResult(log1, ws, WriteFailed)
        else
          var rest := AppendLoop(log1 + [e], prev, entries, i + 1, w1 - 1);
          LoopResult(rest.log, ws + [EntryRecord(e)] + rest.writes, rest.stop)
  }

  /** The follower's commit rule: the leader's commit index, capped by the follower's own last index. */
  function LearnCommit(commit: Index, leaderCommit: Index, log: Log): Index {
    if leaderCommit > commit then
      if leaderCommit < |log| then leaderCommit else |log|
    else commit
  }

  /** The consistency check on the entry before the new ones. */
  predicate PrevMatches(log: Log, req: AppendRequest) {
    req.prevIndex <= |log| && (req.prevIndex > 0 ==> log[req.prevIndex - 1].term == req.prevTerm)
  }

  /** HandleAppendEntriesRequest after the term checks. */
  function FollowLeader(n: Node, req: AppendRequest, w: nat): (Outcome, AppendResponse) {
    var no := AppendResponse(n.pstate.term, false, 0);
    var n1 := n.(role := if n.role == Failed then Failed else Follower, leaderId := req.leaderId);
    if !PrevMatches(n.pstate.log, req) then
      (Outcome(n1, [], false), no)
    else
      var r := AppendLoop(n.pstate.log, req.prevIndex, req.entries, 0, w);
      var n2 := n1.(pstate := n1.pstate.(log := r.log));
      match r.stop
      case Rejected => (Outcome(n2, r.writes, false), no)
      case WriteFailed => (Outcome(n2.(role := Failed), r.writes, true), no)
      case Done =>
        (Outcome(n2.(commitIndex := LearnCommit(n2.commitIndex, req.leaderCommit, r.log)), r.writes, false),
         AppendResponse(n.pstate.term, true, req.prevIndex + |req.entries|))
  }

  /** HandleAppendEntriesRequest. */
  function HandleAppendRequest(n: Node, req: AppendRequest, w: nat): (Outcome, AppendResponse) {
    if req.term < n.pstate.term then
      (Outcome(n, [], false), AppendResponse(n.pstate.term, false, 0))
    else
      var up := UpdateTerm(n, req.term, w);
      if up.failed then
        (up, AppendResponse(n.pstate.term, false, 0))
      else
        var (o, resp) := FollowLeader(up.node, req, w - |up.writes|);
        (Outcome(o.node, up.writes + o.writes, o.failed), resp)
  }

  // ---------- Replication: the leader ----------

  predicate Committable(n: Node, k: Index)
    requires 1 <= k <= |n.pstate.log|
  {
    && n.pstate.log[k - 1].term == n.pstate.term
    && 1 + CountTrue(AtLeast(n.lstate.matched, k)) >= Majority(|n.peers| + 1)
  }

  /** Entry k is of the node's term, and the node and the peers that match it are more than half of the cluster. */
  ghost predicate HeldByMost(n: Node, k: Index) {
    1 <= k <= |n.pstate.log| && n.pstate.log[k - 1].term == n.pstate.term
      && MostOf(MatchingSlots(n.lstate.matched, k), |n.peers|)
  }

  lemma CommittableExact(n: Node, k: Index)
    requires 1 <= k <= |n.pstate.log|
    ensures Committable(n, k) <==> HeldByMost(n, k)
  {
    MatchingIsMost(n.lstate.matched, k, |n.peers|);
  }

  /** The downward scan of AdvanceCommitIndex_locked from index k. */
  function ScanCommit(n: Node, k: Index): Index
    requires k <= |n.pstate.log|
  {
    if k <= n.commitIndex then n.commitIndex
    else if Committable(n, k) then k
    else ScanCommit(n, k - 1)
  }

  function AdvanceCommit(n: Node): Node {
    if n.role != Leader then n else n.(commitIndex := ScanCommit(n, |n.pstate.log|))
  }

  /** HandleAppendEntriesResponse. */
  function HandleAppendResponse(n: Node, resp: AppendResponse, peer: NodeId, w: nat): Outcome
    requires |n.lstate.next| == |n.lstate.matched| == |n.peers|
  {
    if n.role != Leader || n.pstate.term > resp.term then
      Outcome(n, [], false)
    else if n.pstate.term < resp.term then
      UpdateTerm(n, resp.term, w)
    else
      match FindPeer(n.peers, peer)
      case None => Outcome(n, [], false)
      case Some(k) =>
        if resp.success then
          var l := if n.lstate.next[k] < resp.matchIndex
                   then LeaderState(n.lstate.next[k := resp.matchIndex + 1], n.lstate.matched[k := resp.matchIndex])
                   else n.lstate;
          Outcome(AdvanceCommit(n.(lstate := l)), [], false)
        else if n.lstate.next[k] > 1 then
          Outcome(n.(lstate := n.lstate.(next := n.lstate.next[k := n.lstate.next[k] - 1])), [], false)
        else
          Outcome(n, [], false)
  }

  /** raft_append_entries: up to a batch of entries from the peer's next index on. */
  function BuildAppend(n: Node, k: nat): Option<AppendRequest>
    requires |n.lstate.next| == |n.peers|
    requires n.role == Leader && k < |n.peers| ==> 1 <= n.lstate.next[k] <= |n.pstate.log| + 1
  {
    if n.role != Leader || k >= |n.peers| then None
    else
      var prev := n.lstate.next[k] - 1;
      var available := |n.pstate.log| - prev;
      var count := if available < RAFT_APPEND_BATCH then available else RAFT_APPEND_BATCH;
      Some(AppendRequest(n.pstate.term, n.id, prev, TermAt(n.pstate.log, prev), n.commitIndex,
                         n.pstate.log[prev..prev + count]))
  }

  /** heartbeat_tick. */
  function BuildHeartbeat(n: Node): Option<AppendRequest> {
    if n.role != Leader then None
    else Some(AppendRequest(n.pstate.term, n.id, 0, 0, n.commitIndex, []))
  }

  /** raft_leader_send_command; the flag says whether the command was accepted. */
  function SendCommand(n: Node, c: Command, w: nat): (Outcome, bool) {
    if n.role != Leader || |n.pstate.log| >= RAFT_LOG_CAP then
      (Outcome(n, [], false), false)
    else
      var e := Entry(|n.pstate.log| + 1, n.pstate.term, c);
      if w == 0 then
        (Outcome(n.(role := Failed), [], true), false)
      else
        var n1 := n.(pstate := n.pstate.(log := n.pstate.log + [e]));
        (Outcome(if Majority(|n.peers| + 1) == 1 then n1.(commitIndex := e.index) else n1, [EntryRecord(e)], false), true)
  }

  // ---------- Delivery ----------

  /** How many entries raft_commit_entry hands over. */
  function DrainCount(n: Node, cap: nat): nat {
    if n.lastApplied >= n.commitIndex then 0
    else if n.commitIndex - n.lastApplied < cap then n.commitIndex - n.lastApplied
    else cap
  }

  /** raft_commit_entry on a node whose commit index lies within its log. */
  function Drain(n: Node, cap: nat): (Node, seq<Entry>)
    requires n.commitIndex <= |n.pstate.log|
  {
    var k := DrainCount(n, cap);
    (n.(lastApplied := n.lastApplied + k), if k == 0 then [] else n.pstate.log[n.lastApplied..n.lastApplied + k])
  }

  // ---------- Recovery ----------

  datatype Restore = Restored(p: Persistent) | Corrupt(p: Persistent)

  const FRESH := Persistent(0, RAFT_NONE, [])

  /** One turn of the loop in restore_pstate. */
  function ReplayStep(p: Persistent, r: Record): Restore {
    match r
    case StateRecord(t, v) => Restored(p.(term := t, votedFor := v))
    case TruncateRecord(from) =>
      if from == 0 then Corrupt(p)
      else if from <= |p.log| + 1 then Restored(p.(log := p.log[..from - 1]))
      else Restored(p)
    case EntryRecord(e) =>
      if e.index != |p.log| + 1 || |p.log| >= RAFT_LOG_CAP then Corrupt(p)
      else Restored(p.(log := p.log + [e]))
  }

  /** restore_pstate over the records of a log file; stops at the first bad one. */
  function Replay(records: seq<Record>): Restore {
    if records == [] then Restored(FRESH)
    else
      var r := Replay(records[..|records| - 1]);
      if r.Corrupt? then r else ReplayStep(r.p, records[|records| - 1])
  }

  lemma ReplayOne(disk: seq<Record>, r: Record)
    requires Replay(disk).Restored?
    ensures Replay(disk + [r]) == ReplayStep(Replay(disk).p, r)
  {
    assert (disk + [r])[..|disk|] == disk;
  }
}
