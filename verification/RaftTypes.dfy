/** Entities of include/tetrish/raft.h: constants, log entries, messages, node state and the
    records that a node writes to its log file. */
module RaftTypes {

  const RAFT_MAX_PEERS: nat := 8
  const RAFT_LOG_CAP: nat := 1024
  const RAFT_APPEND_BATCH: nat := 64
  const RAFT_NONE: nat := 0xFFFF_FFFF_FFFF_FFFF

  type NodeId = nat
  type Term = nat
  type Index = nat
  type Log = seq<Entry>

  datatype Option<+T> = None | Some(value: T)

  datatype Role = Follower | Candidate | Leader | Failed

  /** core_cmd_type; an int that is none of the declared values fits in it as well. */
  datatype CommandType = Noop | LobbyJoin | GameInput | Unlisted(code: int)

  datatype Command = Command(kind: CommandType, roomKey: nat, playerId: nat, input: nat)

  datatype Entry = Entry(index: Index, term: Term, command: Command)

  datatype AppendRequest = AppendRequest(term: Term, leaderId: NodeId, prevIndex: Index, prevTerm: Term,
                                         leaderCommit: Index, entries: seq<Entry>)

  datatype AppendResponse = AppendResponse(term: Term, success: bool, matchIndex: Index)

  datatype VoteRequest = VoteRequest(term: Term, lastIndex: Index, lastTerm: Term, candidateId: NodeId)

  datatype VoteResponse = VoteResponse(term: Term, granted: bool)

  /** One line of the log file: STATE, ENTRY or TRUNCATE. */
  datatype Record = StateRecord(term: Term, votedFor: NodeId) | EntryRecord(entry: Entry) | TruncateRecord(from: Index)

  /** PersistentState: what the log file must be able to bring back. */
  datatype Persistent = Persistent(term: Term, votedFor: NodeId, log: Log)

  /** VolatileStateCandidate, restricted to the first peer_count slots. */
  datatype CandidateState = CandidateState(electionTerm: Term, responded: seq<bool>, granted: seq<bool>)

  /** VolatileStateLeader, restricted to the first peer_count slots. */
  datatype LeaderState = LeaderState(next: seq<Index>, matched: seq<Index>)

  /** raft_node without its clocks, its mutex and its file descriptor. */
  datatype Node = Node(role: Role, id: NodeId, leaderId: NodeId, peers: seq<NodeId>, pstate: Persistent,
                       commitIndex: Index, lastApplied: Index, cstate: CandidateState, lstate: LeaderState)

  function Max(a: nat, b: nat): nat {
    if a < b then b else a
  }

  function Min(a: nat, b: nat): nat {
    if a < b then a else b
  }

  function LastTerm(log: Log): Term {
    if log == [] then 0 else log[|log| - 1].term
  }

  /** The term stored at a one-based index; 0 for index 0, as raft_append_entries uses it. */
  function TermAt(log: Log, index: Index): Term {
    if 0 < index <= |log| then log[index - 1].term else 0
  }

  function Majority(n: nat): nat {
    n / 2 + 1
  }

  /** A majority is exactly more than half. */
  lemma MajorityExact(k: nat, n: nat)
    ensures k >= Majority(n) <==> 2 * k > n
  {
  }

  /** checkLog: is a log ending in (lastIndex, lastTerm) at least as up to date as the voter's? */
  predicate CheckLog(reqIndex: Index, reqTerm: Term, lastIndex: Index, lastTerm: Term) {
    if reqTerm != lastTerm then reqTerm > lastTerm else reqIndex >= lastIndex
  }

  predicate UpToDate(candidate: Log, voter: Log) {
    CheckLog(|candidate|, LastTerm(candidate), |voter|, LastTerm(voter))
  }

  /** Entries are numbered from one. */
  predicate Numbered(log: Log) {
    forall k :: 0 <= k < |log| ==> log[k].index == k + 1
  }

  /** Terms never go down. */
  predicate Sorted(log: Log) {
    forall j, k :: 0 <= j <= k < |log| ==> log[j].term <= log[k].term
  }

  predicate WellFormed(log: Log) {
    Numbered(log) && Sorted(log)
  }

  predicate TermsAtMost(log: Log, bound: Term) {
    forall k :: 0 <= k < |log| ==> log[k].term <= bound
  }

  // ---------- Comparing logs ----------

  /** Both logs have at least n entries and agree on the first n. */
  ghost predicate Carries(log: Log, source: Log, n: nat) {
    n <= |log| && n <= |source| && log[..n] == source[..n]
  }

  lemma CarriesAt(log: Log, source: Log, n: nat)
    requires Carries(log, source, n)
    ensures forall k :: 0 <= k < n ==> log[k] == source[k]
  {
    forall k | 0 <= k < n ensures log[k] == source[k] {
      assert log[..n][k] == source[..n][k];
    }
  }

  ghost predicate MatchingAt(a: Log, b: Log, k: nat) {
    k < |a| && k < |b| && a[k].term == b[k].term ==> Carries(a, b, k + 1)
  }

  /** Log Matching for two logs: same index and same term means same prefix. */
  ghost predicate Matching(a: Log, b: Log) {
    forall k: nat :: MatchingAt(a, b, k)
  }

  /** Entries of the same term in two logs were made by one leader, so the logs agree up to the earlier of them. */
  ghost predicate SharedAt(a: Log, b: Log, j: nat, k: nat) {
    j < |a| && k < |b| && a[j].term == b[k].term ==> Carries(a, b, Min(j, k) + 1)
  }

  ghost predicate SameLeaders(a: Log, b: Log) {
    forall j: nat, k: nat :: SharedAt(a, b, j, k)
  }

  lemma SameLeadersMatch(a: Log, b: Log)
    requires SameLeaders(a, b)
    ensures Matching(a, b)
  {
    forall k: nat ensures MatchingAt(a, b, k) {
      assert SharedAt(a, b, k, k);
    }
  }

  /** The request is a batch cut from this leader's log. */
  ghost predicate IsSlice(req: AppendRequest, ldr: Log) {
    && req.prevIndex + |req.entries| <= |ldr|
    && req.entries == ldr[req.prevIndex..req.prevIndex + |req.entries|]
    && req.prevTerm == TermAt(ldr, req.prevIndex)
    && |req.entries| <= RAFT_APPEND_BATCH
  }

  /** The index that a successful reply to this request reports. */
  function EndIndex(req: AppendRequest): Index {
    req.prevIndex + |req.entries|
  }
}
