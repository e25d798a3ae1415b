# Raft and Chord of corestack-peky, in Dafny

Two parts of the repository are modelled and proved: the Raft node of `raft.c`, alone and in a cluster, and the
ring arithmetic of `chord.c`. `dafny verify dfyconfig.toml` checks the whole project.

## Layers

- **One node as an object** (`RaftServer`): `raft_node` with its fixed arrays and counters, and each handler with
  its loops. Every method is tied to a function of `RaftNode`, which says what the handler does to a node as a
  value. A handler has a number of record writes that still succeed; the write after that fails, so every error
  path of a failing `dprintf` or `fdatasync` is part of the model.
- **A cluster** (`Cluster`): any number of nodes, a set of messages that is never emptied (so messages may be lost,
  repeated and reordered), and the steps timeout, receive, command, send, heartbeat, drain and restart. `Run` gives
  the state after any sequence of steps.
- **The argument** (`Protocol`, `ProtocolSteps`): a history of ballots, campaigns, leaders' logs and
  acknowledgements, and an invariant over it. `ServerSteps` and `ReplicaSteps` show that each handler makes moves
  that keep it; `ClusterInv` and `ClusterSteps` lift this to every run.
- **What must not happen**: `Safety`, `Votes`, `Commitment`, `Replication`, `LoneEntry`, `MatchDrops`, `Recovery`,
  `RecordText`, and the runs of `Witness` and `MatchWitness`.
- **What must and can happen**: `Duties` says of each handler exactly when it takes effect and what follows; `CatchUp`,
  `CatchUpRuns`, `Elections` and `NeverStuck` (over the paths of `Paths`) show that the cluster can always go on.
- **The ring**: `Chord`.

## Assumptions

- Membership is fixed; every node lists every other node once, never itself, and no id is `RAFT_NONE`.
- A handler is one atomic step, including what it reads before it takes the lock (raft.c:807-812, raft.c:861-864).
- A record is written whole or not at all.
- In the cluster a failed write is a crash: the node comes back from what its file holds and sends nothing.
- An election timeout may fire at any time for a node that does not lead.

## What the code does, where it matters

- **A heartbeat can break State Machine Safety.** A follower caps the commit index it learns by its own last index
  (raft.c:792-796) and heartbeats always pass the consistency check (raft.c:193-200), so a follower can commit and
  deliver entries that its leader never had. `Witness.HeartbeatBreaksSafety` is such a run of three nodes, and
  `Witness.OnlyHeartbeatUnguarded` shows that the heartbeat is its one dangerous step. `Commitment.LearnsSafely` is the
  guard under which an accepted request is harmless: the leader has committed no more than the follower, or what the
  request commits does not reach past its last entry, or the follower's log ends there, or the follower has no entry
  beyond those it has committed already, or the batch contradicts the follower's log, or the log's last entry is of
  the sender's term, or the follower gave its vote of this term to the sender and its log ends in the term just before.
  `Replication.CommitGuardExact` shows that this is exact for a follower that knows its own log, its commit index, its
  vote and the request: whenever the guard fails, some leader consistent with all of that has other entries.
  In a cluster of one or two nodes every run is safe, guard or not. Runs that meet the guard, and all runs of one or two
  nodes, are called guarded below. State Machine Safety, ordered delivery and the other results of `Commitment` about
  runs, and `Replication.SenderIsPossible`, are about guarded runs; everything else, Leader Completeness included, holds
  of all runs.
- **Not every surviving instance holds the committed entries** (README.md:11-13): a lagging node need not
  (`Witness.SurvivorLacksCommitted`). Leaders and a majority do (`Commitment.LeaderHoldsCommitted`,
  `Safety.CommittedOnMajority`), and of any one instance `Safety.HoldsCommittedExact` says exactly when: if and only if
  its log is at least as up to date, by the rule that decides votes, as the committed entries are.
- A voter that was behind answers under its old term, so its grant is not counted until it is asked again
  (`Safety.LateGrantIsDropped`). Safety does not suffer: a grant in flight is a vote really held in that term or
  carries a term the candidate has left (`Votes.GrantIsVoteOrLate`).
- **No reachable state is stuck** (`NeverStuck.NeverStuck`): after any losses, crashes and restarts, as long as the logs
  have room, some node can be elected by further steps, bring its log to every node, commit everything that it held
  before, and deliver it.
- **An entry that goes out alone is not committed.** An acknowledgement is recorded only when
  `next_index < matchIndex` (raft.c:836), that is, only when the batch had at least two entries
  (`LoneEntry.RecordedIffTwo`). A single outstanding entry may be held by every node and stays uncommitted however often
  it is sent again (`LoneEntry.LoneEntryStalls`, `Witness.HeldByAllNeverCommitted`); in particular a cluster of two or
  more nodes never commits its first command alone (`LoneEntry.OneCommandNeverCommits`). `match_index` may also go down
  (`MatchWitness.MatchIndexGoesDown`): exactly when an old acknowledgement falls between `next_index` and `match_index`
  (`MatchDrops.MatchDropsExactly`), which takes three rejections since the newer one (`MatchDrops.DropNeedsRejections`).
  It stays sound, and catch-up still ends.
- The file does not compile as it stands (raft.c:26 against raft.c:990, raft.c:146, a missing semicolon at
  raft.c:674, `entry.` on a pointer at raft.c:999-1004); the evident intent is modelled.

## Model

| member | source | states |
|---|---|---|
| `Safety.LeaderCompleteness` | src/tetrish/system_programs/raft.c:494-526 | Once a leader of term t has moved its commit index to n at step k, the leader of every later term, at any moment of the run before or after k, holds the same first n entries |
| `Safety.CommittedOnMajority` | README.md:11-13 | From the moment a leader commits index n, at every later moment of the run a majority of the cluster holds its first n entries, in memory and on disk |
| `Safety.HoldsCommittedExact` | README.md:11-13 | At every moment after a leader commits index n, an instance holds those n entries if and only if its log is, by checkLog, at least as up to date as they are |
| `Safety.ElectionSafety` | src/tetrish/system_programs/raft.c:917-973 | At most one node ever leads a given term, at any two moments of any run with loss, duplication, reordering, crashes and restarts |
| `Safety.LogMatching` | src/tetrish/system_programs/raft.c:731-789 | Logs of any two nodes at any two moments of a run that have an entry of the same index and term are identical up to that index |
| `Safety.LogStructure` | src/tetrish/system_programs/raft.c:1043-1063 | In every run entries are numbered from one, terms never go down and never exceed the current term, and the log stays within its 1024 slots |
| `Safety.NoStructuralRejection` | src/tetrish/system_programs/raft.c:747-780 | No request that is ever in flight trips the index-mismatch or capacity rejection of its receiver |
| `Safety.RecoveryRefinesMemory` | src/tetrish/system_programs/raft.c:37-138 | At any moment of any run, replaying a node's records succeeds and gives exactly its term, vote and log in memory |
| `Safety.AcknowledgementSoundness` | src/tetrish/system_programs/raft.c:805-855 | While a node leads, its next and match indices stay within its log, and a peer still in that term holds the leader's first match_index entries, in memory and on disk, although match_index may go down |
| `Safety.ScanCommitExact` | src/tetrish/system_programs/raft.c:504-523 | The downward scan returns the largest committable index at or below its start, or the old commit index |
| `Safety.AdvanceCommitExact` | src/tetrish/system_programs/raft.c:494-526 | The commit index becomes the largest index of the current term that the leader and matching peers, more than half of the cluster, hold; it is left alone if there is none, and nothing else changes |
| `Safety.AppendResponseCommits` | src/tetrish/system_programs/raft.c:834-845 | An acknowledgement never changes the log, never lowers the commit index, and raises it only to a committable index |
| `Safety.CommitIsCommittable` | src/tetrish/system_programs/raft.c:1065-1066 | Whatever step raises a leader's commit index, the new index is in its log, of its own term and matched by a majority; for a one-node cluster this covers the direct commit of a command |
| `Safety.CommittableIsChosen` | src/tetrish/system_programs/raft.c:510-519 | What the counting loop accepts has been acknowledged, in the leader's own term, by a quorum of distinct nodes |
| `Safety.LateGrantIsDropped` | src/tetrish/system_programs/raft.c:861-864 | A voter that was behind answers under its old term, and the candidate ignores that answer entirely |
| `Votes.OneVotePerTerm` | src/tetrish/system_programs/raft.c:890-912 | Whatever a node votes in one term, at any two moments of a run and across crashes, is a vote for one candidate |
| `Votes.GrantIsVoteOrLate` | src/tetrish/system_programs/raft.c:861-864 | A granted response in flight is a vote that the voter held for that candidate in that very term at some moment of the run, or carries a term below the candidate's |
| `Commitment.StateMachineSafety` | src/tetrish/system_programs/raft.c:559-574 | In a guarded run no two nodes ever deliver different entries at the same index, across process lifetimes |
| `Commitment.DeliveredOnMajority` | README.md:11-13 | In a guarded run every entry that any node has ever delivered is held, at its index, by a majority of the cluster |
| `Commitment.OrderedDelivery` | src/tetrish/system_programs/raft.c:566-570 | In a guarded run what a node has handed over in this lifetime is exactly its log up to lastApplied, and lastApplied <= commitIndex <= log length |
| `Commitment.LeaderHoldsCommitted` | README.md:11-13 | In a guarded run a leader holds everything that any node has committed in a term up to its own |
| `Commitment.CommittedIsCarried` | src/tetrish/system_programs/raft.c:494-526 | A log prefix committed in term t is carried by the leader of every term from t on |
| `Commitment.FollowCommits` | src/tetrish/system_programs/raft.c:791-799 | If what the follower learns is confirmed, or the follower holds as much of it as its log can cover, the commit rule keeps lastApplied <= commitIndex <= log length and keeps the log up to the commit index committed |
| `Commitment.VoterHoldsLess` | src/tetrish/system_programs/raft.c:890-912 | A node that voted for the leader of its term with a log ending in the term just before holds a prefix of the leader's log |
| `Commitment.AcceptedIsHarmless` | src/tetrish/system_programs/raft.c:791-796 | Under the guard, or in a cluster of at most two nodes, an accepted request teaches nothing that its sender does not hold |
| `Commitment.EveryoneHolds` | src/tetrish/system_programs/raft.c:208-210 | In a cluster of at most two nodes every node holds everything committed, so no guard is needed |
| `Commitment.SafeRunInv` | src/tetrish/system_programs/raft.c:791-796 | The commit invariant holds after every guarded run |
| `Replication.CommitGuardExact` | src/tetrish/system_programs/raft.c:791-796 | Learning the capped commit index covers only the sender's entries, for every log that the sender may hold given the follower's log, committed prefix and vote, if and only if the guard holds |
| `Replication.GuardSuffices` | src/tetrish/system_programs/raft.c:791-796 | Under the guard the commit index learned covers only entries that the sender holds |
| `Replication.VoteSuffices` | src/tetrish/system_programs/raft.c:212-218 | For every possible sender, a vote for it with a log ending in the term just before makes that whole log the sender's |
| `Replication.StrangerRefutes` | src/tetrish/system_programs/raft.c:193-200 | Where the guard fails, there is a possible sender, in agreement with the batch, with all the follower has committed and with its vote, whose entries differ from those that the follower would commit |
| `Replication.SenderIsPossible` | src/tetrish/system_programs/raft.c:630-679 | In a guarded run the sender of every request in flight that its receiver accepts holds a log of the kind that CommitGuardExact ranges over, as to the receiver's committed prefix and vote too |
| `Replication.OneBatchBehindIsSafe` | src/tetrish/system_programs/raft.c:651-669 | A request to a peer at most 64 entries behind reaches the end of the leader's log and always meets the guard |
| `Replication.BatchKeeps` | src/tetrish/system_programs/raft.c:747-789 | Handling any batch of a leader, even one cut short by a failing write, keeps every entry already shared with that leader and keeps the two logs matching |
| `Replication.HeldBatchIsNoop` | src/tetrish/system_programs/raft.c:760-761 | A batch whose entries are already there changes nothing and writes nothing |
| `Replication.RequestKeeps` | src/tetrish/system_programs/raft.c:681-803 | A request of the current leader keeps what was shared, and success means that the whole batch is held |
| `Replication.RepeatIsHarmless` | src/tetrish/system_programs/raft.c:681-803 | Repeating an accepted request leaves term, vote, log and log file as they were and gives the same answer |
| `Replication.ConfirmedEntriesStay` | src/tetrish/system_programs/raft.c:731-799 | However often and in whatever order batches of one leader arrive, every entry that an accepted one confirmed stays |
| `NeverStuck.NeverStuck` | src/tetrish/system_programs/raft.c:309-1070 | From every state of every run in which the logs have room for two entries, further steps make some most up-to-date node leader, give every node its log, commit everything it held before and a first new command, and deliver all of that in order |
| `NeverStuck.CanDeliver` | src/tetrish/system_programs/raft.c:309-1070 | The same for any node that is at least as up to date as a quorum |
| `NeverStuck.RoundLearns` | src/tetrish/system_programs/raft.c:805-855 | A round moves only one peer's trackers and the commit index, keeps that peer recorded up to all but one entry or two behind, and after an acceptance leaves nothing to commit |
| `NeverStuck.ServedIsCommitted` | src/tetrish/system_programs/raft.c:494-526 | Once every peer is recorded up to all but one entry, all but one entry are committed |
| `Elections.CanBeElected` | src/tetrish/system_programs/raft.c:309-392 | In every state of every run, a node whose log is at least as up to date as those of a quorum can become leader of a term that nobody has passed, and every log stays as it is |
| `Elections.Climb` | src/tetrish/system_programs/raft.c:337-345 | A node can time out, candidate or not, until it campaigns in any higher term |
| `Elections.VoterGrants` | src/tetrish/system_programs/raft.c:861-912 | Asked twice, a voter that is behind and no more up to date grants its vote under the new term |
| `Elections.PollFrom` | src/tetrish/system_programs/raft.c:952-967 | Asking the peers one after the other wins the election, in at most three steps a peer |
| `Duties.TimeoutExact` | src/tetrish/system_programs/raft.c:309-392 | A timeout of a node that neither leads nor has failed starts the election of the next term, for a candidate too, with its own recorded vote and one request, or an immediate win without peers |
| `Duties.GrantExact` | src/tetrish/system_programs/raft.c:857-915 | A vote is granted if and only if the request is not stale, the node does not lead that term, the vote is free or already this candidate's, the candidate's log ends no earlier, and the records succeed |
| `Duties.CountedVoteExact` | src/tetrish/system_programs/raft.c:929-970 | A counted answer is noted, and the candidate leads if and only if its granters and itself are more than half of the cluster |
| `Duties.NewerVoteResponse` | src/tetrish/system_programs/raft.c:923-927 | A vote response of a newer term makes any node a follower of that term with no vote, after a STATE record |
| `Duties.NewerAppendResponse` | src/tetrish/system_programs/raft.c:816-822 | An append response of a newer term makes a leader a follower of that term with no vote, after a STATE record |
| `Duties.NewerVoteRequest` | src/tetrish/system_programs/raft.c:871-912 | A vote request of a newer term makes any node a follower of that term, with its vote free or given to the candidate |
| `Duties.NewerAppendRequest` | src/tetrish/system_programs/raft.c:707-726 | A request that is not stale makes the node a follower of its sender in that term, and a newer term frees its vote |
| `Duties.StaleRequest` | src/tetrish/system_programs/raft.c:697-705 | A stale request is refused under the node's own term and changes nothing |
| `Duties.CheckExact` | src/tetrish/system_programs/raft.c:731-744 | The check on the previous entry passes if and only if the log holds the leader's entries up to there |
| `Duties.LoopAccepts` | src/tetrish/system_programs/raft.c:747-789 | The loop takes a batch of any origin if and only if its entries are numbered as they should be and fit |
| `Duties.RequestExact` | src/tetrish/system_programs/raft.c:681-803 | A request succeeds if and only if it is not stale, its previous entry is there, and its batch is numbered and fits |
| `Duties.BatchExact` | src/tetrish/system_programs/raft.c:731-799 | A leader's batch is accepted if and only if the log holds the entries before it; then it is held, and the commit index is the leader's, capped by the follower's last index |
| `Duties.CommandExact` | src/tetrish/system_programs/raft.c:1032-1070 | A command is accepted if and only if the node leads, has room and can write; exactly then the log grows by that entry, and without peers it is committed |
| `Duties.OneNodeCommits` | src/tetrish/system_programs/raft.c:1065-1066 | In every run of a cluster of one node, an accepted command is committed at once |
| `Duties.SendExact` | src/tetrish/system_programs/raft.c:630-679 | A leader, and only a leader, sends: up to the end of its log or a full batch, with its term and commit index |
| `Duties.AnswerExact` | src/tetrish/system_programs/raft.c:834-855 | What a leader makes of every answer of its term: the tracker recorded, moved back or kept, and after a success the commit index at the largest index held by more than half |
| `Duties.OtherAnswers` | src/tetrish/system_programs/raft.c:807-832 | Answers to a node that does not lead, of an older term, or from no peer are ignored |
| `Duties.DrainExact` | src/tetrish/system_programs/raft.c:559-574 | A drain hands over, in order, the smaller of what is committed and undelivered and what fits |
| `Duties.DrainRuns` | src/tetrish/system_programs/raft.c:566-570 | In every guarded run a drain leaves nothing committed undelivered or fills the buffer |
| `Duties.RefusalExact` | src/tetrish/system_programs/raft.c:79-133 | Restoring refuses exactly a TRUNCATE of index 0, an ENTRY out of order and an ENTRY that does not fit |
| `RaftTypes.MajorityExact` | src/tetrish/system_programs/raft.c:208-210 | A majority is exactly more than half |
| `RaftNode.CommittableExact` | src/tetrish/system_programs/raft.c:504-519 | The counting loop passes if and only if the entry is of the current term and the node and the peers that match it are more than half |
| `CatchUp.CatchUpTerminates` | src/tetrish/system_programs/raft.c:834-851 | Repeating send, handle and respond makes the leader's log a prefix of the follower's after at most next_index - 1 rejected and then at most max(1, ceil(length / 64)) accepted rounds |
| `CatchUp.BatchesIsCeiling` | include/tetrish/raft.h:16-17 | The bound on accepted rounds is max(1, ceil(length / 64)) |
| `CatchUp.AcceptedRound` | src/tetrish/system_programs/raft.c:834-845 | An accepted round ends the catch-up or moves next_index on by exactly one full batch, in spite of the strict comparison |
| `CatchUp.RejectedRound` | src/tetrish/system_programs/raft.c:847-851 | A rejected round only moves next_index back by one, and it never happens at next_index 1 |
| `CatchUp.FollowBatch` | src/tetrish/system_programs/raft.c:731-799 | With writes that succeed, a follower in the leader's term accepts a batch exactly when the previous entry matches, and then holds it |
| `CatchUp.BatchFits` | src/tetrish/system_programs/raft.c:762-788 | One TRUNCATE and 64 ENTRY records suffice for any batch |
| `CatchUpRuns.LeaderAndPeer` | src/tetrish/system_programs/raft.c:641-675 | In every run a leader and a peer whose term is no higher meet the conditions of the exchange |
| `CatchUpRuns.PeerCatchesUp` | src/tetrish/system_programs/raft.c:630-855 | From every reachable state with such a pair, at most three steps per round bring the peer's log up to the leader's, with the leader's log unchanged |
| `LoneEntry.RecordedIffTwo` | src/tetrish/system_programs/raft.c:834-839 | An accepted round records the acknowledgement if and only if the batch has at least two entries, and changes nothing else but the commit index |
| `LoneEntry.LastRoundCommits` | src/tetrish/system_programs/raft.c:834-841 | The round that reaches the end of the log commits all of it if and only if the last entry is of the leader's term and more than half of the cluster is recorded, this peer as new only after a batch of two or more |
| `LoneEntry.LoneEntryStalls` | src/tetrish/system_programs/raft.c:834-841 | With one entry outstanding, any number of accepted rounds leaves the leader exactly as it was, while the peer holds the entry |
| `LoneEntry.FirstEntryNeverAlone` | src/tetrish/system_programs/raft.c:494-526 | In a cluster of two or more nodes no commit of any run stops at index 1 |
| `LoneEntry.LogsWithinCommands` | src/tetrish/system_programs/raft.c:1049-1063 | No log and no batch in flight is longer than the number of commands so far |
| `LoneEntry.OneCommandNeverCommits` | src/tetrish/system_programs/raft.c:834-841 | A run with one command, in a cluster of two or more nodes, commits nothing at any node and delivers nothing, whatever is resent, elected or restarted |
| `MatchDrops.MatchDropsExactly` | src/tetrish/system_programs/raft.c:834-839 | In any run, a step of a leader that goes on leading lowers match_index of a slot if and only if it brings a success of this term from that peer with next_index < matchIndex < match_index |
| `MatchDrops.RecordedBy` | src/tetrish/system_programs/raft.c:834-851 | Every match_index that is not zero was recorded by a step of the same leadership, and next_index is one past it less the rejections since |
| `MatchDrops.DropNeedsRejections` | src/tetrish/system_programs/raft.c:847-851 | match_index goes down only after at least three rejections recorded since the acknowledgement that it loses |
| `Witness.HeartbeatBreaksSafety` | src/tetrish/system_programs/raft.c:185-206 | A run of three nodes in which a heartbeat makes two of them deliver different entries at index 1: without the guard State Machine Safety is false of the code |
| `Witness.OnlyHeartbeatUnguarded` | src/tetrish/system_programs/raft.c:193-200 | The heartbeat is the one step of that run that breaks the guard |
| `Witness.HeldByAllNeverCommitted` | src/tetrish/system_programs/raft.c:834-841 | A run after which all three nodes hold the one command, and of which no continuation without another command commits or delivers it |
| `MatchWitness.MatchIndexGoesDown` | src/tetrish/system_programs/raft.c:836-838 | A run in which the match_index of one leader in one term goes from 3 to 2 |
| `Witness.SurvivorLacksCommitted` | README.md:11-13 | A running node may hold none of the committed entries; HoldsCommittedExact gives the exact condition |
| `Recovery.EveryPrefixRecovers` | src/tetrish/system_programs/raft.c:762-789 | Every prefix of a node's record stream, also between a TRUNCATE and its ENTRY, is the file at some moment of the run, is what a crash at that moment leaves, and replays without error to the term, vote and log that the running node held in memory at that moment |
| `Recovery.PrefixMoment` | src/tetrish/system_programs/raft.c:975-1030 | Every prefix of a node's file is its whole file right after one of the records that one of its handlers wrote |
| `Recovery.CutRuns` | src/tetrish/system_programs/raft.c:975-1030 | A crash after any record of a handler is itself a run, with exactly that file |
| `Recovery.FileIsMemory` | src/tetrish/system_programs/raft.c:762-789 | At every moment of a run, also between two records of one handler, the file replays to what the node holds in memory |
| `Recovery.HandlerHeld` | src/tetrish/system_programs/raft.c:453-481 | Of any node and on any input: the first v records of a handler replay to what the handler held in memory right after the v-th, the term update before a vote included |
| `Recovery.HandlerEnds` | src/tetrish/system_programs/raft.c:898-912 | A handler that ends without a failed write leaves file and memory in agreement |
| `Recovery.HeldAtEnd` | src/tetrish/system_programs/raft.c:898-912 | What a handler holds after its last record is what it ends with |
| `Recovery.LoopReplays` | src/tetrish/system_programs/raft.c:747-789 | Whatever batch arrives and wherever its writes fail, the records of the loop replay to the log in memory |
| `Recovery.LoopPrefix` | src/tetrish/system_programs/raft.c:747-789 | With fewer writes to spend the append loop writes the first records of the same stream |
| `Recovery.TextRecovery` | src/tetrish/system_programs/raft.c:64-134 | Reading back the text of the log file restores exactly term, vote and log |
| `RecordText.LineRoundTrip` | src/tetrish/system_programs/raft.c:71-114 | Each printed STATE, TRUNCATE or ENTRY line with fields of their C types, RAFT_NONE and undeclared command types included, parses back to its record |
| `RecordText.OnlyOwnPattern` | src/tetrish/system_programs/raft.c:72-107 | A printed line converts nothing under either of the other two patterns |
| `RecordText.LineFits` | src/tetrish/system_programs/raft.c:64-66 | A printed line with its terminator fits the 256-byte buffer and holds exactly one newline, its last character |
| `RecordText.FileRoundTrip` | src/tetrish/system_programs/raft.c:66-134 | Restoring from the text of any sequence of records is the same as replaying the records |
| `RecordText.LineByLine` | src/tetrish/system_programs/raft.c:66-134 | Of any text: a line that no pattern matches is ignored, a record that cannot be applied ends the restore, any other is applied before the rest is read |
| `RecordText.MinusWraps` | src/tetrish/system_programs/raft.c:72-73 | An unsigned number with a minus sign wraps around |
| `RecordText.ReadsNat` | src/tetrish/system_programs/raft.c:977-978 | Reading digits inverts printing a number of any size |
| `ClusterSteps.StepInv` | src/tetrish/system_programs/raft.c:309-1070 | The cluster invariant is inductive: every timeout, handler, command, send, drain, crash and restart keeps it and extends history |
| `ClusterSteps.RunInv` | src/tetrish/system_programs/raft.c:309-1070 | Every moment of every run has a history that satisfies the invariant, and later histories extend earlier ones |
| `ServerSteps.TimeoutOk` | src/tetrish/system_programs/raft.c:309-392 | A timeout keeps the server invariant, and a vote request describes the log the candidate campaigns with |
| `ServerSteps.UpdateTermOk` | src/tetrish/system_programs/raft.c:453-481 | A term update, also one that dies at its write, keeps the server invariant |
| `ServerSteps.VoteRequestOk` | src/tetrish/system_programs/raft.c:857-915 | Every granted vote is one ballot of that term, persisted before it is answered, for a candidate whose log is at least as up to date |
| `ServerSteps.VoteResponseOk` | src/tetrish/system_programs/raft.c:917-973 | Every counted grant stands for a ballot really cast, so a win is backed by a quorum of ballots |
| `ServerSteps.FlagsMakeQuorum` | src/tetrish/system_programs/raft.c:208-210 | With distinct peers, the count passes if and only if the flagged peers and the node itself are a majority of the cluster |
| `ReplicaSteps.AppendRequestOk` | src/tetrish/system_programs/raft.c:681-803 | Handling a request keeps the server invariant, and a success reply never acknowledges more than is held on disk |
| `ReplicaSteps.AppendResponseOk` | src/tetrish/system_programs/raft.c:805-855 | Handling a reply keeps the server invariant, in particular the soundness of match_index |
| `ReplicaSteps.CommandOk` | src/tetrish/system_programs/raft.c:1032-1070 | Taking a command keeps the server invariant and extends the log of this term's leader |
| `ReplicaSteps.SendOk` | src/tetrish/system_programs/raft.c:630-679 | Batches and heartbeats are slices of the log of this term's leader |
| `ProtocolSteps.UpToDateCarries` | src/tetrish/system_programs/raft.c:212-218 | A log that checkLog finds at least as up to date as one carrying an entry that is or may become committed carries that entry too |
| `ProtocolSteps.WinnerCarries` | src/tetrish/system_programs/raft.c:955-967 | Whoever wins an election carries every entry of an earlier term that is or may become committed |
| `ProtocolSteps.ElectStep` | src/tetrish/system_programs/raft.c:955-967 | Electing a candidate with a quorum of ballots keeps the protocol invariant, in particular one leader per term |
| `ProtocolSteps.CutStep` | src/tetrish/system_programs/raft.c:759-774 | Cutting a log at the first conflict with the current leader never removes an entry that is or may become committed |
| `ProtocolSteps.NothingNewIsChoosable` | src/tetrish/system_programs/raft.c:702-705 | Once a later leader exists, nothing new can be committed in an older term |
| `Protocol.QuorumsMeet` | src/tetrish/system_programs/raft.c:208-210 | Two majorities of one cluster share a node |
| `AppendLoops.LoopEnds` | src/tetrish/system_programs/raft.c:747-789 | Every way the loop can end on a batch of the leader: nothing, copying at the end, or one cut at the first conflict and then copying, with the exact records written |
| `AppendLoops.PrevCarries` | src/tetrish/system_programs/raft.c:731-744 | A log that passes the check on the previous entry agrees with the leader up to that entry |
| `RaftServer.Server.constructor` | src/tetrish/system_programs/raft.c:394-442 | A new node is a follower with zeroed trackers and the term, vote and log read from the file; after a bad record no write succeeds |
| `RaftServer.Server.RestoreRecord` | src/tetrish/system_programs/raft.c:71-133 | In place: one record changes the fields as ReplayStep says, or is refused and changes nothing |
| `RaftServer.Server.RestoreState` | src/tetrish/system_programs/raft.c:64-137 | The fgets and sscanf loop leaves in the fields exactly what the text says, up to the first bad record |
| `RaftServer.Server.Persist` | src/tetrish/system_programs/raft.c:975-1030 | A record is appended to the file whole, or not at all and the write reports failure |
| `RaftServer.Server.FindPeerIndex` | src/tetrish/system_programs/raft.c:175-182 | The loop finds the last slot with that id, or none |
| `RaftServer.Server.InitLeaderState` | src/tetrish/system_programs/raft.c:292-305 | In place: leader of itself, next_index one past the log, match_index zero, all else unchanged |
| `RaftServer.Server.StepDown` | src/tetrish/system_programs/raft.c:458-466 | In place: the role, term, vote and known leader of a node that learns of a new term; all else unchanged |
| `RaftServer.Server.EnterTerm` | src/tetrish/system_programs/raft.c:458-481 | In place: for a higher term the fields and the file end as UpdateTerm says, the trackers cleared only after the record |
| `RaftServer.Server.UpdateTermTo` | src/tetrish/system_programs/raft.c:453-481 | In place: the fields and the file end as UpdateTerm says, also when the write fails |
| `RaftServer.Server.ResetCandidate` | src/tetrish/system_programs/raft.c:285-289 | In place: an election term and no votes; all else unchanged |
| `RaftServer.Server.ClearLeader` | src/tetrish/system_programs/raft.c:448-450 | In place: zero trackers; all else unchanged |
| `RaftServer.Server.Campaign` | src/tetrish/system_programs/raft.c:337-354 | In place: next term, own vote, recorded before the vote flags are reset; without the record no flags are reset |
| `RaftServer.Server.StartElection` | src/tetrish/system_programs/raft.c:309-378 | In place: refines Timeout, with an immediate win in a one-node cluster |
| `RaftServer.Server.LastLogTerm` | src/tetrish/system_programs/raft.c:226-232 | The term of the last entry of the log, 0 for none |
| `RaftServer.Server.HandleTimeout` | src/tetrish/system_programs/raft.c:309-392 | In place: refines Timeout, and fills the first min(cap, peers) slots with the same request, one per peer index |
| `RaftServer.Server.HandleVote` | src/tetrish/system_programs/raft.c:857-915 | In place: refines HandleVoteRequest, of which GrantExact says when it grants, with the answer under the term held before |
| `RaftServer.Server.CountVotes` | src/tetrish/system_programs/raft.c:955-961 | The loop counts the granted flags and the candidate's own vote |
| `RaftServer.Server.HandleVoteReply` | src/tetrish/system_programs/raft.c:917-973 | In place: refines HandleVoteResponse, of which CountedVoteExact and NewerVoteResponse say what it leads to |
| `RaftServer.Server.CountMatches` | src/tetrish/system_programs/raft.c:509-516 | The inner loop counts the leader and every peer whose match_index reaches n |
| `RaftServer.Server.AdvanceCommitIndex` | src/tetrish/system_programs/raft.c:494-526 | In place: the nested loops refine AdvanceCommit, which AdvanceCommitExact characterises |
| `RaftServer.Server.CommitEntries` | src/tetrish/system_programs/raft.c:559-574 | In place: copies the next entries in order, as many as are committed and undelivered or as fit, advances lastApplied by that many and touches nothing else |
| `RaftServer.Server.BuildRequest` | src/tetrish/system_programs/raft.c:630-679 | The copy loop refines BuildAppend and changes nothing |
| `RaftServer.Server.Heartbeat` | src/tetrish/system_programs/raft.c:185-206 | A leader's heartbeat carries previous index 0, no entries and its commit index; other roles send none |
| `RaftServer.Server.HandleAppendReply` | src/tetrish/system_programs/raft.c:805-855 | In place: refines HandleAppendResponse, of which AnswerExact, NewerAppendResponse and OtherAnswers cover every case |
| `RaftServer.Server.TakeCommand` | src/tetrish/system_programs/raft.c:1032-1070 | In place: refines SendCommand, which CommandExact characterises, with the record written before the entry is added |
| `RaftServer.Server.TakeEntry` | src/tetrish/system_programs/raft.c:757-788 | In place: cuts a conflicting suffix and appends, each after its record, stopping where a write fails or the array is full |
| `RaftServer.Server.AppendBatch` | src/tetrish/system_programs/raft.c:747-789 | In place: the loop over the batch refines AppendLoop on the array, on the file and on where it stops |
| `RaftServer.Server.Recognise` | src/tetrish/system_programs/raft.c:718-726 | In place: a node that has not failed becomes a follower of the sender; all else unchanged |
| `RaftServer.Server.Follow` | src/tetrish/system_programs/raft.c:715-803 | In place: refines FollowLeader, with the commit index capped by the follower's own last index |
| `RaftServer.Server.HandleAppend` | src/tetrish/system_programs/raft.c:681-803 | In place: refines HandleAppendRequest, of which RequestExact and NewerAppendRequest say when it succeeds and what it leads to |
| `Chord.FingersAreSteps` | src/tetrish/system_programs/chord.c:7-28 | For every M from 1 to 8 the casts lose nothing: a finger starts 2^(i-1) and ends 2^i steps clockwise from the node |
| `Chord.IntervalsJoin` | src/tetrish/system_programs/chord.c:63-67 | Each interval ends where the next one starts, and the last ends at the node itself |
| `Chord.IntervalIsDistance` | src/tetrish/system_programs/chord.c:18-28 | A key lies in a finger's interval exactly when its clockwise distance lies in [2^(i-1), 2^i) |
| `Chord.FingersTile` | README.md:89-106 | Every key but the node's own lies in exactly one finger interval; the node's own lies in none |
| `Chord.FindSuccessor` | src/tetrish/system_programs/chord.c:46-55 | Returns the first listed peer not below the key, or the first peer of the list when there is none |
| `Chord.SuccessorIsNearest` | src/tetrish/system_programs/chord.c:46-55 | On sorted peers that is the peer of least clockwise distance from the key |
| `Chord.OwnershipIsArc` | README.md:73-81 | The keys mapped to peer j are exactly the circular interval (predecessor, peer j] |
| `Chord.EveryKeyHasOwner` | README.md:73-81 | Every key lies in the interval of exactly one peer |
| `Chord.ChordNode.CalculateFingers` | src/tetrish/system_programs/chord.c:30-43 | In place: every finger gets its interval and the node's successor |
| `Chord.ChordNode.CalculateFingersKnown` | src/tetrish/system_programs/chord.c:57-71 | In place: every finger gets its interval and the peer that the search finds for its start; an empty list changes nothing |
| `Chord.FingerIsFirstLivePeer` | src/tetrish/system_programs/chord.c:57-71 | In a table built from a sorted list with the node in it, a finger's successor is the first live peer at clockwise distance 2^(i-1) or more, at most a full turn away |
| `Chord.FingerSuccessorsOrdered` | src/tetrish/system_programs/chord.c:57-71 | Later fingers never point less far around the ring |

## Left out

- Widths of terms, indices and ids in memory: they are unbounded naturals, so wrap-around of a 64-bit term is not modelled; the text of records does have its C limits.
- Clocks, random election timeouts and heartbeat timing: elections are shown to be possible from every reachable state, not to succeed by themselves.
- Mutexes, interleavings inside a handler, and records that are written only in part.
- Transient write failures: once a write of a node fails all later ones do, and in the cluster the node restarts at once; a node that goes on answering after a failed write, as after raft.c:348-352, is modelled for one node only.
- RecordText.ParseLine: a number too large for the type it is read into becomes the nearest value of that type, where C leaves the result open; no record is ever printed with one.
- Recovery.TextRecovery: asks that every number written fits its C type, because memory has no widths here.
- Cluster.Apply: draining a node whose commit index exceeds its log is no step, because that would deliver array slots that hold no entry; guarded runs never get there, and RaftServer.Server.CommitEntries models the read itself.
- Membership change: raft.c only ever sets the peer count to 0, so the peer list is a parameter.
- Checks for null pointers, opening and creating the log file, debug printing, the empty writeLog, and the functions that are commented out.
- Peer hosts and ports, sockets, certificates, the shell, the daemons, tetrisd and its clients: plumbing around the two cores.
- Log compaction, Chord joins and Chord routing: the files modelled do not implement them.
