/** raft_node as the object it is in raft.c: fixed arrays and counters that the handlers change in place. Each
    method is tied to the function of RaftNode that says what the handler does to a node. */
module RaftServer {
  import opened RaftTypes
  import opened RaftNode
  import opened AppendLoops
  import opened RecordText

  /** The loop will end as r says if, with ws already written, it goes on from entry i. */
  ghost predicate Remains(r: LoopResult, ws: seq<Record>, log: Log, prev: Index, entries: seq<Entry>, i: nat, w: nat)
    requires i <= |entries|
  {
    var rest := AppendLoop(log, prev, entries, i, w);
    r == LoopResult(rest.log, ws + rest.writes, rest.stop)
  }

  lemma RemainsTurn(r: LoopResult, ws: seq<Record>, log: Log, prev: Index, entries: seq<Entry>, i: nat, w: nat)
    requires i < |entries| && Remains(r, ws, log, prev, entries, i, w)
    ensures entries[i].index != prev + i + 1 ==> r == LoopResult(log, ws, Rejected)
    ensures entries[i].index == prev + i + 1 ==>
              if prev + i < |log| && log[prev + i].term == entries[i].term
              then Remains(r, ws, log, prev, entries, i + 1, w)
              else
                var t := TakeOne(log, prev + i, entries[i], w);
                && |t.writes| <= w
                && (t.stop != Done ==> r == LoopResult(t.log, ws + t.writes, t.stop))
                && (t.stop == Done ==> Remains(r, ws + t.writes, t.log, prev, entries, i + 1, w - |t.writes|))
  {
    if entries[i].index == prev + i + 1 && !(prev + i < |log| && log[prev + i].term == entries[i].term) {
      LoopTurn(log, prev, entries, i, w);
      var t := TakeOne(log, prev + i, entries[i], w);
      if t.stop == Done {
        var rest := AppendLoop(t.log, prev, entries, i + 1, w - |t.writes|);
        assert ws + (t.writes + rest.writes) == ws + t.writes + rest.writes;
      }
    }
  }

  class Server {
    var role: Role
    var id: NodeId
    var leaderId: NodeId
    const peers: seq<NodeId>

    var currentTerm: Term
    var votedFor: NodeId
    const log: array<Entry>
    var logLen: nat

    var commitIndex: Index
    var lastApplied: Index

    var electionTerm: Term
    const responded: array<bool>
    const granted: array<bool>

    const nextIndex: array<Index>
    const matchIndex: array<Index>

    /** The log file, one record per printed line, and how many more writes to it succeed. */
    var file: seq<Record>
    var writesLeft: nat

    ghost predicate Valid()
      reads this
    {
      && log.Length == RAFT_LOG_CAP && logLen <= RAFT_LOG_CAP
      && |peers| <= RAFT_MAX_PEERS
      && responded.Length == granted.Length == nextIndex.Length == matchIndex.Length == RAFT_MAX_PEERS
      && responded != granted && nextIndex != matchIndex
    }

    /** The node that this object represents. */
    ghost function Abs(): Node
      requires Valid()
      reads this, log, responded, granted, nextIndex, matchIndex
    {
      Node(role, id, leaderId, peers, Persistent(currentTerm, votedFor, log[..logLen]), commitIndex, lastApplied,
           CandidateState(electionTerm, responded[..|peers|], granted[..|peers|]),
           LeaderState(nextIndex[..|peers|], matchIndex[..|peers|]))
    }

    /** The object is in the state that the outcome describes, and the file grew by the records written. */
    ghost predicate Did(o: Outcome, file0: seq<Record>, writes0: nat)
      reads this, log, responded, granted, nextIndex, matchIndex
    {
      Valid() && Abs() == o.node && file == file0 + o.writes && writesLeft == writes0 - |o.writes|
    }

    // ---------- Records ----------

    /** One dprintf and fdatasync. */
    method Persist(r: Record) returns (ok: bool)
      requires Valid()
      modifies this`file, this`writesLeft
      ensures ok == (old(writesLeft) > 0)
      ensures file == old(file) + if ok then [r] else []
      ensures writesLeft == if ok then old(writesLeft) - 1 else old(writesLeft)
      ensures Valid() && Abs() == old(Abs())
    {
      ok := writesLeft > 0;
      if ok {
        file := file + [r];
        writesLeft := writesLeft - 1;
      }
    }

    /** One turn of the loop in restore_pstate, for a line that holds a record. */
    method RestoreRecord(r: Record) returns (ok: bool)
      requires Valid()
      modifies this`currentTerm, this`votedFor, this`logLen, log
      ensures Valid()
      ensures var q := ReplayStep(old(Abs()).pstate, r);
              ok == q.Restored? && Abs() == old(Abs()).(pstate := q.p)
    {
      ghost var p := Persistent(currentTerm, votedFor, log[..logLen]);
      match r {
        case StateRecord(t, v) =>
          currentTerm, votedFor := t, v;
        case TruncateRecord(from) =>
          if from == 0 { return false; }
          if from <= logLen + 1 {
            logLen := from - 1;
            assert log[..logLen] == p.log[..from - 1];
          }
        case EntryRecord(e) =>
          if e.index != logLen + 1 || logLen >= RAFT_LOG_CAP { return false; }
          log[logLen] := e;
          logLen := logLen + 1;
          assert log[..logLen] == p.log + [e];
      }
      ok := true;
    }

    /** restore_pstate: read the text of the file line by line into the persistent fields. */
    method RestoreState(content: string) returns (ok: bool)
      requires Valid() && currentTerm == 0 && votedFor == RAFT_NONE && logLen == 0
      modifies this`currentTerm, this`votedFor, this`logLen, log
      ensures Valid()
      ensures var r := RestoreText(FRESH, content);
              ok == r.Restored? && Abs() == old(Abs()).(pstate := r.p)
    {
      var text := content;
      assert log[..logLen] == [];
      while text != ""
        invariant Valid() && Abs() == old(Abs()).(pstate := Abs().pstate)
        invariant RestoreText(FRESH, content) == RestoreText(Abs().pstate, text)
        decreases |text|
      {
        var n := LineLength(text, LINE_BUFFER - 1);
        var parsed := ParseLine(text[..n]);
        text := text[n..];
        if parsed.Some? {
          ok := RestoreRecord(parsed.value);
          if !ok { return; }
        }
      }
      ok := true;
    }

    /** initialise_raft_sm, with the peer list given and the file that the process finds. After a bad record the
        file is not opened for writing, so no write succeeds. */
    constructor (id: NodeId, peers: seq<NodeId>, file: seq<Record>, writes: nat)
      requires |peers| <= RAFT_MAX_PEERS
      ensures Valid() && Abs() == InitNode(id, peers, RestoreText(FRESH, FileText(file)).p)
      ensures this.file == file
      ensures writesLeft == if RestoreText(FRESH, FileText(file)).Restored? then writes else 0
    {
      role, this.id, leaderId, this.peers := Follower, id, RAFT_NONE, peers;
      currentTerm, votedFor, logLen := 0, RAFT_NONE, 0;
      log := new Entry[RAFT_LOG_CAP](_ => Entry(0, 0, Command(Noop, 0, 0, 0)));
      commitIndex, lastApplied, electionTerm := 0, 0, 0;
      responded, granted := new bool[RAFT_MAX_PEERS](_ => false), new bool[RAFT_MAX_PEERS](_ => false);
      nextIndex, matchIndex := new Index[RAFT_MAX_PEERS](_ => 0), new Index[RAFT_MAX_PEERS](_ => 0);
      this.file, writesLeft := file, writes;
      new;
      assert responded[..|peers|] == Falses(|peers|) && granted[..|peers|] == Falses(|peers|);
      assert nextIndex[..|peers|] == Fill(|peers|, 0) && matchIndex[..|peers|] == Fill(|peers|, 0);
      assert Abs() == InitNode(id, peers, FRESH);
      var ok := RestoreState(FileText(file));
      if !ok { writesLeft := 0; }
    }

    // ---------- Helpers ----------

    /** find_peer_idx; the length of the list stands for SIZE_MAX. */
    method FindPeerIndex(peer: NodeId) returns (k: nat)
      requires Valid()
      ensures var f := FindPeer(peers, peer); k == if f.Some? then f.value else |peers|
    {
      k := |peers|;
      for i := 0 to |peers|
        invariant var f := FindPeer(peers[..i], peer); k == if f.Some? then f.value else |peers|
      {
        assert peers[..i + 1][..i] == peers[..i];
        if peers[i] == peer { k := i; }
      }
      assert peers[..|peers|] == peers;
    }

    /** raft_clear_candidate_state and raft_init_candidate_state. */
    method ResetCandidate(t: Term)
      requires Valid()
      modifies this`electionTerm, responded, granted
      ensures Valid() && Abs() == old(Abs()).(cstate := CandidateState(t, Falses(|peers|), Falses(|peers|)))
    {
      electionTerm := t;
      forall i | 0 <= i < RAFT_MAX_PEERS { responded[i] := false; }
      forall i | 0 <= i < RAFT_MAX_PEERS { granted[i] := false; }
      assert responded[..|peers|] == Falses(|peers|) && granted[..|peers|] == Falses(|peers|);
    }

    /** raft_clear_leader_state. */
    method ClearLeader()
      requires Valid()
      modifies nextIndex, matchIndex
      ensures Valid() && Abs() == old(Abs()).(lstate := ClearedLeader(|peers|))
    {
      forall i | 0 <= i < RAFT_MAX_PEERS { nextIndex[i] := 0; }
      forall i | 0 <= i < RAFT_MAX_PEERS { matchIndex[i] := 0; }
      assert nextIndex[..|peers|] == Fill(|peers|, 0) && matchIndex[..|peers|] == Fill(|peers|, 0);
    }

    /** raft_init_leader_state. */
    method InitLeaderState()
      requires Valid()
      modifies this`role, this`leaderId, nextIndex, matchIndex
      ensures Valid() && Abs() == InitLeader(old(Abs()))
    {
      role, leaderId := Leader, id;
      ClearLeader();
      for i := 0 to |peers|
        modifies nextIndex, matchIndex
        invariant forall k :: 0 <= k < i ==> nextIndex[k] == logLen + 1
        invariant forall k :: 0 <= k < i ==> matchIndex[k] == 0
      {
        nextIndex[i] := logLen + 1;
        matchIndex[i] := 0;
      }
      assert nextIndex[..|peers|] == Fill(|peers|, logLen + 1) && matchIndex[..|peers|] == Fill(|peers|, 0);
      assert log[..logLen] == old(log[..logLen]);
      assert responded[..|peers|] == old(responded[..|peers|]) && granted[..|peers|] == old(granted[..|peers|]);
    }

    /** update_term_locked, for a term that is news. */
    method EnterTerm(t: Term) returns (ok: bool)
      requires Valid() && t > currentTerm
      modifies this, responded, granted, nextIndex, matchIndex
      ensures var o := UpdateTerm(old(Abs()), t, old(writesLeft));
              Did(o, old(file), old(writesLeft)) && ok == !o.failed
    {
      StepDown(t);
      ok := Persist(StateRecord(currentTerm, votedFor));
      if !ok {
        role := Failed;
        return;
      }
      ResetCandidate(0);
      ClearLeader();
    }

    /** What update_term_locked changes before its record. */
    method StepDown(t: Term)
      requires Valid()
      modifies this`role, this`currentTerm, this`votedFor, this`leaderId
      ensures Valid()
      ensures Abs() == old(Abs()).(role := if old(role) == Failed then Failed else Follower, leaderId := RAFT_NONE,
                                   pstate := old(Abs()).pstate.(term := t, votedFor := RAFT_NONE))
    {
      if role != Failed { role := Follower; }
      currentTerm, votedFor, leaderId := t, RAFT_NONE, RAFT_NONE;
    }

    /** update_term_locked. */
    method UpdateTermTo(t: Term) returns (ok: bool)
      requires Valid()
      modifies this, responded, granted, nextIndex, matchIndex
      ensures var o := UpdateTerm(old(Abs()), t, old(writesLeft));
              Did(o, old(file), old(writesLeft)) && ok == !o.failed
    {
      if t <= currentTerm {
        assert file == old(file) + [];
        return true;
      }
      ok := EnterTerm(t);
    }

    // ---------- Elections ----------

    /** The part of raft_timeout that votes for the node itself, and records it. */
    method Campaign() returns (ok: bool)
      requires Valid()
      modifies this, responded, granted
      ensures ok == (old(writesLeft) > 0)
      ensures var n := old(Abs());
              var t := n.pstate.term + 1;
              var n1 := n.(leaderId := RAFT_NONE, role := Candidate, pstate := n.pstate.(term := t, votedFor := n.id));
              if ok
              then Did(Outcome(n1.(cstate := CandidateState(t, Falses(|peers|), Falses(|peers|))), [StateRecord(t, n.id)], false),
                       old(file), old(writesLeft))
              else Did(Outcome(n1, [], true), old(file), old(writesLeft))
    {
      leaderId, role, currentTerm, votedFor := RAFT_NONE, Candidate, currentTerm + 1, id;
      assert log[..logLen] == old(log[..logLen]);
      ok := Persist(StateRecord(currentTerm, votedFor));
      if ok { ResetCandidate(currentTerm); }
    }

    /** raft_timeout up to the messages: become a candidate, or at once the leader of a one-node cluster. */
    method StartElection() returns (req: Option<VoteRequest>)
      requires Valid()
      modifies this, responded, granted, nextIndex, matchIndex
      ensures var (o, r) := Timeout(old(Abs()), old(writesLeft));
              Did(o, old(file), old(writesLeft)) && req == r
    {
      ghost var n := Abs();
      if role == Failed || role == Leader {
        assert file == old(file) + [];
        return None;
      }
      var ok := Campaign();
      if !ok { return None; }
      if Majority(|peers| + 1) == 1 {
        InitLeaderState();
        return None;
      }
      req := Some(VoteRequest(currentTerm, logLen, LastLogTerm(), id));
    }

    /** raft_timeout: the slots of out that get a vote request, each with its peer index. */
    method HandleTimeout(expired: bool, cap: nat) returns (out: seq<(nat, VoteRequest)>)
      requires Valid()
      modifies this, responded, granted, nextIndex, matchIndex
      ensures !expired ==> Valid() && Abs() == old(Abs()) && file == old(file) && writesLeft == old(writesLeft) && out == []
      ensures expired ==>
                var (o, req) := Timeout(old(Abs()), old(writesLeft));
                && Did(o, old(file), old(writesLeft))
                && (req.None? ==> out == [])
                && (req.Some? ==> |out| == (if cap < |peers| then cap else |peers|)
                                  && forall k :: 0 <= k < |out| ==> out[k] == (k, req.value))
    {
      out := [];
      if !expired { return; }
      var req := StartElection();
      if req.None? { return; }
      for i := 0 to |peers|
        modifies {}
        invariant |out| == if cap < i then cap else i
        invariant forall k :: 0 <= k < |out| ==> out[k] == (k, req.value)
      {
        if |out| < cap { out := out + [(i, req.value)]; }
      }
    }

    /** raft_last_log_term. */
    function LastLogTerm(): (t: Term)
      requires Valid()
      reads this, log
      ensures t == LastTerm(log[..logLen])
    {
      if logLen == 0 then 0 else log[logLen - 1].term
    }

    /** HandleRequestVoteRequest. */
    method HandleVote(req: VoteRequest) returns (resp: VoteResponse)
      requires Valid()
      modifies this, responded, granted, nextIndex, matchIndex
      ensures var (o, r) := HandleVoteRequest(old(Abs()), req, old(writesLeft));
              Did(o, old(file), old(writesLeft)) && resp == r
    {
      ghost var n := Abs();
      ghost var up := UpdateTerm(n, req.term, writesLeft);
      resp := VoteResponse(currentTerm, false);
      var ok := UpdateTermTo(req.term);
      if req.term < currentTerm || role == Leader { return; }
      ghost var n1 := Abs();
      if (votedFor == RAFT_NONE || votedFor == req.candidateId)
         && CheckLog(req.lastIndex, req.lastTerm, logLen, LastLogTerm()) {
        votedFor := req.candidateId;
        ok := Persist(StateRecord(currentTerm, votedFor));
        assert log[..logLen] == n1.pstate.log;
        if !ok {
          role := Failed;
          assert file == old(file) + up.writes;
          return;
        }
        assert file == old(file) + (up.writes + [StateRecord(currentTerm, votedFor)]);
        resp := VoteResponse(resp.term, true);
      }
    }

    /** The vote count of HandleRequestVoteResponse, with the candidate's own vote. */
    method CountVotes() returns (votes: nat)
      requires Valid()
      ensures votes == 1 + CountTrue(granted[..|peers|])
    {
      votes := 1;
      for i := 0 to |peers|
        invariant votes == 1 + CountTrue(granted[..i])
      {
        assert granted[..i + 1][..i] == granted[..i];
        if granted[i] { votes := votes + 1; }
      }
    }

    /** HandleRequestVoteResponse. */
    method HandleVoteReply(resp: VoteResponse, peer: NodeId)
      requires Valid()
      modifies this, responded, granted, nextIndex, matchIndex
      ensures Did(HandleVoteResponse(old(Abs()), resp, peer, old(writesLeft)), old(file), old(writesLeft))
    {
      ghost var n := Abs();
      if resp.term > currentTerm {
        var _ := UpdateTermTo(resp.term);
        return;
      }
      assert file == old(file) + [];
      if role != Candidate || resp.term != currentTerm || resp.term != electionTerm { return; }
      var k := FindPeerIndex(peer);
      if k == |peers| || responded[k] { return; }
      responded[k] := true;
      granted[k] := resp.granted;
      assert responded[..|peers|] == n.cstate.responded[k := true];
      assert granted[..|peers|] == n.cstate.granted[k := resp.granted];
      assert log[..logLen] == n.pstate.log;
      var votes := CountVotes();
      if votes >= Majority(|peers| + 1) {
        InitLeaderState();
      }
    }

    // ---------- Committing ----------

    /** The inner loop of AdvanceCommitIndex_locked: the leader and every peer that matches n. */
    method CountMatches(n: Index) returns (track: nat)
      requires Valid()
      ensures track == 1 + CountTrue(AtLeast(matchIndex[..|peers|], n))
    {
      ghost var flags := AtLeast(matchIndex[..|peers|], n);
      track := 1;
      for i := 0 to |peers|
        invariant track == 1 + CountTrue(flags[..i])
      {
        assert flags[..i + 1][..i] == flags[..i];
        if matchIndex[i] >= n { track := track + 1; }
      }
      assert flags[..|peers|] == flags;
    }

    /** AdvanceCommitIndex_locked. */
    method AdvanceCommitIndex()
      requires Valid()
      modifies this`commitIndex
      ensures Valid() && Abs() == AdvanceCommit(old(Abs()))
    {
      ghost var a := Abs();
      if role != Leader { return; }
      var n: nat := logLen;
      while n > commitIndex
        invariant n <= logLen && Abs() == a && ScanCommit(a, logLen) == ScanCommit(a, n)
      {
        if log[n - 1].term == currentTerm {
          var track := CountMatches(n);
          if track >= Majority(|peers| + 1) {
            assert Committable(a, n);
            commitIndex := n;
            return;
          }
        }
        assert !Committable(a, n);
        n := n - 1;
      }
    }

    /** raft_commit_entry: copies entries between lastApplied and commitIndex into the caller's buffer. It reads the
        array, so it needs the commit index to lie in the array; OrderedDelivery shows that it lies in the log. */
    method CommitEntries(out: array<Entry>) returns (count: nat)
      requires Valid() && commitIndex <= RAFT_LOG_CAP && out != log
      modifies this`lastApplied, out
      ensures Valid() && count == DrainCount(old(Abs()), out.Length) <= out.Length
      ensures count == if old(lastApplied) < commitIndex then Min(commitIndex - old(lastApplied), out.Length) else 0
      ensures Abs() == old(Abs()).(lastApplied := old(lastApplied) + count)
      ensures forall k :: 0 <= k < count ==> out[k] == log[old(lastApplied) + k]
      ensures forall k :: count <= k < out.Length ==> out[k] == old(out[k])
    {
      count := 0;
      while lastApplied < commitIndex && count < out.Length
        invariant count <= out.Length && lastApplied == old(lastApplied) + count
        invariant count > 0 ==> lastApplied <= commitIndex
        invariant forall k :: 0 <= k < count ==> out[k] == log[old(lastApplied) + k]
        invariant forall k :: count <= k < out.Length ==> out[k] == old(out[k])
        decreases commitIndex - lastApplied
      {
        out[count] := log[lastApplied];
        count, lastApplied := count + 1, lastApplied + 1;
      }
      assert log[..logLen] == old(log[..logLen]);
    }

    // ---------- Replication: the leader ----------

    /** raft_append_entries: the copy loop. */
    method BuildRequest(k: nat) returns (req: Option<AppendRequest>)
      requires Valid()
      requires role == Leader && k < |peers| ==> 1 <= nextIndex[k] <= logLen + 1
      ensures req == BuildAppend(Abs(), k)
    {
      if role != Leader || k >= |peers| { return None; }
      var prev := nextIndex[k] - 1;
      var prevTerm := if prev > 0 then log[prev - 1].term else 0;
      var available := logLen - prev;
      var count := if available < RAFT_APPEND_BATCH then available else RAFT_APPEND_BATCH;
      var entries: seq<Entry> := [];
      for i := 0 to count
        invariant |entries| == i && forall j :: 0 <= j < i ==> entries[j] == log[prev + j]
      {
        entries := entries + [log[prev + i]];
      }
      assert entries == log[..logLen][prev..prev + count];
      req := Some(AppendRequest(currentTerm, id, prev, prevTerm, commitIndex, entries));
    }

    /** heartbeat_tick. */
    method Heartbeat() returns (req: Option<AppendRequest>)
      requires Valid()
      ensures req == BuildHeartbeat(Abs())
    {
      if role != Leader { return None; }
      req := Some(AppendRequest(currentTerm, id, 0, 0, commitIndex, []));
    }

    /** HandleAppendEntriesResponse. */
    method HandleAppendReply(resp: AppendResponse, peer: NodeId)
      requires Valid()
      modifies this, responded, granted, nextIndex, matchIndex
      ensures Did(HandleAppendResponse(old(Abs()), resp, peer, old(writesLeft)), old(file), old(writesLeft))
    {
      ghost var n := Abs();
      assert file == old(file) + [];
      if role != Leader || currentTerm > resp.term { return; }
      if currentTerm < resp.term {
        var _ := UpdateTermTo(resp.term);
        return;
      }
      var k := FindPeerIndex(peer);
      if k == |peers| { return; }
      if resp.success {
        if nextIndex[k] < resp.matchIndex {
          matchIndex[k] := resp.matchIndex;
          nextIndex[k] := resp.matchIndex + 1;
          assert nextIndex[..|peers|] == n.lstate.next[k := resp.matchIndex + 1];
          assert matchIndex[..|peers|] == n.lstate.matched[k := resp.matchIndex];
        }
        assert log[..logLen] == n.pstate.log && responded[..|peers|] == n.cstate.responded;
        assert granted[..|peers|] == n.cstate.granted;
        AdvanceCommitIndex();
        return;
      }
      if nextIndex[k] > 1 {
        nextIndex[k] := nextIndex[k] - 1;
        assert nextIndex[..|peers|] == n.lstate.next[k := n.lstate.next[k] - 1];
        assert matchIndex[..|peers|] == n.lstate.matched;
        assert log[..logLen] == n.pstate.log && responded[..|peers|] == n.cstate.responded;
        assert granted[..|peers|] == n.cstate.granted;
      }
    }

    /** raft_leader_send_command. */
    method TakeCommand(c: Command) returns (accepted: bool)
      requires Valid()
      modifies this, log
      ensures var (o, ok) := SendCommand(old(Abs()), c, old(writesLeft));
              Did(o, old(file), old(writesLeft)) && accepted == ok
    {
      ghost var n := Abs();
      assert file == old(file) + [];
      if role != Leader || logLen >= RAFT_LOG_CAP { return false; }
      var e := Entry(logLen + 1, currentTerm, c);
      var ok := Persist(EntryRecord(e));
      if !ok {
        role := Failed;
        assert Abs() == n.(role := Failed);
        return false;
      }
      log[logLen] := e;
      logLen := logLen + 1;
      assert log[..logLen] == n.pstate.log + [e];
      if Majority(|peers| + 1) == 1 { commitIndex := e.index; }
      assert responded[..|peers|] == n.cstate.responded && granted[..|peers|] == n.cstate.granted;
      assert nextIndex[..|peers|] == n.lstate.next && matchIndex[..|peers|] == n.lstate.matched;
      accepted := true;
    }

    // ---------- Replication: the follower ----------

    /** One entry that is not there yet: cut a conflicting suffix, then append, each after its record. */
    method TakeEntry(pos: Index, e: Entry) returns (stop: Stop)
      requires Valid() && pos <= logLen
      modifies this`logLen, this`file, this`writesLeft, log
      ensures Valid()
      ensures var r := TakeOne(old(log[..logLen]), pos, e, old(writesLeft));
              && log[..logLen] == r.log && stop == r.stop
              && file == old(file) + r.writes && writesLeft == old(writesLeft) - |r.writes|
    {
      ghost var l := log[..logLen];
      assert file == old(file) + [];
      if pos < logLen {
        var cut := Persist(TruncateRecord(pos + 1));
        assert log[..logLen] == l;
        if !cut { return WriteFailed; }
        logLen := pos;
        assert log[..logLen] == l[..pos];
      }
      if logLen >= RAFT_LOG_CAP { return Rejected; }
      ghost var l1, f1 := log[..logLen], file;
      var ok := Persist(EntryRecord(e));
      assert log[..logLen] == l1;
      if !ok { return WriteFailed; }
      log[logLen] := e;
      logLen := logLen + 1;
      assert log[..logLen] == l1 + [e];
      stop := Done;
    }

    /** The loop of HandleAppendEntriesRequest. */
    method AppendBatch(prev: Index, entries: seq<Entry>) returns (stop: Stop)
      requires Valid() && prev <= logLen
      modifies this`logLen, this`file, this`writesLeft, log
      ensures Valid()
      ensures var r := AppendLoop(old(log[..logLen]), prev, entries, 0, old(writesLeft));
              && log[..logLen] == r.log && stop == r.stop
              && file == old(file) + r.writes && writesLeft == old(writesLeft) - |r.writes|
    {
      ghost var r := AppendLoop(log[..logLen], prev, entries, 0, writesLeft);
      ghost var goal := LoopResult(r.log, file + r.writes, r.stop);
      for i := 0 to |entries|
        invariant Valid() && prev + i <= logLen && |file| + writesLeft == old(|file| + writesLeft)
        invariant Remains(goal, file, log[..logLen], prev, entries, i, writesLeft)
      {
        RemainsTurn(goal, file, log[..logLen], prev, entries, i, writesLeft);
        var e := entries[i];
        if e.index != prev + i + 1 { return Rejected; }
        var pos := e.index - 1;
        if pos < logLen && log[pos].term == e.term { continue; }
        stop := TakeEntry(pos, e);
        if stop != Done { return; }
      }
      stop := Done;
    }

    /** Every accepted term makes its sender the known leader. */
    method Recognise(leader: NodeId)
      requires Valid()
      modifies this`role, this`leaderId
      ensures Valid() && Abs() == old(Abs()).(role := if old(role) == Failed then Failed else Follower, leaderId := leader)
    {
      if role != Failed { role := Follower; }
      leaderId := leader;
    }

    /** HandleAppendEntriesRequest after the term checks. */
    method Follow(req: AppendRequest) returns (resp: AppendResponse)
      requires Valid()
      modifies this, log
      ensures var (o, r) := FollowLeader(old(Abs()), req, old(writesLeft));
              Did(o, old(file), old(writesLeft)) && resp == r
    {
      ghost var n := Abs();
      resp := AppendResponse(currentTerm, false, 0);
      Recognise(req.leaderId);
      assert file == old(file) + [];
      if req.prevIndex > logLen { return; }
      if req.prevIndex > 0 && log[req.prevIndex - 1].term != req.prevTerm { return; }
      var stop := AppendBatch(req.prevIndex, req.entries);
      assert responded[..|peers|] == n.cstate.responded && granted[..|peers|] == n.cstate.granted;
      assert nextIndex[..|peers|] == n.lstate.next && matchIndex[..|peers|] == n.lstate.matched;
      match stop {
        case Rejected => return;
        case WriteFailed =>
          role := Failed;
          return;
        case Done =>
      }
      if req.leaderCommit > commitIndex {
        commitIndex := if req.leaderCommit < logLen then req.leaderCommit else logLen;
      }
      resp := AppendResponse(currentTerm, true, req.prevIndex + |req.entries|);
    }

    /** HandleAppendEntriesRequest. */
    method HandleAppend(req: AppendRequest) returns (resp: AppendResponse)
      requires Valid()
      modifies this, log, responded, granted, nextIndex, matchIndex
      ensures var (o, r) := HandleAppendRequest(old(Abs()), req, old(writesLeft));
              Did(o, old(file), old(writesLeft)) && resp == r
    {
      resp := AppendResponse(currentTerm, false, 0);
      if req.term < currentTerm {
        assert file == old(file) + [];
        return;
      }
      ghost var up := UpdateTerm(Abs(), req.term, writesLeft);
      var ok := UpdateTermTo(req.term);
      if !ok { return; }
      ghost var o := FollowLeader(up.node, req, writesLeft).0;
      resp := Follow(req);
      assert file == old(file) + (up.writes + o.writes);
    }
  }
}
