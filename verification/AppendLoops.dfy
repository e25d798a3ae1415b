/** The append loop of a follower, against the log of the leader whose batch it handles: the loop does
    nothing, or cuts the log at the first conflict, and then copies entries of the leader. */
module AppendLoops {
  import opened RaftTypes
  import opened RaftNode

  function EntryRecords(es: seq<Entry>): (r: seq<Record>)
    ensures |r| == |es|
  {
    seq(|es|, k requires 0 <= k < |es| => EntryRecord(es[k]))
  }

  /** How a loop over a batch of ldr can end: log[..pos] agrees with ldr, and entries pos..m are copied,
      after a cut if log goes on past pos. m == pos without a cut means that nothing happened. */
  ghost predicate LoopShape(log: Log, ldr: Log, r: LoopResult, pos: nat, m: nat, cut: bool, n: nat) {
    && r.stop != Rejected
    && pos <= m <= |ldr| && Carries(log, ldr, pos)
    && (cut ==> pos < |log| && pos < |ldr| && pos < n && log[pos].term != ldr[pos].term)
    && (cut || pos < m ==> m <= n && r.log == ldr[..m])
    && (!cut && pos == m ==> r.log == log)
    && (!cut && pos < m ==> pos == |log|)
    && r.writes == (if cut then [TruncateRecord(pos + 1)] else []) + EntryRecords(ldr[pos..m])
    && (r.stop == Done ==> Carries(r.log, ldr, n))
  }

  /** One turn of the loop at the end of the log. */
  lemma AppendOne(log: Log, req: AppendRequest, k: nat, w: nat)
    requires k < |req.entries| && |log| == req.prevIndex + k < RAFT_LOG_CAP
    requires req.entries[k].index == |log| + 1
    ensures w == 0 ==> AppendLoop(log, req.prevIndex, req.entries, k, w) == LoopResult(log, [], WriteFailed)
    ensures w > 0 ==>
              var e := req.entries[k];
              var r := AppendLoop(log + [e], req.prevIndex, req.entries, k + 1, w - 1);
              AppendLoop(log, req.prevIndex, req.entries, k, w) == LoopResult(r.log, [EntryRecord(e)] + r.writes, r.stop)
  {
    assert [] + [EntryRecord(req.entries[k])] == [EntryRecord(req.entries[k])];
  }

  lemma EntryRecordsCons(ldr: Log, a: nat, m: nat)
    requires a < m <= |ldr|
    ensures EntryRecords(ldr[a..m]) == [EntryRecord(ldr[a])] + EntryRecords(ldr[a + 1..m])
  {
    assert ldr[a..m] == [ldr[a]] + ldr[a + 1..m];
  }

  /** From a log that is a prefix of the leader's, the loop copies. */
  lemma {:induction false} CopyLoop(log: Log, ldr: Log, req: AppendRequest, k: nat, w: nat) returns (m: nat)
    requires IsSlice(req, ldr) && Numbered(ldr) && |ldr| <= RAFT_LOG_CAP && k <= |req.entries|
    requires |log| == req.prevIndex + k && log == ldr[..|log|]
    ensures var r := AppendLoop(log, req.prevIndex, req.entries, k, w);
            && |log| <= m <= EndIndex(req) && r.log == ldr[..m] && r.stop != Rejected
            && r.writes == EntryRecords(ldr[|log|..m])
            && (r.stop == Done ==> m == EndIndex(req))
    decreases |req.entries| - k
  {
    m := |log|;
    if k < |req.entries| {
      assert req.entries[k] == ldr[|log|];
      AppendOne(log, req, k, w);
      if w > 0 {
        assert log + [ldr[|log|]] == ldr[..|log| + 1];
        m := CopyLoop(ldr[..|log| + 1], ldr, req, k + 1, w - 1);
        EntryRecordsCons(ldr, |log|, m);
      }
    }
  }

  /** Every way the loop can end. */
  lemma {:induction false} LoopEnds(log: Log, ldr: Log, req: AppendRequest, k: nat, w: nat)
      returns (pos: nat, m: nat, cut: bool)
    requires IsSlice(req, ldr) && Numbered(ldr) && |ldr| <= RAFT_LOG_CAP && k <= |req.entries|
    requires Matching(log, ldr) && Carries(log, ldr, req.prevIndex + k)
    ensures LoopShape(log, ldr, AppendLoop(log, req.prevIndex, req.entries, k, w), pos, m, cut, EndIndex(req))
    ensures req.prevIndex + k <= pos
    decreases |req.entries| - k
  {
    pos := req.prevIndex + k;
    m, cut := pos, false;
    if k < |req.entries| {
      assert req.entries[k] == ldr[pos] && MatchingAt(log, ldr, pos);
      if pos == |log| {
        assert log == log[..pos];
        m := CopyLoop(log, ldr, req, k, w);
      } else if log[pos].term == ldr[pos].term {
        pos, m, cut := LoopEnds(log, ldr, req, k + 1, w);
      } else if w > 0 {
        cut := true;
        m := CutThenCopy(log, ldr, req, k, w);
      }
    }
  }

  /** Once the cut is done, the loop goes on as if the log had been that short all along. */
  lemma CutTurn(log: Log, prev: Index, entries: seq<Entry>, k: nat, w: nat)
    requires k < |entries| && w > 0 && prev + k < |log| && entries[k].index == prev + k + 1
    requires log[prev + k].term != entries[k].term
    ensures var r := AppendLoop(log[..prev + k], prev, entries, k, w - 1);
            AppendLoop(log, prev, entries, k, w) == LoopResult(r.log, [TruncateRecord(prev + k + 1)] + r.writes, r.stop)
  {
    var pos, e := prev + k, entries[k];
    if w - 1 > 0 && pos < RAFT_LOG_CAP {
      var rest := AppendLoop(log[..pos] + [e], prev, entries, k + 1, w - 2);
      assert [TruncateRecord(pos + 1)] + [EntryRecord(e)] + rest.writes
          == [TruncateRecord(pos + 1)] + ([] + [EntryRecord(e)] + rest.writes);
    }
  }

  lemma CutThenCopy(log: Log, ldr: Log, req: AppendRequest, k: nat, w: nat) returns (m: nat)
    requires IsSlice(req, ldr) && Numbered(ldr) && |ldr| <= RAFT_LOG_CAP && k < |req.entries| && w > 0
    requires var pos := req.prevIndex + k;
             Carries(log, ldr, pos) && pos < |log| && log[pos].term != ldr[pos].term
    ensures LoopShape(log, ldr, AppendLoop(log, req.prevIndex, req.entries, k, w), req.prevIndex + k, m, true, EndIndex(req))
  {
    var pos := req.prevIndex + k;
    assert req.entries[k] == ldr[pos];
    m := CopyLoop(log[..pos], ldr, req, k, w - 1);
    CutTurn(log, req.prevIndex, req.entries, k, w);
  }

  /** The consistency check does its job: a log that passes it agrees with the leader up to prevIndex. */
  lemma PrevCarries(log: Log, ldr: Log, req: AppendRequest)
    requires IsSlice(req, ldr) && Matching(log, ldr) && PrevMatches(log, req)
    ensures Carries(log, ldr, req.prevIndex)
  {
    if req.prevIndex > 0 { assert MatchingAt(log, ldr, req.prevIndex - 1); }
  }

  /** One turn of the append loop for an entry that the log does not hold. */
  ghost function TakeOne(log: Log, pos: Index, e: Entry, w: nat): LoopResult {
    var cut := pos < |log|;
    if cut && w == 0 then LoopResult(log, [], WriteFailed)
    else
      var log1 := if cut then log[..pos] else log;
      var ws := if cut then [TruncateRecord(pos + 1)] else [];
      if |log1| >= RAFT_LOG_CAP then LoopResult(log1, ws, Rejected)
      else if w == |ws| then LoopResult(log1, ws, WriteFailed)
      else LoopResult(log1 + [e], ws + [EntryRecord(e)], Done)
  }

  lemma LoopTurn(log: Log, prev: Index, entries: seq<Entry>, i: nat, w: nat)
    requires i < |entries| && entries[i].index == prev + i + 1
    requires !(prev + i < |log| && log[prev + i].term == entries[i].term)
    ensures var t := TakeOne(log, prev + i, entries[i], w);
            && |t.writes| <= w
            && (t.stop != Done ==> AppendLoop(log, prev, entries, i, w) == t)
            && (t.stop == Done ==>
                  var rest := AppendLoop(t.log, prev, entries, i + 1, w - |t.writes|);
                  AppendLoop(log, prev, entries, i, w) == LoopResult(rest.log, t.writes + rest.writes, rest.stop))
  {
  }

  /** A write fails only when the whole budget has been spent. */
  lemma {:induction false} LoopBudget(log: Log, prev: Index, entries: seq<Entry>, i: nat, w: nat)
    requires i <= |entries|
    ensures var r := AppendLoop(log, prev, entries, i, w);
            |r.writes| <= w && (r.stop == WriteFailed ==> |r.writes| == w)
    decreases |entries| - i
  {
    if i < |entries| && entries[i].index == prev + i + 1 {
      if prev + i < |log| && log[prev + i].term == entries[i].term {
        LoopBudget(log, prev, entries, i + 1, w);
      } else {
        var one := TakeOne(log, prev + i, entries[i], w);
        LoopTurn(log, prev, entries, i, w);
        if one.stop == Done {
          LoopBudget(one.log, prev, entries, i + 1, w - |one.writes|);
        }
      }
    }
  }
}
