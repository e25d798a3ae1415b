/** Crashes between any two records: every prefix of a node's log file is the whole log file at some moment of the
    run, and replays to what the running node held in memory at that moment. */
module Recovery {
  import opened RaftTypes
  import opened RaftNode
  import opened AppendLoops
  import opened Cluster
  import opened ClusterInv
  import opened ClusterSteps
  import opened Safety
  import opened RecordText

  /** One turn of the loop with a smaller budget: the same turn, or one that dies within it. */
  lemma TakePrefix(log: Log, pos: Index, e: Entry, w: nat, v: nat)
    requires v <= w
    ensures var a, b := TakeOne(log, pos, e, v), TakeOne(log, pos, e, w);
            if |b.writes| <= v && b.stop == Done then a == b
            else v <= |b.writes| ==> a.stop != Done && a.writes == b.writes[..v]
  {
  }

  /** One turn of the loop with two budgets, and where its rest starts. */
  lemma PrefixTurn(log: Log, prev: Index, entries: seq<Entry>, i: nat, w: nat, v: nat)
    requires i < |entries| && entries[i].index == prev + i + 1 && v <= |AppendLoop(log, prev, entries, i, w).writes|
    requires !(prev + i < |log| && log[prev + i].term == entries[i].term)
    ensures var a, b := AppendLoop(log, prev, entries, i, v).writes, AppendLoop(log, prev, entries, i, w).writes;
            var one := TakeOne(log, prev + i, entries[i], w);
            if |one.writes| <= v && one.stop == Done then
              && |one.writes| <= w
              && a == one.writes + AppendLoop(one.log, prev, entries, i + 1, v - |one.writes|).writes
              && b == one.writes + AppendLoop(one.log, prev, entries, i + 1, w - |one.writes|).writes
            else a == b[..v]
  {
    LoopBudget(log, prev, entries, i, w);
    LoopTurn(log, prev, entries, i, w);
    LoopTurn(log, prev, entries, i, v);
    TakePrefix(log, prev + i, entries[i], w, v);
  }

  /** With a smaller budget the append loop writes the first records of the same stream. */
  lemma {:induction false} LoopPrefix(log: Log, prev: Index, entries: seq<Entry>, i: nat, w: nat, v: nat)
    requires i <= |entries| && v <= |AppendLoop(log, prev, entries, i, w).writes|
    ensures AppendLoop(log, prev, entries, i, v).writes == AppendLoop(log, prev, entries, i, w).writes[..v]
    decreases |entries| - i
  {
    if i < |entries| && entries[i].index == prev + i + 1 {
      if prev + i < |log| && log[prev + i].term == entries[i].term {
        LoopPrefix(log, prev, entries, i + 1, w, v);
      } else {
        PrefixTurn(log, prev, entries, i, w, v);
        var one := TakeOne(log, prev + i, entries[i], w);
        if |one.writes| <= v && one.stop == Done {
          LoopPrefix(one.log, prev, entries, i + 1, w - |one.writes|, v - |one.writes|);
        }
      }
    }
  }

  /** The records that a handler writes with budget v are the first v that it writes with budget w. */
  ghost predicate PrefixWrites(a: Outcome, b: Outcome, v: nat) {
    v <= |b.writes| && a.writes == b.writes[..v]
  }

  lemma VoteRequestPrefix(n: Node, req: VoteRequest, w: nat, v: nat)
    requires v <= |HandleVoteRequest(n, req, w).0.writes|
    ensures PrefixWrites(HandleVoteRequest(n, req, v).0, HandleVoteRequest(n, req, w).0, v)
  {
  }

  lemma FollowPrefix(n: Node, req: AppendRequest, w: nat, v: nat)
    requires v <= |FollowLeader(n, req, w).0.writes|
    ensures PrefixWrites(FollowLeader(n, req, v).0, FollowLeader(n, req, w).0, v)
  {
    if PrevMatches(n.pstate.log, req) {
      LoopPrefix(n.pstate.log, req.prevIndex, req.entries, 0, w, v);
    }
  }

  lemma AppendRequestPrefix(n: Node, req: AppendRequest, w: nat, v: nat)
    requires v <= |HandleAppendRequest(n, req, w).0.writes|
    ensures PrefixWrites(HandleAppendRequest(n, req, v).0, HandleAppendRequest(n, req, w).0, v)
  {
    if req.term >= n.pstate.term {
      var up := UpdateTerm(n, req.term, w);
      if !up.failed && v >= |up.writes| {
        FollowPrefix(up.node, req, w - |up.writes|, v - |up.writes|);
      }
    }
  }

  // ---------- Records and memory, one handler ----------

  /** The same step with another write budget. */
  function WithBudget(step: Step, v: nat): Step {
    match step
    case TimeoutStep(i, cap, _) => TimeoutStep(i, cap, v)
    case ReceiveStep(pkt, _) => ReceiveStep(pkt, v)
    case CommandStep(i, cmd, _) => CommandStep(i, cmd, v)
    case _ => step
  }

  /** What the handler that a step calls does to a node. */
  function Handled(n: Node, step: Step): Outcome
    requires Shaped(n)
  {
    match step
    case TimeoutStep(_, _, w) => Timeout(n, w).0
    case CommandStep(_, cmd, w) => SendCommand(n, cmd, w).0
    case ReceiveStep(pkt, w) =>
      (match pkt.body
       case VoteReq(req) => HandleVoteRequest(n, req, w).0
       case VoteResp(resp) => HandleVoteResponse(n, resp, pkt.src, w)
       case AppendReq(req) => HandleAppendRequest(n, req, w).0
       case AppendResp(resp) => HandleAppendResponse(n, resp, pkt.src, w))
    case _ => Outcome(n, [], false)
  }

  /** The STATE record of a term update that a vote request brings about is the v-th record of the handler. */
  predicate UpdatesTermAt(n: Node, step: Step, v: nat) {
    step.ReceiveStep? && step.pkt.body.VoteReq? && v == |UpdateTerm(n, step.pkt.body.vreq.term, v).writes|
  }

  /** What the running handler holds, in memory, right after its v-th record. Before the first record that is what it
      started with. After a later one it is what the handler holds when its next write comes up, with one exception:
      a vote is put into memory before its record, so between the record of a term update and the record of a vote
      it is what the term update left. */
  function HeldAfter(n: Node, step: Step, v: nat): Persistent
    requires Shaped(n)
  {
    if v == 0 then n.pstate
    else if UpdatesTermAt(n, step, v) then UpdateTerm(n, step.pkt.body.vreq.term, v).node.pstate
    else Handled(n, WithBudget(step, v)).node.pstate
  }

  lemma NothingWritten(disk: seq<Record>)
    ensures disk + [] == disk
  {
  }

  lemma Regroup(disk: seq<Record>, a: seq<Record>, b: seq<Record>)
    ensures disk + (a + b) == disk + a + b
  {
  }

  lemma TakeReplays(disk: seq<Record>, p: Persistent, pos: Index, e: Entry, w: nat)
    requires Replay(disk) == Restored(p) && pos <= |p.log| && e.index == pos + 1
    ensures var t := TakeOne(p.log, pos, e, w);
            && Replay(disk + t.writes) == Restored(p.(log := t.log))
            && (t.stop == Done ==> |t.log| == pos + 1)
  {
    var t := TakeOne(p.log, pos, e, w);
    var cut := if pos < |p.log| then [TruncateRecord(pos + 1)] else [];
    assert disk + [] == disk;
    if pos < |p.log| { ReplayOne(disk, TruncateRecord(pos + 1)); }
    if t.stop == Done {
      ReplayOne(disk + cut, EntryRecord(e));
      assert disk + (cut + [EntryRecord(e)]) == disk + cut + [EntryRecord(e)];
    }
  }

  /** One turn of the loop, and what the rest of the loop does from there. */
  lemma TurnReplays(disk: seq<Record>, p: Persistent, prev: Index, entries: seq<Entry>, i: nat, w: nat)
    requires Replay(disk) == Restored(p) && i < |entries| && prev + i <= |p.log| && entries[i].index == prev + i + 1
    requires !(prev + i < |p.log| && p.log[prev + i].term == entries[i].term)
    ensures var r, t := AppendLoop(p.log, prev, entries, i, w), TakeOne(p.log, prev + i, entries[i], w);
            && |t.writes| <= w && Replay(disk + t.writes) == Restored(p.(log := t.log))
            && (t.stop != Done ==> r == t)
            && (t.stop == Done ==>
                  && |t.log| == prev + i + 1
                  && var rest := AppendLoop(t.log, prev, entries, i + 1, w - |t.writes|);
                     r.log == rest.log && disk + r.writes == disk + t.writes + rest.writes)
  {
    LoopTurn(p.log, prev, entries, i, w);
    TakeReplays(disk, p, prev + i, entries[i], w);
    var t := TakeOne(p.log, prev + i, entries[i], w);
    if t.stop == Done {
      Regroup(disk, t.writes, AppendLoop(t.log, prev, entries, i + 1, w - |t.writes|).writes);
    }
  }

  /** A turn of the loop that writes nothing: the loop ends, or goes on with the next entry. */
  lemma IdleTurn(log: Log, prev: Index, entries: seq<Entry>, i: nat, w: nat)
    requires i <= |entries|
    ensures var r := AppendLoop(log, prev, entries, i, w);
            if i == |entries| || entries[i].index != prev + i + 1 then r.log == log && r.writes == []
            else prev + i < |log| && log[prev + i].term == entries[i].term ==> r == AppendLoop(log, prev, entries, i + 1, w)
  {
  }

  /** Whatever batch arrives and wherever its writes fail, the records of the loop replay to the log in memory. */
  lemma {:induction false} LoopReplays(disk: seq<Record>, p: Persistent, prev: Index, entries: seq<Entry>, i: nat, w: nat)
    requires Replay(disk) == Restored(p) && i <= |entries| && prev + i <= |p.log|
    ensures var r := AppendLoop(p.log, prev, entries, i, w);
            Replay(disk + r.writes) == Restored(p.(log := r.log))
    decreases |entries| - i
  {
    IdleTurn(p.log, prev, entries, i, w);
    if i == |entries| || entries[i].index != prev + i + 1 {
      NothingWritten(disk);
    } else if prev + i < |p.log| && p.log[prev + i].term == entries[i].term {
      LoopReplays(disk, p, prev, entries, i + 1, w);
    } else {
      TurnReplays(disk, p, prev, entries, i, w);
      var t := TakeOne(p.log, prev + i, entries[i], w);
      if t.stop == Done {
        LoopReplays(disk + t.writes, p.(log := t.log), prev, entries, i + 1, w - |t.writes|);
      }
    }
  }

  lemma UpdateReplays(disk: seq<Record>, n: Node, t: Term, w: nat)
    requires Replay(disk) == Restored(n.pstate) && !UpdateTerm(n, t, w).failed
    ensures var o := UpdateTerm(n, t, w); Replay(disk + o.writes) == Restored(o.node.pstate)
  {
    assert disk + [] == disk;
    if t > n.pstate.term { ReplayOne(disk, StateRecord(t, RAFT_NONE)); }
  }

  lemma FollowReplays(disk: seq<Record>, n: Node, req: AppendRequest, w: nat)
    requires Replay(disk) == Restored(n.pstate)
    ensures var o := FollowLeader(n, req, w).0; Replay(disk + o.writes) == Restored(o.node.pstate)
  {
    NothingWritten(disk);
    if PrevMatches(n.pstate.log, req) {
      LoopReplays(disk, n.pstate, req.prevIndex, req.entries, 0, w);
    }
  }

  lemma AppendSplit(n: Node, req: AppendRequest, w: nat)
    requires w > 0 && req.term >= n.pstate.term
    ensures var up := UpdateTerm(n, req.term, w);
            && !up.failed && |up.writes| <= w
            && var o := FollowLeader(up.node, req, w - |up.writes|).0;
               HandleAppendRequest(n, req, w).0 == Outcome(o.node, up.writes + o.writes, o.failed)
  {
  }

  /** The term update, and then the batch. */
  lemma FreshReplays(disk: seq<Record>, n: Node, req: AppendRequest, w: nat, up: Outcome, o: Outcome)
    requires Replay(disk) == Restored(n.pstate) && up == UpdateTerm(n, req.term, w) && !up.failed && |up.writes| <= w
    requires o == FollowLeader(up.node, req, w - |up.writes|).0
    ensures Replay(disk + (up.writes + o.writes)) == Restored(o.node.pstate)
  {
    UpdateReplays(disk, n, req.term, w);
    FollowReplays(disk + up.writes, up.node, req, w - |up.writes|);
    Regroup(disk, up.writes, o.writes);
  }

  /** A request, cut short anywhere after its first record. */
  lemma AppendReplays(disk: seq<Record>, n: Node, req: AppendRequest, w: nat)
    requires Replay(disk) == Restored(n.pstate) && w > 0
    ensures var o := HandleAppendRequest(n, req, w).0; Replay(disk + o.writes) == Restored(o.node.pstate)
  {
    if req.term < n.pstate.term {
      NothingWritten(disk);
    } else {
      AppendSplit(n, req, w);
      var up := UpdateTerm(n, req.term, w);
      FreshReplays(disk, n, req, w, up, FollowLeader(up.node, req, w - |up.writes|).0);
    }
  }

  /** A vote request: the term update, then the vote. */
  lemma VoteReplays(disk: seq<Record>, n: Node, req: VoteRequest, w: nat)
    requires Replay(disk) == Restored(n.pstate) && !HandleVoteRequest(n, req, w).0.failed
    ensures var o := HandleVoteRequest(n, req, w).0; Replay(disk + o.writes) == Restored(o.node.pstate)
  {
    var up, o := UpdateTerm(n, req.term, w), HandleVoteRequest(n, req, w).0;
    UpdateReplays(disk, n, req.term, w);
    if o.writes != up.writes {
      var r := StateRecord(req.term, req.candidateId);
      ReplayOne(disk + up.writes, r);
      assert disk + up.writes + [r] == disk + (up.writes + [r]);
    }
  }

  /** With budget v, a handler writes the first v of its records. */
  lemma HandledPrefix(n: Node, step: Step, v: nat)
    requires Shaped(n) && v <= |Handled(n, step).writes|
    ensures Handled(n, WithBudget(step, v)).writes == Handled(n, step).writes[..v]
  {
    if step.ReceiveStep? {
      match step.pkt.body {
        case VoteReq(req) => VoteRequestPrefix(n, req, step.w, v);
        case AppendReq(req) => AppendRequestPrefix(n, req, step.w, v);
        case _ =>
      }
    }
  }

  lemma VoteHeld(disk: seq<Record>, n: Node, step: Step, v: nat)
    requires Shaped(n) && step.ReceiveStep? && step.pkt.body.VoteReq? && Replay(disk) == Restored(n.pstate)
    requires 0 < v <= |Handled(n, step).writes|
    ensures Replay(disk + Handled(n, step).writes[..v]) == Restored(HeldAfter(n, step, v))
  {
    var req := step.pkt.body.vreq;
    VoteRequestPrefix(n, req, step.w, v);
    if UpdatesTermAt(n, step, v) {
      UpdateReplays(disk, n, req.term, v);
      assert HandleVoteRequest(n, req, step.w).0.writes[..v] == UpdateTerm(n, req.term, v).writes;
    } else {
      VoteReplays(disk, n, req, v);
    }
  }

  lemma AppendHeld(disk: seq<Record>, n: Node, step: Step, v: nat)
    requires Shaped(n) && step.ReceiveStep? && step.pkt.body.AppendReq? && Replay(disk) == Restored(n.pstate)
    requires 0 < v <= |Handled(n, step).writes|
    ensures Replay(disk + Handled(n, step).writes[..v]) == Restored(HeldAfter(n, step, v))
  {
    AppendRequestPrefix(n, step.pkt.body.areq, step.w, v);
    AppendReplays(disk, n, step.pkt.body.areq, v);
  }

  /** The handler writes nothing and keeps what it must, or writes one record that says how the rest has changed. */
  ghost predicate WritesOne(n: Node, o: Outcome) {
    || (o.writes == [] && (o.failed || o.node.pstate == n.pstate))
    || (|o.writes| == 1 && !o.failed && ReplayStep(n.pstate, o.writes[0]) == Restored(o.node.pstate))
  }

  /** The handlers other than those of requests write one record at most. */
  lemma OneRecord(n: Node, step: Step)
    requires Shaped(n) && !(step.ReceiveStep? && (step.pkt.body.VoteReq? || step.pkt.body.AppendReq?))
    ensures WritesOne(n, Handled(n, step))
    ensures Handled(n, step).writes != [] ==> Handled(n, WithBudget(step, 1)).node == Handled(n, step).node
  {
  }

  lemma OneReplays(disk: seq<Record>, n: Node, o: Outcome)
    requires Replay(disk) == Restored(n.pstate) && WritesOne(n, o) && !o.failed
    ensures Replay(disk + o.writes) == Restored(o.node.pstate)
  {
    if o.writes == [] {
      NothingWritten(disk);
    } else {
      assert o.writes == [o.writes[0]];
      ReplayOne(disk, o.writes[0]);
    }
  }

  /** Every prefix of a handler's records replays to what the handler held, in memory, right after the last of them:
      of any node, on any input, as long as file and memory agreed when the handler began. */
  lemma HandlerHeld(disk: seq<Record>, n: Node, step: Step, v: nat)
    requires Shaped(n) && Replay(disk) == Restored(n.pstate) && v <= |Handled(n, step).writes|
    ensures Replay(disk + Handled(n, step).writes[..v]) == Restored(HeldAfter(n, step, v))
  {
    var ws := Handled(n, step).writes;
    if v == 0 {
      assert ws[..0] == [];
      NothingWritten(disk);
    } else if step.ReceiveStep? && step.pkt.body.VoteReq? {
      VoteHeld(disk, n, step, v);
    } else if step.ReceiveStep? && step.pkt.body.AppendReq? {
      AppendHeld(disk, n, step, v);
    } else {
      OneRecord(n, step);
      OneReplays(disk, n, Handled(n, step));
      assert ws[..1] == ws;
    }
  }

  lemma AppendEnds(disk: seq<Record>, n: Node, req: AppendRequest, w: nat)
    requires Replay(disk) == Restored(n.pstate) && !HandleAppendRequest(n, req, w).0.failed
    ensures var o := HandleAppendRequest(n, req, w).0; Replay(disk + o.writes) == Restored(o.node.pstate)
  {
    if w > 0 {
      AppendReplays(disk, n, req, w);
    } else if req.term < n.pstate.term {
      NothingWritten(disk);
    } else {
      FollowReplays(disk, n, req, 0);
      assert [] + FollowLeader(n, req, 0).0.writes == FollowLeader(n, req, 0).0.writes;
    }
  }

  /** A handler that runs to its end without a failed write leaves file and memory in agreement again. */
  lemma HandlerEnds(disk: seq<Record>, n: Node, step: Step)
    requires Shaped(n) && Replay(disk) == Restored(n.pstate) && !Handled(n, step).failed
    ensures var o := Handled(n, step); Replay(disk + o.writes) == Restored(o.node.pstate)
  {
    if step.ReceiveStep? && step.pkt.body.VoteReq? {
      VoteReplays(disk, n, step.pkt.body.vreq, step.w);
    } else if step.ReceiveStep? && step.pkt.body.AppendReq? {
      AppendEnds(disk, n, step.pkt.body.areq, step.w);
    } else {
      OneRecord(n, step);
      OneReplays(disk, n, Handled(n, step));
    }
  }

  /** What a handler holds after its last record is what it ends with. */
  lemma HeldAtEnd(disk: seq<Record>, n: Node, step: Step)
    requires Shaped(n) && Replay(disk) == Restored(n.pstate) && !Handled(n, step).failed
    ensures HeldAfter(n, step, |Handled(n, step).writes|) == Handled(n, step).node.pstate
  {
    var ws := Handled(n, step).writes;
    assert ws[..|ws|] == ws;
    HandlerHeld(disk, n, step, |ws|);
    HandlerEnds(disk, n, step);
  }

  // ---------- Whole runs ----------

  /** The step makes server i run a handler. */
  predicate Acts(s: State, step: Step, i: NodeId) {
    match step
    case TimeoutStep(j, _, _) => j == i
    case CommandStep(j, _, _) => j == i
    case ReceiveStep(pkt, _) => pkt in s.net && pkt.dst == i
    case _ => false
  }

  function DiskOf(s: State, i: NodeId): seq<Record>
    requires i in s.servers
  {
    s.servers[i].disk
  }

  function NodeOf(s: State, i: NodeId): Node
    requires i in s.servers
  {
    s.servers[i].node
  }

  /** A step adds to a log file what the handler that it runs there writes. */
  lemma StepWrites(s: State, step: Step, i: NodeId)
    requires i in s.servers && Shaped(NodeOf(s, i))
    ensures i in Apply(s, step).servers
    ensures DiskOf(Apply(s, step), i) == DiskOf(s, i) + if Acts(s, step, i) then Handled(NodeOf(s, i), step).writes else []
  {
  }

  lemma Recovers(cfg: Config, steps: seq<Step>, i: NodeId, j: nat)
    requires ValidConfig(cfg) && i in cfg && j <= |steps|
    ensures var s := At(cfg, steps, j);
            i in s.servers && Shaped(NodeOf(s, i)) && Replay(DiskOf(s, i)) == Restored(NodeOf(s, i).pstate)
  {
    var ps := RunInv(cfg, steps);
    assert HistoryAt(cfg, steps, ps, j, j);
    assert ServerAt(cfg, At(cfg, steps, j), ps[j], i);
  }

  /** The moment right after record v of what step j makes node i write, or right before step j if v is 0. */
  ghost predicate Moment(cfg: Config, steps: seq<Step>, i: NodeId, j: nat, v: nat) {
    && j <= |steps| && i in At(cfg, steps, j).servers && Shaped(NodeOf(At(cfg, steps, j), i))
    && (v > 0 ==> && j < |steps| && Acts(At(cfg, steps, j), steps[j], i)
                  && v <= |Handled(NodeOf(At(cfg, steps, j), i), steps[j]).writes|)
  }

  /** The log file at that moment. */
  ghost function FileAt(cfg: Config, steps: seq<Step>, i: NodeId, j: nat, v: nat): seq<Record>
    requires Moment(cfg, steps, i, j, v)
  {
    var s := At(cfg, steps, j);
    if v == 0 then DiskOf(s, i) else DiskOf(s, i) + Handled(NodeOf(s, i), steps[j]).writes[..v]
  }

  /** What node i holds in memory at that moment. */
  ghost function MemoryAt(cfg: Config, steps: seq<Step>, i: NodeId, j: nat, v: nat): Persistent
    requires Moment(cfg, steps, i, j, v)
  {
    var s := At(cfg, steps, j);
    if v == 0 then NodeOf(s, i).pstate else HeldAfter(NodeOf(s, i), steps[j], v)
  }

  /** The run up to that moment, where the process dies if it is within a step. */
  ghost function CutAt(cfg: Config, steps: seq<Step>, i: NodeId, j: nat, v: nat): seq<Step>
    requires Moment(cfg, steps, i, j, v)
  {
    if v == 0 then steps[..j] else steps[..j] + [WithBudget(steps[j], v)]
  }

  /** One step of a run, seen at one log file. */
  lemma FileGrows(cfg: Config, steps: seq<Step>, i: NodeId, e: nat, k: nat)
    requires ValidConfig(cfg) && i in cfg && e < |steps|
    ensures i in At(cfg, steps, e).servers && i in At(cfg, steps, e + 1).servers
    ensures var before, after := DiskOf(At(cfg, steps, e), i), DiskOf(At(cfg, steps, e + 1), i);
            && (k <= |before| ==> k <= |after| && after[..k] == before[..k])
            && (|before| < k <= |after| ==>
                  Moment(cfg, steps, i, e, k - |before|) && FileAt(cfg, steps, i, e, k - |before|) == after[..k])
  {
    Recovers(cfg, steps, i, e);
    AtNext(cfg, steps, e);
    StepWrites(At(cfg, steps, e), steps[e], i);
  }

  /** Every prefix of the log file at moment e is the whole log file at some moment up to e. */
  lemma {:induction false} PrefixMoment(cfg: Config, steps: seq<Step>, i: NodeId, k: nat, e: nat) returns (j: nat, v: nat)
    requires ValidConfig(cfg) && i in cfg && e <= |steps| && i in At(cfg, steps, e).servers
    requires k <= |DiskOf(At(cfg, steps, e), i)|
    ensures Moment(cfg, steps, i, j, v) && FileAt(cfg, steps, i, j, v) == DiskOf(At(cfg, steps, e), i)[..k]
    ensures j + (if v == 0 then 0 else 1) <= e
    decreases e
  {
    var disk := DiskOf(At(cfg, steps, e), i);
    if k == |disk| {
      Recovers(cfg, steps, i, e);
      j, v := e, 0;
    } else {
      FileGrows(cfg, steps, i, e - 1, k);
      var before := |DiskOf(At(cfg, steps, e - 1), i)|;
      if k <= before {
        j, v := PrefixMoment(cfg, steps, i, k, e - 1);
      } else {
        j, v := e - 1, k - before;
      }
    }
  }

  /** A crash after any record is itself a run: the run up to there leaves exactly the file of that moment. */
  lemma CutRuns(cfg: Config, steps: seq<Step>, i: NodeId, j: nat, v: nat)
    requires Moment(cfg, steps, i, j, v)
    ensures i in Run(cfg, CutAt(cfg, steps, i, j, v)).servers
    ensures DiskOf(Run(cfg, CutAt(cfg, steps, i, j, v)), i) == FileAt(cfg, steps, i, j, v)
  {
    if v > 0 {
      var s := At(cfg, steps, j);
      RunAppend(cfg, steps[..j], WithBudget(steps[j], v));
      StepWrites(s, WithBudget(steps[j], v), i);
      HandledPrefix(NodeOf(s, i), steps[j], v);
    }
  }

  /** At every moment of a run, also between two records of one handler, the log file replays without error to exactly
      what the node holds in memory. */
  lemma FileIsMemory(cfg: Config, steps: seq<Step>, i: NodeId, j: nat, v: nat)
    requires ValidConfig(cfg) && i in cfg && Moment(cfg, steps, i, j, v)
    ensures Replay(FileAt(cfg, steps, i, j, v)) == Restored(MemoryAt(cfg, steps, i, j, v))
  {
    Recovers(cfg, steps, i, j);
    if v > 0 {
      HandlerHeld(DiskOf(At(cfg, steps, j), i), NodeOf(At(cfg, steps, j), i), steps[j], v);
    }
  }

  /** Every prefix of a log file, also one that ends between a TRUNCATE and its ENTRY, is what the file was at some
      moment of the run. A process that dies there leaves it, and it replays without error to the term, vote and log
      that the running node held in memory at that moment. */
  lemma EveryPrefixRecovers(cfg: Config, steps: seq<Step>, i: NodeId, k: nat) returns (j: nat, v: nat)
    requires ValidConfig(cfg) && i in cfg && i in Run(cfg, steps).servers && k <= |DiskOf(Run(cfg, steps), i)|
    ensures Moment(cfg, steps, i, j, v)
    ensures FileAt(cfg, steps, i, j, v) == DiskOf(Run(cfg, steps), i)[..k]
    ensures i in Run(cfg, CutAt(cfg, steps, i, j, v)).servers
    ensures DiskOf(Run(cfg, CutAt(cfg, steps, i, j, v)), i) == DiskOf(Run(cfg, steps), i)[..k]
    ensures Replay(DiskOf(Run(cfg, steps), i)[..k]) == Restored(MemoryAt(cfg, steps, i, j, v))
  {
    assert steps[..|steps|] == steps;
    j, v := PrefixMoment(cfg, steps, i, k, |steps|);
    CutRuns(cfg, steps, i, j, v);
    FileIsMemory(cfg, steps, i, j, v);
  }

  /** From text to memory: as long as every number written fits its C type, restoring from the text of a node's
      log file gives exactly the term, vote and log that the node holds. */
  lemma TextRecovery(cfg: Config, steps: seq<Step>, i: NodeId)
    requires ValidConfig(cfg) && i in cfg && i in Run(cfg, steps).servers
    requires forall k :: 0 <= k < |DiskOf(Run(cfg, steps), i)| ==> Encodable(DiskOf(Run(cfg, steps), i)[k])
    ensures RestoreText(FRESH, FileText(DiskOf(Run(cfg, steps), i))) == Restored(Run(cfg, steps).servers[i].node.pstate)
  {
    FileRoundTrip(DiskOf(Run(cfg, steps), i));
    RecoveryRefinesMemory(cfg, steps, i);
  }
}
