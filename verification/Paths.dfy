/** Steps from one cluster state to another. */
module Paths {
  import opened RaftTypes
  import opened RaftNode
  import opened Cluster
  import opened Protocol
  import opened ClusterInv
  import opened ClusterSteps

  /** The steps changed the servers of these nodes only, and no message was lost. */
  ghost predicate OnlyAt(s: State, s': State, nodes: set<NodeId>) {
    && s'.servers.Keys == s.servers.Keys && s.net <= s'.net
    && forall j :: j in s.servers && j !in nodes ==> s'.servers[j] == s.servers[j]
  }

  lemma OnlyAtOn(a: State, b: State, c: State, nodes: set<NodeId>)
    requires OnlyAt(a, b, nodes) && OnlyAt(b, c, nodes)
    ensures OnlyAt(a, c, nodes)
  {
  }

  /** Step k leads from states[k] to states[k + 1]. */
  ghost predicate StepAt(states: seq<State>, steps: seq<Step>, k: nat) {
    k < |steps| && k + 1 < |states| ==> states[k + 1] == Apply(states[k], steps[k])
  }

  ghost predicate Along(states: seq<State>, steps: seq<Step>) {
    |states| == |steps| + 1 && forall k: nat :: StepAt(states, steps, k)
  }

  ghost predicate PathBy(states: seq<State>, a: State, steps: seq<Step>, b: State) {
    Along(states, steps) && states[0] == a && states[|steps|] == b
  }

  /** The steps lead from state a to state b. */
  ghost predicate Path(a: State, steps: seq<Step>, b: State) {
    exists states: seq<State> :: PathBy(states, a, steps, b)
  }

  lemma PathNil(a: State)
    ensures Path(a, [], a)
  {
    var states := [a];
    forall k: nat ensures StepAt(states, [], k) { }
    assert PathBy(states, a, [], a);
  }

  lemma PathOne(a: State, step: Step)
    ensures Path(a, [step], Apply(a, step))
  {
    var states := [a, Apply(a, step)];
    forall k: nat ensures StepAt(states, [step], k) { }
    assert PathBy(states, a, [step], Apply(a, step));
  }

  lemma PathJoin(a: State, m: seq<Step>, b: State, n: seq<Step>, c: State)
    requires Path(a, m, b) && Path(b, n, c)
    ensures Path(a, m + n, c)
  {
    var x: seq<State> :| PathBy(x, a, m, b);
    var y: seq<State> :| PathBy(y, b, n, c);
    var states := x + y[1..];
    forall k: nat ensures StepAt(states, m + n, k) {
      JoinAt(x, m, y, n, k);
    }
    assert states[|m| + |n|] == c;
    assert PathBy(states, a, m + n, c);
  }

  lemma JoinAt(x: seq<State>, m: seq<Step>, y: seq<State>, n: seq<Step>, k: nat)
    requires Along(x, m) && Along(y, n) && x[|m|] == y[0]
    ensures StepAt(x + y[1..], m + n, k)
  {
    var states := x + y[1..];
    if k < |m| {
      assert StepAt(x, m, k);
    } else if k < |m| + |n| {
      assert StepAt(y, n, k - |m|);
      assert states[k] == y[k - |m|] && states[k + 1] == y[k - |m| + 1];
    }
  }

  /** A path that starts in a state of a run goes on with that run. */
  lemma PathRun(cfg: Config, steps: seq<Step>, more: seq<Step>, b: State)
    requires Path(Run(cfg, steps), more, b)
    ensures Run(cfg, steps + more) == b
  {
    var states: seq<State> :| PathBy(states, Run(cfg, steps), more, b);
    AlongRun(cfg, steps, more, states, |more|);
    assert more[..|more|] == more;
  }

  lemma {:induction false} AlongRun(cfg: Config, steps: seq<Step>, more: seq<Step>, states: seq<State>, k: nat)
    requires Along(states, more) && states[0] == Run(cfg, steps) && k <= |more|
    ensures Run(cfg, steps + more[..k]) == states[k]
  {
    if k == 0 {
      assert steps + more[..0] == steps;
    } else {
      AlongRun(cfg, steps, more, states, k - 1);
      assert StepAt(states, more, k - 1);
      RunAppend(cfg, steps + more[..k - 1], more[k - 1]);
      assert steps + more[..k] == steps + more[..k - 1] + [more[k - 1]];
    }
  }

  /** A state that some history explains, as every state of a run is. */
  ghost predicate Sound(cfg: Config, s: State) {
    exists p: Proto :: Inv(cfg, s, p)
  }

  lemma RunSound(cfg: Config, steps: seq<Step>)
    requires ValidConfig(cfg)
    ensures Sound(cfg, Run(cfg, steps))
  {
    var ps := RunInv(cfg, steps);
    var m := |steps|;
    assert HistoryAt(cfg, steps, ps, m, m);
    assert steps[..m] == steps;
  }

  lemma PathSound(cfg: Config, a: State, steps: seq<Step>, b: State)
    requires Sound(cfg, a) && Path(a, steps, b)
    ensures Sound(cfg, b)
  {
    var states: seq<State> :| PathBy(states, a, steps, b);
    AlongSound(cfg, states, steps, |steps|);
  }

  lemma {:induction false} AlongSound(cfg: Config, states: seq<State>, steps: seq<Step>, k: nat)
    requires Along(states, steps) && k <= |steps| && Sound(cfg, states[0])
    ensures Sound(cfg, states[k])
  {
    if k > 0 {
      AlongSound(cfg, states, steps, k - 1);
      assert StepAt(states, steps, k - 1);
      var p: Proto :| Inv(cfg, states[k - 1], p);
      var p' := StepInv(cfg, states[k - 1], p, steps[k - 1]);
    }
  }
}
