/** No reachable state is stuck: from every state of every run, further steps elect a leader, replicate its log to every
    node, commit everything it held before, and deliver it. */
module NeverStuck {
  import opened RaftTypes
  import opened RaftNode
  import opened Cluster
  import opened Protocol
  import opened ClusterInv
  import opened ClusterSteps
  import opened Paths
  import opened Safety
  import opened Recovery
  import opened Duties
  import opened CatchUp
  import opened CatchUpRuns
  import opened LoneEntry
  import opened Elections

  // ---------- What an exchange does to the leader's trackers ----------

  /** Nothing more is to be committed with what the leader has recorded. */
  ghost predicate Settled(n: Node) {
    forall m: Index :: n.commitIndex < m <= |n.pstate.log| ==> !HeldByMost(n, m)
  }

  /** Two entries or more are outstanding, or all but one are recorded. */
  ghost predicate Ahead(n: Node, k: nat)
    requires k < |n.lstate.next| && k < |n.lstate.matched|
  {
    n.lstate.next[k] < |n.pstate.log| || n.lstate.matched[k] + 1 >= |n.pstate.log|
  }

  /** A leader that has only learned about peer k, and committed no more than it holds. */
  ghost predicate Learned(n: Node, n': Node, k: nat) {
    && Shaped(n) && Shaped(n') && n'.role == n.role && n'.id == n.id && n'.peers == n.peers && n'.pstate == n.pstate
    && n'.lastApplied == n.lastApplied && n.commitIndex <= n'.commitIndex && (n'.commitIndex <= |n.pstate.log| || n'.commitIndex == n.commitIndex)
    && forall j :: 0 <= j < |n.peers| && j != k ==>
         n'.lstate.next[j] == n.lstate.next[j] && n'.lstate.matched[j] == n.lstate.matched[j]
  }

  lemma LearnedOn(a: Node, b: Node, c: Node, k: nat)
    requires Learned(a, b, k) && Learned(b, c, k)
    ensures Learned(a, c, k)
  {
  }

  /** One round: only peer k's trackers and the commit index move, and what is ahead stays ahead; after an accepted
      round there is nothing left to commit. */
  lemma RoundLearns(x: Pair, k: nat, w: nat)
    requires InStep(x, k) && Enough(w) && Shaped(x.leader) && Distinct(x.leader.peers) && Ahead(x.leader, k)
    ensures var (y, ok) := Round(x, k, w);
            Learned(x.leader, y.leader, k) && Ahead(y.leader, k) && (ok ==> Settled(y.leader))
  {
    FollowerRound(x, k, w);
    RequestIsSlice(x, k);
    RequestReach(x, k);
    var resp := HandleAppendRequest(x.follower, Request(x, k), w).1;
    assert x.leader.peers[k] == x.follower.id;
    AnswerExact(x.leader, resp, k, w);
  }

  ghost predicate LearnsAt(trace: seq<Pair>, k: nat, j: nat)
    requires trace != []
  {
    j < |trace| ==> Learned(trace[0].leader, trace[j].leader, k) && k < |trace[j].leader.peers| && Ahead(trace[j].leader, k)
  }

  lemma {:induction false} TraceLearns(trace: seq<Pair>, k: nat, w: nat, r: nat, j: nat)
    requires Exchange(trace, k, w, r) && Enough(w) && Shaped(trace[0].leader) && Distinct(trace[0].leader.peers)
    requires k < |trace[0].leader.peers| && Ahead(trace[0].leader, k) && j < |trace|
    ensures LearnsAt(trace, k, j)
    ensures j > r ==> Settled(trace[j].leader)
  {
    if j > 0 {
      TraceLearns(trace, k, w, r, j - 1);
      assert RoundAt(trace, k, w, r, j - 1);
      RoundLearns(trace[j - 1], k, w);
      LearnedOn(trace[0].leader, trace[j - 1].leader, trace[j].leader, k);
    }
  }

  // ---------- One peer after another ----------

  /** The leader at work on this log: it has delivered nothing yet, and its peers are in no later term. */
  ghost predicate Working(cfg: Config, s: State, a: NodeId, t: Term, log: Log) {
    && a in cfg && s.servers.Keys == cfg.Keys && Leads(s, a, t) && LogOf(s, a) == log && Shaped(NodeOf(s, a))
    && NodeOf(s, a).peers == cfg[a] && Distinct(cfg[a]) && a !in cfg[a]
    && NodeOf(s, a).commitIndex <= |log| && NodeOf(s, a).lastApplied == 0 && s.servers[a].output == []
    && forall j :: j in cfg ==> NodeOf(s, j).pstate.term <= t
  }

  /** Peer j has the leader's log, and all of it but one entry is recorded. */
  ghost predicate ServedAt(cfg: Config, s: State, a: NodeId, log: Log, j: nat)
    requires a in cfg && a in s.servers && Shaped(NodeOf(s, a)) && NodeOf(s, a).peers == cfg[a]
  {
    j < |cfg[a]| ==>
      && NodeOf(s, a).lstate.matched[j] + 1 >= |log|
      && cfg[a][j] in s.servers && log <= LogOf(s, cfg[a][j])
  }

  ghost predicate AheadAt(cfg: Config, s: State, a: NodeId, j: nat)
    requires a in cfg && a in s.servers && Shaped(NodeOf(s, a)) && NodeOf(s, a).peers == cfg[a]
  {
    j < |cfg[a]| ==> Ahead(NodeOf(s, a), j)
  }

  /** The first k peers have been served, and the others can be. */
  ghost predicate Serving(cfg: Config, s: State, a: NodeId, t: Term, log: Log, k: nat) {
    && Working(cfg, s, a, t, log) && k <= |cfg[a]|
    && (forall j: nat :: j < k ==> ServedAt(cfg, s, a, log, j))
    && (forall j: nat :: k <= j ==> AheadAt(cfg, s, a, j))
    && (k > 0 ==> Settled(NodeOf(s, a)))
  }

  lemma EndsAhead(x: Pair, k: nat)
    requires InStep(x, k) && CaughtUp(x) && Unsent(x, k) <= 1 && Ahead(x.leader, k)
    ensures x.leader.lstate.matched[k] + 1 >= |x.leader.pstate.log| && x.leader.pstate.log <= x.follower.pstate.log
  {
  }

  /** The next peer is served, by an exchange with it alone. */
  lemma ServeOne(cfg: Config, s: State, a: NodeId, t: Term, log: Log, k: nat) returns (more: seq<Step>, s': State)
    requires Sound(cfg, s) && Serving(cfg, s, a, t, log, k) && k < |cfg[a]|
    ensures Path(s, more, s') && Sound(cfg, s') && Serving(cfg, s', a, t, log, k + 1)
  {
    var b, w := cfg[a][k], RAFT_APPEND_BATCH + 3;
    SoundPair(cfg, s, a, t, k);
    var trace, r := CatchUpTerminates(PairOf(s, a, b), k, w);
    more, s' := ExchangePath(cfg, s, a, b, k, w, trace, 0, r);
    assert AheadAt(cfg, s, a, k);
    TraceServes(PairOf(s, a, b), trace, k, w, r);
    Served(cfg, s, s', a, t, log, k, trace[|trace| - 1]);
  }

  /** What the whole exchange comes to. */
  lemma TraceServes(x: Pair, trace: seq<Pair>, k: nat, w: nat, r: nat)
    requires CatchesUp(x, trace, k, w, r) && r < |trace| - 1 && Enough(w)
    requires Shaped(x.leader) && Distinct(x.leader.peers) && k < |x.leader.peers| && Ahead(x.leader, k)
    ensures var y := trace[|trace| - 1];
            && Learned(x.leader, y.leader, k) && Settled(y.leader)
            && y.leader.lstate.matched[k] + 1 >= |x.leader.pstate.log| && x.leader.pstate.log <= y.follower.pstate.log
            && y.follower.pstate.term <= x.leader.pstate.term
  {
    TraceLearns(trace, k, w, r, |trace| - 1);
    assert LearnsAt(trace, k, |trace| - 1);
    EndsAhead(trace[|trace| - 1], k);
  }

  lemma Served(cfg: Config, s: State, s': State, a: NodeId, t: Term, log: Log, k: nat, y: Pair)
    requires Serving(cfg, s, a, t, log, k) && k < |cfg[a]| && Paired(s, s', a, cfg[a][k], y)
    requires Learned(NodeOf(s, a), y.leader, k) && Settled(y.leader)
    requires y.leader.lstate.matched[k] + 1 >= |log| && log <= y.follower.pstate.log && y.follower.pstate.term <= t
    ensures Serving(cfg, s', a, t, log, k + 1)
  {
    var next := k + 1;
    forall j: nat | j < next ensures ServedAt(cfg, s', a, log, j) {
      if j < k { assert ServedAt(cfg, s, a, log, j); }
    }
    forall j: nat | next <= j ensures AheadAt(cfg, s', a, j) {
      assert AheadAt(cfg, s, a, j);
    }
  }

  lemma {:induction false} ServeFrom(cfg: Config, s: State, a: NodeId, t: Term, log: Log, k: nat) returns (more: seq<Step>, s': State)
    requires Sound(cfg, s) && Serving(cfg, s, a, t, log, k)
    ensures Path(s, more, s') && Sound(cfg, s') && Serving(cfg, s', a, t, log, |cfg[a]|)
    ensures k == |cfg[a]| ==> s' == s
    decreases |cfg[a]| - k
  {
    if k == |cfg[a]| {
      more, s' := [], s;
      PathNil(s);
    } else {
      var one, s1 := ServeOne(cfg, s, a, t, log, k);
      more, s' := ServeFrom(cfg, s1, a, t, log, k + 1);
      PathJoin(s, one, s1, more, s');
      more := one + more;
    }
  }

  // ---------- Commands ----------

  lemma TakesCommand(s: State, a: NodeId, c: Command)
    requires a in s.servers && NodeOf(s, a).role == Leader && |LogOf(s, a)| < RAFT_LOG_CAP
    ensures var (s', n) := (Apply(s, CommandStep(a, c, 1)), NodeOf(s, a));
            && OnlyAt(s, s', {a}) && s'.servers[a].output == s.servers[a].output
            && NodeOf(s', a) == n.(pstate := n.pstate.(log := n.pstate.log + [Entry(|n.pstate.log| + 1, n.pstate.term, c)]),
                                   commitIndex := if n.peers == [] then |n.pstate.log| + 1 else n.commitIndex)
  {
    CommandExact(NodeOf(s, a), c, 1);
  }

  /** The leader's log with two more commands. */
  function WithTwo(log: Log, t: Term, c1: Command, c2: Command): Log {
    log + [Entry(|log| + 1, t, c1)] + [Entry(|log| + 2, t, c2)]
  }

  /** A newly elected leader takes two commands, and is ready to serve its peers. */
  lemma TakesTwo(cfg: Config, s: State, a: NodeId, t: Term, log: Log, c1: Command, c2: Command) returns (more: seq<Step>, s': State)
    requires Sound(cfg, s) && a in cfg && Fresh(s, a, t, log) && LogsKept(s, s, t) && |log| + 2 <= RAFT_LOG_CAP
    ensures Path(s, more, s') && Sound(cfg, s') && Serving(cfg, s', a, t, WithTwo(log, t, c1, c2), 0)
    ensures cfg[a] == [] ==> NodeOf(s', a).commitIndex == |log| + 2
  {
    var s1 := Apply(s, CommandStep(a, c1, 1));
    TakesCommand(s, a, c1);
    TakesCommand(s1, a, c2);
    PathOne(s, CommandStep(a, c1, 1));
    PathOne(s1, CommandStep(a, c2, 1));
    s' := Apply(s1, CommandStep(a, c2, 1));
    PathJoin(s, [CommandStep(a, c1, 1)], s1, [CommandStep(a, c2, 1)], s');
    more := [CommandStep(a, c1, 1)] + [CommandStep(a, c2, 1)];
    PathSound(cfg, s, more, s');
    OnlyAtOn(s, s1, s', {a});
    ReadyToServe(cfg, s, s', a, t, log, WithTwo(log, t, c1, c2));
  }

  lemma ReadyToServe(cfg: Config, s: State, s': State, a: NodeId, t: Term, log: Log, longer: Log)
    requires Sound(cfg, s) && Sound(cfg, s') && a in cfg && Fresh(s, a, t, log) && LogsKept(s, s, t) && OnlyAt(s, s', {a})
    requires |longer| == |log| + 2 && s'.servers[a].output == s.servers[a].output
    requires var (n, n') := (NodeOf(s, a), NodeOf(s', a));
             && n'.pstate == n.pstate.(log := longer) && n'.role == n.role && n'.lstate == n.lstate && n'.peers == n.peers
             && n'.lastApplied == n.lastApplied && n'.commitIndex <= |longer|
    ensures Serving(cfg, s', a, t, longer, 0)
  {
    SoundShaped(cfg, s', a);
    forall j | j in cfg ensures NodeOf(s', j).pstate.term <= t {
      assert KeptAt(s, s, t, j);
    }
    forall j: nat | 0 <= j ensures AheadAt(cfg, s', a, j) { }
  }

  // ---------- Committing and delivering ----------

  /** When everyone has been served, all but the last entry are committed. */
  lemma ServedIsCommitted(cfg: Config, s: State, a: NodeId, t: Term, log: Log)
    requires a in cfg && Serving(cfg, s, a, t, log, |cfg[a]|) && cfg[a] != [] && |log| >= 2 && log[|log| - 2].term == t
    ensures NodeOf(s, a).commitIndex + 1 >= |log|
  {
    var n, m := NodeOf(s, a), |log| - 1;
    var flags := AtLeast(n.lstate.matched, m);
    forall j: nat | j < |flags| ensures flags[j] {
      assert ServedAt(cfg, s, a, log, j);
    }
    AllCount(flags);
    MatchingIsMost(n.lstate.matched, m, |cfg[a]|);
    MajorityExact(1 + |flags|, |cfg[a]| + 1);
    assert HeldByMost(n, m);
  }

  lemma {:induction false} AllCount(flags: seq<bool>)
    requires forall j: nat :: j < |flags| ==> flags[j]
    ensures CountTrue(flags) == |flags|
  {
    if flags != [] {
      AllCount(flags[..|flags| - 1]);
    }
  }

  /** The whole cluster has what the leader has, and the leader has handed over all but its newest entry, if not all. */
  ghost predicate Delivered(cfg: Config, s: State, a: NodeId, t: Term, log: Log) {
    && s.servers.Keys == cfg.Keys && Leads(s, a, t) && LogOf(s, a) == log
    && (forall j :: j in cfg ==> log <= LogOf(s, j))
    && |log| <= NodeOf(s, a).commitIndex + 1 && NodeOf(s, a).commitIndex <= |log|
    && NodeOf(s, a).lastApplied == NodeOf(s, a).commitIndex && s.servers[a].output == log[..NodeOf(s, a).commitIndex]
    && forall k :: 0 <= k < NodeOf(s, a).commitIndex ==> Delivery(a, k + 1, log[k]) in s.delivered
  }

  lemma Drains(cfg: Config, s: State, a: NodeId, t: Term, log: Log)
    requires ValidConfig(cfg) && a in cfg && Serving(cfg, s, a, t, log, |cfg[a]|) && |log| <= NodeOf(s, a).commitIndex + 1
    ensures Delivered(cfg, Apply(s, DrainStep(a, |log|)), a, t, log)
  {
    var n := NodeOf(s, a);
    var s' := Apply(s, DrainStep(a, |log|));
    DrainExact(n, |log|);
    var es := Drain(n, |log|).1;
    assert es == log[..n.commitIndex];
    forall k | 0 <= k < n.commitIndex ensures Delivery(a, k + 1, log[k]) in s'.delivered {
      assert Delivery(a, 0 + k + 1, es[k]) in Deliveries(a, 0, es);
    }
    EveryoneHas(cfg, s, a, t, log);
  }

  lemma EveryoneHas(cfg: Config, s: State, a: NodeId, t: Term, log: Log)
    requires ValidConfig(cfg) && a in cfg && Serving(cfg, s, a, t, log, |cfg[a]|)
    ensures forall j :: j in cfg ==> log <= LogOf(s, j)
  {
    forall j | j in cfg ensures log <= LogOf(s, j) {
      assert PeersOk(cfg.Keys, a, cfg[a]);
      if j != a {
        assert j in PeerSet(cfg[a]);
        var k :| 0 <= k < |cfg[a]| && cfg[a][k] == j;
        assert ServedAt(cfg, s, a, log, k);
      }
    }
  }

  /** From an election on. */
  lemma DeliversFrom(cfg: Config, s: State, a: NodeId, t: Term, log: Log, c1: Command, c2: Command) returns (more: seq<Step>, s': State)
    requires Sound(cfg, s) && a in cfg && Fresh(s, a, t, log) && LogsKept(s, s, t) && |log| + 2 <= RAFT_LOG_CAP
    ensures Path(s, more, s') && Delivered(cfg, s', a, t, WithTwo(log, t, c1, c2))
  {
    var longer := WithTwo(log, t, c1, c2);
    SoundSane(cfg, s, a);
    var two, s1 := TakesTwo(cfg, s, a, t, log, c1, c2);
    var serve, s2 := ServeFrom(cfg, s1, a, t, longer, 0);
    if cfg[a] != [] { ServedIsCommitted(cfg, s2, a, t, longer); }
    Drains(cfg, s2, a, t, longer);
    PathOne(s2, DrainStep(a, |longer|));
    s' := Apply(s2, DrainStep(a, |longer|));
    PathJoin(s, two, s1, serve, s2);
    PathJoin(s, two + serve, s2, [DrainStep(a, |longer|)], s');
    more := two + serve + [DrainStep(a, |longer|)];
  }

  /** From every state of every run, any node that is up to date against a quorum, and has room for two entries, can
      become leader of a new term, take two commands, bring its log to every node, commit everything it held before and
      the first command, and deliver all of that. */
  lemma CanDeliver(cfg: Config, steps: seq<Step>, i: NodeId, quorum: set<NodeId>, c1: Command, c2: Command)
      returns (more: seq<Step>, t: Term)
    requires ValidConfig(cfg) && i in cfg && IsQuorum(cfg.Keys, quorum) && BestOf(Run(cfg, steps), i, quorum)
    requires |LogOf(Run(cfg, steps), i)| + 2 <= RAFT_LOG_CAP
    ensures Delivered(cfg, Run(cfg, steps + more), i, t, WithTwo(LogOf(Run(cfg, steps), i), t, c1, c2))
  {
    RunSound(cfg, steps);
    var s': State;
    more, s', t := CanDeliverFrom(cfg, Run(cfg, steps), i, quorum, c1, c2);
    PathRun(cfg, steps, more, s');
  }

  lemma CanDeliverFrom(cfg: Config, s: State, i: NodeId, quorum: set<NodeId>, c1: Command, c2: Command)
      returns (more: seq<Step>, s': State, t: Term)
    requires Sound(cfg, s) && i in cfg && IsQuorum(cfg.Keys, quorum) && BestOf(s, i, quorum) && |LogOf(s, i)| + 2 <= RAFT_LOG_CAP
    ensures Path(s, more, s') && Delivered(cfg, s', i, t, WithTwo(LogOf(s, i), t, c1, c2))
  {
    var elect: seq<Step>, s1: State;
    elect, s1, t := ElectedFrom(cfg, s, i, quorum);
    PathSound(cfg, s, elect, s1);
    KeptSelf(s, s1, t);
    more, s' := DeliversFrom(cfg, s1, i, t, LogOf(s, i), c1, c2);
    PathJoin(s, elect, s1, more, s');
    more := elect + more;
  }

  // ---------- Someone is always up to date ----------

  lemma {:induction false} SomeoneIsBest(s: State, ids: set<NodeId>) returns (i: NodeId)
    requires ids <= s.servers.Keys && ids != {}
    ensures BestOf(s, i, ids)
  {
    i :| i in ids;
    if ids != {i} {
      var j := SomeoneIsBest(s, ids - {i});
      if !UpToDate(LogOf(s, i), LogOf(s, j)) { i := j; }
    }
  }

  /** No reachable state is stuck: whatever has been lost, repeated, reordered, crashed and restarted, as long as the logs
      have room some node can still be elected and commit and deliver everything that its log holds. */
  lemma NeverStuck(cfg: Config, steps: seq<Step>, c1: Command, c2: Command) returns (i: NodeId, more: seq<Step>, t: Term)
    requires ValidConfig(cfg) && |cfg| > 0
    requires forall j :: j in Run(cfg, steps).servers ==> |LogOf(Run(cfg, steps), j)| + 2 <= RAFT_LOG_CAP
    ensures i in Run(cfg, steps).servers
    ensures forall j :: j in Run(cfg, steps).servers ==> UpToDate(LogOf(Run(cfg, steps), i), LogOf(Run(cfg, steps), j))
    ensures Delivered(cfg, Run(cfg, steps + more), i, t, WithTwo(LogOf(Run(cfg, steps), i), t, c1, c2))
  {
    RunSound(cfg, steps);
    SoundKeys(cfg, Run(cfg, steps));
    i := SomeoneIsBest(Run(cfg, steps), cfg.Keys);
    more, t := CanDeliver(cfg, steps, i, cfg.Keys, c1, c2);
  }

  lemma SoundKeys(cfg: Config, s: State)
    requires Sound(cfg, s) && |cfg| > 0
    ensures s.servers.Keys == cfg.Keys && IsQuorum(cfg.Keys, cfg.Keys)
  {
    assert |cfg.Keys| == |cfg|;
  }
}
