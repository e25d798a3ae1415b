/** When a leader's match_index goes down, over whole runs: exactly when an old acknowledgement arrives between
    next_index and match_index, and only after at least three rejections since the newer one was recorded. */
module MatchDrops {
  import opened RaftTypes
  import opened RaftNode
  import opened Cluster
  import opened ClusterInv
  import opened ClusterSteps
  import opened Safety
  import opened Recovery
  import opened CatchUpRuns

  /** Node a leads term t, with peer b in slot k. */
  ghost predicate Tracks(s: State, a: NodeId, t: Term, k: nat, b: NodeId) {
    && Leads(s, a, t) && Shaped(NodeOf(s, a))
    && k < |NodeOf(s, a).peers| && Distinct(NodeOf(s, a).peers) && NodeOf(s, a).peers[k] == b
  }

  ghost function NextOf(s: State, a: NodeId, k: nat): Index
    requires a in s.servers && k < |NodeOf(s, a).lstate.next|
  {
    NodeOf(s, a).lstate.next[k]
  }

  ghost function MatchOf(s: State, a: NodeId, k: nat): Index
    requires a in s.servers && k < |NodeOf(s, a).lstate.matched|
  {
    NodeOf(s, a).lstate.matched[k]
  }

  /** The step brings a leader of term t the given answer of its peer b, from that very term. */
  predicate Brings(s: State, step: Step, a: NodeId, b: NodeId, t: Term, success: bool) {
    && step.ReceiveStep? && step.pkt in s.net && step.pkt.dst == a && step.pkt.src == b
    && step.pkt.body.AppendResp? && step.pkt.body.aresp.term == t && step.pkt.body.aresp.success == success
  }

  /** An acknowledgement that is recorded in slot k. */
  ghost predicate RecordsAt(s: State, step: Step, a: NodeId, t: Term, k: nat, b: NodeId) {
    Tracks(s, a, t, k, b) && Brings(s, step, a, b, t, true) && NextOf(s, a, k) < step.pkt.body.aresp.matchIndex
  }

  /** A rejection that moves slot k back. */
  ghost predicate RejectsAt(s: State, step: Step, a: NodeId, t: Term, k: nat, b: NodeId) {
    Tracks(s, a, t, k, b) && Brings(s, step, a, b, t, false) && NextOf(s, a, k) > 1
  }

  /** A message of this kind, handled by the leader it is meant for. */
  lemma ResponseMoves(n: Node, resp: AppendResponse, peer: NodeId, w: nat, k: nat)
    requires Shaped(n) && n.role == Leader && Distinct(n.peers) && k < |n.peers|
    ensures var o := HandleAppendResponse(n, resp, peer, w).node;
            o.role == Leader && o.pstate.term == n.pstate.term ==>
              && o.peers == n.peers && |o.lstate.next| == |o.lstate.matched| == |o.peers|
              && (if peer == n.peers[k] && resp.term == n.pstate.term && resp.success && n.lstate.next[k] < resp.matchIndex
                  then o.lstate.matched[k] == resp.matchIndex && o.lstate.next[k] == resp.matchIndex + 1
                  else o.lstate.matched[k] == n.lstate.matched[k])
              && (peer == n.peers[k] && resp.term == n.pstate.term && !resp.success && n.lstate.next[k] > 1 ==>
                    o.lstate.next[k] == n.lstate.next[k] - 1)
              && (!(peer == n.peers[k] && resp.term == n.pstate.term)
                  || (resp.success && n.lstate.next[k] >= resp.matchIndex)
                  || (!resp.success && n.lstate.next[k] <= 1) ==>
                    o.lstate.next[k] == n.lstate.next[k])
  {
    FindPeerExact(n.peers, k);
    var f := FindPeer(n.peers, peer);
  }

  /** Nothing else moves a leader's trackers. */
  lemma OthersKeep(srv: Server, step: Step, after: Server)
    requires Shaped(srv.node) && srv.node.role == Leader && ServerMoves(srv, step, after)
    requires !(step.ReceiveStep? && step.pkt.body.AppendResp?)
    requires after.node.role == Leader && after.node.pstate.term == srv.node.pstate.term
    ensures after.node.peers == srv.node.peers && after.node.lstate == srv.node.lstate
  {
  }

  /** One step of a leader that goes on leading: slot k is recorded, moved back by one, or left alone. */
  lemma LeaderMoves(s: State, step: Step, a: NodeId, t: Term, k: nat, b: NodeId)
    requires Tracks(s, a, t, k, b) && Leads(Apply(s, step), a, t)
    ensures var s' := Apply(s, step);
            && k < |NodeOf(s', a).lstate.next| == |NodeOf(s', a).lstate.matched|
            && (if RecordsAt(s, step, a, t, k, b)
                then MatchOf(s', a, k) == step.pkt.body.aresp.matchIndex && NextOf(s', a, k) == MatchOf(s', a, k) + 1
                else && MatchOf(s', a, k) == MatchOf(s, a, k)
                     && NextOf(s', a, k) == NextOf(s, a, k) - if RejectsAt(s, step, a, t, k, b) then 1 else 0)
  {
    var srv := s.servers[a];
    StepMoves(s, step, a);
    if step.ReceiveStep? && step.pkt.body.AppendResp? {
      ResponseMoves(srv.node, step.pkt.body.aresp, step.pkt.src, step.w, k);
      ResponseStep(s, step, a);
    } else {
      OthersKeep(srv, step, Apply(s, step).servers[a]);
    }
  }

  /** A response reaches the server it is addressed to, if it was sent. */
  lemma ResponseStep(s: State, step: Step, a: NodeId)
    requires a in s.servers && Shaped(NodeOf(s, a)) && step.ReceiveStep? && step.pkt.body.AppendResp?
    ensures a in Apply(s, step).servers
    ensures if step.pkt in s.net && step.pkt.dst == a
            then Apply(s, step).servers[a]
                   == Install(s.servers[a], HandleAppendResponse(NodeOf(s, a), step.pkt.body.aresp, step.pkt.src, step.w))
            else Apply(s, step).servers[a] == s.servers[a]
  {
  }

  /** A node that leads now led the same term before, or has just been elected and knows of no acknowledgement. */
  lemma ElectedBlank(s: State, step: Step, a: NodeId, t: Term)
    requires a in s.servers && Shaped(NodeOf(s, a)) && Leads(Apply(s, step), a, t) && !Leads(s, a, t)
    ensures forall k :: 0 <= k < |NodeOf(Apply(s, step), a).lstate.matched| ==> MatchOf(Apply(s, step), a, k) == 0
  {
    StepMoves(s, step, a);
    BlankMoves(s.servers[a], step, Apply(s, step).servers[a]);
  }

  lemma BlankMoves(srv: Server, step: Step, after: Server)
    requires Shaped(srv.node) && ServerMoves(srv, step, after) && after.node.role == Leader
    requires srv.node.role != Leader || srv.node.pstate.term != after.node.pstate.term
    ensures forall k :: 0 <= k < |after.node.lstate.matched| ==> after.node.lstate.matched[k] == 0
  {
    if step.ReceiveStep? && after != srv { BlankAnswer(srv, step.pkt, step.w); }
  }

  lemma BlankAnswer(srv: Server, pkt: Packet, w: nat)
    requires Shaped(srv.node) && Answer(srv, pkt, w).0.node.role == Leader
    requires srv.node.role != Leader || srv.node.pstate.term != Answer(srv, pkt, w).0.node.pstate.term
    ensures var n := Answer(srv, pkt, w).0.node; forall k :: 0 <= k < |n.lstate.matched| ==> n.lstate.matched[k] == 0
  {
  }

  lemma RunTracks(cfg: Config, steps: seq<Step>, m: nat, a: NodeId, t: Term, k: nat)
    requires ValidConfig(cfg) && m <= |steps| && Leads(At(cfg, steps, m), a, t)
    ensures a in cfg
    ensures k < |cfg[a]| ==> Tracks(At(cfg, steps, m), a, t, k, cfg[a][k])
  {
    var ps := RunInv(cfg, steps);
    assert HistoryAt(cfg, steps, ps, m, m);
    assert ServerAt(cfg, At(cfg, steps, m), ps[m], a);
    assert PeersOk(cfg.Keys, a, cfg[a]);
  }

  /** match_index goes down exactly when an old acknowledgement is recorded over a newer one: a success of this term from
      that peer, whose index lies between next_index and match_index. */
  lemma MatchDropsExactly(cfg: Config, steps: seq<Step>, m: nat, a: NodeId, t: Term, k: nat)
    requires ValidConfig(cfg) && m < |steps| && a in cfg && k < |cfg[a]|
    requires Leads(At(cfg, steps, m), a, t) && Leads(At(cfg, steps, m + 1), a, t)
    ensures Tracks(At(cfg, steps, m), a, t, k, cfg[a][k]) && Tracks(At(cfg, steps, m + 1), a, t, k, cfg[a][k])
    ensures var s, s' := At(cfg, steps, m), At(cfg, steps, m + 1);
            MatchOf(s', a, k) < MatchOf(s, a, k) <==>
              && Brings(s, steps[m], a, cfg[a][k], t, true)
              && NextOf(s, a, k) < steps[m].pkt.body.aresp.matchIndex < MatchOf(s, a, k)
  {
    RunTracks(cfg, steps, m, a, t, k);
    RunTracks(cfg, steps, m + 1, a, t, k);
    AtNext(cfg, steps, m);
    LeaderMoves(At(cfg, steps, m), steps[m], a, t, k, cfg[a][k]);
  }

  // ---------- Rejections ----------

  /** How many of the steps from i up to j moved slot k back. */
  ghost function Rejections(cfg: Config, steps: seq<Step>, a: NodeId, t: Term, k: nat, b: NodeId, i: nat, j: nat): nat
    requires i <= j <= |steps|
  {
    if i == j then 0
    else Rejections(cfg, steps, a, t, k, b, i, j - 1)
           + if RejectsAt(At(cfg, steps, j - 1), steps[j - 1], a, t, k, b) then 1 else 0
  }

  /** The acknowledgement that slot k holds at moment m was recorded by step g, and rejections are all that has moved
      next_index since. */
  ghost predicate Since(cfg: Config, steps: seq<Step>, a: NodeId, t: Term, k: nat, b: NodeId, g: nat, m: nat) {
    && g < m <= |steps| && Tracks(At(cfg, steps, m), a, t, k, b)
    && RecordsAt(At(cfg, steps, g), steps[g], a, t, k, b)
    && steps[g].pkt.body.aresp.matchIndex == MatchOf(At(cfg, steps, m), a, k)
    && NextOf(At(cfg, steps, m), a, k) + Rejections(cfg, steps, a, t, k, b, g + 1, m) == MatchOf(At(cfg, steps, m), a, k) + 1
  }

  lemma SinceNext(cfg: Config, steps: seq<Step>, a: NodeId, t: Term, k: nat, b: NodeId, g: nat, m: nat)
    requires m < |steps| && Since(cfg, steps, a, t, k, b, g, m) && Tracks(At(cfg, steps, m + 1), a, t, k, b)
    requires !RecordsAt(At(cfg, steps, m), steps[m], a, t, k, b)
    ensures Since(cfg, steps, a, t, k, b, g, m + 1)
  {
    AtNext(cfg, steps, m);
    LeaderMoves(At(cfg, steps, m), steps[m], a, t, k, b);
  }

  lemma SinceNow(cfg: Config, steps: seq<Step>, a: NodeId, t: Term, k: nat, b: NodeId, m: nat)
    requires m < |steps| && Tracks(At(cfg, steps, m + 1), a, t, k, b)
    requires RecordsAt(At(cfg, steps, m), steps[m], a, t, k, b)
    ensures Since(cfg, steps, a, t, k, b, m, m + 1)
  {
    AtNext(cfg, steps, m);
    LeaderMoves(At(cfg, steps, m), steps[m], a, t, k, b);
  }

  /** Every match index that is not zero was recorded by some step, and next_index accounts for all rejections since. */
  lemma {:induction false} RecordedBy(cfg: Config, steps: seq<Step>, m: nat, a: NodeId, t: Term, k: nat) returns (g: nat)
    requires ValidConfig(cfg) && m <= |steps| && a in cfg && k < |cfg[a]|
    requires Tracks(At(cfg, steps, m), a, t, k, cfg[a][k]) && MatchOf(At(cfg, steps, m), a, k) > 0
    ensures Since(cfg, steps, a, t, k, cfg[a][k], g, m)
  {
    var b := cfg[a][k];
    if m == 0 {
      assert false;
    }
    var s := At(cfg, steps, m - 1);
    AtNext(cfg, steps, m - 1);
    Recovers(cfg, steps, a, m - 1);
    if !Leads(s, a, t) {
      ElectedBlank(s, steps[m - 1], a, t);
      assert false;
    }
    RunTracks(cfg, steps, m - 1, a, t, k);
    if RecordsAt(s, steps[m - 1], a, t, k, b) {
      g := m - 1;
      SinceNow(cfg, steps, a, t, k, b, m - 1);
    } else {
      LeaderMoves(s, steps[m - 1], a, t, k, b);
      g := RecordedBy(cfg, steps, m - 1, a, t, k);
      SinceNext(cfg, steps, a, t, k, b, g, m - 1);
    }
  }

  /** match_index goes down only after at least three rejections that were recorded since the acknowledgement that it
      loses. */
  lemma DropNeedsRejections(cfg: Config, steps: seq<Step>, m: nat, a: NodeId, t: Term, k: nat) returns (g: nat)
    requires ValidConfig(cfg) && m < |steps| && a in cfg && k < |cfg[a]|
    requires Tracks(At(cfg, steps, m), a, t, k, cfg[a][k]) && Tracks(At(cfg, steps, m + 1), a, t, k, cfg[a][k])
    requires MatchOf(At(cfg, steps, m + 1), a, k) < MatchOf(At(cfg, steps, m), a, k)
    ensures Since(cfg, steps, a, t, k, cfg[a][k], g, m)
    ensures Rejections(cfg, steps, a, t, k, cfg[a][k], g + 1, m) >= 3
  {
    g := RecordedBy(cfg, steps, m, a, t, k);
    MatchDropsExactly(cfg, steps, m, a, t, k);
  }
}
