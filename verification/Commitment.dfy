/** Commit indices and delivery, in runs whose followers only learn commit indices safely.

    A follower caps the leader's commit index by its own last index, not by the last entry that the request
    confirmed. When that is safe is said by LearnsSafely; without it the commit index of a follower can cover
    entries that its leader contradicts. */
module Commitment {
  import opened RaftTypes
  import opened RaftNode
  import opened AppendLoops
  import opened Cluster
  import opened Protocol
  import opened ClusterInv
  import opened ClusterSteps
  import opened ReplicaSteps
  import opened Safety

  // ---------- The guard ----------

  /** Some entry of the batch contradicts the log. */
  predicate Conflicts(log: Log, req: AppendRequest) {
    exists k :: 0 <= k < |req.entries| && req.prevIndex + k < |log| && log[req.prevIndex + k].term != req.entries[k].term
  }

  /** The request passes the term check and the consistency check. */
  predicate Accepts(n: Node, req: AppendRequest) {
    req.term >= n.pstate.term && PrevMatches(n.pstate.log, req)
  }

  /** The request teaches a log no commit index beyond what is confirmed: the request confirms all it commits, or
      the log will end where the batch ends, or the log has no entry beyond those committed already, or the log's
      last entry is this leader's own. */
  predicate Confirms(log: Log, commit: Index, req: AppendRequest) {
    || req.leaderCommit <= EndIndex(req)
    || |log| <= EndIndex(req)
    || |log| <= commit
    || Conflicts(log, req)
    || LastTerm(log) == req.term
  }

  /** The follower gave its vote of this very term to the sender. */
  predicate VotedForSender(n: Node, req: AppendRequest) {
    n.pstate.term == req.term && n.pstate.votedFor == req.leaderId && n.pstate.votedFor != RAFT_NONE
  }

  /** The guard: the leader has committed no more than the follower, or what the follower learns is confirmed, or the
      follower voted for the sender with a log that ends in the term just before. */
  predicate LearnsSafely(n: Node, req: AppendRequest) {
    || req.leaderCommit <= n.commitIndex
    || Confirms(n.pstate.log, n.commitIndex, req)
    || (VotedForSender(n, req) && LastTerm(n.pstate.log) + 1 == req.term)
  }

  /** What the guard is for: as far as this log goes, the follower learns nothing that the sender does not hold. */
  ghost predicate Harmless(log: Log, commit: Index, req: AppendRequest, ldr: Log) {
    || req.leaderCommit <= commit
    || Confirms(log, commit, req)
    || Carries(log, ldr, Min(req.leaderCommit, |log|))
  }

  predicate SafeStep(s: State, step: Step) {
    step.ReceiveStep? && step.pkt.body.AppendReq? && step.pkt.dst in s.servers ==>
      var n := s.servers[step.pkt.dst].node;
      Accepts(n, step.pkt.body.areq) ==> LearnsSafely(n, step.pkt.body.areq)
  }

  ghost predicate SafeAt(cfg: Config, steps: seq<Step>, k: nat) {
    k < |steps| ==> SafeStep(Run(cfg, steps[..k]), steps[k])
  }

  /** Every request that is accepted in the run meets the guard; in a cluster of one or two nodes none needs to. */
  ghost predicate SafeRun(cfg: Config, steps: seq<Step>) {
    |cfg| <= 2 || forall k: nat :: SafeAt(cfg, steps, k)
  }

  // ---------- Committed logs ----------

  ghost predicate CommitWitness(ids: set<NodeId>, p: Proto, t: Term, log: Log, u: Term, n: nat) {
    u <= t && Chosen(ids, p, u, n) && |log| <= n && log == p.tlog[u][..|log|]
  }

  /** The log is part of what a quorum acknowledged to a leader of term t or earlier. */
  ghost predicate Committed(ids: set<NodeId>, p: Proto, t: Term, log: Log) {
    log == [] || exists u: Term, n: nat :: CommitWitness(ids, p, t, log, u, n)
  }

  lemma CommittedGrows(ids: set<NodeId>, p: Proto, p': Proto, t: Term, t': Term, log: Log)
    requires Grows(p, p') && t <= t' && Committed(ids, p, t, log)
    ensures Committed(ids, p', t', log)
  {
    if log != [] {
      var u: Term, n: nat :| CommitWitness(ids, p, t, log, u, n);
      ChosenGrows(ids, p, p', u, n);
      assert p.tlog[u] <= p'.tlog[u];
      assert CommitWitness(ids, p', t', log, u, n);
    }
  }

  lemma CommittedPrefix(ids: set<NodeId>, p: Proto, t: Term, log: Log, k: nat)
    requires k <= |log| && Committed(ids, p, t, log)
    ensures Committed(ids, p, t, log[..k])
  {
    if k > 0 {
      var u: Term, n: nat :| CommitWitness(ids, p, t, log, u, n);
      assert CommitWitness(ids, p, t, log[..k], u, n);
    }
  }

  /** A committed log is carried by the leader of every term from t on. */
  lemma CommittedIsCarried(ids: set<NodeId>, p: Proto, t: Term, log: Log, v: Term)
    requires ProtoInv(ids, p) && Committed(ids, p, t, log) && t <= v && v in p.tlog
    ensures Carries(log, p.tlog[v], |log|)
  {
    if log != [] {
      var u: Term, n: nat :| CommitWitness(ids, p, t, log, u, n);
      ChosenIsChoosable(ids, p, u, n);
      assert LeadOk(ids, p, u, v, n);
      assert p.tlog[v][..|log|] == p.tlog[u][..|log|] by {
        assert p.tlog[v][..n][..|log|] == p.tlog[v][..|log|];
        assert p.tlog[u][..n][..|log|] == p.tlog[u][..|log|];
      }
    }
  }

  /** Two chosen prefixes agree where both reach. */
  lemma ChosenAgree(ids: set<NodeId>, p: Proto, t: Term, n: nat, u: Term, m: nat, k: nat)
    requires ProtoInv(ids, p) && Chosen(ids, p, t, n) && Chosen(ids, p, u, m) && k < n && k < m
    ensures p.tlog[t][k] == p.tlog[u][k]
  {
    ChosenIsChoosable(ids, p, t, n);
    ChosenIsChoosable(ids, p, u, m);
    if t < u {
      assert LeadOk(ids, p, t, u, n);
      CarriesAt(p.tlog[u], p.tlog[t], n);
    } else if u < t {
      assert LeadOk(ids, p, u, t, m);
      CarriesAt(p.tlog[t], p.tlog[u], m);
    }
  }

  // ---------- The invariant of safe runs ----------

  /** lastApplied <= commitIndex <= log length, what was delivered is the log up to lastApplied, and the log up
      to the commit index is committed. */
  ghost predicate CommitsOk(ids: set<NodeId>, srv: Server, p: Proto) {
    var n := srv.node;
    && n.lastApplied <= n.commitIndex <= |n.pstate.log|
    && srv.output == n.pstate.log[..n.lastApplied]
    && Committed(ids, p, n.pstate.term, n.pstate.log[..n.commitIndex])
  }

  ghost predicate LeaderCommitOk(ids: set<NodeId>, req: AppendRequest, p: Proto) {
    && req.term in p.tlog && req.leaderCommit <= |p.tlog[req.term]|
    && Committed(ids, p, req.term, p.tlog[req.term][..req.leaderCommit])
  }

  ghost predicate DeliveryWitness(ids: set<NodeId>, p: Proto, d: Delivery, u: Term, n: nat) {
    Chosen(ids, p, u, n) && 1 <= d.index <= n && p.tlog[u][d.index - 1] == d.entry
  }

  ghost predicate DeliveryOk(ids: set<NodeId>, d: Delivery, p: Proto) {
    exists u: Term, n: nat :: DeliveryWitness(ids, p, d, u, n)
  }

  ghost predicate CommitsAt(cfg: Config, s: State, p: Proto, i: NodeId) {
    i in s.servers ==> CommitsOk(cfg.Keys, s.servers[i], p)
  }

  ghost predicate LeaderCommitAt(cfg: Config, s: State, p: Proto, pkt: Packet) {
    pkt in s.net && pkt.body.AppendReq? ==> LeaderCommitOk(cfg.Keys, pkt.body.areq, p)
  }

  ghost predicate DeliveryAt(cfg: Config, s: State, p: Proto, d: Delivery) {
    d in s.delivered ==> DeliveryOk(cfg.Keys, d, p)
  }

  ghost predicate CommitInv(cfg: Config, s: State, p: Proto) {
    && (forall i: NodeId :: CommitsAt(cfg, s, p, i))
    && (forall pkt: Packet :: LeaderCommitAt(cfg, s, p, pkt))
    && (forall d: Delivery :: DeliveryAt(cfg, s, p, d))
  }

  lemma CommitsGrow(ids: set<NodeId>, srv: Server, srv': Server, p: Proto, p': Proto)
    requires CommitsOk(ids, srv, p) && Grows(p, p')
    requires srv'.output == srv.output && srv'.node.lastApplied == srv.node.lastApplied
    requires srv'.node.commitIndex == srv.node.commitIndex && srv.node.pstate.term <= srv'.node.pstate.term
    requires Carries(srv'.node.pstate.log, srv.node.pstate.log, srv.node.commitIndex)
    ensures CommitsOk(ids, srv', p')
  {
    var n, n' := srv.node, srv'.node;
    CommittedGrows(ids, p, p', n.pstate.term, n'.pstate.term, n.pstate.log[..n.commitIndex]);
    assert n.pstate.log[..n.commitIndex][..n.lastApplied] == n.pstate.log[..n.lastApplied];
    assert n'.pstate.log[..n.commitIndex][..n.lastApplied] == n'.pstate.log[..n.lastApplied];
  }

  lemma LeaderCommitGrows(ids: set<NodeId>, req: AppendRequest, p: Proto, p': Proto)
    requires LeaderCommitOk(ids, req, p) && Grows(p, p')
    ensures LeaderCommitOk(ids, req, p')
  {
    CommittedGrows(ids, p, p', req.term, req.term, p.tlog[req.term][..req.leaderCommit]);
    assert p'.tlog[req.term][..req.leaderCommit] == p.tlog[req.term][..req.leaderCommit];
  }

  lemma DeliveryGrows(ids: set<NodeId>, d: Delivery, p: Proto, p': Proto)
    requires DeliveryOk(ids, d, p) && Grows(p, p')
    ensures DeliveryOk(ids, d, p')
  {
    var u: Term, n: nat :| DeliveryWitness(ids, p, d, u, n);
    ChosenGrows(ids, p, p', u, n);
    assert p.tlog[u] <= p'.tlog[u];
    assert DeliveryWitness(ids, p', d, u, n);
  }

  // ---------- The follower ----------

  /** A log that already carries the leader's first c entries still does after the loop. */
  lemma ShapeKeeps(log: Log, ldr: Log, r: LoopResult, pos: nat, m: nat, cut: bool, n: nat, c: nat)
    requires LoopShape(log, ldr, r, pos, m, cut, n) && Carries(log, ldr, c)
    ensures Carries(r.log, ldr, c)
  {
    CarriesAt(log, ldr, c);
  }

  /** Under the guard, the log that results agrees with the leader up to the commit index learned. */
  lemma ShapeLearns(log: Log, ldr: Log, req: AppendRequest, r: LoopResult, pos: nat, m: nat, cut: bool, commit: Index)
    requires LoopShape(log, ldr, r, pos, m, cut, EndIndex(req)) && r.stop == Done && IsSlice(req, ldr)
    requires req.leaderCommit > commit
    requires LastTerm(log) == req.term ==> Carries(log, ldr, |log|)
    requires Carries(log, ldr, commit) && Harmless(log, commit, req, ldr)
    ensures Carries(r.log, ldr, LearnCommit(commit, req.leaderCommit, r.log))
  {
    if Carries(log, ldr, Min(req.leaderCommit, |log|)) {
      ShapeKeeps(log, ldr, r, pos, m, cut, EndIndex(req), Min(req.leaderCommit, |log|));
    } else if !cut && pos == m {
      CarriesAt(log, ldr, EndIndex(req));
      assert !Conflicts(log, req);
    }
  }

  /** A log whose last entry is of the leader's term is a prefix of the leader's log. */
  lemma LastTermCarries(ids: set<NodeId>, p: Proto, i: NodeId, t: Term)
    requires ProtoInv(ids, p) && i in ids && t in p.tlog && LastTerm(p.log[i]) == t
    ensures Carries(p.log[i], p.tlog[t], |p.log[i]|)
  {
    assert NodeOk(ids, p, i);
    if p.log[i] != [] {
      assert OwnedPrefix(p.tlog, p.log[i], |p.log[i]| - 1);
    }
  }

  /** What the loop leaves of the log: everything committed so far, and under the guard also what is learned. */
  lemma LoopCommits(ids: set<NodeId>, p: Proto, i: NodeId, req: AppendRequest, w: nat, commit: Index)
    requires ProtoInv(ids, p) && i in ids && req.term in p.tlog && IsSlice(req, p.tlog[req.term])
    requires PrevMatches(p.log[i], req) && Carries(p.log[i], p.tlog[req.term], commit)
    ensures var r := AppendLoop(p.log[i], req.prevIndex, req.entries, 0, w);
            && r.stop != Rejected && Carries(r.log, p.log[i], commit)
            && (r.stop == Done && req.leaderCommit > commit && Harmless(p.log[i], commit, req, p.tlog[req.term]) ==>
                  Carries(r.log, p.tlog[req.term], LearnCommit(commit, req.leaderCommit, r.log)))
  {
    var log, ldr := p.log[i], p.tlog[req.term];
    var r := AppendLoop(log, req.prevIndex, req.entries, 0, w);
    ServerMatches(ids, p, i, req.term);
    assert LeaderOk(ids, p, req.term);
    PrevCarries(log, ldr, req);
    var pos, m, cut := LoopEnds(log, ldr, req, 0, w);
    ShapeKeeps(log, ldr, r, pos, m, cut, EndIndex(req), commit);
    if LastTerm(log) == req.term { LastTermCarries(ids, p, i, req.term); }
    if r.stop == Done && req.leaderCommit > commit && Harmless(log, commit, req, ldr) {
      ShapeLearns(log, ldr, req, r, pos, m, cut, commit);
    }
  }

  /** HandleAppendEntriesRequest keeps commit indices sound when the guard holds. */
  lemma FollowCommits(ids: set<NodeId>, p: Proto, p': Proto, i: NodeId, srv: Server, req: AppendRequest, w: nat)
    requires ProtoInv(ids, p) && i in ids && srv.node.pstate.log == p.log[i] && CommitsOk(ids, srv, p) && Grows(p, p')
    requires srv.node.pstate.term == req.term && LeaderCommitOk(ids, req, p) && IsSlice(req, p.tlog[req.term])
    requires PrevMatches(srv.node.pstate.log, req) ==> Harmless(p.log[i], srv.node.commitIndex, req, p.tlog[req.term])
    ensures var o := FollowLeader(srv.node, req, w).0;
            !o.failed ==> CommitsOk(ids, Install(srv, o), p')
  {
    var n := srv.node;
    var o := FollowLeader(n, req, w).0;
    if !PrevMatches(n.pstate.log, req) {
      CommitsGrow(ids, srv, Install(srv, o), p, p');
    } else if !o.failed {
      CommittedIsCarried(ids, p, req.term, n.pstate.log[..n.commitIndex], req.term);
      assert n.pstate.log[..n.commitIndex][..n.commitIndex] == n.pstate.log[..n.commitIndex];
      LoopCommits(ids, p, i, req, w, n.commitIndex);
      var kept := Install(srv, o).(node := o.node.(commitIndex := n.commitIndex));
      CommitsGrow(ids, srv, kept, p, p');
      if req.leaderCommit > n.commitIndex {
        LearnedIsCommitted(ids, p, p', req, o.node.pstate.log, n.commitIndex);
      }
    }
  }

  lemma LearnedIsCommitted(ids: set<NodeId>, p: Proto, p': Proto, req: AppendRequest, log: Log, commit: Index)
    requires LeaderCommitOk(ids, req, p) && Grows(p, p') && req.leaderCommit > commit
    requires Carries(log, p.tlog[req.term], LearnCommit(commit, req.leaderCommit, log))
    ensures Committed(ids, p', req.term, log[..LearnCommit(commit, req.leaderCommit, log)])
  {
    var c, l := LearnCommit(commit, req.leaderCommit, log), p.tlog[req.term][..req.leaderCommit];
    CommittedPrefix(ids, p, req.term, l, c);
    assert l[..c] == p.tlog[req.term][..c];
    CommittedGrows(ids, p, p', req.term, req.term, l[..c]);
  }

  // ---------- The other handlers ----------

  /** A handler other than HandleAppendEntriesRequest restarts the node, or keeps its log and what it has
      committed and delivered, except that a leader may commit more. */
  ghost predicate KeepsCommits(srv: Server, after: Server) {
    || (after.output == [] && after.node.lastApplied == 0 && after.node.commitIndex == 0)
    || (&& after.output == srv.output && after.node.lastApplied == srv.node.lastApplied
        && srv.node.pstate.term <= after.node.pstate.term && srv.node.pstate.log <= after.node.pstate.log
        && srv.node.commitIndex <= after.node.commitIndex
        && (srv.node.commitIndex < after.node.commitIndex ==> after.node.role == Leader))
  }

  lemma AnswerKeeps(srv: Server, pkt: Packet, w: nat)
    requires Shaped(srv.node) && !pkt.body.AppendReq? && srv.node.commitIndex <= |srv.node.pstate.log|
    ensures KeepsCommits(srv, Answer(srv, pkt, w).0)
  {
    if pkt.body.AppendResp? {
      AppendResponseCommits(srv.node, pkt.body.aresp, pkt.src, w);
    }
  }

  /** A leader that commits more commits only what it may. */
  ghost predicate RaisesWell(srv: Server, after: Server) {
    after.node.role == Leader && srv.node.commitIndex < after.node.commitIndex ==>
      after.node.commitIndex <= |after.node.pstate.log| && Committable(after.node, after.node.commitIndex)
  }

  lemma MovesKeep(srv: Server, step: Step, after: Server)
    requires Shaped(srv.node) && ServerMoves(srv, step, after) && srv.node.commitIndex <= |srv.node.pstate.log|
    requires !(step.ReceiveStep? && step.pkt.body.AppendReq?) && !step.DrainStep?
    ensures KeepsCommits(srv, after)
  {
    if step.ReceiveStep? && after != srv {
      AnswerKeeps(srv, step.pkt, step.w);
    }
  }

  /** What a leader commits by itself is committed. */
  lemma OwnCommit(cfg: Config, s: State, p: Proto, i: NodeId)
    requires Inv(cfg, s, p) && i in s.servers && s.servers[i].node.role == Leader
    requires var n := s.servers[i].node; 1 <= n.commitIndex <= |n.pstate.log| && Committable(n, n.commitIndex)
    ensures var n := s.servers[i].node; Committed(cfg.Keys, p, n.pstate.term, n.pstate.log[..n.commitIndex])
  {
    var n := s.servers[i].node;
    CommittableIsChosen(cfg, s, p, i, n.commitIndex);
    LeadsFacts(cfg, s, p, i, n.pstate.term);
    assert CommitWitness(cfg.Keys, p, n.pstate.term, n.pstate.log[..n.commitIndex], n.pstate.term, n.commitIndex);
  }

  lemma RaisedCommits(cfg: Config, s': State, p: Proto, p': Proto, i: NodeId, srv: Server)
    requires Inv(cfg, s', p') && i in s'.servers && CommitsOk(cfg.Keys, srv, p) && RaisesWell(srv, s'.servers[i])
    requires var after := s'.servers[i];
             && after.output == srv.output && after.node.lastApplied == srv.node.lastApplied
             && srv.node.pstate.log <= after.node.pstate.log
             && srv.node.commitIndex < after.node.commitIndex && after.node.role == Leader
    ensures CommitsOk(cfg.Keys, s'.servers[i], p')
  {
    var after := s'.servers[i];
    OwnCommit(cfg, s', p', i);
    assert srv.node.pstate.log[..srv.node.lastApplied] == after.node.pstate.log[..srv.node.lastApplied];
  }

  lemma KeptCommits(cfg: Config, s': State, p: Proto, p': Proto, i: NodeId, srv: Server)
    requires Inv(cfg, s', p') && Grows(p, p') && i in s'.servers && CommitsOk(cfg.Keys, srv, p)
    requires KeepsCommits(srv, s'.servers[i]) && RaisesWell(srv, s'.servers[i])
    ensures CommitsOk(cfg.Keys, s'.servers[i], p')
  {
    var after := s'.servers[i];
    if after.node.commitIndex == srv.node.commitIndex && after.output == srv.output
       && after.node.lastApplied == srv.node.lastApplied && srv.node.pstate.log <= after.node.pstate.log
       && srv.node.pstate.term <= after.node.pstate.term {
      CommitsGrow(cfg.Keys, srv, after, p, p');
    } else if after.node.commitIndex > 0 {
      RaisedCommits(cfg, s', p, p', i, srv);
    }
  }

  lemma AppendFreshCommits(ids: set<NodeId>, p: Proto, p': Proto, i: NodeId, srv: Server, req: AppendRequest, w: nat)
    requires ProtoInv(ids, p) && i in ids && srv.node.pstate.log == p.log[i] && Grows(p, p')
    requires LeaderCommitOk(ids, req, p) && IsSlice(req, p.tlog[req.term])
    requires req.term >= srv.node.pstate.term && !UpdateTerm(srv.node, req.term, w).failed
    requires CommitsOk(ids, Install(srv, UpdateTerm(srv.node, req.term, w)), p)
    requires PrevMatches(srv.node.pstate.log, req) ==> Harmless(p.log[i], srv.node.commitIndex, req, p.tlog[req.term])
    ensures CommitsOk(ids, Install(srv, HandleAppendRequest(srv.node, req, w).0), p')
  {
    var up := UpdateTerm(srv.node, req.term, w);
    var s1 := Install(srv, up);
    AppendRequestSplit(srv, req, w);
    assert s1.node.pstate.log == srv.node.pstate.log && s1.node.commitIndex == srv.node.commitIndex;
    FollowedCommits(ids, p, p', i, s1, req, w - |up.writes|, Install(srv, HandleAppendRequest(srv.node, req, w).0));
  }

  lemma FollowedCommits(ids: set<NodeId>, p: Proto, p': Proto, i: NodeId, srv: Server, req: AppendRequest, w: nat, after: Server)
    requires ProtoInv(ids, p) && i in ids && srv.node.pstate.log == p.log[i] && CommitsOk(ids, srv, p) && Grows(p, p')
    requires srv.node.pstate.term == req.term && LeaderCommitOk(ids, req, p) && IsSlice(req, p.tlog[req.term])
    requires PrevMatches(srv.node.pstate.log, req) ==> Harmless(p.log[i], srv.node.commitIndex, req, p.tlog[req.term])
    requires after == Install(srv, FollowLeader(srv.node, req, w).0)
    ensures CommitsOk(ids, after, p')
  {
    FollowCommits(ids, p, p', i, srv, req, w);
    var o := FollowLeader(srv.node, req, w).0;
    if o.failed { BootCommits(ids, srv, o, p'); }
  }

  /** A node that comes back has committed nothing and delivered nothing. */
  lemma BootCommits(ids: set<NodeId>, srv: Server, o: Outcome, p: Proto)
    requires o.failed
    ensures CommitsOk(ids, Install(srv, o), p)
  {
  }

  lemma AppendCommits(ids: set<NodeId>, p: Proto, p': Proto, i: NodeId, srv: Server, req: AppendRequest, w: nat)
    requires ProtoInv(ids, p) && i in ids && srv.node.pstate.log == p.log[i] && CommitsOk(ids, srv, p) && Grows(p, p')
    requires LeaderCommitOk(ids, req, p) && IsSlice(req, p.tlog[req.term])
    requires Accepts(srv.node, req) ==> Harmless(p.log[i], srv.node.commitIndex, req, p.tlog[req.term])
    ensures CommitsOk(ids, Install(srv, HandleAppendRequest(srv.node, req, w).0), p')
  {
    var up := UpdateTerm(srv.node, req.term, w);
    if req.term < srv.node.pstate.term {
      CommitsGrow(ids, srv, Install(srv, Outcome(srv.node, [], false)), p, p');
    } else if !up.failed {
      GrowsSelf(p);
      CommitsGrow(ids, srv, Install(srv, up), p, p);
      AppendFreshCommits(ids, p, p', i, srv, req, w);
    }
  }

  lemma WholeCluster(ids: set<NodeId>, a: set<NodeId>)
    requires IsQuorum(ids, a) && |ids| <= 2
    ensures a == ids
  {
    assert ids == a + (ids - a);
    assert |ids| == |a| + |ids - a|;
  }

  /** In a cluster of at most two nodes a quorum is everyone, so everyone holds what is committed. */
  lemma EveryoneHolds(ids: set<NodeId>, p: Proto, t: Term, log: Log, i: NodeId)
    requires ProtoInv(ids, p) && |ids| <= 2 && i in ids && Committed(ids, p, t, log)
    ensures Carries(p.log[i], log, |log|)
  {
    if log != [] {
      var u: Term, n: nat :| CommitWitness(ids, p, t, log, u, n);
      WholeCluster(ids, Ackers(ids, p, u, n));
      ChosenIsChoosable(ids, p, u, n);
      assert i in Ackers(ids, p, u, n) && KeepOk(ids, p, i, u, n);
      assert p.log[i][..n][..|log|] == p.log[i][..|log|];
      assert p.tlog[u][..n][..|log|] == p.tlog[u][..|log|];
    }
  }

  lemma CarriesLess(log: Log, ldr: Log, n: nat, m: nat)
    requires Carries(log, ldr, n) && m <= n
    ensures Carries(log, ldr, m)
  {
    assert log[..n][..m] == log[..m] && ldr[..n][..m] == ldr[..m];
  }

  /** A node that voted for the leader of its term with a log ending in the term just before holds a prefix of the
      leader's log: the leader's own log then ended in that term too, and was no shorter. */
  lemma VoterHoldsLess(ids: set<NodeId>, p: Proto, i: NodeId, ps: Persistent)
    requires ProtoInv(ids, p) && i in ids && ps.log == p.log[i] && ps.term in p.tlog && VoteOk(i, ps, p)
    requires ps.votedFor == p.leaderOf[ps.term] && ps.votedFor != RAFT_NONE && LastTerm(ps.log) + 1 == ps.term
    ensures Carries(ps.log, p.tlog[ps.term], |ps.log|)
  {
    var t, log, ldr := ps.term, ps.log, p.tlog[ps.term];
    var start := p.campaign[(ps.votedFor, t)];
    assert LeaderOk(ids, p, t) && NodeOk(ids, p, i);
    if log != [] && UpToDate(start, log) {
      var n := |start|;
      assert n > 0 && ldr[n - 1] == start[n - 1];
      assert start[n - 1].term == t - 1 == log[|log| - 1].term;
      assert OwnedPrefix(p.tlog, ldr, n - 1) && OwnedPrefix(p.tlog, log, |log| - 1);
      assert ldr[..n][..|log|] == ldr[..|log|] && p.tlog[t - 1][..n][..|log|] == p.tlog[t - 1][..|log|];
    }
  }

  lemma ReceiveCommits(cfg: Config, s: State, p: Proto, p': Proto, pkt: Packet, w: nat)
    requires Inv(cfg, s, p) && CommitInv(cfg, s, p) && Grows(p, p') && pkt in s.net && pkt.body.AppendReq?
    requires (|cfg| <= 2 || SafeStep(s, ReceiveStep(pkt, w))) && pkt.dst in cfg && Shaped(s.servers[pkt.dst].node)
    ensures CommitsOk(cfg.Keys, Answer(s.servers[pkt.dst], pkt, w).0, p')
  {
    var ids, i := cfg.Keys, pkt.dst;
    assert ServerAt(cfg, s, p, i) && PacketAt(ids, s.net, pkt, p);
    assert CommitsAt(cfg, s, p, i) && LeaderCommitAt(cfg, s, p, pkt);
    if Accepts(s.servers[i].node, pkt.body.areq) { AcceptedIsHarmless(ids, p, i, s.servers[i].node, pkt.body.areq); }
    AppendCommits(ids, p, p', i, s.servers[i], pkt.body.areq, w);
  }

  /** The guard does what it is for, and in a cluster of at most two nodes nothing needs to be guarded. */
  lemma AcceptedIsHarmless(ids: set<NodeId>, p: Proto, i: NodeId, n: Node, req: AppendRequest)
    requires ProtoInv(ids, p) && i in ids && n.pstate.log == p.log[i] && VoteOk(i, n.pstate, p)
    requires LeaderCommitOk(ids, req, p) && p.leaderOf[req.term] == req.leaderId
    requires |ids| <= 2 || LearnsSafely(n, req)
    ensures Harmless(p.log[i], n.commitIndex, req, p.tlog[req.term])
  {
    var log, ldr := p.log[i], p.tlog[req.term];
    if |ids| <= 2 {
      EveryoneHolds(ids, p, req.term, ldr[..req.leaderCommit], i);
      assert ldr[..req.leaderCommit][..req.leaderCommit] == ldr[..req.leaderCommit];
    } else if VotedForSender(n, req) && LastTerm(log) + 1 == req.term {
      VoterHoldsLess(ids, p, i, n.pstate);
      CarriesLess(log, ldr, |log|, Min(req.leaderCommit, |log|));
    }
  }

  lemma DrainCommits(ids: set<NodeId>, srv: Server, p: Proto, cap: nat)
    requires CommitsOk(ids, srv, p)
    ensures CommitsOk(ids, Drained(srv, cap), p)
    ensures Drained(srv, cap).node.pstate == srv.node.pstate
  {
    var n := srv.node;
    var k := DrainCount(n, cap);
    if k > 0 {
      assert n.pstate.log[..n.lastApplied] + n.pstate.log[n.lastApplied..n.lastApplied + k]
          == n.pstate.log[..n.lastApplied + k];
    }
  }

  lemma DrainDelivers(ids: set<NodeId>, i: NodeId, srv: Server, p: Proto, cap: nat, d: Delivery)
    requires CommitsOk(ids, srv, p) && d in Deliveries(i, srv.node.lastApplied, Drain(srv.node, cap).1)
    ensures DeliveryOk(ids, d, p)
  {
    var n, es := srv.node, Drain(srv.node, cap).1;
    var k :| 0 <= k < |es| && d == Delivery(i, n.lastApplied + k + 1, es[k]);
    var log := n.pstate.log[..n.commitIndex];
    var u: Term, m: nat :| CommitWitness(ids, p, n.pstate.term, log, u, m);
    assert log[d.index - 1] == d.entry;
    assert DeliveryWitness(ids, p, d, u, m);
  }

  /** A request that is handled, or not addressed to this server. */
  lemma ReceiveMoves(cfg: Config, s: State, p: Proto, p': Proto, step: Step, i: NodeId)
    requires Inv(cfg, s, p) && CommitInv(cfg, s, p) && Grows(p, p') && (|cfg| <= 2 || SafeStep(s, step))
    requires i in cfg && step.ReceiveStep? && step.pkt.body.AppendReq? && Shaped(s.servers[i].node)
    ensures CommitsAt(cfg, Apply(s, step), p', i)
  {
    if step.pkt in s.net && step.pkt.dst == i {
      ReceiveCommits(cfg, s, p, p', step.pkt, step.w);
    } else {
      assert CommitsAt(cfg, s, p, i);
      CommitsGrow(cfg.Keys, s.servers[i], s.servers[i], p, p');
    }
  }

  lemma DrainMoves(cfg: Config, s: State, p: Proto, p': Proto, step: Step, i: NodeId)
    requires i in s.servers && CommitsOk(cfg.Keys, s.servers[i], p) && Grows(p, p') && step.DrainStep?
    ensures CommitsAt(cfg, Apply(s, step), p', i)
  {
    CommitsGrow(cfg.Keys, s.servers[i], s.servers[i], p, p');
    DrainCommits(cfg.Keys, s.servers[i], p', step.cap);
  }

  /** Any other step. */
  lemma OtherMoves(cfg: Config, s: State, s': State, p: Proto, p': Proto, step: Step, i: NodeId)
    requires Inv(cfg, s', p') && Grows(p, p') && s' == Apply(s, step) && i in cfg && i in s.servers
    requires Shaped(s.servers[i].node) && CommitsOk(cfg.Keys, s.servers[i], p)
    requires !(step.ReceiveStep? && step.pkt.body.AppendReq?) && !step.DrainStep?
    ensures CommitsAt(cfg, s', p', i)
  {
    var srv, after := s.servers[i], s'.servers[i];
    StepMoves(s, step, i);
    MovesKeep(srv, step, after);
    assert RaisesWell(srv, after) by {
      if after.node.role == Leader && srv.node.commitIndex < after.node.commitIndex {
        CommitIsCommittable(srv, step, after);
      }
    }
    KeptCommits(cfg, s', p, p', i, srv);
  }

  /** The server that a step changes, whichever it is. */
  lemma ServerCommits(cfg: Config, s: State, s': State, p: Proto, p': Proto, step: Step, i: NodeId)
    requires Inv(cfg, s, p) && CommitInv(cfg, s, p) && (|cfg| <= 2 || SafeStep(s, step))
    requires s' == Apply(s, step) && Inv(cfg, s', p') && Grows(p, p')
    ensures CommitsAt(cfg, s', p', i)
  {
    if i in cfg {
      assert ServerAt(cfg, s, p, i) && CommitsAt(cfg, s, p, i);
      if step.ReceiveStep? && step.pkt.body.AppendReq? {
        ReceiveMoves(cfg, s, p, p', step, i);
      } else if step.DrainStep? {
        DrainMoves(cfg, s, p, p', step, i);
      } else {
        OtherMoves(cfg, s, s', p, p', step, i);
      }
    }
  }

  /** A leader's requests carry its own, committed, commit index. */
  lemma SentCommit(cfg: Config, s: State, p: Proto, i: NodeId, req: AppendRequest)
    requires Inv(cfg, s, p) && CommitInv(cfg, s, p) && i in cfg && s.servers[i].node.role == Leader
    requires req.term == s.servers[i].node.pstate.term && req.leaderCommit == s.servers[i].node.commitIndex
    ensures LeaderCommitOk(cfg.Keys, req, p)
  {
    assert CommitsAt(cfg, s, p, i);
    LeadsFacts(cfg, s, p, i, req.term);
  }

  /** Only a leader's send puts a new request on the network. */
  lemma NewRequest(s: State, step: Step, pkt: Packet)
    requires pkt in Apply(s, step).net && pkt !in s.net && pkt.body.AppendReq?
    ensures (step.AppendStep? || step.HeartbeatStep?) && step.i in s.servers
    ensures var n, req := s.servers[step.i].node, pkt.body.areq;
            n.role == Leader && req.term == n.pstate.term && req.leaderCommit == n.commitIndex
  {
  }

  lemma PacketCommits(cfg: Config, s: State, s': State, p: Proto, p': Proto, step: Step, pkt: Packet)
    requires Inv(cfg, s, p) && CommitInv(cfg, s, p) && s' == Apply(s, step) && Grows(p, p')
    ensures LeaderCommitAt(cfg, s', p', pkt)
  {
    if pkt in s'.net && pkt.body.AppendReq? {
      assert LeaderCommitAt(cfg, s, p, pkt);
      if pkt !in s.net {
        NewRequest(s, step, pkt);
        SentCommit(cfg, s, p, step.i, pkt.body.areq);
      }
      LeaderCommitGrows(cfg.Keys, pkt.body.areq, p, p');
    }
  }

  lemma DeliveryCommits(cfg: Config, s: State, s': State, p: Proto, p': Proto, step: Step, d: Delivery)
    requires Inv(cfg, s, p) && CommitInv(cfg, s, p) && s' == Apply(s, step) && Grows(p, p')
    ensures DeliveryAt(cfg, s', p', d)
  {
    if d in s'.delivered {
      assert DeliveryAt(cfg, s, p, d);
      if d !in s.delivered {
        assert CommitsAt(cfg, s, p, step.i);
        DrainDelivers(cfg.Keys, step.i, s.servers[step.i], p, step.cap, d);
      }
      DeliveryGrows(cfg.Keys, d, p, p');
    }
  }

  lemma StepCommits(cfg: Config, s: State, p: Proto, step: Step) returns (p': Proto)
    requires Inv(cfg, s, p) && CommitInv(cfg, s, p) && (|cfg| <= 2 || SafeStep(s, step))
    ensures Inv(cfg, Apply(s, step), p') && Grows(p, p') && CommitInv(cfg, Apply(s, step), p')
  {
    p' := StepInv(cfg, s, p, step);
    var s' := Apply(s, step);
    forall i: NodeId ensures CommitsAt(cfg, s', p', i) { ServerCommits(cfg, s, s', p, p', step, i); }
    forall pkt: Packet ensures LeaderCommitAt(cfg, s', p', pkt) { PacketCommits(cfg, s, s', p, p', step, pkt); }
    forall d: Delivery ensures DeliveryAt(cfg, s', p', d) { DeliveryCommits(cfg, s, s', p, p', step, d); }
  }

  lemma SafeRunEarlier(cfg: Config, steps: seq<Step>)
    requires SafeRun(cfg, steps) && steps != []
    ensures SafeRun(cfg, steps[..|steps| - 1])
    ensures |cfg| <= 2 || SafeStep(Run(cfg, steps[..|steps| - 1]), steps[|steps| - 1])
  {
    var m := |steps| - 1;
    if |cfg| > 2 {
      assert SafeAt(cfg, steps, m);
      forall k: nat ensures SafeAt(cfg, steps[..m], k) {
        assert SafeAt(cfg, steps, k);
        if k < m { assert steps[..m][..k] == steps[..k]; }
      }
    }
  }

  lemma {:induction false} SafeRunInv(cfg: Config, steps: seq<Step>) returns (p: Proto)
    requires ValidConfig(cfg) && SafeRun(cfg, steps)
    ensures Inv(cfg, Run(cfg, steps), p) && CommitInv(cfg, Run(cfg, steps), p)
  {
    if steps == [] {
      p := InitProto(cfg.Keys);
      InitInv(cfg);
      forall i: NodeId ensures CommitsAt(cfg, Init(cfg), p, i) { }
    } else {
      var m := |steps| - 1;
      SafeRunEarlier(cfg, steps);
      var p0 := SafeRunInv(cfg, steps[..m]);
      p := StepCommits(cfg, Run(cfg, steps[..m]), p0, steps[m]);
    }
  }

  // ---------- Main results ----------

  lemma DeliveriesAgree(ids: set<NodeId>, p: Proto, d: Delivery, e: Delivery)
    requires ProtoInv(ids, p) && DeliveryOk(ids, d, p) && DeliveryOk(ids, e, p) && d.index == e.index
    ensures d.entry == e.entry
  {
    var u: Term, n: nat :| DeliveryWitness(ids, p, d, u, n);
    var v: Term, m: nat :| DeliveryWitness(ids, p, e, v, m);
    ChosenAgree(ids, p, u, n, v, m, d.index - 1);
  }

  /** State Machine Safety: in a safe run, no two nodes ever deliver different entries at the same index. */
  lemma StateMachineSafety(cfg: Config, steps: seq<Step>, d: Delivery, e: Delivery)
    requires ValidConfig(cfg) && SafeRun(cfg, steps)
    requires d in Run(cfg, steps).delivered && e in Run(cfg, steps).delivered && d.index == e.index
    ensures d.entry == e.entry
  {
    var p := SafeRunInv(cfg, steps);
    assert DeliveryAt(cfg, Run(cfg, steps), p, d) && DeliveryAt(cfg, Run(cfg, steps), p, e);
    DeliveriesAgree(cfg.Keys, p, d, e);
  }

  /** Only committed entries are shown: in a safe run, at every moment, every entry that any node has ever
      delivered is held at its index by a majority of the cluster, in memory and on disk. */
  lemma DeliveredOnMajority(cfg: Config, steps: seq<Step>, d: Delivery) returns (holders: set<NodeId>)
    requires ValidConfig(cfg) && SafeRun(cfg, steps) && d in Run(cfg, steps).delivered
    ensures holders <= cfg.Keys && 2 * |holders| > |cfg.Keys| && d.index >= 1
    ensures forall q :: q in holders ==>
              && q in Run(cfg, steps).servers
              && d.index <= |LogOf(Run(cfg, steps), q)| && LogOf(Run(cfg, steps), q)[d.index - 1] == d.entry
              && Replay(Run(cfg, steps).servers[q].disk) == Restored(Run(cfg, steps).servers[q].node.pstate)
  {
    var p := SafeRunInv(cfg, steps);
    var s := Run(cfg, steps);
    assert DeliveryAt(cfg, s, p, d);
    var u: Term, n: nat :| DeliveryWitness(cfg.Keys, p, d, u, n);
    holders := Ackers(cfg.Keys, p, u, n);
    forall q | q in holders
      ensures q in s.servers && d.index <= |LogOf(s, q)| && LogOf(s, q)[d.index - 1] == d.entry
      ensures Replay(s.servers[q].disk) == Restored(s.servers[q].node.pstate)
    {
      AckersHold(cfg, s, p, u, n, q);
      CarriesAt(LogOf(s, q), p.tlog[u], n);
    }
  }

  /** Exactly-once ordered delivery: in a safe run, what a node has handed over in this process lifetime is
      exactly its log up to lastApplied, and lastApplied <= commitIndex <= log length. */
  lemma OrderedDelivery(cfg: Config, steps: seq<Step>, i: NodeId)
    requires ValidConfig(cfg) && SafeRun(cfg, steps) && i in cfg
    ensures i in Run(cfg, steps).servers
    ensures var srv := Run(cfg, steps).servers[i];
            && srv.node.lastApplied <= srv.node.commitIndex <= |srv.node.pstate.log|
            && srv.output == srv.node.pstate.log[..srv.node.lastApplied]
  {
    var p := SafeRunInv(cfg, steps);
    assert CommitsAt(cfg, Run(cfg, steps), p, i);
  }

  /** A leader holds every entry that any node has committed in a term up to its own. */
  lemma LeaderHoldsCommitted(cfg: Config, steps: seq<Step>, a: NodeId, t: Term, i: NodeId)
    requires ValidConfig(cfg) && SafeRun(cfg, steps) && Leads(Run(cfg, steps), a, t) && i in cfg
    requires i in Run(cfg, steps).servers && Run(cfg, steps).servers[i].node.pstate.term <= t
    ensures var n := Run(cfg, steps).servers[i].node;
            Carries(LogOf(Run(cfg, steps), a), n.pstate.log, n.commitIndex)
  {
    var p := SafeRunInv(cfg, steps);
    var s := Run(cfg, steps);
    var n := s.servers[i].node;
    LeadsFacts(cfg, s, p, a, t);
    assert CommitsAt(cfg, s, p, i);
    CommittedIsCarried(cfg.Keys, p, n.pstate.term, n.pstate.log[..n.commitIndex], t);
  }
}
