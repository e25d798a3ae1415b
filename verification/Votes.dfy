/** Votes over whole runs: a node votes once per term, and a grant on the network can be trusted although it may carry
    a term older than the one it was given in. */
module Votes {
  import opened RaftTypes
  import opened RaftNode
  import opened Cluster
  import opened Protocol
  import opened ClusterInv
  import opened ClusterSteps

  /** Node q has, at this moment, given its vote of term t to node c. */
  predicate HasVoted(s: State, q: NodeId, t: Term, c: NodeId) {
    q in s.servers && s.servers[q].node.pstate.term == t && s.servers[q].node.pstate.votedFor == c
  }

  /** One vote per term: whatever a node votes in a term, at any two moments of a run, also across crashes, is a vote
      for one candidate. */
  lemma OneVotePerTerm(cfg: Config, steps: seq<Step>, j: nat, k: nat, q: NodeId, t: Term, c: NodeId, d: NodeId)
    requires ValidConfig(cfg) && j <= |steps| && k <= |steps|
    requires HasVoted(At(cfg, steps, j), q, t, c) && HasVoted(At(cfg, steps, k), q, t, d)
    requires c != RAFT_NONE && d != RAFT_NONE
    ensures c == d
  {
    var ps := RunInv(cfg, steps);
    var lo, hi := if j <= k then j else k, if j <= k then k else j;
    assert HistoryAt(cfg, steps, ps, lo, hi) && HistoryAt(cfg, steps, ps, hi, hi);
    assert ServerAt(cfg, At(cfg, steps, j), ps[j], q) && ServerAt(cfg, At(cfg, steps, k), ps[k], q);
  }

  /** The answer to a vote request, when it is a grant: the voter now holds that vote, or it answers under a term below
      the one it voted in. */
  lemma GrantMeansVote(srv: Server, req: VoteRequest, w: nat)
    ensures var (o, resp) := HandleVoteRequest(srv.node, req, w);
            resp.granted ==>
              && !o.failed && resp.term == srv.node.pstate.term <= req.term
              && o.node.pstate.term == req.term && o.node.pstate.votedFor == req.candidateId
  {
  }

  /** A new grant on the network is the answer to a vote request that was on it before. */
  lemma NewGrant(s: State, step: Step, pkt: Packet)
    requires pkt in Apply(s, step).net && pkt !in s.net && pkt.body.VoteResp? && pkt.body.vresp.granted
    ensures step.ReceiveStep? && step.pkt in s.net && step.pkt.body.VoteReq? && step.pkt.src == pkt.dst
    ensures step.pkt.dst == pkt.src && pkt.src in s.servers && pkt.src in Apply(s, step).servers
    ensures pkt.body.vresp == HandleVoteRequest(s.servers[pkt.src].node, step.pkt.body.vreq, step.w).1
    ensures Apply(s, step).servers[pkt.src].node == HandleVoteRequest(s.servers[pkt.src].node, step.pkt.body.vreq, step.w).0.node
  {
    if step.ReceiveStep? && step.pkt.body.VoteReq? && step.pkt.dst in s.servers {
      GrantMeansVote(s.servers[step.pkt.dst], step.pkt.body.vreq, step.w);
    }
  }

  /** A grant is the voter's vote of that term at some moment so far, or its term is behind the candidate's. */
  ghost predicate GrantOkAt(cfg: Config, steps: seq<Step>, pkt: Packet, m: nat)
    requires m <= |steps| && pkt.body.VoteResp?
  {
    || (exists j: nat :: j <= m && HasVoted(At(cfg, steps, j), pkt.src, pkt.body.vresp.term, pkt.dst))
    || (pkt.dst in At(cfg, steps, m).servers && pkt.body.vresp.term < At(cfg, steps, m).servers[pkt.dst].node.pstate.term)
  }

  lemma GrantStays(cfg: Config, steps: seq<Step>, ps: seq<Proto>, pkt: Packet, m: nat)
    requires Histories(cfg, steps, ps) && m < |steps| && pkt.body.VoteResp? && GrantOkAt(cfg, steps, pkt, m)
    ensures GrantOkAt(cfg, steps, pkt, m + 1)
  {
    var s, s' := At(cfg, steps, m), At(cfg, steps, m + 1);
    assert HistoryAt(cfg, steps, ps, m, m + 1) && HistoryAt(cfg, steps, ps, m + 1, m + 1);
    if j: nat :| j <= m && HasVoted(At(cfg, steps, j), pkt.src, pkt.body.vresp.term, pkt.dst) {
      assert j <= m + 1;
    } else {
      assert ServerAt(cfg, s, ps[m], pkt.dst) && ServerAt(cfg, s', ps[m + 1], pkt.dst);
    }
  }

  /** The request that a new grant answers names the candidate and a term the candidate has reached. */
  lemma NewGrantOk(cfg: Config, steps: seq<Step>, ps: seq<Proto>, pkt: Packet, m: nat)
    requires Histories(cfg, steps, ps) && m < |steps| && pkt.body.VoteResp? && pkt.body.vresp.granted
    requires pkt in At(cfg, steps, m + 1).net && pkt !in At(cfg, steps, m).net
    ensures GrantOkAt(cfg, steps, pkt, m + 1)
  {
    var s, s' := At(cfg, steps, m), At(cfg, steps, m + 1);
    assert HistoryAt(cfg, steps, ps, m, m + 1) && HistoryAt(cfg, steps, ps, m + 1, m + 1);
    AtNext(cfg, steps, m);
    NewGrant(s, steps[m], pkt);
    var ask, req := steps[m].pkt, steps[m].pkt.body.vreq;
    GrantMeansVote(s.servers[pkt.src], req, steps[m].w);
    assert PacketAt(cfg.Keys, s.net, ask, ps[m]);
    if pkt.body.vresp.term == req.term {
      assert HasVoted(s', pkt.src, req.term, pkt.dst);
    } else {
      assert CampaignOk(cfg.Keys, ps[m], pkt.dst, req.term);
      assert ServerAt(cfg, s', ps[m + 1], pkt.dst);
    }
  }

  lemma {:induction false} GrantsAreVotes(cfg: Config, steps: seq<Step>, ps: seq<Proto>, pkt: Packet, m: nat)
    requires Histories(cfg, steps, ps) && m <= |steps| && pkt.body.VoteResp? && pkt.body.vresp.granted
    requires pkt in At(cfg, steps, m).net
    ensures GrantOkAt(cfg, steps, pkt, m)
  {
    if m > 0 {
      if pkt in At(cfg, steps, m - 1).net {
        GrantsAreVotes(cfg, steps, ps, pkt, m - 1);
        GrantStays(cfg, steps, ps, pkt, m - 1);
      } else {
        NewGrantOk(cfg, steps, ps, pkt, m - 1);
      }
    }
  }

  /** A granted response in flight is a vote that the voter really held, for that candidate and in that very term, at
      some moment of the run, or it carries a term that the candidate has already left behind. */
  lemma GrantIsVoteOrLate(cfg: Config, steps: seq<Step>, pkt: Packet)
    requires ValidConfig(cfg) && pkt in Run(cfg, steps).net && pkt.body.VoteResp? && pkt.body.vresp.granted
    ensures || (exists j: nat :: j <= |steps| && HasVoted(At(cfg, steps, j), pkt.src, pkt.body.vresp.term, pkt.dst))
            || (&& pkt.dst in Run(cfg, steps).servers
                && pkt.body.vresp.term < Run(cfg, steps).servers[pkt.dst].node.pstate.term)
  {
    var ps := RunInv(cfg, steps);
    assert steps[..|steps|] == steps;
    GrantsAreVotes(cfg, steps, ps, pkt, |steps|);
  }
}
