/**
 The exact statements about single events, along every run of a network: what a
 correct node signs, locks and decides, whatever the others do.
 */
module NodeRuns {
  import opened VotingPower
  import opened Votes
  import opened VoteSets
  import opened HeightVoteSets
  import opened RoundStates
  import opened NodeInvariant
  import opened NodeVotes
  import opened NodeDecisions
  import opened NodeLocks
  import opened NodeMoves
  import opened TendermintAgreement

  /** Timeouts that were scheduled are for rounds the node has reached. */
  lemma ScheduledIsTimely(cfg: Config, net: Network, n: Validator, env: Env, e: Event)
    requires n in net.nodes && NodeOk(cfg, net, n) && Enabled(net, NodeHandles(n, env, e))
    ensures Timely(net.nodes[n], e)
  {
  }

  /** Along any run every correct node begins its heights in round 0 and has a timeout pending at every step that waits for one. */
  lemma {:induction false} NodesStayOrderly(cfg: Config, nets: seq<Network>, run: seq<Action>, i: nat, n: Validator)
    requires IsRun(cfg, nets, run) && i < |nets| && n in nets[0].nodes
    ensures n in nets[i].nodes && Orderly(nets[i].nodes[n])
  {
    if i > 0 {
      NodesStayOrderly(cfg, nets, run, i - 1, n);
      RunGood(cfg, nets, run, i - 1);
      assert StepAt(cfg, nets, run, i - 1) && NodeOk(cfg, nets[i - 1], n);
      match run[i - 1]
      case NodeHandles(m, env, e) =>
        if m == n {
          ScheduledIsTimely(cfg, nets[i - 1], n, env, e);
          HandleOrderly(cfg, nets[i - 1].nodes[n], env, e);
        }
      case FaultySigns(_) =>
    }
  }

  /**
   Along any run, at every step of a correct node: each vote it signs is the one it owes, it
   votes whenever it gets to prevote or to precommit, its lock changes only as it should, and
   it decides only a block it holds, that is valid, applied, and has a precommit majority.
   */
  lemma NodesVoteRight(cfg: Config, nets: seq<Network>, run: seq<Action>, i: nat)
    requires IsRun(cfg, nets, run) && i < |run| && run[i].NodeHandles?
    ensures run[i].n in nets[i].nodes && run[i].n in nets[i + 1].nodes
    ensures var s, s', env, e := nets[i].nodes[run[i].n], nets[i + 1].nodes[run[i].n], run[i].env, run[i].e;
      s'.halted || (&& VotesFit(s, s', env, e) && DecidesWell(s, s', env, e) && LockIs(s, s', env, e)
                    && (Reaches(s, s', PREVOTE) && Able(s, s', env, Prevote) ==> Voted(s, s', Prevote))
                    && (Reaches(s, s', PRECOMMIT) && Able(s, s', env, Precommit) ==> Voted(s, s', Precommit)))
  {
    var n, env, e := run[i].n, run[i].env, run[i].e;
    RunGood(cfg, nets, run, i);
    assert StepAt(cfg, nets, run, i) && NodeOk(cfg, nets[i], n);
    NodesStayOrderly(cfg, nets, run, i, n);
    ScheduledIsTimely(cfg, nets[i], n, env, e);
    var s := nets[i].nodes[n];
    if !s.halted {
      HandleVotesFit(cfg, s, env, e);
      HandleDecidesWell(cfg, s, env, e);
      HandleLocks(cfg, s, env, e);
      VotesOnEntry(cfg, s, env, e);
    }
  }
}
