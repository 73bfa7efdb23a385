/**
 What takes a correct node to its next step or round: no event that should is
 ignored, and every step that waits has its timeout pending.
 */
module NodeMoves {
  import opened VotingPower
  import opened Votes
  import opened VoteSets
  import opened HeightVoteSets
  import opened RoundStates
  import opened NodeInvariant
  import opened NodeVotes
  import opened NodeDecisions
  import opened NodeLocks

  /** The vote sets keep up with the round, and the proposal block is not an invalid one. */
  predicate Steady(s: RoundState, env: Env, prop: Proposed) {
    && !s.halted && Begins(s) && s.round <= s.votes.round <= s.round + 1
    && (prop.block.Some? ==> env.valid(prop.block.value))
  }

  /** The proposal is complete with the votes there are. */
  predicate CompleteWith(s: RoundState, votes: HeightVotes) {
    && s.prop.proposal.Some? && s.prop.block.Some?
    && (s.prop.proposal.value.polRound < 0 || votes.Majority(s.prop.proposal.value.polRound, Prevote).Some?)
  }

  /** The search for the last polka does not miss the round's own. */
  lemma PolFound(votes: HeightVotes, round: int, top: int)
    requires 0 <= round <= top && votes.Majority(round, Prevote).Some?
    ensures PolRound(votes, top) >= round
  {
    PolRoundReaches(votes, round, top);
  }

  /** Precommitting in the node's round always succeeds. */
  lemma PrecommitMoves(s: RoundState, env: Env)
    requires Steady(s, env, s.prop) && s.step < PRECOMMIT
    ensures var s' := EnterPrecommit(s, env, s.height, s.round);
      && !s'.halted && s'.step == PRECOMMIT && s'.round == s.round && s'.height == s.height && s'.votes == s.votes
      && s'.timeouts == s.timeouts && s'.triggered == s.triggered
    ensures var s' := EnterPrecommit(s, env, s.height, s.round); s'.prop.block.Some? ==> env.valid(s'.prop.block.value)
  {
    if s.votes.Majority(s.round, Prevote).Some? {
      PolFound(s.votes, s.round, s.votes.round);
    }
  }

  lemma NewRoundMoves(s: RoundState, env: Env, round: int)
    requires !s.halted && Begins(s) && s.round <= s.votes.round <= s.round + 1
    requires s.round < round || (s.round == round && s.step == NEW_HEIGHT)
    ensures var s' := EnterNewRound(s, env, s.height, round);
      && !s'.halted && s'.round == round && NEW_ROUND <= s'.step <= PREVOTE && s'.votes.round == round + 1
      && (!env.waitForTxs || round > 0 ==> PROPOSE <= s'.step && Timeout(s.height, round, PROPOSE) in s'.timeouts)
      && (env.waitForTxs && round == 0 && env.emptyInterval ==> Timeout(s.height, 0, NEW_ROUND) in s'.timeouts)
      && (!env.waitForTxs && round == 0 && CompleteWith(s, s.votes) ==> s'.step == PREVOTE)
  {
  }

  lemma ProposeMoves(s: RoundState, env: Env)
    requires !s.halted && s.step < PROPOSE
    ensures var s' := EnterPropose(s, env, s.height, s.round);
      && !s'.halted && s'.round == s.round && Timeout(s.height, s.round, PROPOSE) in s'.timeouts
      && s'.step == if CompleteWith(s, s.votes) then PREVOTE else PROPOSE
  {
  }

  // ----- timeouts -----

  /** A timeout of the node's own round, checked against a copy of the round state that finds it relevant, moves the node on. */
  lemma TimeoutMoves(cfg: Config, s: RoundState, env: Env, e: Event)
    requires Steady(s, env, s.prop) && e.TimeoutFired? && e.ti.height == s.height && e.ti.round == s.round
    requires TimeoutRelevant(e.ti, e.seenHeight, e.seenRound, e.seenStep)
    ensures var s' := Handle(cfg, s, env, e);
      && (e.ti.step == NEW_HEIGHT && s.step == NEW_HEIGHT ==> !s'.halted && s'.round == 0 && NEW_ROUND <= s'.step)
      && (e.ti.step == NEW_ROUND && s.round == 0 && s.step < PROPOSE ==> !s'.halted && s'.round == 0 && PROPOSE <= s'.step)
      && (e.ti.step == PROPOSE && s.step < PREVOTE ==> !s'.halted && s'.round == s.round && s'.step == PREVOTE)
      && (e.ti.step == PREVOTE_WAIT && s.step < PRECOMMIT ==> !s'.halted && s'.round == s.round && s'.step == PRECOMMIT)
      && (e.ti.step == PRECOMMIT_WAIT ==> !s'.halted && s'.round == s.round + 1 && PROPOSE <= s'.step)
  {
    if e.ti.step == NEW_HEIGHT && s.step == NEW_HEIGHT {
      NewRoundMoves(s, env, 0);
    } else if e.ti.step == PREVOTE_WAIT && s.step < PRECOMMIT {
      PrecommitMoves(s, env);
    } else if e.ti.step == PRECOMMIT_WAIT {
      PrecommitTimeoutMoves(s, env);
    }
  }

  lemma PrecommitTimeoutMoves(s: RoundState, env: Env)
    requires Steady(s, env, s.prop)
    ensures var s' := OnPrecommitTimeout(s, env, s.height, s.round); !s'.halted && s'.round == s.round + 1 && PROPOSE <= s'.step
  {
    if s.step < PRECOMMIT {
      PrecommitMoves(s, env);
    }
    NewRoundMoves(EnterPrecommit(s, env, s.height, s.round), env, s.round + 1);
  }

  /** Transactions that a node waits for get it to propose in the first round, at once or when the height begins. */
  lemma TxsMove(cfg: Config, s: RoundState, env: Env)
    requires !s.halted && s.round == 0
    ensures var s' := Handle(cfg, s, env, TxsAvailable);
      && (s.step == NEW_HEIGHT && env.waitForTxs ==> s' == s.(timeouts := s.timeouts + {Timeout(s.height, 0, NEW_ROUND)}))
      && (s.step == NEW_ROUND ==> !s'.halted && s'.step == (if CompleteWith(s, s.votes) then PREVOTE else PROPOSE))
      && (s.step > NEW_ROUND || (s.step == NEW_HEIGHT && !env.waitForTxs) ==> s' == s)
  {
    if s.step == NEW_ROUND {
      ProposeMoves(s, env);
    }
  }

  /** When the last precommit of the previous height is in and the commit timeout is to be skipped, the height begins. */
  lemma LateCommitMoves(cfg: Config, s: RoundState, env: Env, v: Vote, peer: Peer)
    requires !s.halted && Begins(s) && s.round <= s.votes.round <= s.round + 1 && s.step == NEW_HEIGHT && s.lastCommit.Some?
    requires v.height + 1 == s.height && v.kind.Precommit? && VoteSets.Added(s.lastCommit.value, v, true)
    ensures var s', commit := Handle(cfg, s, env, VoteArrived(v, peer, true)), AddVote(s.lastCommit.value, v, true);
      && s'.lastCommit == Some(commit) && !s'.halted && s'.height == s.height
      && (if env.skipTimeoutCommit && commit.HasAll() then NEW_ROUND <= s'.step else s' == s.(lastCommit := Some(commit)))
  {
    var s1 := s.(lastCommit := Some(AddVote(s.lastCommit.value, v, true)));
    NewRoundMoves(s1, env, 0);
    LateRoundKeeps(s1, env, s.height, 0);
  }

  /** And likewise when all precommits are in as the node decides. */
  lemma FullCommitMoves(cfg: Config, s: RoundState, env: Env, round: int)
    requires !s.halted && s.step < COMMIT && env.skipTimeoutCommit && s.votes.HasAll(round, Precommit)
    requires round < s.round || (round == s.round && PRECOMMIT <= s.step)
    requires var maj := s.votes.Majority(round, Precommit); maj.Some? && maj.value.Block? && Adopts(s.locked, s.prop, maj.value) && env.valid(maj.value.hash)
    requires env.applied
    ensures var s' := AfterPrecommit(cfg, s, env, round); !s'.halted && s'.height == s.height + 1 && NEW_ROUND <= s'.step
  {
    StaysInRound(s, env, round);
    CommitIs(cfg, s, env, s.height, round);
    var c := EnterCommit(cfg, s, env, s.height, round);
    CommitFresh(cfg, s, env, round);
    NewRoundMoves(c, env, 0);
  }

  lemma CommitFresh(cfg: Config, s: RoundState, env: Env, round: int)
    requires EnterCommit(cfg, s, env, s.height, round).height == s.height + 1
    ensures var c := EnterCommit(cfg, s, env, s.height, round);
      !c.halted && c.step == NEW_HEIGHT && c.round == 0 && c.votes == NewHeightVotes(c.height, cfg.vals(c.decided))
  {
  }

  /** A peer's claim reaches the vote set it is about. */
  lemma ClaimReaches(cfg: Config, s: RoundState, env: Env, round: int, kind: Kind, peer: Peer, id: BlockID, r: int, k: Kind)
    requires !s.halted
    ensures var s' := Handle(cfg, s, env, Maj23Claimed(s.height, round, kind, peer, id));
      && s' == s.(votes := s'.votes)
      && TallyOr(s'.votes, r, k) == if r == round && k == kind && r in s.votes.rounds then Receive(TallyOr(s.votes, r, k), Claim(peer, id)) else TallyOr(s.votes, r, k)
  {
    ClaimIs(s.votes, round, kind, peer, id, r, k);
  }

  /** A timeout that the copy finds old does nothing. */
  lemma StaleTimeout(cfg: Config, s: RoundState, env: Env, e: Event)
    requires e.TimeoutFired? && !TimeoutRelevant(e.ti, e.seenHeight, e.seenRound, e.seenStep)
    ensures Handle(cfg, s, env, e) == s
  {
  }

  // ----- proposals -----

  /** A proposal is taken exactly if it is the first one, for the node's height and round, with a proof-of-lock round before its own, and signed by the proposer. */
  lemma ProposalTakenIff(cfg: Config, s: RoundState, env: Env, p: Proposal, proposerSigned: bool)
    requires !s.halted
    ensures var s' := Handle(cfg, s, env, ProposalArrived(p, proposerSigned));
      && (s' != s <==> s.prop.proposal == None && p.height == s.height && p.round == s.round && -1 <= p.polRound &&
                       (p.polRound == -1 || p.polRound < p.round) && proposerSigned)
      && (s' != s ==> s'.prop.proposal == Some(p) && s'.prop.block == s.prop.block && s'.prop.parts == Some(if s.prop.parts.Some? then s.prop.parts.value else p.parts))
  {
  }

  /** The part that completes the proposal takes a node that has not prevoted to prevote, and on to precommit if there is a polka. */
  lemma PartMoves(cfg: Config, s: RoundState, env: Env, h: Hash)
    requires Steady(s, env, s.prop.(block := Some(h))) && s.step < PREVOTE && s.prop.parts.Some? && s.prop.proposal.Some?
    requires s.prop.proposal.value.polRound < 0 || s.votes.Majority(s.prop.proposal.value.polRound, Prevote).Some?
    ensures var s' := Handle(cfg, s, env, PartArrived(s.height, Complete(h)));
      !s'.halted && s'.round == s.round && s'.step == if s.votes.Majority(s.round, Prevote).Some? then PRECOMMIT else PREVOTE
  {
    var s1 := NoteProposalPolka(s.(prop := s.prop.(block := Some(h), completedOnce := true)));
    var s2 := EnterPrevote(s1, env, s.height, s1.round);
    if s.votes.Majority(s.round, Prevote).Some? {
      PrecommitMoves(s2, env);
    }
  }

  // ----- votes -----

  /** A vote of the node's height that is new to it. */
  predicate NewVote(s: RoundState, e: Event, kind: Kind) {
    e.VoteArrived? && e.vote.kind == kind && e.vote.height == s.height && AddedAt(s.votes, e.vote, e.peer, e.signed)
  }

  /** The round has a polka for nil, or for the complete proposal. */
  predicate Settles(s: RoundState, votes: HeightVotes, round: int) {
    var maj := votes.Majority(round, Prevote);
    maj.Some? && (maj.value.NilBlock? || (CompleteWith(s, votes) && HashesTo(s.prop.block, maj.value)))
  }

  lemma NotedSteady(s: RoundState, env: Env, round: int)
    requires Steady(s, env, s.prop)
    ensures var s2 := NotePolka(ReleaseLock(s, round), round);
      && Steady(s2, env, s2.prop) && s2 == s.(locked := s2.locked, valid := s2.valid, prop := s2.prop)
      && s2.prop.proposal == s.prop.proposal
      && (s2.prop.block == s.prop.block || (s.round == round && s.votes.Majority(round, Prevote).Some?))
      && (s.votes.Majority(round, Prevote).Some? && HashesTo(s.prop.block, s.votes.Majority(round, Prevote).value) ==> s2.prop.block == s.prop.block)
  {
  }

  lemma WaitMoves(s: RoundState, env: Env)
    requires Steady(s, env, s.prop) && PREVOTE <= s.step && s.votes.TwoThirdsAny(s.round, Prevote)
    ensures var s' := EnterPrevoteWait(s, env, s.height, s.round);
      && !s'.halted && s'.round == s.round && PREVOTE_WAIT <= s'.step
      && (s'.step == PREVOTE_WAIT && s.step != PREVOTE_WAIT ==> Timeout(s.height, s.round, PREVOTE_WAIT) in s'.timeouts)
  {
    if s.step < PRECOMMIT {
      PrecommitMoves(s, env);
    }
  }

  lemma AfterPrevoteMoves(s: RoundState, env: Env, round: int)
    requires Steady(s, env, s.prop)
    ensures var s' := AfterPrevote(s, env, round);
      && (s.round < round && s.votes.TwoThirdsAny(round, Prevote) ==> !s'.halted && s'.round == round)
      && (s.round == round && PREVOTE <= s.step && s.votes.TwoThirdsAny(round, Prevote) ==> !s'.halted && s'.round == round && PREVOTE_WAIT <= s'.step)
      && (s.round == round && PREVOTE <= s.step && Settles(s, s.votes, round) ==> !s'.halted && s'.round == round && PRECOMMIT <= s'.step)
      && (s.step < PREVOTE && round <= s.round && CompleteWith(s, s.votes) && s.prop.proposal.value.polRound == round >= 0 ==>
            !s'.halted && s'.round == s.round && s'.step == PREVOTE)
  {
    if s.round < round && s.votes.TwoThirdsAny(round, Prevote) {
      NewRoundMoves(s, env, round);
    } else if s.round == round && PREVOTE <= s.step {
      if s.step < PRECOMMIT {
        PrecommitMoves(s, env);
      }
      if s.votes.TwoThirdsAny(round, Prevote) {
        WaitMoves(s, env);
      }
    }
  }

  /**
   A prevote moves the node on: two thirds of a later round take it there, two thirds of its
   own round past prevote, a polka for nil or for its complete proposal to precommit, and the
   polka its proposal refers to to prevote.
   */
  lemma PrevoteMoves(cfg: Config, s: RoundState, env: Env, e: Event)
    requires Steady(s, env, s.prop) && NewVote(s, e, Prevote)
    ensures var s', votes, round := Handle(cfg, s, env, e), VotesAfter(s, e), e.vote.round;
      && (s.round < round && votes.TwoThirdsAny(round, Prevote) ==> !s'.halted && s'.round == round)
      && (s.round == round && PREVOTE <= s.step && votes.TwoThirdsAny(round, Prevote) ==> !s'.halted && s'.round == round && PREVOTE_WAIT <= s'.step)
      && (s.round == round && PREVOTE <= s.step && Settles(s, votes, round) ==> !s'.halted && s'.round == round && PRECOMMIT <= s'.step)
      && (s.step < PREVOTE && round < s.round && CompleteWith(s, votes) && s.prop.proposal.value.polRound == round >= 0 ==>
            !s'.halted && s'.round == s.round && s'.step == PREVOTE)
  {
    var s1, round := s.(votes := VotesAfter(s, e)), e.vote.round;
    NotedSteady(s1, env, round);
    AfterPrevoteMoves(NotePolka(ReleaseLock(s1, round), round), env, round);
  }

  /** The round of the precommits is entered, and they are still there. */
  lemma CatchesUp(s: RoundState, env: Env, round: int)
    requires Steady(s, env, s.prop) && s.round <= round && s.votes.TwoThirdsAny(round, Precommit)
    requires s.triggered ==> Timeout(s.height, s.round, PRECOMMIT_WAIT) in s.timeouts
    ensures var n := EnterNewRound(s, env, s.height, round);
      && Steady(n, env, n.prop) && n.height == s.height && n.round == round && n.votes.TwoThirdsAny(round, Precommit)
      && (n.triggered ==> Timeout(s.height, round, PRECOMMIT_WAIT) in n.timeouts)
  {
    if round > s.round || s.step == NEW_HEIGHT {
      NewRoundMoves(s, env, round);
      NewRoundVotes(s, env, s.height, round);
      NewRoundKeeps(s, env, round);
    }
  }

  lemma NewRoundKeeps(s: RoundState, env: Env, round: int)
    requires !s.halted && s.votes.TwoThirdsAny(round, Precommit) && (s.round < round || (s.round == round && s.step == NEW_HEIGHT))
    ensures var n := EnterNewRound(s, env, s.height, round);
      n.votes.TwoThirdsAny(round, Precommit) && (!n.halted ==> !n.triggered) && s.timeouts <= n.timeouts && (n.prop.block == s.prop.block || n.prop.block == None)
  {
  }

  lemma WaitSchedules(n: RoundState, round: int)
    requires !n.halted && n.round == round && n.votes.TwoThirdsAny(round, Precommit)
    requires n.triggered ==> Timeout(n.height, round, PRECOMMIT_WAIT) in n.timeouts
    ensures var s' := EnterPrecommitWait(n, n.height, round);
      !s'.halted && s'.height == n.height && s'.round == round && Timeout(n.height, round, PRECOMMIT_WAIT) in s'.timeouts
  {
  }

  /** Precommits of two thirds, of the node's round or a later one, take it there; unless they are for a block, the timeout for the next round is set. */
  lemma PrecommitVoteMoves(cfg: Config, s: RoundState, env: Env, e: Event)
    requires Steady(s, env, s.prop) && NewVote(s, e, Precommit) && s.round <= e.vote.round && VotesAfter(s, e).TwoThirdsAny(e.vote.round, Precommit)
    requires VotesAfter(s, e).Majority(e.vote.round, Precommit) in {None, Some(NilBlock)}
    requires s.triggered ==> Timeout(s.height, s.round, PRECOMMIT_WAIT) in s.timeouts
    ensures var s' := Handle(cfg, s, env, e);
      !s'.halted && s'.height == s.height && s'.round == e.vote.round && Timeout(s.height, e.vote.round, PRECOMMIT_WAIT) in s'.timeouts
  {
    var s1, round := s.(votes := VotesAfter(s, e)), e.vote.round;
    CatchesUp(s1, env, round);
    var n := EnterNewRound(s1, env, s.height, round);
    if s1.votes.Majority(round, Precommit).None? {
      WaitSchedules(n, round);
    } else {
      if n.step < PRECOMMIT {
        PrecommitMoves(n, env);
      }
      WaitSchedules(EnterPrecommit(n, env, s.height, round), round);
    }
  }

  // ----- a node that waits has its timeout pending -----

  predicate Pending(s: RoundState, step: int) {
    Timeout(s.height, s.round, step) in s.timeouts
  }

  /** Steps that end with a timeout have scheduled it. */
  predicate Armed(s: RoundState) {
    && (s.step in {NEW_HEIGHT, PROPOSE, PREVOTE_WAIT} ==> Pending(s, s.step))
    && (s.triggered ==> Pending(s, PRECOMMIT_WAIT))
  }

  /** Heights begin in round 0, and waiting steps are armed. */
  predicate Orderly(s: RoundState) {
    s.halted || (Begins(s) && Armed(s))
  }

  lemma PrevoteOrderly(s: RoundState, env: Env, height: int, round: int)
    requires Orderly(s) && (height == s.height ==> round <= s.round)
    ensures Orderly(EnterPrevote(s, env, height, round)) && Orderly(EnterPrecommit(s, env, height, round))
  {
  }

  lemma ProposeOrderly(s: RoundState, env: Env, height: int, round: int)
    requires Orderly(s) && (height == s.height ==> round <= s.round || !s.triggered)
    ensures Orderly(EnterPropose(s, env, height, round))
  {
  }

  lemma NewRoundOrderly(s: RoundState, env: Env, height: int, round: int)
    requires Orderly(s)
    ensures Orderly(EnterNewRound(s, env, height, round))
    ensures !s.halted && s.height == height ==> round <= EnterNewRound(s, env, height, round).round
  {
    if !(s.halted || s.height != height || round < s.round || (s.round == round && s.step != NEW_HEIGHT)) {
      var s1 := StartRound(s, round);
      if !s1.halted && !(env.waitForTxs && round == 0) {
        ProposeOrderly(s1, env, height, round);
      }
    }
  }

  lemma WaitOrderly(s: RoundState, env: Env, height: int, round: int)
    requires Orderly(s) && (height == s.height ==> round <= s.round)
    ensures Orderly(EnterPrevoteWait(s, env, height, round)) && Orderly(EnterPrecommitWait(s, height, round))
  {
    PrevoteOrderly(s, env, height, round);
  }

  lemma CommitOrderly(cfg: Config, s: RoundState, env: Env, height: int, round: int)
    requires Orderly(s)
    ensures Orderly(EnterCommit(cfg, s, env, height, round)) && Orderly(TryFinalizeCommit(cfg, s, env, height))
  {
  }

  lemma TimeoutOrderly(cfg: Config, s: RoundState, env: Env, e: Event)
    requires Orderly(s) && Timely(s, e) && e.TimeoutFired? && !s.halted
    ensures Orderly(Handle(cfg, s, env, e))
  {
    var ti := e.ti;
    if ti.step == NEW_HEIGHT {
      NewRoundOrderly(s, env, ti.height, 0);
    } else if ti.step == NEW_ROUND {
      ProposeOrderly(s, env, ti.height, 0);
    } else {
      PrevoteOrderly(s, env, ti.height, ti.round);
      if ti.step == PRECOMMIT_WAIT {
        NewRoundOrderly(EnterPrecommit(s, env, ti.height, ti.round), env, ti.height, ti.round + 1);
      }
    }
  }

  lemma PartOrderly(cfg: Config, s: RoundState, env: Env, polka: bool)
    requires Orderly(s)
    ensures Orderly(AfterProposal(cfg, s, env, s.height, polka))
  {
    PrevoteOrderly(s, env, s.height, s.round);
    var s1 := EnterPrevote(s, env, s.height, s.round);
    PrevoteOrderly(s1, env, s.height, s1.round);
    CommitOrderly(cfg, s, env, s.height, 0);
  }

  lemma AfterPrevoteOrderly(s: RoundState, env: Env, round: int)
    requires Orderly(s)
    ensures Orderly(AfterPrevote(s, env, round))
  {
    NewRoundOrderly(s, env, s.height, round);
    PrevoteOrderly(s, env, s.height, s.round);
    if s.round == round {
      WaitOrderly(s, env, s.height, round);
    }
  }

  lemma AfterPrecommitOrderly(cfg: Config, s: RoundState, env: Env, round: int)
    requires Orderly(s) && !s.halted
    ensures Orderly(AfterPrecommit(cfg, s, env, round))
  {
    var n := EnterNewRound(s, env, s.height, round);
    NewRoundOrderly(s, env, s.height, round);
    WaitOrderly(n, env, s.height, round);
    PrevoteOrderly(n, env, s.height, round);
    var p := EnterPrecommit(n, env, s.height, round);
    CaughtUpOrderly(cfg, n, p, env, s.height, round);
  }

  lemma CaughtUpOrderly(cfg: Config, n: RoundState, p: RoundState, env: Env, height: int, round: int)
    requires Orderly(p) && p == EnterPrecommit(n, env, height, round) && n.height == height && round <= n.round
    ensures var c := EnterCommit(cfg, p, env, height, round); Orderly(c) && Orderly(EnterNewRound(c, env, c.height, 0))
    ensures Orderly(EnterPrecommitWait(p, height, round))
  {
    CommitOrderly(cfg, p, env, height, round);
    var c := EnterCommit(cfg, p, env, height, round);
    NewRoundOrderly(c, env, c.height, 0);
    WaitOrderly(p, env, height, round);
  }

  /** Every event leaves the node orderly. */
  lemma HandleOrderly(cfg: Config, s: RoundState, env: Env, e: Event)
    requires Orderly(s) && Timely(s, e)
    ensures Orderly(Handle(cfg, s, env, e))
  {
    if !s.halted {
      match e
      case TimeoutFired(_, _, _, _) => TimeoutOrderly(cfg, s, env, e);
      case TxsAvailable => ProposeOrderly(s, env, s.height, 0);
      case ProposalArrived(_, _) =>
      case PartArrived(_, outcome) =>
        var prop := if outcome.Complete? then s.prop.(block := Some(outcome.hash), completedOnce := true) else s.prop.(completedOnce := true);
        PartOrderly(cfg, NoteProposalPolka(s.(prop := prop)), env, s.votes.Majority(s.round, Prevote).Some?);
      case VoteArrived(v, _, _) => VoteOrderly(cfg, s, env, e);
      case Maj23Claimed(_, _, _, _, _) =>
    }
  }

  lemma VoteOrderly(cfg: Config, s: RoundState, env: Env, e: Event)
    requires Orderly(s) && !s.halted && e.VoteArrived?
    ensures Orderly(Handle(cfg, s, env, e))
  {
    var v := e.vote;
    if v.height == s.height {
      var s1 := s.(votes := VotesAfter(s, e));
      if v.kind.Prevote? {
        NotedBlock(s1, v.round);
        AfterPrevoteOrderly(NotePolka(ReleaseLock(s1, v.round), v.round), env, v.round);
      } else {
        AfterPrecommitOrderly(cfg, s1, env, v.round);
      }
    } else if s.lastCommit.Some? {
      NewRoundOrderly(s.(lastCommit := Some(AddVote(s.lastCommit.value, v, e.signed))), env, s.height, 0);
    }
  }
}
