/**
 What a correct node signs, locks and decides in one event, exactly: for every
 reachable state and every event, in terms of what the node held and counted.
 */
module NodeVotes {
  import opened VotingPower
  import opened Votes
  import opened VoteSets
  import opened HeightVoteSets
  import opened RoundStates
  import opened NodeInvariant
  import opened NodeSteps

  // ----- what the votes should be -----

  /** A prevote is for the locked block; without a lock it is for exactly the proposal block that validates, else for nil. */
  ghost predicate FitsPrevote(env: Env, lock: Held, prop: Proposed, id: BlockID) {
    if lock.block.Some? then id == Block(lock.block.value, PartsOf(lock.parts))
    else
      && (id.Block? <==> prop.block.Some? && env.valid(prop.block.value))
      && (id.Block? ==> prop.block == Some(id.hash) && id.parts == PartsOf(prop.parts))
  }

  /** The node has the block: locked, or held and valid. */
  predicate Has(env: Env, lock: Held, held: Option<Hash>, hash: Hash) {
    lock.block == Some(hash) || (held == Some(hash) && env.valid(hash))
  }

  /** A precommit is for exactly the block with a polka in the round that the node has, else for nil. */
  ghost predicate FitsPrecommit(env: Env, votes: HeightVotes, lock: Held, held: Option<Hash>, round: int, id: BlockID) {
    var maj := votes.Majority(round, Prevote);
    && (id.Block? <==> maj.Some? && maj.value.Block? && Has(env, lock, held, maj.value.hash))
    && (id.Block? ==> maj == Some(id))
  }

  /** The vote sets once the event's vote is in them. */
  function VotesAfter(s: RoundState, e: Event): HeightVotes {
    if e.VoteArrived? && e.vote.height == s.height then AddVoteAt(s.votes, e.vote, e.peer, e.signed) else s.votes
  }

  /** The proposal once the event's part is in it. */
  function PropAfter(s: RoundState, e: Event): Proposed {
    if e.PartArrived? && e.height == s.height && s.prop.parts.Some? && e.outcome.Complete? then s.prop.(block := Some(e.outcome.hash)) else s.prop
  }

  predicate IsPrevoteEvent(e: Event) {
    e.VoteArrived? && e.vote.kind.Prevote?
  }

  /** A vote signed while e took the node from s to s'. What a prevote that arrived has unlocked or replaced shows in s'. */
  ghost predicate VoteFits(s: RoundState, s': RoundState, env: Env, e: Event, x: Signed) {
    && x.vote.val == s.self && x.vote.height == s.height && x.vote.round == x.decidedFor
    && match x.vote.kind
       case Prevote =>
         if IsPrevoteEvent(e) then FitsPrevote(env, s'.locked, s'.prop, x.vote.id)
         else FitsPrevote(env, s.locked, PropAfter(s, e), x.vote.id)
       case Precommit =>
         FitsPrecommit(env, VotesAfter(s, e), s.locked, if x.decidedFor == s.round then PropAfter(s, e).block else None,
           x.decidedFor, x.vote.id)
  }

  ghost predicate VotesFit(s: RoundState, s': RoundState, env: Env, e: Event) {
    && s.signed <= s'.signed
    && forall i :: |s.signed| <= i < |s'.signed| ==> VoteFits(s, s', env, e, s'.signed[i])
  }

  /** Heights begin in round 0. */
  predicate Begins(s: RoundState) {
    0 <= s.round && (s.step == NEW_HEIGHT ==> s.round == 0)
  }

  /** A timeout is for a round the node has reached. */
  predicate Timely(s: RoundState, e: Event) {
    e.TimeoutFired? && e.ti.height == s.height ==> e.ti.round <= s.round
  }

  // ----- the transitions -----

  /** The validator can sign this kind of vote now. */
  predicate CanSign(s: RoundState, env: Env, kind: Kind) {
    s.self in s.votes.vals.power && env.signs(s.height, s.round, kind)
  }

  /** One vote was appended, or none if the signer did not. */
  ghost predicate Casts(s: RoundState, env: Env, signed: seq<Signed>, kind: Kind, round: int, id: BlockID) {
    signed == s.signed + if CanSign(s, env, kind) then [Signed(Vote(s.self, s.height, s.round, kind, id), round)] else []
  }

  lemma PrevoteIs(s: RoundState, env: Env, height: int, round: int) returns (id: BlockID)
    requires !Behind(s, height, round, PREVOTE)
    ensures var s' := EnterPrevote(s, env, height, round);
      && Casts(s, env, s'.signed, Prevote, round, id) && FitsPrevote(env, s.locked, s.prop, id)
      && s' == s.(signed := s'.signed, round := round, step := PREVOTE)
  {
    id := PrevoteChoice(s, env);
  }

  /** What the polka of the round, if there is one, leaves locked. */
  ghost predicate LockAfter(env: Env, votes: HeightVotes, lock: Held, prop: Proposed, round: int, lock': Held) {
    match votes.Majority(round, Prevote)
    case None => lock' == lock
    case Some(id) =>
      if HashesTo(lock.block, id) then lock' == lock.(round := round)
      else if HashesTo(prop.block, id) && env.valid(id.hash) then lock' == Held(round, prop.block, prop.parts)
      else lock' == NOT_HELD
  }

  lemma PrecommitIs(s: RoundState, env: Env, height: int, round: int) returns (id: BlockID)
    requires !Behind(s, height, round, PRECOMMIT) && !EnterPrecommit(s, env, height, round).halted
    ensures var s' := EnterPrecommit(s, env, height, round);
      && Casts(s, env, s'.signed, Precommit, round, id) && FitsPrecommit(env, s.votes, s.locked, s.prop.block, round, id)
      && LockAfter(env, s.votes, s.locked, s.prop, round, s'.locked)
      && s' == s.(signed := s'.signed, round := round, step := PRECOMMIT, locked := s'.locked, prop := s'.prop)
  {
    match s.votes.Majority(round, Prevote)
    case None => id := NilBlock;
    case Some(maj) =>
      id := if HashesTo(s.locked.block, maj) || HashesTo(s.prop.block, maj) then maj else NilBlock;
  }

  /** A node that panics while precommitting signs nothing. */
  lemma PrecommitHalts(s: RoundState, env: Env, height: int, round: int)
    requires !s.halted && EnterPrecommit(s, env, height, round).halted
    ensures EnterPrecommit(s, env, height, round).signed == s.signed
  {
  }

  /** x was appended, for the round the node is in now. */
  ghost predicate Appended(before: seq<Signed>, s': RoundState, x: Signed) {
    s'.signed == before + [x] && x == Signed(Vote(s'.self, s'.height, s'.round, x.vote.kind, x.vote.id), s'.round)
  }

  /** At most a prevote was appended, one that fits. */
  ghost predicate Prevotes(before: seq<Signed>, s': RoundState, env: Env, lock: Held, prop: Proposed) {
    s'.signed == before || exists x :: Appended(before, s', x) && x.vote.kind.Prevote? && FitsPrevote(env, lock, prop, x.vote.id)
  }

  /** At most a precommit was appended, one that fits. */
  ghost predicate Precommits(before: seq<Signed>, s': RoundState, env: Env, votes: HeightVotes, lock: Held, held: Option<Hash>) {
    s'.signed == before ||
    exists x :: Appended(before, s', x) && x.vote.kind.Precommit? && FitsPrecommit(env, votes, lock, held, s'.round, x.vote.id)
  }

  lemma PrevoteFits(s: RoundState, env: Env, height: int, round: int)
    requires !s.halted && (height == s.height ==> round <= s.round)
    ensures var s' := EnterPrevote(s, env, height, round);
      Prevotes(s.signed, s', env, s.locked, s.prop) && s' == s.(signed := s'.signed, step := s'.step)
  {
    if !Behind(s, height, round, PREVOTE) {
      var id := PrevoteIs(s, env, height, round);
      if CanSign(s, env, Prevote) {
        assert Appended(s.signed, EnterPrevote(s, env, height, round), Signed(Vote(s.self, s.height, s.round, Prevote, id), round));
      }
    }
  }

  lemma PrecommitFits(s: RoundState, env: Env, height: int, round: int)
    requires !s.halted && (height == s.height ==> round <= s.round)
    ensures var s' := EnterPrecommit(s, env, height, round);
      && Precommits(s.signed, s', env, s.votes, s.locked, s.prop.block)
      && s' == s.(signed := s'.signed, step := s'.step, locked := s'.locked, prop := s'.prop, halted := s'.halted)
      && (Begins(s) ==> Begins(s'))
  {
    if !Behind(s, height, round, PRECOMMIT) {
      if EnterPrecommit(s, env, height, round).halted {
        PrecommitHalts(s, env, height, round);
      } else {
        var id := PrecommitIs(s, env, height, round);
        if CanSign(s, env, Precommit) {
          assert Appended(s.signed, EnterPrecommit(s, env, height, round), Signed(Vote(s.self, s.height, s.round, Precommit, id), round));
        }
      }
    }
  }

  lemma ProposeVotes(s: RoundState, env: Env, height: int, round: int)
    requires !s.halted
    ensures var s' := EnterPropose(s, env, height, round);
      && Prevotes(s.signed, s', env, s.locked, s.prop)
      && s' == s.(signed := s'.signed, round := s'.round, step := s'.step, timeouts := s'.timeouts)
      && (s'.signed != s.signed ==> s.prop.proposal.Some? && s.prop.block.Some?)
      && (Behind(s, height, round, PROPOSE) ==> s' == s) && (!Behind(s, height, round, PROPOSE) ==> s'.round == round)
  {
    if !Behind(s, height, round, PROPOSE) {
      var s1 := Schedule(s, height, round, PROPOSE).(round := round, step := PROPOSE);
      if ProposalComplete(s1) {
        PrevoteFits(s1, env, height, round);
      }
    }
  }

  /** A new round keeps the lock; in a round past 0 the proposal is gone, so nothing is prevoted at once. */
  lemma NewRoundVotes(s: RoundState, env: Env, height: int, round: int)
    requires !s.halted && Begins(s)
    ensures var s' := EnterNewRound(s, env, height, round);
      && Prevotes(s.signed, s', env, s.locked, s.prop)
      && s'.locked == s.locked && s'.decided == s.decided && s'.self == s.self && s'.height == s.height
      && (s'.signed != s.signed ==> s.prop.proposal.Some? && s'.round == s.round)
      && (s'.round == s.round ==> s'.prop == s.prop) && (s'.round != s.round ==> s'.prop.block == None && s'.round == round)
      && Begins(s') && (height == s.height ==> round <= s'.round)
  {
    if !(s.height != height || round < s.round || (s.round == round && s.step != NEW_HEIGHT)) {
      var s1 := StartRound(s, round);
      if !s1.halted && !(env.waitForTxs && round == 0) {
        ProposeVotes(s1, env, height, round);
      }
    }
  }

  /** A prevote and then a precommit, or fewer, that fit what the event is about. */
  lemma Compose(s: RoundState, s1: RoundState, s2: RoundState, s': RoundState, env: Env, e: Event)
    requires Prevotes(s.signed, s1, env, s.locked, PropAfter(s, e)) || (IsPrevoteEvent(e) && s1.signed == s.signed)
    requires Precommits(s1.signed, s2, env, VotesAfter(s, e), s.locked, if s2.round == s.round then PropAfter(s, e).block else None)
    requires s1.self == s2.self == s.self && s1.height == s2.height == s.height && s'.signed == s2.signed
    requires IsPrevoteEvent(e) ==> s1.signed == s.signed
    ensures VotesFit(s, s', env, e)
  {
  }

  // ----- events -----

  lemma WaitVotesFit(s: RoundState, env: Env, e: Event)
    requires !s.halted && Begins(s) && Timely(s, e) && e.TimeoutFired?
    ensures VotesFit(s, OnWaitTimeout(s, env, e.ti), env, e)
  {
    var ti := e.ti;
    var s1, s' := EnterPrecommit(s, env, ti.height, ti.round), OnWaitTimeout(s, env, ti);
    PrecommitFits(s, env, ti.height, ti.round);
    if ti.step == PRECOMMIT_WAIT && !s1.halted {
      NewRoundVotes(s1, env, ti.height, ti.round + 1);
      if Behind(s, ti.height, ti.round, PRECOMMIT) {
        Compose(s, s', s', s', env, e);
      } else {
        Compose(s, s, s1, s', env, e);
      }
    } else if ti.step == PREVOTE_WAIT || ti.step == PRECOMMIT_WAIT {
      Compose(s, s, s1, s', env, e);
    }
  }

  lemma TimeoutVotesFit(cfg: Config, s: RoundState, env: Env, e: Event)
    requires !s.halted && Begins(s) && Timely(s, e) && e.TimeoutFired?
    ensures VotesFit(s, Handle(cfg, s, env, e), env, e)
  {
    var ti, s' := e.ti, Handle(cfg, s, env, e);
    if TimeoutRelevant(ti, e.seenHeight, e.seenRound, e.seenStep) {
      if ti.step == NEW_HEIGHT {
        NewRoundVotes(s, env, ti.height, 0);
        Compose(s, s', s', s', env, e);
      } else if ti.step == NEW_ROUND {
        ProposeVotes(s, env, ti.height, 0);
        Compose(s, s', s', s', env, e);
      } else if ti.step == PROPOSE {
        PrevoteFits(s, env, ti.height, ti.round);
        Compose(s, s', s', s', env, e);
      } else {
        WaitVotesFit(s, env, e);
      }
    }
  }

  lemma TxsVotesFit(cfg: Config, s: RoundState, env: Env)
    requires !s.halted
    ensures VotesFit(s, Handle(cfg, s, env, TxsAvailable), env, TxsAvailable)
  {
    var s' := Handle(cfg, s, env, TxsAvailable);
    ProposeVotes(s, env, s.height, 0);
    Compose(s, s', s', s', env, TxsAvailable);
  }

  lemma FinalizeSigns(cfg: Config, s: RoundState, env: Env, height: int)
    ensures TryFinalizeCommit(cfg, s, env, height).signed == s.signed
  {
  }

  lemma SameProposal(env: Env, lock: Held, prop: Proposed, prop': Proposed, before: seq<Signed>, s': RoundState)
    requires Prevotes(before, s', env, lock, prop) && prop'.block == prop.block && prop'.parts == prop.parts
    ensures Prevotes(before, s', env, lock, prop')
  {
    if s'.signed != before {
      var x :| Appended(before, s', x) && x.vote.kind.Prevote? && FitsPrevote(env, lock, prop, x.vote.id);
      assert FitsPrevote(env, lock, prop', x.vote.id);
    }
  }

  /** The part completed a block, or the node goes on with the block it had. */
  lemma ProposalVotesFit(cfg: Config, s: RoundState, env: Env, e: Event, prop: Proposed)
    requires !s.halted && e.PartArrived? && e.height == s.height
    requires prop.block == PropAfter(s, e).block && prop.parts == PropAfter(s, e).parts
    ensures VotesFit(s, HandleCompleteProposal(cfg, s.(prop := prop), env, s.height), env, e)
  {
    var s', s1 := HandleCompleteProposal(cfg, s.(prop := prop), env, s.height), NoteProposalPolka(s.(prop := prop));
    if s1.step <= PROPOSE && ProposalComplete(s1) {
      var s2 := EnterPrevote(s1, env, s.height, s1.round);
      PrevoteFits(s1, env, s.height, s1.round);
      PrecommitFits(s2, env, s.height, s2.round);
      SameProposal(env, s.locked, prop, PropAfter(s, e), s.signed, s2);
      Compose(s, s2, s', s', env, e);
    } else if s1.step == COMMIT {
      FinalizeSigns(cfg, s1, env, s.height);
    }
  }

  lemma PartVotesFit(cfg: Config, s: RoundState, env: Env, e: Event)
    requires !s.halted && e.PartArrived?
    ensures VotesFit(s, Handle(cfg, s, env, e), env, e)
  {
    if e.height == s.height && s.prop.parts.Some? {
      if e.outcome.Complete? {
        ProposalVotesFit(cfg, s, env, e, s.prop.(block := Some(e.outcome.hash), completedOnce := true));
      } else if e.outcome.CompleteUnreadable? && (s.prop.completedOnce || s.prop.block.Some?) {
        ProposalVotesFit(cfg, s, env, e, s.prop.(completedOnce := true));
      }
    }
  }

  /** What is released or replaced on a polka does not matter for the precommit on it. */
  lemma NotedHas(s: RoundState, env: Env, round: int)
    ensures var s2, maj := NotePolka(ReleaseLock(s, round), round), s.votes.Majority(round, Prevote);
      && s2 == s.(locked := s2.locked, valid := s2.valid, prop := s2.prop)
      && (maj.Some? && maj.value.Block? ==> (Has(env, s2.locked, s2.prop.block, maj.value.hash) <==> Has(env, s.locked, s.prop.block, maj.value.hash)))
  {
  }

  lemma NotedPrecommits(s: RoundState, env: Env, round: int, s': RoundState)
    requires var s2 := NotePolka(ReleaseLock(s, round), round); Precommits(s.signed, s', env, s.votes, s2.locked, s2.prop.block) && s'.round == round
    ensures Precommits(s.signed, s', env, s.votes, s.locked, s.prop.block)
  {
    NotedHas(s, env, round);
    var s2 := NotePolka(ReleaseLock(s, round), round);
    if s'.signed != s.signed {
      var x :| Appended(s.signed, s', x) && x.vote.kind.Precommit? && FitsPrecommit(env, s.votes, s2.locked, s2.prop.block, s'.round, x.vote.id);
      assert FitsPrecommit(env, s.votes, s.locked, s.prop.block, s'.round, x.vote.id);
    }
  }

  /** A prevote that fits the state the event leaves. */
  lemma PrevoteAtEnd(s: RoundState, s': RoundState, env: Env, e: Event)
    requires IsPrevoteEvent(e) && Prevotes(s.signed, s', env, s'.locked, s'.prop) && s'.self == s.self && s'.height == s.height
    ensures VotesFit(s, s', env, e)
  {
  }

  lemma PolkaOrWaitFits(s: RoundState, env: Env, height: int)
    requires !s.halted && s.height == height && PREVOTE <= s.step
    ensures var s' := AfterPrevote(s, env, s.round);
      Precommits(s.signed, s', env, s.votes, s.locked, s.prop.block) && s'.self == s.self && s'.height == s.height && s'.round == s.round
  {
    PrecommitFits(s, env, height, s.round);
  }

  lemma PrevoteEventFits(cfg: Config, s: RoundState, env: Env, e: Event)
    requires !s.halted && Begins(s) && IsPrevoteEvent(e) && e.vote.height == s.height
    ensures var s1, round := s.(votes := VotesAfter(s, e)), e.vote.round;
      VotesFit(s, AfterPrevote(NotePolka(ReleaseLock(s1, round), round), env, round), env, e)
  {
    var s1, round := s.(votes := VotesAfter(s, e)), e.vote.round;
    var s2 := NotePolka(ReleaseLock(s1, round), round);
    var s' := AfterPrevote(s2, env, round);
    NotedHas(s1, env, round);
    if s2.round < round && s2.votes.TwoThirdsAny(round, Prevote) {
      NewRoundVotes(s2, env, s.height, round);
    } else if s2.round == round && PREVOTE <= s2.step {
      PolkaOrWaitFits(s2, env, s.height);
      NotedPrecommits(s1, env, round, s');
      Compose(s, s, s', s', env, e);
    } else {
      PrevoteFits(s2, env, s.height, s2.round);
      PrevoteAtEnd(s, s', env, e);
    }
  }

  /** Committing signs nothing, and the next height has no proposal yet to vote on. */
  lemma CommitSigns(cfg: Config, s: RoundState, env: Env, height: int, round: int)
    requires Begins(s) && s.height == height
    ensures EnterCommit(cfg, s, env, height, round).signed == s.signed
    ensures var s2 := EnterCommit(cfg, s, env, height, round);
      !s2.halted ==> EnterNewRound(s2, env, s2.height, 0).signed == s.signed
  {
    CommitBegins(cfg, s, env, height, round);
    var s2 := EnterCommit(cfg, s, env, height, round);
    if !s2.halted {
      NewRoundVotes(s2, env, s2.height, 0);
    }
  }

  lemma CommitBegins(cfg: Config, s: RoundState, env: Env, height: int, round: int)
    requires Begins(s)
    ensures var s2 := EnterCommit(cfg, s, env, height, round);
      s2.signed == s.signed && Begins(s2) && (s2.prop.proposal.Some? ==> s2.height == s.height)
  {
  }

  lemma SameMajority(before: seq<Signed>, s': RoundState, env: Env, votes: HeightVotes, votes': HeightVotes, lock: Held, held: Option<Hash>)
    requires Precommits(before, s', env, votes, lock, held) && votes'.Majority(s'.round, Prevote) == votes.Majority(s'.round, Prevote)
    ensures Precommits(before, s', env, votes', lock, held)
  {
    if s'.signed != before {
      var x :| Appended(before, s', x) && x.vote.kind.Precommit? && FitsPrecommit(env, votes, lock, held, s'.round, x.vote.id);
      assert FitsPrecommit(env, votes', lock, held, s'.round, x.vote.id);
    }
  }

  /** The round change of a precommit event and the precommit it leads to. */
  lemma CaughtUpFits(s: RoundState, env: Env, e: Event)
    requires !s.halted && Begins(s) && e.VoteArrived? && e.vote.kind.Precommit? && e.vote.height == s.height
    ensures var s1, round := s.(votes := VotesAfter(s, e)), e.vote.round;
      var n := EnterNewRound(s1, env, s.height, round);
      var p := EnterPrecommit(n, env, s.height, round);
      && Prevotes(s.signed, n, env, s.locked, s.prop) && n.self == p.self == s.self && n.height == p.height == s.height
      && Precommits(n.signed, p, env, s1.votes, s.locked, if p.round == s.round then s.prop.block else None)
      && (!p.halted ==> Begins(p))
  {
    var s1, round := s.(votes := VotesAfter(s, e)), e.vote.round;
    var n := EnterNewRound(s1, env, s.height, round);
    NewRoundVotes(s1, env, s.height, round);
    if !n.halted {
      var p := EnterPrecommit(n, env, s.height, round);
      PrecommitFits(n, env, s.height, round);
      SameMajority(n.signed, p, env, n.votes, s1.votes, n.locked, n.prop.block);
    }
  }

  /** After a precommit, whatever else is done, the votes signed are those of the round change and the precommit. */
  lemma AfterPrecommitSigns(cfg: Config, s: RoundState, env: Env, round: int)
    requires !s.halted && Begins(s)
    ensures var n, s' := EnterNewRound(s, env, s.height, round), AfterPrecommit(cfg, s, env, round);
      if s.votes.Majority(round, Precommit).None? then s'.signed == s.signed || s'.signed == n.signed
      else s'.signed == EnterPrecommit(n, env, s.height, round).signed
  {
    var n := EnterNewRound(s, env, s.height, round);
    WaitSigns(n, s.height, round);
    if s.votes.Majority(round, Precommit).Some? {
      var p := EnterPrecommit(n, env, s.height, round);
      NewRoundVotes(s, env, s.height, round);
      PrecommitBegins(n, env, s.height, round);
      WaitSigns(p, s.height, round);
      CommitSigns(cfg, p, env, s.height, round);
    }
  }

  lemma WaitSigns(s: RoundState, height: int, round: int)
    ensures EnterPrecommitWait(s, height, round).signed == s.signed
  {
  }

  lemma PrecommitBegins(s: RoundState, env: Env, height: int, round: int)
    requires Begins(s) && (height == s.height ==> round <= s.round)
    ensures var p := EnterPrecommit(s, env, height, round); Begins(p) && p.height == s.height
  {
    if !s.halted {
      PrecommitFits(s, env, height, round);
    }
  }

  lemma PrecommitEventFits(cfg: Config, s: RoundState, env: Env, e: Event)
    requires !s.halted && Begins(s) && e.VoteArrived? && e.vote.kind.Precommit? && e.vote.height == s.height
    ensures VotesFit(s, AfterPrecommit(cfg, s.(votes := VotesAfter(s, e)), env, e.vote.round), env, e)
  {
    var s1, round := s.(votes := VotesAfter(s, e)), e.vote.round;
    var n, s' := EnterNewRound(s1, env, s.height, round), AfterPrecommit(cfg, s1, env, round);
    CaughtUpFits(s, env, e);
    AfterPrecommitSigns(cfg, s1, env, round);
    if s1.votes.Majority(round, Precommit).Some? {
      Compose(s, n, EnterPrecommit(n, env, s.height, round), s', env, e);
    } else if s'.signed != s.signed {
      Compose(s, n, n, s', env, e);
    }
  }

  lemma VoteEventFits(cfg: Config, s: RoundState, env: Env, e: Event)
    requires !s.halted && Begins(s) && e.VoteArrived?
    ensures VotesFit(s, Handle(cfg, s, env, e), env, e)
  {
    var v, s' := e.vote, Handle(cfg, s, env, e);
    if v.height == s.height {
      if AddedAt(s.votes, v, e.peer, e.signed) {
        if v.kind.Prevote? {
          PrevoteEventFits(cfg, s, env, e);
        } else {
          PrecommitEventFits(cfg, s, env, e);
        }
      }
    } else if v.height + 1 == s.height && v.kind.Precommit? && s.step == NEW_HEIGHT && s.lastCommit.Some? {
      var s1 := s.(lastCommit := Some(AddVote(s.lastCommit.value, v, e.signed)));
      NewRoundVotes(s1, env, s.height, 0);
      if s'.signed != s.signed {
        Compose(s, s', s', s', env, e);
      }
    }
  }

  /**
   Every vote a node signs in an event is the right one. A prevote is for the locked
   block, or without a lock for the proposal block exactly if that is complete and valid,
   or for nil; a precommit is for the block with a polka in its round exactly if the node
   has it, or for nil.
   */
  lemma HandleVotesFit(cfg: Config, s: RoundState, env: Env, e: Event)
    requires Begins(s) && Timely(s, e)
    ensures VotesFit(s, Handle(cfg, s, env, e), env, e)
  {
    if s.halted {
      HaltedStays(cfg, s, env, e);
    } else {
      match e
      case TimeoutFired(_, _, _, _) => TimeoutVotesFit(cfg, s, env, e);
      case TxsAvailable => TxsVotesFit(cfg, s, env);
      case ProposalArrived(_, _) =>
      case PartArrived(_, _) => PartVotesFit(cfg, s, env, e);
      case VoteArrived(_, _, _) => VoteEventFits(cfg, s, env, e);
      case Maj23Claimed(_, _, _, _, _) =>
    }
  }

  // ----- votes are cast -----

  /** The last vote was signed on the way from s to s', of this kind and for the round the node is in now. */
  ghost predicate Voted(s: RoundState, s': RoundState, kind: Kind) {
    |s'.signed| > |s.signed| && var x := s'.signed[|s'.signed| - 1]; x.vote.kind == kind && x.decidedFor == s'.round
  }

  /** A validator whose signer works for the round it is in now. */
  predicate Able(s: RoundState, s': RoundState, env: Env, kind: Kind) {
    s.self in s.votes.vals.power && env.signs(s.height, s'.round, kind)
  }

  /** The node is where it was, or it has voted if it is at prevote or at precommit now. */
  ghost predicate Arrives(s: RoundState, s': RoundState, env: Env) {
    && s'.self == s.self && s.signed <= s'.signed && (s'.height == s.height ==> s'.votes.vals == s.votes.vals) && s.height <= s'.height
    && (s'.halted || s'.height != s.height || (s'.round == s.round && s'.step == s.step && s'.signed == s.signed) ||
        (&& (s'.step == PREVOTE && Able(s, s', env, Prevote) ==> Voted(s, s', Prevote))
         && (s'.step == PRECOMMIT && Able(s, s', env, Precommit) ==> Voted(s, s', Precommit))))
  }

  lemma ArrivesTrans(s: RoundState, s1: RoundState, s2: RoundState, env: Env)
    requires Arrives(s, s1, env) && Arrives(s1, s2, env) && (s1.halted ==> s2 == s1)
    ensures Arrives(s, s2, env)
  {
  }

  lemma PrevoteArrives(s: RoundState, env: Env, height: int, round: int)
    requires height == s.height ==> round <= s.round
    ensures Arrives(s, EnterPrevote(s, env, height, round), env)
  {
    if !Behind(s, height, round, PREVOTE) {
      var id := PrevoteIs(s, env, height, round);
    }
  }

  lemma PrecommitArrives(s: RoundState, env: Env, height: int, round: int)
    requires height == s.height ==> round <= s.round
    ensures Arrives(s, EnterPrecommit(s, env, height, round), env)
  {
    if !Behind(s, height, round, PRECOMMIT) {
      if EnterPrecommit(s, env, height, round).halted {
        PrecommitHalts(s, env, height, round);
      } else {
        var id := PrecommitIs(s, env, height, round);
      }
    }
  }

  lemma ProposeArrives(s: RoundState, env: Env, height: int, round: int)
    ensures Arrives(s, EnterPropose(s, env, height, round), env)
  {
    if !Behind(s, height, round, PROPOSE) {
      var s1 := Schedule(s, height, round, PROPOSE).(round := round, step := PROPOSE);
      PrevoteArrives(s1, env, height, round);
    }
  }

  lemma NewRoundArrives(s: RoundState, env: Env, height: int, round: int)
    ensures Arrives(s, EnterNewRound(s, env, height, round), env)
  {
    if !(s.halted || s.height != height || round < s.round || (s.round == round && s.step != NEW_HEIGHT)) {
      var s1 := StartRound(s, round);
      assert Arrives(s, s1, env);
      if !s1.halted && !(env.waitForTxs && round == 0) {
        ProposeArrives(s1, env, height, round);
        ArrivesTrans(s, s1, EnterPropose(s1, env, height, round), env);
      }
    }
  }

  lemma PrevoteWaitArrives(s: RoundState, env: Env, height: int, round: int)
    requires height == s.height ==> round <= s.round
    ensures Arrives(s, EnterPrevoteWait(s, env, height, round), env)
  {
    PrecommitArrives(s, env, height, round);
  }

  lemma ThenNewRound(s: RoundState, s1: RoundState, env: Env, height: int, round: int)
    requires Arrives(s, s1, env)
    ensures Arrives(s, EnterNewRound(s1, env, height, round), env)
  {
    NewRoundArrives(s1, env, height, round);
    ArrivesTrans(s, s1, EnterNewRound(s1, env, height, round), env);
  }

  lemma ThenPrecommit(s: RoundState, s1: RoundState, env: Env, height: int, round: int)
    requires Arrives(s, s1, env) && (height == s1.height ==> round <= s1.round)
    ensures Arrives(s, EnterPrecommit(s1, env, height, round), env)
  {
    PrecommitArrives(s1, env, height, round);
    ArrivesTrans(s, s1, EnterPrecommit(s1, env, height, round), env);
  }

  lemma WaitArrives(s: RoundState, env: Env, ti: Timeout)
    requires ti.height == s.height ==> ti.round <= s.round
    ensures Arrives(s, OnWaitTimeout(s, env, ti), env)
  {
    if ti.step == PRECOMMIT_WAIT {
      PrecommitTimeoutArrives(s, env, ti.height, ti.round);
    } else {
      PrecommitArrives(s, env, ti.height, ti.round);
    }
  }

  lemma PrecommitTimeoutArrives(s: RoundState, env: Env, height: int, round: int)
    requires height == s.height ==> round <= s.round
    ensures Arrives(s, OnPrecommitTimeout(s, env, height, round), env)
  {
    PrecommitArrives(s, env, height, round);
    ThenNewRound(s, EnterPrecommit(s, env, height, round), env, height, round + 1);
  }

  lemma TimeoutArrives(cfg: Config, s: RoundState, env: Env, e: Event)
    requires !s.halted && Timely(s, e) && e.TimeoutFired?
    ensures Arrives(s, Handle(cfg, s, env, e), env)
  {
    var ti := e.ti;
    if ti.step == NEW_HEIGHT {
      NewRoundArrives(s, env, ti.height, 0);
    } else if ti.step == NEW_ROUND {
      ProposeArrives(s, env, ti.height, 0);
    } else if ti.step == PROPOSE {
      PrevoteArrives(s, env, ti.height, ti.round);
    } else {
      WaitArrives(s, env, ti);
    }
  }

  lemma FinalizeArrives(cfg: Config, s: RoundState, env: Env, height: int)
    ensures Arrives(s, TryFinalizeCommit(cfg, s, env, height), env)
  {
  }

  lemma ProposalArrives(cfg: Config, s: RoundState, env: Env)
    ensures Arrives(s, AfterProposal(cfg, s, env, s.height, true), env) && Arrives(s, AfterProposal(cfg, s, env, s.height, false), env)
  {
    var s1 := EnterPrevote(s, env, s.height, s.round);
    PrevoteArrives(s, env, s.height, s.round);
    PrecommitArrives(s1, env, s.height, s1.round);
    ArrivesTrans(s, s1, EnterPrecommit(s1, env, s.height, s1.round), env);
    FinalizeArrives(cfg, s, env, s.height);
  }

  lemma AfterPrevoteArrives(s: RoundState, env: Env, round: int)
    ensures Arrives(s, AfterPrevote(s, env, round), env)
  {
    NewRoundArrives(s, env, s.height, round);
    if s.round == round {
      PrecommitArrives(s, env, s.height, round);
      PrevoteWaitArrives(s, env, s.height, round);
    }
    PrevoteArrives(s, env, s.height, s.round);
  }

  lemma CommitArrives(cfg: Config, s: RoundState, env: Env, height: int, round: int)
    ensures Arrives(s, EnterCommit(cfg, s, env, height, round), env)
  {
  }

  lemma ThenCommit(cfg: Config, s: RoundState, p: RoundState, env: Env, height: int, round: int)
    requires Arrives(s, p, env)
    ensures Arrives(s, EnterCommit(cfg, p, env, height, round), env)
  {
    CommitArrives(cfg, p, env, height, round);
    ArrivesTrans(s, p, EnterCommit(cfg, p, env, height, round), env);
  }

  lemma ThenWait(s: RoundState, s1: RoundState, env: Env, height: int, round: int)
    requires Arrives(s, s1, env)
    ensures Arrives(s, EnterPrecommitWait(s1, height, round), env)
  {
  }

  lemma MajorityArrives(cfg: Config, s: RoundState, p: RoundState, env: Env, round: int)
    requires Arrives(s, p, env)
    ensures var c := EnterCommit(cfg, p, env, s.height, round); Arrives(s, c, env) && Arrives(s, EnterNewRound(c, env, c.height, 0), env)
    ensures Arrives(s, EnterPrecommitWait(p, s.height, round), env)
  {
    var c := EnterCommit(cfg, p, env, s.height, round);
    ThenCommit(cfg, s, p, env, s.height, round);
    ThenNewRound(s, c, env, c.height, 0);
    ThenWait(s, p, env, s.height, round);
  }

  lemma AfterPrecommitArrives(cfg: Config, s: RoundState, env: Env, round: int)
    requires !s.halted && Begins(s)
    ensures Arrives(s, AfterPrecommit(cfg, s, env, round), env)
  {
    var n := EnterNewRound(s, env, s.height, round);
    NewRoundArrives(s, env, s.height, round);
    NewRoundVotes(s, env, s.height, round);
    if s.votes.Majority(round, Precommit).Some? {
      ThenPrecommit(s, n, env, s.height, round);
      MajorityArrives(cfg, s, EnterPrecommit(n, env, s.height, round), env, round);
    } else {
      ThenWait(s, n, env, s.height, round);
    }
  }

  /** What was noted before leaves the node where it is. */
  lemma SameSpot(s: RoundState, s1: RoundState, s': RoundState, env: Env)
    requires s1.self == s.self && s1.height == s.height && s1.round == s.round && s1.step == s.step && s1.signed == s.signed
    requires s1.votes.vals == s.votes.vals && Arrives(s1, s', env)
    ensures Arrives(s, s', env)
  {
  }

  lemma PartArrives(cfg: Config, s: RoundState, env: Env, e: Event)
    requires !s.halted && e.PartArrived?
    ensures Arrives(s, Handle(cfg, s, env, e), env)
  {
    if e.height == s.height && s.prop.parts.Some? && (e.outcome.Complete? || e.outcome.CompleteUnreadable?) {
      var prop := if e.outcome.Complete? then s.prop.(block := Some(e.outcome.hash), completedOnce := true) else s.prop.(completedOnce := true);
      var s0 := s.(prop := prop);
      var s1, s' := NoteProposalPolka(s0), HandleCompleteProposal(cfg, s0, env, s.height);
      ProposalArrives(cfg, s1, env);
      SameSpot(s, s1, s', env);
    }
  }

  lemma VoteEventArrives(cfg: Config, s: RoundState, env: Env, e: Event)
    requires !s.halted && Begins(s) && e.VoteArrived?
    ensures Arrives(s, Handle(cfg, s, env, e), env)
  {
    var v, s' := e.vote, Handle(cfg, s, env, e);
    if v.height == s.height {
      var s1 := s.(votes := VotesAfter(s, e));
      if AddedAt(s.votes, v, e.peer, e.signed) {
        if v.kind.Prevote? {
          NotedHas(s1, env, v.round);
          var s2 := NotePolka(ReleaseLock(s1, v.round), v.round);
          AfterPrevoteArrives(s2, env, v.round);
          SameSpot(s, s2, s', env);
        } else {
          AfterPrecommitArrives(cfg, s1, env, v.round);
          SameSpot(s, s1, s', env);
        }
      }
    } else if v.height + 1 == s.height && v.kind.Precommit? && s.lastCommit.Some? {
      var s1 := s.(lastCommit := Some(AddVote(s.lastCommit.value, v, e.signed)));
      NewRoundArrives(s1, env, s.height, 0);
      if s.step == NEW_HEIGHT && s'.step != s.step {
        SameSpot(s, s1, s', env);
      }
    }
  }

  /** The node is at the step now and was not before. */
  predicate Reaches(s: RoundState, s': RoundState, step: int) {
    s'.height == s.height && !s'.halted && s'.step == step && (s.step != step || s.round != s'.round)
  }

  /** A validator whose signer works votes whenever an event takes it to prevote or to precommit. */
  lemma VotesOnEntry(cfg: Config, s: RoundState, env: Env, e: Event)
    requires Begins(s) && Timely(s, e)
    ensures var s' := Handle(cfg, s, env, e);
      && (Reaches(s, s', PREVOTE) && Able(s, s', env, Prevote) ==> Voted(s, s', Prevote))
      && (Reaches(s, s', PRECOMMIT) && Able(s, s', env, Precommit) ==> Voted(s, s', Precommit))
  {
    if !s.halted {
      match e
      case TimeoutFired(_, _, _, _) => TimeoutArrives(cfg, s, env, e);
      case TxsAvailable => ProposeArrives(s, env, s.height, 0);
      case ProposalArrived(_, _) =>
      case PartArrived(_, _) => PartArrives(cfg, s, env, e);
      case VoteArrived(_, _, _) => VoteEventArrives(cfg, s, env, e);
      case Maj23Claimed(_, _, _, _, _) =>
    }
  }
}
