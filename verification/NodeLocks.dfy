/**
 What a correct node is locked on after one event, exactly, and what takes it to
 its next step or round: for every state and every event.
 */
module NodeLocks {
  import opened VotingPower
  import opened Votes
  import opened VoteSets
  import opened HeightVoteSets
  import opened RoundStates
  import opened NodeSteps
  import opened NodeVotes
  import opened NodeDecisions

  // ----- locks -----

  /** The event is a prevote that completes a polka, in a round since the lock, for something else. */
  predicate Releases(s: RoundState, e: Event) {
    && IsPrevoteEvent(e) && e.vote.height == s.height && AddedAt(s.votes, e.vote, e.peer, e.signed)
    && s.locked.block.Some? && s.locked.round < e.vote.round <= s.round
    && var maj := VotesAfter(s, e).Majority(e.vote.round, Prevote); maj.Some? && !HashesTo(s.locked.block, maj.value)
  }

  /** The event takes the node through precommit in its round. */
  predicate Precommitting(s: RoundState, s': RoundState, e: Event) {
    || Reaches(s, s', PRECOMMIT)
    || (&& e.TimeoutFired? && e.ti.step == PRECOMMIT_WAIT && TimeoutRelevant(e.ti, e.seenHeight, e.seenRound, e.seenStep)
        && e.ti.height == s.height && e.ti.round == s.round && s.step < PRECOMMIT)
  }

  /** Precommitting in a round: a polka locks its block if the node has it, and unlocks otherwise; no polka changes nothing. */
  ghost predicate LockFits(env: Env, votes: HeightVotes, lock: Held, held: Option<Hash>, round: int, lock': Held) {
    match votes.Majority(round, Prevote)
    case None => lock' == lock
    case Some(id) =>
      if HashesTo(lock.block, id) then lock' == lock.(round := round)
      else if HashesTo(held, id) && env.valid(id.hash) then lock'.round == round && lock'.block == held
      else lock' == NOT_HELD
  }

  /** The lock after an event that leaves the node at its height and not committing. */
  ghost predicate LockIs(s: RoundState, s': RoundState, env: Env, e: Event) {
    s'.halted || s'.height != s.height || COMMIT <= s'.step ||
    (var lock := if Releases(s, e) then NOT_HELD else s.locked;
     if Precommitting(s, s', e) then
       var round := if s'.step == PRECOMMIT then s'.round else s.round;
       LockFits(env, VotesAfter(s, e), lock, if round == s.round then PropAfter(s, e).block else None, round, s'.locked)
     else s'.locked == lock)
  }

  /** Entering precommit, or not, from a state with the given lock and block. */
  lemma PrecommitLocks(s: RoundState, env: Env, height: int, round: int)
    requires !s.halted && (height == s.height ==> round <= s.round)
    ensures var s' := EnterPrecommit(s, env, height, round);
      && (!s'.halted && !Behind(s, height, round, PRECOMMIT) ==> LockFits(env, s.votes, s.locked, s.prop.block, s.round, s'.locked))
      && (Behind(s, height, round, PRECOMMIT) ==> s' == s) && (!Behind(s, height, round, PRECOMMIT) ==> s'.step == PRECOMMIT)
  {
    if !Behind(s, height, round, PRECOMMIT) && !EnterPrecommit(s, env, height, round).halted {
      var id := PrecommitIs(s, env, height, round);
    }
  }

  lemma TimeoutLocks(cfg: Config, s: RoundState, env: Env, e: Event)
    requires !s.halted && Begins(s) && Timely(s, e) && e.TimeoutFired?
    ensures LockIs(s, Handle(cfg, s, env, e), env, e)
  {
    var ti := e.ti;
    if TimeoutRelevant(ti, e.seenHeight, e.seenRound, e.seenStep) {
      if ti.step == NEW_HEIGHT {
        NewRoundVotes(s, env, ti.height, 0);
        NewRoundStep(s, env, ti.height, 0);
      } else if ti.step == NEW_ROUND {
        ProposeVotes(s, env, ti.height, 0);
        ProposeStep(s, env, ti.height, 0);
      } else if ti.step == PROPOSE {
        PrevoteFits(s, env, ti.height, ti.round);
      } else {
        WaitLocks(s, env, e);
      }
    }
  }

  lemma ProposeStep(s: RoundState, env: Env, height: int, round: int)
    ensures var s' := EnterPropose(s, env, height, round); s' == s || s'.step == PROPOSE || s'.step == PREVOTE
  {
  }

  lemma NewRoundStep(s: RoundState, env: Env, height: int, round: int)
    ensures var s' := EnterNewRound(s, env, height, round); s' == s || s'.step == NEW_ROUND || s'.step == PROPOSE || s'.step == PREVOTE
  {
  }

  lemma WaitLocks(s: RoundState, env: Env, e: Event)
    requires !s.halted && Begins(s) && Timely(s, e) && e.TimeoutFired? && e.ti.step != NEW_HEIGHT && e.ti.step != NEW_ROUND && e.ti.step != PROPOSE
    requires TimeoutRelevant(e.ti, e.seenHeight, e.seenRound, e.seenStep)
    ensures LockIs(s, OnWaitTimeout(s, env, e.ti), env, e)
  {
    var ti := e.ti;
    if ti.step == PREVOTE_WAIT {
      PrecommitFits(s, env, ti.height, ti.round);
      PrecommitLocks(s, env, ti.height, ti.round);
    } else if ti.step == PRECOMMIT_WAIT {
      PrecommitWaitLocks(s, env, e);
    }
  }

  lemma PrecommitWaitLocks(s: RoundState, env: Env, e: Event)
    requires !s.halted && Begins(s) && Timely(s, e) && e.TimeoutFired? && e.ti.step == PRECOMMIT_WAIT
    requires TimeoutRelevant(e.ti, e.seenHeight, e.seenRound, e.seenStep)
    ensures LockIs(s, OnPrecommitTimeout(s, env, e.ti.height, e.ti.round), env, e)
  {
    var ti := e.ti;
    var s1 := EnterPrecommit(s, env, ti.height, ti.round);
    PrecommitFits(s, env, ti.height, ti.round);
    PrecommitLocks(s, env, ti.height, ti.round);
    if !s1.halted {
      NewRoundVotes(s1, env, ti.height, ti.round + 1);
      NewRoundStep(s1, env, ti.height, ti.round + 1);
    }
  }

  lemma ProposalLocks(cfg: Config, s: RoundState, env: Env, e: Event, prop: Proposed)
    requires !s.halted && e.PartArrived? && e.height == s.height && prop.block == PropAfter(s, e).block
    ensures LockIs(s, HandleCompleteProposal(cfg, s.(prop := prop), env, s.height), env, e)
  {
    var s1 := NoteProposalPolka(s.(prop := prop));
    if s1.step <= PROPOSE && ProposalComplete(s1) {
      var s2 := EnterPrevote(s1, env, s.height, s1.round);
      PrevoteFits(s1, env, s.height, s1.round);
      PrecommitLocks(s2, env, s.height, s2.round);
      PrecommitFits(s2, env, s.height, s2.round);
    } else if s1.step == COMMIT {
      FinalizeIs(cfg, s1, env, s.height);
    }
  }

  lemma PartLocks(cfg: Config, s: RoundState, env: Env, e: Event)
    requires !s.halted && e.PartArrived?
    ensures LockIs(s, Handle(cfg, s, env, e), env, e)
  {
    if e.height == s.height && s.prop.parts.Some? {
      if e.outcome.Complete? {
        ProposalLocks(cfg, s, env, e, s.prop.(block := Some(e.outcome.hash), completedOnce := true));
      } else if e.outcome.CompleteUnreadable? && (s.prop.completedOnce || s.prop.block.Some?) {
        ProposalLocks(cfg, s, env, e, s.prop.(completedOnce := true));
      }
    }
  }

  /** A polka that is noted keeps the proposal block if it is for it. */
  lemma NotedBlock(s: RoundState, round: int)
    ensures var s2, maj := NotePolka(ReleaseLock(s, round), round), s.votes.Majority(round, Prevote);
      && s2 == s.(locked := s2.locked, valid := s2.valid, prop := s2.prop)
      && s2.locked == ReleaseLock(s, round).locked
      && (maj.Some? ==> (HashesTo(s2.prop.block, maj.value) <==> HashesTo(s.prop.block, maj.value)))
      && (maj.Some? && HashesTo(s.prop.block, maj.value) ==> s2.prop.block == s.prop.block)
  {
  }

  /** What a prevote leads to, as far as the lock goes: nothing, or a precommit in the node's round. */
  lemma AfterPrevoteLocks(s: RoundState, env: Env, round: int)
    requires !s.halted && Begins(s)
    ensures var s' := AfterPrevote(s, env, round);
      s'.halted || (s'.height == s.height &&
        if Reaches(s, s', PRECOMMIT) then s'.round == s.round == round && LockFits(env, s.votes, s.locked, s.prop.block, round, s'.locked)
        else s'.locked == s.locked)
  {
    NewRoundVotes(s, env, s.height, round);
    NewRoundStep(s, env, s.height, round);
    PrevoteFits(s, env, s.height, s.round);
    if s.round == round {
      PrecommitLocks(s, env, s.height, round);
      PrecommitFits(s, env, s.height, round);
    }
  }

  lemma PrevoteEventLocks(cfg: Config, s: RoundState, env: Env, e: Event)
    requires !s.halted && Begins(s) && IsPrevoteEvent(e) && e.vote.height == s.height && AddedAt(s.votes, e.vote, e.peer, e.signed)
    ensures LockIs(s, Handle(cfg, s, env, e), env, e)
  {
    var s1, round := s.(votes := VotesAfter(s, e)), e.vote.round;
    NotedBlock(s1, round);
    AfterPrevoteLocks(NotePolka(ReleaseLock(s1, round), round), env, round);
  }

  /** s' is where p is, with the same lock. */
  predicate Like(p: RoundState, s': RoundState) {
    s'.height == p.height && s'.round == p.round && s'.step == p.step && s'.locked == p.locked
  }

  /** The node as it caught up with the round of a precommit. */
  lemma CaughtUpLocks(s: RoundState, env: Env, e: Event)
    requires !s.halted && Begins(s) && e.VoteArrived? && e.vote.kind.Precommit? && e.vote.height == s.height
    ensures var n := EnterNewRound(s.(votes := VotesAfter(s, e)), env, s.height, e.vote.round);
      LockIs(s, n, env, e) && LockIs(s, CaughtUp(s, env, e), env, e)
  {
    var s1, round := s.(votes := VotesAfter(s, e)), e.vote.round;
    var n := EnterNewRound(s1, env, s.height, round);
    NewRoundVotes(s1, env, s.height, round);
    NewRoundStep(s1, env, s.height, round);
    if !n.halted {
      PrecommitLocks(n, env, s.height, round);
      PrecommitFits(n, env, s.height, round);
    }
  }

  lemma LikeLocks(s: RoundState, p: RoundState, s': RoundState, env: Env, e: Event)
    requires LockIs(s, p, env, e) && Like(p, s') && (p.halted ==> s'.halted)
    ensures LockIs(s, s', env, e)
  {
  }

  /** After a precommit the node has halted, is committing or past it, or is where it had caught up to. */
  lemma AfterPrecommitEnds(cfg: Config, s: RoundState, env: Env, round: int)
    requires !s.halted && Begins(s)
    ensures var s', n := AfterPrecommit(cfg, s, env, round), EnterNewRound(s, env, s.height, round);
      var p := EnterPrecommit(n, env, s.height, round);
      || s'.height != s.height || COMMIT <= s'.step || s' == s
      || (Like(p, s') && (p.halted ==> s'.halted)) || (Like(n, s') && (n.halted ==> s'.halted))
  {
    var n := EnterNewRound(s, env, s.height, round);
    var p := EnterPrecommit(n, env, s.height, round);
    var maj := s.votes.Majority(round, Precommit);
    if maj.Some? && maj.value.Block? {
      HeldBefore(s, env, round, maj.value);
      CommitEnds(cfg, p, env, round);
    }
  }

  lemma CommitEnds(cfg: Config, p: RoundState, env: Env, round: int)
    requires p.votes.Majority(round, Precommit).Some? && p.votes.Majority(round, Precommit).value.Block? && 0 <= p.round
    ensures var c := EnterCommit(cfg, p, env, p.height, round);
      var s' := EnterNewRound(c, env, c.height, 0);
      && (c == p || c.height != p.height || c.step == COMMIT) && (s'.height != p.height || s'.step == COMMIT || (Like(p, s') && s'.halted == p.halted))
  {
  }

  lemma PrecommitEventLocks(cfg: Config, s: RoundState, env: Env, e: Event)
    requires !s.halted && Begins(s) && e.VoteArrived? && e.vote.kind.Precommit? && e.vote.height == s.height && AddedAt(s.votes, e.vote, e.peer, e.signed)
    ensures LockIs(s, Handle(cfg, s, env, e), env, e)
  {
    var s1, round, s' := s.(votes := VotesAfter(s, e)), e.vote.round, Handle(cfg, s, env, e);
    var n, p := EnterNewRound(s1, env, s.height, round), CaughtUp(s, env, e);
    CaughtUpLocks(s, env, e);
    AfterPrecommitEnds(cfg, s1, env, round);
    if Like(p, s') && (p.halted ==> s'.halted) {
      LikeLocks(s, p, s', env, e);
    } else if Like(n, s') && (n.halted ==> s'.halted) {
      LikeLocks(s, n, s', env, e);
    }
  }

  /**
   The lock is exact. A prevote that completes a polka for something else releases a lock
   from before its round; precommitting locks the block of the round's polka if the node
   has it, keeps the lock if there is no polka, and unlocks otherwise; nothing else changes
   the lock while the height lasts.
   */
  lemma HandleLocks(cfg: Config, s: RoundState, env: Env, e: Event)
    requires Begins(s) && Timely(s, e)
    ensures s.halted || LockIs(s, Handle(cfg, s, env, e), env, e)
  {
    if !s.halted {
      match e
      case TimeoutFired(_, _, _, _) => TimeoutLocks(cfg, s, env, e);
      case TxsAvailable =>
        ProposeVotes(s, env, s.height, 0);
        ProposeStep(s, env, s.height, 0);
      case ProposalArrived(_, _) =>
      case PartArrived(_, _) => PartLocks(cfg, s, env, e);
      case VoteArrived(v, peer, signed) =>
        if v.height == s.height {
          if AddedAt(s.votes, v, peer, signed) {
            if v.kind.Prevote? {
              PrevoteEventLocks(cfg, s, env, e);
            } else {
              PrecommitEventLocks(cfg, s, env, e);
            }
          }
        } else if v.height + 1 == s.height && v.kind.Precommit? && s.lastCommit.Some? {
          var s1 := s.(lastCommit := Some(AddVote(s.lastCommit.value, v, signed)));
          NewRoundVotes(s1, env, s.height, 0);
          NewRoundStep(s1, env, s.height, 0);
        }
      case Maj23Claimed(_, _, _, _, _) =>
    }
  }

  // ----- the block to fetch, and the valid block -----

  /** Precommitting on a polka for a block that the node lacks makes it ask for the block's parts. */
  lemma PrecommitFetches(s: RoundState, env: Env, round: int)
    requires !Behind(s, s.height, round, PRECOMMIT) && !EnterPrecommit(s, env, s.height, round).halted
    ensures var s', maj := EnterPrecommit(s, env, s.height, round), s.votes.Majority(round, Prevote);
      if maj.Some? && maj.value.Block? && !HashesTo(s.locked.block, maj.value) && !HashesTo(s.prop.block, maj.value)
      then s'.prop.parts == Some(maj.value.parts) && (s.prop.parts != s'.prop.parts ==> s'.prop.block == None)
      else s'.prop == s.prop
  {
  }

  /** The event is a prevote that completes a polka of the node's round for a block, newer than its valid block. */
  predicate PolkaNow(s: RoundState, e: Event) {
    && IsPrevoteEvent(e) && e.vote.height == s.height && AddedAt(s.votes, e.vote, e.peer, e.signed) && e.vote.round == s.round
    && s.valid.round < s.round && var maj := VotesAfter(s, e).Majority(s.round, Prevote); maj.Some? && maj.value.Block?
  }

  /** Such a polka makes the proposal block the valid one if it is for it; otherwise the node drops its block and asks for the right parts. */
  lemma PolkaNoted(cfg: Config, s: RoundState, env: Env, e: Event)
    requires !s.halted && Begins(s) && PolkaNow(s, e) && !Handle(cfg, s, env, e).halted
    ensures var s', id := Handle(cfg, s, env, e), VotesAfter(s, e).Majority(s.round, Prevote).value;
      && s'.prop.parts == Some(id.parts) && s'.height == s.height
      && (if s.prop.block == Some(id.hash) then s'.valid == Held(s.round, s.prop.block, s.prop.parts) else s'.valid == s.valid && s'.prop.block == None)
  {
    var s1 := s.(votes := VotesAfter(s, e));
    NotedIs(s1);
    NotedKeeps(NotePolka(ReleaseLock(s1, s.round), s.round), env, s.round);
  }

  lemma NotedIs(s: RoundState)
    requires s.valid.round < s.round && var maj := s.votes.Majority(s.round, Prevote); maj.Some? && maj.value.Block?
    ensures var s2, id := NotePolka(ReleaseLock(s, s.round), s.round), s.votes.Majority(s.round, Prevote).value;
      && s2 == s.(locked := s2.locked, valid := s2.valid, prop := s2.prop) && s2.prop.parts == Some(id.parts)
      && (if s.prop.block == Some(id.hash) then s2.valid == Held(s.round, s.prop.block, s.prop.parts) else s2.valid == s.valid && s2.prop.block == None)
  {
  }

  /** What follows a prevote of the node's round leaves the valid block alone, and the parts if they are those of its polka. */
  lemma NotedKeeps(s: RoundState, env: Env, round: int)
    requires !s.halted && s.round == round && !AfterPrevote(s, env, round).halted
    requires var maj := s.votes.Majority(round, Prevote); maj.Some? && maj.value.Block? && s.prop.parts == Some(maj.value.parts)
    ensures var s' := AfterPrevote(s, env, round); s'.valid == s.valid && s'.prop == s.prop && s'.height == s.height
  {
    if !Behind(s, s.height, round, PRECOMMIT) && !EnterPrecommit(s, env, s.height, round).halted {
      PrecommitFetches(s, env, round);
    }
  }

  /** The part that completes a block makes it the valid one exactly if the round has a polka for it, newer than the valid block. */
  lemma PartNoted(cfg: Config, s: RoundState, env: Env, hash: Hash)
    requires !s.halted && s.prop.parts.Some? && s.step != COMMIT
    ensures var s', maj := Handle(cfg, s, env, PartArrived(s.height, Complete(hash))), s.votes.Majority(s.round, Prevote);
      s'.valid == if maj.Some? && HashesTo(Some(hash), maj.value) && s.valid.round < s.round then Held(s.round, Some(hash), s.prop.parts) else s.valid
  {
    var s1 := NoteProposalPolka(s.(prop := s.prop.(block := Some(hash), completedOnce := true)));
    ProposalKeepsValid(cfg, s1, env, s.votes.Majority(s.round, Prevote).Some?);
  }

  lemma ProposalKeepsValid(cfg: Config, s: RoundState, env: Env, polka: bool)
    requires s.step != COMMIT
    ensures AfterProposal(cfg, s, env, s.height, polka).valid == s.valid
  {
  }
}
