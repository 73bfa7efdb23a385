/**
 When a correct node finalizes a block, exactly, and what moves a node on: for
 every state and every event.
 */
module NodeDecisions {
  import opened VotingPower
  import opened Votes
  import opened VoteSets
  import opened HeightVoteSets
  import opened RoundStates
  import opened NodeSteps
  import opened NodeVotes

  // ----- what a decision rests on -----

  /** The node has the block with its parts: locked, or as the proposal. */
  predicate HoldsBlock(lock: Held, prop: Proposed, id: BlockID) {
    id.Block? && ((lock.block == Some(id.hash) && lock.parts == Some(id.parts)) || (prop.block == Some(id.hash) && prop.parts == Some(id.parts)))
  }

  /** id has a precommit majority in some round, was held, is valid and was applied. */
  ghost predicate Warranted(s: RoundState, env: Env, e: Event, id: BlockID) {
    && (exists r :: VotesAfter(s, e).Majority(r, Precommit) == Some(id))
    && HoldsBlock(s.locked, PropAfter(s, e), id) && env.valid(id.hash) && env.applied
  }

  /** The last commit that the node keeps is of id. */
  predicate LastCommitIs(s: RoundState, id: BlockID) {
    s.lastCommit.Some? && s.lastCommit.value.maj23 == Some(id)
  }

  /** The decisions stay as they are, or the next one is warranted and its precommits are kept. */
  ghost predicate DecidesWell(s: RoundState, s': RoundState, env: Env, e: Event) {
    s'.decided == s.decided ||
    (s'.height == s.height + 1 && exists id :: Warranted(s, env, e, id) && s'.decided == s.decided + [id.hash] && LastCommitIs(s', id))
  }

  lemma FinalizeIs(cfg: Config, s: RoundState, env: Env, height: int)
    ensures var s', maj := TryFinalizeCommit(cfg, s, env, height), s.votes.Majority(s.commitRound, Precommit);
      if !s.halted && s.height == height && s.step == COMMIT && maj.Some? && maj.value.Block? && s.prop.block == Some(maj.value.hash) &&
        s.prop.parts == Some(maj.value.parts) && env.valid(maj.value.hash) && env.applied
      then s'.decided == s.decided + [maj.value.hash] && s'.height == s.height + 1 && LastCommitIs(s', maj.value)
      else s' == s.(halted := s'.halted)
  {
  }

  /** Entering a round or precommitting gets the node no block that it did not hold. */
  lemma HeldBefore(s: RoundState, env: Env, round: int, id: BlockID)
    requires !s.halted && Begins(s)
    ensures var n := EnterNewRound(s, env, s.height, round);
      var p := EnterPrecommit(n, env, s.height, round);
      && (HoldsBlock(p.locked, p.prop, id) ==> HoldsBlock(s.locked, s.prop, id))
      && p.decided == s.decided && p.height == s.height && (forall r :: p.votes.Majority(r, Precommit) == s.votes.Majority(r, Precommit))
  {
    var n := EnterNewRound(s, env, s.height, round);
    NewRoundVotes(s, env, s.height, round);
    if !n.halted && !Behind(n, s.height, round, PRECOMMIT) && !EnterPrecommit(n, env, s.height, round).halted {
      var x := PrecommitIs(n, env, s.height, round);
      PrecommitProp(n, env, s.height, round);
    } else if !n.halted {
      HaltedPrecommit(n, env, s.height, round);
    }
  }

  lemma PrecommitProp(s: RoundState, env: Env, height: int, round: int)
    ensures var p := EnterPrecommit(s, env, height, round); p.prop == s.prop || p.prop.block == None
  {
  }

  lemma HaltedPrecommit(s: RoundState, env: Env, height: int, round: int)
    requires !s.halted && (Behind(s, height, round, PRECOMMIT) || EnterPrecommit(s, env, height, round).halted)
    ensures var p := EnterPrecommit(s, env, height, round);
      p.locked == s.locked && p.prop == s.prop && p.decided == s.decided && p.votes == s.votes && p.height == s.height
  {
  }

  /** The locked block counts before the proposal. */
  predicate Adopts(lock: Held, prop: Proposed, id: BlockID)
    requires id.Block?
  {
    if lock.block == Some(id.hash) then lock.parts == Some(id.parts) else prop.block == Some(id.hash) && prop.parts == Some(id.parts)
  }

  /** The node is committing id and, unless applying it failed, does not have it and asks for its parts. */
  predicate Waits(s: RoundState, height: int, votes: HeightVotes, round: int, id: BlockID, applied: bool)
    requires id.Block?
  {
    && s.height == height && s.step == COMMIT && s.commitRound == round && s.votes == votes
    && (!s.halted && applied ==> s.prop.block != Some(id.hash) && s.prop.parts == Some(id.parts))
  }

  /** What EnterCommit does, from a node that has not committed yet. */
  lemma CommitIs(cfg: Config, s: RoundState, env: Env, height: int, round: int)
    requires !s.halted && s.height == height && s.step < COMMIT
    requires s.votes.Majority(round, Precommit).Some? && s.votes.Majority(round, Precommit).value.Block?
    ensures var s', id := EnterCommit(cfg, s, env, height, round), s.votes.Majority(round, Precommit).value;
      if Adopts(s.locked, s.prop, id) && env.valid(id.hash) && env.applied
      then s'.decided == s.decided + [id.hash] && s'.height == s.height + 1 && LastCommitIs(s', id)
      else s'.decided == s.decided && Waits(s', s.height, s.votes, round, id, env.applied)
  {
    var id := s.votes.Majority(round, Precommit).value;
    FinalizeIs(cfg, AdoptCommitted(s, id).(step := COMMIT, commitRound := round), env, height);
  }

  // ----- events -----

  /** A precommit event: the node after it has caught up with the round. */
  function CaughtUp(s: RoundState, env: Env, e: Event): RoundState
    requires e.VoteArrived?
  {
    EnterPrecommit(EnterNewRound(s.(votes := VotesAfter(s, e)), env, s.height, e.vote.round), env, s.height, e.vote.round)
  }

  lemma LateRoundKeeps(s: RoundState, env: Env, height: int, round: int)
    ensures var s' := EnterNewRound(s, env, height, round);
      s'.decided == s.decided && s'.height == s.height && s'.lastCommit == s.lastCommit && (s.step == COMMIT && s.height == height && round <= s.round ==> s' == s)
  {
  }

  /** Once the node has caught up, a majority for a block is what its decision depends on. */
  lemma AfterMajority(cfg: Config, s: RoundState, env: Env, round: int)
    requires s.votes.Majority(round, Precommit).Some? && s.votes.Majority(round, Precommit).value.Block?
    ensures var s' := AfterPrecommit(cfg, s, env, round);
      var c := EnterCommit(cfg, EnterPrecommit(EnterNewRound(s, env, s.height, round), env, s.height, round), env, s.height, round);
      s'.decided == c.decided && s'.height == c.height && s'.lastCommit == c.lastCommit
  {
    var c := EnterCommit(cfg, EnterPrecommit(EnterNewRound(s, env, s.height, round), env, s.height, round), env, s.height, round);
    LateRoundKeeps(c, env, c.height, 0);
  }

  lemma WithoutMajority(cfg: Config, s: RoundState, env: Env, round: int)
    requires !(s.votes.Majority(round, Precommit).Some? && s.votes.Majority(round, Precommit).value.Block?)
    ensures AfterPrecommit(cfg, s, env, round).decided == s.decided
  {
    var n := EnterNewRound(s, env, s.height, round);
    LateRoundKeeps(s, env, s.height, round);
    if s.votes.Majority(round, Precommit).Some? {
      PrevoteKeeps(n, env, s.height, round);
      WaitKeeps(EnterPrecommit(n, env, s.height, round), s.height, round);
    } else {
      WaitKeeps(n, s.height, round);
    }
  }

  lemma WaitKeeps(s: RoundState, height: int, round: int)
    ensures EnterPrecommitWait(s, height, round).decided == s.decided
  {
  }

  lemma PrecommitEventDecides(cfg: Config, s: RoundState, env: Env, e: Event)
    requires !s.halted && Begins(s) && e.VoteArrived? && e.vote.kind.Precommit? && e.vote.height == s.height
    ensures DecidesWell(s, AfterPrecommit(cfg, s.(votes := VotesAfter(s, e)), env, e.vote.round), env, e)
  {
    var s1, round, p := s.(votes := VotesAfter(s, e)), e.vote.round, CaughtUp(s, env, e);
    var maj := s1.votes.Majority(round, Precommit);
    if maj.Some? && maj.value.Block? {
      HeldBefore(s1, env, round, maj.value);
      AfterMajority(cfg, s1, env, round);
      if !p.halted && p.step < COMMIT {
        CommitIs(cfg, p, env, s.height, round);
        if EnterCommit(cfg, p, env, s.height, round).decided != s.decided {
          assert Warranted(s, env, e, maj.value);
        }
      }
    } else {
      WithoutMajority(cfg, s1, env, round);
    }
  }

  lemma PrevoteKeeps(s: RoundState, env: Env, height: int, round: int)
    ensures EnterPrevote(s, env, height, round).decided == s.decided && EnterPrecommit(s, env, height, round).decided == s.decided
    ensures EnterPropose(s, env, height, round).decided == s.decided
  {
  }

  /** What follows a completed proposal, as far as decisions go. */
  lemma AfterProposalDecides(cfg: Config, s: RoundState, env: Env, polka: bool)
    ensures AfterProposal(cfg, s, env, s.height, polka).decided ==
      (if s.step == COMMIT then TryFinalizeCommit(cfg, s, env, s.height).decided else s.decided)
    ensures s.step == COMMIT ==> AfterProposal(cfg, s, env, s.height, polka) == TryFinalizeCommit(cfg, s, env, s.height)
  {
    PrevoteKeeps(s, env, s.height, s.round);
    var s1 := EnterPrevote(s, env, s.height, s.round);
    PrevoteKeeps(s1, env, s.height, s1.round);
  }

  lemma PartDecides(cfg: Config, s: RoundState, env: Env, e: Event)
    requires !s.halted && e.PartArrived?
    ensures DecidesWell(s, Handle(cfg, s, env, e), env, e)
  {
    if e.height == s.height && s.prop.parts.Some? && (e.outcome.Complete? || e.outcome.CompleteUnreadable?) {
      var prop := if e.outcome.Complete? then s.prop.(block := Some(e.outcome.hash), completedOnce := true) else s.prop.(completedOnce := true);
      var s1 := NoteProposalPolka(s.(prop := prop));
      AfterProposalDecides(cfg, s1, env, s.votes.Majority(s.round, Prevote).Some?);
      FinalizeIs(cfg, s1, env, s.height);
      if Handle(cfg, s, env, e).decided != s.decided {
        assert VotesAfter(s, e).Majority(s.commitRound, Precommit).Some?;
        assert Warranted(s, env, e, s.votes.Majority(s.commitRound, Precommit).value);
      }
    }
  }

  lemma TimeoutDecides(cfg: Config, s: RoundState, env: Env, ti: Timeout)
    ensures OnTimeout(s, env, ti).decided == s.decided
  {
    if ti.step == NEW_HEIGHT {
      LateRoundKeeps(s, env, ti.height, 0);
    } else if ti.step == NEW_ROUND {
      PrevoteKeeps(s, env, ti.height, 0);
    } else {
      PrevoteKeeps(s, env, ti.height, ti.round);
      if ti.step == PRECOMMIT_WAIT {
        PrecommitTimeoutDecides(s, env, ti.height, ti.round);
      }
    }
  }

  lemma PrecommitTimeoutDecides(s: RoundState, env: Env, height: int, round: int)
    ensures OnPrecommitTimeout(s, env, height, round).decided == s.decided
  {
    PrevoteKeeps(s, env, height, round);
    LateRoundKeeps(EnterPrecommit(s, env, height, round), env, height, round + 1);
  }

  lemma PrevoteEventDecides(s: RoundState, env: Env, round: int)
    ensures AfterPrevote(s, env, round).decided == s.decided
  {
    LateRoundKeeps(s, env, s.height, round);
    PrevoteKeeps(s, env, s.height, round);
    PrevoteKeeps(s, env, s.height, s.round);
  }

  lemma QuietDecides(cfg: Config, s: RoundState, env: Env, e: Event)
    requires !s.halted && !e.PartArrived? && !(e.VoteArrived? && e.vote.kind.Precommit?)
    ensures Handle(cfg, s, env, e).decided == s.decided
  {
    match e
    case TimeoutFired(ti, _, _, _) => TimeoutDecides(cfg, s, env, ti);
    case TxsAvailable => PrevoteKeeps(s, env, s.height, 0);
    case VoteArrived(v, _, _) =>
      var s1 := s.(votes := VotesAfter(s, e));
      NotedHas(s1, env, v.round);
      PrevoteEventDecides(NotePolka(ReleaseLock(s1, v.round), v.round), env, v.round);
    case _ =>
  }

  /**
   A node decides at most one block in an event, and only one that has a precommit majority
   of its height, that the node holds with the parts the majority is for, that validates
   and that was applied.
   */
  lemma HandleDecidesWell(cfg: Config, s: RoundState, env: Env, e: Event)
    requires Begins(s)
    ensures DecidesWell(s, Handle(cfg, s, env, e), env, e)
  {
    if s.halted {
      HaltedStays(cfg, s, env, e);
    } else if e.PartArrived? {
      PartDecides(cfg, s, env, e);
    } else if e.VoteArrived? && e.vote.kind.Precommit? {
      if e.vote.height == s.height {
        PrecommitEventDecides(cfg, s, env, e);
      } else if s.lastCommit.Some? {
        LateRoundKeeps(s.(lastCommit := Some(AddVote(s.lastCommit.value, e.vote, e.signed))), env, s.height, 0);
      }
    } else {
      QuietDecides(cfg, s, env, e);
    }
  }

  lemma LastDiffers(decided: seq<Hash>, a: Hash, b: Hash)
    ensures decided + [a] == decided + [b] <==> a == b
    ensures decided != decided + [a]
  {
    assert (decided + [a])[|decided|] == a && (decided + [b])[|decided|] == b;
  }

  /** The part that completes a block, while the node is committing: it decides exactly the block it was waiting for. */
  lemma PartDecidesIff(cfg: Config, s: RoundState, env: Env, hash: Hash, h: Hash)
    requires !s.halted && s.step == COMMIT && s.prop.parts.Some?
    ensures Handle(cfg, s, env, PartArrived(s.height, Complete(hash))).decided == s.decided + [h] <==>
      s.votes.Majority(s.commitRound, Precommit) == Some(Block(h, s.prop.parts.value)) && hash == h && env.valid(h) && env.applied
  {
    var s1 := NoteProposalPolka(s.(prop := s.prop.(block := Some(hash), completedOnce := true)));
    AfterProposalDecides(cfg, s1, env, s.votes.Majority(s.round, Prevote).Some?);
    FinalizeIs(cfg, s1, env, s.height);
    LastDiffers(s.decided, h, hash);
  }

  /** A precommit that arrives after the node has precommitted in its round: the node decides exactly the block with the majority, if it has it. */
  lemma VoteDecidesIff(cfg: Config, s: RoundState, env: Env, e: Event, h: Hash)
    requires !s.halted && Begins(s) && s.step < COMMIT && e.VoteArrived? && e.vote.kind.Precommit? && e.vote.height == s.height
    requires AddedAt(s.votes, e.vote, e.peer, e.signed)
    requires e.vote.round < s.round || (e.vote.round == s.round && PRECOMMIT <= s.step)
    ensures Handle(cfg, s, env, e).decided == s.decided + [h] <==>
      (var maj := VotesAfter(s, e).Majority(e.vote.round, Precommit);
       maj.Some? && maj.value.Block? && maj.value.hash == h && Adopts(s.locked, s.prop, maj.value) && env.valid(h) && env.applied)
  {
    var s1, round := s.(votes := VotesAfter(s, e)), e.vote.round;
    var maj := s1.votes.Majority(round, Precommit);
    StaysInRound(s1, env, round);
    LastDiffers(s.decided, h, h);
    if maj.Some? && maj.value.Block? {
      CommitIs(cfg, s1, env, s.height, round);
      var c := EnterCommit(cfg, s1, env, s.height, round);
      LateRoundKeeps(c, env, c.height, 0);
      LastDiffers(s.decided, h, maj.value.hash);
      assert Handle(cfg, s, env, e).decided == c.decided;
    }
  }

  /** A node that has precommitted in the round, or is past it, has nothing to catch up with. */
  lemma StaysInRound(s: RoundState, env: Env, round: int)
    requires round < s.round || (round == s.round && PRECOMMIT <= s.step)
    ensures EnterNewRound(s, env, s.height, round) == s && EnterPrecommit(s, env, s.height, round) == s
  {
  }

  lemma CaughtUpStep(s: RoundState, env: Env, e: Event)
    requires s.step < COMMIT && e.VoteArrived?
    ensures CaughtUp(s, env, e).step < COMMIT
  {
  }

  /** The node decides id, or is committing it without having it, and asks for its parts. */
  ghost predicate Commits(s: RoundState, s': RoundState, round: int, id: BlockID, applied: bool)
    requires id.Block?
  {
    s'.decided == s.decided + [id.hash] ||
    (s'.height == s.height && s'.step == COMMIT && s'.commitRound == round && (applied ==> s'.prop.block != Some(id.hash) && s'.prop.parts == Some(id.parts)))
  }

  lemma CommitCommits(cfg: Config, p: RoundState, env: Env, round: int)
    requires !p.halted && p.step < COMMIT && 0 <= p.round
    requires p.votes.Majority(round, Precommit).Some? && p.votes.Majority(round, Precommit).value.Block?
    ensures var c, id := EnterCommit(cfg, p, env, p.height, round), p.votes.Majority(round, Precommit).value;
      && (c.halted || Commits(p, c, round, id, env.applied))
      && (var n := EnterNewRound(c, env, c.height, 0); n.halted || Commits(p, n, round, id, env.applied))
  {
    CommitIs(cfg, p, env, p.height, round);
    CommitKeepsRound(cfg, p, env, round);
    CommittedStays(EnterCommit(cfg, p, env, p.height, round), env);
  }

  lemma CommitKeepsRound(cfg: Config, p: RoundState, env: Env, round: int)
    ensures var c := EnterCommit(cfg, p, env, p.height, round); c.height == p.height ==> c.round == p.round
  {
  }

  /** The next round 0 that a full commit may start leaves a committing node alone, and keeps decisions. */
  lemma CommittedStays(c: RoundState, env: Env)
    ensures var s' := EnterNewRound(c, env, c.height, 0); s'.decided == c.decided && (c.step == COMMIT && 0 <= c.round ==> s' == c)
  {
  }

  /** A precommit majority for a block always takes the node to commit: it decides, or waits for the block it does not have. */
  lemma MajorityCommits(cfg: Config, s: RoundState, env: Env, e: Event)
    requires !s.halted && Begins(s) && s.step < COMMIT && e.VoteArrived? && e.vote.kind.Precommit? && e.vote.height == s.height
    requires AddedAt(s.votes, e.vote, e.peer, e.signed)
    requires var maj := VotesAfter(s, e).Majority(e.vote.round, Precommit); maj.Some? && maj.value.Block?
    ensures var s', id := Handle(cfg, s, env, e), VotesAfter(s, e).Majority(e.vote.round, Precommit).value;
      s'.halted || Commits(s, s', e.vote.round, id, env.applied)
  {
    var s1, round, p := s.(votes := VotesAfter(s, e)), e.vote.round, CaughtUp(s, env, e);
    HeldBefore(s1, env, round, s1.votes.Majority(round, Precommit).value);
    CaughtUpFits(s, env, e);
    CaughtUpStep(s, env, e);
    if !p.halted {
      CommitCommits(cfg, p, env, round);
    }
  }
}
