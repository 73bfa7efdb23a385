/**
 Every event a correct Tendermint node handles keeps its invariant.
 */
module NodeSteps {
  import opened VotingPower
  import opened Votes
  import opened VoteSets
  import opened HeightVoteSets
  import opened RoundStates
  import opened NodeInvariant

  /** Timeouts were scheduled by the node; a vote verifies only if it was signed. */
  ghost predicate Possible(log: seq<Vote>, s: RoundState, e: Event) {
    match e
    case TimeoutFired(ti, _, _, _) => ti in s.timeouts
    case VoteArrived(v, _, signed) => signed ==> v in log
    case _ => true
  }

  lemma HandleTimeoutGood(cfg: Config, log: seq<Vote>, s: RoundState, env: Env, ti: Timeout, h: int, r: int, st: int)
    requires Inv(cfg, log, s) && ti in s.timeouts
    ensures Good(cfg, log, s, HandleTimeout(s, env, ti, h, r, st))
  {
    HaltGood(cfg, log, s);
    OnTimeoutGood(cfg, log, s, env, ti);
  }

  lemma OnTimeoutGood(cfg: Config, log: seq<Vote>, s: RoundState, env: Env, ti: Timeout)
    requires Inv(cfg, log, s) && (ti.height == s.height ==> ti.round <= s.round)
    ensures Good(cfg, log, s, OnTimeout(s, env, ti))
  {
    if ti.step == NEW_HEIGHT {
      EnterNewRoundGood(cfg, log, s, env, ti.height, 0);
    } else if ti.step == NEW_ROUND {
      EnterProposeGood(cfg, log, s, env, ti.height, 0);
    } else if ti.step == PROPOSE {
      EnterPrevoteGood(cfg, log, s, env, ti.height, ti.round);
    } else {
      OnWaitTimeoutGood(cfg, log, s, env, ti);
    }
  }

  lemma OnWaitTimeoutGood(cfg: Config, log: seq<Vote>, s: RoundState, env: Env, ti: Timeout)
    requires Inv(cfg, log, s) && (ti.height == s.height ==> ti.round <= s.round)
    ensures Good(cfg, log, s, OnWaitTimeout(s, env, ti))
  {
    if ti.step == PREVOTE_WAIT {
      EnterPrecommitGood(cfg, log, s, env, ti.height, ti.round);
    } else if ti.step == PRECOMMIT_WAIT {
      OnPrecommitTimeoutGood(cfg, log, s, env, ti.height, ti.round);
    } else {
      HaltGood(cfg, log, s);
    }
  }

  lemma OnPrecommitTimeoutGood(cfg: Config, log: seq<Vote>, s: RoundState, env: Env, height: int, round: int)
    requires Inv(cfg, log, s) && (height == s.height ==> round <= s.round)
    ensures Good(cfg, log, s, OnPrecommitTimeout(s, env, height, round))
  {
    var s1 := EnterPrecommit(s, env, height, round);
    EnterPrecommitGood(cfg, log, s, env, height, round);
    EnterNewRoundGood(cfg, log, s1, env, height, round + 1);
    Chain(cfg, log, s, s1, EnterNewRound(s1, env, height, round + 1));
  }

  lemma HandleTxsAvailableGood(cfg: Config, log: seq<Vote>, s: RoundState, env: Env)
    requires Inv(cfg, log, s)
    ensures Good(cfg, log, s, HandleTxsAvailable(s, env))
  {
    HaltGood(cfg, log, s);
    if s.round == 0 {
      Soft(cfg, log, s, Schedule(s, s.height, 0, NEW_ROUND));
      EnterProposeGood(cfg, log, s, env, s.height, 0);
    }
  }

  lemma SetProposalGood(cfg: Config, log: seq<Vote>, s: RoundState, p: Proposal, ok: bool)
    requires Inv(cfg, log, s)
    ensures Good(cfg, log, s, SetProposal(s, p, ok))
  {
    Quiet(cfg, log, s, SetProposal(s, p, ok));
  }

  /** The current round's polka for our block makes it the valid block. */
  lemma UpdateValidGood(cfg: Config, log: seq<Vote>, s: RoundState, id: BlockID)
    requires Inv(cfg, log, s) && s.valid.round < s.round && HashesTo(s.prop.block, id)
    requires Polka(cfg, log, s.decided, s.height, s.round, id)
    ensures Good(cfg, log, s, UpdateValid(s))
  {
    var s' := UpdateValid(s);
    if s.locked.block.Some? {
      assert Keeps(cfg, log, s', s.locked.block.value, s.locked.round);
    }
    Carry(cfg, log, s, s');
  }

  lemma PrevoteThenPrecommitGood(cfg: Config, log: seq<Vote>, s: RoundState, env: Env, height: int)
    requires Inv(cfg, log, s) && s.height == height
    ensures var s2 := EnterPrevote(s, env, height, s.round);
      Good(cfg, log, s, s2) && Good(cfg, log, s, EnterPrecommit(s2, env, height, s2.round))
  {
    var s2 := EnterPrevote(s, env, height, s.round);
    EnterPrevoteGood(cfg, log, s, env, height, s.round);
    EnterPrecommitGood(cfg, log, s2, env, height, s2.round);
    Chain(cfg, log, s, s2, EnterPrecommit(s2, env, height, s2.round));
  }

  lemma NoteProposalPolkaGood(cfg: Config, log: seq<Vote>, s: RoundState)
    requires Inv(cfg, log, s)
    ensures Good(cfg, log, s, NoteProposalPolka(s)) && NoteProposalPolka(s).height == s.height
  {
    HaltGood(cfg, log, s);
    var maj := s.votes.Majority(s.round, Prevote);
    if maj.Some? && s.valid.round < s.round && HashesTo(s.prop.block, maj.value) {
      SeenPolka(cfg, log, s, s.round);
      UpdateValidGood(cfg, log, s, maj.value);
    }
  }

  lemma AfterProposalGood(cfg: Config, log: seq<Vote>, s: RoundState, env: Env, height: int, polka: bool)
    requires Inv(cfg, log, s) && s.height == height
    ensures Good(cfg, log, s, AfterProposal(cfg, s, env, height, polka))
  {
    HaltGood(cfg, log, s);
    if s.step <= PROPOSE && ProposalComplete(s) {
      PrevoteThenPrecommitGood(cfg, log, s, env, height);
    } else if s.step == COMMIT {
      TryFinalizeGood(cfg, log, s, env, height);
    }
  }

  lemma HandleCompleteProposalGood(cfg: Config, log: seq<Vote>, s: RoundState, env: Env, height: int)
    requires Inv(cfg, log, s) && s.height == height
    ensures Good(cfg, log, s, HandleCompleteProposal(cfg, s, env, height))
  {
    var s1 := NoteProposalPolka(s);
    NoteProposalPolkaGood(cfg, log, s);
    AfterProposalGood(cfg, log, s1, env, height, s.votes.Majority(s.round, Prevote).Some?);
    Chain(cfg, log, s, s1, HandleCompleteProposal(cfg, s, env, height));
  }

  lemma CompletedGood(cfg: Config, log: seq<Vote>, s: RoundState, prop: Proposed, env: Env, height: int)
    requires Inv(cfg, log, s) && s.height == height
    ensures Good(cfg, log, s, HandleCompleteProposal(cfg, s.(prop := prop), env, height))
  {
    Quiet(cfg, log, s, s.(prop := prop));
    HandleCompleteProposalGood(cfg, log, s.(prop := prop), env, height);
    Chain(cfg, log, s, s.(prop := prop), HandleCompleteProposal(cfg, s.(prop := prop), env, height));
  }

  lemma HandlePartGood(cfg: Config, log: seq<Vote>, s: RoundState, env: Env, height: int, outcome: PartOutcome)
    requires Inv(cfg, log, s)
    ensures Good(cfg, log, s, HandlePart(cfg, s, env, height, outcome))
  {
    if s.halted || s.height != height || s.prop.parts.None? || outcome.NotAdded? || outcome.Added? {
      HaltGood(cfg, log, s);
    } else if outcome.Complete? {
      CompletedGood(cfg, log, s, s.prop.(block := Some(outcome.hash), completedOnce := true), env, height);
    } else if !s.prop.completedOnce && s.prop.block.None? {
      Quiet(cfg, log, s, s.(prop := s.prop.(completedOnce := true), halted := true));
    } else {
      CompletedGood(cfg, log, s, s.prop.(completedOnce := true), env, height);
    }
  }

  lemma HandleLastCommitVoteGood(cfg: Config, log: seq<Vote>, s: RoundState, env: Env, v: Vote, signed: bool)
    requires Inv(cfg, log, s)
    ensures Good(cfg, log, s, HandleLastCommitVote(s, env, v, signed))
  {
    HaltGood(cfg, log, s);
    if s.lastCommit.Some? {
      var s1 := s.(lastCommit := Some(AddVote(s.lastCommit.value, v, signed)));
      Quiet(cfg, log, s, s1);
      EnterNewRoundGood(cfg, log, s1, env, s1.height, 0);
      Chain(cfg, log, s, s1, EnterNewRound(s1, env, s1.height, 0));
    }
  }

  lemma AddVoteGood(cfg: Config, log: seq<Vote>, s: RoundState, v: Vote, peer: Peer, signed: bool)
    requires Inv(cfg, log, s) && (signed ==> v in log)
    ensures Good(cfg, log, s, s.(votes := AddVoteAt(s.votes, v, peer, signed)))
  {
    AddVoteAtKeeps(s.votes, v, peer, signed, log);
    Soft(cfg, log, s, s.(votes := AddVoteAt(s.votes, v, peer, signed)));
  }

  lemma ReleaseLockGood(cfg: Config, log: seq<Vote>, s: RoundState, round: int)
    requires Inv(cfg, log, s)
    ensures Good(cfg, log, s, ReleaseLock(s, round))
  {
    HaltGood(cfg, log, s);
    if ReleaseLock(s, round) != s {
      SeenPolka(cfg, log, s, round);
      assert OtherPolka(cfg, log, s.decided, s.height, s.locked.round, s.round, s.locked.block.value);
      Carry(cfg, log, s, Unlock(s));
    }
  }

  lemma NotePolkaGood(cfg: Config, log: seq<Vote>, s: RoundState, round: int)
    requires Inv(cfg, log, s)
    ensures Good(cfg, log, s, NotePolka(s, round))
  {
    HaltGood(cfg, log, s);
    match s.votes.Majority(round, Prevote)
    case Some(Block(hash, parts)) =>
      if s.valid.round < round && round == s.round {
        SeenPolka(cfg, log, s, round);
        if s.prop.block == Some(hash) {
          UpdateValidGood(cfg, log, s, Block(hash, parts));
          FetchPartsGood(cfg, log, s, UpdateValid(s), parts);
        } else {
          Quiet(cfg, log, s, s.(prop := s.prop.(block := None)));
          FetchPartsGood(cfg, log, s, s.(prop := s.prop.(block := None)), parts);
        }
      }
    case _ =>
  }

  lemma FetchPartsGood(cfg: Config, log: seq<Vote>, s: RoundState, s1: RoundState, parts: PartsHeader)
    requires Good(cfg, log, s, s1)
    ensures Good(cfg, log, s, s1.(prop := s1.prop.(parts := Some(parts))))
  {
    Quiet(cfg, log, s1, s1.(prop := s1.prop.(parts := Some(parts))));
    Chain(cfg, log, s, s1, s1.(prop := s1.prop.(parts := Some(parts))));
  }

  lemma AfterPrevoteGood(cfg: Config, log: seq<Vote>, s: RoundState, env: Env, round: int)
    requires Inv(cfg, log, s)
    ensures Good(cfg, log, s, AfterPrevote(s, env, round))
  {
    if s.round < round && s.votes.TwoThirdsAny(round, Prevote) {
      EnterNewRoundGood(cfg, log, s, env, s.height, round);
    } else if s.round == round && PREVOTE <= s.step {
      PolkaOrWaitGood(cfg, log, s, env);
    } else {
      HaltGood(cfg, log, s);
      EnterPrevoteGood(cfg, log, s, env, s.height, s.round);
    }
  }

  lemma PolkaOrWaitGood(cfg: Config, log: seq<Vote>, s: RoundState, env: Env)
    requires Inv(cfg, log, s) && PREVOTE <= s.step
    ensures Good(cfg, log, s, AfterPrevote(s, env, s.round))
  {
    var maj := s.votes.Majority(s.round, Prevote);
    if maj.Some? && (ProposalComplete(s) || maj.value.NilBlock?) {
      EnterPrecommitGood(cfg, log, s, env, s.height, s.round);
    } else if s.votes.TwoThirdsAny(s.round, Prevote) {
      EnterPrevoteWaitGood(cfg, log, s, env, s.height, s.round);
    } else {
      HaltGood(cfg, log, s);
    }
  }

  /** Nothing moves a node that has halted. */
  lemma HaltedStays(cfg: Config, s: RoundState, env: Env, e: Event)
    requires s.halted
    ensures Handle(cfg, s, env, e) == s
  {
  }

  lemma AfterPrecommitGood(cfg: Config, log: seq<Vote>, s: RoundState, env: Env, round: int)
    requires Inv(cfg, log, s) && !s.halted
    ensures Good(cfg, log, s, AfterPrecommit(cfg, s, env, round))
  {
    if s.votes.Majority(round, Precommit).Some? {
      PrecommitMajorityGood(cfg, log, s, env, round);
    } else if s.round <= round && s.votes.TwoThirdsAny(round, Precommit) {
      var n := EnterNewRound(s, env, s.height, round);
      EnterNewRoundGood(cfg, log, s, env, s.height, round);
      EnterPrecommitWaitGood(cfg, log, n, s.height, round);
      Chain(cfg, log, s, n, EnterPrecommitWait(n, s.height, round));
    } else {
      HaltGood(cfg, log, s);
    }
  }

  /** Catching up to the round of a precommit majority. */
  lemma CatchUpGood(cfg: Config, log: seq<Vote>, s: RoundState, env: Env, round: int)
    requires Inv(cfg, log, s) && !s.halted
    ensures var s1 := EnterPrecommit(EnterNewRound(s, env, s.height, round), env, s.height, round);
      Good(cfg, log, s, s1) && round <= s1.round
  {
    var n := EnterNewRound(s, env, s.height, round);
    EnterNewRoundGood(cfg, log, s, env, s.height, round);
    EnterPrecommitGood(cfg, log, n, env, s.height, round);
    Chain(cfg, log, s, n, EnterPrecommit(n, env, s.height, round));
  }

  lemma PrecommitMajorityGood(cfg: Config, log: seq<Vote>, s: RoundState, env: Env, round: int)
    requires Inv(cfg, log, s) && !s.halted && s.votes.Majority(round, Precommit).Some?
    ensures Good(cfg, log, s, AfterPrecommit(cfg, s, env, round))
  {
    CatchUpGood(cfg, log, s, env, round);
    var s1 := EnterPrecommit(EnterNewRound(s, env, s.height, round), env, s.height, round);
    CommitOrWaitGood(cfg, log, s1, env, s.height, round);
    if s.votes.Majority(round, Precommit).value.Block? {
      var s2 := EnterCommit(cfg, s1, env, s.height, round);
      Chain(cfg, log, s, s1, s2);
      EnterNewRoundGood(cfg, log, s2, env, s2.height, 0);
      Chain(cfg, log, s, s2, EnterNewRound(s2, env, s2.height, 0));
    } else {
      Chain(cfg, log, s, s1, EnterPrecommitWait(s1, s.height, round));
    }
  }

  lemma CommitOrWaitGood(cfg: Config, log: seq<Vote>, s: RoundState, env: Env, height: int, round: int)
    requires Inv(cfg, log, s) && s.votes.Majority(round, Precommit).Some? && s.height == height && round <= s.round
    ensures if s.votes.Majority(round, Precommit).value.Block?
      then Good(cfg, log, s, EnterCommit(cfg, s, env, height, round))
      else Good(cfg, log, s, EnterPrecommitWait(s, height, round))
  {
    if s.votes.Majority(round, Precommit).value.Block? {
      EnterCommitGood(cfg, log, s, env, height, round);
    } else {
      EnterPrecommitWaitGood(cfg, log, s, height, round);
    }
  }

  lemma PrevoteAddedGood(cfg: Config, log: seq<Vote>, s: RoundState, env: Env, round: int)
    requires Inv(cfg, log, s)
    ensures Good(cfg, log, s, AfterPrevote(NotePolka(ReleaseLock(s, round), round), env, round))
  {
    var s2 := ReleaseLock(s, round);
    ReleaseLockGood(cfg, log, s, round);
    var s3 := NotePolka(s2, round);
    NotePolkaGood(cfg, log, s2, round);
    Chain(cfg, log, s, s2, s3);
    AfterPrevoteGood(cfg, log, s3, env, round);
    Chain(cfg, log, s, s3, AfterPrevote(s3, env, round));
  }

  lemma HandleVoteGood(cfg: Config, log: seq<Vote>, s: RoundState, env: Env, v: Vote, peer: Peer, signed: bool)
    requires Inv(cfg, log, s) && (signed ==> v in log)
    ensures Good(cfg, log, s, HandleVote(cfg, s, env, v, peer, signed))
  {
    if s.halted || v.height != s.height {
      HaltGood(cfg, log, s);
      HandleLastCommitVoteGood(cfg, log, s, env, v, signed);
    } else {
      var s1 := s.(votes := AddVoteAt(s.votes, v, peer, signed));
      AddVoteGood(cfg, log, s, v, peer, signed);
      if AddedAt(s.votes, v, peer, signed) {
        if v.kind.Prevote? {
          PrevoteAddedGood(cfg, log, s1, env, v.round);
        } else {
          AfterPrecommitGood(cfg, log, s1, env, v.round);
        }
        Chain(cfg, log, s, s1, HandleVote(cfg, s, env, v, peer, signed));
      }
    }
  }

  lemma HandleClaimGood(cfg: Config, log: seq<Vote>, s: RoundState, height: int, round: int, kind: Kind, peer: Peer, id: BlockID)
    requires Inv(cfg, log, s)
    ensures Good(cfg, log, s, HandleClaim(s, height, round, kind, peer, id))
  {
    HaltGood(cfg, log, s);
    ClaimMaj23Keeps(s.votes, round, kind, peer, id, log);
    Soft(cfg, log, s, s.(votes := ClaimMaj23(s.votes, round, kind, peer, id)));
  }

  /** Any event, with any answers of the surroundings, keeps the invariant and moves the node forward. */
  lemma HandleGood(cfg: Config, log: seq<Vote>, s: RoundState, env: Env, e: Event)
    requires Inv(cfg, log, s) && Possible(log, s, e)
    ensures Good(cfg, log, s, Handle(cfg, s, env, e))
  {
    match e
    case TimeoutFired(ti, h, r, st) => HandleTimeoutGood(cfg, log, s, env, ti, h, r, st);
    case TxsAvailable => HandleTxsAvailableGood(cfg, log, s, env);
    case ProposalArrived(p, ok) => SetProposalGood(cfg, log, s, p, ok);
    case PartArrived(h, outcome) => HandlePartGood(cfg, log, s, env, h, outcome);
    case VoteArrived(v, peer, signed) => HandleVoteGood(cfg, log, s, env, v, peer, signed);
    case Maj23Claimed(h, r, kind, peer, id) => HandleClaimGood(cfg, log, s, h, r, kind, peer, id);
  }
}
