/**
 The consensus State object (consensus/state.go): its round state is a set of
 fields that the transitions overwrite one by one, some of them only after the
 vote is signed. Each method is proved to perform the corresponding transition
 of RoundStates, and Receive to keep the node invariant.
 */
module ConsensusStates {
  import opened VotingPower
  import opened Votes
  import opened VoteSets
  import opened HeightVoteSets
  import opened RoundStates
  import opened NodeInvariant
  import opened NodeSteps

  class ConsensusState {
    const cfg: Config
    const self: Validator
    var height: int
    var round: int
    var step: int
    var prop: Proposed
    var locked: Held
    var valid: Held
    var votes: HeightVotes
    var commitRound: int
    var lastCommit: Option<Tally>
    var triggered: bool
    var decided: seq<Hash>
    var signed: seq<Signed>
    var timeouts: set<Timeout>
    var halted: bool

    ghost function View(): RoundState
      reads this
    {
      RoundState(self, height, round, step, prop, locked, valid,
        votes, commitRound, lastCommit, triggered, decided, signed, timeouts, halted)
    }

    constructor (cfg: Config, self: Validator)
      ensures this.cfg == cfg && View() == InitialState(cfg, self)
    {
      this.cfg, this.self := cfg, self;
      height, round, step := cfg.initialHeight, 0, NEW_HEIGHT;
      prop, locked, valid := Proposed(None, None, None, false), NOT_HELD, NOT_HELD;
      votes := NewHeightVotes(cfg.initialHeight, cfg.vals([]));
      commitRound, lastCommit, triggered := -1, None, false;
      decided, signed, halted := [], [], false;
      timeouts := {Timeout(cfg.initialHeight, 0, NEW_HEIGHT)};
    }

    method UpdateRoundStep(r: int, st: int)
      modifies this
      ensures View() == old(View()).(round := r, step := st)
    {
      round := r;
      step := st;
    }

    method ScheduleTimeout(h: int, r: int, st: int)
      modifies this
      ensures View() == Schedule(old(View()), h, r, st)
    {
      timeouts := timeouts + {Timeout(h, r, st)};
    }

    method SignAddVote(env: Env, kind: Kind, id: BlockID, decidedFor: int)
      modifies this
      ensures View() == CastVote(old(View()), env, kind, id, decidedFor)
    {
      if self !in votes.vals.power || !env.signs(height, round, kind) {
        return;
      }
      var vote := Vote(self, height, round, kind, id);
      signed := signed + [Signed(vote, decidedFor)];
    }

    method IsProposalComplete() returns (ok: bool)
      ensures ok == ProposalComplete(View())
    {
      if prop.proposal.None? || prop.block.None? {
        return false;
      }
      if prop.proposal.value.polRound < 0 {
        return true;
      }
      return votes.Majority(prop.proposal.value.polRound, Prevote).Some?;
    }

    method DoPrevote(env: Env, r: int)
      modifies this
      ensures View() == CastVote(old(View()), env, Prevote, PrevoteChoice(old(View()), env), r)
    {
      if locked.block.Some? {
        SignAddVote(env, Prevote, Block(locked.block.value, PartsOf(locked.parts)), r);
        return;
      }
      if prop.block.None? {
        SignAddVote(env, Prevote, NilBlock, r);
        return;
      }
      if !env.valid(prop.block.value) {
        SignAddVote(env, Prevote, NilBlock, r);
        return;
      }
      SignAddVote(env, Prevote, Block(prop.block.value, PartsOf(prop.parts)), r);
    }

    method DoEnterPrevote(env: Env, h: int, r: int)
      modifies this
      ensures View() == EnterPrevote(old(View()), env, h, r)
    {
      if halted || height != h || r < round || (round == r && PREVOTE <= step) {
        return;
      }
      DoPrevote(env, r);
      UpdateRoundStep(r, PREVOTE);
    }

    method DoEnterPropose(env: Env, h: int, r: int)
      modifies this
      ensures View() == EnterPropose(old(View()), env, h, r)
    {
      if halted || height != h || r < round || (round == r && PROPOSE <= step) {
        return;
      }
      ScheduleTimeout(h, r, PROPOSE);
      UpdateRoundStep(r, PROPOSE);
      var complete := IsProposalComplete();
      if complete {
        DoEnterPrevote(env, h, round);
      }
    }

    method DoStartRound(r: int)
      modifies this
      ensures View() == StartRound(old(View()), r)
    {
      round := r;
      step := NEW_ROUND;
      if r != 0 {
        prop := prop.(proposal := None, block := None, parts := None);
      }
      if SetRoundPanics(votes, r + 1) {
        halted := true;
        return;
      }
      votes := SetRound(votes, r + 1);
      triggered := false;
    }

    method DoEnterNewRound(env: Env, h: int, r: int)
      modifies this
      ensures View() == EnterNewRound(old(View()), env, h, r)
    {
      if halted || height != h || r < round || (round == r && step != NEW_HEIGHT) {
        return;
      }
      DoStartRound(r);
      if halted {
        return;
      }
      if env.waitForTxs && r == 0 {
        if env.emptyInterval {
          ScheduleTimeout(h, r, NEW_ROUND);
        }
      } else {
        DoEnterPropose(env, h, r);
      }
    }

    method DoUnlock()
      modifies this
      ensures View() == Unlock(old(View()))
    {
      locked := NOT_HELD;
    }

    /** POLInfo's downward search. */
    method PolInfo() returns (r: int)
      ensures r == PolRound(votes, votes.round)
    {
      r := votes.round;
      while 0 <= r && votes.Majority(r, Prevote).None?
        invariant -1 <= r || r == votes.round
        invariant PolRound(votes, r) == PolRound(votes, votes.round)
      {
        r := r - 1;
      }
      if r < 0 {
        r := -1;
      }
    }

    method LockOrFetch(env: Env, r: int, id: BlockID)
      requires id.Block?
      modifies this
      ensures View() == PrecommitBlock(old(View()), env, r, id)
    {
      var choice := id;
      if HashesTo(locked.block, id) {
        locked := locked.(round := r);
      } else if HashesTo(prop.block, id) {
        if !env.valid(prop.block.value) {
          halted := true;
          return;
        }
        locked := Held(r, prop.block, prop.parts);
      } else {
        locked := NOT_HELD;
        if prop.parts != Some(id.parts) {
          prop := prop.(block := None, parts := Some(id.parts));
        }
        choice := NilBlock;
      }
      SignAddVote(env, Precommit, choice, r);
    }

    method LockOrRelease(env: Env, r: int)
      modifies this
      ensures View() == DecidePrecommit(old(View()), env, r)
    {
      var maj := votes.Majority(r, Prevote);
      if maj.None? {
        SignAddVote(env, Precommit, NilBlock, r);
        return;
      }
      var pol := PolInfo();
      if pol < r {
        halted := true;
        return;
      }
      if maj.value.NilBlock? {
        DoUnlock();
        SignAddVote(env, Precommit, NilBlock, r);
      } else {
        LockOrFetch(env, r, maj.value);
      }
    }

    method DoEnterPrecommit(env: Env, h: int, r: int)
      modifies this
      ensures View() == EnterPrecommit(old(View()), env, h, r)
    {
      if halted || height != h || r < round || (round == r && PRECOMMIT <= step) {
        return;
      }
      LockOrRelease(env, r);
      UpdateRoundStep(r, PRECOMMIT);
    }

    method DoEnterPrevoteWait(env: Env, h: int, r: int)
      modifies this
      ensures View() == EnterPrevoteWait(old(View()), env, h, r)
    {
      if halted {
        return;
      }
      if votes.HasAll(r, Prevote) && votes.Majority(r, Prevote).None? {
        DoEnterPrecommit(env, h, r);
      }
      if halted || height != h || r < round || (round == r && PREVOTE_WAIT <= step) {
        return;
      }
      if !votes.TwoThirdsAny(r, Prevote) {
        halted := true;
        return;
      }
      ScheduleTimeout(h, r, PREVOTE_WAIT);
      UpdateRoundStep(r, PREVOTE_WAIT);
    }

    method DoEnterPrecommitWait(h: int, r: int)
      modifies this
      ensures View() == EnterPrecommitWait(old(View()), h, r)
    {
      if halted || height != h || r < round || (round == r && triggered) {
        return;
      }
      if !votes.TwoThirdsAny(r, Precommit) {
        halted := true;
        return;
      }
      ScheduleTimeout(h, r, PRECOMMIT_WAIT);
      triggered := true;
    }

    method ResetRoundState()
      modifies this
      ensures View() == old(View()).(round := 0, step := NEW_HEIGHT, prop := Proposed(None, None, None, false),
                                     locked := NOT_HELD, valid := NOT_HELD, triggered := false, halted := false)
    {
      round := 0;
      step := NEW_HEIGHT;
      prop := Proposed(None, None, None, false);
      locked := NOT_HELD;
      valid := NOT_HELD;
      triggered := false;
      halted := false;
    }

    /** updateToState and scheduleRound0 after a block was applied. */
    method KeepLastCommit()
      modifies `lastCommit
      ensures lastCommit == if commitRound in votes.rounds then Some(votes.rounds[commitRound].precommits) else None
    {
      if commitRound in votes.rounds {
        lastCommit := Some(votes.rounds[commitRound].precommits);
      } else {
        lastCommit := None;
      }
    }

    method EnterHeight(hash: Hash)
      modifies `height, `decided, `votes, `commitRound, `timeouts
      ensures height == old(height) + 1 && decided == old(decided) + [hash] && commitRound == -1
      ensures votes == NewHeightVotes(height, cfg.vals(decided)) && timeouts == old(timeouts) + {Timeout(height, 0, NEW_HEIGHT)}
    {
      height := height + 1;
      decided := decided + [hash];
      votes := NewHeightVotes(height, cfg.vals(decided));
      commitRound := -1;
      timeouts := timeouts + {Timeout(height, 0, NEW_HEIGHT)};
    }

    method UpdateToState(hash: Hash)
      modifies this
      ensures View() == NextHeight(cfg, old(View()), hash)
    {
      KeepLastCommit();
      EnterHeight(hash);
      ResetRoundState();
    }

    method DoFinalizeCommit(env: Env, id: BlockID)
      requires id.Block?
      modifies this
      ensures View() == FinalizeCommit(cfg, old(View()), env, id)
    {
      if step != COMMIT {
        return;
      }
      if prop.parts != Some(id.parts) || !env.valid(id.hash) {
        halted := true;
        return;
      }
      if !env.applied {
        return;
      }
      UpdateToState(id.hash);
    }

    method DoTryFinalizeCommit(env: Env, h: int)
      modifies this
      ensures View() == TryFinalizeCommit(cfg, old(View()), env, h)
    {
      if halted {
        return;
      }
      if height != h {
        halted := true;
        return;
      }
      var maj := votes.Majority(commitRound, Precommit);
      if maj.None? || maj.value.NilBlock? {
        return;
      }
      if !HashesTo(prop.block, maj.value) {
        return;
      }
      DoFinalizeCommit(env, maj.value);
    }

    method Adopt(id: BlockID)
      requires id.Block?
      modifies this
      ensures View() == AdoptCommitted(old(View()), id)
    {
      if HashesTo(locked.block, id) {
        prop := prop.(block := locked.block, parts := locked.parts);
      }
      if !HashesTo(prop.block, id) {
        if prop.parts != Some(id.parts) {
          prop := prop.(block := None, parts := Some(id.parts));
        }
      }
    }

    method DoEnterCommit(env: Env, h: int, cr: int)
      modifies this
      ensures View() == EnterCommit(cfg, old(View()), env, h, cr)
    {
      if halted || height != h || COMMIT <= step {
        return;
      }
      var maj := votes.Majority(cr, Precommit);
      if maj.None? || maj.value.NilBlock? {
        step, commitRound, halted := COMMIT, cr, true;
        return;
      }
      Adopt(maj.value);
      step := COMMIT;
      commitRound := cr;
      DoTryFinalizeCommit(env, h);
    }

    method DoHandleTimeout(env: Env, ti: Timeout, seenHeight: int, seenRound: int, seenStep: int)
      modifies this
      ensures View() == HandleTimeout(old(View()), env, ti, seenHeight, seenRound, seenStep)
    {
      if halted || ti.height != seenHeight || ti.round < seenRound || (ti.round == seenRound && ti.step < seenStep) {
        return;
      }
      if ti.step == NEW_HEIGHT {
        DoEnterNewRound(env, ti.height, 0);
      } else if ti.step == NEW_ROUND {
        DoEnterPropose(env, ti.height, 0);
      } else if ti.step == PROPOSE {
        DoEnterPrevote(env, ti.height, ti.round);
      } else {
        DoOnWaitTimeout(env, ti);
      }
    }

    method DoOnWaitTimeout(env: Env, ti: Timeout)
      modifies this
      ensures View() == OnWaitTimeout(old(View()), env, ti)
    {
      if ti.step == PREVOTE_WAIT {
        DoEnterPrecommit(env, ti.height, ti.round);
      } else if ti.step == PRECOMMIT_WAIT {
        DoEnterPrecommit(env, ti.height, ti.round);
        DoEnterNewRound(env, ti.height, ti.round + 1);
      } else {
        halted := true;
      }
    }

    method DoHandleTxsAvailable(env: Env)
      modifies this
      ensures View() == HandleTxsAvailable(old(View()), env)
    {
      if halted || round != 0 {
        return;
      }
      if step == NEW_HEIGHT {
        if env.waitForTxs {
          ScheduleTimeout(height, 0, NEW_ROUND);
        }
      } else if step == NEW_ROUND {
        DoEnterPropose(env, height, 0);
      }
    }

    method DoSetProposal(p: Proposal, proposerSigned: bool)
      modifies this
      ensures View() == SetProposal(old(View()), p, proposerSigned)
    {
      if halted || prop.proposal.Some? || p.height != height || p.round != round {
        return;
      }
      if p.polRound < -1 || (p.polRound >= 0 && p.polRound >= p.round) {
        return;
      }
      if !proposerSigned {
        return;
      }
      prop := prop.(proposal := Some(p));
      if prop.parts.None? {
        prop := prop.(parts := Some(p.parts));
      }
    }

    method DoUpdateValid()
      modifies this
      ensures View() == UpdateValid(old(View()))
    {
      valid := Held(round, prop.block, prop.parts);
    }

    method DoHandleCompleteProposal(env: Env, h: int)
      modifies this
      ensures View() == HandleCompleteProposal(cfg, old(View()), env, h)
    {
      var maj := votes.Majority(round, Prevote);
      if maj.Some? && !maj.value.NilBlock? && valid.round < round {
        if HashesTo(prop.block, maj.value) {
          DoUpdateValid();
        }
      }
      var complete := IsProposalComplete();
      if step <= PROPOSE && complete {
        DoEnterPrevote(env, h, round);
        if maj.Some? {
          DoEnterPrecommit(env, h, round);
        }
      } else if step == COMMIT {
        DoTryFinalizeCommit(env, h);
      }
    }

    method DoHandlePart(env: Env, h: int, outcome: PartOutcome)
      modifies this
      ensures View() == HandlePart(cfg, old(View()), env, h, outcome)
    {
      if halted || height != h || prop.parts.None? {
        return;
      }
      if outcome.NotAdded? || outcome.Added? {
        return;
      }
      if outcome.Complete? {
        prop := prop.(block := Some(outcome.hash));
      }
      if !prop.completedOnce {
        prop := prop.(completedOnce := true);
        if prop.block.None? {
          halted := true;
          return;
        }
      }
      DoHandleCompleteProposal(env, h);
    }

    method DoHandleLastCommitVote(env: Env, v: Vote, ok: bool)
      modifies this
      ensures View() == HandleLastCommitVote(old(View()), env, v, ok)
    {
      if step != NEW_HEIGHT {
        return;
      }
      if lastCommit.None? {
        halted := true;
        return;
      }
      var added := VoteSets.Added(lastCommit.value, v, ok);
      lastCommit := Some(AddVote(lastCommit.value, v, ok));
      if !added {
        return;
      }
      if env.skipTimeoutCommit && lastCommit.value.HasAll() {
        DoEnterNewRound(env, height, 0);
      }
    }

    method DoReleaseLock(r: int)
      modifies this
      ensures View() == ReleaseLock(old(View()), r)
    {
      var maj := votes.Majority(r, Prevote);
      if maj.Some? && locked.block.Some? && locked.round < r && r <= round && !HashesTo(locked.block, maj.value) {
        DoUnlock();
      }
    }

    method DoNotePolka(r: int)
      modifies this
      ensures View() == NotePolka(old(View()), r)
    {
      var maj := votes.Majority(r, Prevote);
      if maj.Some? && maj.value.Block? && valid.round < r && r == round {
        if HashesTo(prop.block, maj.value) {
          DoUpdateValid();
        } else {
          prop := prop.(block := None);
        }
        if prop.parts != Some(maj.value.parts) {
          prop := prop.(parts := Some(maj.value.parts));
        }
      }
    }

    method DoAfterPrevote(env: Env, r: int)
      modifies this
      ensures View() == AfterPrevote(old(View()), env, r)
    {
      var h := height;
      var complete := IsProposalComplete();
      if round < r && votes.TwoThirdsAny(r, Prevote) {
        DoEnterNewRound(env, h, r);
      } else if round == r && PREVOTE <= step {
        var maj := votes.Majority(r, Prevote);
        if maj.Some? && (complete || maj.value.NilBlock?) {
          DoEnterPrecommit(env, h, r);
        } else if votes.TwoThirdsAny(r, Prevote) {
          DoEnterPrevoteWait(env, h, r);
        }
      } else if prop.proposal.Some? && 0 <= prop.proposal.value.polRound && prop.proposal.value.polRound == r {
        if complete {
          DoEnterPrevote(env, h, round);
        }
      }
    }

    method DoAfterPrecommit(env: Env, r: int)
      modifies this
      ensures View() == AfterPrecommit(cfg, old(View()), env, r)
    {
      var h := height;
      var maj := votes.Majority(r, Precommit);
      var all := votes.HasAll(r, Precommit);
      if maj.Some? {
        DoEnterNewRound(env, h, r);
        DoEnterPrecommit(env, h, r);
        if maj.value.Block? {
          DoEnterCommit(env, h, r);
          if env.skipTimeoutCommit && all {
            DoEnterNewRound(env, height, 0);
          }
        } else {
          DoEnterPrecommitWait(h, r);
        }
      } else if round <= r && votes.TwoThirdsAny(r, Precommit) {
        DoEnterNewRound(env, h, r);
        DoEnterPrecommitWait(h, r);
      }
    }

    method DoHandleVote(env: Env, v: Vote, peer: Peer, ok: bool)
      modifies this
      ensures View() == HandleVote(cfg, old(View()), env, v, peer, ok)
    {
      if halted {
        return;
      }
      if v.height + 1 == height && v.kind.Precommit? {
        DoHandleLastCommitVote(env, v, ok);
        return;
      }
      if v.height != height {
        return;
      }
      var added := AddedAt(votes, v, peer, ok);
      votes := AddVoteAt(votes, v, peer, ok);
      if !added {
        return;
      }
      if v.kind.Prevote? {
        DoReleaseLock(v.round);
        DoNotePolka(v.round);
        DoAfterPrevote(env, v.round);
      } else {
        DoAfterPrecommit(env, v.round);
      }
    }

    method DoHandleClaim(h: int, r: int, kind: Kind, peer: Peer, id: BlockID)
      modifies this
      ensures View() == HandleClaim(old(View()), h, r, kind, peer, id)
    {
      if halted || height != h {
        return;
      }
      votes := ClaimMaj23(votes, r, kind, peer, id);
    }

    /** One turn of receiveRoutine. */
    method Receive(env: Env, e: Event, ghost log: seq<Vote>)
      requires Inv(cfg, log, View()) && Possible(log, View(), e)
      modifies this
      ensures View() == Handle(cfg, old(View()), env, e)
      ensures Inv(cfg, log, View()) && Grows(cfg, log, old(View()), View())
    {
      HandleGood(cfg, log, View(), env, e);
      match e
      case TimeoutFired(ti, h, r, st) => DoHandleTimeout(env, ti, h, r, st);
      case TxsAvailable => DoHandleTxsAvailable(env);
      case ProposalArrived(p, ok) => DoSetProposal(p, ok);
      case PartArrived(h, outcome) => DoHandlePart(env, h, outcome);
      case VoteArrived(v, peer, ok) => DoHandleVote(env, v, peer, ok);
      case Maj23Claimed(h, r, kind, peer, id) => DoHandleClaim(h, r, kind, peer, id);
    }
  }
}
