/**
 The Tendermint round state machine as functions on values
 (consensus/state.go): one function per transition, in the order the code
 performs its writes. ConsensusState.dfy refines it with an object.
 */
module RoundStates {
  import opened VotingPower
  import opened Votes
  import opened VoteSets
  import opened HeightVoteSets

  // RoundStepType, consensus/types/round_state.go
  const NEW_HEIGHT := 1
  const NEW_ROUND := 2
  const PROPOSE := 3
  const PREVOTE := 4
  const PREVOTE_WAIT := 5
  const PRECOMMIT := 6
  const PRECOMMIT_WAIT := 7
  const COMMIT := 8

  /** The chain's first height, and the validators that follow a chain of decided blocks. */
  datatype Config = Config(initialHeight: int, vals: seq<Hash> -> ValidatorSet)

  datatype Proposal = Proposal(height: int, round: int, polRound: int, parts: PartsHeader)

  datatype Timeout = Timeout(height: int, round: int, step: int)

  /** A vote as signed, with the round the transition was deciding. */
  datatype Signed = Signed(vote: Vote, decidedFor: int)

  /** What the surroundings answer while one event is handled. */
  datatype Env = Env(
    signs: (int, int, Kind) -> bool,   // the private validator signs at (height, round, kind)
    valid: Hash -> bool,               // ValidateBlock accepts
    applied: bool,                     // ApplyBlock succeeds
    waitForTxs: bool,                  // wait for transactions, and no proof block is needed
    emptyInterval: bool,               // CreateEmptyBlocksInterval > 0
    skipTimeoutCommit: bool)

  /** LockedRound/Block/BlockParts, and likewise Valid*. */
  datatype Held = Held(round: int, block: Option<Hash>, parts: Option<PartsHeader>)

  const NOT_HELD := Held(-1, None, None)

  /** Proposal, ProposalBlock, ProposalBlockParts, and whether a block was ever completed at this height. */
  datatype Proposed = Proposed(
    proposal: Option<Proposal>, block: Option<Hash>, parts: Option<PartsHeader>, completedOnce: bool)

  datatype RoundState = RoundState(
    self: Validator,
    height: int, round: int, step: int,
    prop: Proposed, locked: Held, valid: Held,
    votes: HeightVotes, commitRound: int, lastCommit: Option<Tally>, triggered: bool,
    decided: seq<Hash>,        // blocks finalized, in order of height
    signed: seq<Signed>,       // votes signed, oldest first
    timeouts: set<Timeout>,    // timeouts ever scheduled
    halted: bool)              // the receive routine has panicked

  function PartsOf(p: Option<PartsHeader>): PartsHeader {
    if p.Some? then p.value else 0
  }

  function Schedule(s: RoundState, height: int, round: int, step: int): RoundState {
    s.(timeouts := s.timeouts + {Timeout(height, round, step)})
  }

  /** signAddVote: the vote carries the node's round, whatever round is being decided. */
  function CastVote(s: RoundState, env: Env, kind: Kind, id: BlockID, decidedFor: int): (s': RoundState)
    ensures s' == s.(signed := s'.signed)
    ensures s'.signed == s.signed
            || s'.signed == s.signed + [Signed(Vote(s.self, s.height, s.round, kind, id), decidedFor)]
  {
    if s.self in s.votes.vals.power && env.signs(s.height, s.round, kind) then
      s.(signed := s.signed + [Signed(Vote(s.self, s.height, s.round, kind, id), decidedFor)])
    else s
  }

  predicate ProposalComplete(s: RoundState) {
    && s.prop.proposal.Some? && s.prop.block.Some?
    && (s.prop.proposal.value.polRound < 0 || s.votes.Majority(s.prop.proposal.value.polRound, Prevote).Some?)
  }

  predicate Behind(s: RoundState, height: int, round: int, step: int) {
    s.halted || s.height != height || round < s.round || (s.round == round && step <= s.step)
  }

  function PrevoteChoice(s: RoundState, env: Env): BlockID {
    if s.locked.block.Some? then Block(s.locked.block.value, PartsOf(s.locked.parts))
    else if s.prop.block.None? || !env.valid(s.prop.block.value) then NilBlock
    else Block(s.prop.block.value, PartsOf(s.prop.parts))
  }

  function EnterPrevote(s: RoundState, env: Env, height: int, round: int): (s': RoundState)
    ensures s'.votes == s.votes && s'.height == s.height
  {
    if Behind(s, height, round, PREVOTE) then s
    else CastVote(s, env, Prevote, PrevoteChoice(s, env), round).(round := round, step := PREVOTE)
  }

  function EnterPropose(s: RoundState, env: Env, height: int, round: int): (s': RoundState)
    ensures s'.votes == s.votes && s'.height == s.height
  {
    if Behind(s, height, round, PROPOSE) then s else
      var s1 := Schedule(s, height, round, PROPOSE).(round := round, step := PROPOSE);
      if ProposalComplete(s1) then EnterPrevote(s1, env, height, s1.round) else s1
  }

  function StartRound(s: RoundState, round: int): (s': RoundState)
    ensures !SetRoundPanics(s.votes, round + 1) ==>
      s' == s.(round := round, step := NEW_ROUND, prop := s'.prop, votes := SetRound(s.votes, round + 1), triggered := false)
  {
    var s1 := s.(round := round, step := NEW_ROUND);
    var s2 := if round == 0 then s1 else s1.(prop := s1.prop.(proposal := None, block := None, parts := None));
    if SetRoundPanics(s2.votes, round + 1) then s2.(halted := true)
    else s2.(votes := SetRound(s2.votes, round + 1), triggered := false)
  }

  function EnterNewRound(s: RoundState, env: Env, height: int, round: int): (s': RoundState)
    ensures s'.height == s.height
    ensures forall r, k :: s'.votes.Majority(r, k) == s.votes.Majority(r, k)
  {
    if s.halted || s.height != height || round < s.round || (s.round == round && s.step != NEW_HEIGHT) then s else
      var s1 := StartRound(s, round);
      if s1.halted then s1
      else if env.waitForTxs && round == 0 then
        if env.emptyInterval then Schedule(s1, height, round, NEW_ROUND) else s1
      else EnterPropose(s1, env, height, round)
  }

  function Unlock(s: RoundState): RoundState {
    s.(locked := NOT_HELD)
  }

  /** A polka for a block: relock it, lock it if it is our valid proposal, or unlock and fetch it. */
  function PrecommitBlock(s: RoundState, env: Env, round: int, id: BlockID): (s': RoundState)
    requires id.Block?
    ensures s' == s.(locked := s'.locked, prop := s'.prop, signed := s'.signed, halted := s'.halted)
  {
    if HashesTo(s.locked.block, id) then CastVote(s.(locked := s.locked.(round := round)), env, Precommit, id, round)
    else if HashesTo(s.prop.block, id) then
      if !env.valid(s.prop.block.value) then s.(halted := true)
      else CastVote(s.(locked := Held(round, s.prop.block, s.prop.parts)), env, Precommit, id, round)
    else
      var s1 := Unlock(s);
      var s2 := if s1.prop.parts == Some(id.parts) then s1 else s1.(prop := s1.prop.(block := None, parts := Some(id.parts)));
      CastVote(s2, env, Precommit, NilBlock, round)
  }

  /** The branches of enterPrecommit: lock changes and the vote they lead to. */
  function DecidePrecommit(s: RoundState, env: Env, round: int): (s': RoundState)
    ensures s' == s.(locked := s'.locked, prop := s'.prop, signed := s'.signed, halted := s'.halted)
  {
    match s.votes.Majority(round, Prevote)
    case None => CastVote(s, env, Precommit, NilBlock, round)
    case Some(id) =>
      if PolRound(s.votes, s.votes.round) < round then s.(halted := true)
      else if id.NilBlock? then CastVote(Unlock(s), env, Precommit, NilBlock, round)
      else PrecommitBlock(s, env, round, id)
  }

  function EnterPrecommit(s: RoundState, env: Env, height: int, round: int): (s': RoundState)
    ensures s'.votes == s.votes && s'.height == s.height
  {
    if Behind(s, height, round, PRECOMMIT) then s
    else DecidePrecommit(s, env, round).(round := round, step := PRECOMMIT)
  }

  /** The fork precommits as soon as all prevotes are in without a majority, before its own guard. */
  function EnterPrevoteWait(s: RoundState, env: Env, height: int, round: int): RoundState {
    if s.halted then s else
      var s1 := if s.votes.HasAll(round, Prevote) && s.votes.Majority(round, Prevote).None?
                then EnterPrecommit(s, env, height, round) else s;
      if Behind(s1, height, round, PREVOTE_WAIT) then s1
      else if !s1.votes.TwoThirdsAny(round, Prevote) then s1.(halted := true)
      else Schedule(s1, height, round, PREVOTE_WAIT).(round := round, step := PREVOTE_WAIT)
  }

  function EnterPrecommitWait(s: RoundState, height: int, round: int): RoundState {
    if s.halted || s.height != height || round < s.round || (s.round == round && s.triggered) then s
    else if !s.votes.TwoThirdsAny(round, Precommit) then s.(halted := true)
    else Schedule(s, height, round, PRECOMMIT_WAIT).(triggered := true)
  }

  /** updateToState after the block was applied, and scheduleRound0. */
  function NextHeight(cfg: Config, s: RoundState, hash: Hash): RoundState {
    var decided := s.decided + [hash];
    var h := s.height + 1;
    RoundState(s.self, h, 0, NEW_HEIGHT, Proposed(None, None, None, false), NOT_HELD, NOT_HELD,
      NewHeightVotes(h, cfg.vals(decided)), -1,
      if s.commitRound in s.votes.rounds then Some(s.votes.rounds[s.commitRound].precommits) else None,
      false, decided, s.signed, s.timeouts + {Timeout(h, 0, NEW_HEIGHT)}, false)
  }

  function FinalizeCommit(cfg: Config, s: RoundState, env: Env, id: BlockID): RoundState
    requires id.Block?
  {
    if s.step != COMMIT then s
    else if s.prop.parts != Some(id.parts) || !env.valid(id.hash) then s.(halted := true)
    else if !env.applied then s
    else NextHeight(cfg, s, id.hash)
  }

  function TryFinalizeCommit(cfg: Config, s: RoundState, env: Env, height: int): RoundState {
    if s.halted then s
    else if s.height != height then s.(halted := true)
    else match s.votes.Majority(s.commitRound, Precommit)
      case Some(Block(hash, parts)) =>
        if s.prop.block == Some(hash) then FinalizeCommit(cfg, s, env, Block(hash, parts)) else s
      case _ => s
  }

  function AdoptCommitted(s: RoundState, id: BlockID): (s': RoundState)
    requires id.Block?
    ensures s' == s.(prop := s'.prop)
  {
    var s1 := if HashesTo(s.locked.block, id) then s.(prop := s.prop.(block := s.locked.block, parts := s.locked.parts)) else s;
    if !HashesTo(s1.prop.block, id) && s1.prop.parts != Some(id.parts) then s1.(prop := s1.prop.(block := None, parts := Some(id.parts))) else s1
  }

  function EnterCommit(cfg: Config, s: RoundState, env: Env, height: int, commitRound: int): RoundState {
    if s.halted || s.height != height || COMMIT <= s.step then s
    else match s.votes.Majority(commitRound, Precommit)
      case Some(Block(hash, parts)) =>
        TryFinalizeCommit(cfg, AdoptCommitted(s, Block(hash, parts)).(step := COMMIT, commitRound := commitRound), env, height)
      case _ => s.(step := COMMIT, commitRound := commitRound, halted := true)
  }

  // ----- events -----

  datatype PartOutcome = NotAdded | Added | CompleteUnreadable | Complete(hash: Hash)

  /** One thing receiveRoutine takes from a queue. A timeout is compared with a copy of
      the round state that may be stale: seenHeight, seenRound and seenStep. */
  datatype Event =
    | TimeoutFired(ti: Timeout, seenHeight: int, seenRound: int, seenStep: int)
    | TxsAvailable
    | ProposalArrived(p: Proposal, proposerSigned: bool)
    | PartArrived(height: int, outcome: PartOutcome)
    | VoteArrived(vote: Vote, peer: Peer, signed: bool)
    | Maj23Claimed(height: int, round: int, kind: Kind, peer: Peer, id: BlockID)

  /** The precommit timeout: precommit if that has not happened, then start the next round. */
  function OnPrecommitTimeout(s: RoundState, env: Env, height: int, round: int): RoundState {
    EnterNewRound(EnterPrecommit(s, env, height, round), env, height, round + 1)
  }

  function OnWaitTimeout(s: RoundState, env: Env, ti: Timeout): RoundState {
    if ti.step == PREVOTE_WAIT then EnterPrecommit(s, env, ti.height, ti.round)
    else if ti.step == PRECOMMIT_WAIT then OnPrecommitTimeout(s, env, ti.height, ti.round)
    else s.(halted := true)
  }

  function OnTimeout(s: RoundState, env: Env, ti: Timeout): RoundState {
    if ti.step == NEW_HEIGHT then EnterNewRound(s, env, ti.height, 0)
    else if ti.step == NEW_ROUND then EnterPropose(s, env, ti.height, 0)
    else if ti.step == PROPOSE then EnterPrevote(s, env, ti.height, ti.round)
    else OnWaitTimeout(s, env, ti)
  }

  /** The timeout is relevant to the copy of the round state taken before the queues were read. */
  predicate TimeoutRelevant(ti: Timeout, seenHeight: int, seenRound: int, seenStep: int) {
    !(ti.height != seenHeight || ti.round < seenRound || (ti.round == seenRound && ti.step < seenStep))
  }

  function HandleTimeout(s: RoundState, env: Env, ti: Timeout, h: int, r: int, st: int): RoundState {
    if s.halted || !TimeoutRelevant(ti, h, r, st) then s else OnTimeout(s, env, ti)
  }

  function HandleTxsAvailable(s: RoundState, env: Env): RoundState {
    if s.halted || s.round != 0 then s
    else if s.step == NEW_HEIGHT then if env.waitForTxs then Schedule(s, s.height, 0, NEW_ROUND) else s
    else if s.step == NEW_ROUND then EnterPropose(s, env, s.height, 0)
    else s
  }

  function SetProposal(s: RoundState, p: Proposal, proposerSigned: bool): RoundState {
    if s.halted || s.prop.proposal.Some? || p.height != s.height || p.round != s.round then s
    else if p.polRound < -1 || (p.polRound >= 0 && p.polRound >= p.round) || !proposerSigned then s
    else s.(prop := s.prop.(proposal := Some(p), parts := if s.prop.parts.None? then Some(p.parts) else s.prop.parts))
  }

  function UpdateValid(s: RoundState): RoundState {
    s.(valid := Held(s.round, s.prop.block, s.prop.parts))
  }

  /** The proposal block becomes the valid block if the round has a polka for it. */
  function NoteProposalPolka(s: RoundState): RoundState {
    var maj := s.votes.Majority(s.round, Prevote);
    if maj.Some? && s.valid.round < s.round && HashesTo(s.prop.block, maj.value) then UpdateValid(s) else s
  }

  function AfterProposal(cfg: Config, s: RoundState, env: Env, height: int, polka: bool): RoundState {
    if s.step <= PROPOSE && ProposalComplete(s) then
      var s1 := EnterPrevote(s, env, height, s.round);
      if polka then EnterPrecommit(s1, env, height, s1.round) else s1
    else if s.step == COMMIT then TryFinalizeCommit(cfg, s, env, height)
    else s
  }

  function HandleCompleteProposal(cfg: Config, s: RoundState, env: Env, height: int): RoundState {
    AfterProposal(cfg, NoteProposalPolka(s), env, height, s.votes.Majority(s.round, Prevote).Some?)
  }

  function HandlePart(cfg: Config, s: RoundState, env: Env, height: int, outcome: PartOutcome): RoundState {
    if s.halted || s.height != height || s.prop.parts.None? then s
    else match outcome
      case NotAdded => s
      case Added => s
      case CompleteUnreadable =>
        if !s.prop.completedOnce && s.prop.block.None? then s.(prop := s.prop.(completedOnce := true), halted := true)
        else HandleCompleteProposal(cfg, s.(prop := s.prop.(completedOnce := true)), env, height)
      case Complete(hash) =>
        HandleCompleteProposal(cfg, s.(prop := s.prop.(block := Some(hash), completedOnce := true)), env, height)
  }

  /** A late precommit of the previous height, while the commit timeout runs. */
  function HandleLastCommitVote(s: RoundState, env: Env, v: Vote, signed: bool): RoundState {
    if s.step != NEW_HEIGHT then s
    else if s.lastCommit.None? then s.(halted := true)
    else if !VoteSets.Added(s.lastCommit.value, v, signed) then
      s.(lastCommit := Some(AddVote(s.lastCommit.value, v, signed)))
    else
      var s1 := s.(lastCommit := Some(AddVote(s.lastCommit.value, v, signed)));
      if env.skipTimeoutCommit && s1.lastCommit.value.HasAll() then EnterNewRound(s1, env, s1.height, 0) else s1
  }

  /** A polka releases a lock on another block taken in an earlier round. */
  function ReleaseLock(s: RoundState, round: int): RoundState {
    var maj := s.votes.Majority(round, Prevote);
    if maj.Some? && s.locked.block.Some? && s.locked.round < round <= s.round && !HashesTo(s.locked.block, maj.value)
    then Unlock(s) else s
  }

  /** A polka of the current round makes our proposal block valid, or tells us which block to fetch. */
  function NotePolka(s: RoundState, round: int): RoundState {
    match s.votes.Majority(round, Prevote)
    case Some(Block(hash, parts)) =>
      if s.valid.round < round && round == s.round then
        var s1 := if s.prop.block == Some(hash) then UpdateValid(s) else s.(prop := s.prop.(block := None));
        if s1.prop.parts == Some(parts) then s1 else s1.(prop := s1.prop.(parts := Some(parts)))
      else s
    case _ => s
  }

  function AfterPrevote(s: RoundState, env: Env, round: int): RoundState {
    if s.round < round && s.votes.TwoThirdsAny(round, Prevote) then EnterNewRound(s, env, s.height, round)
    else if s.round == round && PREVOTE <= s.step then
      var maj := s.votes.Majority(round, Prevote);
      if maj.Some? && (ProposalComplete(s) || maj.value.NilBlock?) then EnterPrecommit(s, env, s.height, round)
      else if s.votes.TwoThirdsAny(round, Prevote) then EnterPrevoteWait(s, env, s.height, round)
      else s
    else if s.prop.proposal.Some? && 0 <= s.prop.proposal.value.polRound && s.prop.proposal.value.polRound == round && ProposalComplete(s)
    then EnterPrevote(s, env, s.height, s.round)
    else s
  }

  function AfterPrecommit(cfg: Config, s: RoundState, env: Env, round: int): RoundState {
    match s.votes.Majority(round, Precommit)
    case Some(id) =>
      var s1 := EnterPrecommit(EnterNewRound(s, env, s.height, round), env, s.height, round);
      if id.Block? then
        var s2 := EnterCommit(cfg, s1, env, s.height, round);
        if env.skipTimeoutCommit && s.votes.HasAll(round, Precommit) then EnterNewRound(s2, env, s2.height, 0) else s2
      else EnterPrecommitWait(s1, s.height, round)
    case None =>
      if s.round <= round && s.votes.TwoThirdsAny(round, Precommit) then
        EnterPrecommitWait(EnterNewRound(s, env, s.height, round), s.height, round)
      else s
  }

  function HandleVote(cfg: Config, s: RoundState, env: Env, v: Vote, peer: Peer, signed: bool): RoundState {
    if s.halted then s
    else if v.height + 1 == s.height && v.kind.Precommit? then HandleLastCommitVote(s, env, v, signed)
    else if v.height != s.height then s
    else
      var s1 := s.(votes := AddVoteAt(s.votes, v, peer, signed));
      if !AddedAt(s.votes, v, peer, signed) then s1
      else if v.kind.Prevote? then AfterPrevote(NotePolka(ReleaseLock(s1, v.round), v.round), env, v.round)
      else AfterPrecommit(cfg, s1, env, v.round)
  }

  /** The reactor passes on a peer's claim; it only changes which conflicting votes are kept. */
  function HandleClaim(s: RoundState, height: int, round: int, kind: Kind, peer: Peer, id: BlockID): RoundState {
    if s.halted || s.height != height then s else s.(votes := ClaimMaj23(s.votes, round, kind, peer, id))
  }

  function Handle(cfg: Config, s: RoundState, env: Env, e: Event): RoundState {
    match e
    case TimeoutFired(ti, h, r, st) => HandleTimeout(s, env, ti, h, r, st)
    case TxsAvailable => HandleTxsAvailable(s, env)
    case ProposalArrived(p, ok) => SetProposal(s, p, ok)
    case PartArrived(h, outcome) => HandlePart(cfg, s, env, h, outcome)
    case VoteArrived(v, peer, signed) => HandleVote(cfg, s, env, v, peer, signed)
    case Maj23Claimed(h, r, kind, peer, id) => HandleClaim(s, h, r, kind, peer, id)
  }

  /** The state built by NewState for a chain that has decided nothing. */
  function InitialState(cfg: Config, self: Validator): RoundState {
    RoundState(self, cfg.initialHeight, 0, NEW_HEIGHT, Proposed(None, None, None, false), NOT_HELD, NOT_HELD,
      NewHeightVotes(cfg.initialHeight, cfg.vals([])), -1, None, false, [], [],
      {Timeout(cfg.initialHeight, 0, NEW_HEIGHT)}, false)
  }
}
