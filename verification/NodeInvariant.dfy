/**
 What every transition of a correct Tendermint node keeps: its votes are ordered
 and justified, and its locks are released only by later polkas.
 */
module NodeInvariant {
  import opened VotingPower
  import opened Votes
  import opened VoteSets
  import opened HeightVoteSets
  import opened RoundStates

  /** Two thirds of the validators that follow `chain` prevoted id at (h, r). */
  ghost predicate Polka(cfg: Config, log: seq<Vote>, chain: seq<Hash>, h: int, r: int, id: BlockID) {
    TwoThirds(cfg.vals(chain), Signers(log, h, r, Prevote, id))
  }

  ghost predicate CommitQuorum(cfg: Config, log: seq<Vote>, chain: seq<Hash>, h: int, r: int, id: BlockID) {
    TwoThirds(cfg.vals(chain), Signers(log, h, r, Precommit, id))
  }

  /** Some round in (lo, hi] has a polka for nil or for a block other than `hash`. */
  ghost predicate OtherPolka(cfg: Config, log: seq<Vote>, chain: seq<Hash>, h: int, lo: int, hi: int, hash: Hash) {
    exists r, id :: lo < r <= hi && Polka(cfg, log, chain, h, r, id) && !HashesTo(Some(hash), id)
  }

  /** The node is locked on `hash` since round r or later, or a later polka has released it. */
  ghost predicate Keeps(cfg: Config, log: seq<Vote>, s: RoundState, hash: Hash, r: int) {
    || (s.locked.block == Some(hash) && s.locked.round >= r)
    || OtherPolka(cfg, log, s.decided, s.height, r, s.round, hash)
  }

  predicate Before(v: Vote, w: Vote) {
    || v.height < w.height
    || (v.height == w.height && v.round < w.round)
    || (v.height == w.height && v.round == w.round && v.kind.Prevote? && w.kind.Precommit?)
  }

  function StepOf(kind: Kind): int {
    if kind.Prevote? then PREVOTE else PRECOMMIT
  }

  /** The node has passed the step at which v is signed. */
  predicate Reached(s: RoundState, v: Vote) {
    || v.height < s.height
    || (v.height == s.height && v.round < s.round)
    || (v.height == s.height && v.round == s.round && StepOf(v.kind) <= s.step)
  }

  /** (height, round, step) of s is not after that of s'. */
  predicate NotAfter(s: RoundState, s': RoundState) {
    || s.height < s'.height
    || (s.height == s'.height && s.round < s'.round)
    || (s.height == s'.height && s.round == s'.round && s.step <= s'.step)
  }

  ghost predicate Shape(cfg: Config, log: seq<Vote>, s: RoundState) {
    && s.height == cfg.initialHeight + |s.decided|
    && 0 <= s.round <= s.votes.round <= s.round + 1
    && NEW_HEIGHT <= s.step <= COMMIT
    && s.votes.height == s.height && s.votes.vals == cfg.vals(s.decided)
    && ValidVotes(s.votes, log)
    && (forall t :: t in s.timeouts ==> t.height < s.height || (t.height == s.height && t.round <= s.round))
  }

  ghost predicate HasPolka(cfg: Config, log: seq<Vote>, chain: seq<Hash>, h: int, r: int, hash: Hash) {
    exists id :: HashesTo(Some(hash), id) && Polka(cfg, log, chain, h, r, id)
  }

  ghost predicate LockOk(cfg: Config, log: seq<Vote>, s: RoundState) {
    if s.locked.block.None? then s.locked.round == -1
    else
      && 0 <= s.locked.round <= s.round
      && (s.locked.round == s.round ==> PRECOMMIT <= s.step)
      && HasPolka(cfg, log, s.decided, s.height, s.locked.round, s.locked.block.value)
  }

  ghost predicate ValidOk(cfg: Config, log: seq<Vote>, s: RoundState) {
    if s.valid.block.None? then s.valid.round == -1
    else
      && 0 <= s.valid.round <= s.round
      && HasPolka(cfg, log, s.decided, s.height, s.valid.round, s.valid.block.value)
  }

  /** Votes are signed in order, each for the round the node was in. */
  ghost predicate Ordered(cfg: Config, s: RoundState) {
    && (forall i :: 0 <= i < |s.signed| ==>
          && s.signed[i].vote.val == s.self
          && s.signed[i].decidedFor == s.signed[i].vote.round
          && cfg.initialHeight <= s.signed[i].vote.height
          && Reached(s, s.signed[i].vote))
    && (forall i, j :: 0 <= i < j < |s.signed| ==> Before(s.signed[i].vote, s.signed[j].vote))
  }

  /** The blocks decided before height h. */
  ghost function ChainAt(cfg: Config, s: RoundState, h: int): seq<Hash> {
    if 0 <= h - cfg.initialHeight <= |s.decided| then s.decided[..h - cfg.initialHeight] else s.decided
  }

  /** A precommit for a block has a polka for it behind it. */
  ghost predicate PrecommitJustified(cfg: Config, log: seq<Vote>, s: RoundState, v: Vote) {
    v.kind.Precommit? && v.id.Block? ==> Polka(cfg, log, ChainAt(cfg, s, v.height), v.height, v.round, v.id)
  }

  /** A prevote that departs from an earlier precommit has a polka in between to show. */
  ghost predicate PrevoteFollows(cfg: Config, log: seq<Vote>, s: RoundState, v: Vote, pc: Vote) {
    v.kind.Prevote? && pc.kind.Precommit? && pc.id.Block? && v.height == pc.height && pc.round < v.round
    && !HashesTo(Some(pc.id.hash), v.id)
    ==> OtherPolka(cfg, log, ChainAt(cfg, s, v.height), v.height, pc.round, v.round, pc.id.hash)
  }

  ghost predicate Justified(cfg: Config, log: seq<Vote>, s: RoundState) {
    && (forall i :: 0 <= i < |s.signed| ==> PrecommitJustified(cfg, log, s, s.signed[i].vote))
    && (forall i, j :: 0 <= i < |s.signed| && 0 <= j < |s.signed| ==>
          PrevoteFollows(cfg, log, s, s.signed[i].vote, s.signed[j].vote))
  }

  /** Precommits of the current height are still locked, or rightly released. */
  ghost predicate LocksKept(cfg: Config, log: seq<Vote>, s: RoundState) {
    forall i :: 0 <= i < |s.signed| ==>
      var v := s.signed[i].vote;
      v.kind.Precommit? && v.id.Block? && v.height == s.height ==> Keeps(cfg, log, s, v.id.hash, v.round)
  }

  ghost predicate Finalized(cfg: Config, log: seq<Vote>, chain: seq<Hash>, h: int, hash: Hash) {
    exists r, id :: CommitQuorum(cfg, log, chain, h, r, id) && HashesTo(Some(hash), id)
  }

  ghost predicate DecidedOk(cfg: Config, log: seq<Vote>, s: RoundState) {
    forall k :: 0 <= k < |s.decided| ==>
      Finalized(cfg, log, s.decided[..k], cfg.initialHeight + k, s.decided[k])
  }

  ghost predicate Inv(cfg: Config, log: seq<Vote>, s: RoundState) {
    && Shape(cfg, log, s) && LockOk(cfg, log, s) && ValidOk(cfg, log, s)
    && Ordered(cfg, s) && Justified(cfg, log, s) && LocksKept(cfg, log, s) && DecidedOk(cfg, log, s)
  }

  /** What one transition may do to a node. */
  ghost predicate Grows(cfg: Config, log: seq<Vote>, s: RoundState, s': RoundState) {
    && s'.self == s.self
    && s.decided <= s'.decided && s.signed <= s'.signed
    && NotAfter(s, s')
    && (s'.height == s.height ==>
          && s'.decided == s.decided
          && s.valid.round <= s'.valid.round
          && (s.locked.block.Some? ==> Keeps(cfg, log, s', s.locked.block.value, s.locked.round)))
  }

  lemma OtherPolkaWidens(cfg: Config, log: seq<Vote>, chain: seq<Hash>, h: int, lo: int, hi: int, hash: Hash, lo': int, hi': int)
    requires OtherPolka(cfg, log, chain, h, lo, hi, hash) && lo' <= lo && hi <= hi'
    ensures OtherPolka(cfg, log, chain, h, lo', hi', hash)
  {
  }

  lemma KeepsStays(cfg: Config, log: seq<Vote>, s: RoundState, s': RoundState, hash: Hash, r: int)
    requires Grows(cfg, log, s, s') && s'.height == s.height && Keeps(cfg, log, s, hash, r)
    ensures Keeps(cfg, log, s', hash, r)
  {
    if s.locked.block == Some(hash) && s.locked.round >= r {
      if !(s'.locked.block == Some(hash) && s'.locked.round >= r) {
        OtherPolkaWidens(cfg, log, s.decided, s.height, s.locked.round, s'.round, hash, r, s'.round);
      }
    } else {
      OtherPolkaWidens(cfg, log, s.decided, s.height, r, s.round, hash, r, s'.round);
    }
  }

  lemma GrowsTrans(cfg: Config, log: seq<Vote>, s: RoundState, s1: RoundState, s2: RoundState)
    requires Grows(cfg, log, s, s1) && Grows(cfg, log, s1, s2)
    ensures Grows(cfg, log, s, s2)
  {
    if s2.height == s.height && s.locked.block.Some? {
      KeepsStays(cfg, log, s1, s2, s.locked.block.value, s.locked.round);
    }
  }

  /** A transition within a height that signs nothing keeps the invariant if it keeps shape, lock and valid block. */
  lemma Carry(cfg: Config, log: seq<Vote>, s: RoundState, s': RoundState)
    requires Inv(cfg, log, s) && Grows(cfg, log, s, s') && s'.height == s.height && s'.signed == s.signed
    requires Shape(cfg, log, s') && LockOk(cfg, log, s') && ValidOk(cfg, log, s')
    ensures Inv(cfg, log, s')
  {
    forall i | 0 <= i < |s.signed|
      ensures var v := s.signed[i].vote;
        v.kind.Precommit? && v.id.Block? && v.height == s.height ==> Keeps(cfg, log, s', v.id.hash, v.round)
    {
      var v := s.signed[i].vote;
      if v.kind.Precommit? && v.id.Block? && v.height == s.height {
        KeepsStays(cfg, log, s, s', v.id.hash, v.round);
      }
    }
    assert forall i :: 0 <= i < |s.signed| ==> PrecommitJustified(cfg, log, s, s.signed[i].vote);
    assert forall i, j :: 0 <= i < |s.signed| && 0 <= j < |s.signed| ==>
      PrevoteFollows(cfg, log, s, s.signed[i].vote, s.signed[j].vote);
  }

  /** x is a vote the node may sign in s on its way to s'. */
  ghost predicate MaySign(cfg: Config, log: seq<Vote>, s: RoundState, s': RoundState, x: Signed) {
    && x.vote.val == s.self && x.vote.height == s.height && x.vote.round == s.round == x.decidedFor == s'.round
    && s.step < StepOf(x.vote.kind) <= s'.step
    && (x.vote.kind.Precommit? && x.vote.id.Block? ==>
          && Polka(cfg, log, s.decided, s.height, s.round, x.vote.id)
          && Keeps(cfg, log, s', x.vote.id.hash, s.round))
    && (x.vote.kind.Prevote? ==>
          forall hash, r :: Keeps(cfg, log, s, hash, r) && !HashesTo(Some(hash), x.vote.id) ==>
            OtherPolka(cfg, log, s.decided, s.height, r, s.round, hash))
  }

  lemma SignKeepsOrder(cfg: Config, log: seq<Vote>, s: RoundState, s': RoundState, x: Signed)
    requires Inv(cfg, log, s) && Grows(cfg, log, s, s') && s'.height == s.height
    requires MaySign(cfg, log, s, s', x) && s'.signed == s.signed + [x]
    ensures Ordered(cfg, s')
  {
    forall i, j | 0 <= i < j < |s'.signed| ensures Before(s'.signed[i].vote, s'.signed[j].vote) {
      assert s'.signed[i] == s.signed[i];
      assert Reached(s, s.signed[i].vote);
      if j < |s.signed| {
        assert s'.signed[j] == s.signed[j];
      }
    }
  }

  lemma SignKeepsJustified(cfg: Config, log: seq<Vote>, s: RoundState, s': RoundState, x: Signed)
    requires Inv(cfg, log, s) && Grows(cfg, log, s, s') && s'.height == s.height
    requires MaySign(cfg, log, s, s', x) && s'.signed == s.signed + [x]
    ensures Justified(cfg, log, s')
  {
    var n := |s.signed|;
    assert s'.decided[..s.height - cfg.initialHeight] == s.decided;
    forall i | 0 <= i < |s'.signed| ensures PrecommitJustified(cfg, log, s', s'.signed[i].vote) {
      if i < n {
        assert PrecommitJustified(cfg, log, s, s.signed[i].vote);
      }
    }
    forall i, j | 0 <= i < |s'.signed| && 0 <= j < |s'.signed|
      ensures PrevoteFollows(cfg, log, s', s'.signed[i].vote, s'.signed[j].vote)
    {
      if i < n && j < n {
        assert PrevoteFollows(cfg, log, s, s.signed[i].vote, s.signed[j].vote);
      } else if i < n {
        assert Reached(s, s.signed[i].vote);
      } else if j < n {
        var pc := s.signed[j].vote;
        if pc.kind.Precommit? && pc.id.Block? && pc.height == s.height {
          assert Keeps(cfg, log, s, pc.id.hash, pc.round);
        }
      }
    }
  }

  lemma SignKeeps(cfg: Config, log: seq<Vote>, s: RoundState, s': RoundState, x: Signed)
    requires Inv(cfg, log, s) && Grows(cfg, log, s, s') && s'.height == s.height
    requires MaySign(cfg, log, s, s', x) && s'.signed == s.signed + [x]
    requires Shape(cfg, log, s') && LockOk(cfg, log, s') && ValidOk(cfg, log, s')
    ensures Inv(cfg, log, s')
  {
    SignKeepsOrder(cfg, log, s, s', x);
    SignKeepsJustified(cfg, log, s, s', x);
    forall i | 0 <= i < |s'.signed|
      ensures var v := s'.signed[i].vote;
        v.kind.Precommit? && v.id.Block? && v.height == s'.height ==> Keeps(cfg, log, s', v.id.hash, v.round)
    {
      if i < |s.signed| {
        var v := s.signed[i].vote;
        if v.kind.Precommit? && v.id.Block? && v.height == s.height {
          KeepsStays(cfg, log, s, s', v.id.hash, v.round);
        }
      }
    }
  }

  // ----- the transitions -----

  ghost predicate Good(cfg: Config, log: seq<Vote>, s: RoundState, s': RoundState) {
    Inv(cfg, log, s') && Grows(cfg, log, s, s')
  }

  lemma Chain(cfg: Config, log: seq<Vote>, s: RoundState, s1: RoundState, s2: RoundState)
    requires Good(cfg, log, s, s1) && Good(cfg, log, s1, s2)
    ensures Good(cfg, log, s, s2)
  {
    GrowsTrans(cfg, log, s, s1, s2);
  }

  /** The fields the invariant looks at, beside shape and position, are the same. */
  predicate SameCore(s: RoundState, s': RoundState) {
    && s'.self == s.self && s'.height == s.height && s'.decided == s.decided && s'.signed == s.signed
    && s'.locked == s.locked
    && s'.valid == s.valid
  }

  lemma Soft(cfg: Config, log: seq<Vote>, s: RoundState, s': RoundState)
    requires Inv(cfg, log, s) && SameCore(s, s') && NotAfter(s, s') && Shape(cfg, log, s')
    ensures Good(cfg, log, s, s')
  {
    if s.locked.block.Some? {
      assert Keeps(cfg, log, s', s.locked.block.value, s.locked.round);
    }
    Carry(cfg, log, s, s');
  }

  /** Same votes and timeouts too: only proposal data, flags and the step move. */
  lemma Quiet(cfg: Config, log: seq<Vote>, s: RoundState, s': RoundState)
    requires Inv(cfg, log, s) && SameCore(s, s') && s'.votes == s.votes && s'.timeouts == s.timeouts
    requires s'.round == s.round && s.step <= s'.step <= COMMIT
    ensures Good(cfg, log, s, s')
  {
    Soft(cfg, log, s, s');
  }

  lemma EnterPrevoteGood(cfg: Config, log: seq<Vote>, s: RoundState, env: Env, height: int, round: int)
    requires Inv(cfg, log, s) && (height == s.height ==> round <= s.round)
    ensures Good(cfg, log, s, EnterPrevote(s, env, height, round))
    ensures !Behind(s, height, round, PREVOTE) ==> round == s.round
  {
    var s' := EnterPrevote(s, env, height, round);
    if Behind(s, height, round, PREVOTE) {
      Soft(cfg, log, s, s);
    } else {
      var mid := s.(step := PREVOTE);
      Soft(cfg, log, s, mid);
      if s'.signed != s.signed {
        var x := s'.signed[|s.signed|];
        assert s'.signed == s.signed + [x];
        SignKeeps(cfg, log, s, s', x);
      } else {
        assert s' == mid;
      }
    }
  }

  lemma EnterProposeGood(cfg: Config, log: seq<Vote>, s: RoundState, env: Env, height: int, round: int)
    requires Inv(cfg, log, s) && (height == s.height ==> round <= s.round)
    ensures Good(cfg, log, s, EnterPropose(s, env, height, round))
  {
    if Behind(s, height, round, PROPOSE) {
      Soft(cfg, log, s, s);
    } else {
      var s1 := Schedule(s, height, round, PROPOSE).(round := round, step := PROPOSE);
      Soft(cfg, log, s, s1);
      EnterPrevoteGood(cfg, log, s1, env, height, s1.round);
      if ProposalComplete(s1) {
        Chain(cfg, log, s, s1, EnterPrevote(s1, env, height, s1.round));
      }
    }
  }

  /** A new round never trips the monotonicity panic of SetRound. */
  lemma StartRoundGood(cfg: Config, log: seq<Vote>, s: RoundState, round: int)
    requires Inv(cfg, log, s) && s.round <= round && (s.round == round ==> s.step == NEW_HEIGHT)
    ensures Good(cfg, log, s, StartRound(s, round))
    ensures StartRound(s, round).round == round && StartRound(s, round).halted == s.halted
  {
    NewRoundStep(cfg, log, s, StartRound(s, round), round);
  }

  lemma NewRoundStep(cfg: Config, log: seq<Vote>, s: RoundState, s': RoundState, round: int)
    requires Inv(cfg, log, s) && s.round <= round && (s.round == round ==> s.step == NEW_HEIGHT)
    requires s' == s.(round := round, step := NEW_ROUND, prop := s'.prop, votes := SetRound(s.votes, round + 1), triggered := false)
    ensures Good(cfg, log, s, s')
  {
    SetRoundKeeps(s.votes, round + 1, log);
    Soft(cfg, log, s, s');
  }

  lemma EnterNewRoundGood(cfg: Config, log: seq<Vote>, s: RoundState, env: Env, height: int, round: int)
    requires Inv(cfg, log, s)
    ensures Good(cfg, log, s, EnterNewRound(s, env, height, round))
    ensures !s.halted && s.height == height ==> EnterNewRound(s, env, height, round).round >= round
  {
    if s.halted || s.height != height || round < s.round || (s.round == round && s.step != NEW_HEIGHT) {
      Soft(cfg, log, s, s);
    } else {
      var s1 := StartRound(s, round);
      StartRoundGood(cfg, log, s, round);
      if !s1.halted {
        if env.waitForTxs && round == 0 {
          Soft(cfg, log, s1, Schedule(s1, height, round, NEW_ROUND));
          Chain(cfg, log, s, s1, Schedule(s1, height, round, NEW_ROUND));
        } else {
          EnterProposeGood(cfg, log, s1, env, height, round);
          Chain(cfg, log, s, s1, EnterPropose(s1, env, height, round));
        }
      }
    }
  }

  /** A majority of prevotes in the node's vote sets is a polka. */
  lemma SeenPolka(cfg: Config, log: seq<Vote>, s: RoundState, r: int)
    requires Shape(cfg, log, s) && s.votes.Majority(r, Prevote).Some?
    ensures Polka(cfg, log, s.decided, s.height, r, s.votes.Majority(r, Prevote).value)
  {
    SeenMajorityIsSigned(s.votes, r, Prevote, log);
  }

  /** Unlocking or relocking at the current round, on the strength of its polka. */
  lemma LockChange(cfg: Config, log: seq<Vote>, s: RoundState, s': RoundState, id: BlockID)
    requires Inv(cfg, log, s) && s.step < PRECOMMIT && Polka(cfg, log, s.decided, s.height, s.round, id)
    requires s'.self == s.self && s'.height == s.height && s'.decided == s.decided && s.signed <= s'.signed
    requires s'.valid == s.valid
    requires s'.round == s.round && s'.step == PRECOMMIT
    requires s'.votes == s.votes && s'.timeouts == s.timeouts
    requires if s'.locked.block.None? then s'.locked.round == -1 && !HashesTo(s.locked.block, id)
             else s'.locked.round == s.round && HashesTo(s'.locked.block, id)
    ensures Grows(cfg, log, s, s') && Shape(cfg, log, s') && LockOk(cfg, log, s') && ValidOk(cfg, log, s')
  {
    if s.locked.block.Some? && s'.locked.block != s.locked.block {
      assert OtherPolka(cfg, log, s.decided, s.height, s.locked.round, s.round, s.locked.block.value);
    }
  }

  /** enterPrecommit never trips its POLRound panic. */
  lemma PolkaIsLatest(cfg: Config, log: seq<Vote>, s: RoundState)
    requires Shape(cfg, log, s) && s.votes.Majority(s.round, Prevote).Some?
    ensures PolRound(s.votes, s.votes.round) >= s.round
  {
    PolRoundReaches(s.votes, s.round, s.votes.round);
  }

  lemma EnterPrecommitGood(cfg: Config, log: seq<Vote>, s: RoundState, env: Env, height: int, round: int)
    requires Inv(cfg, log, s) && (height == s.height ==> round <= s.round)
    ensures Good(cfg, log, s, EnterPrecommit(s, env, height, round))
    ensures !Behind(s, height, round, PRECOMMIT) ==> round == s.round
  {
    if Behind(s, height, round, PRECOMMIT) {
      Soft(cfg, log, s, s);
    } else {
      assert EnterPrecommit(s, env, height, round) == DecidePrecommit(s, env, s.round).(step := PRECOMMIT);
      if s.votes.Majority(round, Prevote).None? {
        PrecommitWithoutPolka(cfg, log, s, env);
      } else {
        PrecommitOnPolka(cfg, log, s, env);
      }
    }
  }

  lemma PrecommitWithoutPolka(cfg: Config, log: seq<Vote>, s: RoundState, env: Env)
    requires Inv(cfg, log, s) && s.step < PRECOMMIT && s.votes.Majority(s.round, Prevote).None?
    ensures Good(cfg, log, s, DecidePrecommit(s, env, s.round).(step := PRECOMMIT))
  {
    var s' := DecidePrecommit(s, env, s.round).(step := PRECOMMIT);
    var quiet := s.(step := PRECOMMIT);
    Soft(cfg, log, s, quiet);
    assert s' == quiet.(signed := s'.signed);
    PrecommitSigned(cfg, log, s, s');
  }

  /** enterPrecommit, on a polka for id: lock id and precommit it, or unlock and precommit nil. */
  predicate LocksOrReleases(s: RoundState, s': RoundState, id: BlockID) {
    if s'.locked.block.None? then
      && s'.locked.round == -1 && !HashesTo(s.locked.block, id)
      && (s'.signed == s.signed || s'.signed == s.signed + [Signed(Vote(s.self, s.height, s.round, Precommit, NilBlock), s.round)])
    else
      && s'.locked.round == s.round && HashesTo(s'.locked.block, id)
      && (s'.signed == s.signed || s'.signed == s.signed + [Signed(Vote(s.self, s.height, s.round, Precommit, id), s.round)])
  }

  lemma PrecommitEffect(s: RoundState, env: Env, id: BlockID)
    requires s.votes.Majority(s.round, Prevote) == Some(id) && PolRound(s.votes, s.votes.round) >= s.round
    requires HashesTo(s.locked.block, id) || !HashesTo(s.prop.block, id) || env.valid(s.prop.block.value)
    ensures LocksOrReleases(s, DecidePrecommit(s, env, s.round), id)
  {
  }

  lemma PrecommitOnPolka(cfg: Config, log: seq<Vote>, s: RoundState, env: Env)
    requires Inv(cfg, log, s) && s.step < PRECOMMIT && s.votes.Majority(s.round, Prevote).Some?
    ensures Good(cfg, log, s, DecidePrecommit(s, env, s.round).(step := PRECOMMIT))
  {
    var id := s.votes.Majority(s.round, Prevote).value;
    SeenPolka(cfg, log, s, s.round);
    PolkaIsLatest(cfg, log, s);
    var d := DecidePrecommit(s, env, s.round);
    if HashesTo(s.locked.block, id) || !HashesTo(s.prop.block, id) || env.valid(s.prop.block.value) {
      PrecommitEffect(s, env, id);
      PolkaStep(cfg, log, s, d.(step := PRECOMMIT), id);
    } else {
      Quiet(cfg, log, s, d.(step := PRECOMMIT));
    }
  }

  lemma PolkaStep(cfg: Config, log: seq<Vote>, s: RoundState, s': RoundState, id: BlockID)
    requires Inv(cfg, log, s) && s.step < PRECOMMIT && Polka(cfg, log, s.decided, s.height, s.round, id)
    requires LocksOrReleases(s, s', id) && s'.step == PRECOMMIT
    requires s'.self == s.self && s'.height == s.height && s'.round == s.round && s'.decided == s.decided
    requires s'.valid == s.valid
    requires s'.votes == s.votes && s'.timeouts == s.timeouts
    ensures Good(cfg, log, s, s')
  {
    LockChange(cfg, log, s, s', id);
    PrecommitSigned(cfg, log, s, s');
  }

  lemma PrecommitSigned(cfg: Config, log: seq<Vote>, s: RoundState, s': RoundState)
    requires Inv(cfg, log, s) && Grows(cfg, log, s, s') && s'.height == s.height
    requires Shape(cfg, log, s') && LockOk(cfg, log, s') && ValidOk(cfg, log, s')
    requires s'.signed == s.signed || (
      && |s'.signed| == |s.signed| + 1
      && var x := s'.signed[|s.signed|];
      && x == Signed(Vote(s.self, s.height, s.round, Precommit, x.vote.id), s.round)
      && s'.round == s.round && s.step < PRECOMMIT <= s'.step
      && (x.vote.id.Block? ==>
            && Polka(cfg, log, s.decided, s.height, s.round, x.vote.id)
            && s'.locked.block == Some(x.vote.id.hash) && s'.locked.round == s.round))
    ensures Inv(cfg, log, s')
  {
    if s'.signed == s.signed {
      Carry(cfg, log, s, s');
    } else {
      var x := s'.signed[|s.signed|];
      assert s'.signed == s.signed + [x];
      SignKeeps(cfg, log, s, s', x);
    }
  }

  lemma PrevoteWaitGood(cfg: Config, log: seq<Vote>, s: RoundState, height: int)
    requires Inv(cfg, log, s) && s.step <= PREVOTE_WAIT && s.height == height
    ensures Good(cfg, log, s, Schedule(s, height, s.round, PREVOTE_WAIT).(step := PREVOTE_WAIT))
  {
    Soft(cfg, log, s, Schedule(s, height, s.round, PREVOTE_WAIT).(step := PREVOTE_WAIT));
  }

  lemma HaltGood(cfg: Config, log: seq<Vote>, s: RoundState)
    requires Inv(cfg, log, s)
    ensures Good(cfg, log, s, s.(halted := true)) && Good(cfg, log, s, s)
  {
    Quiet(cfg, log, s, s);
    Quiet(cfg, log, s, s.(halted := true));
  }

  lemma EnterPrevoteWaitGood(cfg: Config, log: seq<Vote>, s: RoundState, env: Env, height: int, round: int)
    requires Inv(cfg, log, s) && (height == s.height ==> round <= s.round)
    ensures Good(cfg, log, s, EnterPrevoteWait(s, env, height, round))
  {
    HaltGood(cfg, log, s);
    EnterPrecommitGood(cfg, log, s, env, height, round);
    var s1 := if s.votes.HasAll(round, Prevote) && s.votes.Majority(round, Prevote).None?
              then EnterPrecommit(s, env, height, round) else s;
    if !s.halted && !Behind(s1, height, round, PREVOTE_WAIT) {
      assert s1.round == round;
      HaltGood(cfg, log, s1);
      PrevoteWaitGood(cfg, log, s1, height);
      Chain(cfg, log, s, s1, EnterPrevoteWait(s, env, height, round));
    }
  }

  lemma EnterPrecommitWaitGood(cfg: Config, log: seq<Vote>, s: RoundState, height: int, round: int)
    requires Inv(cfg, log, s) && (height == s.height ==> round <= s.round)
    ensures Good(cfg, log, s, EnterPrecommitWait(s, height, round))
  {
    Soft(cfg, log, s, EnterPrecommitWait(s, height, round));
  }

  /** Finalizing a block with a precommit majority starts the next height. */
  lemma NextHeightGood(cfg: Config, log: seq<Vote>, s: RoundState, id: BlockID)
    requires Inv(cfg, log, s) && id.Block? && s.votes.Majority(s.commitRound, Precommit) == Some(id)
    ensures Good(cfg, log, s, NextHeight(cfg, s, id.hash))
  {
    var s' := NextHeight(cfg, s, id.hash);
    NextDecided(cfg, log, s, id);
    NewHeightVotesValid(s'.height, cfg.vals(s'.decided), log);
    SameChainJustified(cfg, log, s, s');
  }

  lemma NextDecided(cfg: Config, log: seq<Vote>, s: RoundState, id: BlockID)
    requires Inv(cfg, log, s) && id.Block? && s.votes.Majority(s.commitRound, Precommit) == Some(id)
    ensures DecidedOk(cfg, log, NextHeight(cfg, s, id.hash))
  {
    var decided := s.decided + [id.hash];
    SeenMajorityIsSigned(s.votes, s.commitRound, Precommit, log);
    forall k | 0 <= k < |decided| ensures Finalized(cfg, log, decided[..k], cfg.initialHeight + k, decided[k]) {
      if k < |s.decided| {
        assert decided[..k] == s.decided[..k];
        assert Finalized(cfg, log, s.decided[..k], cfg.initialHeight + k, s.decided[k]);
      } else {
        assert decided[..k] == s.decided;
        assert CommitQuorum(cfg, log, s.decided, s.height, s.commitRound, id);
      }
    }
  }

  lemma SameChainJustified(cfg: Config, log: seq<Vote>, s: RoundState, s': RoundState)
    requires Ordered(cfg, s) && Justified(cfg, log, s) && s'.signed == s.signed && s.decided <= s'.decided
    requires s.height == cfg.initialHeight + |s.decided|
    ensures Justified(cfg, log, s')
  {
    forall i | 0 <= i < |s.signed|
      ensures ChainAt(cfg, s', s.signed[i].vote.height) == ChainAt(cfg, s, s.signed[i].vote.height)
    {
      assert Reached(s, s.signed[i].vote);
    }
    forall i | 0 <= i < |s.signed| ensures PrecommitJustified(cfg, log, s', s.signed[i].vote) {
      assert PrecommitJustified(cfg, log, s, s.signed[i].vote);
    }
    forall i, j | 0 <= i < |s.signed| && 0 <= j < |s.signed|
      ensures PrevoteFollows(cfg, log, s', s.signed[i].vote, s.signed[j].vote)
    {
      assert PrevoteFollows(cfg, log, s, s.signed[i].vote, s.signed[j].vote);
    }
  }

  lemma TryFinalizeGood(cfg: Config, log: seq<Vote>, s: RoundState, env: Env, height: int)
    requires Inv(cfg, log, s)
    ensures Good(cfg, log, s, TryFinalizeCommit(cfg, s, env, height))
  {
    Quiet(cfg, log, s, s);
    Quiet(cfg, log, s, s.(halted := true));
    match s.votes.Majority(s.commitRound, Precommit)
    case Some(Block(hash, parts)) => FinalizeGood(cfg, log, s, env, Block(hash, parts));
    case _ =>
  }

  lemma FinalizeGood(cfg: Config, log: seq<Vote>, s: RoundState, env: Env, id: BlockID)
    requires Inv(cfg, log, s) && id.Block? && s.votes.Majority(s.commitRound, Precommit) == Some(id)
    ensures Good(cfg, log, s, FinalizeCommit(cfg, s, env, id))
  {
    Quiet(cfg, log, s, s);
    Quiet(cfg, log, s, s.(halted := true));
    NextHeightGood(cfg, log, s, id);
  }

  lemma AdoptGood(cfg: Config, log: seq<Vote>, s: RoundState, id: BlockID, commitRound: int)
    requires Inv(cfg, log, s) && id.Block?
    ensures Good(cfg, log, s, AdoptCommitted(s, id).(step := COMMIT, commitRound := commitRound))
  {
    Quiet(cfg, log, s, AdoptCommitted(s, id).(step := COMMIT, commitRound := commitRound));
  }

  lemma EnterCommitGood(cfg: Config, log: seq<Vote>, s: RoundState, env: Env, height: int, commitRound: int)
    requires Inv(cfg, log, s)
    requires s.votes.Majority(commitRound, Precommit).Some? && s.votes.Majority(commitRound, Precommit).value.Block?
    ensures Good(cfg, log, s, EnterCommit(cfg, s, env, height, commitRound))
  {
    HaltGood(cfg, log, s);
    if !(s.halted || s.height != height || COMMIT <= s.step) {
      var id := s.votes.Majority(commitRound, Precommit).value;
      var s1 := AdoptCommitted(s, id).(step := COMMIT, commitRound := commitRound);
      AdoptGood(cfg, log, s, id, commitRound);
      TryFinalizeGood(cfg, log, s1, env, height);
      Chain(cfg, log, s, s1, TryFinalizeCommit(cfg, s1, env, height));
    }
  }
}
