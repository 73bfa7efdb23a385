/**
 A correct node finalizes: whatever block is proposed, and whichever validators
 with more than two thirds of the power vote for it, in whatever order and with
 whatever repeats, the node prevotes it, locks and precommits it, and decides it.
 */
module NodeProgress {
  import opened VotingPower
  import opened Votes
  import opened VoteSets
  import opened HeightVoteSets
  import opened RoundStates
  import opened NodeInvariant
  import opened NodeVotes

  // ----- a vote set in which all voted for one block -----

  ghost predicate Unanimous(t: Tally, b: BlockID, voters: set<Validator>) {
    && voters <= t.vals.power.Keys && t.votes.Keys == voters && (forall x :: x in voters ==> t.votes[x] == b)
    && t.sum == Power(t.vals.power, voters) && (b in t.byBlock <==> voters != {})
    && (b in t.byBlock ==> t.byBlock[b] == BlockVotes(false, voters, t.sum))
    && t.maj23 == (if TwoThirds(t.vals, voters) then Some(b) else None)
  }

  lemma EmptyUnanimous(height: int, round: int, kind: Kind, vals: ValidatorSet, b: BlockID)
    ensures Unanimous(EmptyTally(height, round, kind, vals), b, {})
  {
    assert Power(vals.power, {}) == 0;
  }

  predicate Fits(t: Tally, v: Vote) {
    v.height == t.height && v.round == t.round && v.kind == t.kind && v.val in t.vals.power
  }

  /** One more vote for the block is counted, unless it was there; the majority is found with the vote that makes it. */
  lemma UnanimousAdds(t: Tally, b: BlockID, voters: set<Validator>, v: Vote)
    requires Unanimous(t, b, voters) && Fits(t, v) && v.id == b
    ensures Unanimous(AddVote(t, v, true), b, voters + {v.val}) && (VoteSets.Added(t, v, true) <==> v.val !in voters)
    ensures v.val in voters ==> AddVote(t, v, true) == t
  {
    if v.val in voters {
      assert voters + {v.val} == voters && t.votes[v.val] == b;
    } else {
      PowerAdd(t.vals.power, voters, v.val);
      NewVoteAdds(t, b, voters, v);
    }
  }

  lemma NewVoteAdds(t: Tally, b: BlockID, voters: set<Validator>, v: Vote)
    requires Unanimous(t, b, voters) && Fits(t, v) && v.id == b && v.val !in voters
    requires Power(t.vals.power, voters + {v.val}) == Power(t.vals.power, voters) + Weight(t.vals.power, v.val)
    ensures Unanimous(AddVote(t, v, true), b, voters + {v.val}) && VoteSets.Added(t, v, true)
  {
    var t', all := AddVote(t, v, true), voters + {v.val};
    FirstVoteIs(t, v, b, voters);
    assert t.Quorum() <= t.sum + t.vals.power[v.val] <==> TwoThirds(t.vals, all);
    assert t.Quorum() <= t.sum <==> TwoThirds(t.vals, voters);
  }

  /** What a validator's first vote, for the block all voted for, makes of the vote set. */
  lemma FirstVoteIs(t: Tally, v: Vote, b: BlockID, voters: set<Validator>)
    requires Unanimous(t, b, voters) && Fits(t, v) && v.id == b && v.val !in voters
    ensures var t', all, sum := AddVote(t, v, true), voters + {v.val}, t.sum + t.vals.power[v.val];
      && VoteSets.Added(t, v, true) && t'.vals == t.vals && t'.votes.Keys == all && (forall x :: x in all ==> t'.votes[x] == b)
      && t'.sum == sum && b in t'.byBlock && t'.byBlock[b] == BlockVotes(false, all, sum)
      && t'.maj23 == if t.sum < t.Quorum() <= sum && t.maj23.None? then Some(b) else t.maj23
  {
    assert WithBlockVote(t, v) == BlockVotes(false, voters + {v.val}, t.sum + t.vals.power[v.val]);
    assert voters == {} ==> t.sum == 0;
    assert AddVote(t, v, true).votes.Keys == voters + {v.val};
  }

  lemma UnanimousAny(t: Tally, b: BlockID, voters: set<Validator>)
    requires Unanimous(t, b, voters)
    ensures t.HasTwoThirdsAny() <==> TwoThirds(t.vals, voters)
  {
  }

  // ----- the vote sets of a height in its first round -----

  /** Round 0 is tracked, with these prevotes and precommits for the block. */
  ghost predicate Round0(hv: HeightVotes, height: int, vals: ValidatorSet, b: BlockID, pre: set<Validator>, com: set<Validator>) {
    && hv.height == height && hv.vals == vals && hv.round == 1 && 0 in hv.rounds
    && RoundIs(hv.rounds[0], height, vals, b, pre, com)
  }

  ghost predicate RoundIs(rv: RoundVotes, height: int, vals: ValidatorSet, b: BlockID, pre: set<Validator>, com: set<Validator>) {
    && TallyIs(rv.prevotes, height, Prevote, vals) && Unanimous(rv.prevotes, b, pre)
    && TallyIs(rv.precommits, height, Precommit, vals) && Unanimous(rv.precommits, b, com)
  }

  predicate TallyIs(t: Tally, height: int, kind: Kind, vals: ValidatorSet) {
    t.height == height && t.round == 0 && t.kind == kind && t.vals == vals
  }

  function With(set0: set<Validator>, x: Validator, yes: bool): set<Validator> {
    if yes then set0 + {x} else set0
  }

  lemma Round0Adds(hv: HeightVotes, height: int, vals: ValidatorSet, b: BlockID, pre: set<Validator>, com: set<Validator>, v: Vote, peer: Peer)
    requires Round0(hv, height, vals, b, pre, com) && v == Vote(v.val, height, 0, v.kind, b) && v.val in vals.power
    ensures Round0(AddVoteAt(hv, v, peer, true), height, vals, b, With(pre, v.val, v.kind.Prevote?), With(com, v.val, v.kind.Precommit?))
    ensures AddedAt(hv, v, peer, true) <==> v.val !in (if v.kind.Prevote? then pre else com)
  {
    UnanimousAdds(TallyFor(hv.rounds[0], v.kind), b, if v.kind.Prevote? then pre else com, v);
    AddVoteShape(TallyFor(hv.rounds[0], v.kind), v, true);
  }

  lemma Round0Majority(hv: HeightVotes, height: int, vals: ValidatorSet, b: BlockID, pre: set<Validator>, com: set<Validator>)
    requires Round0(hv, height, vals, b, pre, com)
    ensures hv.Majority(0, Prevote) == (if TwoThirds(vals, pre) then Some(b) else None) && (hv.TwoThirdsAny(0, Prevote) <==> TwoThirds(vals, pre))
    ensures hv.Majority(0, Precommit) == (if TwoThirds(vals, com) then Some(b) else None) && (hv.TwoThirdsAny(0, Precommit) <==> TwoThirds(vals, com))
    ensures TwoThirds(vals, pre) ==> PolRound(hv, 1) >= 0
  {
    UnanimousAny(hv.rounds[0].prevotes, b, pre);
    UnanimousAny(hv.rounds[0].precommits, b, com);
    if TwoThirds(vals, pre) {
      PolRoundReaches(hv, 0, 1);
    }
  }

  // ----- the node in one height -----

  /** A node at the start of a height. */
  predicate Fresh(s: RoundState) {
    && !s.halted && s.step == NEW_HEIGHT && s.round == 0 && s.prop == Proposed(None, None, None, false)
    && s.locked == NOT_HELD && s.valid == NOT_HELD && s.commitRound == -1 && !s.triggered
    && s.votes == NewHeightVotes(s.height, s.votes.vals)
  }

  /** The own vote, if the node is a validator whose signer works. */
  function Own(s0: RoundState, env: Env, kind: Kind, id: BlockID): seq<Signed> {
    if s0.self in s0.votes.vals.power && env.signs(s0.height, 0, kind) then [Signed(Vote(s0.self, s0.height, 0, kind, id), 0)] else []
  }

  function Proposing(s0: RoundState, id: BlockID): Proposed
    requires id.Block?
  {
    Proposed(Some(Proposal(s0.height, 0, -1, id.parts)), Some(id.hash), Some(id.parts), true)
  }

  /** The node has prevoted id and counted some prevotes, too few for a polka. */
  ghost predicate Prevoting(s0: RoundState, env: Env, id: BlockID, s: RoundState, pre: set<Validator>)
    requires id.Block?
  {
    && s == s0.(step := PREVOTE, prop := Proposing(s0, id), votes := s.votes, signed := s0.signed + Own(s0, env, Prevote, id), timeouts := s.timeouts)
    && Round0(s.votes, s0.height, s0.votes.vals, id, pre, {}) && !TwoThirds(s0.votes.vals, pre)
  }

  /** The node has locked id on its polka, precommitted it, and counted some precommits, too few to commit. */
  ghost predicate Precommitting(s0: RoundState, env: Env, id: BlockID, s: RoundState, pre: set<Validator>, com: set<Validator>)
    requires id.Block?
  {
    && s == s0.(step := PRECOMMIT, prop := Proposing(s0, id), votes := s.votes,
         locked := Held(0, Some(id.hash), Some(id.parts)), valid := Held(0, Some(id.hash), Some(id.parts)),
         signed := s0.signed + Own(s0, env, Prevote, id) + Own(s0, env, Precommit, id), timeouts := s.timeouts)
    && Round0(s.votes, s0.height, s0.votes.vals, id, pre, com) && TwoThirds(s0.votes.vals, pre) && !TwoThirds(s0.votes.vals, com)
  }

  function Opening(s0: RoundState, id: BlockID): seq<Event>
    requires id.Block?
  {
    [TimeoutFired(Timeout(s0.height, 0, NEW_HEIGHT), s0.height, 0, NEW_HEIGHT)] +
    [ProposalArrived(Proposal(s0.height, 0, -1, id.parts), true)] + [PartArrived(s0.height, Complete(id.hash))]
  }

  function HandleAll(cfg: Config, s: RoundState, env: Env, es: seq<Event>): RoundState {
    if es == [] then s else Handle(cfg, HandleAll(cfg, s, env, es[..|es| - 1]), env, es[|es| - 1])
  }

  lemma {:induction false} HandleConcat(cfg: Config, s: RoundState, env: Env, es: seq<Event>, fs: seq<Event>)
    ensures HandleAll(cfg, s, env, es + fs) == HandleAll(cfg, HandleAll(cfg, s, env, es), env, fs)
  {
    if fs == [] {
      assert es + fs == es;
    } else {
      var n := |fs| - 1;
      assert (es + fs)[..|es| + n] == es + fs[..n];
      HandleConcat(cfg, s, env, es, fs[..n]);
    }
  }

  lemma HandleOne(cfg: Config, s: RoundState, env: Env, e: Event)
    ensures HandleAll(cfg, s, env, [e]) == Handle(cfg, s, env, e)
  {
    assert [e][..0] == [];
    assert HandleAll(cfg, s, env, []) == s;
  }

  lemma Opens(cfg: Config, s0: RoundState, env: Env, id: BlockID)
    requires Fresh(s0) && id.Block? && env.valid(id.hash) && !env.waitForTxs
    ensures Prevoting(s0, env, id, HandleAll(cfg, s0, env, Opening(s0, id)), {})
  {
    var e1, e2, e3 := TimeoutFired(Timeout(s0.height, 0, NEW_HEIGHT), s0.height, 0, NEW_HEIGHT), ProposalArrived(Proposal(s0.height, 0, -1, id.parts), true), PartArrived(s0.height, Complete(id.hash));
    HandleConcat(cfg, s0, env, [e1] + [e2], [e3]);
    HandleConcat(cfg, s0, env, [e1], [e2]);
    HandleOne(cfg, s0, env, e1);
    var s1 := Handle(cfg, s0, env, e1);
    HandleOne(cfg, s1, env, e2);
    var s2 := Handle(cfg, s1, env, e2);
    HandleOne(cfg, s2, env, e3);
    Round0Opens(s0, id);
    assert s1 == s0.(step := PROPOSE, votes := SetRound(s0.votes, 1), timeouts := s1.timeouts);
    assert s2 == s1.(prop := Proposed(Some(Proposal(s0.height, 0, -1, id.parts)), None, Some(id.parts), false));
    OpenPrevotes(cfg, s0, s2, env, id);
  }

  lemma Round0Opens(s0: RoundState, id: BlockID)
    requires Fresh(s0)
    ensures Round0(SetRound(s0.votes, 1), s0.height, s0.votes.vals, id, {}, {})
  {
    EmptyUnanimous(s0.height, 0, Prevote, s0.votes.vals, id);
    EmptyUnanimous(s0.height, 0, Precommit, s0.votes.vals, id);
  }

  /** The completed proposal is prevoted. */
  lemma OpenPrevotes(cfg: Config, s0: RoundState, s2: RoundState, env: Env, id: BlockID)
    requires Fresh(s0) && id.Block? && env.valid(id.hash) && Round0(s2.votes, s0.height, s0.votes.vals, id, {}, {})
    requires s2 == s0.(step := PROPOSE, votes := s2.votes, timeouts := s2.timeouts,
      prop := Proposed(Some(Proposal(s0.height, 0, -1, id.parts)), None, Some(id.parts), false))
    ensures Prevoting(s0, env, id, Handle(cfg, s2, env, PartArrived(s0.height, Complete(id.hash))), {})
  {
    assert Power(s0.votes.vals.power, {}) == 0;
    Round0Majority(s2.votes, s0.height, s0.votes.vals, id, {}, {});
    var s3 := s2.(prop := Proposing(s0, id));
    assert NoteProposalPolka(s3) == s3;
    var x := PrevoteIs(s3, env, s0.height, 0);
    assert x == id;
  }

  // ----- votes -----

  function Ballot(s0: RoundState, kind: Kind, id: BlockID, who: (Validator, Peer)): Event {
    VoteArrived(Vote(who.0, s0.height, 0, kind, id), who.1, true)
  }

  /** The polka is noted: the block is valid, the node locks and precommits it. */
  lemma PolkaPrecommits(s0: RoundState, env: Env, id: BlockID, s: RoundState, pre: set<Validator>)
    requires Fresh(s0) && id.Block? && env.valid(id.hash)
    requires s == s0.(step := PREVOTE, prop := Proposing(s0, id), votes := s.votes, signed := s0.signed + Own(s0, env, Prevote, id), timeouts := s.timeouts)
    requires Round0(s.votes, s0.height, s0.votes.vals, id, pre, {}) && TwoThirds(s0.votes.vals, pre)
    ensures Precommitting(s0, env, id, AfterPrevote(NotePolka(ReleaseLock(s, 0), 0), env, 0), pre, {})
  {
    Round0Majority(s.votes, s0.height, s0.votes.vals, id, pre, {});
    assert Power(s0.votes.vals.power, {}) == 0;
    var s2 := NotePolka(ReleaseLock(s, 0), 0);
    assert s2 == s.(valid := Held(0, Some(id.hash), Some(id.parts)));
    var s3 := EnterPrecommit(s2, env, s0.height, 0);
    var x := PrecommitIs(s2, env, s0.height, 0);
    assert x == id;
    assert s3.prop == s2.prop;
  }

  /** A prevote for id: counted, and with the one that makes the polka the node locks and precommits. */
  lemma PrevoteCounts(cfg: Config, s0: RoundState, env: Env, id: BlockID, s: RoundState, pre: set<Validator>, who: (Validator, Peer))
    requires Fresh(s0) && id.Block? && env.valid(id.hash) && Prevoting(s0, env, id, s, pre) && who.0 in s0.votes.vals.power
    ensures var s', all := Handle(cfg, s, env, Ballot(s0, Prevote, id, who)), pre + {who.0};
      if TwoThirds(s0.votes.vals, all) then Precommitting(s0, env, id, s', all, {}) else Prevoting(s0, env, id, s', all)
  {
    var v, all := Vote(who.0, s0.height, 0, Prevote, id), pre + {who.0};
    Round0Adds(s.votes, s0.height, s0.votes.vals, id, pre, {}, v, who.1);
    var s1 := s.(votes := AddVoteAt(s.votes, v, who.1, true));
    Round0Majority(s1.votes, s0.height, s0.votes.vals, id, all, {});
    if who.0 in pre {
      assert all == pre;
    } else if TwoThirds(s0.votes.vals, all) {
      PolkaPrecommits(s0, env, id, s1, all);
    }
  }

  /** More prevotes for id change nothing but the count. */
  lemma LatePrevote(cfg: Config, s0: RoundState, env: Env, id: BlockID, s: RoundState, pre: set<Validator>, com: set<Validator>, who: (Validator, Peer))
    requires Fresh(s0) && id.Block? && Precommitting(s0, env, id, s, pre, com) && who.0 in s0.votes.vals.power
    ensures Precommitting(s0, env, id, Handle(cfg, s, env, Ballot(s0, Prevote, id, who)), pre + {who.0}, com)
  {
    var v, all := Vote(who.0, s0.height, 0, Prevote, id), pre + {who.0};
    Round0Adds(s.votes, s0.height, s0.votes.vals, id, pre, com, v, who.1);
    var s1 := s.(votes := AddVoteAt(s.votes, v, who.1, true));
    TwoThirdsGrows(s0.votes.vals, pre, all);
    Round0Majority(s1.votes, s0.height, s0.votes.vals, id, all, com);
    assert NotePolka(ReleaseLock(s1, 0), 0) == s1;
  }

  /** The node after it decided id. */
  ghost predicate Decided(cfg: Config, s0: RoundState, env: Env, id: BlockID, s: RoundState)
    requires id.Block?
  {
    && !s.halted && s.height == s0.height + 1 && s.decided == s0.decided + [id.hash]
    && s.signed == s0.signed + Own(s0, env, Prevote, id) + Own(s0, env, Precommit, id)
    && (!env.skipTimeoutCommit ==> Fresh(s) && s.self == s0.self && s.votes.vals == cfg.vals(s.decided))
  }

  /** The quorum's precommits: the node commits the block it has locked, and goes on to the next height. */
  lemma QuorumDecides(cfg: Config, s0: RoundState, env: Env, id: BlockID, s: RoundState, pre: set<Validator>, com: set<Validator>)
    requires Fresh(s0) && id.Block? && env.valid(id.hash) && env.applied
    requires s == s0.(step := PRECOMMIT, prop := Proposing(s0, id), votes := s.votes,
         locked := Held(0, Some(id.hash), Some(id.parts)), valid := Held(0, Some(id.hash), Some(id.parts)),
         signed := s0.signed + Own(s0, env, Prevote, id) + Own(s0, env, Precommit, id), timeouts := s.timeouts)
    requires Round0(s.votes, s0.height, s0.votes.vals, id, pre, com) && TwoThirds(s0.votes.vals, com)
    ensures Decided(cfg, s0, env, id, AfterPrecommit(cfg, s, env, 0))
  {
    Round0Majority(s.votes, s0.height, s0.votes.vals, id, pre, com);
    var c := EnterCommit(cfg, s, env, s0.height, 0);
    assert c == NextHeight(cfg, AdoptCommitted(s, id).(step := COMMIT, commitRound := 0), id.hash);
    if env.skipTimeoutCommit && s.votes.HasAll(0, Precommit) {
      FreshRound(c, env);
    }
  }

  /** With the commit timeout skipped the next height's first round starts at once, and nothing is signed in it yet. */
  lemma FreshRound(c: RoundState, env: Env)
    requires Fresh(c)
    ensures var s := EnterNewRound(c, env, c.height, 0); !s.halted && s.height == c.height && s.decided == c.decided && s.signed == c.signed
  {
  }

  lemma PrecommitCounts(cfg: Config, s0: RoundState, env: Env, id: BlockID, s: RoundState, pre: set<Validator>, com: set<Validator>, who: (Validator, Peer))
    requires Fresh(s0) && id.Block? && env.valid(id.hash) && env.applied && Precommitting(s0, env, id, s, pre, com) && who.0 in s0.votes.vals.power
    ensures var s', all := Handle(cfg, s, env, Ballot(s0, Precommit, id, who)), com + {who.0};
      if TwoThirds(s0.votes.vals, all) then Decided(cfg, s0, env, id, s') else Precommitting(s0, env, id, s', pre, all)
  {
    var v, all := Vote(who.0, s0.height, 0, Precommit, id), com + {who.0};
    Round0Adds(s.votes, s0.height, s0.votes.vals, id, pre, com, v, who.1);
    var s1 := s.(votes := AddVoteAt(s.votes, v, who.1, true));
    Round0Majority(s1.votes, s0.height, s0.votes.vals, id, pre, all);
    if who.0 in com {
      assert all == com;
    } else if TwoThirds(s0.votes.vals, all) {
      QuorumDecides(cfg, s0, env, id, s1, pre, all);
    }
  }

  // ----- whole heights -----

  /** The votes of these validators, in this order, each passed on by some peer. */
  function Ballots(s0: RoundState, kind: Kind, id: BlockID, who: seq<(Validator, Peer)>): seq<Event> {
    if who == [] then [] else Ballots(s0, kind, id, who[..|who| - 1]) + [Ballot(s0, kind, id, who[|who| - 1])]
  }

  ghost function Who(who: seq<(Validator, Peer)>): set<Validator> {
    set x | x in who :: x.0
  }

  lemma WhoSnoc(who: seq<(Validator, Peer)>)
    requires who != []
    ensures Who(who) == Who(who[..|who| - 1]) + {who[|who| - 1].0}
  {
    assert who == who[..|who| - 1] + [who[|who| - 1]];
  }

  ghost predicate AreValidators(vals: ValidatorSet, who: seq<(Validator, Peer)>) {
    forall x :: x in who ==> x.0 in vals.power
  }

  lemma HandleSnoc(cfg: Config, s: RoundState, env: Env, es: seq<Event>, e: Event)
    ensures HandleAll(cfg, s, env, es + [e]) == Handle(cfg, HandleAll(cfg, s, env, es), env, e)
  {
    assert (es + [e])[..|es|] == es;
  }

  lemma {:induction false} PrevotesCount(cfg: Config, s0: RoundState, env: Env, id: BlockID, s: RoundState, who: seq<(Validator, Peer)>)
    requires Fresh(s0) && id.Block? && env.valid(id.hash) && Prevoting(s0, env, id, s, {}) && AreValidators(s0.votes.vals, who)
    ensures var s' := HandleAll(cfg, s, env, Ballots(s0, Prevote, id, who));
      if TwoThirds(s0.votes.vals, Who(who)) then Precommitting(s0, env, id, s', Who(who), {}) else Prevoting(s0, env, id, s', Who(who))
  {
    if who == [] {
      assert Who(who) == {};
    } else {
      var rest, x := who[..|who| - 1], who[|who| - 1];
      PrevotesCount(cfg, s0, env, id, s, rest);
      WhoSnoc(who);
      HandleSnoc(cfg, s, env, Ballots(s0, Prevote, id, rest), Ballot(s0, Prevote, id, x));
      var s1 := HandleAll(cfg, s, env, Ballots(s0, Prevote, id, rest));
      assert x in who;
      if TwoThirds(s0.votes.vals, Who(rest)) {
        TwoThirdsGrows(s0.votes.vals, Who(rest), Who(who));
        LatePrevote(cfg, s0, env, id, s1, Who(rest), {}, x);
      } else {
        PrevoteCounts(cfg, s0, env, id, s1, Who(rest), x);
      }
    }
  }

  /** Precommits up to the one that makes the quorum. */
  lemma {:induction false} PrecommitsCount(cfg: Config, s0: RoundState, env: Env, id: BlockID, s: RoundState, pre: set<Validator>, who: seq<(Validator, Peer)>)
    requires Fresh(s0) && id.Block? && env.valid(id.hash) && env.applied && Precommitting(s0, env, id, s, pre, {}) && AreValidators(s0.votes.vals, who)
    requires who == [] || !TwoThirds(s0.votes.vals, Who(who[..|who| - 1]))
    ensures var s' := HandleAll(cfg, s, env, Ballots(s0, Precommit, id, who));
      if TwoThirds(s0.votes.vals, Who(who)) then Decided(cfg, s0, env, id, s') else Precommitting(s0, env, id, s', pre, Who(who))
  {
    if who == [] {
      assert Who(who) == {};
    } else {
      var rest, x := who[..|who| - 1], who[|who| - 1];
      if rest != [] {
        FewerStill(s0.votes.vals, rest);
      }
      PrecommitsCount(cfg, s0, env, id, s, pre, rest);
      WhoSnoc(who);
      HandleSnoc(cfg, s, env, Ballots(s0, Precommit, id, rest), Ballot(s0, Precommit, id, x));
      assert x in who;
      PrecommitCounts(cfg, s0, env, id, HandleAll(cfg, s, env, Ballots(s0, Precommit, id, rest)), pre, Who(rest), x);
    }
  }

  lemma FewerStill(vals: ValidatorSet, who: seq<(Validator, Peer)>)
    requires who != [] && !TwoThirds(vals, Who(who))
    ensures !TwoThirds(vals, Who(who[..|who| - 1]))
  {
    WhoSnoc(who);
    if TwoThirds(vals, Who(who[..|who| - 1])) {
      TwoThirdsGrows(vals, Who(who[..|who| - 1]), Who(who));
    }
  }

  /** One height: the round starts, the block id is proposed, and these validators vote for it. */
  function Height(s0: RoundState, id: BlockID, pre: seq<(Validator, Peer)>, com: seq<(Validator, Peer)>): seq<Event>
    requires id.Block?
  {
    Opening(s0, id) + Ballots(s0, Prevote, id, pre) + Ballots(s0, Precommit, id, com)
  }

  /** More than two thirds of the power prevote, in any order; the last precommit is the one that makes two thirds. */
  ghost predicate Quorums(vals: ValidatorSet, pre: seq<(Validator, Peer)>, com: seq<(Validator, Peer)>) {
    && AreValidators(vals, pre) && AreValidators(vals, com) && TwoThirds(vals, Who(pre)) && TwoThirds(vals, Who(com))
    && com != [] && !TwoThirds(vals, Who(com[..|com| - 1]))
  }

  /**
   A node finalizes. Whatever valid block is proposed in the first round of a height, and
   whichever quorums prevote and precommit it, in whatever order and through whatever peers:
   the node signs a prevote and a precommit for it, if it is a validator, decides exactly
   this block, and is at the start of the next height.
   */
  lemma Finalizes(cfg: Config, s0: RoundState, env: Env, id: BlockID, pre: seq<(Validator, Peer)>, com: seq<(Validator, Peer)>)
    requires Fresh(s0) && id.Block? && env.valid(id.hash) && env.applied && !env.waitForTxs && Quorums(s0.votes.vals, pre, com)
    ensures Decided(cfg, s0, env, id, HandleAll(cfg, s0, env, Height(s0, id, pre, com)))
  {
    var es, ps, cs := Opening(s0, id), Ballots(s0, Prevote, id, pre), Ballots(s0, Precommit, id, com);
    HandleConcat(cfg, s0, env, es + ps, cs);
    HandleConcat(cfg, s0, env, es, ps);
    Opens(cfg, s0, env, id);
    var s1 := HandleAll(cfg, s0, env, es);
    PrevotesCount(cfg, s0, env, id, s1, pre);
    PrecommitsCount(cfg, s0, env, id, HandleAll(cfg, s1, env, ps), Who(pre), com);
  }

  /** On the way there: with the polka the node has locked the block, and knows it as the valid one. */
  lemma PolkaLocks(cfg: Config, s0: RoundState, env: Env, id: BlockID, pre: seq<(Validator, Peer)>)
    requires Fresh(s0) && id.Block? && env.valid(id.hash) && !env.waitForTxs && AreValidators(s0.votes.vals, pre)
    ensures var s := HandleAll(cfg, s0, env, Opening(s0, id) + Ballots(s0, Prevote, id, pre));
      var held := if TwoThirds(s0.votes.vals, Who(pre)) then Held(0, Some(id.hash), Some(id.parts)) else NOT_HELD;
      && s.locked == held && s.valid == held && s.decided == s0.decided
      && s.signed == s0.signed + Own(s0, env, Prevote, id) + if TwoThirds(s0.votes.vals, Who(pre)) then Own(s0, env, Precommit, id) else []
  {
    var es, ps := Opening(s0, id), Ballots(s0, Prevote, id, pre);
    HandleConcat(cfg, s0, env, es, ps);
    Opens(cfg, s0, env, id);
    PrevotesCount(cfg, s0, env, id, HandleAll(cfg, s0, env, es), pre);
    assert s0.signed + Own(s0, env, Prevote, id) + [] == s0.signed + Own(s0, env, Prevote, id);
  }

  lemma InitialFresh(cfg: Config, self: Validator)
    ensures Fresh(InitialState(cfg, self)) && InitialState(cfg, self).decided == []
  {
  }

  // ----- any number of heights -----

  /** A block and the quorums that vote for it. */
  datatype Decree = Decree(id: BlockID, pre: seq<(Validator, Peer)>, com: seq<(Validator, Peer)>)

  ghost predicate Enough(cfg: Config, env: Env, decided: seq<Hash>, d: Decree) {
    d.id.Block? && env.valid(d.id.hash) && Quorums(cfg.vals(decided), d.pre, d.com)
  }

  /** Each block has quorums of the validators that follow the blocks before it. */
  ghost predicate Enacts(cfg: Config, env: Env, decided: seq<Hash>, ds: seq<Decree>)
    decreases |ds|
  {
    ds != [] ==> Enough(cfg, env, decided, ds[0]) && Enacts(cfg, env, decided + [ds[0].id.hash], ds[1..])
  }

  function HashesOf(ds: seq<Decree>): seq<Hash> {
    if ds == [] then [] else (if ds[0].id.Block? then [ds[0].id.hash] else []) + HashesOf(ds[1..])
  }

  /** A node at the start of a height that events take from s0 to, having decided these blocks since. */
  ghost predicate Leads(cfg: Config, s0: RoundState, env: Env, es: seq<Event>, s: RoundState, hashes: seq<Hash>) {
    && HandleAll(cfg, s0, env, es) == s && Fresh(s) && s.decided == s0.decided + hashes && s.votes.vals == cfg.vals(s.decided)
  }

  lemma FinalizesNext(cfg: Config, s0: RoundState, env: Env, d: Decree) returns (es: seq<Event>, s: RoundState)
    requires Fresh(s0) && s0.votes.vals == cfg.vals(s0.decided) && Enough(cfg, env, s0.decided, d)
    requires env.applied && !env.waitForTxs && !env.skipTimeoutCommit
    ensures Leads(cfg, s0, env, es, s, [d.id.hash])
  {
    es := Height(s0, d.id, d.pre, d.com);
    s := HandleAll(cfg, s0, env, es);
    Finalizes(cfg, s0, env, d.id, d.pre, d.com);
  }

  lemma Joined(cfg: Config, s0: RoundState, env: Env, es: seq<Event>, s: RoundState, es': seq<Event>, s': RoundState)
    requires HandleAll(cfg, s0, env, es) == s && HandleAll(cfg, s, env, es') == s'
    ensures HandleAll(cfg, s0, env, es + es') == s'
  {
    HandleConcat(cfg, s0, env, es, es');
  }

  lemma Appends(decided: seq<Hash>, a: seq<Hash>, b: seq<Hash>)
    ensures decided + a + b == decided + (a + b)
  {
  }

  lemma LeadsOn(cfg: Config, s0: RoundState, env: Env, es: seq<Event>, s: RoundState, hashes: seq<Hash>, es': seq<Event>, s': RoundState, hashes': seq<Hash>)
    requires Leads(cfg, s0, env, es, s, hashes) && Leads(cfg, s, env, es', s', hashes')
    ensures Leads(cfg, s0, env, es + es', s', hashes + hashes')
  {
    Joined(cfg, s0, env, es, s, es', s');
    Appends(s0.decided, hashes, hashes');
  }

  lemma LeadsNowhere(cfg: Config, s0: RoundState, env: Env)
    requires Fresh(s0) && s0.votes.vals == cfg.vals(s0.decided)
    ensures Leads(cfg, s0, env, [], s0, [])
  {
  }

  /** Whatever chain of valid blocks gets its quorums, height by height, some sequence of events makes the node decide exactly that chain. */
  lemma {:induction false} FinalizesChain(cfg: Config, s0: RoundState, env: Env, ds: seq<Decree>) returns (es: seq<Event>, s: RoundState)
    requires Fresh(s0) && s0.votes.vals == cfg.vals(s0.decided) && Enacts(cfg, env, s0.decided, ds)
    requires env.applied && !env.waitForTxs && !env.skipTimeoutCommit
    ensures Leads(cfg, s0, env, es, s, HashesOf(ds))
    decreases |ds|
  {
    if ds == [] {
      es, s := [], s0;
      LeadsNowhere(cfg, s0, env);
    } else {
      var es1, s1 := FinalizesNext(cfg, s0, env, ds[0]);
      var es2;
      es2, s := FinalizesChain(cfg, s1, env, ds[1..]);
      LeadsOn(cfg, s0, env, es1, s1, [ds[0].id.hash], es2, s, HashesOf(ds[1..]));
      es := es1 + es2;
    }
  }
}
