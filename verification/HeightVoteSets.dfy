/**
 The vote sets of one height, round by round (consensus/types/height_vote_set.go).
 */
module HeightVoteSets {
  import opened VotingPower
  import opened Votes
  import opened VoteSets

  datatype RoundVotes = RoundVotes(prevotes: Tally, precommits: Tally)

  datatype HeightVotes = HeightVotes(
    height: int, vals: ValidatorSet,
    round: int,                      // max tracked round
    rounds: map<int, RoundVotes>,
    catchup: map<Peer, seq<int>>)    // rounds a peer made us track, at most two
  {
    /** Reads on an untracked round answer as the empty vote set. */
    function Majority(r: int, kind: Kind): Option<BlockID> {
      if r !in rounds then None else if kind.Prevote? then rounds[r].prevotes.maj23 else rounds[r].precommits.maj23
    }

    predicate TwoThirdsAny(r: int, kind: Kind) {
      r in rounds && if kind.Prevote? then rounds[r].prevotes.HasTwoThirdsAny() else rounds[r].precommits.HasTwoThirdsAny()
    }

    predicate HasAll(r: int, kind: Kind) {
      r in rounds && if kind.Prevote? then rounds[r].prevotes.HasAll() else rounds[r].precommits.HasAll()
    }
  }

  function EmptyRound(height: int, r: int, vals: ValidatorSet): RoundVotes {
    RoundVotes(EmptyTally(height, r, Prevote, vals), EmptyTally(height, r, Precommit, vals))
  }

  function NewHeightVotes(height: int, vals: ValidatorSet): HeightVotes {
    HeightVotes(height, vals, 0, map[0 := EmptyRound(height, 0, vals)], map[])
  }

  predicate SetRoundPanics(hv: HeightVotes, r: int) {
    hv.round != 0 && r < hv.round - 1
  }

  /** Tracks every round from one below the old maximum up to r. */
  function SetRound(hv: HeightVotes, r: int): HeightVotes {
    hv.(round := r,
        rounds := (map x | hv.round - 1 <= x <= r :: EmptyRound(hv.height, x, hv.vals)) + hv.rounds)
  }

  function CatchupOf(hv: HeightVotes, peer: Peer): seq<int> {
    if peer in hv.catchup then hv.catchup[peer] else []
  }

  /** The round can be tracked: it already is, or the peer has a catch-up round left. */
  predicate Trackable(hv: HeightVotes, r: int, peer: Peer) {
    r in hv.rounds || |CatchupOf(hv, peer)| < 2
  }

  function Track(hv: HeightVotes, r: int, peer: Peer): HeightVotes {
    if r in hv.rounds then hv else
      hv.(rounds := hv.rounds[r := EmptyRound(hv.height, r, hv.vals)],
          catchup := hv.catchup[peer := CatchupOf(hv, peer) + [r]])
  }

  function TallyFor(rv: RoundVotes, kind: Kind): Tally {
    if kind.Prevote? then rv.prevotes else rv.precommits
  }

  predicate AddedAt(hv: HeightVotes, v: Vote, peer: Peer, signed: bool) {
    Trackable(hv, v.round, peer) && Added(TallyFor(Track(hv, v.round, peer).rounds[v.round], v.kind), v, signed)
  }

  /** The round with the vote counted in the set of its type. */
  function CountVote(rv: RoundVotes, v: Vote, signed: bool): RoundVotes {
    if v.kind.Prevote? then rv.(prevotes := AddVote(rv.prevotes, v, signed))
    else rv.(precommits := AddVote(rv.precommits, v, signed))
  }

  function AddVoteAt(hv: HeightVotes, v: Vote, peer: Peer, signed: bool): HeightVotes {
    if !Trackable(hv, v.round, peer) then hv else
      var hv1 := Track(hv, v.round, peer);
      hv1.(rounds := hv1.rounds[v.round := CountVote(hv1.rounds[v.round], v, signed)])
  }

  /** A peer's claim to have seen a majority; untracked rounds are ignored. */
  function ClaimMaj23(hv: HeightVotes, r: int, kind: Kind, peer: Peer, id: BlockID): HeightVotes {
    if r !in hv.rounds then hv else
      var rv := hv.rounds[r];
      var rv' := if kind.Prevote? then rv.(prevotes := SetPeerMaj23(rv.prevotes, peer, id))
                 else rv.(precommits := SetPeerMaj23(rv.precommits, peer, id));
      hv.(rounds := hv.rounds[r := rv'])
  }

  /** POLInfo: the last tracked round, searching down from r, with a prevote majority; -1 if none. */
  function PolRound(hv: HeightVotes, r: int): int
    decreases r
  {
    if r < 0 then -1 else if hv.Majority(r, Prevote).Some? then r else PolRound(hv, r - 1)
  }

  ghost predicate ValidTally(t: Tally, height: int, r: int, kind: Kind, vals: ValidatorSet, log: seq<Vote>) {
    && t.height == height && t.round == r && t.kind == kind && t.vals == vals
    && Valid(t) && Backed(t, log)
  }

  ghost predicate ValidRound(rv: RoundVotes, height: int, r: int, vals: ValidatorSet, log: seq<Vote>) {
    && ValidTally(rv.prevotes, height, r, Prevote, vals, log)
    && ValidTally(rv.precommits, height, r, Precommit, vals, log)
  }

  ghost predicate ValidVotes(hv: HeightVotes, log: seq<Vote>) {
    && 0 <= hv.round
    && (forall r :: 0 <= r <= hv.round ==> r in hv.rounds)
    && (forall r :: r in hv.rounds ==> ValidRound(hv.rounds[r], hv.height, r, hv.vals, log))
  }

  lemma NewHeightVotesValid(height: int, vals: ValidatorSet, log: seq<Vote>)
    ensures ValidVotes(NewHeightVotes(height, vals), log)
  {
  }

  lemma EmptyRoundValid(height: int, r: int, vals: ValidatorSet, log: seq<Vote>)
    ensures ValidRound(EmptyRound(height, r, vals), height, r, vals, log)
  {
  }

  lemma SetRoundKeeps(hv: HeightVotes, r: int, log: seq<Vote>)
    requires ValidVotes(hv, log) && hv.round <= r + 1 && 0 <= r
    ensures ValidVotes(SetRound(hv, r), log)
  {
    var hv' := SetRound(hv, r);
    forall x | x in hv'.rounds ensures ValidRound(hv'.rounds[x], hv'.height, x, hv'.vals, log) {
      if x !in hv.rounds {
        EmptyRoundValid(hv.height, x, hv.vals, log);
      }
    }
  }

  lemma TrackKeeps(hv: HeightVotes, r: int, peer: Peer, log: seq<Vote>)
    requires ValidVotes(hv, log)
    ensures ValidVotes(Track(hv, r, peer), log)
  {
  }

  lemma AddVoteAtKeeps(hv: HeightVotes, v: Vote, peer: Peer, signed: bool, log: seq<Vote>)
    requires ValidVotes(hv, log) && (signed ==> v in log)
    ensures var hv' := AddVoteAt(hv, v, peer, signed);
      && ValidVotes(hv', log)
      && hv'.height == hv.height && hv'.vals == hv.vals && hv'.round == hv.round
  {
    if Trackable(hv, v.round, peer) {
      TrackKeeps(hv, v.round, peer, log);
      var hv1 := Track(hv, v.round, peer);
      assert ValidRound(hv1.rounds[v.round], hv.height, v.round, hv.vals, log);
      CountVoteKeeps(hv1.rounds[v.round], hv.height, v.round, hv.vals, v, signed, log);
      ReplaceKeeps(hv1, v.round, CountVote(hv1.rounds[v.round], v, signed), log);
    }
  }

  lemma CountVoteKeeps(rv: RoundVotes, height: int, r: int, vals: ValidatorSet, v: Vote, signed: bool, log: seq<Vote>)
    requires ValidRound(rv, height, r, vals, log) && (signed ==> v in log)
    ensures ValidRound(CountVote(rv, v, signed), height, r, vals, log)
  {
    TallyKeeps(rv.prevotes, height, r, Prevote, vals, v, signed, log);
    TallyKeeps(rv.precommits, height, r, Precommit, vals, v, signed, log);
  }

  lemma TallyKeeps(t: Tally, height: int, r: int, kind: Kind, vals: ValidatorSet, v: Vote, signed: bool, log: seq<Vote>)
    requires ValidTally(t, height, r, kind, vals, log) && (signed ==> v in log)
    ensures ValidTally(AddVote(t, v, signed), height, r, kind, vals, log)
  {
    AddVoteKeepsValid(t, v, signed);
    AddVoteKeepsBacked(t, v, signed, log);
    AddVoteShape(t, v, signed);
  }

  lemma ReplaceKeeps(hv: HeightVotes, r: int, rv: RoundVotes, log: seq<Vote>)
    requires ValidVotes(hv, log) && r in hv.rounds && ValidRound(rv, hv.height, r, hv.vals, log)
    ensures ValidVotes(hv.(rounds := hv.rounds[r := rv]), log)
  {
  }

  lemma ClaimMaj23Keeps(hv: HeightVotes, r: int, kind: Kind, peer: Peer, id: BlockID, log: seq<Vote>)
    requires ValidVotes(hv, log)
    ensures var hv' := ClaimMaj23(hv, r, kind, peer, id);
      && ValidVotes(hv', log)
      && hv'.height == hv.height && hv'.vals == hv.vals && hv'.round == hv.round
  {
    if r in hv.rounds {
      assert ValidRound(hv.rounds[r], hv.height, r, hv.vals, log);
      SetPeerMaj23Keeps(TallyFor(hv.rounds[r], kind), peer, id, log);
    }
  }

  lemma MoreLogKeepsVotes(hv: HeightVotes, log: seq<Vote>, log': seq<Vote>)
    requires ValidVotes(hv, log) && log <= log'
    ensures ValidVotes(hv, log')
  {
    assert forall v :: v in log ==> v in log';
  }

  /** A majority a node sees was signed by two thirds of the height's power. */
  lemma SeenMajorityIsSigned(hv: HeightVotes, r: int, kind: Kind, log: seq<Vote>)
    requires ValidVotes(hv, log) && hv.Majority(r, kind).Some?
    ensures TwoThirds(hv.vals, Signers(log, hv.height, r, kind, hv.Majority(r, kind).value))
    ensures hv.TwoThirdsAny(r, kind)
  {
    assert ValidRound(hv.rounds[r], hv.height, r, hv.vals, log);
    MajorityIsSigned(TallyFor(hv.rounds[r], kind), log);
  }

  lemma {:induction false} PolRoundReaches(hv: HeightVotes, r: int, top: int)
    requires 0 <= r <= top && hv.Majority(r, Prevote).Some?
    ensures PolRound(hv, top) >= r
    decreases top
  {
    if r < top && hv.Majority(top, Prevote).None? {
      PolRoundReaches(hv, r, top - 1);
    }
  }

  /** POLInfo gives the last round up to r that has a prevote majority, and -1 exactly when there is none. */
  lemma {:induction false} PolRoundIs(hv: HeightVotes, r: int, q: int)
    ensures var p := PolRound(hv, r); if p < 0 then p == -1 else p <= r && hv.Majority(p, Prevote).Some?
    ensures 0 <= q <= r && hv.Majority(q, Prevote).Some? ==> PolRound(hv, r) >= q
    decreases r
  {
    if r >= 0 && hv.Majority(r, Prevote).None? {
      PolRoundIs(hv, r - 1, q);
    }
  }

  // ----- any sequence of votes, claims and round changes -----

  datatype Op =
    | Counted(v: Vote, peer: Peer, signed: bool)
    | Claimed(round: int, kind: Kind, peer: Peer, id: BlockID)
    | Advanced(round: int)

  function Do(hv: HeightVotes, op: Op): HeightVotes {
    match op
    case Counted(v, peer, signed) => AddVoteAt(hv, v, peer, signed)
    case Claimed(r, kind, peer, id) => ClaimMaj23(hv, r, kind, peer, id)
    case Advanced(r) => SetRound(hv, r)
  }

  function DoAll(hv: HeightVotes, ops: seq<Op>): HeightVotes {
    if ops == [] then hv else Do(DoAll(hv, ops[..|ops| - 1]), ops[|ops| - 1])
  }

  /** What an operation offers the vote set of (r, kind), when the round is tracked or can be. */
  ghost function OfferOf(hv: HeightVotes, op: Op, r: int, kind: Kind): seq<Offer> {
    match op
    case Counted(v, peer, signed) => if v.round == r && v.kind == kind && Trackable(hv, r, peer) then [Ballot(v, signed)] else []
    case Claimed(round, k, peer, id) => if round == r && k == kind && r in hv.rounds then [Claim(peer, id)] else []
    case Advanced(_) => []
  }

  ghost function OffersFor(hv: HeightVotes, ops: seq<Op>, r: int, kind: Kind): seq<Offer> {
    if ops == [] then []
    else
      var rest := ops[..|ops| - 1];
      OffersFor(hv, rest, r, kind) + OfferOf(DoAll(hv, rest), ops[|ops| - 1], r, kind)
  }

  lemma RunSnoc(t: Tally, offers: seq<Offer>, o: Offer)
    ensures Run(t, offers + [o]) == Receive(Run(t, offers), o)
  {
    assert (offers + [o])[..|offers|] == offers;
  }

  /** The vote set of (r, kind), empty if the round is not tracked. */
  function TallyOr(hv: HeightVotes, r: int, kind: Kind): Tally {
    if r in hv.rounds then TallyFor(hv.rounds[r], kind) else EmptyTally(hv.height, r, kind, hv.vals)
  }

  lemma CountIs(hv: HeightVotes, v: Vote, peer: Peer, signed: bool, r: int, kind: Kind)
    ensures var hv' := AddVoteAt(hv, v, peer, signed);
      && hv'.height == hv.height && hv'.vals == hv.vals && (r in hv'.rounds <==> r in hv.rounds || (r == v.round && Trackable(hv, r, peer)))
      && TallyOr(hv', r, kind) == if v.round == r && v.kind == kind && Trackable(hv, r, peer) then AddVote(TallyOr(hv, r, kind), v, signed) else TallyOr(hv, r, kind)
  {
    if Trackable(hv, v.round, peer) {
      var rv := Track(hv, v.round, peer).rounds[v.round];
      assert TallyFor(CountVote(rv, v, signed), kind) == if v.kind == kind then AddVote(TallyFor(rv, kind), v, signed) else TallyFor(rv, kind);
    }
  }

  lemma ClaimIs(hv: HeightVotes, round: int, k: Kind, peer: Peer, id: BlockID, r: int, kind: Kind)
    ensures var hv' := ClaimMaj23(hv, round, k, peer, id);
      && hv'.height == hv.height && hv'.vals == hv.vals && hv'.rounds.Keys == hv.rounds.Keys
      && TallyOr(hv', r, kind) == if round == r && k == kind && r in hv.rounds then SetPeerMaj23(TallyOr(hv, r, kind), peer, id) else TallyOr(hv, r, kind)
  {
  }

  lemma AdvanceIs(hv: HeightVotes, round: int, r: int, kind: Kind)
    ensures var hv' := SetRound(hv, round);
      hv'.height == hv.height && hv'.vals == hv.vals && TallyOr(hv', r, kind) == TallyOr(hv, r, kind) && (r in hv.rounds ==> r in hv'.rounds)
  {
  }

  lemma OffersTally(t: Tally, t': Tally, hv: HeightVotes, op: Op, r: int, kind: Kind, offers: seq<Offer>)
    requires t == Run(EmptyTally(hv.height, r, kind, hv.vals), offers)
    requires t' == if OfferOf(hv, op, r, kind) == [] then t else Receive(t, OfferOf(hv, op, r, kind)[0])
    ensures t' == Run(EmptyTally(hv.height, r, kind, hv.vals), offers + OfferOf(hv, op, r, kind))
  {
    if OfferOf(hv, op, r, kind) == [] {
      assert offers + [] == offers;
    } else {
      RunSnoc(EmptyTally(hv.height, r, kind, hv.vals), offers, OfferOf(hv, op, r, kind)[0]);
    }
  }

  lemma DoTallies(hv: HeightVotes, op: Op, r: int, kind: Kind, offers: seq<Offer>)
    requires TallyOr(hv, r, kind) == Run(EmptyTally(hv.height, r, kind, hv.vals), offers)
    ensures TallyOr(Do(hv, op), r, kind) == Run(EmptyTally(hv.height, r, kind, hv.vals), offers + OfferOf(hv, op, r, kind))
    ensures Do(hv, op).height == hv.height && Do(hv, op).vals == hv.vals
  {
    match op
    case Counted(v, peer, signed) =>
      CountIs(hv, v, peer, signed, r, kind);
      OffersTally(TallyOr(hv, r, kind), TallyOr(Do(hv, op), r, kind), hv, op, r, kind, offers);
    case Claimed(round, k, peer, id) =>
      ClaimIs(hv, round, k, peer, id, r, kind);
      OffersTally(TallyOr(hv, r, kind), TallyOr(Do(hv, op), r, kind), hv, op, r, kind, offers);
    case Advanced(round) =>
      AdvanceIs(hv, round, r, kind);
      assert offers + [] == offers;
  }

  /**
   Every vote set of a height is exact: after any votes, claims and round changes, the set
   of a tracked round and type is the one its own offers make, in order. A vote for a round
   that is not tracked is one of them exactly if the peer still has a catch-up round.
   */
  lemma {:induction false} RoundsTally(height: int, vals: ValidatorSet, ops: seq<Op>, r: int, kind: Kind)
    ensures var hv0 := NewHeightVotes(height, vals);
      var hv := DoAll(hv0, ops);
      hv.height == height && hv.vals == vals && TallyOr(hv, r, kind) == Run(EmptyTally(height, r, kind, vals), OffersFor(hv0, ops, r, kind))
  {
    if ops != [] {
      RoundsTally(height, vals, ops[..|ops| - 1], r, kind);
      var hv0 := NewHeightVotes(height, vals);
      DoTallies(DoAll(hv0, ops[..|ops| - 1]), ops[|ops| - 1], r, kind, OffersFor(hv0, ops[..|ops| - 1], r, kind));
    }
  }

  /** A majority of a round is seen exactly when it is there, among the votes offered to the round, unless a validator equivocates. */
  lemma RoundMajorityIff(height: int, vals: ValidatorSet, ops: seq<Op>, r: int, kind: Kind, b: BlockID)
    requires var hv0 := NewHeightVotes(height, vals); NoEquivocation(EmptyTally(height, r, kind, vals), Cast(OffersFor(hv0, ops, r, kind)))
    ensures var hv0 := NewHeightVotes(height, vals);
      DoAll(hv0, ops).Majority(r, kind) == Some(b) <==>
      TwoThirds(vals, VotersFor(EmptyTally(height, r, kind, vals), Cast(OffersFor(hv0, ops, r, kind)), b))
  {
    var hv0 := NewHeightVotes(height, vals);
    RoundsTally(height, vals, ops, r, kind);
    TallyIsExact(EmptyTally(height, r, kind, vals), OffersFor(hv0, ops, r, kind));
    assert DoAll(hv0, ops).Majority(r, kind) == TallyOr(DoAll(hv0, ops), r, kind).maj23;
  }

  /** Two thirds of the power, or all of it, has voted in a round exactly when the validators that did have it, whatever they voted for. */
  lemma RoundCountsIff(height: int, vals: ValidatorSet, ops: seq<Op>, r: int, kind: Kind)
    ensures var hv0, t := NewHeightVotes(height, vals), EmptyTally(height, r, kind, vals);
      var hv, voters := DoAll(hv0, ops), Voters(t, Cast(OffersFor(hv0, ops, r, kind)));
      && (hv.TwoThirdsAny(r, kind) <==> TwoThirds(vals, voters))
      && (hv.HasAll(r, kind) <==> r in hv.rounds && Power(vals.power, voters) == vals.total)
  {
    var hv0, t := NewHeightVotes(height, vals), EmptyTally(height, r, kind, vals);
    var hv := DoAll(hv0, ops);
    RoundsTally(height, vals, ops, r, kind);
    TallyIsExact(t, OffersFor(hv0, ops, r, kind));
    assert r in hv.rounds ==> TallyOr(hv, r, kind) == TallyFor(hv.rounds[r], kind);
    assert r !in hv.rounds ==> !TallyOr(hv, r, kind).HasTwoThirdsAny();
  }

  /** A peer makes the node track two rounds that it does not track yet, and no third one. */
  lemma TwoCatchUps(hv: HeightVotes, peer: Peer, v1: Vote, v2: Vote, v3: Vote)
    requires peer !in hv.catchup && v1.round !in hv.rounds && v2.round !in hv.rounds && v3.round !in hv.rounds
    requires v1.round != v2.round && v1.round != v3.round && v2.round != v3.round
    ensures var hv' := AddVoteAt(AddVoteAt(AddVoteAt(hv, v1, peer, true), v2, peer, true), v3, peer, true);
      v1.round in hv'.rounds && v2.round in hv'.rounds && v3.round !in hv'.rounds
  {
    var hv1 := AddVoteAt(hv, v1, peer, true);
    var hv2 := AddVoteAt(hv1, v2, peer, true);
    assert CatchupOf(hv1, peer) == [] + [v1.round];
    assert CatchupOf(hv2, peer) == [] + [v1.round] + [v2.round];
  }
}
