/**
 Tendermint votes and the per-round vote set (types/vote_set.go): what a
 validator signed, how a node tallies it, and what the tally proves.
 */
module Votes {
  import opened VotingPower

  datatype Option<+T> = None | Some(value: T)

  type Hash = nat
  type PartsHeader = nat
  type Peer = nat

  /** What a vote is for: nothing, or a block hash with its part-set header. */
  datatype BlockID = NilBlock | Block(hash: Hash, parts: PartsHeader)

  datatype Kind = Prevote | Precommit

  datatype Vote = Vote(val: Validator, height: int, round: int, kind: Kind, id: BlockID)

  /** Block.HashesTo: an absent block and an empty hash never match. */
  predicate HashesTo(block: Option<Hash>, id: BlockID) {
    block.Some? && id.Block? && block.value == id.hash
  }

  /** The validators whose signature on exactly this vote is in the log. */
  ghost function Signers(log: seq<Vote>, height: int, round: int, kind: Kind, id: BlockID): (s: set<Validator>)
    ensures forall v :: v in s <==> Vote(v, height, round, kind, id) in log
  {
    set x | x in log && x == Vote(x.val, height, round, kind, id) :: x.val
  }
}

module VoteSets {
  import opened VotingPower
  import opened Votes

  datatype BlockVotes = BlockVotes(peerMaj23: bool, voters: set<Validator>, sum: nat)

  datatype Tally = Tally(
    height: int, round: int, kind: Kind, vals: ValidatorSet,
    votes: map<Validator, BlockID>,
    sum: nat,
    maj23: Option<BlockID>,
    byBlock: map<BlockID, BlockVotes>,
    peerMaj23s: map<Peer, BlockID>)
  {
    predicate HasTwoThirdsAny() { sum > vals.total * 2 / 3 }
    predicate HasAll() { sum == vals.total }
    function Quorum(): nat { vals.total * 2 / 3 + 1 }
  }

  function EmptyTally(height: int, round: int, kind: Kind, vals: ValidatorSet): Tally {
    Tally(height, round, kind, vals, map[], 0, None, map[], map[])
  }

  /** The vote is already recorded, canonically or under its block. */
  predicate Known(t: Tally, v: Vote) {
    || (v.val in t.votes && t.votes[v.val] == v.id)
    || (v.id in t.byBlock && v.val in t.byBlock[v.id].voters)
  }

  /** Checks made before the signature is looked at, and the signature. */
  predicate Acceptable(t: Tally, v: Vote, signed: bool) {
    && v.height == t.height && v.round == t.round && v.kind == t.kind
    && v.val in t.vals.power
    && !Known(t, v)
    && signed
  }

  /** The vote conflicts with a recorded one for a block nobody asked to track. */
  predicate Dropped(t: Tally, v: Vote) {
    && v.val in t.votes
    && (v.id in t.byBlock ==> !t.byBlock[v.id].peerMaj23)
  }

  predicate Added(t: Tally, v: Vote, signed: bool) {
    Acceptable(t, v, signed) && !Dropped(t, v)
  }

  function WithBlockVote(t: Tally, v: Vote): BlockVotes
    requires v.val in t.vals.power
  {
    var prev := if v.id in t.byBlock then t.byBlock[v.id] else BlockVotes(false, {}, 0);
    BlockVotes(prev.peerMaj23, prev.voters + {v.val}, prev.sum + t.vals.power[v.val])
  }

  function Canonical(t: Tally, v: Vote): Tally
    requires v.val in t.vals.power
  {
    if v.val !in t.votes then t.(votes := t.votes[v.val := v.id], sum := t.sum + t.vals.power[v.val])
    else if t.maj23 == Some(v.id) then t.(votes := t.votes[v.val := v.id])
    else t
  }

  function AddVote(t: Tally, v: Vote, signed: bool): Tally {
    if !Acceptable(t, v, signed) then t
    else if Dropped(t, v) then Canonical(t, v)
    else
      var before := if v.id in t.byBlock then t.byBlock[v.id].sum else 0;
      var bv := WithBlockVote(t, v);
      var t1 := Canonical(t, v).(byBlock := t.byBlock[v.id := bv]);
      if before < t.Quorum() <= bv.sum && t.maj23.None? then
        t1.(maj23 := Some(v.id), votes := t1.votes + map x | x in bv.voters :: v.id)
      else t1
  }

  function SetPeerMaj23(t: Tally, peer: Peer, id: BlockID): Tally {
    if peer in t.peerMaj23s then t else
      var prev := if id in t.byBlock then t.byBlock[id] else BlockVotes(true, {}, 0);
      t.(peerMaj23s := t.peerMaj23s[peer := id], byBlock := t.byBlock[id := prev.(peerMaj23 := true)])
  }

  ghost predicate Valid(t: Tally) {
    && t.votes.Keys <= t.vals.power.Keys
    && t.sum == Power(t.vals.power, t.votes.Keys)
    && (forall b :: b in t.byBlock ==>
          && t.byBlock[b].voters <= t.votes.Keys
          && t.byBlock[b].sum == Power(t.vals.power, t.byBlock[b].voters))
    && (t.maj23.Some? ==> t.maj23.value in t.byBlock && TwoThirds(t.vals, t.byBlock[t.maj23.value].voters))
    && (forall b :: b in t.byBlock && TwoThirds(t.vals, t.byBlock[b].voters) ==> t.maj23.Some?)
  }

  /** Every vote counted for a block carries a signature from the log. */
  ghost predicate Backed(t: Tally, log: seq<Vote>) {
    forall b, v :: b in t.byBlock && v in t.byBlock[b].voters ==> Vote(v, t.height, t.round, t.kind, b) in log
  }

  lemma CanonicalCounts(t: Tally, v: Vote)
    requires Valid(t) && v.val in t.vals.power
    ensures var c := Canonical(t, v);
      && c.votes.Keys == t.votes.Keys + {v.val}
      && c.sum == Power(t.vals.power, c.votes.Keys)
      && c.(votes := t.votes, sum := t.sum) == t
  {
    var c := Canonical(t, v);
    if v.val !in t.votes {
      PowerAdd(t.vals.power, t.votes.Keys, v.val);
      assert c.votes.Keys == t.votes.Keys + {v.val};
    } else {
      assert c.votes.Keys == t.votes.Keys == t.votes.Keys + {v.val};
    }
  }

  lemma BlockVoteCounts(t: Tally, v: Vote)
    requires Valid(t) && v.val in t.vals.power && !Known(t, v)
    ensures var bv := WithBlockVote(t, v);
      && bv.sum == Power(t.vals.power, bv.voters)
      && bv.voters == (if v.id in t.byBlock then t.byBlock[v.id].voters else {}) + {v.val}
  {
    PowerAdd(t.vals.power, if v.id in t.byBlock then t.byBlock[v.id].voters else {}, v.val);
  }

  lemma AddVoteKeepsValid(t: Tally, v: Vote, signed: bool)
    requires Valid(t)
    ensures Valid(AddVote(t, v, signed))
  {
    if Acceptable(t, v, signed) {
      CanonicalCounts(t, v);
      if !Dropped(t, v) {
        BlockVoteCounts(t, v);
        AddedKeepsValid(t, v);
      }
    }
  }

  lemma AddedKeepsValid(t: Tally, v: Vote)
    requires Valid(t) && Added(t, v, true)
    requires var bv := WithBlockVote(t, v);
      && bv.sum == Power(t.vals.power, bv.voters)
      && bv.voters == (if v.id in t.byBlock then t.byBlock[v.id].voters else {}) + {v.val}
    requires var c := Canonical(t, v);
      && c.votes.Keys == t.votes.Keys + {v.val}
      && c.sum == Power(t.vals.power, c.votes.Keys)
      && c.(votes := t.votes, sum := t.sum) == t
    ensures Valid(AddVote(t, v, true))
  {
    var bv := WithBlockVote(t, v);
    var t' := AddVote(t, v, true);
    assert t'.votes.Keys == t.votes.Keys + {v.val};
    assert t'.byBlock == t.byBlock[v.id := bv];
    if t.maj23 == Some(v.id) {
      TwoThirdsGrows(t.vals, t.byBlock[v.id].voters, bv.voters);
    }
    assert t.Quorum() <= bv.sum <==> TwoThirds(t.vals, bv.voters);
    if v.id in t.byBlock {
      assert t.Quorum() <= t.byBlock[v.id].sum <==> TwoThirds(t.vals, t.byBlock[v.id].voters);
    }
  }

  lemma AddVoteShape(t: Tally, v: Vote, signed: bool)
    ensures var t' := AddVote(t, v, signed);
      t'.height == t.height && t'.round == t.round && t'.kind == t.kind && t'.vals == t.vals
  {
  }

  /** What one vote does to the counts by block. */
  lemma AddVoteByBlock(t: Tally, v: Vote, signed: bool)
    ensures AddVote(t, v, signed).byBlock == if Added(t, v, signed) then t.byBlock[v.id := WithBlockVote(t, v)] else t.byBlock
  {
  }

  /** A majority, once found, stays; no counted vote is lost; only v can be new. */
  lemma AddVoteGrows(t: Tally, v: Vote, signed: bool)
    requires Valid(t)
    ensures var t' := AddVote(t, v, signed);
      && (t.maj23.Some? ==> t'.maj23 == t.maj23)
      && t.votes.Keys <= t'.votes.Keys && t.sum <= t'.sum
      && (forall b, x :: b in t.byBlock && x in t.byBlock[b].voters ==> b in t'.byBlock && x in t'.byBlock[b].voters)
      && (forall b, x :: b in t'.byBlock && x in t'.byBlock[b].voters ==>
            (b in t.byBlock && x in t.byBlock[b].voters) || (signed && v == Vote(x, t.height, t.round, t.kind, b)))
  {
    AddVoteByBlock(t, v, signed);
    if Acceptable(t, v, signed) {
      CanonicalCounts(t, v);
      PowerSubset(t.vals.power, t.votes.Keys, Canonical(t, v).votes.Keys);
    }
  }

  lemma SetPeerMaj23Keeps(t: Tally, peer: Peer, id: BlockID, log: seq<Vote>)
    requires Valid(t) && Backed(t, log)
    ensures Valid(SetPeerMaj23(t, peer, id)) && Backed(SetPeerMaj23(t, peer, id), log)
  {
  }

  lemma AddVoteKeepsBacked(t: Tally, v: Vote, signed: bool, log: seq<Vote>)
    requires Valid(t) && Backed(t, log)
    requires signed ==> v in log
    ensures Backed(AddVote(t, v, signed), log)
  {
    AddVoteGrows(t, v, signed);
  }

  /** A reported majority is a real one: two thirds of the power signed it. */
  lemma MajorityIsSigned(t: Tally, log: seq<Vote>)
    requires Valid(t) && Backed(t, log) && t.maj23.Some?
    ensures TwoThirds(t.vals, Signers(log, t.height, t.round, t.kind, t.maj23.value))
    ensures t.HasTwoThirdsAny()
  {
    var b := t.maj23.value;
    TwoThirdsGrows(t.vals, t.byBlock[b].voters, Signers(log, t.height, t.round, t.kind, b));
    PowerSubset(t.vals.power, t.byBlock[b].voters, t.votes.Keys);
  }

  // ----- whole runs of a vote set -----

  /** What a vote set is given: a vote with a good signature or a bad one, or a peer's claim of a majority. */
  datatype Offer = Ballot(vote: Vote, signed: bool) | Claim(peer: Peer, id: BlockID)

  function Receive(t: Tally, o: Offer): Tally {
    match o
    case Ballot(v, signed) => AddVote(t, v, signed)
    case Claim(peer, id) => SetPeerMaj23(t, peer, id)
  }

  /** Votes and claims in any order, offered in turn. */
  function Run(t: Tally, offers: seq<Offer>): Tally {
    if offers == [] then t else Receive(Run(t, offers[..|offers| - 1]), offers[|offers| - 1])
  }

  /** The votes among them that carry a good signature. */
  function Cast(offers: seq<Offer>): seq<Vote> {
    if offers == [] then []
    else
      var o := offers[|offers| - 1];
      Cast(offers[..|offers| - 1]) + if o.Ballot? && o.signed then [o.vote] else []
  }

  /** The offered votes that this vote set is about. */
  predicate Relevant(t: Tally, v: Vote) {
    v.height == t.height && v.round == t.round && v.kind == t.kind && v.val in t.vals.power
  }

  ghost function Voters(t: Tally, votes: seq<Vote>): set<Validator> {
    set v | v in votes && Relevant(t, v) :: v.val
  }

  ghost function VotersFor(t: Tally, votes: seq<Vote>, id: BlockID): set<Validator> {
    set v | v in votes && Relevant(t, v) && v.id == id :: v.val
  }

  /** No validator offers two different relevant votes. */
  ghost predicate NoEquivocation(t: Tally, votes: seq<Vote>) {
    forall v, w {:trigger Agree(t, v, w)} :: v in votes && w in votes ==> Agree(t, v, w)
  }

  ghost predicate Agree(t: Tally, v: Vote, w: Vote) {
    Relevant(t, v) && Relevant(t, w) && v.val == w.val ==> v.id == w.id
  }

  lemma {:induction false} RunKeeps(t: Tally, offers: seq<Offer>)
    requires Valid(t)
    ensures var t' := Run(t, offers);
      Valid(t') && t'.height == t.height && t'.round == t.round && t'.kind == t.kind && t'.vals == t.vals
  {
    if offers != [] {
      RunKeeps(t, offers[..|offers| - 1]);
      ReceiveKeeps(Run(t, offers[..|offers| - 1]), offers[|offers| - 1]);
    }
  }

  lemma ReceiveKeeps(t: Tally, o: Offer)
    requires Valid(t)
    ensures var t' := Receive(t, o);
      Valid(t') && t'.height == t.height && t'.round == t.round && t'.kind == t.kind && t'.vals == t.vals
  {
    if o.Ballot? {
      AddVoteKeepsValid(t, o.vote, o.signed);
    }
  }

  /** A claim changes no vote and no voters. */
  lemma ClaimKeepsVoters(t: Tally, peer: Peer, id: BlockID)
    ensures var t' := SetPeerMaj23(t, peer, id);
      && t'.votes == t.votes && t.byBlock.Keys <= t'.byBlock.Keys
      && (forall b :: b in t'.byBlock ==> t'.byBlock[b].voters == if b in t.byBlock then t.byBlock[b].voters else {})
  {
  }

  /** Every vote counted so far was offered; every validator that offered one is counted. */
  ghost predicate Counts(t: Tally, votes: seq<Vote>, r: Tally) {
    && r.votes.Keys == Voters(t, votes)
    && (forall b :: b in r.byBlock ==> r.byBlock[b].voters <= VotersFor(t, votes, b))
  }

  /** The canonical votes are the offered ones, and each is counted for its block. */
  ghost predicate CountsAll(t: Tally, votes: seq<Vote>, r: Tally) {
    && (forall x :: x in r.votes ==> x in VotersFor(t, votes, r.votes[x]))
    && (forall b, x :: x in VotersFor(t, votes, b) ==> b in r.byBlock && x in r.byBlock[b].voters)
  }

  lemma VotersSnoc(t: Tally, votes: seq<Vote>, v: Vote)
    ensures Voters(t, votes + [v]) == Voters(t, votes) + if Relevant(t, v) then {v.val} else {}
    ensures forall b ::
      VotersFor(t, votes + [v], b) == VotersFor(t, votes, b) + if Relevant(t, v) && v.id == b then {v.val} else {}
  {
    assert forall w :: w in votes + [v] <==> w in votes || w == v;
  }

  /** Counted voters of a run that starts empty, equivocating or not. */
  lemma {:induction false} RunCounts(t: Tally, offers: seq<Offer>)
    requires t == EmptyTally(t.height, t.round, t.kind, t.vals)
    ensures Counts(t, Cast(offers), Run(t, offers))
  {
    if offers != [] {
      var rest, o := offers[..|offers| - 1], offers[|offers| - 1];
      RunCounts(t, rest);
      RunKeeps(t, rest);
      match o
      case Ballot(v, signed) =>
        if signed {
          OneMoreCounts(t, Cast(rest), Run(t, rest), v);
        } else {
          assert Cast(rest) + [] == Cast(rest);
        }
      case Claim(peer, id) =>
        assert Cast(rest) + [] == Cast(rest);
        ClaimKeepsVoters(Run(t, rest), peer, id);
    }
  }

  lemma OneMoreCounts(t: Tally, rest: seq<Vote>, r: Tally, v: Vote)
    requires Valid(r) && Counts(t, rest, r)
    requires r.height == t.height && r.round == t.round && r.kind == t.kind && r.vals == t.vals
    ensures Counts(t, rest + [v], AddVote(r, v, true))
  {
    VotersSnoc(t, rest, v);
    AddVoteVoters(r, v, true);
    if !Acceptable(r, v, true) && Relevant(t, v) {
      assert Known(r, v);
    }
    BlockVotersCount(t, rest, r, v);
  }

  lemma AddVoteVoters(r: Tally, v: Vote, signed: bool)
    requires Valid(r)
    ensures AddVote(r, v, signed).votes.Keys == r.votes.Keys + if Acceptable(r, v, signed) then {v.val} else {}
  {
    if Acceptable(r, v, signed) {
      CanonicalCounts(r, v);
      if Added(r, v, signed) {
        assert WithBlockVote(r, v).voters <= r.votes.Keys + {v.val};
      }
    }
  }

  lemma BlockVotersCount(t: Tally, rest: seq<Vote>, r: Tally, v: Vote)
    requires Valid(r) && Counts(t, rest, r)
    requires r.height == t.height && r.round == t.round && r.kind == t.kind && r.vals == t.vals
    ensures var r' := AddVote(r, v, true); forall b :: b in r'.byBlock ==> r'.byBlock[b].voters <= VotersFor(t, rest + [v], b)
  {
    var r' := AddVote(r, v, true);
    VotersSnoc(t, rest, v);
    AddVoteGrows(r, v, true);
    AddVoteStays(r, v);
    forall b, x | b in r'.byBlock && x in r'.byBlock[b].voters ensures x in VotersFor(t, rest + [v], b) {
      if !(b in r.byBlock && x in r.byBlock[b].voters) {
        assert v == Vote(x, t.height, t.round, t.kind, b);
      }
    }
  }

  /** A vote that is counted somewhere new is one of this vote set. */
  lemma AddVoteStays(r: Tally, v: Vote)
    ensures !(v.height == r.height && v.round == r.round && v.kind == r.kind && v.val in r.vals.power) ==> AddVote(r, v, true) == r
  {
  }

  lemma {:induction false} RunCountsAll(t: Tally, offers: seq<Offer>)
    requires t == EmptyTally(t.height, t.round, t.kind, t.vals) && NoEquivocation(t, Cast(offers))
    ensures CountsAll(t, Cast(offers), Run(t, offers))
  {
    if offers != [] {
      var rest, o := offers[..|offers| - 1], offers[|offers| - 1];
      assert forall w :: w in Cast(rest) ==> w in Cast(offers);
      assert NoEquivocation(t, Cast(rest));
      RunCountsAll(t, rest);
      RunCounts(t, rest);
      RunKeeps(t, rest);
      match o
      case Ballot(v, signed) =>
        if signed {
          OneMoreCountsAll(t, Cast(rest), Run(t, rest), v);
        } else {
          assert Cast(rest) + [] == Cast(rest);
        }
      case Claim(peer, id) =>
        assert Cast(rest) + [] == Cast(rest);
        ClaimKeepsVoters(Run(t, rest), peer, id);
    }
  }

  /** Without equivocation an acceptable vote is its validator's first. */
  lemma AcceptedIsFirst(t: Tally, rest: seq<Vote>, r: Tally, v: Vote)
    requires CountsAll(t, rest, r) && NoEquivocation(t, rest + [v])
    requires Relevant(t, v) && v.val in r.votes
    ensures Known(r, v)
  {
    var w :| w in rest && Relevant(t, w) && w.id == r.votes[v.val] && w.val == v.val;
    assert w in rest + [v] && v in rest + [v];
    assert Agree(t, w, v);
  }

  lemma OneMoreCountsAll(t: Tally, rest: seq<Vote>, r: Tally, v: Vote)
    requires Valid(r) && Counts(t, rest, r) && CountsAll(t, rest, r) && NoEquivocation(t, rest + [v])
    requires r.height == t.height && r.round == t.round && r.kind == t.kind && r.vals == t.vals
    ensures CountsAll(t, rest + [v], AddVote(r, v, true))
  {
    if Acceptable(r, v, true) {
      if v.val in r.votes {
        AcceptedIsFirst(t, rest, r, v);
      }
      FirstVoteCounts(t, rest, r, v);
    } else {
      KnownVoteCounts(t, rest, r, v);
    }
  }

  lemma KnownVoteCounts(t: Tally, rest: seq<Vote>, r: Tally, v: Vote)
    requires Counts(t, rest, r) && CountsAll(t, rest, r) && (Relevant(t, v) ==> Known(r, v))
    ensures CountsAll(t, rest + [v], r)
  {
    assert Relevant(t, v) ==> v.val in VotersFor(t, rest, v.id);
    forall b ensures VotersFor(t, rest + [v], b) == VotersFor(t, rest, b) {
      VotersSnoc(t, rest, v);
    }
  }

  /** A first vote is counted for its block; votes recorded change at most to that block. */
  lemma FirstVoteEffect(r: Tally, v: Vote)
    requires Acceptable(r, v, true) && v.val !in r.votes
    ensures var r' := AddVote(r, v, true);
      && r'.byBlock == r.byBlock[v.id := WithBlockVote(r, v)]
      && (forall x :: x in r'.votes ==>
            (r'.votes[x] == v.id && x in WithBlockVote(r, v).voters) || (x in r.votes && r'.votes[x] == r.votes[x]))
  {
  }

  lemma FirstVoteCounts(t: Tally, rest: seq<Vote>, r: Tally, v: Vote)
    requires CountsAll(t, rest, r) && Counts(t, rest, r) && Acceptable(r, v, true) && v.val !in r.votes
    requires r.height == t.height && r.round == t.round && r.kind == t.kind && r.vals == t.vals
    ensures CountsAll(t, rest + [v], AddVote(r, v, true))
  {
    var r', now := AddVote(r, v, true), rest + [v];
    FirstVoteEffect(r, v);
    assert Relevant(t, v);
    forall b ensures VotersFor(t, now, b) == VotersFor(t, rest, b) + if v.id == b then {v.val} else {} {
      VotersSnoc(t, rest, v);
    }
    assert WithBlockVote(r, v).voters <= VotersFor(t, now, v.id);
  }

  /**
   After any sequence of votes and claims the tally is exact: the any-majority test
   counts every validator that voted once, a block majority is genuine, and without
   equivocation it is found exactly when it exists.
   */
  lemma TallyIsExact(t: Tally, offers: seq<Offer>)
    requires t == EmptyTally(t.height, t.round, t.kind, t.vals)
    ensures var t', votes := Run(t, offers), Cast(offers);
      && (t'.HasTwoThirdsAny() <==> TwoThirds(t.vals, Voters(t, votes)))
      && (t'.HasAll() <==> Power(t.vals.power, Voters(t, votes)) == t.vals.total)
      && (t'.maj23.Some? ==> TwoThirds(t.vals, VotersFor(t, votes, t'.maj23.value)))
      && (NoEquivocation(t, votes) ==>
            forall b :: t'.maj23 == Some(b) <==> TwoThirds(t.vals, VotersFor(t, votes, b)))
  {
    assert Valid(t);
    RunKeeps(t, offers);
    RunCounts(t, offers);
    var t', votes := Run(t, offers), Cast(offers);
    if t'.maj23.Some? {
      TwoThirdsGrows(t.vals, t'.byBlock[t'.maj23.value].voters, VotersFor(t, votes, t'.maj23.value));
    }
    if NoEquivocation(t, votes) {
      forall b | TwoThirds(t.vals, VotersFor(t, votes, b)) ensures t'.maj23 == Some(b) {
        MajorityFound(t, offers, b);
      }
    }
  }

  // ----- what a peer's claim is for -----

  /** The votes recorded for b are counted for b. */
  ghost predicate Filed(r: Tally, b: BlockID) {
    forall x :: x in r.votes && r.votes[x] == b ==> b in r.byBlock && x in r.byBlock[b].voters
  }

  /** Every one of these votes for the claimed block b is counted for it, also one that conflicts with an earlier vote. */
  ghost predicate Tracks(t: Tally, votes: seq<Vote>, r: Tally, b: BlockID) {
    b in r.byBlock && r.byBlock[b].peerMaj23 && VotersFor(t, votes, b) <= r.byBlock[b].voters
  }

  lemma VoteTracked(t: Tally, votes: seq<Vote>, r: Tally, v: Vote, b: BlockID)
    requires Valid(r) && Tracks(t, votes, r, b) && Filed(r, b)
    requires r.height == t.height && r.round == t.round && r.kind == t.kind && r.vals == t.vals
    ensures Tracks(t, votes + [v], AddVote(r, v, true), b) && Filed(AddVote(r, v, true), b)
  {
    VotersSnoc(t, votes, v);
    AddVoteByBlock(r, v, true);
    if v.id != b {
      OtherVotesStay(r, v, b);
    } else if !Acceptable(r, v, true) && Relevant(t, v) {
      assert Known(r, v);
    }
  }

  lemma OtherVotesStay(r: Tally, v: Vote, b: BlockID)
    requires v.id != b
    ensures forall x :: x in AddVote(r, v, true).votes && AddVote(r, v, true).votes[x] == b ==> x in r.votes && r.votes[x] == b
  {
  }

  lemma NoVoteTracked(t: Tally, votes: seq<Vote>, r: Tally, o: Offer, b: BlockID)
    requires Tracks(t, votes, r, b) && Filed(r, b) && !(o.Ballot? && o.signed)
    ensures Tracks(t, votes, Receive(r, o), b) && Filed(Receive(r, o), b)
  {
  }

  /** From a tally that tracks b, every vote for b is counted. */
  lemma {:induction false} TrackedOn(t: Tally, after: seq<Offer>, b: BlockID)
    requires Valid(t) && b in t.byBlock && t.byBlock[b].peerMaj23 && Filed(t, b)
    ensures Tracks(t, Cast(after), Run(t, after), b) && Filed(Run(t, after), b)
  {
    if after == [] {
      assert VotersFor(t, [], b) == {};
    } else {
      var rest, o := after[..|after| - 1], after[|after| - 1];
      TrackedOn(t, rest, b);
      RunKeeps(t, rest);
      if o.Ballot? && o.signed {
        VoteTracked(t, Cast(rest), Run(t, rest), o.vote, b);
      } else {
        assert Cast(rest) + [] == Cast(rest);
        NoVoteTracked(t, Cast(rest), Run(t, rest), o, b);
      }
    }
  }

  /** A vote is recorded for b without being counted for b only once b has its majority. */
  ghost predicate FiledOrFound(r: Tally) {
    forall b {:trigger Filed(r, b)} :: Filed(r, b) || r.maj23 == Some(b)
  }

  /** The vote that is recorded for b is counted for b, or b has its majority. */
  lemma VoteFiles(r: Tally, v: Vote, b: BlockID)
    requires Acceptable(r, v, true) && Filed(r, b) && r.maj23 != Some(b) && AddVote(r, v, true).maj23 != Some(b)
    ensures Filed(AddVote(r, v, true), b)
  {
    AddVoteByBlock(r, v, true);
    if v.id != b {
      OtherVotesStay(r, v, b);
    }
  }

  lemma ReceiveFiles(r: Tally, o: Offer, b: BlockID)
    requires Valid(r) && (Filed(r, b) || r.maj23 == Some(b))
    ensures Filed(Receive(r, o), b) || Receive(r, o).maj23 == Some(b)
  {
    match o
    case Ballot(v, signed) =>
      AddVoteGrows(r, v, signed);
      if Acceptable(r, v, signed) && r.maj23 != Some(b) && AddVote(r, v, signed).maj23 != Some(b) {
        VoteFiles(r, v, b);
      }
    case Claim(peer, id) =>
  }

  lemma {:induction false} RunFiles(t: Tally, offers: seq<Offer>)
    requires t == EmptyTally(t.height, t.round, t.kind, t.vals)
    ensures FiledOrFound(Run(t, offers))
  {
    if offers == [] {
      forall b ensures Filed(t, b) {
      }
    } else {
      RunFiles(t, offers[..|offers| - 1]);
      RunKeeps(t, offers[..|offers| - 1]);
      var r, o := Run(t, offers[..|offers| - 1]), offers[|offers| - 1];
      forall b ensures Filed(Receive(r, o), b) || Receive(r, o).maj23 == Some(b) {
        assert Filed(r, b) || r.maj23 == Some(b);
        ReceiveFiles(r, o, b);
      }
    }
  }

  /** The offers before a claim, the claim, and those after it, one after the other. */
  lemma {:induction false} RunSplits(t: Tally, before: seq<Offer>, after: seq<Offer>)
    ensures Run(t, before + after) == Run(Run(t, before), after)
  {
    var all := before + after;
    if after == [] {
      assert all == before;
    } else {
      assert all[..|all| - 1] == before + after[..|after| - 1] && all[|all| - 1] == after[|after| - 1];
      RunSplits(t, before, after[..|after| - 1]);
    }
  }

  /** Where a peer's claim of b, its first one, takes the tally. */
  ghost function Claimed(t: Tally, before: seq<Offer>, peer: Peer, b: BlockID): Tally {
    Receive(Run(t, before), Claim(peer, b))
  }

  lemma ClaimFiles(r: Tally, peer: Peer, b: BlockID)
    requires Valid(r) && peer !in r.peerMaj23s
    ensures var r' := Receive(r, Claim(peer, b));
      Valid(r') && b in r'.byBlock && r'.byBlock[b].peerMaj23 && (Filed(r, b) <==> Filed(r', b))
    ensures Receive(r, Claim(peer, b)).maj23 == r.maj23
  {
    ReceiveKeeps(r, Claim(peer, b));
  }

  /**
   Why peers' claims are kept: whenever a peer makes its first claim and it is of b, every
   validator that offers a vote for b from then on is counted for b, whatever else it voted
   for, unless b had its majority already; in any case a majority of votes for b offered
   from then on does not go unfound.
   */
  lemma ClaimedBlockIsTracked(t: Tally, before: seq<Offer>, peer: Peer, b: BlockID, after: seq<Offer>)
    requires t == EmptyTally(t.height, t.round, t.kind, t.vals) && peer !in Run(t, before).peerMaj23s
    ensures var r := Run(t, before + [Claim(peer, b)] + after);
      && (Run(t, before).maj23 != Some(b) ==> Tracks(t, Cast(after), r, b))
      && (TwoThirds(t.vals, VotersFor(t, Cast(after), b)) ==> r.maj23.Some?)
  {
    var r0, c := Run(t, before), Claimed(t, before, peer, b);
    RunKeeps(t, before);
    RunFiles(t, before);
    ClaimFiles(r0, peer, b);
    assert Run(r0, [Claim(peer, b)]) == c;
    RunSplits(t, before, [Claim(peer, b)]);
    RunSplits(t, before + [Claim(peer, b)], after);
    RunKeeps(c, after);
    SameVoters(t, c, Cast(after), b);
    if r0.maj23 == Some(b) {
      MajorityStays(c, after);
    } else {
      assert Filed(r0, b);
      TrackedOn(c, after, b);
      var voters, r := VotersFor(t, Cast(after), b), Run(c, after);
      if TwoThirds(t.vals, voters) {
        TwoThirdsGrows(t.vals, voters, r.byBlock[b].voters);
      }
    }
  }

  lemma SameVoters(t: Tally, c: Tally, votes: seq<Vote>, b: BlockID)
    requires c.height == t.height && c.round == t.round && c.kind == t.kind && c.vals == t.vals
    ensures VotersFor(t, votes, b) == VotersFor(c, votes, b)
  {
    assert forall v :: Relevant(t, v) <==> Relevant(c, v);
  }

  lemma {:induction false} MajorityStays(t: Tally, offers: seq<Offer>)
    requires Valid(t) && t.maj23.Some?
    ensures Run(t, offers).maj23 == t.maj23
  {
    if offers != [] {
      var rest, o := offers[..|offers| - 1], offers[|offers| - 1];
      MajorityStays(t, rest);
      RunKeeps(t, rest);
      if o.Ballot? {
        AddVoteGrows(Run(t, rest), o.vote, o.signed);
      }
    }
  }

  ghost predicate TracksAfter(t: Tally, c: Tally, after: seq<Offer>, b: BlockID) {
    Tracks(t, Cast(after), Run(c, after), b)
  }

  /** A vote recorded but not counted is taken for known, and never counted. */
  lemma UnfiledIsMissed(t: Tally, c: Tally, x: Validator, b: BlockID)
    requires Valid(c) && c.height == t.height && c.round == t.round && c.kind == t.kind && c.vals == t.vals
    requires b in c.byBlock && x in c.votes && c.votes[x] == b && x !in c.byBlock[b].voters
    ensures !TracksAfter(t, c, [Ballot(Vote(x, t.height, t.round, t.kind, b), true)], b)
  {
    var v := Vote(x, t.height, t.round, t.kind, b);
    var after := [Ballot(v, true)];
    assert after[..0] == [] && Run(c, after) == AddVote(Run(c, []), v, true) == c;
    assert Cast(after) == Cast([]) + [v];
    VotersSnoc(t, Cast([]), v);
  }

  /** All votes for b offered after the claim are counted for b, whatever is offered, exactly when those recorded for b before it were. */
  lemma TracksIff(t: Tally, before: seq<Offer>, peer: Peer, b: BlockID)
    requires t == EmptyTally(t.height, t.round, t.kind, t.vals) && peer !in Run(t, before).peerMaj23s
    ensures (forall after :: TracksAfter(t, Claimed(t, before, peer, b), after, b)) <==> Filed(Run(t, before), b)
  {
    var r, c := Run(t, before), Claimed(t, before, peer, b);
    RunKeeps(t, before);
    ReceiveKeeps(r, Claim(peer, b));
    ClaimFiles(r, peer, b);
    if Filed(r, b) {
      forall after ensures TracksAfter(t, c, after, b) {
        TrackedOn(c, after, b);
        SameVoters(t, c, Cast(after), b);
      }
    } else {
      var x :| x in c.votes && c.votes[x] == b && x !in c.byBlock[b].voters;
      UnfiledIsMissed(t, c, x, b);
    }
  }

  lemma RunThree(t: Tally, a: Offer, b: Offer, c: Offer)
    ensures Run(t, [a] + [b] + [c]) == Receive(Receive(Receive(t, a), b), c)
  {
    var s1, s2 := [a], [a] + [b];
    var s3 := s2 + [c];
    assert s3[..2] == s2 && s2[..1] == s1 && s1[..0] == [];
    assert Run(t, s1) == Receive(Run(t, []), a);
    assert Run(t, s2) == Receive(Run(t, s1), b);
  }

  /** Two validators, one of which has more than two thirds of the power. */
  lemma LopsidedTotal() returns (vals: ValidatorSet)
    ensures vals.power == map[0 := 3, 1 := 1] && vals.total == 4
  {
    var power: map<Validator, nat> := map[0 := 3, 1 := 1];
    PowerAdd(power, {}, 0);
    PowerAdd(power, {} + {0}, 1);
    assert power.Keys == {} + {0} + {1};
    assert Power(power, {}) == 0;
    vals := Validators(power, 4);
  }

  /** A first vote of too little power for a majority. */
  lemma FirstVoteIs(t: Tally, v: Vote)
    requires Acceptable(t, v, true) && t.votes == map[] && t.byBlock == map[] && t.maj23.None? && t.vals.power[v.val] < t.Quorum()
    ensures var t' := AddVote(t, v, true);
      t'.votes == map[v.val := v.id] && t'.maj23.None? && v.id in t'.byBlock && t'.byBlock.Keys == {v.id} && t'.peerMaj23s == t.peerMaj23s
  {
  }

  /** Another validator's vote that makes a majority by itself. */
  lemma DecidingVoteIs(t: Tally, v: Vote, x: Validator)
    requires Acceptable(t, v, true) && v.id !in t.byBlock && t.maj23.None? && v.val !in t.votes && t.vals.power[v.val] >= t.Quorum()
    requires x in t.votes && x != v.val
    ensures var t' := AddVote(t, v, true);
      && t'.maj23 == Some(v.id) && v.id in t'.byBlock && t'.byBlock[v.id] == BlockVotes(false, {v.val}, t.vals.power[v.val])
      && x in t'.votes && t'.votes[x] == t.votes[x] && t'.peerMaj23s == t.peerMaj23s
  {
  }

  /** A conflicting vote for the block that has its majority, with no claim made of it. */
  lemma ConflictingVoteIs(t: Tally, v: Vote)
    requires Acceptable(t, v, true) && v.val in t.votes && t.maj23 == Some(v.id) && v.id in t.byBlock && !t.byBlock[v.id].peerMaj23
    ensures !Filed(AddVote(t, v, true), v.id) && AddVote(t, v, true).peerMaj23s == t.peerMaj23s
  {
    var t' := AddVote(t, v, true);
    assert t'.votes[v.val] == v.id && t'.byBlock == t.byBlock;
  }

  /**
   Votes recorded for b need not be counted for b: validator 1 votes for nothing, 0 gives
   b its majority, and then 1 votes for b.
   */
  lemma LateClaimCanMiss(height: int, round: int, kind: Kind, b: BlockID) returns (t: Tally, before: seq<Offer>)
    requires b != NilBlock
    ensures t == EmptyTally(height, round, kind, t.vals) && Run(t, before).peerMaj23s == map[] && !Filed(Run(t, before), b)
  {
    var vals := LopsidedTotal();
    t := EmptyTally(height, round, kind, vals);
    var u, v, w := Vote(1, height, round, kind, NilBlock), Vote(0, height, round, kind, b), Vote(1, height, round, kind, b);
    before := [Ballot(u, true)] + [Ballot(v, true)] + [Ballot(w, true)];
    RunThree(t, Ballot(u, true), Ballot(v, true), Ballot(w, true));
    FirstVoteIs(t, u);
    var t1 := AddVote(t, u, true);
    DecidingVoteIs(t1, v, 1);
    ConflictingVoteIs(AddVote(t1, v, true), w);
  }

  /** Two majorities of a vote set overlap. */
  lemma Overlap(vals: ValidatorSet, a: set<Validator>, b: set<Validator>) returns (v: Validator)
    requires TwoThirds(vals, a) && TwoThirds(vals, b)
    ensures v in a && v in b
  {
    PowerAtMostTotal(vals, a);
    assert vals.power.Keys - vals.power.Keys == {};
    v := HonestOverlap(vals, a, b, vals.power.Keys);
  }

  lemma MajorityFound(t: Tally, offers: seq<Offer>, b: BlockID)
    requires t == EmptyTally(t.height, t.round, t.kind, t.vals)
    requires NoEquivocation(t, Cast(offers)) && TwoThirds(t.vals, VotersFor(t, Cast(offers), b))
    ensures Run(t, offers).maj23 == Some(b)
  {
    RunKeeps(t, offers);
    RunCounts(t, offers);
    RunCountsAll(t, offers);
    var t', votes := Run(t, offers), Cast(offers);
    var voters := VotersFor(t, votes, b);
    var x := Overlap(t.vals, voters, voters);
    assert b in t'.byBlock && voters <= t'.byBlock[b].voters;
    TwoThirdsGrows(t.vals, voters, t'.byBlock[b].voters);
    var c := t'.maj23.value;
    var y := Overlap(t.vals, voters, t'.byBlock[c].voters);
    assert y in VotersFor(t, votes, c);
    var v1 :| v1 in votes && Relevant(t, v1) && v1.id == b && v1.val == y;
    var v2 :| v2 in votes && Relevant(t, v2) && v2.id == c && v2.val == y;
    assert Agree(t, v1, v2);
  }

  // ----- the commit -----

  /** MakeCommit: the validators whose signature in the commit is for the block; others are absent, or for nil. */
  function CommitSigners(t: Tally): set<Validator> {
    set x | x in t.votes && Some(t.votes[x]) == t.maj23
  }

  /** Who was counted for the majority is recorded for it. */
  ghost predicate MajorityRecorded(t: Tally) {
    t.maj23.Some? ==> t.maj23.value in t.byBlock && t.byBlock[t.maj23.value].voters <= CommitSigners(t)
  }

  lemma VoteRecords(t: Tally, v: Vote, signed: bool)
    requires Valid(t) && MajorityRecorded(t)
    ensures MajorityRecorded(AddVote(t, v, signed))
  {
    var t' := AddVote(t, v, signed);
    if Acceptable(t, v, signed) && t'.maj23.Some? {
      forall x | x in t'.byBlock[t'.maj23.value].voters ensures x in CommitSigners(t') {
        VoterRecorded(t, v, x);
      }
    }
  }

  lemma VoterRecorded(t: Tally, v: Vote, x: Validator)
    requires Valid(t) && MajorityRecorded(t) && Acceptable(t, v, true)
    ensures var t' := AddVote(t, v, true);
      t'.maj23.Some? ==> t'.maj23.value in t'.byBlock && (x in t'.byBlock[t'.maj23.value].voters ==> x in t'.votes && t'.votes[x] == t'.maj23.value)
  {
    if t.maj23.Some? && x in t.byBlock[t.maj23.value].voters {
      assert x in CommitSigners(t);
    }
  }

  lemma {:induction false} RunRecords(t: Tally, offers: seq<Offer>)
    requires Valid(t) && MajorityRecorded(t)
    ensures MajorityRecorded(Run(t, offers))
  {
    if offers != [] {
      var t1, o := Run(t, offers[..|offers| - 1]), offers[|offers| - 1];
      RunKeeps(t, offers[..|offers| - 1]);
      RunRecords(t, offers[..|offers| - 1]);
      if o.Ballot? {
        VoteRecords(t1, o.vote, o.signed);
      }
    }
  }

  /** After any votes and claims, the commit made of a vote set with a majority is signed by more than two thirds of the power. */
  lemma CommitHasMajority(t: Tally, offers: seq<Offer>)
    requires t == EmptyTally(t.height, t.round, t.kind, t.vals) && Run(t, offers).maj23.Some?
    ensures TwoThirds(t.vals, CommitSigners(Run(t, offers)))
  {
    var t' := Run(t, offers);
    RunKeeps(t, offers);
    RunRecords(t, offers);
    TwoThirdsGrows(t.vals, t'.byBlock[t'.maj23.value].voters, CommitSigners(t'));
  }

  // ----- a peer's second claim -----

  lemma {:induction false} ClaimsNoted(t: Tally, offers: seq<Offer>, peer: Peer)
    ensures peer in Run(t, offers).peerMaj23s <==> peer in t.peerMaj23s || exists id :: Claim(peer, id) in offers
  {
    if offers != [] {
      var front, o := offers[..|offers| - 1], offers[|offers| - 1];
      ClaimsNoted(t, front, peer);
      assert forall id :: Claim(peer, id) in offers <==> Claim(peer, id) in front || Claim(peer, id) == o;
      if o.Claim? && o.peer == peer {
        assert Claim(peer, o.id) in offers;
      }
    }
  }

  /** Only a peer's first claim counts: later ones, of whatever block, change nothing. */
  lemma OneClaimEach(t: Tally, offers: seq<Offer>, peer: Peer, id: BlockID, other: BlockID)
    requires Claim(peer, id) in offers
    ensures Run(t, offers + [Claim(peer, other)]) == Run(t, offers)
  {
    ClaimsNoted(t, offers, peer);
    assert (offers + [Claim(peer, other)])[..|offers|] == offers;
  }
}
