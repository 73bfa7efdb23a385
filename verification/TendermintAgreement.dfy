/**
 Any number of Tendermint nodes, arbitrary votes by faulty validators, and
 every interleaving: the chains that correct nodes finalize never diverge.
 */
module TendermintAgreement {
  import opened VotingPower
  import opened Votes
  import opened VoteSets
  import opened HeightVoteSets
  import opened RoundStates
  import opened NodeInvariant
  import opened NodeSteps

  /** All votes ever signed, oldest first, and the correct nodes. */
  datatype Network = Network(log: seq<Vote>, nodes: map<Validator, RoundState>)

  /** A correct node handles an event, or a faulty validator signs anything. */
  datatype Action = NodeHandles(n: Validator, env: Env, e: Event) | FaultySigns(v: Vote)

  ghost predicate Enabled(net: Network, a: Action) {
    match a
    case NodeHandles(n, _, e) => n in net.nodes && Possible(net.log, net.nodes[n], e)
    case FaultySigns(v) => v.val !in net.nodes
  }

  function VotesOf(signed: seq<Signed>): (vs: seq<Vote>)
    ensures |vs| == |signed| && forall i :: 0 <= i < |vs| ==> vs[i] == signed[i].vote
  {
    if signed == [] then [] else VotesOf(signed[..|signed| - 1]) + [signed[|signed| - 1].vote]
  }

  /** The votes a transition added. */
  function NewVotes(s: RoundState, s': RoundState): seq<Vote> {
    if |s.signed| <= |s'.signed| then VotesOf(s'.signed[|s.signed|..]) else []
  }

  function Apply(cfg: Config, net: Network, a: Action): Network {
    match a
    case NodeHandles(n, env, e) =>
      if n !in net.nodes then net else
        var s' := Handle(cfg, net.nodes[n], env, e);
        Network(net.log + NewVotes(net.nodes[n], s'), net.nodes[n := s'])
    case FaultySigns(v) => net.(log := net.log + [v])
  }

  ghost predicate Start(cfg: Config, net: Network) {
    net.log == [] && forall n :: n in net.nodes ==> net.nodes[n] == InitialState(cfg, n)
  }

  ghost predicate StepAt(cfg: Config, nets: seq<Network>, run: seq<Action>, i: nat)
    requires |nets| == |run| + 1 && i < |run|
  {
    Enabled(nets[i], run[i]) && nets[i + 1] == Apply(cfg, nets[i], run[i])
  }

  /** The states of a run from the start, one after each action. */
  ghost predicate IsRun(cfg: Config, nets: seq<Network>, run: seq<Action>) {
    && |nets| == |run| + 1 && Start(cfg, nets[0])
    && forall i {:trigger StepAt(cfg, nets, run, i)} :: 0 <= i < |run| ==> StepAt(cfg, nets, run, i)
  }

  ghost predicate FewFaultyAfter(cfg: Config, net: Network, n: Validator, k: nat)
    requires n in net.nodes && k <= |net.nodes[n].decided|
  {
    FewFaulty(cfg.vals(net.nodes[n].decided[..k]), net.nodes.Keys)
  }

  /** In every validator set that a correct node's decisions led to, the faulty hold less than a third of the power. */
  ghost predicate MostlyCorrect(cfg: Config, net: Network) {
    forall n, k {:trigger FewFaultyAfter(cfg, net, n, k)} ::
      n in net.nodes && 0 <= k <= |net.nodes[n].decided| ==> FewFaultyAfter(cfg, net, n, k)
  }

  // ----- more signed votes keep what was true -----

  lemma MoreSigners(log: seq<Vote>, log': seq<Vote>, h: int, r: int, kind: Kind, id: BlockID)
    requires log <= log'
    ensures Signers(log, h, r, kind, id) <= Signers(log', h, r, kind, id)
  {
    assert forall v :: v in log ==> v in log';
  }

  lemma PolkaStays(cfg: Config, log: seq<Vote>, log': seq<Vote>, chain: seq<Hash>, h: int, r: int, id: BlockID)
    requires log <= log' && Polka(cfg, log, chain, h, r, id)
    ensures Polka(cfg, log', chain, h, r, id)
  {
    MoreSigners(log, log', h, r, Prevote, id);
    TwoThirdsGrows(cfg.vals(chain), Signers(log, h, r, Prevote, id), Signers(log', h, r, Prevote, id));
  }

  lemma OtherPolkaStays(cfg: Config, log: seq<Vote>, log': seq<Vote>, chain: seq<Hash>, h: int, lo: int, hi: int, hash: Hash)
    requires log <= log' && OtherPolka(cfg, log, chain, h, lo, hi, hash)
    ensures OtherPolka(cfg, log', chain, h, lo, hi, hash)
  {
    var r, id :| lo < r <= hi && Polka(cfg, log, chain, h, r, id) && !HashesTo(Some(hash), id);
    PolkaStays(cfg, log, log', chain, h, r, id);
  }

  lemma HasPolkaStays(cfg: Config, log: seq<Vote>, log': seq<Vote>, chain: seq<Hash>, h: int, r: int, hash: Hash)
    requires log <= log' && HasPolka(cfg, log, chain, h, r, hash)
    ensures HasPolka(cfg, log', chain, h, r, hash)
  {
    var id :| HashesTo(Some(hash), id) && Polka(cfg, log, chain, h, r, id);
    PolkaStays(cfg, log, log', chain, h, r, id);
  }

  lemma FinalizedStays(cfg: Config, log: seq<Vote>, log': seq<Vote>, chain: seq<Hash>, h: int, hash: Hash)
    requires log <= log' && Finalized(cfg, log, chain, h, hash)
    ensures Finalized(cfg, log', chain, h, hash)
  {
    var r, id :| CommitQuorum(cfg, log, chain, h, r, id) && HashesTo(Some(hash), id);
    MoreSigners(log, log', h, r, Precommit, id);
    TwoThirdsGrows(cfg.vals(chain), Signers(log, h, r, Precommit, id), Signers(log', h, r, Precommit, id));
    assert CommitQuorum(cfg, log', chain, h, r, id);
  }

  lemma PrecommitJustifiedStays(cfg: Config, log: seq<Vote>, log': seq<Vote>, s: RoundState, v: Vote)
    requires log <= log' && PrecommitJustified(cfg, log, s, v)
    ensures PrecommitJustified(cfg, log', s, v)
  {
    if v.kind.Precommit? && v.id.Block? {
      PolkaStays(cfg, log, log', ChainAt(cfg, s, v.height), v.height, v.round, v.id);
    }
  }

  lemma PrevoteFollowsStays(cfg: Config, log: seq<Vote>, log': seq<Vote>, s: RoundState, v: Vote, pc: Vote)
    requires log <= log' && PrevoteFollows(cfg, log, s, v, pc)
    ensures PrevoteFollows(cfg, log', s, v, pc)
  {
    if pc.kind.Precommit? && pc.id.Block?
      && OtherPolka(cfg, log, ChainAt(cfg, s, v.height), v.height, pc.round, v.round, pc.id.hash) {
      OtherPolkaStays(cfg, log, log', ChainAt(cfg, s, v.height), v.height, pc.round, v.round, pc.id.hash);
    }
  }

  lemma JustifiedStays(cfg: Config, log: seq<Vote>, log': seq<Vote>, s: RoundState)
    requires log <= log' && Justified(cfg, log, s)
    ensures Justified(cfg, log', s)
  {
    forall i | 0 <= i < |s.signed| ensures PrecommitJustified(cfg, log', s, s.signed[i].vote) {
      PrecommitJustifiedStays(cfg, log, log', s, s.signed[i].vote);
    }
    forall i, j | 0 <= i < |s.signed| && 0 <= j < |s.signed|
      ensures PrevoteFollows(cfg, log', s, s.signed[i].vote, s.signed[j].vote)
    {
      PrevoteFollowsStays(cfg, log, log', s, s.signed[i].vote, s.signed[j].vote);
    }
  }

  lemma LocksKeptStay(cfg: Config, log: seq<Vote>, log': seq<Vote>, s: RoundState)
    requires log <= log' && LocksKept(cfg, log, s)
    ensures LocksKept(cfg, log', s)
  {
    forall i | 0 <= i < |s.signed|
      ensures var v := s.signed[i].vote;
        v.kind.Precommit? && v.id.Block? && v.height == s.height ==> Keeps(cfg, log', s, v.id.hash, v.round)
    {
      var v := s.signed[i].vote;
      if v.kind.Precommit? && v.id.Block? && v.height == s.height
        && !(s.locked.block == Some(v.id.hash) && s.locked.round >= v.round) {
        OtherPolkaStays(cfg, log, log', s.decided, s.height, v.round, s.round, v.id.hash);
      }
    }
  }

  lemma InvStays(cfg: Config, log: seq<Vote>, log': seq<Vote>, s: RoundState)
    requires log <= log' && Inv(cfg, log, s)
    ensures Inv(cfg, log', s)
  {
    MoreLogKeepsVotes(s.votes, log, log');
    if s.locked.block.Some? {
      HasPolkaStays(cfg, log, log', s.decided, s.height, s.locked.round, s.locked.block.value);
    }
    if s.valid.block.Some? {
      HasPolkaStays(cfg, log, log', s.decided, s.height, s.valid.round, s.valid.block.value);
    }
    JustifiedStays(cfg, log, log', s);
    LocksKeptStay(cfg, log, log', s);
    forall k | 0 <= k < |s.decided| ensures Finalized(cfg, log', s.decided[..k], cfg.initialHeight + k, s.decided[k]) {
      FinalizedStays(cfg, log, log', s.decided[..k], cfg.initialHeight + k, s.decided[k]);
    }
  }

  // ----- the invariant of the network -----

  ghost predicate Recorded(s: RoundState, v: Vote) {
    exists j :: 0 <= j < |s.signed| && s.signed[j].vote == v
  }

  /** A vote of a correct node is one it recorded, justified by the votes signed before it. */
  ghost predicate EntryOk(cfg: Config, net: Network, i: nat)
    requires i < |net.log|
  {
    net.log[i].val in net.nodes ==>
      && Recorded(net.nodes[net.log[i].val], net.log[i])
      && PrecommitJustified(cfg, net.log[..i], net.nodes[net.log[i].val], net.log[i])
  }

  ghost predicate PairOk(cfg: Config, net: Network, i: nat, j: nat)
    requires i < |net.log| && j < |net.log|
  {
    net.log[i].val in net.nodes && net.log[j].val == net.log[i].val ==>
      PrevoteFollows(cfg, net.log[..i], net.nodes[net.log[i].val], net.log[i], net.log[j])
  }

  ghost predicate NodeOk(cfg: Config, net: Network, n: Validator)
    requires n in net.nodes
  {
    net.nodes[n].self == n && Inv(cfg, net.log, net.nodes[n])
  }

  ghost predicate NetInv(cfg: Config, net: Network) {
    && (forall n {:trigger NodeOk(cfg, net, n)} :: n in net.nodes ==> NodeOk(cfg, net, n))
    && (forall i :: 0 <= i < |net.log| ==> EntryOk(cfg, net, i))
    && (forall i, j :: 0 <= i < |net.log| && 0 <= j < |net.log| ==> PairOk(cfg, net, i, j))
  }

  lemma StartGood(cfg: Config, net: Network)
    requires Start(cfg, net)
    ensures NetInv(cfg, net)
  {
    NewHeightVotesValid(cfg.initialHeight, cfg.vals([]), []);
  }

  lemma FaultyGood(cfg: Config, net: Network, v: Vote)
    requires NetInv(cfg, net) && v.val !in net.nodes
    ensures NetInv(cfg, net.(log := net.log + [v]))
  {
    var log' := net.log + [v];
    var net' := net.(log := log');
    forall n | n in net'.nodes ensures NodeOk(cfg, net', n) {
      assert NodeOk(cfg, net, n);
      InvStays(cfg, net.log, log', net.nodes[n]);
    }
    forall i | 0 <= i < |log'| ensures EntryOk(cfg, net', i) {
      if i < |net.log| {
        assert EntryOk(cfg, net, i) && log'[..i] == net.log[..i];
      }
    }
    forall i, j | 0 <= i < |log'| && 0 <= j < |log'| ensures PairOk(cfg, net', i, j) {
      if i < |net.log| && j < |net.log| {
        assert PairOk(cfg, net, i, j) && log'[..i] == net.log[..i];
      }
    }
  }

  /** A vote a node has recorded keeps its chain when the node moves on. */
  lemma SameChain(cfg: Config, log: seq<Vote>, s: RoundState, s': RoundState, v: Vote)
    requires Inv(cfg, log, s) && Grows(cfg, log, s, s') && Recorded(s, v)
    ensures Recorded(s', v) && ChainAt(cfg, s', v.height) == ChainAt(cfg, s, v.height)
  {
    var j :| 0 <= j < |s.signed| && s.signed[j].vote == v;
    assert s'.signed[j] == s.signed[j];
    assert Reached(s, v);
  }

  /** An older vote cannot depart from a newer precommit. */
  lemma OlderCannotFollow(cfg: Config, log: seq<Vote>, s: RoundState, v: Vote, pc: Vote)
    requires Before(v, pc)
    ensures PrevoteFollows(cfg, log, s, v, pc)
  {
  }

  /** One entry of the log after node n has moved from s to s'. */
  lemma EntryGood(cfg: Config, net: Network, n: Validator, s': RoundState, i: nat)
    requires NetInv(cfg, net) && n in net.nodes && Good(cfg, net.log, net.nodes[n], s')
    requires var log' := net.log + NewVotes(net.nodes[n], s'); i < |log'| && log'[i].val == n
    ensures var log' := net.log + NewVotes(net.nodes[n], s');
      Recorded(s', log'[i]) && PrecommitJustified(cfg, log'[..i], s', log'[i])
  {
    var s, log := net.nodes[n], net.log;
    var log' := log + NewVotes(s, s');
    assert NodeOk(cfg, net, n);
    if i < |log| {
      assert log'[..i] == log[..i] && log'[i] == log[i];
      assert EntryOk(cfg, net, i);
      SameChain(cfg, log, s, s', log[i]);
    } else {
      var k := |s.signed| + (i - |log|);
      assert log'[i] == s'.signed[k].vote;
      assert log <= log'[..i];
      PrecommitJustifiedStays(cfg, log, log'[..i], s', log'[i]);
    }
  }

  lemma PairGood(cfg: Config, net: Network, n: Validator, s': RoundState, i: nat, j: nat)
    requires NetInv(cfg, net) && n in net.nodes && Good(cfg, net.log, net.nodes[n], s')
    requires var log' := net.log + NewVotes(net.nodes[n], s');
      i < |log'| && j < |log'| && log'[i].val == n && log'[j].val == n
    ensures var log' := net.log + NewVotes(net.nodes[n], s');
      PrevoteFollows(cfg, log'[..i], s', log'[i], log'[j])
  {
    var s, log := net.nodes[n], net.log;
    var log' := log + NewVotes(s, s');
    if i >= |log| {
      EntryGood(cfg, net, n, s', j);
      NewPair(cfg, net.log, s, s', i - |log|, log'[j]);
      assert log <= log'[..i];
      PrevoteFollowsStays(cfg, log, log'[..i], s', log'[i], log'[j]);
    } else {
      assert log'[..i] == log[..i] && log'[i] == log[i];
      assert EntryOk(cfg, net, i) && NodeOk(cfg, net, n);
      SameChain(cfg, log, s, s', log[i]);
      if j >= |log| {
        OldNewPair(cfg, log, s, s', log[i], j - |log|);
        OlderCannotFollow(cfg, log'[..i], s', log'[i], log'[j]);
      } else {
        assert log'[j] == log[j];
        assert PairOk(cfg, net, i, j);
      }
    }
  }

  lemma NewPair(cfg: Config, log: seq<Vote>, s: RoundState, s': RoundState, i: nat, w: Vote)
    requires Good(cfg, log, s, s') && i < |NewVotes(s, s')| && Recorded(s', w)
    ensures PrevoteFollows(cfg, log, s', NewVotes(s, s')[i], w)
  {
    var b :| 0 <= b < |s'.signed| && s'.signed[b].vote == w;
    assert s'.signed[|s.signed| + i].vote == NewVotes(s, s')[i];
  }

  lemma OldNewPair(cfg: Config, log: seq<Vote>, s: RoundState, s': RoundState, v: Vote, j: nat)
    requires Good(cfg, log, s, s') && Recorded(s, v) && j < |NewVotes(s, s')|
    ensures Before(v, NewVotes(s, s')[j])
  {
    var a :| 0 <= a < |s.signed| && s.signed[a].vote == v;
    assert s'.signed[a].vote == v;
    assert s'.signed[|s.signed| + j].vote == NewVotes(s, s')[j];
  }

  lemma NewVotesAreOwn(cfg: Config, log: seq<Vote>, s: RoundState, s': RoundState, i: nat)
    requires Good(cfg, log, s, s') && i < |NewVotes(s, s')|
    ensures NewVotes(s, s')[i].val == s.self
  {
    assert NewVotes(s, s')[i] == s'.signed[|s.signed| + i].vote;
  }

  /** Entries of other nodes are old. */
  lemma OthersAreOld(cfg: Config, net: Network, n: Validator, s': RoundState, i: nat)
    requires NetInv(cfg, net) && n in net.nodes && Good(cfg, net.log, net.nodes[n], s')
    requires i < |net.log + NewVotes(net.nodes[n], s')| && (net.log + NewVotes(net.nodes[n], s'))[i].val != n
    ensures i < |net.log|
  {
    assert NodeOk(cfg, net, n);
    forall k: nat | k < |NewVotes(net.nodes[n], s')| ensures NewVotes(net.nodes[n], s')[k].val == n {
      NewVotesAreOwn(cfg, net.log, net.nodes[n], s', k);
    }
  }

  lemma NodeGood(cfg: Config, net: Network, n: Validator, s': RoundState)
    requires NetInv(cfg, net) && n in net.nodes && Good(cfg, net.log, net.nodes[n], s')
    ensures NetInv(cfg, Network(net.log + NewVotes(net.nodes[n], s'), net.nodes[n := s']))
  {
    var log' := net.log + NewVotes(net.nodes[n], s');
    var net' := Network(log', net.nodes[n := s']);
    assert NodeOk(cfg, net, n);
    forall m | m in net'.nodes ensures NodeOk(cfg, net', m) {
      assert m in net.nodes ==> NodeOk(cfg, net, m);
      InvStays(cfg, net.log, log', net'.nodes[m]);
    }
    forall i | 0 <= i < |log'| ensures EntryOk(cfg, net', i) {
      if log'[i].val == n {
        EntryGood(cfg, net, n, s', i);
      } else {
        OthersAreOld(cfg, net, n, s', i);
        assert log'[..i] == net.log[..i] && EntryOk(cfg, net, i);
      }
    }
    forall i, j | 0 <= i < |log'| && 0 <= j < |log'| ensures PairOk(cfg, net', i, j) {
      if log'[i].val == n && log'[j].val == n {
        PairGood(cfg, net, n, s', i, j);
      } else if log'[i].val != n && log'[j].val != n {
        OthersAreOld(cfg, net, n, s', i);
        OthersAreOld(cfg, net, n, s', j);
        assert log'[..i] == net.log[..i] && PairOk(cfg, net, i, j);
      }
    }
  }

  lemma ActionGood(cfg: Config, net: Network, a: Action)
    requires NetInv(cfg, net) && Enabled(net, a)
    ensures NetInv(cfg, Apply(cfg, net, a)) && Apply(cfg, net, a).nodes.Keys == net.nodes.Keys
  {
    match a
    case NodeHandles(n, env, e) =>
      assert NodeOk(cfg, net, n);
      HandleGood(cfg, net.log, net.nodes[n], env, e);
      NodeGood(cfg, net, n, Handle(cfg, net.nodes[n], env, e));
    case FaultySigns(v) =>
      FaultyGood(cfg, net, v);
  }

  lemma {:induction false} RunGood(cfg: Config, nets: seq<Network>, run: seq<Action>, i: nat)
    requires IsRun(cfg, nets, run) && i < |nets|
    ensures NetInv(cfg, nets[i]) && nets[i].nodes.Keys == nets[0].nodes.Keys
  {
    if i == 0 {
      StartGood(cfg, nets[0]);
    } else {
      RunGood(cfg, nets, run, i - 1);
      assert StepAt(cfg, nets, run, i - 1);
      ActionGood(cfg, nets[i - 1], run[i - 1]);
    }
  }

  // ----- agreement -----

  /** All correct nodes that got to height initialHeight + k decided `chain` before it. */
  ghost predicate AgreeBelow(net: Network, chain: seq<Hash>, k: nat) {
    |chain| == k && forall n :: n in net.nodes && |net.nodes[n].decided| >= k ==> net.nodes[n].decided[..k] == chain
  }

  lemma VoterChain(cfg: Config, net: Network, chain: seq<Hash>, v: Vote)
    requires NetInv(cfg, net) && v in net.log && v.val in net.nodes
    requires AgreeBelow(net, chain, |chain|) && v.height == cfg.initialHeight + |chain|
    ensures ChainAt(cfg, net.nodes[v.val], v.height) == chain
  {
    var i :| 0 <= i < |net.log| && net.log[i] == v;
    var s := net.nodes[v.val];
    assert EntryOk(cfg, net, i) && NodeOk(cfg, net, v.val);
    var j :| 0 <= j < |s.signed| && s.signed[j].vote == v;
    assert Reached(s, v);
  }

  /** A prevote away from one's own precommit was signed after a polka for something else. */
  lemma DepartureHasPolka(cfg: Config, net: Network, chain: seq<Hash>, pc: Vote, v: Vote, m: nat)
    returns (i: nat, r: int, id: BlockID)
    requires NetInv(cfg, net) && AgreeBelow(net, chain, |chain|) && m <= |net.log|
    requires pc in net.log && v in net.log[..m] && v.val == pc.val && v.val in net.nodes
    requires v.height == pc.height == cfg.initialHeight + |chain| && v.kind.Prevote? && pc.kind.Precommit?
    requires pc.id.Block? && pc.round < v.round && !HashesTo(Some(pc.id.hash), v.id)
    ensures i < m && pc.round < r && Polka(cfg, net.log[..i], chain, v.height, r, id)
    ensures !HashesTo(Some(pc.id.hash), id)
  {
    i :| 0 <= i < m && net.log[..m][i] == v;
    var j :| 0 <= j < |net.log| && net.log[j] == pc;
    assert net.log[i] == v;
    assert PairOk(cfg, net, i, j);
    VoterChain(cfg, net, chain, v);
    r, id :| pc.round < r <= v.round && Polka(cfg, net.log[..i], chain, v.height, r, id) && !HashesTo(Some(pc.id.hash), id);
  }

  /** After a commit quorum for a block no later round has a polka for anything else. */
  lemma {:induction false} LaterPolkasAgree(cfg: Config, net: Network, chain: seq<Hash>, r: int, id: BlockID, m: nat, r': int, id': BlockID)
    requires NetInv(cfg, net) && FewFaulty(cfg.vals(chain), net.nodes.Keys) && AgreeBelow(net, chain, |chain|) && m <= |net.log|
    requires id.Block? && CommitQuorum(cfg, net.log, chain, cfg.initialHeight + |chain|, r, id)
    requires r < r' && Polka(cfg, net.log[..m], chain, cfg.initialHeight + |chain|, r', id')
    ensures HashesTo(Some(id.hash), id')
    decreases m
  {
    var h := cfg.initialHeight + |chain|;
    if !HashesTo(Some(id.hash), id') {
      var c := HonestOverlap(cfg.vals(chain), Signers(net.log, h, r, Precommit, id),
                             Signers(net.log[..m], h, r', Prevote, id'), net.nodes.Keys);
      var i, r'', id'' :=
        DepartureHasPolka(cfg, net, chain, Vote(c, h, r, Precommit, id), Vote(c, h, r', Prevote, id'), m);
      LaterPolkasAgree(cfg, net, chain, r, id, i, r'', id'');
    }
  }

  /** A correct validator signs one vote of each kind per height and round. */
  lemma SingleVote(cfg: Config, net: Network, v: Vote, w: Vote)
    requires NetInv(cfg, net) && v in net.log && w in net.log && v.val in net.nodes
    requires w == v.(id := w.id)
    ensures v == w
  {
    var s := net.nodes[v.val];
    var i :| 0 <= i < |net.log| && net.log[i] == v;
    var j :| 0 <= j < |net.log| && net.log[j] == w;
    assert EntryOk(cfg, net, i) && EntryOk(cfg, net, j) && NodeOk(cfg, net, v.val);
    var a :| 0 <= a < |s.signed| && s.signed[a].vote == v;
    var b :| 0 <= b < |s.signed| && s.signed[b].vote == w;
  }

  lemma CommitsAgree(cfg: Config, net: Network, chain: seq<Hash>, r1: int, id1: BlockID, r2: int, id2: BlockID)
    requires NetInv(cfg, net) && FewFaulty(cfg.vals(chain), net.nodes.Keys) && AgreeBelow(net, chain, |chain|)
    requires id1.Block? && CommitQuorum(cfg, net.log, chain, cfg.initialHeight + |chain|, r1, id1)
    requires id2.Block? && CommitQuorum(cfg, net.log, chain, cfg.initialHeight + |chain|, r2, id2)
    ensures id1.hash == id2.hash
  {
    var h, vals := cfg.initialHeight + |chain|, cfg.vals(chain);
    if r1 == r2 {
      var c := HonestOverlap(vals, Signers(net.log, h, r1, Precommit, id1),
                             Signers(net.log, h, r1, Precommit, id2), net.nodes.Keys);
      SingleVote(cfg, net, Vote(c, h, r1, Precommit, id1), Vote(c, h, r1, Precommit, id2));
    } else if r1 < r2 {
      assert net.log[..|net.log|] == net.log;
      CommitHasPolka(cfg, net, chain, r2, id2);
      LaterPolkasAgree(cfg, net, chain, r1, id1, |net.log|, r2, id2);
    } else {
      assert net.log[..|net.log|] == net.log;
      CommitHasPolka(cfg, net, chain, r1, id1);
      LaterPolkasAgree(cfg, net, chain, r2, id2, |net.log|, r1, id1);
    }
  }

  lemma CommitHasPolka(cfg: Config, net: Network, chain: seq<Hash>, r: int, id: BlockID)
    requires NetInv(cfg, net) && FewFaulty(cfg.vals(chain), net.nodes.Keys) && AgreeBelow(net, chain, |chain|)
    requires id.Block? && CommitQuorum(cfg, net.log, chain, cfg.initialHeight + |chain|, r, id)
    ensures Polka(cfg, net.log, chain, cfg.initialHeight + |chain|, r, id)
  {
    var h := cfg.initialHeight + |chain|;
    var c := HonestMember(cfg.vals(chain), Signers(net.log, h, r, Precommit, id), net.nodes.Keys);
    PrecommitHasPolka(cfg, net, chain, Vote(c, h, r, Precommit, id));
  }

  lemma PrecommitHasPolka(cfg: Config, net: Network, chain: seq<Hash>, v: Vote)
    requires NetInv(cfg, net) && AgreeBelow(net, chain, |chain|)
    requires v in net.log && v.val in net.nodes && v.height == cfg.initialHeight + |chain|
    requires v.kind.Precommit? && v.id.Block?
    ensures Polka(cfg, net.log, chain, v.height, v.round, v.id)
  {
    var i :| 0 <= i < |net.log| && net.log[i] == v;
    VoterChain(cfg, net, chain, v);
    assert EntryOk(cfg, net, i);
    PolkaStays(cfg, net.log[..i], net.log, chain, v.height, v.round, v.id);
  }

  lemma DecidedIsFinalized(cfg: Config, net: Network, n: Validator, k: nat)
    requires NetInv(cfg, net) && n in net.nodes && k < |net.nodes[n].decided|
    ensures Finalized(cfg, net.log, net.nodes[n].decided[..k], cfg.initialHeight + k, net.nodes[n].decided[k])
  {
    assert NodeOk(cfg, net, n);
  }

  /** Nodes that agree below a height agree at it. */
  lemma NextBlockAgrees(cfg: Config, net: Network, chain: seq<Hash>, a: Validator, b: Validator)
    requires NetInv(cfg, net) && FewFaulty(cfg.vals(chain), net.nodes.Keys) && AgreeBelow(net, chain, |chain|)
    requires a in net.nodes && b in net.nodes
    requires |chain| < |net.nodes[a].decided| && |chain| < |net.nodes[b].decided|
    ensures net.nodes[a].decided[|chain|] == net.nodes[b].decided[|chain|]
  {
    DecidedIsFinalized(cfg, net, a, |chain|);
    DecidedIsFinalized(cfg, net, b, |chain|);
    BlocksAgree(cfg, net, chain, net.nodes[a].decided[|chain|], net.nodes[b].decided[|chain|]);
  }

  lemma {:induction false} Prefixes(cfg: Config, net: Network, a: Validator, b: Validator, k: nat)
    requires NetInv(cfg, net) && MostlyCorrect(cfg, net)
    requires a in net.nodes && b in net.nodes && k <= |net.nodes[a].decided| && k <= |net.nodes[b].decided|
    ensures net.nodes[a].decided[..k] == net.nodes[b].decided[..k]
    decreases k
  {
    if k > 0 {
      var p, q := net.nodes[a].decided, net.nodes[b].decided;
      var chain := p[..k - 1];
      forall n | n in net.nodes && |net.nodes[n].decided| >= k - 1 ensures net.nodes[n].decided[..k - 1] == chain {
        Prefixes(cfg, net, n, a, k - 1);
      }
      assert AgreeBelow(net, chain, |chain|);
      assert FewFaultyAfter(cfg, net, a, k - 1);
      NextBlockAgrees(cfg, net, chain, a, b);
      assert p[..k] == p[..k - 1] + [p[k - 1]] && q[..k] == q[..k - 1] + [q[k - 1]];
    }
  }

  lemma BlocksAgree(cfg: Config, net: Network, chain: seq<Hash>, x: Hash, y: Hash)
    requires NetInv(cfg, net) && FewFaulty(cfg.vals(chain), net.nodes.Keys) && AgreeBelow(net, chain, |chain|)
    requires Finalized(cfg, net.log, chain, cfg.initialHeight + |chain|, x)
    requires Finalized(cfg, net.log, chain, cfg.initialHeight + |chain|, y)
    ensures x == y
  {
    var h := cfg.initialHeight + |chain|;
    var r1, id1 :| CommitQuorum(cfg, net.log, chain, h, r1, id1) && HashesTo(Some(x), id1);
    var r2, id2 :| CommitQuorum(cfg, net.log, chain, h, r2, id2) && HashesTo(Some(y), id2);
    CommitsAgree(cfg, net, chain, r1, id1, r2, id2);
  }

  lemma ChainsAgree(cfg: Config, net: Network, a: Validator, b: Validator, k: nat)
    requires NetInv(cfg, net) && MostlyCorrect(cfg, net) && a in net.nodes && b in net.nodes
    requires k < |net.nodes[a].decided| && k < |net.nodes[b].decided|
    ensures net.nodes[a].decided[k] == net.nodes[b].decided[k]
  {
    var p, q := net.nodes[a].decided, net.nodes[b].decided;
    Prefixes(cfg, net, a, b, k + 1);
    assert p[k] == p[..k + 1][k] && q[k] == q[..k + 1][k];
  }

  lemma GrowsSelf(cfg: Config, log: seq<Vote>, s: RoundState)
    ensures Grows(cfg, log, s, s)
  {
  }

  /**
   Along any run a node's (height, round, step) never decreases, its valid round
   grows within a height, and it leaves a lock only after a polka for something
   else in a later round.
   */
  lemma NodesMoveForward(cfg: Config, nets: seq<Network>, run: seq<Action>, i: nat, n: Validator)
    requires IsRun(cfg, nets, run) && i < |run| && n in nets[0].nodes
    ensures n in nets[i].nodes && n in nets[i + 1].nodes
    ensures Grows(cfg, nets[i].log, nets[i].nodes[n], nets[i + 1].nodes[n])
  {
    RunGood(cfg, nets, run, i);
    RunGood(cfg, nets, run, i + 1);
    assert NodeOk(cfg, nets[i], n) && StepAt(cfg, nets, run, i);
    match run[i]
    case NodeHandles(m, env, e) =>
      if m == n {
        HandleGood(cfg, nets[i].log, nets[i].nodes[n], env, e);
      } else {
        GrowsSelf(cfg, nets[i].log, nets[i].nodes[n]);
      }
    case FaultySigns(v) => GrowsSelf(cfg, nets[i].log, nets[i].nodes[n]);
  }

  /** What a node has finalized stays. */
  lemma {:induction false} ChainsGrow(cfg: Config, nets: seq<Network>, run: seq<Action>, i: nat, j: nat, n: Validator)
    requires IsRun(cfg, nets, run) && i <= j < |nets| && n in nets[0].nodes
    ensures n in nets[i].nodes && n in nets[j].nodes && nets[i].nodes[n].decided <= nets[j].nodes[n].decided
  {
    RunGood(cfg, nets, run, i);
    RunGood(cfg, nets, run, j);
    if i < j {
      ChainsGrow(cfg, nets, run, i, j - 1, n);
      NodesMoveForward(cfg, nets, run, j - 1, n);
      PrefixTrans(nets[i].nodes[n].decided, nets[j - 1].nodes[n].decided, nets[j].nodes[n].decided);
    }
  }

  lemma PrefixTrans(a: seq<Hash>, b: seq<Hash>, c: seq<Hash>)
    requires a <= b <= c
    ensures a <= c
  {
  }

  /**
   Agreement. With less than a third of the power faulty in every validator set reached,
   along any run the chains two correct nodes have finalized, each at any time,
   agree at every height both have reached, whatever rounds the blocks were
   committed in.
   */
  lemma Agreement(cfg: Config, nets: seq<Network>, run: seq<Action>, i: nat, j: nat, a: Validator, b: Validator, k: nat)
    requires IsRun(cfg, nets, run) && MostlyCorrect(cfg, nets[|run|]) && i < |nets| && j < |nets|
    requires a in nets[0].nodes && b in nets[0].nodes
    ensures a in nets[i].nodes && b in nets[j].nodes
    ensures var p, q := nets[i].nodes[a].decided, nets[j].nodes[b].decided; k < |p| && k < |q| ==> p[k] == q[k]
  {
    var last := |nets| - 1;
    ChainsGrow(cfg, nets, run, i, last, a);
    ChainsGrow(cfg, nets, run, j, last, b);
    RunGood(cfg, nets, run, last);
    if k < |nets[i].nodes[a].decided| && k < |nets[j].nodes[b].decided| {
      ChainsAgree(cfg, nets[last], a, b, k);
    }
  }

  /**
   Single voting. After any run, two votes of one correct validator for the same
   height, round and kind are the same vote, however many nodes are faulty.
   */
  lemma VotesOnce(cfg: Config, nets: seq<Network>, run: seq<Action>, i: nat, v: Vote, w: Vote)
    requires IsRun(cfg, nets, run) && i < |nets| && v.val in nets[0].nodes
    requires v in nets[i].log && w in nets[i].log && w == v.(id := w.id)
    ensures v == w
  {
    RunGood(cfg, nets, run, i);
    SingleVote(cfg, nets[i], v, w);
  }

  /**
   Every state a correct node reaches satisfies the node invariant: its votes are
   ordered and carry the round they were decided for, its lock and valid block
   have polkas, and every block it finalized has a commit quorum.
   */
  lemma NodesStayGood(cfg: Config, nets: seq<Network>, run: seq<Action>, i: nat, n: Validator)
    requires IsRun(cfg, nets, run) && i < |nets| && n in nets[0].nodes
    ensures n in nets[i].nodes && Inv(cfg, nets[i].log, nets[i].nodes[n])
  {
    RunGood(cfg, nets, run, i);
    assert NodeOk(cfg, nets[i], n);
  }
}
