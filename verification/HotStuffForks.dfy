/**
 Where the chained rules stop being safe. They commit a block once three
 certified blocks are linked as parents, whatever their views; they do not ask
 a proposal to extend its certificate's block; and a replica that cannot fetch
 a block skips its lock. Each of these forks what is final, in a run.
 */
module HotStuffForks {
  import opened HotStuffBlocks
  import opened HotStuffReplicas
  import opened HotStuffSafety
  import opened HotStuffViews
  import opened HotStuffChained
  import L = HotStuffLog

  // ----- one proposal at one replica -----

  /** What matters of a replica here. */
  datatype Mark = Mark(lock: Block, exec: Block, executed: seq<Block>, last: View)

  ghost predicate Shows(r: Replica, id: ID, n: nat, m: Mark) {
    && r.id == id && r.n == n && !r.useAgg && r.chained && !r.halted && StoreOk(r.blocks)
    && r.lock == m.lock && r.exec == m.exec && r.executed == m.executed && r.lastVote == m.last
  }

  /** What CommitRule picks when every block can be fetched. */
  function Pick(b: Block): Option<Block> {
    if Grand(b).Some? && Grand(b).value.cert.hash.HashOf? && b.cert.hash.block.parent == HashOf(Grand(b).value) &&
      Grand(b).value.parent == Grand(b).value.cert.hash
    then Some(Grand(b).value.cert.hash.block) else None
  }

  function Higher(lock: Block, b: Option<Block>): Block {
    if b.Some? && b.value.view > lock.view then b.value else lock
  }

  /** The replica after accepting b, when every block can be fetched. */
  function Next(m: Mark, b: Block): Mark {
    var m1 := m.(lock := Higher(m.lock, Grand(b)), last := b.view);
    match Pick(b)
    case None => m1
    case Some(c) =>
      if c.view > m.exec.view && L.Landing(c, m.exec.view).Some?
      then m1.(exec := c, executed := m.executed + L.Passed(c, m.exec.view)) else m1
  }

  /** Answers of one step: b's certificate verifies, every block but the missing one can be fetched, and lead leads. */
  function Offering(lead: ID, b: Block, missing: Option<Block>): Env {
    Env((h: Hash) => if h.HashOf? && missing != Some(h.block) then Some(h.block) else None,
      (sig, m) => b.cert.sig == Some(sig) && b.cert.hash.HashOf? && m == BlockMsg(b.cert.hash.block),
      (sig, batch) => false, _ => false, _ => [], _ => lead, _ => true, _ => None, _ => true, _ => true, 0, _ => None, _ => None)
  }

  /** The certificate of the ids for c. */
  function CertBy(ids: set<ID>, c: Block): (qc: QuorumCert)
    ensures Matches(qc) && qc.hash == HashOf(c) && qc.sig.Some? && qc.sig.value.Participants() == ids
  {
    QuorumCert(Some(Signature(map id | id in ids :: BlockMsg(c))), c.view, HashOf(c))
  }

  /** The block of view v that extends what qc certifies. */
  function On(qc: QuorumCert, v: View): Block {
    Block(qc.hash, qc, 0, v, 0)
  }

  /** The vote rule lets b pass, and its view is a new one. */
  ghost predicate Passes(m: Mark, b: Block) {
    b.view > m.last && (m.lock.view < b.cert.view || L.Extends(b, m.lock))
  }

  /** The certificate is genesis's, or has enough signatures. */
  ghost predicate Enough(n: nat, qc: QuorumCert) {
    && Matches(qc) && (qc.hash == HashOf(GENESIS) || (qc.sig.Some? && |qc.sig.value.Participants()| >= QuorumSize(n)))
  }

  lemma CertVerifies(r: Replica, lead: ID, b: Block, missing: Option<Block>)
    requires StoreOk(r.blocks) && Enough(r.n, b.cert) && missing != Some(b.cert.hash.block)
    ensures var (r', ok) := VerifyQC(r, Offering(lead, b, missing), b.cert); ok && r' == r.(blocks := r'.blocks) && StoreOk(r'.blocks)
  {
    VerifyQCKeepsStore(r, Offering(lead, b, missing), b.cert);
  }

  /** Advancing on a good certificate, when another replica leads, changes only views and what goes with them. */
  lemma {:induction false} QuietAdvance(r: Replica, lead: ID, b: Block, missing: Option<Block>)
    requires StoreOk(r.blocks) && Enough(r.n, b.cert) && missing != Some(b.cert.hash.block) && lead != r.id && !r.halted
    ensures var r' := AdvanceView(r, Offering(lead, b, missing), JustQC(b.cert));
      && r' == r.(blocks := r'.blocks, highQC := r'.highQC, view := r'.view, entry := r'.entry, lastTimeout := r'.lastTimeout)
      && StoreOk(r'.blocks)
  {
    var env, si := Offering(lead, b, missing), JustQC(b.cert);
    CertVerifies(r, lead, b, missing);
    var r1 := VerifyQC(r, env, b.cert).0;
    GetKeepsStore(r1, env, b.cert.hash);
    var c := TakeQC(r1, env, si, b.cert, 0, AtStart);
    assert CheckTC(r, env, si) == Accepted(r, si, 0, AtStart);
    assert CheckQC(r, env, si, 0, AtStart) == c;
    assert Check(r, env, si) == c;
    assert AdvanceView(r, env, si) == Enter(c.r, env, c.info, c.view, c.entry);
  }

  /** The checks pass and change only the store. */
  lemma ExaminePasses(r: Replica, lead: ID, b: Block, missing: Option<Block>)
    requires StoreOk(r.blocks) && r.chained && !r.useAgg && Enough(r.n, b.cert) && missing != Some(b.cert.hash.block)
    requires VoteRule(VerifyQC(r, Offering(lead, b, missing), b.cert).0, Offering(lead, b, missing), Proposal(lead, b, None)).1
    ensures var (r', ok) := Examine(r, Offering(lead, b, missing), Proposal(lead, b, None));
      ok && r' == r.(blocks := r'.blocks) && StoreOk(r'.blocks)
  {
    CertVerifies(r, lead, b, missing);
    ExamineKeepsStore(r, Offering(lead, b, missing), Proposal(lead, b, None));
  }

  /** A proposal that passes is stored, committed on and voted for. */
  lemma Voting(r: Replica, lead: ID, b: Block, missing: Option<Block>)
    requires StoreOk(r.blocks) && r.chained && !r.useAgg && !r.halted && Enough(r.n, b.cert) && missing != Some(b.cert.hash.block)
    requires VoteRule(VerifyQC(r, Offering(lead, b, missing), b.cert).0, Offering(lead, b, missing), Proposal(lead, b, None)).1
    requires lead != r.id && b.view > r.lastVote
    ensures var env, p := Offering(lead, b, missing), Proposal(lead, b, None);
      var r1, r' := StoreAndCommit(Examine(r, env, p).0, env, b), OnPropose(r, env, p);
      && r'.id == r.id && r'.n == r.n && !r'.useAgg && r'.chained && !r'.halted && StoreOk(r'.blocks)
      && r'.lock == r1.lock && r'.exec == r1.exec && r'.executed == r1.executed
      && r'.lastVote == b.view && Signed(BlockMsg(b)) in r'.history
  {
    var env, p := Offering(lead, b, missing), Proposal(lead, b, None);
    ExaminePasses(r, lead, b, missing);
    var r0 := Examine(r, env, p).0;
    StoreAndCommitKeepsStore(r0, env, b);
    var r1 := StoreAndCommit(r0, env, b);
    QuietAdvance(r1, lead, b, missing);
    var r2 := AdvanceView(r1, env, JustQC(b.cert));
    var r3 := CastVote(r2, env, b);
    assert r3.history[|r2.history|] == Signed(BlockMsg(b));
    assert OnPropose(r, env, p) == Take(r0, env, b) == r3;
  }

  lemma {:induction false} CommitFinds(r: Replica, env: Env, b: Block)
    requires StoreOk(r.blocks) && Fetches(env) && L.Landing(b, r.exec.view).Some?
    ensures CommitInner(r, env, b).1
    decreases b
  {
    if b.view > r.exec.view {
      FetchedGet(r, env, b.parent.block);
      CommitFinds(Get(r, env, b.parent).0, env, b.parent.block);
    }
  }

  lemma CommitIs(r: Replica, env: Env, c: Block)
    requires StoreOk(r.blocks) && Fetches(env)
    ensures var r', moved := Commit(r, env, c), c.view > r.exec.view && L.Landing(c, r.exec.view).Some?;
      && r'.exec == (if moved then c else r.exec) && r'.lock == r.lock
      && r'.executed == if moved then r.executed + L.Passed(c, r.exec.view) else r.executed
  {
    L.CommitRuns(r, env, c);
    if L.Landing(c, r.exec.view).Some? {
      CommitFinds(r, env, c);
    }
  }

  lemma PickIs(r: Replica, env: Env, b: Block)
    requires StoreOk(r.blocks) && r.chained && Fetches(env) && b.cert.hash.HashOf?
    ensures var (r', pick) := CommitRule(r, env, b);
      pick == Pick(b) && r'.lock == Higher(r.lock, Grand(b)) && r'.exec == r.exec && r'.executed == r.executed && StoreOk(r'.blocks)
  {
    CommitRuleLocks(r, env, b);
    CommitRuleKeepsStore(r, env, b);
    if Pick(b).Some? {
      assert Linked(b, b.cert.hash.block, Grand(b).value, Pick(b).value);
    }
    var pick := CommitRule(r, env, b).1;
    if pick.Some? {
      assert Linked(b, b.cert.hash.block, Grand(b).value, pick.value);
    }
  }

  lemma StoreAndCommitIs(r: Replica, env: Env, b: Block, m: Mark)
    requires StoreOk(r.blocks) && r.chained && Fetches(env) && b.cert.hash.HashOf?
    requires r.lock == m.lock && r.exec == m.exec && r.executed == m.executed
    ensures var r', m' := StoreAndCommit(r, env, b), Next(m, b);
      r'.lock == m'.lock && r'.exec == m'.exec && r'.executed == m'.executed
  {
    var r1 := r.(blocks := r.blocks[HashOf(b) := b]);
    PickIs(r1, env, b);
    if Pick(b).Some? {
      CommitIs(CommitRule(r1, env, b).0, env, Pick(b).value);
    }
  }

  /** What accepting b makes of a replica. */
  lemma AcceptIs(r: Replica, lead: ID, b: Block, m: Mark)
    requires Shows(r, r.id, r.n, m) && Enough(r.n, b.cert) && Passes(m, b) && lead != r.id
    ensures var r' := OnPropose(r, Offering(lead, b, None), Proposal(lead, b, None));
      Shows(r', r.id, r.n, Next(m, b)) && Signed(BlockMsg(b)) in r'.history
  {
    var env, p := Offering(lead, b, None), Proposal(lead, b, None);
    assert Fetches(env);
    CertVerifies(r, lead, b, None);
    VoteRuleIff(VerifyQC(r, env, b.cert).0, env, p);
    Voting(r, lead, b, None);
    ExaminePasses(r, lead, b, None);
    StoreAndCommitIs(Examine(r, env, p).0, env, b, m);
  }

  // ----- runs of proposals -----

  function Offer(id: ID, lead: ID, b: Block, missing: Option<Block>): Action {
    ReplicaHandles(id, Offering(lead, b, missing), ProposalArrived(Proposal(lead, b, None)))
  }

  const FRESH: Mark := Mark(GENESIS, GENESIS, [], 0)

  /** A replica shows its mark, or has done nothing yet. */
  ghost predicate Standing(c: Cluster, marks: map<ID, Mark>, id: ID)
    requires id in c.replicas
  {
    var r := c.replicas[id];
    if id in marks then Shows(r, id, |c.config|, marks[id]) else r == InitialReplica(id, |c.config|, false, true)
  }

  /** The replicas have these marks and made these votes. */
  ghost predicate Holds(c: Cluster, marks: map<ID, Mark>, votes: set<(ID, Block)>) {
    && (forall id {:trigger Standing(c, marks, id)} :: id in c.replicas ==> Standing(c, marks, id))
    && (forall x {:trigger Cast(c.log, x)} :: x in votes ==> Cast(c.log, x))
  }

  ghost predicate Cast(log: set<Sig>, x: (ID, Block)) {
    Sig(x.0, BlockMsg(x.1)) in log
  }

  /** A step that meets every hypothesis of commit safety. */
  ghost predicate FineAt(run: seq<Action>, i: nat)
    requires i < |run|
  {
    run[i].ReplicaHandles? ==> EventFine(run[i].e) && Fetches(run[i].env) && Signs(run[i].env)
  }

  /** The one hypothesis a step may fail: proposals are well formed, or every block can be fetched. */
  datatype Lapse = Malformed | Unfetched

  ghost predicate NearlyAt(run: seq<Action>, i: nat, lapse: Lapse)
    requires i < |run|
  {
    run[i].ReplicaHandles? ==>
      && EventMatches(run[i].e) && Signs(run[i].env)
      && (lapse.Malformed? ==> Fetches(run[i].env)) && (lapse.Unfetched? ==> EventFine(run[i].e))
  }

  ghost predicate FineOrOdd(run: seq<Action>, i: nat, odd: set<nat>, lapse: Lapse)
    requires i < |run|
  {
    FineAt(run, i) || (i in odd && NearlyAt(run, i, lapse))
  }

  /** A run that meets every hypothesis of commit safety but for the lapse at the odd steps. */
  ghost predicate FineBut(run: seq<Action>, odd: set<nat>, lapse: Lapse) {
    forall i {:trigger FineOrOdd(run, i, odd, lapse)} :: 0 <= i < |run| ==> FineOrOdd(run, i, odd, lapse)
  }

  /** The configuration, its correct replicas, who leads, and which steps may lapse and how. */
  datatype Crew = Crew(config: set<ID>, correct: set<ID>, lead: ID, odd: set<nat>, lapse: Lapse)

  /** The run ends with these marks and votes. */
  ghost predicate Reaches(k: Crew, cs: seq<Cluster>, run: seq<Action>, marks: map<ID, Mark>, votes: set<(ID, Block)>) {
    && IsRun(cs, run) && AllUseChained(cs[0]) && FineBut(run, k.odd, k.lapse) && k.lead !in k.correct
    && cs[|run|].config == k.config && cs[|run|].replicas.Keys == k.correct && Holds(cs[|run|], marks, votes)
  }

  /** The ids voted for c. */
  ghost predicate AllVoted(votes: set<(ID, Block)>, ids: set<ID>, c: Block) {
    forall id :: id in ids ==> (id, c) in votes
  }

  /** The certificate is genesis's, or a quorum's that voted. */
  ghost predicate Vouched(config: set<ID>, votes: set<(ID, Block)>, qc: QuorumCert) {
    qc == GENESIS_QC || exists ids, c :: qc == CertBy(ids, c) && Quorum(config, votes, ids, c)
  }

  ghost predicate Quorum(config: set<ID>, votes: set<(ID, Block)>, ids: set<ID>, c: Block) {
    ids <= config && |ids| >= QuorumSize(|config|) && AllVoted(votes, ids, c)
  }

  lemma VouchedMatches(config: set<ID>, votes: set<(ID, Block)>, qc: QuorumCert)
    requires Vouched(config, votes, qc)
    ensures Matches(qc)
  {
    if qc != GENESIS_QC {
      var ids, c :| qc == CertBy(ids, c) && Quorum(config, votes, ids, c);
    }
  }

  lemma OfferingSound(log: set<Sig>, config: set<ID>, votes: set<(ID, Block)>, lead: ID, b: Block, missing: Option<Block>)
    requires Vouched(config, votes, b.cert) && forall x {:trigger Cast(log, x)} :: x in votes ==> Cast(log, x)
    ensures Sound(log, config, Offering(lead, b, missing)) && Enough(|config|, b.cert)
  {
    if b.cert != GENESIS_QC {
      var ids, c :| b.cert == CertBy(ids, c) && Quorum(config, votes, ids, c);
      forall id | id in ids ensures Sig(id, BlockMsg(c)) in log {
        assert (id, c) in votes && Cast(log, (id, c));
      }
    }
  }

  function MarkOf(marks: map<ID, Mark>, id: ID): Mark {
    if id in marks then marks[id] else FRESH
  }

  lemma Shown(c: Cluster, marks: map<ID, Mark>, votes: set<(ID, Block)>, id: ID)
    requires Holds(c, marks, votes) && id in c.replicas
    ensures Shows(c.replicas[id], id, |c.config|, MarkOf(marks, id))
  {
    assert Standing(c, marks, id);
  }

  /** One replica's step from r to r' leaves the others where they stand. */
  lemma HoldsOn(c: Cluster, marks: map<ID, Mark>, votes: set<(ID, Block)>, id: ID, r': Replica, m': Mark, b: Block)
    requires Holds(c, marks, votes) && id in c.replicas && r'.id == id
    requires Shows(r', id, |c.config|, m') && Signed(BlockMsg(b)) in r'.history
    ensures Holds(c.(log := Logged(c.log, r'), replicas := c.replicas[id := r']), marks[id := m'], votes + {(id, b)})
  {
    var c' := c.(log := Logged(c.log, r'), replicas := c.replicas[id := r']);
    forall x | x in c'.replicas ensures Standing(c', marks[id := m'], x) {
      if x != id {
        assert Standing(c, marks, x);
      }
    }
    assert Sig(id, BlockMsg(b)) in SigsOf(id, r'.history);
    forall x | x in votes + {(id, b)} ensures Cast(c'.log, x) {
      assert x in votes ==> Cast(c.log, x);
    }
  }

  /** An acceptable proposal can be offered, and this is what comes of it. */
  lemma OfferHolds(c: Cluster, marks: map<ID, Mark>, votes: set<(ID, Block)>, id: ID, lead: ID, b: Block)
    requires Holds(c, marks, votes) && id in c.replicas && lead != id
    requires Vouched(c.config, votes, b.cert) && Passes(MarkOf(marks, id), b)
    ensures var a := Offer(id, lead, b, None);
      Enabled(c, a) && Holds(Apply(c, a), marks[id := Next(MarkOf(marks, id), b)], votes + {(id, b)})
  {
    var r := c.replicas[id];
    var r' := OnPropose(r, Offering(lead, b, None), Proposal(lead, b, None));
    Shown(c, marks, votes, id);
    forall x | x in votes ensures Cast(Logged(c.log, r'), x) {
      assert Cast(c.log, x);
    }
    OfferingSound(Logged(c.log, r'), c.config, votes, lead, b, None);
    AcceptIs(r, lead, b, MarkOf(marks, id));
    HoldsOn(c, marks, votes, id, r', Next(MarkOf(marks, id), b), b);
  }

  lemma FineGrows(run: seq<Action>, odd: set<nat>, lapse: Lapse, a: Action)
    requires FineBut(run, odd, lapse) && (FineAt([a], 0) || (|run| in odd && NearlyAt([a], 0, lapse)))
    ensures FineBut(run + [a], odd, lapse)
  {
    var run' := run + [a];
    forall i | 0 <= i < |run'| ensures FineOrOdd(run', i, odd, lapse) {
      if i < |run| {
        assert FineOrOdd(run, i, odd, lapse);
      } else {
        assert run'[i] == [a][0];
      }
    }
  }

  lemma OfferFine(id: ID, lead: ID, b: Block)
    requires Matches(b.cert)
    ensures WellFormed(b) ==> FineAt([Offer(id, lead, b, None)], 0)
    ensures NearlyAt([Offer(id, lead, b, None)], 0, Malformed)
  {
  }

  /** A run so far, and where its replicas stand. */
  datatype Scene = Scene(cs: seq<Cluster>, run: seq<Action>, marks: map<ID, Mark>, votes: set<(ID, Block)>) {
    function At(id: ID): Mark { MarkOf(marks, id) }
  }

  ghost predicate Plays(k: Crew, s: Scene) {
    Reaches(k, s.cs, s.run, s.marks, s.votes)
  }

  /** What a step at a replica makes of the scene: its mark, and one more vote. */
  ghost predicate Moved(s: Scene, s': Scene, id: ID, m: Mark, b: Block) {
    s'.marks == s.marks[id := m] && s'.votes == s.votes + {(id, b)} && |s'.run| == |s.run| + 1
  }

  /** The action may come next in the run. */
  ghost predicate May(k: Crew, s: Scene, a: Action) {
    FineAt([a], 0) || (|s.run| in k.odd && NearlyAt([a], 0, k.lapse))
  }

  /** A step that leaves the replicas with these marks and votes carries the run on. */
  lemma Carries(k: Crew, s: Scene, a: Action, marks: map<ID, Mark>, votes: set<(ID, Block)>) returns (s': Scene)
    requires Plays(k, s) && May(k, s, a) && Enabled(s.cs[|s.run|], a) && Holds(Apply(s.cs[|s.run|], a), marks, votes)
    ensures Plays(k, s') && s'.marks == marks && s'.votes == votes && |s'.run| == |s.run| + 1
  {
    var c := Apply(s.cs[|s.run|], a);
    FineGrows(s.run, k.odd, k.lapse, a);
    RunGrows(s.cs, s.run, a, c);
    assert c.replicas.Keys == k.correct;
    s' := Scene(s.cs + [c], s.run + [a], marks, votes);
  }

  /** The block is well formed, or the next step may have one that is not. */
  ghost predicate MayOffer(k: Crew, s: Scene, b: Block) {
    WellFormed(b) || (|s.run| in k.odd && k.lapse.Malformed?)
  }

  /** One more proposal in a run. */
  lemma Offered(k: Crew, s: Scene, id: ID, b: Block) returns (s': Scene)
    requires Plays(k, s) && id in k.correct && MayOffer(k, s, b)
    requires Vouched(k.config, s.votes, b.cert) && Passes(s.At(id), b)
    ensures Plays(k, s') && Moved(s, s', id, Next(s.At(id), b), b)
  {
    OfferHolds(s.cs[|s.run|], s.marks, s.votes, id, k.lead, b);
    VouchedMatches(k.config, s.votes, b.cert);
    OfferFine(id, k.lead, b);
    s' := Carries(k, s, Offer(id, k.lead, b, None), s.marks[id := Next(s.At(id), b)], s.votes + {(id, b)});
  }

  // ----- what accepting a block does, by its distance from genesis -----

  lemma NextFirst(m: Mark, b: Block)
    requires b.cert == GENESIS_QC
    ensures Next(m, b) == m.(last := b.view)
  {
  }

  lemma NextSecond(m: Mark, b: Block, c: Block)
    requires b.cert.hash == HashOf(c) && c.cert == GENESIS_QC
    ensures Next(m, b) == m.(last := b.view)
  {
  }

  lemma NextThird(m: Mark, b: Block, c: Block, d: Block)
    requires b.cert.hash == HashOf(c) && c.cert.hash == HashOf(d) && d.cert == GENESIS_QC
    ensures Next(m, b) == m.(lock := Higher(m.lock, Some(d)), last := b.view)
  {
  }

  /** The fourth block on a path from genesis commits the first. */
  lemma NextFourth(m: Mark, b: Block, c: Block, d: Block, e: Block)
    requires b.cert.hash == HashOf(c) && c.cert.hash == HashOf(d) && d.cert.hash == HashOf(e) && e.cert == GENESIS_QC
    requires c.parent == HashOf(d) && d.parent == HashOf(e) && e.parent == HashOf(GENESIS) && e.view > m.exec.view
    ensures Next(m, b) == Mark(Higher(m.lock, Some(d)), e, m.executed + [e], b.view)
  {
    assert L.Landing(e, m.exec.view) == Some(GENESIS);
    assert L.Passed(e, m.exec.view) == [e];
  }

  lemma FirstPasses(m: Mark, b: Block)
    requires b.cert == GENESIS_QC && b.parent == HashOf(GENESIS) && m.lock == GENESIS && b.view > m.last
    ensures Passes(m, b)
  {
    assert L.Landing(GENESIS, GENESIS.view) == Some(GENESIS);
  }

  lemma MoreVouched(config: set<ID>, votes: set<(ID, Block)>, votes': set<(ID, Block)>, qc: QuorumCert)
    requires Vouched(config, votes, qc) && votes <= votes'
    ensures Vouched(config, votes', qc)
  {
    if qc != GENESIS_QC {
      var ids, c :| qc == CertBy(ids, c) && Quorum(config, votes, ids, c);
      assert Quorum(config, votes', ids, c);
    }
  }

  function CrewAtStart(k: Crew): Cluster {
    Cluster(k.config, {}, map id | id in k.correct :: InitialReplica(id, |k.config|, false, true))
  }

  /** Most of the configuration is correct, and another replica leads. */
  ghost predicate IsCrew(k: Crew) {
    && k.correct <= k.config && k.config != {} && |k.config - k.correct| <= NumFaulty(|k.config|) && k.lead !in k.correct
  }

  lemma StartIs(k: Crew)
    requires IsCrew(k)
    ensures Start(CrewAtStart(k)) && AllUseChained(CrewAtStart(k)) && CrewAtStart(k).replicas.Keys == k.correct
    ensures Holds(CrewAtStart(k), map[], {})
  {
    var c := CrewAtStart(k);
    assert c.replicas.Keys == k.correct;
    assert c.config - c.replicas.Keys == k.config - k.correct;
    forall id | id in c.replicas ensures c.replicas[id] == InitialReplica(id, |c.config|, false, true) && Standing(c, map[], id) {
    }
  }

  lemma CrewStarts(k: Crew) returns (s: Scene)
    requires IsCrew(k)
    ensures Plays(k, s) && s.marks == map[] && s.votes == {} && s.run == []
  {
    s := Scene([CrewAtStart(k)], [], map[], {});
    StartIs(k);
  }

  // ----- two replicas that get the same proposals -----

  /** The crew is the two replicas. */
  ghost predicate AreTwo(k: Crew, p: ID, q: ID) {
    && p != q && p in k.correct && q in k.correct && |k.config| == 2 && k.correct == k.config && k.lead !in k.correct
  }

  /** A fine run of two replicas ends with these marks. */
  ghost predicate Pair(k: Crew, p: ID, q: ID, s: Scene, m: Mark, m': Mark) {
    AreTwo(k, p, q) && Plays(k, s) && s.At(p) == m && s.At(q) == m'
  }

  /** All replicas voted for c. */
  ghost predicate All(k: Crew, s: Scene, c: Block) {
    AllVoted(s.votes, k.config, c)
  }

  lemma AllVouch(k: Crew, s: Scene, c: Block)
    requires All(k, s, c)
    ensures Vouched(k.config, s.votes, CertBy(k.config, c))
  {
    assert Quorum(k.config, s.votes, k.config, c);
  }

  lemma PairStarts(k: Crew, p: ID, q: ID) returns (s: Scene)
    requires AreTwo(k, p, q)
    ensures Pair(k, p, q, s, FRESH, FRESH) && |s.run| == 0
  {
    assert k.config - k.correct == {};
    s := CrewStarts(k);
  }

  /** The proposal goes to one replica. */
  lemma OneVotes(k: Crew, p: ID, q: ID, s: Scene, m: Mark, m': Mark, b: Block) returns (s': Scene)
    requires Pair(k, p, q, s, m, m') && MayOffer(k, s, b) && Vouched(k.config, s.votes, b.cert) && Passes(m, b)
    ensures Pair(k, p, q, s', Next(m, b), m') && s.votes <= s'.votes && (p, b) in s'.votes && |s'.run| == |s.run| + 1
  {
    s' := Offered(k, s, p, b);
  }

  lemma OnlyTwo(k: Crew, p: ID, q: ID, id: ID)
    requires AreTwo(k, p, q) && id in k.config
    ensures id == p || id == q
  {
    assert |{p, q}| == 2 && |k.config - {p, q}| == |k.config| - 2;
    assert id in {p, q} || id in k.config - {p, q};
  }

  lemma BothVote(k: Crew, p: ID, q: ID, s: Scene, m: Mark, m': Mark, b: Block) returns (s': Scene)
    requires Pair(k, p, q, s, m, m') && WellFormed(b) && Vouched(k.config, s.votes, b.cert) && Passes(m, b) && Passes(m', b)
    ensures Pair(k, p, q, s', Next(m, b), Next(m', b)) && s.votes <= s'.votes && All(k, s', b) && |s'.run| == |s.run| + 2
  {
    var s1 := OneVotes(k, p, q, s, m, m', b);
    MoreVouched(k.config, s.votes, s1.votes, b.cert);
    s' := OneVotes(k, q, p, s1, m', Next(m, b), b);
    forall id | id in k.config ensures (id, b) in s'.votes {
      OnlyTwo(k, p, q, id);
    }
  }

  /** What was voted for before still is. */
  ghost predicate Keeps(k: Crew, s: Scene, s': Scene) {
    forall c {:trigger All(k, s', c)} :: All(k, s, c) ==> All(k, s', c)
  }

  /** Both replicas had one more step. */
  ghost predicate BothStepped(k: Crew, s: Scene, s': Scene) {
    Keeps(k, s, s') && |s'.run| == |s.run| + 2
  }

  /** The first block after genesis in some chain. */
  ghost predicate First(b: Block, v: View) {
    b.cert == GENESIS_QC && b.parent == HashOf(GENESIS) && b.view == v
  }

  /** b extends c and carries its certificate. */
  ghost predicate Child(b: Block, c: Block, v: View) {
    b.cert.hash == HashOf(c) && b.parent == HashOf(c) && b.view == v
  }

  /** The replica's lock and last vote let a child of c in view v pass. */
  ghost predicate Ready(m: Mark, c: Block, v: View) {
    m.lock.view < c.view < v && m.last < v
  }

  /** A block on what both voted for, offered to both. */
  lemma BothExtend(k: Crew, p: ID, q: ID, s: Scene, m: Mark, m': Mark, c: Block, v: View) returns (s': Scene, b: Block)
    requires Pair(k, p, q, s, m, m') && All(k, s, c) && Ready(m, c, v) && Ready(m', c, v)
    ensures Pair(k, p, q, s', Next(m, b), Next(m', b)) && BothStepped(k, s, s') && All(k, s', b) && Child(b, c, v)
  {
    AllVouch(k, s, c);
    b := On(CertBy(k.config, c), v);
    s' := BothVote(k, p, q, s, m, m', b);
  }

  /** A block on genesis, offered to both while they hold no lock. */
  lemma BothBegin(k: Crew, p: ID, q: ID, s: Scene, m: Mark, v: View) returns (s': Scene, b: Block)
    requires Pair(k, p, q, s, m, m) && m.lock == GENESIS && m.last < v
    ensures Pair(k, p, q, s', m.(last := v), m.(last := v)) && BothStepped(k, s, s') && All(k, s', b) && First(b, v)
  {
    b := On(GENESIS_QC, v);
    FirstPasses(m, b);
    NextFirst(m, b);
    s' := BothVote(k, p, q, s, m, m, b);
  }

  /** The second block after genesis changes no lock. */
  lemma BothSecond(k: Crew, p: ID, q: ID, s: Scene, m: Mark, m': Mark, c: Block, v: View) returns (s': Scene, b: Block)
    requires Pair(k, p, q, s, m, m') && All(k, s, c) && c.cert == GENESIS_QC && Ready(m, c, v) && Ready(m', c, v)
    ensures Pair(k, p, q, s', m.(last := v), m'.(last := v)) && BothStepped(k, s, s') && All(k, s', b) && Child(b, c, v)
  {
    s', b := BothExtend(k, p, q, s, m, m', c, v);
    NextSecond(m, b, c);
    NextSecond(m', b, c);
  }

  function Third(m: Mark, d: Block, v: View): Mark {
    m.(lock := Higher(m.lock, Some(d)), last := v)
  }

  /** The third block after genesis locks the first. */
  lemma BothThird(k: Crew, p: ID, q: ID, s: Scene, m: Mark, m': Mark, d: Block, c: Block, v: View) returns (s': Scene, b: Block)
    requires Pair(k, p, q, s, m, m') && All(k, s, c) && d.cert == GENESIS_QC && c.cert.hash == HashOf(d) && Ready(m, c, v) && Ready(m', c, v)
    ensures Pair(k, p, q, s', Third(m, d, v), Third(m', d, v)) && BothStepped(k, s, s') && All(k, s', b) && Child(b, c, v)
  {
    s', b := BothExtend(k, p, q, s, m, m', c, v);
    NextThird(m, b, c, d);
    NextThird(m', b, c, d);
  }

  /** c extends d, which extends e, which extends genesis. */
  ghost predicate IsPath(e: Block, d: Block, c: Block) {
    First(e, e.view) && Child(d, e, d.view) && Child(c, d, c.view)
  }

  /** The fourth block after genesis locks the second and executes the first. */
  function Fourth(m: Mark, e: Block, d: Block, v: View): Mark {
    Mark(Higher(m.lock, Some(d)), e, m.executed + [e], v)
  }

  lemma BothFourth(k: Crew, p: ID, q: ID, s: Scene, m: Mark, m': Mark, e: Block, d: Block, c: Block, v: View) returns (s': Scene)
    requires Pair(k, p, q, s, m, m') && All(k, s, c) && IsPath(e, d, c) && Ready(m, c, v) && Ready(m', c, v)
    requires m.exec.view < e.view && m'.exec.view < e.view
    ensures Pair(k, p, q, s', Fourth(m, e, d, v), Fourth(m', e, d, v)) && Keeps(k, s, s')
  {
    var b;
    s', b := BothExtend(k, p, q, s, m, m', c, v);
    NextFourth(m, b, c, d, e);
    NextFourth(m', b, c, d, e);
  }

  lemma OneFourth(k: Crew, p: ID, q: ID, s: Scene, m: Mark, m': Mark, e: Block, d: Block, c: Block, v: View) returns (s': Scene)
    requires Pair(k, p, q, s, m, m') && All(k, s, c) && IsPath(e, d, c) && Ready(m, c, v) && m.exec.view < e.view
    ensures Pair(k, p, q, s', Fourth(m, e, d, v), m') && Keeps(k, s, s')
  {
    var b := On(CertBy(k.config, c), v);
    AllVouch(k, s, c);
    NextFourth(m, b, c, d, e);
    s' := OneVotes(k, p, q, s, m, m', b);
  }

  // ----- two chains from genesis -----

  /** Views of b3, b2 and b1, and of w, which is of none of them. */
  datatype Views = Views(v3: View, v2: View, v1: View, u: View)

  ghost predicate Apart(t: Views) {
    0 < t.v3 < t.v2 < t.v1 && t.v3 < t.u < t.v1 && t.u != t.v2
  }

  /** Both replicas voted for three linked blocks and for w, which is on genesis. */
  ghost predicate Forked(k: Crew, s: Scene, t: Views, b3: Block, b2: Block, b1: Block, w: Block) {
    && First(b3, t.v3) && Child(b2, b3, t.v2) && Child(b1, b2, t.v1) && First(w, t.u) && All(k, s, b1) && All(k, s, w)
  }

  /** Both sides begin: w comes in its view, before or after b2. */
  lemma ForkBegins(k: Crew, p: ID, q: ID, t: Views) returns (s: Scene, b3: Block, b2: Block, w: Block)
    requires AreTwo(k, p, q) && Apart(t)
    ensures var m := FRESH.(last := Max(t.u, t.v2)); Pair(k, p, q, s, m, m)
    ensures First(b3, t.v3) && Child(b2, b3, t.v2) && First(w, t.u) && All(k, s, b2) && All(k, s, w)
  {
    var m := FRESH.(last := t.v3);
    s := PairStarts(k, p, q);
    s, b3 := BothBegin(k, p, q, s, FRESH, t.v3);
    if t.u < t.v2 {
      s, w := BothBegin(k, p, q, s, m, t.u);
      s, b2 := BothSecond(k, p, q, s, m.(last := t.u), m.(last := t.u), b3, t.v2);
    } else {
      s, b2 := BothSecond(k, p, q, s, m, m, b3, t.v2);
      s, w := BothBegin(k, p, q, s, m.(last := t.v2), t.u);
    }
  }

  /** Both replicas after b1: it locked b3. */
  function Locked(b3: Block, v1: View): Mark {
    Third(FRESH, b3, v1)
  }

  lemma ForkLocks(k: Crew, p: ID, q: ID, t: Views) returns (s: Scene, b3: Block, b2: Block, b1: Block, w: Block)
    requires AreTwo(k, p, q) && Apart(t)
    ensures Pair(k, p, q, s, Locked(b3, t.v1), Locked(b3, t.v1)) && Forked(k, s, t, b3, b2, b1, w)
  {
    var m := FRESH.(last := Max(t.u, t.v2));
    s, b3, b2, w := ForkBegins(k, p, q, t);
    s, b1 := BothThird(k, p, q, s, m, m, b3, b2, t.v1);
  }

  /** The first replica after x: it executed b3. */
  function Picked(b3: Block, b2: Block, v1: View): Mark {
    Fourth(Locked(b3, v1 + 1), b3, b2, v1 + 2)
  }

  /** w1 passes, for w is of a later view than the lock. */
  lemma ForkSides(k: Crew, p: ID, q: ID, t: Views) returns (s: Scene, b3: Block, b2: Block, b1: Block, w: Block, w1: Block)
    requires AreTwo(k, p, q) && Apart(t)
    ensures Pair(k, p, q, s, Locked(b3, t.v1 + 1), Locked(b3, t.v1 + 1))
    ensures Forked(k, s, t, b3, b2, b1, w) && Child(w1, w, t.v1 + 1) && All(k, s, w1)
  {
    s, b3, b2, b1, w := ForkLocks(k, p, q, t);
    s, w1 := BothSecond(k, p, q, s, Locked(b3, t.v1), Locked(b3, t.v1), w, t.v1 + 1);
  }

  /** Only the first replica gets x. */
  lemma ForkPicks(k: Crew, p: ID, q: ID, t: Views) returns (s: Scene, b3: Block, b2: Block, b1: Block, w: Block, w1: Block)
    requires AreTwo(k, p, q) && Apart(t)
    ensures Pair(k, p, q, s, Picked(b3, b2, t.v1), Locked(b3, t.v1 + 1))
    ensures Forked(k, s, t, b3, b2, b1, w) && Child(w1, w, t.v1 + 1) && All(k, s, w1)
  {
    s, b3, b2, b1, w, w1 := ForkSides(k, p, q, t);
    s := OneFourth(k, p, q, s, Locked(b3, t.v1 + 1), Locked(b3, t.v1 + 1), b3, b2, b1, t.v1 + 2);
  }

  /** A replica after w2 and w3: it executed w. */
  function Crossed(m: Mark, w: Block, w1: Block, v1: View): Mark {
    Fourth(Third(m, w, v1 + 3), w, w1, v1 + 4)
  }

  /** w2 passes and moves the locks. */
  lemma ForkMoves(k: Crew, p: ID, q: ID, t: Views) returns (s: Scene, b3: Block, b2: Block, b1: Block, w: Block, w1: Block, w2: Block)
    requires AreTwo(k, p, q) && Apart(t)
    ensures Pair(k, p, q, s, Third(Picked(b3, b2, t.v1), w, t.v1 + 3), Third(Locked(b3, t.v1 + 1), w, t.v1 + 3))
    ensures Forked(k, s, t, b3, b2, b1, w) && Child(w1, w, t.v1 + 1) && Child(w2, w1, t.v1 + 3) && All(k, s, w2)
  {
    s, b3, b2, b1, w, w1 := ForkPicks(k, p, q, t);
    s, w2 := BothThird(k, p, q, s, Picked(b3, b2, t.v1), Locked(b3, t.v1 + 1), w, w1, t.v1 + 3);
  }

  /** With w3 both replicas execute w: no rule holds the first one back. */
  lemma ForkEnds(k: Crew, p: ID, q: ID, t: Views) returns (s: Scene, b3: Block, b2: Block, b1: Block, w: Block, w1: Block)
    requires AreTwo(k, p, q) && Apart(t)
    ensures Pair(k, p, q, s, Crossed(Picked(b3, b2, t.v1), w, w1, t.v1), Crossed(Locked(b3, t.v1 + 1), w, w1, t.v1))
    ensures Forked(k, s, t, b3, b2, b1, w)
  {
    var w2;
    s, b3, b2, b1, w, w1, w2 := ForkMoves(k, p, q, t);
    var m, m' := Third(Picked(b3, b2, t.v1), w, t.v1 + 3), Third(Locked(b3, t.v1 + 1), w, t.v1 + 3);
    s := BothFourth(k, p, q, s, m, m', w, w1, w2, t.v1 + 4);
  }

  /** Two executed logs, neither a prefix of the other, and the first no path from genesis. */
  ghost predicate Disagree(r: Replica, r': Replica) {
    !(r.executed <= r'.executed) && !(r'.executed <= r.executed) && !L.LogOk(r)
  }

  lemma CrossedDisagree(r: Replica, r': Replica, b3: Block, b2: Block, w: Block, w1: Block, v1: View)
    requires First(w, w.view) && b3 != w
    requires r.exec == w && r.executed == Crossed(Picked(b3, b2, v1), w, w1, v1).executed
    requires r'.executed == Crossed(Locked(b3, v1 + 1), w, w1, v1).executed
    ensures Disagree(r, r')
  {
    assert r.executed == [b3, w] && r'.executed == [w];
    assert r.executed[0] == b3 && r'.executed[0] == w;
    assert L.Lineage(GENESIS) == [GENESIS];
    assert L.Lineage(w) == [GENESIS] + [w];
    assert |[GENESIS] + r.executed| == 3;
  }

  /** What both voted for is certified. */
  lemma AllCertify(k: Crew, s: Scene, c: Block)
    requires Plays(k, s) && All(k, s, c)
    ensures var d := s.cs[|s.run|]; Certified(d.log, d.config, c)
  {
    var d := s.cs[|s.run|];
    forall id | id in k.config ensures Sig(id, BlockMsg(c)) in d.log {
      assert (id, c) in s.votes && Cast(d.log, (id, c));
    }
    assert QuorumSigned(d.log, d.config, k.config, BlockMsg(c));
  }

  lemma FineIsRunFine(k: Crew, s: Scene)
    requires Plays(k, s) && k.odd == {}
    ensures RunFine(s.cs, s.run)
  {
    forall i | 0 <= i < |s.run| && s.run[i].ReplicaHandles?
      ensures EventFine(s.run[i].e) && Fetches(s.run[i].env) && Signs(s.run[i].env)
    {
      assert FineOrOdd(s.run, i, k.odd, k.lapse);
    }
  }

  /** A chain the rules commit, in a run that meets every hypothesis, and a certified block of a later view beside it. */
  ghost predicate Forks(cs: seq<Cluster>, run: seq<Action>, b1: Block, b2: Block, b3: Block, w: Block) {
    && IsRun(cs, run) && RunFine(cs, run) && LinkedChain(cs[|run|].log, cs[|run|].config, b1, b2, b3)
    && Certified(cs[|run|].log, cs[|run|].config, w) && b3.view <= w.view && !L.Extends(w, b3)
  }

  lemma GenesisChildApart(w: Block, b3: Block)
    requires w.parent == HashOf(GENESIS) && 0 < b3.view < w.view
    ensures !L.Extends(w, b3)
  {
    assert L.Landing(GENESIS, b3.view) == Some(GENESIS);
    assert L.Landing(w, b3.view) == Some(GENESIS);
  }

  /**
   Agreement fails. Whenever the three views leave one out, there is a run of two correct
   replicas, with well-formed proposals and fetching and signing that work, in which one
   replica executes b3, as CommitRule picked it, and then both execute a block that does
   not extend b3.
   */
  lemma PicksFork(k: Crew, p: ID, q: ID, t: Views) returns (cs: seq<Cluster>, run: seq<Action>, b1: Block, b2: Block, b3: Block, w: Block)
    requires AreTwo(k, p, q) && k.odd == {} && Apart(t)
    ensures Forks(cs, run, b1, b2, b3, w) && b1.view == t.v1 && b2.view == t.v2 && b3.view == t.v3 && w.view == t.u
    ensures cs[|run|].replicas.Keys == k.config && b3 in cs[|run|].replicas[p].executed
    ensures Disagree(cs[|run|].replicas[p], cs[|run|].replicas[q])
  {
    var s, w1;
    s, b3, b2, b1, w, w1 := ForkEnds(k, p, q, t);
    cs, run := s.cs, s.run;
    FineIsRunFine(k, s);
    AllCertify(k, s, b1);
    AllCertify(k, s, w);
    GenesisChildApart(w, b3);
    Shown(cs[|run|], s.marks, s.votes, p);
    Shown(cs[|run|], s.marks, s.votes, q);
    CrossedDisagree(cs[|run|].replicas[p], cs[|run|].replicas[q], b3, b2, w, w1, t.v1);
  }

  // ----- when a pick is final -----

  /** Views at which whatever the rules pick is final. */
  ghost predicate Safe(v3: View, v2: View, v1: View) {
    v3 < v2 < v1 ==> v3 == 0 || (v2 == v3 + 1 && v1 == v2 + 1)
  }

  lemma SafeNeverForks(cs: seq<Cluster>, run: seq<Action>, b1: Block, b2: Block, b3: Block, w: Block)
    requires Safe(b3.view, b2.view, b1.view)
    ensures !Forks(cs, run, b1, b2, b3, w)
  {
    if Forks(cs, run, b1, b2, b3, w) {
      var c := cs[|run|];
      EndIsSane(cs, run);
      CertifiedFine(c, b1);
      CertifiedFine(c, b2);
      if b3.view == 0 {
        if b3 != GENESIS {
          CertifiedFine(c, b3);
        }
        ExtendsGenesis(c, w);
      } else {
        ThreeChainsAreFinal(cs, run, b1, b2, b3, w);
      }
    }
  }

  /**
   The chained rules commit a linked chain whatever its views. The head of such a chain is
   final in every run that meets the hypotheses exactly when it is genesis or its three
   views are consecutive; views that do not climb occur in no such run.
   */
  lemma PickIsFinalIff(v3: View, v2: View, v1: View)
    ensures Safe(v3, v2, v1) <==> forall cs, run, b1: Block, b2: Block, b3: Block, w {:trigger Forks(cs, run, b1, b2, b3, w)} ::
      b1.view == v1 && b2.view == v2 && b3.view == v3 ==> !Forks(cs, run, b1, b2, b3, w)
  {
    if Safe(v3, v2, v1) {
      forall cs, run, b1: Block, b2: Block, b3: Block, w | b1.view == v1 && b2.view == v2 && b3.view == v3 ensures !Forks(cs, run, b1, b2, b3, w) {
        SafeNeverForks(cs, run, b1, b2, b3, w);
      }
    } else {
      var t := Views(v3, v2, v1, if v2 == v3 + 1 then v2 + 1 else v3 + 1);
      var cs, run, b1, b2, b3, w := PicksFork(Crew({0, 1}, {0, 1}, 2, {}, Malformed), 0, 1, t);
      assert Forks(cs, run, b1, b2, b3, w);
    }
  }

  // ----- a proposal that does not extend its certificate's block -----

  /** Three blocks of consecutive views, both replicas' votes for them, and nothing else. */
  lemma PairBuilds(k: Crew, p: ID, q: ID, v: View) returns (s: Scene, b3: Block, b2: Block, b1: Block)
    requires AreTwo(k, p, q) && v > 0
    ensures Pair(k, p, q, s, Locked(b3, v + 2), Locked(b3, v + 2)) && All(k, s, b1) && |s.run| == 6
    ensures First(b3, v) && Child(b2, b3, v + 1) && Child(b1, b2, v + 2)
  {
    s := PairStarts(k, p, q);
    s, b3 := BothBegin(k, p, q, s, FRESH, v);
    s, b2 := BothSecond(k, p, q, s, FRESH.(last := v), FRESH.(last := v), b3, v + 1);
    s, b1 := BothThird(k, p, q, s, FRESH.(last := v + 1), FRESH.(last := v + 1), b3, b2, v + 2);
  }

  /** A block that carries b1's certificate, but is no child of it. */
  ghost predicate Stray(z: Block, b1: Block, u: View) {
    Matches(z.cert) && z.cert.hash == HashOf(b1) && z.view == u && z.parent == HashOf(GENESIS)
  }

  /** Both accept the stray block, and execute the head of the chain. */
  lemma BothStray(k: Crew, p: ID, q: ID, s: Scene, m: Mark, e: Block, d: Block, c: Block, u: View) returns (s': Scene, z: Block)
    requires Pair(k, p, q, s, m, m) && All(k, s, c) && IsPath(e, d, c) && Ready(m, c, u) && m.exec.view < e.view
    requires |s.run| in k.odd && |s.run| + 1 in k.odd && k.lapse.Malformed?
    ensures Pair(k, p, q, s', Fourth(m, e, d, u), Fourth(m, e, d, u)) && BothStepped(k, s, s') && All(k, s', z) && Stray(z, c, u)
  {
    z := Block(HashOf(GENESIS), CertBy(k.config, c), 0, u, 0);
    AllVouch(k, s, c);
    NextFourth(m, z, c, d, e);
    var m' := Fourth(m, e, d, u);
    var s1 := OneVotes(k, p, q, s, m, m, z);
    MoreVouched(k.config, s.votes, s1.votes, z.cert);
    s' := OneVotes(k, q, p, s1, m, m', z);
    forall id | id in k.config ensures (id, z) in s'.votes {
      OnlyTwo(k, p, q, id);
    }
  }

  /** A chain of three consecutive views and, beside its head, a certified block of a later view. */
  ghost predicate Overtaken(c: Cluster, b1: Block, b2: Block, b3: Block, w: Block) {
    ThreeChain(c.log, c.config, b1, b2, b3) && Certified(c.log, c.config, w) && b3.view < w.view && !L.Extends(w, b3)
  }

  /**
   Commit safety needs proposals that extend their certificate's block. In any view u
   after a chain of three consecutive views, replicas accept a block that carries the
   chain's certificate but names genesis as its parent: the block is certified, and
   accepting it executes the head of the chain, which it does not extend. Every other
   step meets the hypotheses.
   */
  lemma StrayForks(k: Crew, p: ID, q: ID, v: View, u: View) returns (cs: seq<Cluster>, run: seq<Action>, b1: Block, b2: Block, b3: Block, z: Block)
    requires AreTwo(k, p, q) && k.odd == {6, 7} && k.lapse.Malformed? && 0 < v && v + 2 < u
    ensures IsRun(cs, run) && |run| == 8 && AllUseChained(cs[0]) && FineBut(run, {6, 7}, Malformed) && cs[8].replicas.Keys == k.config
    ensures Stray(z, b1, u) && Overtaken(cs[8], b1, b2, b3, z) && b3.view == v
    ensures cs[8].replicas[p].executed == cs[8].replicas[q].executed == [b3]
  {
    var s;
    s, b3, b2, b1 := PairBuilds(k, p, q, v);
    s, z := BothStray(k, p, q, s, Locked(b3, v + 2), b3, b2, b1, u);
    cs, run := s.cs, s.run;
    AllCertify(k, s, b1);
    AllCertify(k, s, z);
    GenesisChildApart(z, b3);
    Shown(cs[8], s.marks, s.votes, p);
    Shown(cs[8], s.marks, s.votes, q);
    assert FRESH.executed + [b3] == [b3];
  }

  // ----- a block that cannot be fetched -----

  /** The store has no such block and none comes from others. */
  ghost predicate Lacks(r: Replica, env: Env, d: Block) {
    HashOf(d) !in r.blocks && env.fetch(HashOf(d)) == None
  }

  lemma GetLacks(r: Replica, env: Env, d: Block, h: Hash)
    requires Lacks(r, env, d)
    ensures Lacks(Get(r, env, h).0, env, d) && Get(r, env, HashOf(d)) == (r, None)
  {
  }

  /** The checks on b still pass: the vote rule looks at the certificate's block alone. */
  lemma BlindExamine(r: Replica, lead: ID, b: Block, c: Block, d: Block)
    requires StoreOk(r.blocks) && r.chained && !r.useAgg && Enough(r.n, b.cert) && Lacks(r, Offering(lead, b, Some(d)), d)
    requires b.cert.hash == HashOf(c) && c != d && r.lock.view < c.view
    ensures var env, p := Offering(lead, b, Some(d)), Proposal(lead, b, None);
      VoteRule(VerifyQC(r, env, b.cert).0, env, p).1 && Lacks(Examine(r, env, p).0, env, d)
  {
    var env, p := Offering(lead, b, Some(d)), Proposal(lead, b, None);
    CertVerifies(r, lead, b, Some(d));
    GetLacks(r, env, d, b.cert.hash);
    var r1 := VerifyQC(r, env, b.cert).0;
    GetLacks(r1, env, d, b.cert.hash);
    var r2 := VoteRule(r1, env, p).0;
    assert Get(r1, env, b.cert.hash).1 == Some(c);
    GetLacks(r2, env, d, b.cert.hash);
  }

  /** Where the block to lock cannot be fetched, nothing is locked or committed. */
  lemma BlindCommit(r: Replica, env: Env, b: Block, c: Block, d: Block)
    requires StoreOk(r.blocks) && r.chained && Lacks(r, env, d) && b != d
    requires b.cert.hash == HashOf(c) && c.cert.hash == HashOf(d)
    ensures var r' := StoreAndCommit(r, env, b); r'.lock == r.lock && r'.exec == r.exec && r'.executed == r.executed
  {
    var r1 := r.(blocks := r.blocks[HashOf(b) := b]);
    GetLacks(r1, env, d, b.cert.hash);
    GetKeepsStore(r1, env, b.cert.hash);
  }

  /** What accepting b makes of a fresh replica that cannot fetch the block to lock: a vote, and no lock. */
  lemma BlindAccept(r: Replica, lead: ID, b: Block, c: Block, d: Block)
    requires r == InitialReplica(r.id, r.n, false, true) && Enough(r.n, b.cert) && lead != r.id && d != GENESIS
    requires b.cert.hash == HashOf(c) && c.cert.hash == HashOf(d) && d.view < c.view < b.view
    ensures var r' := OnPropose(r, Offering(lead, b, Some(d)), Proposal(lead, b, None));
      Shows(r', r.id, r.n, FRESH.(last := b.view)) && Signed(BlockMsg(b)) in r'.history
  {
    var env, p := Offering(lead, b, Some(d)), Proposal(lead, b, None);
    assert StoreOk(r.blocks);
    BlindExamine(r, lead, b, c, d);
    Voting(r, lead, b, Some(d));
    ExaminePasses(r, lead, b, Some(d));
    BlindCommit(Examine(r, env, p).0, env, b, c, d);
  }

  lemma BlindHolds(s: Cluster, marks: map<ID, Mark>, votes: set<(ID, Block)>, id: ID, lead: ID, b: Block, c: Block, d: Block)
    requires Holds(s, marks, votes) && id in s.replicas && id !in marks && lead != id && d != GENESIS
    requires Vouched(s.config, votes, b.cert) && b.cert.hash == HashOf(c) && c.cert.hash == HashOf(d) && d.view < c.view < b.view
    ensures var a := Offer(id, lead, b, Some(d));
      Enabled(s, a) && Holds(Apply(s, a), marks[id := FRESH.(last := b.view)], votes + {(id, b)})
  {
    var r := s.replicas[id];
    var r' := OnPropose(r, Offering(lead, b, Some(d)), Proposal(lead, b, None));
    assert Standing(s, marks, id);
    forall x | x in votes ensures Cast(Logged(s.log, r'), x) {
      assert Cast(s.log, x);
    }
    OfferingSound(Logged(s.log, r'), s.config, votes, lead, b, Some(d));
    BlindAccept(r, lead, b, c, d);
    HoldsOn(s, marks, votes, id, r', FRESH.(last := b.view), b);
  }

  lemma BlindFine(id: ID, lead: ID, b: Block, d: Block)
    requires WellFormed(b)
    ensures NearlyAt([Offer(id, lead, b, Some(d))], 0, Unfetched)
  {
  }

  /** A step of a replica that cannot fetch what it should lock. */
  lemma Blind(k: Crew, s: Scene, id: ID, b: Block, c: Block, d: Block) returns (s': Scene)
    requires Plays(k, s) && id in k.correct && id !in s.marks && |s.run| in k.odd && k.lapse.Unfetched?
    requires WellFormed(b) && Vouched(k.config, s.votes, b.cert) && d != GENESIS
    requires b.cert.hash == HashOf(c) && c.cert.hash == HashOf(d) && d.view < c.view < b.view
    ensures Plays(k, s') && Moved(s, s', id, FRESH.(last := b.view), b)
  {
    BlindHolds(s.cs[|s.run|], s.marks, s.votes, id, k.lead, b, c, d);
    BlindFine(id, k.lead, b, d);
    s' := Carries(k, s, Offer(id, k.lead, b, Some(d)), s.marks[id := FRESH.(last := b.view)], s.votes + {(id, b)});
  }

  lemma SignHolds(c: Cluster, marks: map<ID, Mark>, votes: set<(ID, Block)>, f: ID, b: Block)
    requires Holds(c, marks, votes)
    ensures Holds(c.(log := c.log + {Sig(f, BlockMsg(b))}), marks, votes + {(f, b)})
  {
    var c' := c.(log := c.log + {Sig(f, BlockMsg(b))});
    forall id | id in c'.replicas ensures Standing(c', marks, id) {
      assert Standing(c, marks, id);
    }
    forall x | x in votes + {(f, b)} ensures Cast(c'.log, x) {
      assert x in votes ==> Cast(c.log, x);
    }
  }

  /** The faulty replica signs a block. */
  lemma FaultyVotes(k: Crew, s: Scene, f: ID, b: Block) returns (s': Scene)
    requires Plays(k, s) && f !in k.correct
    ensures Plays(k, s') && s'.marks == s.marks && s'.votes == s.votes + {(f, b)} && |s'.run| == |s.run| + 1
  {
    SignHolds(s.cs[|s.run|], s.marks, s.votes, f, b);
    s' := Carries(k, s, FaultySigns(Sig(f, BlockMsg(b))), s.marks, s.votes + {(f, b)});
  }

  // ----- four replicas, one of them faulty -----

  /** Two correct replicas and the faulty one. */
  ghost predicate Three(k: Crew, a: ID, a': ID, f: ID) {
    a in k.correct && a' in k.correct && a != a' && f in k.config && f !in k.correct && |k.config| == 4 && k.correct <= k.config
  }

  /** p, q and r are correct, f is not. */
  ghost predicate AreFour(k: Crew, p: ID, q: ID, r: ID, f: ID) {
    Three(k, p, q, f) && Three(k, q, r, f) && Three(k, p, r, f)
  }

  /** Where the three correct replicas stand. */
  ghost predicate Squad(k: Crew, s: Scene, p: ID, q: ID, r: ID, f: ID, mp: Mark, mq: Mark, mr: Mark) {
    AreFour(k, p, q, r, f) && Plays(k, s) && s.At(p) == mp && s.At(q) == mq && s.At(r) == mr
  }

  /** A certificate of c whose signatures were made. */
  ghost predicate Held(k: Crew, s: Scene, qc: QuorumCert, c: Block) {
    Vouched(k.config, s.votes, qc) && qc.hash == HashOf(c) && qc.view == c.view
  }

  lemma HeldStays(k: Crew, s: Scene, s': Scene, qc: QuorumCert, c: Block)
    requires Held(k, s, qc, c) && s.votes <= s'.votes
    ensures Held(k, s', qc, c)
  {
    MoreVouched(k.config, s.votes, s'.votes, qc);
  }

  lemma HeldCertifies(k: Crew, s: Scene, qc: QuorumCert, c: Block)
    requires Plays(k, s) && Held(k, s, qc, c)
    ensures var d := s.cs[|s.run|]; Certified(d.log, d.config, c)
  {
    if qc != GENESIS_QC {
      var d := s.cs[|s.run|];
      var ids, c' :| qc == CertBy(ids, c') && Quorum(k.config, s.votes, ids, c');
      forall id | id in ids ensures Sig(id, BlockMsg(c)) in d.log {
        assert (id, c) in s.votes && Cast(d.log, (id, c));
      }
      assert QuorumSigned(d.log, d.config, ids, BlockMsg(c));
    }
  }

  lemma ThreeHold(k: Crew, s: Scene, a: ID, a': ID, f: ID, b: Block) returns (qc: QuorumCert)
    requires Three(k, a, a', f) && (a, b) in s.votes && (a', b) in s.votes && (f, b) in s.votes
    ensures Held(k, s, qc, b)
  {
    qc := CertBy({a, a', f}, b);
    assert |{a, a', f}| == 3;
    assert Quorum(k.config, s.votes, {a, a', f}, b);
  }

  /** Where three votes for b leave the scene. */
  ghost predicate Voted3(s: Scene, s': Scene, a: ID, a': ID, b: Block) {
    && s'.marks == s.marks[a := Next(s.At(a), b)][a' := Next(s.At(a'), b)] && |s'.run| == |s.run| + 3 && s.votes <= s'.votes
  }

  /** Two replicas accept b and the faulty one signs it: b is certified. */
  lemma ThreeVote(k: Crew, s: Scene, a: ID, a': ID, f: ID, b: Block) returns (s': Scene, qc: QuorumCert)
    requires Plays(k, s) && Three(k, a, a', f) && WellFormed(b) && Vouched(k.config, s.votes, b.cert)
    requires Passes(s.At(a), b) && Passes(s.At(a'), b)
    ensures Plays(k, s') && Voted3(s, s', a, a', b) && Held(k, s', qc, b)
  {
    var s1 := FaultyVotes(k, s, f, b);
    MoreVouched(k.config, s.votes, s1.votes, b.cert);
    var s2 := Offered(k, s1, a, b);
    MoreVouched(k.config, s.votes, s2.votes, b.cert);
    s' := Offered(k, s2, a', b);
    qc := ThreeHold(k, s', a, a', f, b);
  }

  /** Where three votes that leave the locks alone leave the two voters and the other replica. */
  ghost predicate Went3(s: Scene, s': Scene, a: ID, a': ID, o: ID, v: View) {
    && s'.At(a) == s.At(a).(last := v) && s'.At(a') == s.At(a').(last := v) && s'.At(o) == s.At(o)
    && (o in s'.marks <==> o in s.marks) && |s'.run| == |s.run| + 3 && s.votes <= s'.votes
  }

  lemma ThreeFirst(k: Crew, s: Scene, a: ID, a': ID, o: ID, f: ID, v: View) returns (s': Scene, b: Block, qc: QuorumCert)
    requires Plays(k, s) && Three(k, a, a', f) && o != a && o != a'
    requires s.At(a).lock == s.At(a').lock == GENESIS && s.At(a).last < v && s.At(a').last < v
    ensures Plays(k, s') && Went3(s, s', a, a', o, v) && Held(k, s', qc, b) && First(b, v)
  {
    b := On(GENESIS_QC, v);
    FirstPasses(s.At(a), b);
    FirstPasses(s.At(a'), b);
    NextFirst(s.At(a), b);
    NextFirst(s.At(a'), b);
    s', qc := ThreeVote(k, s, a, a', f, b);
  }

  lemma ThreeSecond(k: Crew, s: Scene, a: ID, a': ID, o: ID, f: ID, c: Block, qc: QuorumCert, v: View) returns (s': Scene, b: Block, qc': QuorumCert)
    requires Plays(k, s) && Three(k, a, a', f) && o != a && o != a' && Held(k, s, qc, c) && c.cert == GENESIS_QC
    requires Ready(s.At(a), c, v) && Ready(s.At(a'), c, v)
    ensures Plays(k, s') && Went3(s, s', a, a', o, v) && Held(k, s', qc', b) && Child(b, c, v)
  {
    b := On(qc, v);
    NextSecond(s.At(a), b, c);
    NextSecond(s.At(a'), b, c);
    s', qc' := ThreeVote(k, s, a, a', f, b);
  }

  /** q, r and the faulty replica certify b3; p has seen nothing. */
  lemma BlindStarts(k: Crew, p: ID, q: ID, r: ID, f: ID, v: View) returns (s: Scene, b3: Block, qc: QuorumCert)
    requires AreFour(k, p, q, r, f) && IsCrew(k) && v > 0
    ensures Squad(k, s, p, q, r, f, FRESH, FRESH.(last := v), FRESH.(last := v)) && p !in s.marks && |s.run| == 3
    ensures First(b3, v) && Held(k, s, qc, b3)
  {
    var s0 := CrewStarts(k);
    s, b3, qc := ThreeFirst(k, s0, q, r, p, f, v);
  }

  /** They certify b2. */
  lemma BlindBegins(k: Crew, p: ID, q: ID, r: ID, f: ID, v: View) returns (s: Scene, b3: Block, b2: Block, qc: QuorumCert)
    requires AreFour(k, p, q, r, f) && IsCrew(k) && v > 0
    ensures Squad(k, s, p, q, r, f, FRESH, FRESH.(last := v + 1), FRESH.(last := v + 1)) && p !in s.marks && |s.run| == 6
    ensures First(b3, v) && Child(b2, b3, v + 1) && Held(k, s, qc, b2)
  {
    var s0, qc0;
    s0, b3, qc0 := BlindStarts(k, p, q, r, f, v);
    s, b2, qc := ThreeSecond(k, s0, q, r, p, f, b3, qc0, v + 1);
  }

  /** p, who cannot fetch d, votes for b and locks nothing; the faulty replica signs it. */
  lemma BlindVotes(k: Crew, s: Scene, p: ID, q: ID, r: ID, f: ID, mq: Mark, mr: Mark, b: Block, c: Block, d: Block) returns (s': Scene)
    requires Squad(k, s, p, q, r, f, FRESH, mq, mr) && p !in s.marks && |s.run| + 1 in k.odd && k.lapse.Unfetched?
    requires WellFormed(b) && Vouched(k.config, s.votes, b.cert) && b.cert.hash == HashOf(c) && c.cert.hash == HashOf(d)
    requires 0 < d.view < c.view < b.view
    ensures Squad(k, s', p, q, r, f, FRESH.(last := b.view), mq, mr) && |s'.run| == |s.run| + 2
    ensures Vouched(k.config, s'.votes, b.cert) && (p, b) in s'.votes && (f, b) in s'.votes
  {
    var s1 := FaultyVotes(k, s, f, b);
    MoreVouched(k.config, s.votes, s1.votes, b.cert);
    s' := Blind(k, s1, p, b, c, d);
    MoreVouched(k.config, s.votes, s'.votes, b.cert);
  }

  /** q can fetch d, and locks it: b is certified. */
  lemma SightedVotes(k: Crew, s: Scene, p: ID, q: ID, r: ID, f: ID, mp: Mark, mq: Mark, mr: Mark, b: Block, c: Block, d: Block)
    returns (s': Scene, qc: QuorumCert)
    requires Squad(k, s, p, q, r, f, mp, mq, mr) && Ready(mq, c, b.view) && WellFormed(b) && Vouched(k.config, s.votes, b.cert)
    requires b.cert.hash == HashOf(c) && c.cert.hash == HashOf(d) && d.cert == GENESIS_QC && (p, b) in s.votes && (f, b) in s.votes
    ensures Squad(k, s', p, q, r, f, mp, Third(mq, d, b.view), mr) && |s'.run| == |s.run| + 1 && Held(k, s', qc, b)
  {
    NextThird(mq, b, c, d);
    s' := Offered(k, s, q, b);
    qc := ThreeHold(k, s', p, q, f, b);
  }

  /** p and q certify b1 with the faulty replica. */
  lemma BlindLocks(k: Crew, p: ID, q: ID, r: ID, f: ID, v: View) returns (s: Scene, b3: Block, b2: Block, b1: Block, qc: QuorumCert)
    requires AreFour(k, p, q, r, f) && IsCrew(k) && v > 0 && 7 in k.odd && k.lapse.Unfetched?
    ensures Squad(k, s, p, q, r, f, FRESH.(last := v + 2), Locked(b3, v + 2), FRESH.(last := v + 1)) && |s.run| == 9
    ensures First(b3, v) && Child(b2, b3, v + 1) && Child(b1, b2, v + 2) && Held(k, s, qc, b1)
  {
    var s0, qc0;
    s0, b3, b2, qc0 := BlindBegins(k, p, q, r, f, v);
    b1 := On(qc0, v + 2);
    var m := FRESH.(last := v + 1);
    var s1 := BlindVotes(k, s0, p, q, r, f, m, m, b1, b2, b3);
    s, qc := SightedVotes(k, s1, p, q, r, f, FRESH.(last := v + 2), m, m, b1, b2, b3);
  }

  /** q executes e. */
  lemma SightedPicks(k: Crew, s: Scene, p: ID, q: ID, r: ID, f: ID, mp: Mark, mq: Mark, mr: Mark, e: Block, d: Block, c: Block, qc: QuorumCert, v: View)
    returns (s': Scene)
    requires Squad(k, s, p, q, r, f, mp, mq, mr) && Held(k, s, qc, c) && IsPath(e, d, c) && Ready(mq, c, v) && mq.exec.view < e.view
    ensures Squad(k, s', p, q, r, f, mp, Fourth(mq, e, d, v), mr) && |s'.run| == |s.run| + 1 && Held(k, s', qc, c)
  {
    NextFourth(mq, On(qc, v), c, d, e);
    s' := Offered(k, s, q, On(qc, v));
    HeldStays(k, s, s', qc, c);
  }

  lemma BlindPicks(k: Crew, p: ID, q: ID, r: ID, f: ID, v: View) returns (s: Scene, b3: Block, b2: Block, b1: Block, qc: QuorumCert)
    requires AreFour(k, p, q, r, f) && IsCrew(k) && v > 0 && 7 in k.odd && k.lapse.Unfetched?
    ensures Squad(k, s, p, q, r, f, FRESH.(last := v + 2), Fourth(Locked(b3, v + 2), b3, b2, v + 3), FRESH.(last := v + 1)) && |s.run| == 10
    ensures First(b3, v) && Child(b2, b3, v + 1) && Child(b1, b2, v + 2) && Held(k, s, qc, b1)
  {
    var s0;
    s0, b3, b2, b1, qc := BlindLocks(k, p, q, r, f, v);
    s := SightedPicks(k, s0, p, q, r, f, FRESH.(last := v + 2), Locked(b3, v + 2), FRESH.(last := v + 1), b3, b2, b1, qc, v + 3);
  }

  /** Then p and r certify w, which is on genesis, with the faulty replica. */
  lemma BlindEnds(k: Crew, p: ID, q: ID, r: ID, f: ID, v: View, u: View)
    returns (s: Scene, b3: Block, b2: Block, b1: Block, w: Block, qc: QuorumCert, qc': QuorumCert)
    requires AreFour(k, p, q, r, f) && IsCrew(k) && 0 < v && v + 2 < u && 7 in k.odd && k.lapse.Unfetched?
    ensures Plays(k, s) && s.At(q) == Fourth(Locked(b3, v + 2), b3, b2, v + 3) && |s.run| == 13
    ensures First(b3, v) && Child(b2, b3, v + 1) && Child(b1, b2, v + 2) && First(w, u) && Held(k, s, qc, b1) && Held(k, s, qc', w)
  {
    var s0;
    s0, b3, b2, b1, qc := BlindPicks(k, p, q, r, f, v);
    s, w, qc' := ThreeFirst(k, s0, p, r, q, f, u);
    HeldStays(k, s0, s, qc, b1);
  }

  /**
   Commit safety needs the blocks that a certificate leads to. If at one step one replica
   cannot fetch one block, it votes without locking; then, in any later view u, it and a
   replica that saw less certify, with the faulty one, a block that does not extend the
   head of a chain of three consecutive views, which the third replica has executed. Every
   other step meets the hypotheses.
   */
  lemma BlindForks(k: Crew, p: ID, q: ID, r: ID, f: ID, v: View, u: View)
    returns (cs: seq<Cluster>, run: seq<Action>, b1: Block, b2: Block, b3: Block, w: Block)
    requires AreFour(k, p, q, r, f) && IsCrew(k) && k.odd == {7} && k.lapse.Unfetched? && 0 < v && v + 2 < u
    ensures IsRun(cs, run) && |run| == 13 && AllUseChained(cs[0]) && FineBut(run, {7}, Unfetched) && cs[13].replicas.Keys == k.correct
    ensures Overtaken(cs[13], b1, b2, b3, w) && b3.view == v && w.view == u && cs[13].replicas[q].executed == [b3]
  {
    var s, qc, qc';
    s, b3, b2, b1, w, qc, qc' := BlindEnds(k, p, q, r, f, v, u);
    HeldCertifies(k, s, qc, b1);
    HeldCertifies(k, s, qc', w);
    GenesisChildApart(w, b3);
    cs, run := s.cs, s.run;
    Shown(cs[13], s.marks, s.votes, q);
    assert FRESH.executed + [b3] == [b3];
  }
}
