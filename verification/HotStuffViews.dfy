/**
 How HotStuff replicas move through views, and what unsigned view fields do to
 it. VerifyQuorumCert checks a QC's block, AdvanceView and updateHighQC go by its
 view field; and the cache under VerifyAggregateQC remembers a signature without
 what it was made on. What fails for these reasons, and what holds exactly when
 fields and signatures match.
 */
module HotStuffViews {
  import opened HotStuffBlocks
  import opened HotStuffReplicas
  import opened HotStuffSafety

  /** The certificate's view field is its block's view. */
  ghost predicate Matches(qc: QuorumCert) {
    qc.hash.HashOf? && qc.view == qc.hash.block.view
  }

  /** Updating lowers highQC exactly when the block is newer than the old field and the new field is not. */
  lemma HighQCFallsIff(r: Replica, env: Env, qc: QuorumCert)
    requires StoreOk(r.blocks) && qc.hash.HashOf? && Get(r, env, qc.hash).1.Some?
    ensures UpdateHighQC(r, env, qc).highQC.view < r.highQC.view <==>
      qc.view < r.highQC.view < qc.hash.block.view
  {
    GetKeepsStore(r, env, qc.hash);
  }

  // ----- matching certificates -----

  ghost predicate AggMatches(qcs: map<ID, QuorumCert>) {
    forall id :: id in qcs ==> Matches(qcs[id])
  }

  ghost predicate InfoMatches(si: SyncInfo) {
    (si.qc.Some? ==> Matches(si.qc.value)) && (si.agg.Some? ==> AggMatches(si.agg.value.qcs))
  }

  ghost predicate AllMatch(at: map<ID, TimeoutMsg>) {
    forall id :: id in at ==> InfoMatches(at[id].info)
  }

  ghost predicate TimeoutsMatch(timeouts: map<View, map<ID, TimeoutMsg>>) {
    forall v :: v in timeouts ==> AllMatch(timeouts[v])
  }

  ghost predicate EntryMatches(entry: Entry) {
    entry.ByQC? ==> Matches(entry.qc)
  }

  /** Every QC the replica keeps or was moved by has its block's view. */
  ghost predicate Matching(r: Replica) {
    StoreOk(r.blocks) && Matches(r.highQC) && TimeoutsMatch(r.timeouts) && EntryMatches(r.entry)
  }

  ghost predicate Climbs(r: Replica, r': Replica) {
    Matching(r') && r.highQC.view <= r'.highQC.view
  }

  /** Only the blocks, and fields that hold no QC, differ. */
  lemma SameCerts(r: Replica, r': Replica)
    requires Matching(r) && StoreOk(r'.blocks)
    requires r'.highQC == r.highQC && r'.timeouts == r.timeouts && r'.entry == r.entry
    ensures Climbs(r, r')
  {
  }

  lemma {:induction false} HighestMatches(qcs: map<ID, QuorumCert>, ids: seq<ID>)
    requires AggMatches(qcs)
    ensures Highest(qcs, ids) == ZERO_QC || Matches(Highest(qcs, ids))
  {
    if ids != [] {
      HighestMatches(qcs, ids[..|ids| - 1]);
    }
  }

  lemma VerifyAggMatches(r: Replica, env: Env, a: AggregateQC)
    requires StoreOk(r.blocks) && AggMatches(a.qcs)
    ensures VerifyAgg(r, env, a).1.Some? ==> Matches(VerifyAgg(r, env, a).1.value)
  {
    HighestMatches(a.qcs, env.order(a));
  }

  lemma TakeQCClimbs(r: Replica, env: Env, si: SyncInfo, qc: QuorumCert, v: View, entry: Entry)
    requires Matching(r) && Matches(qc) && EntryMatches(entry)
    ensures var c := TakeQC(r, env, si, qc, v, entry); Climbs(r, c.r) && EntryMatches(c.entry) && c.info == si
  {
    GetKeepsStore(r, env, qc.hash);
  }

  ghost predicate CheckedMatches(r: Replica, c: Checked) {
    Climbs(r, c.r) && (c.Accepted? ==> InfoMatches(c.info) && EntryMatches(c.entry))
  }

  lemma CheckAggClimbs(r: Replica, env: Env, si: SyncInfo, v: View, entry: Entry)
    requires Matching(r) && InfoMatches(si) && EntryMatches(entry) && si.agg.Some? && r.useAgg
    ensures CheckedMatches(r, CheckQC(r, env, si, v, entry))
  {
    var a := si.agg.value;
    var (r1, high) := VerifyAgg(r, env, a);
    VerifyAggKeepsStore(r, env, a);
    VerifyAggMatches(r, env, a);
    SameCerts(r, r1);
    if high.Some? {
      TakeQCClimbs(r1, env, si.(qc := high), high.value, if a.view >= v then a.view else v, if a.view >= v then ByAggQC(a, Judged(env, a)) else entry);
    }
  }

  lemma CheckQCClimbs(r: Replica, env: Env, si: SyncInfo, v: View, entry: Entry)
    requires Matching(r) && InfoMatches(si) && EntryMatches(entry)
    ensures CheckedMatches(r, CheckQC(r, env, si, v, entry))
  {
    if si.agg.Some? && r.useAgg {
      CheckAggClimbs(r, env, si, v, entry);
    } else if si.qc.Some? {
      var r1 := VerifyQC(r, env, si.qc.value).0;
      VerifyQCKeepsStore(r, env, si.qc.value);
      SameCerts(r, r1);
      TakeQCClimbs(r1, env, si, si.qc.value, v, entry);
    }
  }

  lemma CheckClimbs(r: Replica, env: Env, si: SyncInfo)
    requires Matching(r) && InfoMatches(si)
    ensures CheckedMatches(r, Check(r, env, si))
  {
    var t := CheckTC(r, env, si);
    SameCerts(r, t.r);
    if t.Accepted? {
      CheckQCClimbs(t.r, env, si, t.view, t.entry);
    }
  }

  lemma {:induction false} ProposeClimbs(r: Replica, env: Env, si: SyncInfo)
    requires Matching(r) && InfoMatches(si)
    ensures Climbs(r, Propose(r, env, si))
    decreases Ahead(r, CertOf(si)), 4
  {
    if si.qc.Some? {
      GetKeepsStore(r, env, si.qc.value.hash);
    }
    var (r1, x) := if si.qc.Some? then Get(r, env, si.qc.value.hash) else (r, None);
    var b := NewBlock(r1, env, si);
    var r2 := r1.(blocks := r1.blocks[HashOf(b) := b]);
    SameCerts(r, r2);
    OnProposeClimbs(r2, env, Proposal(r.id, b, if r.useAgg then si.agg else None));
  }

  lemma {:induction false} OnProposeClimbs(r: Replica, env: Env, p: Proposal)
    requires Matching(r) && (p.block.cert == ZERO_QC || Matches(p.block.cert))
    ensures Climbs(r, OnPropose(r, env, p))
    decreases Ahead(r, p.block.cert), 3
  {
    if !r.halted {
      var (r1, ok) := Examine(r, env, p);
      ExamineKeepsStore(r, env, p);
      SameCerts(r, r1);
      if ok {
        TakeClimbs(r1, env, p.block);
      }
    }
  }

  lemma {:induction false} TakeClimbs(r: Replica, env: Env, b: Block)
    requires Matching(r) && Matches(b.cert)
    ensures Climbs(r, Take(r, env, b))
    decreases Ahead(r, b.cert), 2
  {
    var r1 := StoreAndCommit(r, env, b);
    StoreAndCommitKeepsStore(r, env, b);
    SameCerts(r, r1);
    CheckFrame(r1, env, JustQC(b.cert));
    AdvanceViewClimbs(r1, env, JustQC(b.cert));
    var r2 := AdvanceView(r1, env, JustQC(b.cert));
    SameCerts(r2, CastVote(r2, env, b));
  }

  /** With matching certificates the highest QC never falls, however proposals nest. */
  lemma {:induction false} AdvanceViewClimbs(r: Replica, env: Env, si: SyncInfo)
    requires Matching(r) && InfoMatches(si)
    ensures Climbs(r, AdvanceView(r, env, si))
    decreases Moves(r, env, si), 1
  {
    if !r.halted {
      CheckFrame(r, env, si);
      CheckClimbs(r, env, si);
      match Check(r, env, si)
      case Rejected(r1) =>
      case Accepted(r1, info, v, entry) => EnterClimbs(r1, env, info, v, entry);
    }
  }

  lemma {:induction false} EnterClimbs(r: Replica, env: Env, info: SyncInfo, v: View, entry: Entry)
    requires Matching(r) && InfoMatches(info) && EntryMatches(entry) && CertOf(info).view <= v
    ensures Climbs(r, Enter(r, env, info, v, entry))
    decreases if v >= r.view then 1 else 0, 0
  {
    if !r.halted && v >= r.view {
      assert Matching(EnterView(r, v, entry));
      if env.leader(v + 1) == r.id {
        ProposeClimbs(EnterView(r, v, entry), env, info);
      }
    }
  }

  lemma AddTimeoutMatches(r: Replica, t: TimeoutMsg)
    requires Matching(r) && InfoMatches(t.info)
    ensures Matching(AddTimeout(r, t))
  {
    var r1 := AddTimeout(r, t);
    forall v | v in r1.timeouts ensures AllMatch(r1.timeouts[v]) {
      if v in r.timeouts {
        assert AllMatch(r.timeouts[v]);
      }
    }
  }

  lemma TimeoutInfoMatches(r: Replica, env: Env, at: map<ID, TimeoutMsg>, tc: TimeoutCert, current: View)
    requires Matches(r.highQC) && AllMatch(at)
    ensures InfoMatches(TimeoutInfo(r, env, at, tc, current))
  {
    var agg := CreateAgg(env, at, current);
    if agg.Some? {
      forall id | id in agg.value.qcs ensures Matches(agg.value.qcs[id]) {
        assert InfoMatches(at[id].info);
      }
    }
  }

  lemma CollectTimeoutClimbs(r: Replica, env: Env, t: TimeoutMsg, current: View)
    requires Matching(r) && InfoMatches(t.info)
    ensures Climbs(r, CollectTimeout(r, env, t, current))
  {
    if !r.halted {
      var r1 := AddTimeout(r, t);
      AddTimeoutMatches(r, t);
      var at := r1.timeouts[t.view];
      var tc := CreateTC(env, at, t.view);
      if |at| >= QuorumSize(r1.n) && tc.Some? {
        TimeoutInfoMatches(r1, env, at, tc.value, current);
        AdvanceViewClimbs(r1.(timeouts := r1.timeouts - {t.view}), env, TimeoutInfo(r1, env, at, tc.value, current));
      }
    }
  }

  lemma CleanupMatches(r: Replica, v: View)
    requires Matching(r)
    ensures Climbs(r, Cleanup(r, v))
  {
  }

  lemma RemoteTimeoutClimbs(r: Replica, env: Env, t: TimeoutMsg)
    requires Matching(r) && InfoMatches(t.info)
    ensures Climbs(r, OnRemoteTimeout(r, env, t))
  {
    CleanupMatches(r, r.view);
    if !r.halted && env.verify(t.viewSig, ViewMsg(t.view)) {
      var r1 := AdvanceView(r, env, t.info);
      AdvanceViewClimbs(r, env, t.info);
      CollectTimeoutClimbs(r1, env, t, r.view);
      CleanupMatches(CollectTimeout(r1, env, t, r.view), r.view);
    }
  }

  lemma SendTimeoutClimbs(r: Replica, env: Env)
    requires Matching(r)
    ensures Climbs(r, SendTimeout(r, env))
  {
    RemoteTimeoutClimbs(NoteTimeout(r), env, OwnTimeout(r));
  }

  lemma LocalTimeoutClimbs(r: Replica, env: Env)
    requires Matching(r)
    ensures Climbs(r, OnLocalTimeout(r, env))
  {
    if !r.halted && r.lastTimeout != Some(r.view) && env.signs(ViewMsg(r.view)) {
      var r1 := r.(history := r.history + [Signed(ViewMsg(r.view))]);
      var r2 := if r.useAgg then r1.(history := r1.history + [Signed(TimeoutBytes(r.id, r.view, r.highQC))]) else r1;
      SendTimeoutClimbs(r2, env);
    }
  }

  /** Every QC the event carries has its block's view. */
  ghost predicate EventMatches(e: Event) {
    match e
    case ProposalArrived(p) => p.block.cert == ZERO_QC || Matches(p.block.cert)
    case NewViewArrived(info) => InfoMatches(info)
    case TimeoutArrived(t) => InfoMatches(t.info)
    case _ => true
  }

  lemma HandleClimbs(r: Replica, env: Env, e: Event)
    requires Matching(r) && EventMatches(e)
    ensures Climbs(r, Handle(r, env, e))
  {
    match e
    case ProposalArrived(p) => OnProposeClimbs(r, env, p);
    case NewViewArrived(info) => AdvanceViewClimbs(r, env, info);
    case TimeoutArrived(t) => RemoteTimeoutClimbs(r, env, t);
    case LocalTimeout(view) => LocalTimeoutClimbs(r, env);
    case StartProposing => ProposeClimbs(r, env, SyncInfo(Some(r.highQC), Some(r.highTC), None));
  }

  // ----- runs -----

  /** Every QC delivered in the run has its block's view. */
  ghost predicate RunMatches(run: seq<Action>) {
    forall i :: 0 <= i < |run| && run[i].ReplicaHandles? ==> EventMatches(run[i].e)
  }

  ghost predicate ReplicaMatching(c: Cluster, id: ID)
    requires id in c.replicas
  {
    Matching(c.replicas[id])
  }

  ghost predicate AllMatching(c: Cluster) {
    forall id {:trigger ReplicaMatching(c, id)} :: id in c.replicas ==> ReplicaMatching(c, id)
  }

  lemma ApplyMatching(c: Cluster, a: Action)
    requires AllMatching(c) && (a.ReplicaHandles? ==> EventMatches(a.e))
    ensures AllMatching(Apply(c, a))
  {
    forall id | id in Apply(c, a).replicas ensures ReplicaMatching(Apply(c, a), id) {
      assert ReplicaMatching(c, id);
      if a.ReplicaHandles? && a.id == id {
        HandleClimbs(c.replicas[id], a.env, a.e);
      }
    }
  }

  lemma StartMatching(c: Cluster)
    requires Start(c)
    ensures AllMatching(c)
  {
    forall id | id in c.replicas ensures ReplicaMatching(c, id) {
      assert c.replicas[id] == InitialReplica(id, |c.config|, c.replicas[id].useAgg, c.replicas[id].chained);
    }
  }

  lemma {:induction false} RunMatching(cs: seq<Cluster>, run: seq<Action>, i: nat)
    requires IsRun(cs, run) && RunMatches(run) && i < |cs|
    ensures AllMatching(cs[i])
  {
    if i == 0 {
      StartMatching(cs[0]);
    } else {
      RunMatching(cs, run, i - 1);
      assert StepAt(cs, run, i - 1);
      ApplyMatching(cs[i - 1], run[i - 1]);
    }
  }

  /** Along any run whose QCs carry their block's view, no event lowers a correct replica's highest QC. */
  lemma HighQCsClimb(cs: seq<Cluster>, run: seq<Action>, i: nat, id: ID)
    requires IsRun(cs, run) && RunMatches(run) && i < |run| && id in cs[0].replicas
    ensures id in cs[i].replicas && id in cs[i + 1].replicas
    ensures Climbs(cs[i].replicas[id], cs[i + 1].replicas[id])
  {
    RunOk(cs, run, i);
    RunOk(cs, run, i + 1);
    RunMatching(cs, run, i);
    assert StepAt(cs, run, i) && ReplicaMatching(cs[i], id);
    if run[i].ReplicaHandles? && run[i].id == id {
      HandleClimbs(cs[i].replicas[id], run[i].env, run[i].e);
    }
  }

  // ----- what a view was entered on -----

  /** A quorum's signature on timeouts of view v. */
  ghost predicate TimeoutsSigned(log: set<Sig>, config: set<ID>, sig: Signature, v: View) {
    && sig.Participants() <= config && |sig.Participants()| >= QuorumSize(|config|)
    && OfView(sig, v) && forall id :: id in sig.signed ==> Sig(id, sig.signed[id]) in log
  }

  /** A quorum signed a block of view v, or the view v itself, or timeouts of view v. */
  ghost predicate Backed(log: set<Sig>, config: set<ID>, v: View) {
    || (exists ids, b: Block :: b.view == v && QuorumSigned(log, config, ids, BlockMsg(b)))
    || (exists ids :: QuorumSigned(log, config, ids, ViewMsg(v)))
    || (exists sig :: TimeoutsSigned(log, config, sig, v))
  }

  /** What was signed in the certificate of the entry is of the view before. */
  ghost predicate Certifies(log: set<Sig>, config: set<ID>, view: View, entry: Entry) {
    match entry
    case AtStart => view == 1
    case ByTC(tc) => tc.view + 1 == view && TimeoutOk(log, config, tc)
    case ByQC(qc) => CertOk(log, config, qc) && qc.hash.block.view + 1 == view
    case ByAggQC(a, _) => a.sig.Some? && view >= 1 && TimeoutsSigned(log, config, a.sig.value, view - 1)
  }

  /** The view field of the certificate is the view of what was signed in it. */
  ghost predicate EntryFits(entry: Entry) {
    match entry
    case ByQC(qc) => Matches(qc)
    case ByAggQC(a, _) => a.sig.Some? && OfView(a.sig.value, a.view)
    case _ => true
  }

  lemma CertifiesBacks(log: set<Sig>, config: set<ID>, view: View, entry: Entry)
    requires Certifies(log, config, view, entry) && view > 1
    ensures Backed(log, config, view - 1)
  {
    match entry
    case ByQC(qc) =>
      var ids :| QuorumSigned(log, config, ids, BlockMsg(qc.hash.block));
    case _ =>
  }

  /**
   Along any run, the certificate on which a correct replica entered its view is one of
   the view before exactly when its view field is the view of what was signed in it: it
   is not a QC of a block of another view, nor an aggregate with a signature on timeouts
   of another view.
   */
  lemma EntryCertifiesIff(cs: seq<Cluster>, run: seq<Action>, i: nat, id: ID)
    requires IsRun(cs, run) && i < |cs| && id in cs[0].replicas
    ensures id in cs[i].replicas
    ensures var r := cs[i].replicas[id]; Certifies(cs[i].log, cs[0].config, r.view, r.entry) <==> EntryFits(r.entry)
  {
    RunOk(cs, run, i);
    assert ReplicaOk(cs[i], id);
  }

  /** No step of the run has a cache to answer for the scheme. */
  ghost predicate RunUncached(run: seq<Action>) {
    forall i :: 0 <= i < |run| && run[i].ReplicaHandles? ==> Uncached(run[i].env)
  }

  lemma {:induction false} RunJudged(cs: seq<Cluster>, run: seq<Action>, i: nat, id: ID)
    requires IsRun(cs, run) && RunUncached(run) && i < |cs| && id in cs[0].replicas
    ensures id in cs[i].replicas && EntryJudged(cs[i].replicas[id].entry)
  {
    RunOk(cs, run, i);
    if i > 0 {
      RunJudged(cs, run, i - 1, id);
      RunOk(cs, run, i - 1);
      assert StepAt(cs, run, i - 1) && ReplicaOk(cs[i - 1], id);
      if run[i - 1].ReplicaHandles? && run[i - 1].id == id {
        HandleSettled(cs[i - 1].replicas[id], run[i - 1].env, run[i - 1].e);
      }
    }
  }

  /**
   Along any run without a cache whose QCs carry their block's view, a correct replica is
   past view 1 only if a quorum signed a block of the view before, or that view, or
   timeouts of it.
   */
  lemma ViewsAreBacked(cs: seq<Cluster>, run: seq<Action>, i: nat, id: ID)
    requires IsRun(cs, run) && RunMatches(run) && RunUncached(run) && i < |cs| && id in cs[0].replicas
    ensures id in cs[i].replicas
    ensures var r := cs[i].replicas[id]; r.view > 1 ==> Backed(cs[i].log, cs[0].config, r.view - 1)
  {
    RunMatching(cs, run, i);
    RunJudged(cs, run, i, id);
    RunOk(cs, run, i);
    var r := cs[i].replicas[id];
    assert ReplicaMatching(cs[i], id) && ReplicaOk(cs[i], id);
    EntryCertifiesIff(cs, run, i, id);
    if r.view > 1 {
      CertifiesBacks(cs[i].log, cs[0].config, r.view, r.entry);
    }
  }

  /** The same with a cache, of every view that was entered on a certificate that fits. */
  lemma FittingViewsAreBacked(cs: seq<Cluster>, run: seq<Action>, i: nat, id: ID)
    requires IsRun(cs, run) && i < |cs| && id in cs[0].replicas
    ensures id in cs[i].replicas
    ensures var r := cs[i].replicas[id]; r.view > 1 && EntryFits(r.entry) ==> Backed(cs[i].log, cs[0].config, r.view - 1)
  {
    EntryCertifiesIff(cs, run, i, id);
    var r := cs[i].replicas[id];
    if r.view > 1 && EntryFits(r.entry) {
      CertifiesBacks(cs[i].log, cs[0].config, r.view, r.entry);
    }
  }

  function WithoutCache(env: Env): Env {
    env.(keeps := _ => false)
  }

  /**
   The cache changes the answer of VerifyAggregateQC exactly when it has the batch key of a
   quorum's signature, the scheme refuses the batch, and the highest QC verifies.
   */
  lemma CacheDiffersIff(r: Replica, env: Env, a: AggregateQC)
    ensures VerifyAgg(r, env, a).1 != VerifyAgg(r, WithoutCache(env), a).1 <==>
      && a.sig.Some? && |a.sig.value.Participants()| >= QuorumSize(r.n) && VerifyQC(r, env, Highest(a.qcs, env.order(a))).1
      && a.sig.value in r.batched && env.keeps(a.sig.value) && !Judged(env, a)
  {
    var bare, high := WithoutCache(env), Highest(a.qcs, env.order(a));
    if a.sig.Some? && |a.sig.value.Participants()| >= QuorumSize(r.n) {
      SameAnswer(r, VerifyBatch(r, env, a.sig.value, Messages(a, env.order(a))).0, env, env, high);
      SameAnswer(r, VerifyBatch(r, bare, a.sig.value, Messages(a, env.order(a))).0, env, bare, high);
    }
  }

  lemma SameAnswer(r: Replica, r': Replica, env: Env, env': Env, qc: QuorumCert)
    requires r'.blocks == r.blocks && r'.n == r.n && env'.fetch == env.fetch && env'.verify == env.verify
    ensures VerifyQC(r', env', qc).1 == VerifyQC(r, env, qc).1
  {
  }

  // ----- runs in which fields and blocks do not match -----

  lemma NothingBacked(config: set<ID>, v: View)
    requires config != {}
    ensures !Backed({}, config, v)
  {
    QuorumBounds(|config|);
  }

  /** The sync info with the genesis QC and a view field of v. */
  function GenesisInfo(v: View): SyncInfo {
    JustQC(QuorumCert(None, v, HashOf(GENESIS)))
  }

  lemma GenesisMoves(r: Replica, env: Env, v: View)
    requires !r.halted && v >= r.view && v > 0 && HashOf(GENESIS) in r.blocks && env.leader(v + 1) != r.id
    ensures var r' := AdvanceView(r, env, GenesisInfo(v));
      r'.view == v + 1 && r'.history == r.history && r'.entry == ByQC(GenesisInfo(v).qc.value)
  {
    var si := GenesisInfo(v);
    assert CheckTC(r, env, si) == Accepted(r, si, 0, AtStart);
    assert CheckQC(r, env, si, 0, AtStart) == TakeQC(r, env, si, si.qc.value, 0, AtStart);
  }

  /**
   Without the condition a view need not be backed: in a run of one step, in which nobody
   signs anything, the genesis QC with the view field v takes a replica to view v + 1.
   */
  lemma ViewsNeedNotBeBacked(c: Cluster, id: ID, env: Env, v: View)
    requires Start(c) && id in c.replicas && v >= 1 && env.leader(v + 1) != id && Sound({}, c.config, env)
    ensures var a := ReplicaHandles(id, env, NewViewArrived(GenesisInfo(v)));
      var c' := Apply(c, a);
      && IsRun([c, c'], [a]) && !Matches(GenesisInfo(v).qc.value)
      && id in c'.replicas && c'.replicas[id].view == v + 1 && !Backed(c'.log, c.config, v)
  {
    var r := c.replicas[id];
    assert r == InitialReplica(id, |c.config|, r.useAgg, r.chained);
    GenesisMoves(r, env, v);
    var a := ReplicaHandles(id, env, NewViewArrived(GenesisInfo(v)));
    assert Apply(c, a).log == {};
    NothingBacked(c.config, v);
    assert StepAt([c, Apply(c, a)], [a], 0);
  }

  /** One replica's signature on m. */
  function LoneSig(id: ID, m: Message): (sig: Signature)
    ensures sig.Participants() == {id} && |sig.Participants()| == 1
  {
    Signature(map[id := m])
  }

  /** Answers under which only the replica's own signature on m verifies and another replica leads. */
  function Lone(id: ID, m: Message): Env {
    Env(_ => None, (sig, x) => sig == LoneSig(id, m) && x == m, (sig, batch) => false, _ => false, _ => [], _ => id + 1,
      _ => true, _ => None, _ => true, _ => true, 0, _ => Some(LoneSig(id, m)), _ => None)
  }

  lemma LoneSound(log: set<Sig>, id: ID, m: Message)
    requires Sig(id, m) in log
    ensures Sound(log, {id}, Lone(id, m))
  {
  }

  /** A block of view v on genesis. */
  function OnGenesis(id: ID, v: View): Block {
    Block(HashOf(GENESIS), QuorumCert(None, 0, HashOf(GENESIS)), 0, v, id + 1)
  }

  /** A lone replica of a configuration of one that follows no chained rules. */
  ghost predicate IsLone(r: Replica, id: ID) {
    && r.id == id && r.n == 1 && !r.useAgg && !r.chained && !r.halted && r.view >= 1
    && HashOf(GENESIS) in r.blocks && r.blocks[HashOf(GENESIS)] == GENESIS
  }

  lemma LoneVotes(r: Replica, id: ID, v: View)
    requires IsLone(r, id) && v > r.lastVote
    ensures var b := OnGenesis(id, v);
      OnPropose(r, Lone(id, BlockMsg(b)), Proposal(id + 1, b, None)) ==
        r.(blocks := r.blocks[HashOf(b) := b], history := r.history + [Signed(BlockMsg(b))], lastVote := v)
  {
    var b := OnGenesis(id, v);
    var env := Lone(id, BlockMsg(b));
    var si := JustQC(b.cert);
    var r1 := r.(blocks := r.blocks[HashOf(b) := b]);
    assert Examine(r, env, Proposal(id + 1, b, None)) == (r, true);
    assert StoreAndCommit(r, env, b) == r1;
    assert CheckTC(r1, env, si) == Accepted(r1, si, 0, AtStart);
    assert CheckQC(r1, env, si, 0, AtStart) == TakeQC(r1, env, si, b.cert, 0, AtStart);
    assert TakeQC(r1, env, si, b.cert, 0, AtStart) == Accepted(r1, si, 0, ByQC(b.cert));
    assert AdvanceView(r1, env, si) == r1;
  }

  /** A QC that the replica alone signed for the block of view v, with the view field f. */
  function LoneQC(id: ID, v: View, f: View): QuorumCert {
    QuorumCert(Some(LoneSig(id, BlockMsg(OnGenesis(id, v)))), f, HashOf(OnGenesis(id, v)))
  }

  lemma LoneTakes(r: Replica, id: ID, v: View, f: View)
    requires IsLone(r, id) && v > r.highQC.view
    requires var b := OnGenesis(id, v); HashOf(b) in r.blocks && r.blocks[HashOf(b)] == b
    ensures var r' := AdvanceView(r, Lone(id, BlockMsg(OnGenesis(id, v))), JustQC(LoneQC(id, v, f)));
      r' == r.(highQC := LoneQC(id, v, f), view := r'.view, entry := r'.entry, lastTimeout := r'.lastTimeout) && r'.view >= r.view
  {
    var env := Lone(id, BlockMsg(OnGenesis(id, v)));
    var qc := LoneQC(id, v, f);
    var si := JustQC(qc);
    var r1 := r.(highQC := qc);
    assert CheckTC(r, env, si) == Accepted(r, si, 0, AtStart);
    assert VerifyQC(r, env, qc) == (r, true);
    assert CheckQC(r, env, si, 0, AtStart) == TakeQC(r, env, si, qc, 0, AtStart);
    assert TakeQC(r, env, si, qc, 0, AtStart) == Accepted(r1, si, f, ByQC(qc));
  }

  /** The configuration of one. */
  function Alone(log: set<Sig>, r: Replica): Cluster {
    Cluster({r.id}, log, map[r.id := r])
  }

  lemma LoneStep(log: set<Sig>, r: Replica, env: Env, e: Event, r': Replica)
    requires r' == Handle(r, env, e) && r'.id == r.id && Sound(Logged(log, r'), {r.id}, env)
    ensures var a := ReplicaHandles(r.id, env, e);
      Enabled(Alone(log, r), a) && Apply(Alone(log, r), a) == Alone(Logged(log, r'), r')
  {
    assert map[r.id := r][r.id := r'] == map[r.id := r'];
  }

  lemma LoneLogs(log: set<Sig>, r: Replica, m: Message)
    requires Signed(m) in r.history
    ensures Sound(Logged(log, r), {r.id}, Lone(r.id, m))
  {
    assert Sig(r.id, m) in SigsOf(r.id, r.history);
    LoneSound(Logged(log, r), r.id, m);
  }

  ghost predicate Path(cs: seq<Cluster>, run: seq<Action>) {
    |cs| == |run| + 1 && forall i {:trigger StepAt(cs, run, i)} :: 0 <= i < |run| ==> StepAt(cs, run, i)
  }

  lemma PathsJoin(cs1: seq<Cluster>, run1: seq<Action>, cs2: seq<Cluster>, run2: seq<Action>)
    requires Path(cs1, run1) && Path(cs2, run2) && cs1[|run1|] == cs2[0]
    ensures Path(cs1 + cs2[1..], run1 + run2)
  {
    var cs, run := cs1 + cs2[1..], run1 + run2;
    forall i | 0 <= i < |run| ensures StepAt(cs, run, i) {
      if i < |run1| {
        assert StepAt(cs1, run1, i);
        SameStep(cs1, run1, i, cs, run, i);
      } else {
        assert StepAt(cs2, run2, i - |run1|);
        SameStep(cs2, run2, i - |run1|, cs, run, i);
      }
    }
  }

  lemma SameStep(cs: seq<Cluster>, run: seq<Action>, i: nat, cs': seq<Cluster>, run': seq<Action>, j: nat)
    requires |cs| == |run| + 1 && i < |run| && StepAt(cs, run, i)
    requires |cs'| == |run'| + 1 && j < |run'| && cs'[j] == cs[i] && run'[j] == run[i] && cs'[j + 1] == cs[i + 1]
    ensures StepAt(cs', run', j)
  {
  }

  /** One more step of a run. */
  lemma RunGrows(cs: seq<Cluster>, run: seq<Action>, a: Action, c: Cluster)
    requires IsRun(cs, run) && Enabled(cs[|run|], a) && c == Apply(cs[|run|], a)
    ensures IsRun(cs + [c], run + [a])
  {
    var cs', run' := cs + [c], run + [a];
    assert cs'[0] == cs[0];
    forall i | 0 <= i < |run'| ensures StepAt(cs', run', i) {
      if i < |run| {
        assert StepAt(cs, run, i);
        SameStep(cs, run, i, cs', run', i);
      } else {
        NewStep(cs, run, a, c);
      }
    }
  }

  lemma NewStep(cs: seq<Cluster>, run: seq<Action>, a: Action, c: Cluster)
    requires |cs| == |run| + 1 && Enabled(cs[|run|], a) && c == Apply(cs[|run|], a)
    ensures StepAt(cs + [c], run + [a], |run|)
  {
  }

  /** The block of view v proposed and voted for, and then its QC with the view field f. */
  function Round(id: ID, v: View, f: View): seq<Action> {
    var b := OnGenesis(id, v);
    [ ReplicaHandles(id, Lone(id, BlockMsg(b)), ProposalArrived(Proposal(id + 1, b, None))),
      ReplicaHandles(id, Lone(id, BlockMsg(b)), NewViewArrived(JustQC(LoneQC(id, v, f)))) ]
  }

  lemma LoneStart(id: ID)
    ensures Start(Alone({}, InitialReplica(id, 1, false, false)))
  {
    assert |{id}| == 1;
  }

  lemma TwoSteps(c0: Cluster, a0: Action, c1: Cluster, a1: Action, c2: Cluster)
    requires Enabled(c0, a0) && c1 == Apply(c0, a0) && Enabled(c1, a1) && c2 == Apply(c1, a1)
    ensures Path([c0, c1, c2], [a0, a1])
  {
    assert StepAt([c0, c1, c2], [a0, a1], 0) && StepAt([c0, c1, c2], [a0, a1], 1);
  }

  lemma RoundRuns(log: set<Sig>, r: Replica, v: View, f: View) returns (cs: seq<Cluster>, log': set<Sig>, r': Replica)
    requires IsLone(r, r.id) && v > r.lastVote && v > r.highQC.view
    ensures Path(cs, Round(r.id, v, f)) && cs[0] == Alone(log, r) && cs[2] == Alone(log', r')
    ensures IsLone(r', r.id) && r'.lastVote == v && r'.highQC == LoneQC(r.id, v, f)
  {
    var id, b := r.id, OnGenesis(r.id, v);
    var env := Lone(id, BlockMsg(b));
    var e1, e2 := ProposalArrived(Proposal(id + 1, b, None)), NewViewArrived(JustQC(LoneQC(id, v, f)));
    LoneVotes(r, id, v);
    var r1 := OnPropose(r, env, Proposal(id + 1, b, None));
    assert r1.history[|r.history|] == Signed(BlockMsg(b));
    LoneLogs(log, r1, BlockMsg(b));
    LoneStep(log, r, env, e1, r1);
    LoneTakes(r1, id, v, f);
    r' := AdvanceView(r1, env, JustQC(LoneQC(id, v, f)));
    LoneLogs(Logged(log, r1), r', BlockMsg(b));
    LoneStep(Logged(log, r1), r1, env, e2, r');
    log' := Logged(Logged(log, r1), r');
    cs := [Alone(log, r), Alone(Logged(log, r1), r1), Alone(log', r')];
    TwoSteps(cs[0], ReplicaHandles(id, env, e1), cs[1], ReplicaHandles(id, env, e2), cs[2]);
  }

  /**
   Without the condition the highest QC can fall, from any view field v > 0 to any lower f:
   in a run, a certified block of a view above v does it when its QC carries f.
   */
  lemma HighQCCanFall(id: ID, v: View, f: View, w: View) returns (cs: seq<Cluster>)
    requires f < v < w
    ensures IsRun(cs, Round(id, v, v) + Round(id, w, f)) && id in cs[2].replicas && id in cs[4].replicas
    ensures cs[2].replicas[id].highQC.view == v && cs[4].replicas[id].highQC.view == f
  {
    LoneStart(id);
    var cs1, log1, r1 := RoundRuns({}, InitialReplica(id, 1, false, false), v, v);
    var cs2, log2, r2 := RoundRuns(log1, r1, w, f);
    PathsJoin(cs1, Round(id, v, v), cs2, Round(id, w, f));
    cs := cs1 + cs2[1..];
  }

  /** The state of a replica that has seen no certificates yet. */
  ghost predicate IsFresh(r: Replica) {
    && IsLone(r, r.id) && r.highQC == QuorumCert(None, 0, HashOf(GENESIS)) && r.highTC == TimeoutCert(None, 0)
    && r.timeouts == map[]
  }

  /** The certificates a replica starts with move it nowhere. */
  lemma FirstCertsIdle(r: Replica, env: Env)
    requires IsFresh(r)
    ensures AdvanceView(r, env, OwnTimeout(r).info) == r
  {
    var si := OwnTimeout(r).info;
    assert CheckTC(r, env, si) == Accepted(r, si, 0, ByTC(r.highTC));
    assert CheckQC(r, env, si, 0, ByTC(r.highTC)) == TakeQC(r, env, si, r.highQC, 0, ByTC(r.highTC));
    assert TakeQC(r, env, si, r.highQC, 0, ByTC(r.highTC)) == Accepted(r, si, 0, ByQC(r.highQC));
  }

  lemma LoneCollects(r: Replica)
    requires IsFresh(r)
    ensures var tc := TimeoutCert(Some(LoneSig(r.id, ViewMsg(r.view))), r.view);
      var r' := CollectTimeout(r, Lone(r.id, ViewMsg(r.view)), OwnTimeout(r), r.view);
      r'.view == r.view + 1 && r'.entry == ByTC(tc) && r'.history == r.history && r'.id == r.id
  {
    var env, t := Lone(r.id, ViewMsg(r.view)), OwnTimeout(r);
    var tc := TimeoutCert(Some(LoneSig(r.id, ViewMsg(r.view))), r.view);
    var r1 := AddTimeout(r, t);
    var at := r1.timeouts[t.view];
    assert at == map[r.id := t] && |at| == 1;
    var r2 := r1.(timeouts := r1.timeouts - {t.view});
    var si := TimeoutInfo(r1, env, at, tc, r.view);
    assert VerifyTC(r2, env, tc) == (r2, true);
    var r3 := r2.(highTC := tc);
    assert CheckTC(r2, env, si) == Accepted(r3, si, r.view, ByTC(tc));
    assert CheckQC(r3, env, si, r.view, ByTC(tc)) == TakeQC(r3, env, si, r.highQC, r.view, ByTC(tc));
    assert Check(r2, env, si) == Accepted(r3, si, r.view, ByTC(tc));
    assert CollectTimeout(r, env, t, r.view) == AdvanceView(r2, env, si) == Enter(r3, env, si, r.view, ByTC(tc));
    assert Enter(r3, env, si, r.view, ByTC(tc)) == EnterView(r3, r.view, ByTC(tc));
  }

  lemma LoneSends(r: Replica)
    requires IsFresh(r)
    ensures var r' := SendTimeout(r, Lone(r.id, ViewMsg(r.view)));
      && r'.view == r.view + 1 && r'.entry == ByTC(TimeoutCert(Some(LoneSig(r.id, ViewMsg(r.view))), r.view))
      && r'.id == r.id && r.history <= r'.history
  {
    var env := Lone(r.id, ViewMsg(r.view));
    FirstCertsIdle(NoteTimeout(r), env);
    LoneCollects(NoteTimeout(r));
  }

  lemma OwnTimeoutMoves(r: Replica)
    requires IsFresh(r) && r.lastTimeout == None
    ensures var r' := OnLocalTimeout(r, Lone(r.id, ViewMsg(r.view)));
      && r'.view == r.view + 1 && r'.entry == ByTC(TimeoutCert(Some(LoneSig(r.id, ViewMsg(r.view))), r.view))
      && r'.id == r.id && Signed(ViewMsg(r.view)) in r'.history
  {
    var r1 := r.(history := r.history + [Signed(ViewMsg(r.view))]);
    LoneSends(r1);
    assert r1.history[|r.history|] == Signed(ViewMsg(r.view));
  }

  lemma OneStep(c: Cluster, a: Action, c': Cluster)
    requires Start(c) && Enabled(c, a) && c' == Apply(c, a)
    ensures IsRun([c, c'], [a])
  {
    assert StepAt([c, c'], [a], 0);
  }

  /** A replica's own timeout verifies and counts in the step that signs it: alone, it moves to the next view at once. */
  lemma OwnTimeoutCounts(r: Replica) returns (r': Replica)
    requires IsFresh(r) && r.lastTimeout == None && Start(Alone({}, r))
    ensures IsRun([Alone({}, r), Alone(Logged({}, r'), r')], [ReplicaHandles(r.id, Lone(r.id, ViewMsg(r.view)), LocalTimeout(r.view))])
    ensures r'.id == r.id && r'.view == r.view + 1 && r'.entry == ByTC(TimeoutCert(Some(LoneSig(r.id, ViewMsg(r.view))), r.view))
  {
    var env, m := Lone(r.id, ViewMsg(r.view)), ViewMsg(r.view);
    r' := OnLocalTimeout(r, env);
    OwnTimeoutMoves(r);
    LoneLogs({}, r', m);
    LoneStep({}, r, env, LocalTimeout(r.view), r');
    OneStep(Alone({}, r), ReplicaHandles(r.id, env, LocalTimeout(r.view)), Alone(Logged({}, r'), r'));
  }

  // ----- a run in which the cache answers for the scheme -----

  const GENESIS_QC: QuorumCert := QuorumCert(None, 0, HashOf(GENESIS))

  /** The aggregate of one replica's timeout, which carried the genesis QC. */
  function LoneAgg(id: ID, sig: Signature, v: View): AggregateQC {
    AggregateQC(map[id := GENESIS_QC], Some(sig), v)
  }

  /** The replica's signature on its timeout of view 1. */
  function FirstTimeoutSig(id: ID): (sig: Signature)
    ensures sig.Participants() == {id} && |sig.Participants()| == 1
  {
    LoneSig(id, TimeoutBytes(id, 1, GENESIS_QC))
  }

  /** Answers under which the scheme accepts that signature for that timeout and nothing else, and the cache forgets nothing. */
  function Caching(id: ID): Env {
    Env(_ => None, (sig, m) => false,
      (sig, batch) => sig == FirstTimeoutSig(id) && batch == map[id := TimeoutBytes(id, 1, GENESIS_QC)],
      _ => true, _ => [id], _ => id + 1, _ => true, _ => None, _ => true, _ => true, 0, _ => None, _ => None)
  }

  lemma CachingSound(log: set<Sig>, id: ID)
    requires Sig(id, TimeoutBytes(id, 1, GENESIS_QC)) in log
    ensures Sound(log, {id}, Caching(id))
  {
  }

  ghost predicate IsAggregating(r: Replica, id: ID) {
    && r.id == id && r.n == 1 && r.useAgg && !r.halted && r.view >= 1
    && HashOf(GENESIS) in r.blocks && r.blocks[HashOf(GENESIS)] == GENESIS
  }

  function AggInfo(a: AggregateQC): SyncInfo {
    SyncInfo(None, None, Some(a))
  }

  lemma AggAccepted(r: Replica, id: ID, v: View)
    requires IsAggregating(r, id) && (v == 1 || FirstTimeoutSig(id) in r.batched)
    ensures var a := LoneAgg(id, FirstTimeoutSig(id), v);
      VerifyAgg(r, Caching(id), a) == (r.(batched := r.batched + {FirstTimeoutSig(id)}), Some(GENESIS_QC))
  {
    var a, env := LoneAgg(id, FirstTimeoutSig(id), v), Caching(id);
    assert Messages(a, env.order(a)) == map[id := TimeoutBytes(id, v, GENESIS_QC)];
    assert FirstTimeoutSig(id) in r.batched ==> r.batched + {FirstTimeoutSig(id)} == r.batched;
    assert [id][..0] == [] && Highest(a.qcs, []) == ZERO_QC;
    assert Highest(a.qcs, [id]) == GENESIS_QC;
  }

  lemma AggMoves(r: Replica, id: ID, v: View)
    requires IsAggregating(r, id) && v >= r.view && (v == 1 || FirstTimeoutSig(id) in r.batched)
    ensures var r' := AdvanceView(r, Caching(id), AggInfo(LoneAgg(id, FirstTimeoutSig(id), v)));
      IsAggregating(r', id) && r'.view == v + 1 && r'.history == r.history && FirstTimeoutSig(id) in r'.batched
  {
    var a, env := LoneAgg(id, FirstTimeoutSig(id), v), Caching(id);
    var si, r1 := AggInfo(a), r.(batched := r.batched + {FirstTimeoutSig(id)});
    var info, entry := si.(qc := Some(GENESIS_QC)), ByAggQC(a, Judged(env, a));
    AggAccepted(r, id, v);
    assert CheckTC(r, env, si) == Accepted(r, si, 0, AtStart);
    assert CheckQC(r, env, si, 0, AtStart) == TakeQC(r1, env, info, GENESIS_QC, v, entry);
    assert TakeQC(r1, env, info, GENESIS_QC, v, entry) == Accepted(r1, info, v, entry);
    assert Check(r, env, si) == Accepted(r1, info, v, entry);
    assert AdvanceView(r, env, si) == Enter(r1, env, info, v, entry) == EnterView(r1, v, entry);
  }

  /** A timeout in view 1; its aggregate; and the aggregate's signature again, in an aggregate of view w. */
  function ReplayRun(id: ID, w: View): seq<Action> {
    [ReplicaHandles(id, Caching(id), LocalTimeout(1))] + [AggArrives(id, 1)] + [AggArrives(id, w)]
  }

  function AggArrives(id: ID, v: View): Action {
    ReplicaHandles(id, Caching(id), NewViewArrived(AggInfo(LoneAgg(id, FirstTimeoutSig(id), v))))
  }

  /** An own timeout that does not verify is noted and no more. */
  lemma SentInVain(r: Replica, env: Env)
    requires !r.halted && !env.verify(OwnTimeout(r).viewSig, ViewMsg(r.view))
    ensures SendTimeout(r, env) == Cleanup(NoteTimeout(r), r.view)
  {
  }

  lemma TimeoutAlone(r: Replica, id: ID)
    requires IsAggregating(r, id) && r.view == 1 && r.highQC == GENESIS_QC && r.lastTimeout == None && r.history == []
    ensures var r' := OnLocalTimeout(r, Caching(id));
      && IsAggregating(r', id) && r'.view == 1
      && r'.history == [Signed(ViewMsg(1)), Signed(TimeoutBytes(id, 1, GENESIS_QC)), SentTimeout(1)]
  {
    var r1 := r.(history := [Signed(ViewMsg(1))]);
    var r2 := r1.(history := [Signed(ViewMsg(1)), Signed(TimeoutBytes(id, 1, GENESIS_QC))]);
    assert OnLocalTimeout(r, Caching(id)) == SendTimeout(r2, Caching(id)) by {
      assert r.history + [Signed(ViewMsg(1))] == r1.history && r1.history + [Signed(TimeoutBytes(id, 1, GENESIS_QC))] == r2.history;
    }
    SentInVain(r2, Caching(id));
    assert NoteTimeout(r2).history == r2.history + [SentTimeout(1)];
  }

  /** What a replica that timed out in view 1 only has signed backs no other view. */
  lemma OnlyFirstBacked(id: ID, w: View)
    requires w >= 2
    ensures !Backed({Sig(id, ViewMsg(1)), Sig(id, TimeoutBytes(id, 1, GENESIS_QC))}, {id}, w)
  {
    assert QuorumSize(|{id}|) == 1;
  }

  lemma CachingStep(log: set<Sig>, r: Replica, e: Event, r': Replica)
    requires r' == Handle(r, Caching(r.id), e) && r'.id == r.id && Signed(TimeoutBytes(r.id, 1, GENESIS_QC)) in r'.history
    ensures var a := ReplicaHandles(r.id, Caching(r.id), e);
      Enabled(Alone(log, r), a) && Apply(Alone(log, r), a) == Alone(Logged(log, r'), r')
  {
    assert Sig(r.id, TimeoutBytes(r.id, 1, GENESIS_QC)) in SigsOf(r.id, r'.history);
    CachingSound(Logged(log, r'), r.id);
    LoneStep(log, r, Caching(r.id), e, r');
  }

  lemma FirstSigs(id: ID, history: seq<Act>)
    requires history == [Signed(ViewMsg(1)), Signed(TimeoutBytes(id, 1, GENESIS_QC)), SentTimeout(1)]
    ensures SigsOf(id, history) == {Sig(id, ViewMsg(1)), Sig(id, TimeoutBytes(id, 1, GENESIS_QC))}
  {
    assert history[0] in history && history[1] in history;
  }

  /** A run of the lone replica that timed out in view 1 and signed nothing more; the log is what it signed. */
  ghost predicate Replays(cs: seq<Cluster>, run: seq<Action>, r: Replica) {
    && IsRun(cs, run) && cs[|run|] == Alone(SigsOf(r.id, r.history), r) && cs[0].config == {r.id}
    && IsAggregating(r, r.id) && r.history == [Signed(ViewMsg(1)), Signed(TimeoutBytes(r.id, 1, GENESIS_QC)), SentTimeout(1)]
  }

  lemma ReplayMatches(id: ID, w: View)
    ensures RunMatches(ReplayRun(id, w))
  {
    forall v ensures EventMatches(AggArrives(id, v).e) {
    }
  }

  lemma CachingGrows(cs: seq<Cluster>, run: seq<Action>, r: Replica, e: Event, r': Replica)
    requires IsRun(cs, run) && cs[|run|] == Alone(SigsOf(r.id, r.history), r) && r'.history == r.history
    requires r' == Handle(r, Caching(r.id), e) && r'.id == r.id && Signed(TimeoutBytes(r.id, 1, GENESIS_QC)) in r'.history
    ensures IsRun(cs + [Alone(SigsOf(r.id, r'.history), r')], run + [ReplicaHandles(r.id, Caching(r.id), e)])
  {
    CachingStep(SigsOf(r.id, r.history), r, e, r');
    assert Logged(SigsOf(r.id, r.history), r') == SigsOf(r.id, r'.history);
    RunGrows(cs, run, ReplicaHandles(r.id, Caching(r.id), e), Alone(SigsOf(r.id, r'.history), r'));
  }

  lemma ReplayStarts(id: ID) returns (cs: seq<Cluster>, r: Replica)
    ensures r.id == id && r.view == 1 && Replays(cs, [ReplicaHandles(id, Caching(id), LocalTimeout(1))], r)
  {
    var r0, a := InitialReplica(id, 1, true, false), ReplicaHandles(id, Caching(id), LocalTimeout(1));
    AloneStarts(r0);
    TimeoutAlone(r0, id);
    r := OnLocalTimeout(r0, Caching(id));
    assert r.history[1] == Signed(TimeoutBytes(id, 1, GENESIS_QC));
    CachingStep({}, r0, LocalTimeout(1), r);
    assert Logged({}, r) == SigsOf(id, r.history);
    var c := Alone(SigsOf(id, r.history), r);
    RunGrows([Alone({}, r0)], [], a, c);
    cs := [Alone({}, r0)] + [c];
    assert [] + [a] == [a];
  }

  lemma ReplayGoesOn(cs: seq<Cluster>, run: seq<Action>, r: Replica, v: View) returns (cs': seq<Cluster>, r': Replica)
    requires Replays(cs, run, r) && v >= r.view && (v == 1 || FirstTimeoutSig(r.id) in r.batched)
    ensures Replays(cs', run + [AggArrives(r.id, v)], r')
    ensures r'.id == r.id && r'.view == v + 1 && FirstTimeoutSig(r.id) in r'.batched
  {
    AggMoves(r, r.id, v);
    r' := AdvanceView(r, Caching(r.id), AggInfo(LoneAgg(r.id, FirstTimeoutSig(r.id), v)));
    assert r'.history[1] == Signed(TimeoutBytes(r.id, 1, GENESIS_QC));
    CachingGrows(cs, run, r, AggArrives(r.id, v).e, r');
    cs' := cs + [Alone(SigsOf(r.id, r'.history), r')];
  }

  /**
   With the cache a view need not be backed although every QC delivered carries its block's
   view: once a signature was accepted for a batch, it takes the replica to view w + 1 in an
   aggregate of any later view w, and nobody signed anything for w.
   */
  lemma CachedViewsNeedNotBeBacked(id: ID, w: View) returns (cs: seq<Cluster>)
    requires w >= 2
    ensures IsRun(cs, ReplayRun(id, w)) && RunMatches(ReplayRun(id, w))
    ensures id in cs[3].replicas && cs[3].replicas[id].view == w + 1 && !Backed(cs[3].log, cs[0].config, w)
  {
    ReplayMatches(id, w);
    var cs1, r1 := ReplayStarts(id);
    var cs2, r2 := ReplayGoesOn(cs1, [ReplicaHandles(id, Caching(id), LocalTimeout(1))], r1, 1);
    var r3;
    cs, r3 := ReplayGoesOn(cs2, [ReplicaHandles(id, Caching(id), LocalTimeout(1))] + [AggArrives(id, 1)], r2, w);
    FirstSigs(id, r3.history);
    OnlyFirstBacked(id, w);
  }

  lemma AloneStarts(r: Replica)
    requires r == InitialReplica(r.id, 1, r.useAgg, r.chained)
    ensures IsRun([Alone({}, r)], [])
  {
    assert |{r.id}| == 1;
  }
}
