/**
 HotStuff safety over whole runs: a replica votes at most once per view and
 never at or below a view it timed out in, views only advance on verified
 certificates, and two certified blocks of one view are the same block.
 */
module HotStuffSafety {
  import opened HotStuffBlocks
  import opened HotStuffReplicas

  /** One signature: who, on what. */
  datatype Sig = Sig(id: ID, msg: Message)

  /** A quorum of the configuration signed the message. */
  ghost predicate QuorumSigned(log: set<Sig>, config: set<ID>, ids: set<ID>, m: Message) {
    && ids <= config && |ids| >= QuorumSize(|config|)
    && forall id :: id in ids ==> Sig(id, m) in log
  }

  /** A certificate for b that VerifyQuorumCert can accept; genesis needs none. */
  ghost predicate Certified(log: set<Sig>, config: set<ID>, b: Block) {
    b == GENESIS || exists ids :: QuorumSigned(log, config, ids, BlockMsg(b))
  }

  ghost predicate CertOk(log: set<Sig>, config: set<ID>, qc: QuorumCert) {
    qc.hash.HashOf? && Certified(log, config, qc.hash.block)
  }

  ghost predicate TimeoutOk(log: set<Sig>, config: set<ID>, tc: TimeoutCert) {
    tc.view == 0 || exists ids :: QuorumSigned(log, config, ids, ViewMsg(tc.view))
  }

  /** A signature verifies only if replicas of the configuration made it. */
  ghost predicate SigSound(log: set<Sig>, config: set<ID>, env: Env, sig: Signature, m: Message) {
    env.verify(sig, m) ==> sig.Participants() <= config && forall id :: id in sig.Participants() ==> Sig(id, m) in log
  }

  /** The signature is one by replicas of the configuration, each on its own message of the batch. */
  ghost predicate BatchSigned(log: set<Sig>, config: set<ID>, sig: Signature, batch: map<ID, Message>) {
    && sig.Participants() <= config
    && forall id :: id in sig.signed ==> id in batch && sig.signed[id] == batch[id] && Sig(id, batch[id]) in log
  }

  /** The scheme accepts a batch only if each participant signed its own message of it; the cache is not in this. */
  ghost predicate BatchSound(log: set<Sig>, config: set<ID>, env: Env, sig: Signature, batch: map<ID, Message>) {
    env.verifyBatch(sig, batch) ==> BatchSigned(log, config, sig, batch)
  }

  ghost predicate Sound(log: set<Sig>, config: set<ID>, env: Env) {
    && (forall sig, m {:trigger SigSound(log, config, env, sig, m)} :: SigSound(log, config, env, sig, m))
    && (forall sig, batch {:trigger BatchSound(log, config, env, sig, batch)} :: BatchSound(log, config, env, sig, batch))
  }

  /** The signature was made on m, which is a timeout of view v. */
  ghost predicate IsTimeout(id: ID, m: Message, v: View) {
    m.TimeoutBytes? && m.id == id && m.view == v
  }

  /** What the signature was made on are timeouts of view v. */
  ghost predicate OfView(sig: Signature, v: View) {
    forall id :: id in sig.signed ==> IsTimeout(id, sig.signed[id], v)
  }

  /** Replicas of the configuration made the signature, on timeouts of one view. */
  ghost predicate TimedOut(log: set<Sig>, config: set<ID>, sig: Signature) {
    && sig.Participants() <= config && (forall id :: id in sig.signed ==> Sig(id, sig.signed[id]) in log)
    && exists v :: OfView(sig, v)
  }

  /** The signature of the aggregate is a quorum's on timeouts of one view. */
  ghost predicate AggSigned(log: set<Sig>, config: set<ID>, a: AggregateQC) {
    && a.sig.Some? && |a.sig.value.Participants()| >= QuorumSize(|config|) && TimedOut(log, config, a.sig.value)
  }

  /** And those timeouts are the aggregate's own: of its view, with the QCs it holds. */
  ghost predicate AggOwn(a: AggregateQC) {
    a.sig.Some? && forall id :: id in a.sig.value.signed ==>
      id in a.qcs && a.sig.value.signed[id] == TimeoutBytes(id, a.view, a.qcs[id])
  }

  /** Every signature whose batch key went into the cache was made on timeouts of one view. */
  ghost predicate BatchesOk(log: set<Sig>, config: set<ID>, batched: set<Signature>) {
    forall sig {:trigger TimedOut(log, config, sig)} :: sig in batched ==> TimedOut(log, config, sig)
  }

  ghost predicate EntryOk(log: set<Sig>, config: set<ID>, view: View, entry: Entry) {
    match entry
    case AtStart => view == 1
    case ByTC(tc) => tc.view + 1 == view && TimeoutOk(log, config, tc)
    case ByQC(qc) => qc.view + 1 == view && CertOk(log, config, qc)
    case ByAggQC(a, judged) => a.view + 1 == view && AggSigned(log, config, a) && (judged ==> AggOwn(a))
  }

  ghost predicate StoreOk(blocks: map<Hash, Block>) {
    forall h :: h in blocks ==> HashOf(blocks[h]) == h
  }

  /** The views an act rules out for later votes end here. */
  function Bar(a: Act): int {
    match a
    case Signed(BlockMsg(b)) => b.view
    case SentTimeout(v) => v
    case _ => -1
  }

  /** An act that is a vote is above view 0 and above everything done before it. */
  ghost predicate VoteOk(history: seq<Act>, j: nat)
    requires j < |history|
  {
    history[j].Signed? && history[j].msg.BlockMsg? ==>
      0 < history[j].msg.block.view && forall i :: 0 <= i < j ==> Bar(history[i]) < history[j].msg.block.view
  }

  /** Votes climb: each is above everything voted for or timed out before it, and none is above lastVote. */
  ghost predicate VotesClimb(history: seq<Act>, lastVote: View) {
    && (forall i :: 0 <= i < |history| ==> Bar(history[i]) <= lastVote)
    && (forall j {:trigger VoteOk(history, j)} :: 0 <= j < |history| ==> VoteOk(history, j))
  }

  lemma ActKeepsClimb(history: seq<Act>, lastVote: View, a: Act, lastVote': View)
    requires VotesClimb(history, lastVote) && lastVote <= lastVote' && Bar(a) <= lastVote'
    requires a.Signed? && a.msg.BlockMsg? ==> lastVote < a.msg.block.view
    ensures VotesClimb(history + [a], lastVote')
  {
    var h := history + [a];
    forall j | 0 <= j < |h| ensures VoteOk(h, j) {
      if j < |history| {
        assert VoteOk(history, j);
      }
    }
  }

  ghost predicate RInv(log: set<Sig>, config: set<ID>, r: Replica) {
    && r.n == |config| && r.view >= 1
    && StoreOk(r.blocks) && VotesClimb(r.history, r.lastVote)
    && EntryOk(log, config, r.view, r.entry) && BatchesOk(log, config, r.batched)
  }

  /** The highest TC stays until there is one of a later view. */
  ghost predicate Rises(tc: TimeoutCert, tc': TimeoutCert) {
    tc' == tc || tc.view < tc'.view
  }

  /** Once a timeout was sent in a view, that is known until the view is left. */
  ghost predicate RGrows(r: Replica, r': Replica) {
    && r'.id == r.id && r'.n == r.n
    && r.history <= r'.history
    && r.view <= r'.view && r.lastVote <= r'.lastVote && Rises(r.highTC, r'.highTC)
    && (r'.view == r.view ==> r'.entry == r.entry && (r.lastTimeout == Some(r.view) ==> r'.lastTimeout == r.lastTimeout))
  }

  ghost predicate Ok(log: set<Sig>, config: set<ID>, r: Replica, r': Replica) {
    RInv(log, config, r') && RGrows(r, r')
  }

  /** Only stored blocks, certificates kept, flags and execution differ. */
  lemma Frame(log: set<Sig>, config: set<ID>, r: Replica, r': Replica)
    requires RInv(log, config, r) && StoreOk(r'.blocks) && BatchesOk(log, config, r'.batched)
    requires r'.id == r.id && r'.n == r.n && r'.history == r.history && r'.lastVote == r.lastVote
    requires r'.view == r.view && r'.entry == r.entry && r'.lastTimeout == r.lastTimeout && Rises(r.highTC, r'.highTC)
    ensures Ok(log, config, r, r')
  {
  }

  lemma GetKeepsStore(r: Replica, env: Env, h: Hash)
    requires StoreOk(r.blocks)
    ensures StoreOk(Get(r, env, h).0.blocks)
    ensures Get(r, env, h).1.Some? ==> HashOf(Get(r, env, h).1.value) == h
  {
  }

  /** A verified signature of enough participants is a quorum's. */
  lemma SignedByQuorum(log: set<Sig>, config: set<ID>, env: Env, sig: Signature, m: Message)
    requires SigSound(log, config, env, sig, m) && env.verify(sig, m) && |sig.Participants()| >= QuorumSize(|config|)
    ensures QuorumSigned(log, config, sig.Participants(), m)
  {
  }

  lemma VerifyQCKeepsStore(r: Replica, env: Env, qc: QuorumCert)
    requires StoreOk(r.blocks)
    ensures StoreOk(VerifyQC(r, env, qc).0.blocks)
    ensures VerifyQC(r, env, qc).1 && qc.hash != HashOf(GENESIS) ==> qc.sig.Some? && qc.hash.HashOf?
    ensures VerifyQC(r, env, qc).1 && qc.hash != HashOf(GENESIS) ==>
      |qc.sig.value.Participants()| >= QuorumSize(r.n) && env.verify(qc.sig.value, BlockMsg(qc.hash.block))
  {
    GetKeepsStore(r, env, qc.hash);
  }

  /** What VerifyQuorumCert accepts is certified. */
  lemma VerifyQCSound(log: set<Sig>, config: set<ID>, r: Replica, env: Env, qc: QuorumCert)
    requires StoreOk(r.blocks) && r.n == |config| && Sound(log, config, env)
    ensures StoreOk(VerifyQC(r, env, qc).0.blocks)
    ensures VerifyQC(r, env, qc).1 ==> CertOk(log, config, qc)
  {
    VerifyQCKeepsStore(r, env, qc);
    if VerifyQC(r, env, qc).1 && qc.hash != HashOf(GENESIS) {
      assert SigSound(log, config, env, qc.sig.value, BlockMsg(qc.hash.block));
      SignedByQuorum(log, config, env, qc.sig.value, BlockMsg(qc.hash.block));
    }
  }

  lemma VerifyTCSound(log: set<Sig>, config: set<ID>, r: Replica, env: Env, tc: TimeoutCert)
    requires r.n == |config| && Sound(log, config, env) && VerifyTC(r, env, tc).1
    ensures TimeoutOk(log, config, tc)
  {
    if tc.view != 0 {
      assert SigSound(log, config, env, tc.sig.value, ViewMsg(tc.view));
      SignedByQuorum(log, config, env, tc.sig.value, ViewMsg(tc.view));
    }
  }

  /** A batch the scheme accepts for an aggregate is of the aggregate's own timeouts. */
  lemma JudgedOwn(log: set<Sig>, config: set<ID>, env: Env, a: AggregateQC)
    requires Sound(log, config, env) && Judged(env, a)
    ensures AggOwn(a) && TimedOut(log, config, a.sig.value)
  {
    assert BatchSound(log, config, env, a.sig.value, Messages(a, env.order(a)));
    assert OfView(a.sig.value, a.view);
  }

  lemma VerifyBatchSound(log: set<Sig>, config: set<ID>, r: Replica, env: Env, a: AggregateQC)
    requires BatchesOk(log, config, r.batched) && Sound(log, config, env) && a.sig.Some?
    ensures var (r', good) := VerifyBatch(r, env, a.sig.value, Messages(a, env.order(a)));
      BatchesOk(log, config, r'.batched) && (good ==> TimedOut(log, config, a.sig.value))
  {
    if Judged(env, a) {
      JudgedOwn(log, config, env, a);
    }
  }

  /**
   What VerifyAggregateQC accepts carries a quorum's signature on timeouts of one view,
   which are the aggregate's own if the scheme accepts the batch; its answer is certified.
   */
  lemma VerifyAggSound(log: set<Sig>, config: set<ID>, r: Replica, env: Env, a: AggregateQC)
    requires StoreOk(r.blocks) && BatchesOk(log, config, r.batched) && r.n == |config| && Sound(log, config, env)
    ensures var (r', high) := VerifyAgg(r, env, a);
      && StoreOk(r'.blocks) && BatchesOk(log, config, r'.batched) && (Judged(env, a) ==> AggOwn(a))
      && (high.Some? ==> AggSigned(log, config, a) && CertOk(log, config, high.value))
  {
    if Judged(env, a) {
      JudgedOwn(log, config, env, a);
    }
    if a.sig.Some? {
      VerifyBatchSound(log, config, r, env, a);
      var r1 := VerifyBatch(r, env, a.sig.value, Messages(a, env.order(a))).0;
      VerifyQCSound(log, config, r1, env, Highest(a.qcs, env.order(a)));
    }
  }

  lemma VerifyAggKeepsStore(r: Replica, env: Env, a: AggregateQC)
    requires StoreOk(r.blocks)
    ensures StoreOk(VerifyAgg(r, env, a).0.blocks)
  {
    if a.sig.Some? {
      var r1 := VerifyBatch(r, env, a.sig.value, Messages(a, env.order(a))).0;
      VerifyQCKeepsStore(r1, env, Highest(a.qcs, env.order(a)));
    }
  }

  lemma {:induction false} ExtendsKeepsStore(r: Replica, env: Env, b: Block, target: Block)
    requires StoreOk(r.blocks)
    ensures StoreOk(ExtendsWalk(r, env, b, target).0.blocks)
    decreases b
  {
    if b.view > target.view {
      GetKeepsStore(r, env, b.parent);
      match Get(r, env, b.parent)
      case (r1, Some(p)) => ExtendsKeepsStore(r1, env, p, target);
      case _ =>
    }
  }

  lemma VoteRuleKeepsStore(r: Replica, env: Env, p: Proposal)
    requires StoreOk(r.blocks)
    ensures StoreOk(VoteRule(r, env, p).0.blocks)
  {
    GetKeepsStore(r, env, p.block.cert.hash);
    ExtendsKeepsStore(Get(r, env, p.block.cert.hash).0, env, p.block, r.lock);
  }

  lemma ExamineAggKeepsStore(r: Replica, env: Env, p: Proposal)
    requires StoreOk(r.blocks)
    ensures StoreOk(ExamineAgg(r, env, p).0.blocks)
  {
    if r.useAgg && p.agg.Some? {
      VerifyAggKeepsStore(r, env, p.agg.value);
    }
  }

  lemma ExamineKeepsStore(r: Replica, env: Env, p: Proposal)
    requires StoreOk(r.blocks)
    ensures StoreOk(Examine(r, env, p).0.blocks)
    ensures Examine(r, env, p).1 ==> p.block.cert != ZERO_QC
  {
    ExamineAggKeepsStore(r, env, p);
    var r1 := ExamineAgg(r, env, p).0;
    VerifyQCKeepsStore(r1, env, p.block.cert);
    var r2 := VerifyQC(r1, env, p.block.cert).0;
    VoteRuleKeepsStore(r2, env, p);
    GetKeepsStore(VoteRule(r2, env, p).0, env, p.block.cert.hash);
  }

  /** A proposal that passed the checks carries a good certificate. */
  lemma ExamineSound(log: set<Sig>, config: set<ID>, r: Replica, env: Env, p: Proposal)
    requires StoreOk(r.blocks) && r.n == |config| && Sound(log, config, env) && Examine(r, env, p).1
    ensures CertOk(log, config, p.block.cert)
  {
    ExamineAggKeepsStore(r, env, p);
    VerifyQCSound(log, config, ExamineAgg(r, env, p).0, env, p.block.cert);
  }

  lemma CertRefKeepsStore(r: Replica, env: Env, qc: QuorumCert)
    requires StoreOk(r.blocks)
    ensures StoreOk(CertRef(r, env, qc).0.blocks)
    ensures CertRef(r, env, qc).1.Some? ==> qc.hash == HashOf(CertRef(r, env, qc).1.value)
  {
    GetKeepsStore(r, env, qc.hash);
  }

  lemma CommitRuleKeepsStore(r: Replica, env: Env, b: Block)
    requires StoreOk(r.blocks)
    ensures StoreOk(CommitRule(r, env, b).0.blocks)
  {
    CertRefKeepsStore(r, env, b.cert);
    var (r1, b1) := CertRef(r, env, b.cert);
    if b1.Some? {
      CertRefKeepsStore(r1, env, b1.value.cert);
      var (r2, b2) := CertRef(r1, env, b1.value.cert);
      if b2.Some? {
        CertRefKeepsStore(r2.(lock := b2.value), env, b2.value.cert);
        CertRefKeepsStore(r2, env, b2.value.cert);
      }
    }
  }

  lemma StoreAndCommitKeepsStore(r: Replica, env: Env, b: Block)
    requires StoreOk(r.blocks)
    ensures StoreOk(StoreAndCommit(r, env, b).blocks)
  {
    var r1 := r.(blocks := r.blocks[HashOf(b) := b]);
    CommitRuleKeepsStore(r1, env, b);
    var (r2, c) := CommitRule(r1, env, b);
    if c.Some? {
      CommitKeepsStore(r2, env, c.value);
    }
  }

  lemma {:induction false} CommitKeepsStore(r: Replica, env: Env, b: Block)
    requires StoreOk(r.blocks)
    ensures StoreOk(CommitInner(r, env, b).0.blocks)
    decreases b
  {
    if r.exec.view < b.view {
      GetKeepsStore(r, env, b.parent);
      match Get(r, env, b.parent)
      case (r1, Some(p)) => if HashOf(p) == b.parent { CommitKeepsStore(r1, env, p); }
      case _ =>
    }
  }

  /** What a checked SyncInfo vouches for. */
  ghost predicate CheckedOk(log: set<Sig>, config: set<ID>, v: View, entry: Entry) {
    v >= 1 ==> EntryOk(log, config, v + 1, entry)
  }

  lemma CheckTCSound(log: set<Sig>, config: set<ID>, r: Replica, env: Env, si: SyncInfo)
    requires StoreOk(r.blocks) && r.n == |config| && Sound(log, config, env)
    ensures var c := CheckTC(r, env, si);
      && StoreOk(c.r.blocks) && c.r.n == r.n && c.r.batched == r.batched && Rises(r.highTC, c.r.highTC)
      && (c.Accepted? ==> CheckedOk(log, config, c.view, c.entry))
  {
    if si.tc.Some? && VerifyTC(r, env, si.tc.value).1 {
      VerifyTCSound(log, config, r, env, si.tc.value);
    }
  }

  lemma TakeQCSound(log: set<Sig>, config: set<ID>, r: Replica, env: Env, si: SyncInfo, qc: QuorumCert, v: View, entry: Entry)
    requires StoreOk(r.blocks) && CertOk(log, config, qc) && CheckedOk(log, config, v, entry)
    ensures var c := TakeQC(r, env, si, qc, v, entry);
      StoreOk(c.r.blocks) && c.r.batched == r.batched && CheckedOk(log, config, c.view, c.entry)
  {
    GetKeepsStore(r, env, qc.hash);
  }

  lemma CheckQCSound(log: set<Sig>, config: set<ID>, r: Replica, env: Env, si: SyncInfo, v: View, entry: Entry)
    requires StoreOk(r.blocks) && BatchesOk(log, config, r.batched) && r.n == |config|
    requires Sound(log, config, env) && CheckedOk(log, config, v, entry)
    ensures var c := CheckQC(r, env, si, v, entry);
      && StoreOk(c.r.blocks) && BatchesOk(log, config, c.r.batched)
      && (c.Accepted? ==> CheckedOk(log, config, c.view, c.entry))
  {
    if si.agg.Some? && r.useAgg {
      var a := si.agg.value;
      VerifyAggSound(log, config, r, env, a);
      var (r1, high) := VerifyAgg(r, env, a);
      if high.Some? {
        if a.view >= v {
          TakeQCSound(log, config, r1, env, si.(qc := high), high.value, a.view, ByAggQC(a, Judged(env, a)));
        } else {
          TakeQCSound(log, config, r1, env, si.(qc := high), high.value, v, entry);
        }
      }
    } else if si.qc.Some? {
      VerifyQCSound(log, config, r, env, si.qc.value);
      if VerifyQC(r, env, si.qc.value).1 {
        TakeQCSound(log, config, VerifyQC(r, env, si.qc.value).0, env, si, si.qc.value, v, entry);
      }
    }
  }

  lemma CheckQCKeepsTC(r: Replica, env: Env, si: SyncInfo, v: View, entry: Entry)
    ensures CheckQC(r, env, si, v, entry).r.highTC == r.highTC
  {
    CheckQCFrame(r, env, si, v, entry);
  }

  lemma CheckCertsSound(log: set<Sig>, config: set<ID>, r: Replica, env: Env, si: SyncInfo)
    requires StoreOk(r.blocks) && BatchesOk(log, config, r.batched) && r.n == |config| && Sound(log, config, env)
    ensures var c := Check(r, env, si);
      && StoreOk(c.r.blocks) && BatchesOk(log, config, c.r.batched) && Rises(r.highTC, c.r.highTC)
      && (c.Accepted? ==> CheckedOk(log, config, c.view, c.entry))
  {
    CheckTCSound(log, config, r, env, si);
    var t := CheckTC(r, env, si);
    if t.Accepted? {
      CheckQCSound(log, config, t.r, env, si, t.view, t.entry);
      CheckQCKeepsTC(t.r, env, si, t.view, t.entry);
    }
  }

  lemma CheckSound(log: set<Sig>, config: set<ID>, r: Replica, env: Env, si: SyncInfo)
    requires RInv(log, config, r) && Sound(log, config, env)
    ensures var c := Check(r, env, si);
      && Ok(log, config, r, c.r)
      && (c.Accepted? ==> CheckedOk(log, config, c.view, c.entry))
  {
    CheckFrame(r, env, si);
    CheckCertsSound(log, config, r, env, si);
    Frame(log, config, r, Check(r, env, si).r);
  }

  lemma CastVoteOk(log: set<Sig>, config: set<ID>, r: Replica, env: Env, b: Block)
    requires RInv(log, config, r)
    ensures Ok(log, config, r, CastVote(r, env, b))
  {
    if b.view > r.lastVote {
      ActKeepsClimb(r.history, r.lastVote, Signed(BlockMsg(b)), b.view);
    }
  }

  lemma OkTrans(log: set<Sig>, config: set<ID>, r: Replica, r1: Replica, r2: Replica)
    requires Ok(log, config, r, r1) && Ok(log, config, r1, r2)
    ensures Ok(log, config, r, r2)
  {
  }

  lemma ExamineBatches(log: set<Sig>, config: set<ID>, r: Replica, env: Env, p: Proposal)
    requires RInv(log, config, r) && Sound(log, config, env)
    ensures BatchesOk(log, config, Examine(r, env, p).0.batched)
  {
    if r.useAgg && p.agg.Some? {
      VerifyAggSound(log, config, r, env, p.agg.value);
    }
    assert Examine(r, env, p).0.batched == ExamineAgg(r, env, p).0.batched;
  }

  lemma ExamineOk(log: set<Sig>, config: set<ID>, r: Replica, env: Env, p: Proposal)
    requires RInv(log, config, r) && Sound(log, config, env)
    ensures Ok(log, config, r, Examine(r, env, p).0)
  {
    ExamineKeepsStore(r, env, p);
    ExamineBatches(log, config, r, env, p);
    Frame(log, config, r, Examine(r, env, p).0);
  }

  lemma StoreAndCommitOk(log: set<Sig>, config: set<ID>, r: Replica, env: Env, b: Block)
    requires RInv(log, config, r)
    ensures Ok(log, config, r, StoreAndCommit(r, env, b))
  {
    var r1 := r.(blocks := r.blocks[HashOf(b) := b]);
    CommitRuleKeepsStore(r1, env, b);
    var (r2, c) := CommitRule(r1, env, b);
    Frame(log, config, r, r2);
    if c.Some? {
      CommitOk(log, config, r2, env, c.value);
      OkTrans(log, config, r, r2, Commit(r2, env, c.value));
    }
  }

  lemma CommitOk(log: set<Sig>, config: set<ID>, r: Replica, env: Env, b: Block)
    requires RInv(log, config, r)
    ensures Ok(log, config, r, Commit(r, env, b))
  {
    CommitKeepsStore(r, env, b);
    ActKeepsClimb(r.history, r.lastVote, Committed(b), r.lastVote);
  }

  lemma {:induction false} ProposeOk(log: set<Sig>, config: set<ID>, r: Replica, env: Env, si: SyncInfo)
    requires RInv(log, config, r) && Sound(log, config, env)
    ensures Ok(log, config, r, Propose(r, env, si))
    decreases Ahead(r, CertOf(si)), 4
  {
    if si.qc.Some? {
      GetKeepsStore(r, env, si.qc.value.hash);
    }
    var (r1, x) := if si.qc.Some? then Get(r, env, si.qc.value.hash) else (r, None);
    var b := NewBlock(r1, env, si);
    var p := Proposal(r.id, b, if r.useAgg then si.agg else None);
    var r2 := r1.(blocks := r1.blocks[HashOf(b) := b]);
    Frame(log, config, r, r2);
    OnProposeOk(log, config, r2, env, p);
    OkTrans(log, config, r, r2, OnPropose(r2, env, p));
  }

  lemma {:induction false} OnProposeOk(log: set<Sig>, config: set<ID>, r: Replica, env: Env, p: Proposal)
    requires RInv(log, config, r) && Sound(log, config, env)
    ensures Ok(log, config, r, OnPropose(r, env, p))
    decreases Ahead(r, p.block.cert), 3
  {
    if !r.halted {
      var (r1, ok) := Examine(r, env, p);
      ExamineOk(log, config, r, env, p);
      if ok {
        TakeOk(log, config, r1, env, p.block);
        OkTrans(log, config, r, r1, Take(r1, env, p.block));
      }
    }
  }

  lemma {:induction false} TakeOk(log: set<Sig>, config: set<ID>, r: Replica, env: Env, b: Block)
    requires RInv(log, config, r) && Sound(log, config, env)
    ensures Ok(log, config, r, Take(r, env, b))
    decreases Ahead(r, b.cert), 2
  {
    var r1 := StoreAndCommit(r, env, b);
    StoreAndCommitOk(log, config, r, env, b);
    CheckFrame(r1, env, JustQC(b.cert));
    AdvanceViewOk(log, config, r1, env, JustQC(b.cert));
    var r2 := AdvanceView(r1, env, JustQC(b.cert));
    OkTrans(log, config, r, r1, r2);
    CastVoteOk(log, config, r2, env, b);
    OkTrans(log, config, r, r2, CastVote(r2, env, b));
  }

  lemma EnterViewOk(log: set<Sig>, config: set<ID>, r: Replica, v: View, entry: Entry)
    requires RInv(log, config, r) && v >= r.view && CheckedOk(log, config, v, entry)
    ensures Ok(log, config, r, EnterView(r, v, entry))
  {
  }

  lemma {:induction false} AdvanceViewOk(log: set<Sig>, config: set<ID>, r: Replica, env: Env, si: SyncInfo)
    requires RInv(log, config, r) && Sound(log, config, env)
    ensures Ok(log, config, r, AdvanceView(r, env, si))
    decreases Moves(r, env, si), 1
  {
    if !r.halted {
      CheckFrame(r, env, si);
      CheckSound(log, config, r, env, si);
      match Check(r, env, si)
      case Rejected(r1) =>
      case Accepted(r1, info, v, entry) =>
        EnterOk(log, config, r1, env, info, v, entry);
        OkTrans(log, config, r, r1, Enter(r1, env, info, v, entry));
    }
  }

  lemma {:induction false} EnterOk(log: set<Sig>, config: set<ID>, r: Replica, env: Env, info: SyncInfo, v: View, entry: Entry)
    requires RInv(log, config, r) && Sound(log, config, env)
    requires CertOf(info).view <= v && CheckedOk(log, config, v, entry)
    ensures Ok(log, config, r, Enter(r, env, info, v, entry))
    decreases if v >= r.view then 1 else 0, 0
  {
    if !r.halted && v >= r.view {
      var r1 := EnterView(r, v, entry);
      EnterViewOk(log, config, r, v, entry);
      if env.leader(v + 1) == r1.id {
        ProposeOk(log, config, r1, env, info);
        OkTrans(log, config, r, r1, Propose(r1, env, info));
      }
    }
  }

  lemma CollectTimeoutOk(log: set<Sig>, config: set<ID>, r: Replica, env: Env, t: TimeoutMsg, current: View)
    requires RInv(log, config, r) && Sound(log, config, env)
    ensures Ok(log, config, r, CollectTimeout(r, env, t, current))
  {
    var r1 := AddTimeout(r, t);
    Frame(log, config, r, r);
    Frame(log, config, r, r1);
    var at := r1.timeouts[t.view];
    if !r.halted && |at| >= QuorumSize(r1.n) && CreateTC(env, at, t.view).Some? {
      var si := TimeoutInfo(r1, env, at, CreateTC(env, at, t.view).value, current);
      var r2 := r1.(timeouts := r1.timeouts - {t.view});
      Frame(log, config, r, r2);
      AdvanceViewOk(log, config, r2, env, si);
      OkTrans(log, config, r, r2, AdvanceView(r2, env, si));
    }
  }

  lemma OnRemoteTimeoutOk(log: set<Sig>, config: set<ID>, r: Replica, env: Env, t: TimeoutMsg)
    requires RInv(log, config, r) && Sound(log, config, env)
    ensures Ok(log, config, r, OnRemoteTimeout(r, env, t))
  {
    Frame(log, config, r, r);
    Frame(log, config, r, Cleanup(r, r.view));
    var r1 := AdvanceView(r, env, t.info);
    AdvanceViewOk(log, config, r, env, t.info);
    var r2 := CollectTimeout(r1, env, t, r.view);
    CollectTimeoutOk(log, config, r1, env, t, r.view);
    OkTrans(log, config, r, r1, r2);
    Frame(log, config, r2, Cleanup(r2, r.view));
    OkTrans(log, config, r, r2, Cleanup(r2, r.view));
  }

  lemma SendTimeoutOk(log: set<Sig>, config: set<ID>, r: Replica, env: Env)
    requires RInv(log, config, r) && Sound(log, config, env)
    ensures Ok(log, config, r, SendTimeout(r, env))
  {
    NoteTimeoutOk(log, config, r);
    OnRemoteTimeoutOk(log, config, NoteTimeout(r), env, OwnTimeout(r));
    OkTrans(log, config, r, NoteTimeout(r), SendTimeout(r, env));
  }

  lemma NoteTimeoutOk(log: set<Sig>, config: set<ID>, r: Replica)
    requires RInv(log, config, r)
    ensures Ok(log, config, r, NoteTimeout(r))
  {
    ActKeepsClimb(r.history, r.lastVote, SentTimeout(r.view), NoteTimeout(r).lastVote);
  }

  lemma SignOtherOk(log: set<Sig>, config: set<ID>, r: Replica, m: Message)
    requires RInv(log, config, r) && !m.BlockMsg?
    ensures Ok(log, config, r, r.(history := r.history + [Signed(m)]))
  {
    ActKeepsClimb(r.history, r.lastVote, Signed(m), r.lastVote);
  }

  /** The last timeout is for the current view only if voting stopped in it; the highest QC is of an earlier view. */
  ghost predicate Settled(r: Replica) {
    (r.lastTimeout == Some(r.view) ==> r.view <= r.lastVote) && r.highQC.view < r.view
  }

  function SigsOf(id: ID, history: seq<Act>): set<Sig> {
    set a | a in history && a.Signed? :: Sig(id, a.msg)
  }

  lemma EntryStays(log: set<Sig>, log': set<Sig>, config: set<ID>, view: View, entry: Entry)
    requires log <= log' && EntryOk(log, config, view, entry)
    ensures EntryOk(log', config, view, entry)
  {
    match entry
    case ByTC(tc) =>
      if tc.view != 0 {
        var ids :| QuorumSigned(log, config, ids, ViewMsg(tc.view));
        assert QuorumSigned(log', config, ids, ViewMsg(tc.view));
      }
    case ByQC(qc) =>
      if qc.hash.block != GENESIS {
        var ids :| QuorumSigned(log, config, ids, BlockMsg(qc.hash.block));
        assert QuorumSigned(log', config, ids, BlockMsg(qc.hash.block));
      }
    case _ =>
  }

  lemma BatchesStay(log: set<Sig>, log': set<Sig>, config: set<ID>, batched: set<Signature>)
    requires log <= log' && BatchesOk(log, config, batched)
    ensures BatchesOk(log', config, batched)
  {
    forall sig | sig in batched ensures TimedOut(log', config, sig) {
      assert TimedOut(log, config, sig);
    }
  }

  /** The invariant stays when more is signed. */
  lemma InvStays(log: set<Sig>, log': set<Sig>, config: set<ID>, r: Replica)
    requires log <= log' && RInv(log, config, r)
    ensures RInv(log', config, r)
  {
    EntryStays(log, log', config, r.view, r.entry);
    BatchesStay(log, log', config, r.batched);
  }

  /** The log with everything the replica ever signed. */
  function Logged(log: set<Sig>, r: Replica): set<Sig> {
    log + SigsOf(r.id, r.history)
  }

  /** The replica's own timeout counts at once: it may verify, and complete a quorum, in the step that signs it. */
  lemma OnLocalTimeoutOk(log: set<Sig>, config: set<ID>, r: Replica, env: Env)
    requires RInv(log, config, r) && Settled(r)
    requires Sound(Logged(log, OnLocalTimeout(r, env)), config, env)
    ensures Ok(Logged(log, OnLocalTimeout(r, env)), config, r, OnLocalTimeout(r, env))
  {
    InvStays(log, Logged(log, OnLocalTimeout(r, env)), config, r);
    LocalTimeoutOk(Logged(log, OnLocalTimeout(r, env)), config, r, env);
  }

  lemma LocalTimeoutOk(log: set<Sig>, config: set<ID>, r: Replica, env: Env)
    requires RInv(log, config, r) && Sound(log, config, env) && Settled(r)
    ensures Ok(log, config, r, OnLocalTimeout(r, env))
  {
    if r.halted || (r.lastTimeout != Some(r.view) && !env.signs(ViewMsg(r.view))) {
      Frame(log, config, r, r);
    } else if r.lastTimeout == Some(r.view) {
      ResendOk(log, config, r);
    } else {
      SignOtherOk(log, config, r, ViewMsg(r.view));
      FirstTimeoutOk(log, config, r, env);
    }
  }

  lemma ResendOk(log: set<Sig>, config: set<ID>, r: Replica)
    requires RInv(log, config, r) && r.view <= r.lastVote
    ensures Ok(log, config, r, r.(history := r.history + [SentTimeout(r.view)]))
  {
    ActKeepsClimb(r.history, r.lastVote, SentTimeout(r.view), r.lastVote);
  }

  lemma FirstTimeoutOk(log: set<Sig>, config: set<ID>, r: Replica, env: Env)
    requires RInv(log, config, r) && Sound(log, config, env)
    requires !r.halted && r.lastTimeout != Some(r.view) && env.signs(ViewMsg(r.view))
    ensures Ok(log, config, r, OnLocalTimeout(r, env))
  {
    var r1 := r.(history := r.history + [Signed(ViewMsg(r.view))]);
    SignOtherOk(log, config, r, ViewMsg(r.view));
    var m := TimeoutBytes(r.id, r.view, r.highQC);
    if !r.useAgg {
      SendTimeoutOk(log, config, r1, env);
      OkTrans(log, config, r, r1, SendTimeout(r1, env));
    } else if env.signs(m) {
      var r2 := r1.(history := r1.history + [Signed(m)]);
      SignOtherOk(log, config, r1, m);
      OkTrans(log, config, r, r1, r2);
      SendTimeoutOk(log, config, r2, env);
      OkTrans(log, config, r, r2, SendTimeout(r2, env));
    }
  }

  // ----- the last timeout, the highest QC and aggregates without a cache -----

  /** There is no cache, or it has no batch keys. */
  ghost predicate Uncached(env: Env) {
    forall sig :: !env.keeps(sig)
  }

  ghost predicate EntryJudged(entry: Entry) {
    entry.ByAggQC? ==> entry.judged
  }

  /** Without a cache, aggregates move the replica only if the scheme accepts them. */
  ghost predicate KeepsJudged(env: Env, entry: Entry, entry': Entry) {
    Uncached(env) && EntryJudged(entry) ==> EntryJudged(entry')
  }

  lemma TakeQCHigh(r: Replica, env: Env, si: SyncInfo, qc: QuorumCert, v: View, entry: Entry)
    ensures var c := TakeQC(r, env, si, qc, v, entry);
      c.r.halted == r.halted && (c.r.highQC == r.highQC || c.r.highQC.view <= c.view)
  {
  }

  lemma VerifyHigh(r: Replica, env: Env, si: SyncInfo)
    ensures si.agg.Some? && VerifyAgg(r, env, si.agg.value).1.Some? ==> VerifyAgg(r, env, si.agg.value).0.halted == r.halted
    ensures si.qc.Some? && VerifyQC(r, env, si.qc.value).1 ==> VerifyQC(r, env, si.qc.value).0.halted == r.halted
  {
  }

  /** The certificates taken speak for the view found, and nothing was dereferenced in vain. */
  lemma CheckQCHigh(r: Replica, env: Env, si: SyncInfo, v: View, entry: Entry)
    ensures var c := CheckQC(r, env, si, v, entry);
      && (c.r.highQC == r.highQC || (c.Accepted? && c.r.highQC.view <= c.view))
      && (c.Accepted? ==> (!r.halted ==> !c.r.halted) && KeepsJudged(env, entry, c.entry))
  {
    VerifyHigh(r, env, si);
    if si.agg.Some? && r.useAgg {
      var a := si.agg.value;
      var (r1, high) := VerifyAgg(r, env, a);
      if high.Some? {
        TakeQCHigh(r1, env, si.(qc := high), high.value, if a.view >= v then a.view else v, if a.view >= v then ByAggQC(a, Judged(env, a)) else entry);
      }
    } else if si.qc.Some? {
      TakeQCHigh(VerifyQC(r, env, si.qc.value).0, env, si, si.qc.value, v, entry);
    }
  }

  lemma CheckHigh(r: Replica, env: Env, si: SyncInfo)
    ensures var c := Check(r, env, si);
      && (c.r.highQC == r.highQC || (c.Accepted? && c.r.highQC.view <= c.view))
      && (c.Accepted? ==> (!r.halted ==> !c.r.halted) && KeepsJudged(env, AtStart, c.entry))
  {
    var t := CheckTC(r, env, si);
    if t.Accepted? {
      CheckQCHigh(t.r, env, si, t.view, t.entry);
    }
  }

  /** Settled but for the highest QC, which may speak for the view v about to be left behind. */
  ghost predicate SettledUpTo(r: Replica, v: View) {
    && (r.lastTimeout == Some(r.view) ==> r.view <= r.lastVote)
    && (r.highQC.view < r.view || (r.highQC.view <= v && !r.halted))
  }

  lemma {:induction false} ProposeSettled(r: Replica, env: Env, si: SyncInfo)
    requires Settled(r)
    ensures Settled(Propose(r, env, si)) && KeepsJudged(env, r.entry, Propose(r, env, si).entry)
    decreases Ahead(r, CertOf(si)), 4
  {
    var (r1, x) := if si.qc.Some? then Get(r, env, si.qc.value.hash) else (r, None);
    var b := NewBlock(r1, env, si);
    OnProposeSettled(r1.(blocks := r1.blocks[HashOf(b) := b]), env, Proposal(r.id, b, if r.useAgg then si.agg else None));
  }

  lemma {:induction false} OnProposeSettled(r: Replica, env: Env, p: Proposal)
    requires Settled(r)
    ensures Settled(OnPropose(r, env, p)) && KeepsJudged(env, r.entry, OnPropose(r, env, p).entry)
    decreases Ahead(r, p.block.cert), 3
  {
    if !r.halted && Examine(r, env, p).1 {
      TakeSettled(Examine(r, env, p).0, env, p.block);
    }
  }

  lemma {:induction false} TakeSettled(r: Replica, env: Env, b: Block)
    requires Settled(r)
    ensures Settled(Take(r, env, b)) && KeepsJudged(env, r.entry, Take(r, env, b).entry)
    decreases Ahead(r, b.cert), 2
  {
    var r1 := StoreAndCommit(r, env, b);
    CheckFrame(r1, env, JustQC(b.cert));
    AdvanceViewSettled(r1, env, JustQC(b.cert));
  }

  lemma {:induction false} AdvanceViewSettled(r: Replica, env: Env, si: SyncInfo)
    requires Settled(r)
    ensures Settled(AdvanceView(r, env, si)) && KeepsJudged(env, r.entry, AdvanceView(r, env, si).entry)
    decreases Moves(r, env, si), 1
  {
    if !r.halted {
      CheckFrame(r, env, si);
      CheckHigh(r, env, si);
      match Check(r, env, si)
      case Rejected(r1) =>
      case Accepted(r1, info, v, entry) => EnterSettled(r1, env, info, v, entry);
    }
  }

  lemma {:induction false} EnterSettled(r: Replica, env: Env, info: SyncInfo, v: View, entry: Entry)
    requires SettledUpTo(r, v) && CertOf(info).view <= v
    ensures Settled(Enter(r, env, info, v, entry))
    ensures Uncached(env) && EntryJudged(r.entry) && EntryJudged(entry) ==> EntryJudged(Enter(r, env, info, v, entry).entry)
    decreases if v >= r.view then 1 else 0, 0
  {
    if !r.halted && v >= r.view && env.leader(v + 1) == r.id {
      ProposeSettled(EnterView(r, v, entry), env, info);
    }
  }

  lemma HandleSettled(r: Replica, env: Env, e: Event)
    requires Settled(r)
    ensures Settled(Handle(r, env, e)) && KeepsJudged(env, r.entry, Handle(r, env, e).entry)
  {
    match e
    case ProposalArrived(p) => OnProposeSettled(r, env, p);
    case NewViewArrived(info) => AdvanceViewSettled(r, env, info);
    case TimeoutArrived(t) => OnRemoteSettled(r, env, t);
    case LocalTimeout(view) => OnLocalSettled(r, env);
    case StartProposing => ProposeSettled(r, env, SyncInfo(Some(r.highQC), Some(r.highTC), None));
  }

  lemma CollectSettled(r: Replica, env: Env, t: TimeoutMsg, current: View)
    requires Settled(r)
    ensures Settled(CollectTimeout(r, env, t, current)) && KeepsJudged(env, r.entry, CollectTimeout(r, env, t, current).entry)
  {
    var r1 := AddTimeout(r, t);
    var at := r1.timeouts[t.view];
    if CreateTC(env, at, t.view).Some? {
      var si := TimeoutInfo(r1, env, at, CreateTC(env, at, t.view).value, current);
      AdvanceViewSettled(r1.(timeouts := r1.timeouts - {t.view}), env, si);
    }
  }

  lemma OnRemoteSettled(r: Replica, env: Env, t: TimeoutMsg)
    requires Settled(r)
    ensures Settled(OnRemoteTimeout(r, env, t)) && KeepsJudged(env, r.entry, OnRemoteTimeout(r, env, t).entry)
  {
    AdvanceViewSettled(r, env, t.info);
    CollectSettled(AdvanceView(r, env, t.info), env, t, r.view);
  }

  lemma OnLocalSettled(r: Replica, env: Env)
    requires Settled(r)
    ensures Settled(OnLocalTimeout(r, env)) && KeepsJudged(env, r.entry, OnLocalTimeout(r, env).entry)
  {
    var r1 := r.(history := r.history + [Signed(ViewMsg(r.view))]);
    var r2 := r1.(history := r1.history + [Signed(TimeoutBytes(r.id, r.view, r.highQC))]);
    OnRemoteSettled(NoteTimeout(r1), env, OwnTimeout(r1));
    OnRemoteSettled(NoteTimeout(r2), env, OwnTimeout(r2));
  }

  lemma EventOk(log: set<Sig>, config: set<ID>, r: Replica, env: Env, e: Event)
    requires RInv(log, config, r) && Sound(log, config, env) && Settled(r)
    ensures Ok(log, config, r, Handle(r, env, e))
  {
    Frame(log, config, r, r);
    match e
    case ProposalArrived(p) => OnProposeOk(log, config, r, env, p);
    case NewViewArrived(info) => AdvanceViewOk(log, config, r, env, info);
    case TimeoutArrived(t) => OnRemoteTimeoutOk(log, config, r, env, t);
    case LocalTimeout(view) => LocalTimeoutOk(log, config, r, env);
    case StartProposing => ProposeOk(log, config, r, env, SyncInfo(Some(r.highQC), Some(r.highTC), None));
  }

  /**
   Every event keeps the replica's invariant and moves it forward. What verifies in
   the step may rest on any signature made before it or in it.
   */
  lemma HandleOk(log: set<Sig>, config: set<ID>, r: Replica, env: Env, e: Event)
    requires RInv(log, config, r) && Settled(r) && Sound(Logged(log, Handle(r, env, e)), config, env)
    ensures Ok(Logged(log, Handle(r, env, e)), config, r, Handle(r, env, e)) && Settled(Handle(r, env, e))
  {
    HandleSettled(r, env, e);
    InvStays(log, Logged(log, Handle(r, env, e)), config, r);
    EventOk(Logged(log, Handle(r, env, e)), config, r, env, e);
  }

  // ----- runs of a configuration -----

  datatype Cluster = Cluster(config: set<ID>, log: set<Sig>, replicas: map<ID, Replica>)

  datatype Action = ReplicaHandles(id: ID, env: Env, e: Event) | FaultySigns(sig: Sig)

  function Apply(c: Cluster, a: Action): Cluster {
    match a
    case ReplicaHandles(id, env, e) =>
      if id !in c.replicas then c else
        var r' := Handle(c.replicas[id], env, e);
        c.(log := Logged(c.log, r'), replicas := c.replicas[id := r'])
    case FaultySigns(sig) => c.(log := c.log + {sig})
  }

  /** What a replica verifies in a step was signed before the step or in it; its own timeout counts at once. */
  ghost predicate Enabled(c: Cluster, a: Action) {
    match a
    case ReplicaHandles(id, env, _) => id in c.replicas && Sound(Apply(c, a).log, c.config, env)
    case FaultySigns(sig) => sig.id !in c.replicas
  }

  /** A configuration of n replicas with at most NumFaulty(n) faulty ones, just started. */
  ghost predicate Start(c: Cluster) {
    && c.config != {} && c.log == {} && c.replicas.Keys <= c.config
    && |c.config - c.replicas.Keys| <= NumFaulty(|c.config|)
    && forall id :: id in c.replicas ==> c.replicas[id] == InitialReplica(id, |c.config|, c.replicas[id].useAgg, c.replicas[id].chained)
  }

  ghost predicate StepAt(cs: seq<Cluster>, run: seq<Action>, i: nat)
    requires |cs| == |run| + 1 && i < |run|
  {
    Enabled(cs[i], run[i]) && cs[i + 1] == Apply(cs[i], run[i])
  }

  /** The states of a run from the start, one after each action. */
  ghost predicate IsRun(cs: seq<Cluster>, run: seq<Action>) {
    && |cs| == |run| + 1 && Start(cs[0])
    && forall i {:trigger StepAt(cs, run, i)} :: 0 <= i < |run| ==> StepAt(cs, run, i)
  }

  ghost predicate ReplicaOk(c: Cluster, id: ID)
    requires id in c.replicas
  {
    var r := c.replicas[id];
    && r.id == id && RInv(c.log, c.config, r) && Settled(r)
    && (forall m :: Sig(id, m) in c.log ==> Signed(m) in r.history)
  }

  ghost predicate ClusterOk(c: Cluster) {
    forall id {:trigger ReplicaOk(c, id)} :: id in c.replicas ==> ReplicaOk(c, id)
  }

  lemma OtherReplicaOk(c: Cluster, c': Cluster, id: ID)
    requires id in c.replicas && ReplicaOk(c, id) && c.log <= c'.log && c'.config == c.config
    requires id in c'.replicas && c'.replicas[id] == c.replicas[id]
    requires forall m :: Sig(id, m) in c'.log ==> Sig(id, m) in c.log
    ensures ReplicaOk(c', id)
  {
    InvStays(c.log, c'.log, c.config, c.replicas[id]);
  }

  lemma ApplyOk(c: Cluster, a: Action)
    requires ClusterOk(c) && Enabled(c, a)
    ensures ClusterOk(Apply(c, a)) && Apply(c, a).config == c.config && Apply(c, a).replicas.Keys == c.replicas.Keys
  {
    var c' := Apply(c, a);
    if a.ReplicaHandles? {
      assert ReplicaOk(c, a.id);
      HandleOk(c.log, c.config, c.replicas[a.id], a.env, a.e);
    }
    forall id | id in c'.replicas ensures ReplicaOk(c', id) {
      assert ReplicaOk(c, id);
      if a.ReplicaHandles? && a.id == id {
        assert forall x :: x in c.replicas[id].history ==> x in c'.replicas[id].history;
      } else {
        OtherReplicaOk(c, c', id);
      }
    }
  }

  lemma StartOk(c: Cluster)
    requires Start(c)
    ensures ClusterOk(c)
  {
    forall id | id in c.replicas ensures ReplicaOk(c, id) {
    }
  }

  lemma {:induction false} RunOk(cs: seq<Cluster>, run: seq<Action>, i: nat)
    requires IsRun(cs, run) && i < |cs|
    ensures ClusterOk(cs[i]) && cs[i].config == cs[0].config && cs[i].replicas.Keys == cs[0].replicas.Keys
  {
    if i == 0 {
      StartOk(cs[0]);
    } else {
      RunOk(cs, run, i - 1);
      assert StepAt(cs, run, i - 1);
      ApplyOk(cs[i - 1], run[i - 1]);
    }
  }

  /** Signatures stay made. */
  lemma {:induction false} LogGrows(cs: seq<Cluster>, run: seq<Action>, i: nat, j: nat)
    requires IsRun(cs, run) && i <= j < |cs|
    ensures cs[i].log <= cs[j].log
  {
    if i < j {
      LogGrows(cs, run, i, j - 1);
      assert StepAt(cs, run, j - 1);
    }
  }

  lemma CertStays(log: set<Sig>, log': set<Sig>, config: set<ID>, b: Block)
    requires log <= log' && Certified(log, config, b)
    ensures Certified(log', config, b)
  {
    if b != GENESIS {
      var ids :| QuorumSigned(log, config, ids, BlockMsg(b));
      assert QuorumSigned(log', config, ids, BlockMsg(b));
    }
  }

  /** A correct replica's signatures on blocks of one view are on one block. */
  lemma VotesOncePerView(c: Cluster, id: ID, b1: Block, b2: Block)
    requires ClusterOk(c) && id in c.replicas && b1.view == b2.view
    requires Sig(id, BlockMsg(b1)) in c.log && Sig(id, BlockMsg(b2)) in c.log
    ensures b1 == b2 && 0 < b1.view
  {
    assert ReplicaOk(c, id);
    SameView(c.replicas[id], b1, b2);
  }

  lemma SameView(r: Replica, b1: Block, b2: Block)
    requires VotesClimb(r.history, r.lastVote) && b1.view == b2.view
    requires Signed(BlockMsg(b1)) in r.history && Signed(BlockMsg(b2)) in r.history
    ensures b1 == b2 && 0 < b1.view
  {
    var i :| 0 <= i < |r.history| && r.history[i] == Signed(BlockMsg(b1));
    var j :| 0 <= j < |r.history| && r.history[j] == Signed(BlockMsg(b2));
    assert VoteOk(r.history, i) && VoteOk(r.history, j);
    assert Bar(r.history[i]) == b1.view && Bar(r.history[j]) == b2.view;
  }

  /** Nobody votes in view 0, so genesis is the only certified block there. */
  lemma OnlyGenesisInViewZero(c: Cluster, b: Block)
    requires ClusterOk(c) && c.config != {} && |c.config - c.replicas.Keys| <= NumFaulty(|c.config|)
    requires Certified(c.log, c.config, b) && b != GENESIS
    ensures 0 < b.view
  {
    var a :| QuorumSigned(c.log, c.config, a, BlockMsg(b));
    var id := QuorumsShareHonest(c.config, a, a, c.config - c.replicas.Keys);
    VotesOncePerView(c, id, b, b);
  }

  lemma CertifiedUnique(c: Cluster, b1: Block, b2: Block)
    requires ClusterOk(c) && c.config != {} && |c.config - c.replicas.Keys| <= NumFaulty(|c.config|)
    requires Certified(c.log, c.config, b1) && Certified(c.log, c.config, b2) && b1.view == b2.view
    ensures b1 == b2
  {
    if b1 != GENESIS {
      OnlyGenesisInViewZero(c, b1);
    }
    if b2 != GENESIS {
      OnlyGenesisInViewZero(c, b2);
    }
    if b1 != GENESIS && b2 != GENESIS {
      var a :| QuorumSigned(c.log, c.config, a, BlockMsg(b1));
      var b :| QuorumSigned(c.log, c.config, b, BlockMsg(b2));
      var id := QuorumsShareHonest(c.config, a, b, c.config - c.replicas.Keys);
      VotesOncePerView(c, id, b1, b2);
    }
  }

  /** What a correct replica accepts at some time of a run is certified at the end of it. */
  lemma AcceptedIsCertified(cs: seq<Cluster>, run: seq<Action>, i: nat, id: ID, env: Env, qc: QuorumCert)
    requires IsRun(cs, run) && i < |cs| && id in cs[0].replicas && id in cs[i].replicas
    requires Sound(cs[i].log, cs[0].config, env) && VerifyQC(cs[i].replicas[id], env, qc).1
    ensures qc.hash.HashOf? && Certified(cs[|run|].log, cs[0].config, qc.hash.block)
  {
    RunOk(cs, run, i);
    assert ReplicaOk(cs[i], id);
    VerifyQCSound(cs[i].log, cs[i].config, cs[i].replicas[id], env, qc);
    LogGrows(cs, run, i, |run|);
    CertStays(cs[i].log, cs[|run|].log, cs[0].config, qc.hash.block);
  }

  /**
   Certificate uniqueness. For every n with at most NumFaulty(n) faulty replicas,
   along any run, two QCs that VerifyQuorumCert accepts at correct replicas, each at
   any time, and that certify blocks of the same view certify the same block.
   */
  lemma CertificatesAreUnique(cs: seq<Cluster>, run: seq<Action>,
    i: nat, id1: ID, env1: Env, qc1: QuorumCert, j: nat, id2: ID, env2: Env, qc2: QuorumCert)
    requires IsRun(cs, run) && i < |cs| && j < |cs| && id1 in cs[0].replicas && id2 in cs[0].replicas
    requires id1 in cs[i].replicas && Sound(cs[i].log, cs[0].config, env1) && VerifyQC(cs[i].replicas[id1], env1, qc1).1
    requires id2 in cs[j].replicas && Sound(cs[j].log, cs[0].config, env2) && VerifyQC(cs[j].replicas[id2], env2, qc2).1
    ensures qc1.hash.HashOf? && qc2.hash.HashOf?
    ensures qc1.hash.block.view == qc2.hash.block.view ==> qc1.hash == qc2.hash
  {
    AcceptedIsCertified(cs, run, i, id1, env1, qc1);
    AcceptedIsCertified(cs, run, j, id2, env2, qc2);
    RunOk(cs, run, |run|);
    if qc1.hash.block.view == qc2.hash.block.view {
      CertifiedUnique(cs[|run|], qc1.hash.block, qc2.hash.block);
    }
  }

  /**
   View synchronisation. Along any run, handling an event never lowers a correct
   replica's view, last vote or highest timeout certificate; the view it is in was
   entered on a timeout certificate that a quorum signed for the view before, on a
   certified block's QC whose view field is the view before, or on an aggregate whose
   view field is the view before and whose signature is a quorum's on timeouts of one
   view, the aggregate's own ones if it was the scheme that accepted the batch; its
   highest QC is of an earlier view; and it signs a block only above every view it
   voted or sent a timeout in.
   */
  lemma ViewsAdvance(cs: seq<Cluster>, run: seq<Action>, i: nat, id: ID)
    requires IsRun(cs, run) && i < |run| && id in cs[0].replicas
    ensures id in cs[i].replicas && id in cs[i + 1].replicas
    ensures RGrows(cs[i].replicas[id], cs[i + 1].replicas[id])
    ensures var r := cs[i + 1].replicas[id];
      EntryOk(cs[i + 1].log, cs[0].config, r.view, r.entry) && VotesClimb(r.history, r.lastVote) && Settled(r)
  {
    RunOk(cs, run, i);
    RunOk(cs, run, i + 1);
    assert StepAt(cs, run, i) && ReplicaOk(cs[i], id) && ReplicaOk(cs[i + 1], id);
    if run[i].ReplicaHandles? && run[i].id == id {
      HandleOk(cs[i].log, cs[i].config, cs[i].replicas[id], run[i].env, run[i].e);
    }
  }
}
