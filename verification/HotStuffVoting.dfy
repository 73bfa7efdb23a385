/**
 When a HotStuff replica signs a block, exactly: for every state and proposal, and
 along every run. The leader's own proposals included.
 */
module HotStuffVoting {
  import opened HotStuffBlocks
  import opened HotStuffReplicas
  import opened HotStuffSafety

  // ----- what a replica can look up -----

  /** The block is stored, or others deliver it. */
  predicate Avail(r: Replica, env: Env, h: Hash) {
    h in r.blocks || (env.fetch(h).Some? && HashOf(env.fetch(h).value) == h)
  }

  /** What r can look up r' can too. */
  ghost predicate Sees(r: Replica, r': Replica, env: Env) {
    && StoreOk(r.blocks) && StoreOk(r'.blocks) && r'.n == r.n
    && forall h {:trigger Avail(r', env, h)} :: Avail(r, env, h) ==> Avail(r', env, h)
  }

  /** And the rest of what checks depend on is the same. */
  ghost predicate MoreAvail(r: Replica, r': Replica, env: Env) {
    Sees(r, r', env) && r'.lock == r.lock && r'.chained == r.chained
  }

  lemma GetIs(r: Replica, env: Env, h: Hash)
    requires StoreOk(r.blocks)
    ensures var (r', b) := Get(r, env, h);
      && StoreOk(r'.blocks) && (b.Some? <==> Avail(r, env, h)) && (b.Some? ==> h == HashOf(b.value))
      && MoreAvail(r, r', env) && MoreAvail(r', r, env)
  {
    GetKeepsStore(r, env, h);
    var r' := Get(r, env, h).0;
    forall g ensures Avail(r', env, g) <==> Avail(r, env, g) {
    }
  }

  lemma MoreTrans(r: Replica, r1: Replica, r2: Replica, env: Env)
    requires MoreAvail(r, r1, env) && MoreAvail(r1, r2, env)
    ensures MoreAvail(r, r2, env)
  {
    forall h | Avail(r, env, h) ensures Avail(r2, env, h) {
      assert Avail(r1, env, h);
    }
  }

  /** A certificate that verifies still does where more can be looked up. */
  lemma VerifiesMore(r: Replica, r': Replica, env: Env, qc: QuorumCert)
    requires Sees(r, r', env) && VerifyQC(r, env, qc).1
    ensures VerifyQC(r', env, qc).1
  {
    GetIs(r, env, qc.hash);
    GetIs(r', env, qc.hash);
    assert Avail(r, env, qc.hash) ==> Avail(r', env, qc.hash);
  }

  lemma {:induction false} WalksMore(r: Replica, r': Replica, env: Env, b: Block, target: Block)
    requires MoreAvail(r, r', env) && ExtendsWalk(r, env, b, target).1
    ensures ExtendsWalk(r', env, b, target).1
    decreases b
  {
    if b.view > target.view {
      GetIs(r, env, b.parent);
      GetIs(r', env, b.parent);
      assert Avail(r, env, b.parent) ==> Avail(r', env, b.parent);
      var r1, r1' := Get(r, env, b.parent).0, Get(r', env, b.parent).0;
      MoreTrans(r1, r, r', env);
      MoreTrans(r1, r', r1', env);
      WalksMore(r1, r1', env, b.parent.block, target);
    }
  }

  lemma PassesMore(r: Replica, r': Replica, env: Env, p: Proposal)
    requires MoreAvail(r, r', env) && VoteRule(r, env, p).1
    ensures VoteRule(r', env, p).1
  {
    if r.chained {
      var h := p.block.cert.hash;
      GetIs(r, env, h);
      GetIs(r', env, h);
      assert Avail(r, env, h) ==> Avail(r', env, h);
      var r1, r1' := Get(r, env, h).0, Get(r', env, h).0;
      MoreTrans(r1, r, r', env);
      MoreTrans(r1, r', r1', env);
      if ExtendsWalk(r1, env, p.block, r1.lock).1 {
        WalksMore(r1, r1', env, p.block, r1.lock);
      }
    }
  }

  /** The two can look up the same blocks. */
  ghost predicate SameAvail(r: Replica, r': Replica, env: Env) {
    MoreAvail(r, r', env) && MoreAvail(r', r, env)
  }

  lemma SameTrans(r: Replica, r1: Replica, r2: Replica, env: Env)
    requires SameAvail(r, r1, env) && SameAvail(r1, r2, env)
    ensures SameAvail(r, r2, env)
  {
    MoreTrans(r, r1, r2, env);
    MoreTrans(r2, r1, r, env);
  }

  lemma SameBlocks(r: Replica, r': Replica, env: Env)
    requires StoreOk(r.blocks) && r'.blocks == r.blocks && r'.n == r.n && r'.lock == r.lock && r'.chained == r.chained
    ensures SameAvail(r, r', env)
  {
    forall h ensures Avail(r', env, h) <==> Avail(r, env, h) {
    }
  }

  lemma QCAvail(r: Replica, env: Env, qc: QuorumCert)
    requires StoreOk(r.blocks)
    ensures SameAvail(r, VerifyQC(r, env, qc).0, env)
  {
    GetIs(r, env, qc.hash);
    SameBlocks(r, r, env);
    SameBlocks(r, r.(halted := true), env);
  }

  lemma AggAvail(r: Replica, env: Env, p: Proposal)
    requires StoreOk(r.blocks)
    ensures SameAvail(r, ExamineAgg(r, env, p).0, env)
  {
    SameBlocks(r, r, env);
    SameBlocks(r, r.(halted := true), env);
    if r.useAgg && p.agg.Some? && p.agg.value.sig.Some? {
      var a := p.agg.value;
      var r1 := VerifyBatch(r, env, a.sig.value, Messages(a, env.order(a))).0;
      SameBlocks(r, r1, env);
      QCAvail(r1, env, Highest(a.qcs, env.order(a)));
      SameTrans(r, r1, VerifyQC(r1, env, Highest(a.qcs, env.order(a))).0, env);
    }
  }

  // ----- the checks of a proposal -----

  /** The proposal's aggregate, where one is used, vouches for the block's certificate. */
  ghost predicate AggVouches(r: Replica, env: Env, p: Proposal) {
    r.useAgg && p.agg.Some? ==> VerifyAgg(r, env, p.agg.value).1 == Some(p.block.cert)
  }

  /** All a proposal must meet, judged on the replica as it is when the proposal arrives. */
  ghost predicate Acceptable(r: Replica, env: Env, p: Proposal) {
    && AggVouches(r, env, p) && VerifyQC(r, env, p.block.cert).1 && p.id == env.leader(p.block.view)
    && VoteRule(r, env, p).1 && env.accept(p.block.cmd)
  }

  lemma ExamineIff(r: Replica, env: Env, p: Proposal)
    requires StoreOk(r.blocks)
    ensures Examine(r, env, p).1 <==> Acceptable(r, env, p)
  {
    var r1 := ExamineAgg(r, env, p).0;
    AggAvail(r, env, p);
    var r2 := VerifyQC(r1, env, p.block.cert).0;
    QCAvail(r1, env, p.block.cert);
    SameTrans(r, r1, r2, env);
    if VerifyQC(r, env, p.block.cert).1 {
      VerifiesMore(r, r1, env, p.block.cert);
    }
    if VerifyQC(r1, env, p.block.cert).1 {
      VerifiesMore(r1, r, env, p.block.cert);
    }
    if VoteRule(r, env, p).1 {
      PassesMore(r, r2, env, p);
    }
    if VoteRule(r2, env, p).1 {
      PassesMore(r2, r, env, p);
    }
  }

  lemma {:induction false} WalkAvail(r: Replica, env: Env, b: Block, target: Block)
    requires StoreOk(r.blocks)
    ensures SameAvail(r, ExtendsWalk(r, env, b, target).0, env)
    decreases b
  {
    SameBlocks(r, r, env);
    if b.view > target.view {
      GetIs(r, env, b.parent);
      var (r1, p) := Get(r, env, b.parent);
      if p.Some? {
        WalkAvail(r1, env, p.value, target);
        SameTrans(r, r1, ExtendsWalk(r1, env, p.value, target).0, env);
      }
    }
  }

  lemma RuleAvail(r: Replica, env: Env, p: Proposal)
    requires StoreOk(r.blocks)
    ensures SameAvail(r, VoteRule(r, env, p).0, env)
  {
    SameBlocks(r, r, env);
    if r.chained {
      GetIs(r, env, p.block.cert.hash);
      var r1 := Get(r, env, p.block.cert.hash).0;
      WalkAvail(r1, env, p.block, r1.lock);
      SameTrans(r, r1, ExtendsWalk(r1, env, p.block, r1.lock).0, env);
    }
  }

  lemma ExamineAvail(r: Replica, env: Env, p: Proposal)
    requires StoreOk(r.blocks)
    ensures SameAvail(r, Examine(r, env, p).0, env)
  {
    var r1 := ExamineAgg(r, env, p).0;
    AggAvail(r, env, p);
    var r2 := VerifyQC(r1, env, p.block.cert).0;
    QCAvail(r1, env, p.block.cert);
    SameTrans(r, r1, r2, env);
    var r3 := VoteRule(r2, env, p).0;
    RuleAvail(r2, env, p);
    SameTrans(r, r2, r3, env);
    GetIs(r3, env, p.block.cert.hash);
    SameTrans(r, r3, Get(r3, env, p.block.cert.hash).0, env);
  }

  // ----- refusing -----

  /** A proposal that fails a check changes nothing but what was looked up. */
  lemma RefusedKeeps(r: Replica, env: Env, p: Proposal)
    requires StoreOk(r.blocks) && !Acceptable(r, env, p)
    ensures var r' := OnPropose(r, env, p); r' == r.(blocks := r'.blocks, batched := r'.batched, halted := r'.halted)
  {
    ExamineIff(r, env, p);
  }

  // ----- accepting -----

  lemma KeysSee(r: Replica, r': Replica, env: Env)
    requires StoreOk(r.blocks) && StoreOk(r'.blocks) && r'.n == r.n && r.blocks.Keys <= r'.blocks.Keys
    ensures Sees(r, r', env)
  {
    forall h | Avail(r, env, h) ensures Avail(r', env, h) {
    }
  }

  lemma GetGrows(r: Replica, env: Env, h: Hash)
    ensures r.blocks.Keys <= Get(r, env, h).0.blocks.Keys
  {
  }

  lemma {:induction false} CommitGrows(r: Replica, env: Env, b: Block)
    ensures r.blocks.Keys <= CommitInner(r, env, b).0.blocks.Keys
    decreases b
  {
    if r.exec.view < b.view {
      GetGrows(r, env, b.parent);
      var (r1, p) := Get(r, env, b.parent);
      if p.Some? && HashOf(p.value) == b.parent {
        CommitGrows(r1, env, p.value);
      }
    }
  }

  lemma CommitRuleGrows(r: Replica, env: Env, b: Block)
    ensures r.blocks.Keys <= CommitRule(r, env, b).0.blocks.Keys
  {
  }

  lemma StoreGrows(r: Replica, env: Env, b: Block)
    ensures var r' := StoreAndCommit(r, env, b); r.blocks.Keys <= r'.blocks.Keys && HashOf(b) in r'.blocks
  {
    var r1 := r.(blocks := r.blocks[HashOf(b) := b]);
    CommitRuleGrows(r1, env, b);
    var (r2, c) := CommitRule(r1, env, b);
    if c.Some? {
      CommitGrows(r2, env, c.value);
    }
  }

  /** Storing and committing signs nothing. */
  lemma StoreSigns(r: Replica, env: Env, b: Block)
    ensures var r' := StoreAndCommit(r, env, b); r'.history == r.history || exists c :: r'.history == r.history + [Committed(c)]
  {
  }

  /** The certificate verifies again, so the view is advanced on it. */
  lemma TakeAdvances(r: Replica, env: Env, qc: QuorumCert)
    requires !r.halted && StoreOk(r.blocks) && VerifyQC(r, env, qc).1
    ensures var c := Check(r, env, JustQC(qc));
      c.Accepted? && c.view == qc.view && c.info == JustQC(qc) && !c.r.halted && c.r == r.(blocks := c.r.blocks, highQC := c.r.highQC)
    ensures var c := Check(r, env, JustQC(qc)); StoreOk(c.r.blocks) && r.blocks.Keys <= c.r.blocks.Keys
  {
    VerifyQCKeepsStore(r, env, qc);
    var r1 := VerifyQC(r, env, qc).0;
    GetGrows(r, env, qc.hash);
    GetGrows(r1, env, qc.hash);
    GetKeepsStore(r1, env, qc.hash);
    assert CheckTC(r, env, JustQC(qc)) == Accepted(r, JustQC(qc), 0, AtStart);
    assert Check(r, env, JustQC(qc)) == TakeQC(r1, env, JustQC(qc), qc, 0, AtStart);
  }

  /** A vote was cast for b on the way from r to r'. */
  ghost predicate SignedNow(r: Replica, r': Replica, b: Block) {
    Signed(BlockMsg(b)) in r'.history[if |r.history| <= |r'.history| then |r.history| else 0..]
  }

  /** Advancing when another replica leads the next view, or that view is already reached. */
  lemma QuietAdvances(r: Replica, env: Env, qc: QuorumCert)
    requires !r.halted && StoreOk(r.blocks) && VerifyQC(r, env, qc).1 && (qc.view < r.view || env.leader(qc.view + 1) != r.id)
    ensures var r' := AdvanceView(r, env, JustQC(qc));
      && r'.history == r.history && r'.lastVote == r.lastVote && !r'.halted && r'.id == r.id
      && r'.view == (if qc.view >= r.view then qc.view + 1 else r.view)
  {
    TakeAdvances(r, env, qc);
    var c := Check(r, env, JustQC(qc));
    assert AdvanceView(r, env, JustQC(qc)) == Enter(c.r, env, c.info, c.view, c.entry);
  }

  /**
   A replica that is past the view of the block's certificate, or does not lead the view
   after it, signs the block exactly when the aggregate, if one is used, and the certificate verify, the proposer leads
   the block's view, the vote rule lets it pass, its command is accepted, its view is above
   every view voted in, and signing works.
   */
  lemma SignsIff(r: Replica, env: Env, p: Proposal)
    requires !r.halted && StoreOk(r.blocks) && (p.block.cert.view < r.view || env.leader(p.block.cert.view + 1) != r.id)
    ensures var r', b := OnPropose(r, env, p), p.block;
      SignedNow(r, r', b) <==> Acceptable(r, env, p) && b.view > r.lastVote && env.signs(BlockMsg(b))
  {
    var b := p.block;
    ExamineIff(r, env, p);
    if Acceptable(r, env, p) {
      AcceptedSigns(r, env, p);
    } else {
      RefusedKeeps(r, env, p);
    }
  }

  lemma AcceptedSigns(r: Replica, env: Env, p: Proposal)
    requires !r.halted && StoreOk(r.blocks) && (p.block.cert.view < r.view || env.leader(p.block.cert.view + 1) != r.id) && Acceptable(r, env, p)
    ensures var r', b := OnPropose(r, env, p), p.block; SignedNow(r, r', b) <==> b.view > r.lastVote && env.signs(BlockMsg(b))
  {
    var b, r1 := p.block, Examine(r, env, p).0;
    ExamineIff(r, env, p);
    ExamineAvail(r, env, p);
    ExamineRuns(r, env, p);
    var r2 := StoreAndCommit(r1, env, b);
    StoreGrows(r1, env, b);
    StoreSigns(r1, env, b);
    StoreAndCommitKeepsStore(r1, env, b);
    KeysSee(r1, r2, env);
    VerifiesMore(r, r1, env, b.cert);
    VerifiesMore(r1, r2, env, b.cert);
    QuietAdvances(r2, env, b.cert);
    var r3 := AdvanceView(r2, env, JustQC(b.cert));
    assert OnPropose(r, env, p) == CastVote(r3, env, b);
    CastSigns(r, r3, env, b);
  }

  /** An examination that passes leaves the replica running. */
  lemma ExamineRuns(r: Replica, env: Env, p: Proposal)
    requires !r.halted && Examine(r, env, p).1
    ensures var r1 := Examine(r, env, p).0; !r1.halted && r1.history == r.history && r1.lastVote == r.lastVote && r1.id == r.id && r1.view == r.view
  {
  }

  lemma CastSigns(r: Replica, r3: Replica, env: Env, b: Block)
    requires !r3.halted && (r3.history == r.history || exists c :: r3.history == r.history + [Committed(c)])
    ensures SignedNow(r, CastVote(r3, env, b), b) <==> b.view > r3.lastVote && env.signs(BlockMsg(b))
  {
    var r' := CastVote(r3, env, b);
    if b.view > r3.lastVote && env.signs(BlockMsg(b)) {
      assert r'.history[|r.history|..][|r3.history| - |r.history|] == Signed(BlockMsg(b));
    }
  }

  // ----- the leader's own proposal -----

  /** The block a leader proposes on a certificate. */
  function OwnBlock(r: Replica, env: Env, qc: QuorumCert): Block {
    Block(qc.hash, qc, env.cmd, qc.view + 1, r.id)
  }

  /** A proposal on a certificate of an earlier view is voted for without another view change. */
  lemma SettledSigns(r: Replica, env: Env, p: Proposal)
    requires !r.halted && StoreOk(r.blocks) && Acceptable(r, env, p) && p.block.cert.view < r.view
    requires p.block.view > r.lastVote && env.signs(BlockMsg(p.block))
    ensures var r', b := OnPropose(r, env, p), p.block;
      SignedNow(r, r', b) && r'.lastVote == b.view && r'.view == r.view && HashOf(b) in r'.blocks
  {
    var b, r1 := p.block, Examine(r, env, p).0;
    ExamineIff(r, env, p);
    ExamineAvail(r, env, p);
    ExamineRuns(r, env, p);
    var r2 := StoreAndCommit(r1, env, b);
    StoreGrows(r1, env, b);
    StoreSigns(r1, env, b);
    StoreAndCommitKeepsStore(r1, env, b);
    KeysSee(r1, r2, env);
    VerifiesMore(r, r1, env, b.cert);
    VerifiesMore(r1, r2, env, b.cert);
    TakeAdvances(r2, env, b.cert);
    var c := Check(r2, env, JustQC(b.cert));
    assert AdvanceView(r2, env, JustQC(b.cert)) == c.r;
    assert OnPropose(r, env, p) == CastVote(c.r, env, b);
    CastSigns(r, c.r, env, b);
  }

  /**
   A leader proposes: on a certificate that verifies, of its view or a later one, the leader
   of the next view enters it, proposes there the block that extends what is certified and
   carries the certificate, stores it and signs it, provided its own checks pass.
   */
  lemma LeaderProposes(r: Replica, env: Env, qc: QuorumCert)
    requires !r.halted && StoreOk(r.blocks) && VerifyQC(r, env, qc).1 && qc.view >= r.view && env.leader(qc.view + 1) == r.id
    requires VoteRule(r, env, Proposal(r.id, OwnBlock(r, env, qc), None)).1 && env.accept(env.cmd)
    requires env.signs(BlockMsg(OwnBlock(r, env, qc))) && qc.view + 1 > r.lastVote
    ensures var r', b := AdvanceView(r, env, JustQC(qc)), OwnBlock(r, env, qc);
      SignedNow(r, r', b) && r'.lastVote == r'.view == qc.view + 1 && HashOf(b) in r'.blocks
  {
    var b, c := OwnBlock(r, env, qc), Check(r, env, JustQC(qc));
    TakeAdvances(r, env, qc);
    var r1 := EnterView(c.r, qc.view, c.entry);
    assert AdvanceView(r, env, JustQC(qc)) == Enter(c.r, env, c.info, c.view, c.entry) == Propose(r1, env, JustQC(qc));
    GetKeepsStore(r1, env, qc.hash);
    GetGrows(r1, env, qc.hash);
    var r2 := Get(r1, env, qc.hash).0;
    var r3, p := r2.(blocks := r2.blocks[HashOf(b) := b]), Proposal(r.id, b, None);
    KeysSee(r, r3, env);
    VerifiesMore(r, r3, env, qc);
    PassesMore(r, r3, env, p);
    SettledSigns(r3, env, p);
  }

  /** The first leader, told to start, proposes a block on genesis in view 1 and signs it. */
  lemma {:induction false} StartProposes(r: Replica, env: Env, b: Block)
    requires r == InitialReplica(r.id, r.n, r.useAgg, r.chained) && env.leader(1) == r.id
    requires b == Block(HashOf(GENESIS), r.highQC, env.cmd, 1, r.id) && env.accept(env.cmd) && env.signs(BlockMsg(b))
    requires r.chained || env.voteRule(Proposal(r.id, b, None))
    ensures var r' := Handle(r, env, StartProposing);
      SignedNow(r, r', b) && r'.lastVote == r'.view == 1 && HashOf(b) in r'.blocks
  {
    var p, r1 := Proposal(r.id, b, None), r.(blocks := r.blocks[HashOf(b) := b]);
    assert Handle(r, env, StartProposing) == OnPropose(r1, env, p);
    assert ExtendsWalk(r1, env, GENESIS, GENESIS).1;
    assert r.chained ==> ExtendsWalk(r1, env, b, r1.lock).1;
    SettledSigns(r1, env, p);
  }

  /** Being told to start after the first view, or a local timeout for another view, changes nothing. */
  lemma IdleEvents(r: Replica, env: Env, v: View)
    ensures r.view != 1 ==> Handle(r, env, StartProposing) == r
    ensures r.view != v ==> Handle(r, env, LocalTimeout(v)) == r
  {
  }

  // ----- along runs: only what leaders propose is signed -----

  /** b was proposed by the leader of its view: in the proposal that arrived, or by the replica itself. */
  ghost predicate Led(env: Env, id: ID, arrived: Option<Proposal>, b: Block) {
    || (arrived.Some? && arrived.value.block == b && arrived.value.id == env.leader(b.view))
    || (b.proposer == id == env.leader(b.view))
  }

  predicate IsVote(a: Act) {
    a.Signed? && a.msg.BlockMsg?
  }

  /** The certified block is stored, or is genesis. */
  predicate CertHeld(blocks: map<Hash, Block>, qc: QuorumCert) {
    qc.hash in blocks || qc.hash == HashOf(GENESIS)
  }

  /** b is stored, and so is the block that its certificate is for. */
  ghost predicate Held(blocks: map<Hash, Block>, b: Block) {
    HashOf(b) in blocks && CertHeld(blocks, b.cert)
  }

  /** Every block signed on the way from r to r' was proposed by its leader and is stored. */
  ghost predicate VotesLed(r: Replica, r': Replica, env: Env, arrived: Option<Proposal>) {
    && r'.id == r.id && r.history <= r'.history && r.blocks.Keys <= r'.blocks.Keys
    && forall i :: |r.history| <= i < |r'.history| && IsVote(r'.history[i]) ==>
        Led(env, r.id, arrived, r'.history[i].msg.block) && Held(r'.blocks, r'.history[i].msg.block)
  }

  lemma LedTrans(r: Replica, r1: Replica, r2: Replica, env: Env, arrived: Option<Proposal>)
    requires VotesLed(r, r1, env, arrived) && VotesLed(r1, r2, env, arrived)
    ensures VotesLed(r, r2, env, arrived)
  {
  }

  /** What the replica proposed itself counts whatever arrived. */
  lemma OwnLed(r: Replica, r': Replica, env: Env, p: Proposal, arrived: Option<Proposal>)
    requires VotesLed(r, r', env, Some(p)) && p.id == r.id == p.block.proposer
    ensures VotesLed(r, r', env, arrived)
  {
  }

  lemma {:induction false} OnProposeLed(r: Replica, env: Env, p: Proposal)
    ensures VotesLed(r, OnPropose(r, env, p), env, Some(p))
    decreases Ahead(r, p.block.cert), 3
  {
    if !r.halted {
      var (r1, ok) := Examine(r, env, p);
      ExamineGrows(r, env, p);
      if ok {
        ExamineLeads(r, env, p);
        TakeLed(r1, env, p);
        LedTrans(r, r1, OnPropose(r, env, p), env, Some(p));
      }
    }
  }

  lemma ExamineLeads(r: Replica, env: Env, p: Proposal)
    requires Examine(r, env, p).1
    ensures p.id == env.leader(p.block.view)
  {
  }

  lemma QCGrows(r: Replica, env: Env, qc: QuorumCert)
    ensures var (r', ok) := VerifyQC(r, env, qc); r.blocks.Keys <= r'.blocks.Keys && (ok ==> CertHeld(r'.blocks, qc))
  {
  }

  lemma AggGrows(r: Replica, env: Env, a: AggregateQC)
    ensures r.blocks.Keys <= VerifyAgg(r, env, a).0.blocks.Keys
  {
    if a.sig.Some? {
      QCGrows(VerifyBatch(r, env, a.sig.value, Messages(a, env.order(a))).0, env, Highest(a.qcs, env.order(a)));
    }
  }

  lemma {:induction false} WalkGrows(r: Replica, env: Env, b: Block, target: Block)
    ensures r.blocks.Keys <= ExtendsWalk(r, env, b, target).0.blocks.Keys
    decreases b
  {
    if b.view > target.view {
      GetGrows(r, env, b.parent);
      var (r1, p) := Get(r, env, b.parent);
      if p.Some? && HashOf(p.value) == b.parent {
        WalkGrows(r1, env, p.value, target);
      }
    }
  }

  lemma RuleGrows(r: Replica, env: Env, p: Proposal)
    ensures r.blocks.Keys <= VoteRule(r, env, p).0.blocks.Keys
  {
    if r.chained {
      GetGrows(r, env, p.block.cert.hash);
      var r1 := Get(r, env, p.block.cert.hash).0;
      WalkGrows(r1, env, p.block, r1.lock);
    }
  }

  /** An examination only adds blocks, and if it passes the certified block is there. */
  lemma ExamineGrows(r: Replica, env: Env, p: Proposal)
    ensures var (r', ok) := Examine(r, env, p); r.blocks.Keys <= r'.blocks.Keys && (ok ==> CertHeld(r'.blocks, p.block.cert))
  {
    var r1 := ExamineAgg(r, env, p).0;
    if r.useAgg && p.agg.Some? {
      AggGrows(r, env, p.agg.value);
    }
    QCGrows(r1, env, p.block.cert);
    var r2 := VerifyQC(r1, env, p.block.cert).0;
    RuleGrows(r2, env, p);
    GetGrows(VoteRule(r2, env, p).0, env, p.block.cert.hash);
  }

  lemma TakeQCGrows(r: Replica, env: Env, si: SyncInfo, qc: QuorumCert, v: View, entry: Entry)
    ensures r.blocks.Keys <= TakeQC(r, env, si, qc, v, entry).r.blocks.Keys
  {
    GetGrows(r, env, qc.hash);
  }

  lemma CheckQCGrows(r: Replica, env: Env, si: SyncInfo, v: View, entry: Entry)
    ensures r.blocks.Keys <= CheckQC(r, env, si, v, entry).r.blocks.Keys
  {
    if si.agg.Some? && r.useAgg {
      var a := si.agg.value;
      AggGrows(r, env, a);
      var (r1, high) := VerifyAgg(r, env, a);
      if high.Some? {
        TakeQCGrows(r1, env, si.(qc := high), high.value, if a.view >= v then a.view else v, if a.view >= v then ByAggQC(a, Judged(env, a)) else entry);
      }
    } else if si.qc.Some? {
      QCGrows(r, env, si.qc.value);
      TakeQCGrows(VerifyQC(r, env, si.qc.value).0, env, si, si.qc.value, v, entry);
    }
  }

  lemma CheckGrows(r: Replica, env: Env, si: SyncInfo)
    ensures r.blocks.Keys <= Check(r, env, si).r.blocks.Keys
  {
    var t := CheckTC(r, env, si);
    if t.Accepted? {
      CheckQCGrows(t.r, env, si, t.view, t.entry);
    }
  }

  lemma {:induction false} TakeLed(r: Replica, env: Env, p: Proposal)
    requires p.id == env.leader(p.block.view) && CertHeld(r.blocks, p.block.cert)
    ensures VotesLed(r, Take(r, env, p.block), env, Some(p))
    decreases Ahead(r, p.block.cert), 2
  {
    var b := p.block;
    var r1 := StoreAndCommit(r, env, b);
    StoreLed(r, env, b, Some(p));
    var r2 := AdvanceView(r1, env, JustQC(b.cert));
    CheckFrame(r1, env, JustQC(b.cert));
    AdvanceLed(r1, env, JustQC(b.cert), Some(p));
    LedTrans(r, r1, r2, env, Some(p));
    CastLed(r, r2, env, p);
  }

  lemma StoreLed(r: Replica, env: Env, b: Block, arrived: Option<Proposal>)
    ensures VotesLed(r, StoreAndCommit(r, env, b), env, arrived) && HashOf(b) in StoreAndCommit(r, env, b).blocks
  {
    StoreSigns(r, env, b);
    StoreGrows(r, env, b);
  }

  lemma CastLed(r: Replica, r2: Replica, env: Env, p: Proposal)
    requires VotesLed(r, r2, env, Some(p)) && p.id == env.leader(p.block.view) && Held(r2.blocks, p.block)
    ensures VotesLed(r, CastVote(r2, env, p.block), env, Some(p))
  {
  }

  lemma {:induction false} AdvanceLed(r: Replica, env: Env, si: SyncInfo, arrived: Option<Proposal>)
    ensures VotesLed(r, AdvanceView(r, env, si), env, arrived)
    decreases Moves(r, env, si), 1
  {
    if !r.halted {
      CheckFrame(r, env, si);
      CheckGrows(r, env, si);
      var c := Check(r, env, si);
      if c.Accepted? {
        EnterLed(c.r, env, c.info, c.view, c.entry, arrived);
        LedTrans(r, c.r, Enter(c.r, env, c.info, c.view, c.entry), env, arrived);
      }
    }
  }

  lemma {:induction false} EnterLed(r: Replica, env: Env, info: SyncInfo, v: View, entry: Entry, arrived: Option<Proposal>)
    requires CertOf(info).view <= v
    ensures VotesLed(r, Enter(r, env, info, v, entry), env, arrived)
    decreases if v >= r.view then 1 else 0, 0
  {
    if !(r.halted || v < r.view) {
      var r1 := EnterView(r, v, entry);
      if env.leader(v + 1) == r1.id {
        ProposeLed(r1, env, info, arrived);
        LedTrans(r, r1, Propose(r1, env, info), env, arrived);
      }
    }
  }

  lemma {:induction false} ProposeLed(r: Replica, env: Env, si: SyncInfo, arrived: Option<Proposal>)
    ensures VotesLed(r, Propose(r, env, si), env, arrived)
    decreases Ahead(r, CertOf(si)), 4
  {
    var (r1, _) := if si.qc.Some? then Get(r, env, si.qc.value.hash) else (r, None);
    var b := NewBlock(r1, env, si);
    var p := Proposal(r.id, b, if r.useAgg then si.agg else None);
    var r2 := r1.(blocks := r1.blocks[HashOf(b) := b]);
    if si.qc.Some? {
      GetGrows(r, env, si.qc.value.hash);
    }
    OnProposeLed(r2, env, p);
    OwnLed(r2, OnPropose(r2, env, p), env, p, arrived);
    LedTrans(r, r2, OnPropose(r2, env, p), env, arrived);
  }

  lemma CollectLed(r: Replica, env: Env, t: TimeoutMsg, current: View)
    ensures VotesLed(r, CollectTimeout(r, env, t, current), env, None)
  {
    if !r.halted {
      var r1 := AddTimeout(r, t);
      var at := r1.timeouts[t.view];
      var tc := CreateTC(env, at, t.view);
      if |at| >= QuorumSize(r1.n) && tc.Some? {
        var r2, si := r1.(timeouts := r1.timeouts - {t.view}), TimeoutInfo(r1, env, at, tc.value, current);
        AdvanceLed(r2, env, si, None);
        LedTrans(r, r2, AdvanceView(r2, env, si), env, None);
      }
    }
  }

  lemma RemoteTimeoutLed(r: Replica, env: Env, t: TimeoutMsg)
    ensures VotesLed(r, OnRemoteTimeout(r, env, t), env, None)
  {
    if !r.halted && env.verify(t.viewSig, ViewMsg(t.view)) {
      var r1 := AdvanceView(r, env, t.info);
      AdvanceLed(r, env, t.info, None);
      CollectLed(r1, env, t, r.view);
      LedTrans(r, r1, CollectTimeout(r1, env, t, r.view), env, None);
    }
  }

  lemma SendTimeoutLed(r: Replica, env: Env)
    ensures VotesLed(r, SendTimeout(r, env), env, None)
  {
    RemoteTimeoutLed(NoteTimeout(r), env, OwnTimeout(r));
    LedTrans(r, NoteTimeout(r), SendTimeout(r, env), env, None);
  }

  lemma LocalTimeoutLed(r: Replica, env: Env)
    ensures VotesLed(r, OnLocalTimeout(r, env), env, None)
  {
    if !r.halted && r.lastTimeout != Some(r.view) && env.signs(ViewMsg(r.view)) {
      var r1, m := r.(history := r.history + [Signed(ViewMsg(r.view))]), TimeoutBytes(r.id, r.view, r.highQC);
      var r2 := if r.useAgg then r1.(history := r1.history + [Signed(m)]) else r1;
      SendTimeoutLed(r2, env);
      LedTrans(r, r2, SendTimeout(r2, env), env, None);
    }
  }

  lemma HandleLed(r: Replica, env: Env, e: Event)
    ensures VotesLed(r, Handle(r, env, e), env, if e.ProposalArrived? then Some(e.p) else None)
  {
    match e
    case ProposalArrived(p) => OnProposeLed(r, env, p);
    case NewViewArrived(info) => AdvanceLed(r, env, info, None);
    case TimeoutArrived(t) => RemoteTimeoutLed(r, env, t);
    case LocalTimeout(view) => LocalTimeoutLed(r, env);
    case StartProposing => ProposeLed(r, env, SyncInfo(Some(r.highQC), Some(r.highTC), None), None);
  }

  /** At step j the replica handled a proposal of b by the leader of its view, or was that leader and proposed b. */
  ghost predicate ProposedAt(run: seq<Action>, j: nat, id: ID, b: Block)
    requires j < |run|
  {
    run[j].ReplicaHandles? && run[j].id == id && Led(run[j].env, id, if run[j].e.ProposalArrived? then Some(run[j].e.p) else None, b)
  }

  /**
   Along any run, a correct replica has voted for a block only if the leader of the block's view
   proposed it to the replica, and it then stores the block and the one the block's certificate is for.
   */
  lemma {:induction false} OnlyLeadersBlocks(cs: seq<Cluster>, run: seq<Action>, i: nat, id: ID, b: Block)
    requires IsRun(cs, run) && i < |cs| && id in cs[0].replicas
    ensures id in cs[i].replicas && HashOf(GENESIS) in cs[i].replicas[id].blocks
    ensures var r := cs[i].replicas[id]; Signed(BlockMsg(b)) in r.history ==> HashOf(b) in r.blocks && b.cert.hash in r.blocks
    ensures Signed(BlockMsg(b)) in cs[i].replicas[id].history ==> exists j :: 0 <= j < i && ProposedAt(run, j, id, b)
  {
    if i == 0 {
      StartVotes(cs[0], id);
    } else {
      OnlyLeadersBlocks(cs, run, i - 1, id, b);
      if run[i - 1].ReplicaHandles? && run[i - 1].id == id {
        StepVotes(cs, run, i - 1, id, b);
      } else {
        OtherStep(cs, run, i - 1, id);
      }
    }
  }

  lemma StartVotes(c: Cluster, id: ID)
    requires Start(c) && id in c.replicas
    ensures c.replicas[id].history == [] && HashOf(GENESIS) in c.replicas[id].blocks
  {
  }

  lemma OtherStep(cs: seq<Cluster>, run: seq<Action>, j: nat, id: ID)
    requires IsRun(cs, run) && j < |run| && id in cs[j].replicas && !(run[j].ReplicaHandles? && run[j].id == id)
    ensures id in cs[j + 1].replicas && cs[j + 1].replicas[id] == cs[j].replicas[id]
  {
    assert StepAt(cs, run, j);
  }

  lemma StepVotes(cs: seq<Cluster>, run: seq<Action>, j: nat, id: ID, b: Block)
    requires IsRun(cs, run) && j < |run| && id in cs[j].replicas && run[j].ReplicaHandles? && run[j].id == id
    ensures id in cs[j + 1].replicas && cs[j].replicas[id].blocks.Keys <= cs[j + 1].replicas[id].blocks.Keys
    ensures var r, r' := cs[j].replicas[id], cs[j + 1].replicas[id];
      Signed(BlockMsg(b)) in r'.history ==> Signed(BlockMsg(b)) in r.history || (ProposedAt(run, j, id, b) && Held(r'.blocks, b))
  {
    assert StepAt(cs, run, j);
    RunOk(cs, run, j);
    assert ReplicaOk(cs[j], id);
    var r, r' := cs[j].replicas[id], cs[j + 1].replicas[id];
    HandleLed(r, run[j].env, run[j].e);
    if Signed(BlockMsg(b)) in r'.history && Signed(BlockMsg(b)) !in r.history {
      var k :| 0 <= k < |r'.history| && r'.history[k] == Signed(BlockMsg(b));
      assert k >= |r.history|;
      assert IsVote(r'.history[k]);
    }
  }
}
