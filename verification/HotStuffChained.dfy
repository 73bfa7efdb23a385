/**
 Commit safety of the chained rules (consensus/chainedhotstuff/chainedhotstuff.go):
 a block that heads a certified chain of three consecutive views is final, that
 is, every block certified in its view or later extends it.

 The rules do not ask a proposal to name its certificate's block as its parent,
 to be of a later view than it, or to carry a matching view field; and a replica
 that cannot fetch a block skips its lock. What is proved holds for the runs in
 which proposals are well formed and fetching and signing work; HotStuffForks has
 the runs that fail otherwise.
 */
module HotStuffChained {
  import opened HotStuffBlocks
  import opened HotStuffReplicas
  import opened HotStuffSafety
  import opened HotStuffViews
  import L = HotStuffLog

  /** The proposal extends the block its certificate is for, and the views say so. */
  ghost predicate WellFormed(b: Block) {
    Matches(b.cert) && b.parent == b.cert.hash && b.cert.view < b.view
  }

  /** The block certified by the block that b's certificate is for: what accepting b locks. */
  function Grand(b: Block): Option<Block> {
    if b.cert.hash.HashOf? && b.cert.hash.block.cert.hash.HashOf? then Some(b.cert.hash.block.cert.hash.block) else None
  }

  ghost predicate Fetches(env: Env) {
    forall b :: env.fetch(HashOf(b)) == Some(b)
  }

  ghost predicate Signs(env: Env) {
    forall b :: env.signs(BlockMsg(b))
  }

  ghost predicate Serves(log: set<Sig>, config: set<ID>, env: Env) {
    Sound(log, config, env) && Fetches(env) && Signs(env)
  }

  // ----- what a replica's votes keep -----

  ghost predicate Voted(history: seq<Act>, b: Block) {
    Signed(BlockMsg(b)) in history
  }

  /** A vote is for a well-formed block with a good certificate, and the lock is no lower than what it locks. */
  ghost predicate VoteFine(log: set<Sig>, config: set<ID>, lockView: View, b: Block) {
    WellFormed(b) && CertOk(log, config, b.cert) && (Grand(b).Some? ==> Grand(b).value.view <= lockView)
  }

  ghost predicate VotesFine(log: set<Sig>, config: set<ID>, lockView: View, history: seq<Act>) {
    forall b {:trigger VoteFine(log, config, lockView, b)} :: Voted(history, b) ==> VoteFine(log, config, lockView, b)
  }

  /** lock is what the certificate of c, a certified block of a view below m, is for. */
  ghost predicate LockedBy(log: set<Sig>, config: set<ID>, lock: Block, c: Block, m: View) {
    Certified(log, config, c) && c.cert.hash == HashOf(lock) && c.view < m
  }

  ghost predicate LockBelow(log: set<Sig>, config: set<ID>, lock: Block, m: View) {
    lock == GENESIS || exists c :: LockedBy(log, config, lock, c, m)
  }

  /** Voting for w respected a lock at least as high as the one voting for b made. */
  ghost predicate Guarded(log: set<Sig>, config: set<ID>, b: Block, w: Block, lock: Block) {
    && LockBelow(log, config, lock, w.view) && (Grand(b).Some? ==> Grand(b).value.view <= lock.view)
    && (lock.view < w.cert.view || L.Extends(w, lock))
  }

  ghost predicate SafePair(log: set<Sig>, config: set<ID>, b: Block, w: Block) {
    b.cert == w.cert || exists lock :: Guarded(log, config, b, w, lock)
  }

  ghost predicate PairsSafe(log: set<Sig>, config: set<ID>, history: seq<Act>) {
    forall b, w {:trigger SafePair(log, config, b, w)} ::
      Voted(history, b) && Voted(history, w) && b.view < w.view ==> SafePair(log, config, b, w)
  }

  function Max(a: View, b: View): View {
    if a < b then b else a
  }

  /** The invariant of the chained rules; the lock is below the last vote or below m. */
  ghost predicate Chained(log: set<Sig>, config: set<ID>, r: Replica, m: View) {
    && r.chained && VotesFine(log, config, r.lock.view, r.history) && PairsSafe(log, config, r.history)
    && (r.halted || LockBelow(log, config, r.lock, Max(r.lastVote, m)))
  }

  lemma LockStays(log: set<Sig>, config: set<ID>, lock: Block, m: View, m': View)
    requires LockBelow(log, config, lock, m) && m <= m'
    ensures LockBelow(log, config, lock, m')
  {
    if lock != GENESIS {
      var c :| LockedBy(log, config, lock, c, m);
      assert LockedBy(log, config, lock, c, m');
    }
  }

  lemma FineStays(log: set<Sig>, config: set<ID>, v: View, v': View, history: seq<Act>, history': seq<Act>)
    requires VotesFine(log, config, v, history) && v <= v' && forall b :: Voted(history', b) ==> Voted(history, b)
    ensures VotesFine(log, config, v', history')
  {
    forall b | Voted(history', b) ensures VoteFine(log, config, v', b) {
      assert VoteFine(log, config, v, b);
    }
  }

  lemma ChainedFrame(log: set<Sig>, config: set<ID>, r: Replica, r': Replica, m: View, m': View)
    requires Chained(log, config, r, m) && m <= m'
    requires r'.chained && r'.lock == r.lock && r.lastVote <= r'.lastVote && (r.halted ==> r'.halted)
    requires forall b :: Voted(r'.history, b) ==> Voted(r.history, b)
    ensures Chained(log, config, r', m')
  {
    if !r.halted {
      LockStays(log, config, r.lock, Max(r.lastVote, m), Max(r'.lastVote, m'));
    }
  }

  // ----- the rules -----

  lemma {:induction false} WalkSound(r: Replica, env: Env, b: Block, target: Block)
    requires StoreOk(r.blocks) && ExtendsWalk(r, env, b, target).1
    ensures L.Extends(b, target)
    decreases b
  {
    if b.view > target.view {
      GetKeepsStore(r, env, b.parent);
      var (r1, p) := Get(r, env, b.parent);
      WalkSound(r1, env, p.value, target);
    }
  }

  lemma VoteRuleSound(r: Replica, env: Env, p: Proposal)
    requires StoreOk(r.blocks) && r.chained && VoteRule(r, env, p).1
    ensures (p.block.cert.hash.HashOf? && r.lock.view < p.block.cert.hash.block.view) || L.Extends(p.block, r.lock)
  {
    GetKeepsStore(r, env, p.block.cert.hash);
    var (r1, b) := Get(r, env, p.block.cert.hash);
    if !(b.Some? && b.value.view > r1.lock.view) {
      WalkSound(r1, env, p.block, r1.lock);
    }
  }

  lemma FetchedGet(r: Replica, env: Env, b: Block)
    requires StoreOk(r.blocks) && Fetches(env)
    ensures Get(r, env, HashOf(b)).1 == Some(b) && StoreOk(Get(r, env, HashOf(b)).0.blocks)
  {
  }

  /** The walk over blocks that can all be fetched is exact. */
  lemma {:induction false} WalkExact(r: Replica, env: Env, b: Block, target: Block)
    requires StoreOk(r.blocks) && Fetches(env)
    ensures ExtendsWalk(r, env, b, target).1 <==> L.Extends(b, target)
    decreases b
  {
    if b.view > target.view && b.parent.HashOf? {
      FetchedGet(r, env, b.parent.block);
      WalkExact(Get(r, env, b.parent).0, env, b.parent.block, target);
    } else if b.view > target.view {
      GetKeepsStore(r, env, b.parent);
    }
  }

  /** With blocks that can be fetched the vote rule is exactly this. */
  lemma VoteRuleIff(r: Replica, env: Env, p: Proposal)
    requires StoreOk(r.blocks) && r.chained && Fetches(env)
    ensures VoteRule(r, env, p).1 <==>
      (p.block.cert.hash.HashOf? && r.lock.view < p.block.cert.hash.block.view) || L.Extends(p.block, r.lock)
  {
    GetKeepsStore(r, env, p.block.cert.hash);
    if p.block.cert.hash.HashOf? {
      FetchedGet(r, env, p.block.cert.hash.block);
    }
    WalkExact(Get(r, env, p.block.cert.hash).0, env, p.block, r.lock);
  }

  lemma ExamineGuards(r: Replica, env: Env, p: Proposal)
    requires StoreOk(r.blocks) && r.chained && Examine(r, env, p).1 && Matches(p.block.cert)
    ensures r.lock.view < p.block.cert.view || L.Extends(p.block, r.lock)
  {
    ExamineAggKeepsStore(r, env, p);
    var r1 := ExamineAgg(r, env, p).0;
    VerifyQCKeepsStore(r1, env, p.block.cert);
    VoteRuleSound(VerifyQC(r1, env, p.block.cert).0, env, p);
  }

  /** g3 heads the chain of certificates from g over g1 and g2, and parents link the last three. */
  ghost predicate Linked(g: Block, g1: Block, g2: Block, g3: Block) {
    && g.cert.hash == HashOf(g1) && g1.cert.hash == HashOf(g2) && g2.cert.hash == HashOf(g3)
    && g1.parent == HashOf(g2) && g2.parent == HashOf(g3)
  }

  lemma LockAndPickIs(r: Replica, env: Env, b: Block, b1: Block, b2: Block)
    requires StoreOk(r.blocks) && Fetches(env) && b.cert.hash == HashOf(b1) && b1.cert.hash == HashOf(b2)
    ensures var (r', pick) := LockAndPick(r, env, b1, b2);
      r'.lock == (if b2.view > r.lock.view then b2 else r.lock) && forall g3 :: pick == Some(g3) <==> Linked(b, b1, b2, g3)
  {
    if b2.cert.hash.HashOf? {
      FetchedGet(r, env, b2.cert.hash.block);
      FetchedGet(r.(lock := b2), env, b2.cert.hash.block);
    }
  }

  /** Accepting b locks what is two certificates back, unless the lock is higher already, and picks what is three back and linked. */
  lemma CommitRuleLocks(r: Replica, env: Env, b: Block)
    requires StoreOk(r.blocks) && r.chained && Fetches(env) && b.cert.hash.HashOf?
    ensures var (r', pick) := CommitRule(r, env, b);
      && r'.lock == (if Grand(b).Some? && Grand(b).value.view > r.lock.view then Grand(b).value else r.lock)
      && forall g3 :: pick == Some(g3) <==> Grand(b).Some? && Linked(b, b.cert.hash.block, Grand(b).value, g3)
  {
    var b1 := b.cert.hash.block;
    FetchedGet(r, env, b1);
    var r1 := Get(r, env, b.cert.hash).0;
    if b1.cert.hash.HashOf? {
      FetchedGet(r1, env, b1.cert.hash.block);
      LockAndPickIs(Get(r1, env, b1.cert.hash).0, env, b, b1, b1.cert.hash.block);
    }
  }

  lemma StoreAndCommitLocks(r: Replica, env: Env, b: Block)
    requires StoreOk(r.blocks) && r.chained && Fetches(env) && b.cert.hash.HashOf?
    ensures var r' := StoreAndCommit(r, env, b);
      && r.lock.view <= r'.lock.view && (r'.lock == r.lock || Grand(b) == Some(r'.lock))
      && (Grand(b).Some? ==> Grand(b).value.view <= r'.lock.view)
  {
    CommitRuleLocks(r.(blocks := r.blocks[HashOf(b) := b]), env, b);
  }

  lemma StoreAndCommitVotes(r: Replica, env: Env, b: Block, w: Block)
    ensures Voted(StoreAndCommit(r, env, b).history, w) ==> Voted(r.history, w)
  {
  }

  // ----- every step of a replica -----

  /** Votes cast on the way from r to r' are for blocks that carry the certificate. */
  ghost predicate NewVotes(r: Replica, r': Replica, qc: QuorumCert) {
    forall b :: Voted(r'.history, b) ==> Voted(r.history, b) || b.cert == qc
  }

  lemma CastVoteChained(log: set<Sig>, config: set<ID>, r: Replica, env: Env, w: Block, m: View)
    requires RInv(log, config, r) && Chained(log, config, r, m) && Signs(env) && m <= w.view
    requires VoteFine(log, config, r.lock.view, w)
    requires w.view > r.lastVote ==> forall b {:trigger SafePair(log, config, b, w)} :: Voted(r.history, b) ==> SafePair(log, config, b, w)
    ensures Chained(log, config, CastVote(r, env, w), 0)
    ensures NewVotes(r, CastVote(r, env, w), w.cert) && CastVote(r, env, w).lock == r.lock
  {
    var r' := CastVote(r, env, w);
    if r.halted {
    } else if w.view <= r.lastVote {
      LockStays(log, config, r.lock, Max(r.lastVote, m), Max(r.lastVote, 0));
    } else {
      LockStays(log, config, r.lock, Max(r.lastVote, m), Max(w.view, 0));
      forall b, x | Voted(r'.history, b) && Voted(r'.history, x) && b.view < x.view ensures SafePair(log, config, b, x) {
        VotesBelow(r, b);
        VotesBelow(r, x);
      }
    }
  }

  lemma VotesBelow(r: Replica, b: Block)
    requires VotesClimb(r.history, r.lastVote)
    ensures Voted(r.history, b) ==> b.view <= r.lastVote
  {
    if Voted(r.history, b) {
      var i :| 0 <= i < |r.history| && r.history[i] == Signed(BlockMsg(b));
      assert Bar(r.history[i]) == b.view;
    }
  }

  /** The invariant kept, the lock never lowered, and new votes only for blocks that carry qc. */
  ghost predicate Advances(log: set<Sig>, config: set<ID>, r: Replica, r': Replica, m: View, qc: QuorumCert) {
    Chained(log, config, r', m) && r.lock.view <= r'.lock.view && NewVotes(r, r', qc)
  }

  lemma AdvancesTrans(log: set<Sig>, config: set<ID>, r: Replica, r1: Replica, r2: Replica, m: View, m': View, qc: QuorumCert)
    requires Advances(log, config, r, r1, m, qc) && Advances(log, config, r1, r2, m', qc)
    ensures Advances(log, config, r, r2, m', qc)
  {
  }

  /** The votes before a block are safe with it, once the vote rule let it pass. */
  lemma GuardedSafe(log: set<Sig>, config: set<ID>, r: Replica, w: Block, m: View, b: Block)
    requires Chained(log, config, r, m) && !r.halted && m <= w.view && r.lastVote < w.view && Voted(r.history, b)
    requires r.lock.view < w.cert.view || L.Extends(w, r.lock)
    ensures SafePair(log, config, b, w)
  {
    LockStays(log, config, r.lock, Max(r.lastVote, m), w.view);
    assert VoteFine(log, config, r.lock.view, b);
    assert Guarded(log, config, b, w, r.lock);
  }

  /** Storing and committing an accepted proposal: the lock now covers a vote for it. */
  lemma StoreAndCommitChained(log: set<Sig>, config: set<ID>, r: Replica, env: Env, b: Block, m: View)
    requires StoreOk(r.blocks) && Chained(log, config, r, m) && Fetches(env)
    requires WellFormed(b) && CertOk(log, config, b.cert)
    ensures var r' := StoreAndCommit(r, env, b);
      Advances(log, config, r, r', Max(m, b.cert.view + 1), b.cert) && VoteFine(log, config, r'.lock.view, b)
  {
    var r', m' := StoreAndCommit(r, env, b), Max(m, b.cert.view + 1);
    StoreAndCommitLocks(r, env, b);
    forall w ensures Voted(r'.history, w) ==> Voted(r.history, w) {
      StoreAndCommitVotes(r, env, b, w);
    }
    FineStays(log, config, r.lock.view, r'.lock.view, r.history, r'.history);
    if !r.halted {
      if r'.lock == r.lock {
        LockStays(log, config, r.lock, Max(r.lastVote, m), Max(r.lastVote, m'));
      } else {
        assert LockedBy(log, config, r'.lock, b.cert.hash.block, Max(r.lastVote, m'));
      }
    }
  }

  lemma ExamineChained(log: set<Sig>, config: set<ID>, r: Replica, env: Env, p: Proposal, m: View)
    requires RInv(log, config, r) && Chained(log, config, r, m) && Serves(log, config, env)
    ensures Advances(log, config, r, Examine(r, env, p).0, m, p.block.cert)
    ensures Examine(r, env, p).1 ==> p.block.cert != ZERO_QC && CertOk(log, config, p.block.cert)
  {
    ExamineKeepsStore(r, env, p);
    ChainedFrame(log, config, r, Examine(r, env, p).0, m, m);
    if Examine(r, env, p).1 {
      ExamineSound(log, config, r, env, p);
    }
  }

  /** The vote itself, after the view was advanced on the block's certificate. */
  lemma VoteChained(log: set<Sig>, config: set<ID>, r: Replica, env: Env, b: Block, m: View, r1: Replica, r2: Replica)
    requires Chained(log, config, r, m) && Signs(env) && !r.halted && WellFormed(b) && m <= b.view
    requires r.lock.view < b.cert.view || L.Extends(b, r.lock)
    requires Advances(log, config, r, r1, Max(m, b.cert.view + 1), b.cert) && VoteFine(log, config, r1.lock.view, b)
    requires Advances(log, config, r1, r2, Max(m, b.cert.view + 1), b.cert) && RInv(log, config, r2) && r.lastVote <= r2.lastVote
    ensures Advances(log, config, r, CastVote(r2, env, b), m, b.cert)
  {
    AdvancesTrans(log, config, r, r1, r2, Max(m, b.cert.view + 1), Max(m, b.cert.view + 1), b.cert);
    if b.view > r2.lastVote {
      forall x | Voted(r2.history, x) ensures SafePair(log, config, x, b) {
        if Voted(r.history, x) {
          GuardedSafe(log, config, r, b, m, x);
        }
      }
    }
    CastVoteChained(log, config, r2, env, b, Max(m, b.cert.view + 1));
    ChainedFrame(log, config, CastVote(r2, env, b), CastVote(r2, env, b), 0, m);
  }

  lemma {:induction false} ProposeChained(log: set<Sig>, config: set<ID>, r: Replica, env: Env, si: SyncInfo, m: View)
    requires RInv(log, config, r) && Chained(log, config, r, m) && Serves(log, config, env)
    requires m <= r.view && CertOf(si).view < r.view && InfoMatches(si)
    ensures Advances(log, config, r, Propose(r, env, si), m, CertOf(si))
    decreases Ahead(r, CertOf(si)), 4
  {
    if si.qc.Some? {
      GetKeepsStore(r, env, si.qc.value.hash);
    }
    var (r1, x) := if si.qc.Some? then Get(r, env, si.qc.value.hash) else (r, None);
    var b := NewBlock(r1, env, si);
    var r2 := r1.(blocks := r1.blocks[HashOf(b) := b]);
    Frame(log, config, r, r2);
    ChainedFrame(log, config, r, r2, m, m);
    OnProposeChained(log, config, r2, env, Proposal(r.id, b, if r.useAgg then si.agg else None), m);
  }

  lemma {:induction false} OnProposeChained(log: set<Sig>, config: set<ID>, r: Replica, env: Env, p: Proposal, m: View)
    requires RInv(log, config, r) && Chained(log, config, r, m) && Serves(log, config, env)
    requires WellFormed(p.block) || p.block.cert == ZERO_QC
    requires m <= p.block.view && (m <= p.block.cert.view + 1 || p.block.cert.view < r.view)
    ensures Advances(log, config, r, OnPropose(r, env, p), m, p.block.cert)
    decreases Ahead(r, p.block.cert), 3
  {
    if !r.halted {
      var (r1, ok) := Examine(r, env, p);
      ExamineOk(log, config, r, env, p);
      ExamineChained(log, config, r, env, p, m);
      if ok {
        ExamineGuards(r, env, p);
        TakeChained(log, config, r1, env, p.block, m);
        AdvancesTrans(log, config, r, r1, Take(r1, env, p.block), m, m, p.block.cert);
      }
    }
  }

  lemma {:induction false} TakeChained(log: set<Sig>, config: set<ID>, r: Replica, env: Env, b: Block, m: View)
    requires RInv(log, config, r) && Chained(log, config, r, m) && Serves(log, config, env) && !r.halted
    requires WellFormed(b) && CertOk(log, config, b.cert) && (r.lock.view < b.cert.view || L.Extends(b, r.lock))
    requires m <= b.view && (m <= b.cert.view + 1 || b.cert.view < r.view)
    ensures Advances(log, config, r, Take(r, env, b), m, b.cert)
    decreases Ahead(r, b.cert), 2
  {
    var r1 := StoreAndCommit(r, env, b);
    StoreAndCommitOk(log, config, r, env, b);
    StoreAndCommitChained(log, config, r, env, b, m);
    CheckFrame(r1, env, JustQC(b.cert));
    AdvanceViewChained(log, config, r1, env, JustQC(b.cert), Max(m, b.cert.view + 1));
    AdvanceViewOk(log, config, r1, env, JustQC(b.cert));
    VoteChained(log, config, r, env, b, m, r1, AdvanceView(r1, env, JustQC(b.cert)));
  }

  /** What is checked is the sync info given, or one with a QC of its aggregate. */
  lemma CheckKeepsMatch(r: Replica, env: Env, si: SyncInfo)
    requires StoreOk(r.blocks) && InfoMatches(si)
    ensures var c := Check(r, env, si); c.Accepted? ==> InfoMatches(c.info)
  {
    CheckFrame(r, env, si);
    var t := CheckTC(r, env, si);
    if t.Accepted? && si.agg.Some? && r.useAgg {
      VerifyAggMatches(t.r, env, si.agg.value);
    }
  }

  lemma {:induction false} AdvanceViewChained(log: set<Sig>, config: set<ID>, r: Replica, env: Env, si: SyncInfo, m: View)
    requires RInv(log, config, r) && Chained(log, config, r, m) && Serves(log, config, env) && InfoMatches(si)
    requires m > 0 ==> si.qc.Some? && si.agg.None? && (m <= si.qc.value.view + 1 || (si.tc.None? && si.qc.value.view < r.view))
    ensures si.agg.None? ==> Advances(log, config, r, AdvanceView(r, env, si), m, CertOf(si))
    ensures Chained(log, config, AdvanceView(r, env, si), m)
    decreases Moves(r, env, si), 1
  {
    if !r.halted {
      CheckFrame(r, env, si);
      CheckSound(log, config, r, env, si);
      CheckKeepsMatch(r, env, si);
      match Check(r, env, si)
      case Rejected(r1) => ChainedFrame(log, config, r, r1, m, m);
      case Accepted(r1, info, v, entry) =>
        ChainedFrame(log, config, r, r1, m, m);
        EnterChained(log, config, r1, env, info, v, entry, m);
    }
  }

  lemma {:induction false} EnterChained(log: set<Sig>, config: set<ID>, r: Replica, env: Env, info: SyncInfo, v: View, entry: Entry, m: View)
    requires RInv(log, config, r) && Chained(log, config, r, m) && Serves(log, config, env) && InfoMatches(info)
    requires CertOf(info).view <= v && CheckedOk(log, config, v, entry) && (v >= r.view ==> m <= v + 1)
    ensures Advances(log, config, r, Enter(r, env, info, v, entry), m, CertOf(info))
    decreases if v >= r.view then 1 else 0, 0
  {
    if !r.halted && v >= r.view {
      var r1 := EnterView(r, v, entry);
      EnterViewOk(log, config, r, v, entry);
      ChainedFrame(log, config, r, r1, m, m);
      if env.leader(v + 1) == r1.id {
        ProposeChained(log, config, r1, env, info, m);
      }
    }
  }

  /** Everything an event needs to keep the invariant. */
  ghost predicate Runs(log: set<Sig>, config: set<ID>, r: Replica, env: Env) {
    RInv(log, config, r) && Chained(log, config, r, 0) && Matching(r) && Serves(log, config, env)
  }

  lemma CollectTimeoutChained(log: set<Sig>, config: set<ID>, r: Replica, env: Env, t: TimeoutMsg, current: View)
    requires Runs(log, config, r, env) && InfoMatches(t.info)
    ensures Chained(log, config, CollectTimeout(r, env, t, current), 0)
  {
    var r1 := AddTimeout(r, t);
    Frame(log, config, r, r1);
    AddTimeoutMatches(r, t);
    ChainedFrame(log, config, r, r1, 0, 0);
    var at := r1.timeouts[t.view];
    var tc := CreateTC(env, at, t.view);
    if !r.halted && |at| >= QuorumSize(r1.n) && tc.Some? {
      var r2 := r1.(timeouts := r1.timeouts - {t.view});
      Frame(log, config, r, r2);
      ChainedFrame(log, config, r, r2, 0, 0);
      TimeoutInfoMatches(r1, env, at, tc.value, current);
      AdvanceViewChained(log, config, r2, env, TimeoutInfo(r1, env, at, tc.value, current), 0);
    }
  }

  lemma RemoteTimeoutChained(log: set<Sig>, config: set<ID>, r: Replica, env: Env, t: TimeoutMsg)
    requires Runs(log, config, r, env) && InfoMatches(t.info)
    ensures Chained(log, config, OnRemoteTimeout(r, env, t), 0)
  {
    ChainedFrame(log, config, r, Cleanup(r, r.view), 0, 0);
    if !r.halted && env.verify(t.viewSig, ViewMsg(t.view)) {
      var r1 := AdvanceView(r, env, t.info);
      AdvanceViewChained(log, config, r, env, t.info, 0);
      AdvanceViewOk(log, config, r, env, t.info);
      AdvanceViewClimbs(r, env, t.info);
      CollectTimeoutChained(log, config, r1, env, t, r.view);
      var r2 := CollectTimeout(r1, env, t, r.view);
      ChainedFrame(log, config, r2, Cleanup(r2, r.view), 0, 0);
    }
  }

  lemma SendTimeoutChained(log: set<Sig>, config: set<ID>, r: Replica, env: Env)
    requires Runs(log, config, r, env)
    ensures Chained(log, config, SendTimeout(r, env), 0)
  {
    var r1 := NoteTimeout(r);
    NoteTimeoutOk(log, config, r);
    ChainedFrame(log, config, r, r1, 0, 0);
    SameCerts(r, r1);
    RemoteTimeoutChained(log, config, r1, env, OwnTimeout(r));
  }

  lemma SignOtherRuns(log: set<Sig>, config: set<ID>, r: Replica, env: Env, a: Act)
    requires Runs(log, config, r, env) && a.Signed? && !a.msg.BlockMsg?
    ensures Runs(log, config, r.(history := r.history + [a]), env)
  {
    var r' := r.(history := r.history + [a]);
    SignOtherOk(log, config, r, a.msg);
    ChainedFrame(log, config, r, r', 0, 0);
    SameCerts(r, r');
  }

  lemma LocalTimeoutChained(log: set<Sig>, config: set<ID>, r: Replica, env: Env)
    requires Runs(log, config, r, env)
    ensures Chained(log, config, OnLocalTimeout(r, env), 0)
  {
    if r.halted || (r.lastTimeout != Some(r.view) && !env.signs(ViewMsg(r.view))) {
    } else if r.lastTimeout == Some(r.view) {
      ChainedFrame(log, config, r, r.(history := r.history + [SentTimeout(r.view)]), 0, 0);
    } else {
      var r1 := r.(history := r.history + [Signed(ViewMsg(r.view))]);
      SignOtherRuns(log, config, r, env, Signed(ViewMsg(r.view)));
      if r.useAgg {
        var m := TimeoutBytes(r.id, r.view, r.highQC);
        SignOtherRuns(log, config, r1, env, Signed(m));
        SendTimeoutChained(log, config, r1.(history := r1.history + [Signed(m)]), env);
      } else {
        SendTimeoutChained(log, config, r1, env);
      }
    }
  }

  /** Proposals that arrive are well formed, and every QC that arrives has its block's view. */
  ghost predicate EventFine(e: Event) {
    EventMatches(e) && (e.ProposalArrived? ==> WellFormed(e.p.block))
  }

  lemma HandleChained(log: set<Sig>, config: set<ID>, r: Replica, env: Env, e: Event)
    requires Runs(log, config, r, env) && Settled(r) && EventFine(e)
    ensures Chained(log, config, Handle(r, env, e), 0)
  {
    match e
    case ProposalArrived(p) => OnProposeChained(log, config, r, env, p, 0);
    case NewViewArrived(info) => AdvanceViewChained(log, config, r, env, info, 0);
    case TimeoutArrived(t) => RemoteTimeoutChained(log, config, r, env, t);
    case LocalTimeout(view) => LocalTimeoutChained(log, config, r, env);
    case StartProposing => ProposeChained(log, config, r, env, SyncInfo(Some(r.highQC), Some(r.highTC), None), 0);
  }

  // ----- runs -----

  ghost predicate AllUseChained(c: Cluster) {
    forall id :: id in c.replicas ==> c.replicas[id].chained
  }

  /** Correct replicas follow the chained rules; proposals are well formed, QCs match, fetching and signing work. */
  ghost predicate RunFine(cs: seq<Cluster>, run: seq<Action>)
    requires |cs| > 0
  {
    && AllUseChained(cs[0])
    && forall i :: 0 <= i < |run| && run[i].ReplicaHandles? ==> EventFine(run[i].e) && Fetches(run[i].env) && Signs(run[i].env)
  }

  ghost predicate ReplicaChained(log: set<Sig>, c: Cluster, id: ID)
    requires id in c.replicas
  {
    Chained(log, c.config, c.replicas[id], 0)
  }

  ghost predicate AllChained(log: set<Sig>, c: Cluster) {
    forall id {:trigger ReplicaChained(log, c, id)} :: id in c.replicas ==> ReplicaChained(log, c, id)
  }

  lemma StartChained(log: set<Sig>, c: Cluster)
    requires Start(c) && AllUseChained(c)
    ensures AllChained(log, c)
  {
    forall id | id in c.replicas ensures ReplicaChained(log, c, id) {
      assert c.replicas[id] == InitialReplica(id, |c.config|, c.replicas[id].useAgg, c.replicas[id].chained);
    }
  }

  lemma ApplyChained(log: set<Sig>, c: Cluster, a: Action)
    requires ClusterOk(c) && AllMatching(c) && AllChained(log, c) && c.log <= log
    requires a.ReplicaHandles? ==> Serves(log, c.config, a.env) && EventFine(a.e)
    ensures AllChained(log, Apply(c, a))
  {
    forall id | id in Apply(c, a).replicas ensures ReplicaChained(log, Apply(c, a), id) {
      assert ReplicaChained(log, c, id) && ReplicaOk(c, id) && ReplicaMatching(c, id);
      if a.ReplicaHandles? && a.id == id {
        var r := c.replicas[id];
        InvStays(c.log, log, c.config, r);
        HandleChained(log, c.config, r, a.env, a.e);
      }
    }
  }

  lemma {:induction false} RunChained(cs: seq<Cluster>, run: seq<Action>, i: nat)
    requires IsRun(cs, run) && RunFine(cs, run) && i < |cs|
    ensures AllChained(cs[|run|].log, cs[i])
  {
    if i == 0 {
      StartChained(cs[|run|].log, cs[0]);
    } else {
      RunChained(cs, run, i - 1);
      StepChained(cs, run, i - 1);
    }
  }

  lemma StepChained(cs: seq<Cluster>, run: seq<Action>, i: nat)
    requires IsRun(cs, run) && RunFine(cs, run) && i < |run| && AllChained(cs[|run|].log, cs[i])
    ensures AllChained(cs[|run|].log, cs[i + 1])
  {
    RunOk(cs, run, i);
    RunMatching(cs, run, i);
    LogGrows(cs, run, i, |run|);
    if run[i].ReplicaHandles? {
      L.StepSound(cs, run, i);
    }
    assert StepAt(cs, run, i);
    ApplyChained(cs[|run|].log, cs[i], run[i]);
  }

  // ----- finality -----

  /** A reached state with few faulty replicas, in which every vote is fine. */
  ghost predicate Sane(c: Cluster) {
    && ClusterOk(c) && AllChained(c.log, c)
    && c.config != {} && |c.config - c.replicas.Keys| <= NumFaulty(|c.config|)
  }

  /** Some correct replica voted for both certified blocks. */
  lemma SharedVoter(c: Cluster, b: Block, w: Block) returns (id: ID)
    requires Sane(c) && b != GENESIS && w != GENESIS && Certified(c.log, c.config, b) && Certified(c.log, c.config, w)
    ensures id in c.replicas && ReplicaChained(c.log, c, id)
    ensures Voted(c.replicas[id].history, b) && Voted(c.replicas[id].history, w)
  {
    var ids :| QuorumSigned(c.log, c.config, ids, BlockMsg(b));
    var ids' :| QuorumSigned(c.log, c.config, ids', BlockMsg(w));
    id := QuorumsShareHonest(c.config, ids, ids', c.config - c.replicas.Keys);
    assert ReplicaOk(c, id) && ReplicaChained(c.log, c, id);
  }

  /** What is certified is well formed, and so is its certificate, all the way down. */
  lemma CertifiedFine(c: Cluster, b: Block)
    requires Sane(c) && Certified(c.log, c.config, b) && b != GENESIS
    ensures WellFormed(b) && Certified(c.log, c.config, b.cert.hash.block)
  {
    var id := SharedVoter(c, b, b);
    assert VoteFine(c.log, c.config, c.replicas[id].lock.view, b);
  }

  lemma {:induction false} LandingTwice(b: Block, v: View, v': View)
    requires v' <= v && L.Landing(b, v).Some?
    ensures L.Landing(b, v') == L.Landing(L.Landing(b, v).value, v')
    decreases b
  {
    if b.view > v {
      LandingTwice(b.parent.block, v, v');
    }
  }

  /** A block extends what its certificate's block extends. */
  lemma ExtendsByCert(b: Block, target: Block)
    requires WellFormed(b) && L.Extends(b.cert.hash.block, target) && target.view < b.view
    ensures L.Extends(b, target)
  {
  }

  lemma ExtendsTrans(a: Block, b: Block, c: Block)
    requires L.Extends(a, b) && L.Extends(b, c) && c.view <= b.view
    ensures L.Extends(a, c)
  {
    LandingTwice(a, b.view, c.view);
  }

  /** b1 is certified, the certificates lead from it over b2 to b3, and the three are of consecutive views. */
  ghost predicate ThreeChain(log: set<Sig>, config: set<ID>, b1: Block, b2: Block, b3: Block) {
    && Certified(log, config, b1) && b1.cert.hash == HashOf(b2) && b2.cert.hash == HashOf(b3)
    && b1.view == b2.view + 1 && b2.view == b3.view + 1
  }

  lemma ChainFine(c: Cluster, b1: Block, b2: Block, b3: Block)
    requires Sane(c) && ThreeChain(c.log, c.config, b1, b2, b3)
    ensures WellFormed(b1) && WellFormed(b2) && Certified(c.log, c.config, b2) && Certified(c.log, c.config, b3)
    ensures L.Extends(b1, b3) && L.Extends(b2, b3) && L.Extends(b3, b3)
  {
    CertifiedFine(c, b1);
    CertifiedFine(c, b2);
    ExtendsByCert(b2, b3);
    ExtendsByCert(b1, b3);
  }

  /** A lock at or above b3 that w respects is a block that extends b3, by the claim for smaller views. */
  lemma LockLeads(c: Cluster, b1: Block, b2: Block, b3: Block, w: Block, lock: Block)
    requires Sane(c) && ThreeChain(c.log, c.config, b1, b2, b3) && Certified(c.log, c.config, w) && b1.view < w.view
    requires Guarded(c.log, c.config, b1, w, lock) && !(lock.view < w.cert.view)
    ensures L.Extends(w, b3)
    decreases w.view, 0
  {
    ChainFine(c, b1, b2, b3);
    if lock == GENESIS {
      CertifiedUnique(c, b3, GENESIS);
    } else {
      var d :| LockedBy(c.log, c.config, lock, d, w.view);
      CertifiedFine(c, d);
      Final(c, b1, b2, b3, lock);
      ExtendsTrans(w, lock, b3);
    }
  }

  /** Finality: whatever is certified in the view of b3 or later extends b3. */
  lemma {:induction false} Final(c: Cluster, b1: Block, b2: Block, b3: Block, w: Block)
    requires Sane(c) && ThreeChain(c.log, c.config, b1, b2, b3)
    requires Certified(c.log, c.config, w) && b3.view <= w.view
    ensures L.Extends(w, b3)
    decreases w.view, 1
  {
    ChainFine(c, b1, b2, b3);
    if w.view == b3.view {
      CertifiedUnique(c, w, b3);
    } else if w.view == b2.view {
      CertifiedUnique(c, w, b2);
    } else if w.view == b1.view {
      CertifiedUnique(c, w, b1);
    } else {
      CertifiedFine(c, w);
      var id := SharedVoter(c, b1, w);
      assert SafePair(c.log, c.config, b1, w);
      if b1.cert == w.cert {
        ExtendsByCert(w, b3);
      } else {
        var lock :| Guarded(c.log, c.config, b1, w, lock);
        if lock.view < w.cert.view {
          Final(c, b1, b2, b3, w.cert.hash.block);
          ExtendsByCert(w, b3);
        } else {
          LockLeads(c, b1, b2, b3, w, lock);
        }
      }
    }
  }

  lemma {:induction false} ExtendsGenesis(c: Cluster, b: Block)
    requires Sane(c) && Certified(c.log, c.config, b)
    ensures L.Extends(b, GENESIS)
    decreases b
  {
    if b != GENESIS {
      CertifiedFine(c, b);
      ExtendsGenesis(c, b.cert.hash.block);
      ExtendsByCert(b, GENESIS);
    }
  }

  /** Genesis, and the heads of certified chains of three consecutive views. */
  ghost predicate IsFinal(c: Cluster, b: Block) {
    b == GENESIS || exists b1, b2 :: ThreeChain(c.log, c.config, b1, b2, b)
  }

  ghost function FinalBlocks(c: Cluster): iset<Block> {
    iset b: Block | IsFinal(c, b)
  }

  lemma FinalInOrder(c: Cluster, b: Block, d: Block)
    requires Sane(c) && IsFinal(c, b) && IsFinal(c, d) && d.view <= b.view
    ensures L.Extends(b, d)
  {
    if b != GENESIS {
      var b1, b2 :| ThreeChain(c.log, c.config, b1, b2, b);
      ChainFine(c, b1, b2, b);
    }
    if d == GENESIS {
      ExtendsGenesis(c, b);
    } else {
      var d1, d2 :| ThreeChain(c.log, c.config, d1, d2, d);
      Final(c, d1, d2, d, b);
    }
  }

  lemma FinalsAreOneBranch(c: Cluster)
    requires Sane(c)
    ensures L.OneBranch(FinalBlocks(c))
  {
    forall b, d | b in FinalBlocks(c) && d in FinalBlocks(c) ensures L.InOrder(b, d) {
      if d.view <= b.view {
        FinalInOrder(c, b, d);
      }
    }
  }

  lemma EndIsSane(cs: seq<Cluster>, run: seq<Action>)
    requires IsRun(cs, run) && RunFine(cs, run)
    ensures Sane(cs[|run|])
  {
    RunOk(cs, run, |run|);
    RunChained(cs, run, |run|);
  }

  /**
   Commit safety. Along any run of the chained rules with at most NumFaulty(n) faulty
   replicas, well-formed proposals, and fetching and signing that work: once b1 is
   certified, and its certificates lead over b2 to b3 through three consecutive views,
   every block ever certified in the view of b3 or later extends b3.
   */
  lemma ThreeChainsAreFinal(cs: seq<Cluster>, run: seq<Action>, b1: Block, b2: Block, b3: Block, w: Block)
    requires IsRun(cs, run) && RunFine(cs, run)
    requires ThreeChain(cs[|run|].log, cs[|run|].config, b1, b2, b3)
    requires Certified(cs[|run|].log, cs[|run|].config, w) && b3.view <= w.view
    ensures L.Extends(w, b3)
  {
    EndIsSane(cs, run);
    Final(cs[|run|], b1, b2, b3, w);
  }

  /** b1 is certified, and certificates and parents alike lead from it over b2 to b3. */
  ghost predicate LinkedChain(log: set<Sig>, config: set<ID>, b1: Block, b2: Block, b3: Block) {
    && Certified(log, config, b1) && b1.cert.hash == HashOf(b2) && b2.cert.hash == HashOf(b3)
    && b1.parent == HashOf(b2) && b2.parent == HashOf(b3)
  }

  /** What CommitRule picks for a block with a good certificate heads a linked chain; nothing is asked of the views. */
  lemma PickIsLinked(log: set<Sig>, config: set<ID>, r: Replica, env: Env, b: Block)
    requires StoreOk(r.blocks) && r.chained && CertOk(log, config, b.cert) && CommitRule(r, env, b).1.Some?
    ensures var b1 := b.cert.hash.block;
      b1.cert.hash.HashOf? && LinkedChain(log, config, b1, b1.cert.hash.block, CommitRule(r, env, b).1.value)
  {
    CertRefKeepsStore(r, env, b.cert);
    var (r1, b1) := CertRef(r, env, b.cert);
    CertRefKeepsStore(r1, env, b1.value.cert);
    var (r2, b2) := CertRef(r1, env, b1.value.cert);
    CertRefKeepsStore(r2, env, b2.value.cert);
    CertRefKeepsStore(r2.(lock := b2.value), env, b2.value.cert);
  }

  /**
   Agreement. Along any such run in which the commits that executed something were of
   three consecutive views, each replica's executed log is the path from genesis to its
   last executed block, and of two replicas' logs one is always a prefix of the other.
   */
  lemma ChainedLogsAgree(cs: seq<Cluster>, run: seq<Action>, i: nat, id1: ID, j: nat, id2: ID)
    requires IsRun(cs, run) && RunFine(cs, run) && L.CommitsOk(cs[|run|], FinalBlocks(cs[|run|]))
    requires i < |cs| && j < |cs| && id1 in cs[0].replicas && id2 in cs[0].replicas
    ensures id1 in cs[i].replicas && id2 in cs[j].replicas
    ensures var r1, r2 := cs[i].replicas[id1], cs[j].replicas[id2];
      L.LogOk(r1) && L.LogOk(r2) && (r1.executed <= r2.executed || r2.executed <= r1.executed)
  {
    EndIsSane(cs, run);
    FinalsAreOneBranch(cs[|run|]);
    L.ExecutedLogsAgree(FinalBlocks(cs[|run|]), cs, run, i, id1, j, id2);
  }
}
