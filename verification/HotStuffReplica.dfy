/**
 HotStuff blocks, certificates and the replica core as functions on values:
 voting and committing (consensus/consensus.go), certificate checks
 (crypto/crypto.go) and the view synchronizer (synchronizer/synchronizer.go).
 The rules are those of consensus/chainedhotstuff/chainedhotstuff.go, or any
 others, which then answer through Env like the leader schedule, the network
 and the signature scheme.
 */
module HotStuffBlocks {
  type ID = nat
  type View = nat

  datatype Option<+T> = None | Some(value: T)

  /** SHA-256 without collisions: a hash is of one block, or of nothing known. */
  datatype Hash = Junk(n: nat) | HashOf(block: Block)

  /** A combined signature: who signed, and what each of them put its key to. */
  datatype Signature = Signature(signed: map<ID, Message>) {
    function Participants(): set<ID> { signed.Keys }
  }

  datatype QuorumCert = QuorumCert(sig: Option<Signature>, view: View, hash: Hash)

  datatype Block = Block(parent: Hash, cert: QuorumCert, cmd: nat, view: View, proposer: ID)

  datatype TimeoutCert = TimeoutCert(sig: Option<Signature>, view: View)

  datatype AggregateQC = AggregateQC(qcs: map<ID, QuorumCert>, sig: Option<Signature>, view: View)

  datatype SyncInfo = SyncInfo(qc: Option<QuorumCert>, tc: Option<TimeoutCert>, agg: Option<AggregateQC>)

  datatype TimeoutMsg = TimeoutMsg(id: ID, view: View, viewSig: Signature, msgSig: Option<Signature>, info: SyncInfo)

  datatype Proposal = Proposal(id: ID, block: Block, agg: Option<AggregateQC>)

  /** What a replica can put its key to. */
  datatype Message = BlockMsg(block: Block) | ViewMsg(view: View) | TimeoutBytes(id: ID, view: View, qc: QuorumCert)

  /** A certificate of nothing, and a first block: view 0, without a parent or a certificate. */
  type ZeroQC = qc: QuorumCert | qc.sig.None? && qc.view == 0 && qc.hash.Junk?
    witness QuorumCert(None, 0, Junk(0))
  type FirstBlock = b: Block | b.view == 0 && b.parent.Junk? && b.cert.hash.Junk?
    witness Block(Junk(0), QuorumCert(None, 0, Junk(0)), 0, 0, 0)

  const ZERO_QC: ZeroQC
  const GENESIS: FirstBlock

  /** helper.go; Go's division truncates towards zero. */
  function NumFaulty(n: nat): nat {
    if n == 0 then 0 else (n - 1) / 3
  }

  function QuorumSize(n: nat): nat {
    n - NumFaulty(n)
  }

  lemma Cardinality(a: set<ID>, b: set<ID>)
    ensures |a + b| + |a * b| == |a| + |b|
  {
    assert a + b == a + (b - a) && a !! (b - a);
    assert b == (b - a) + a * b && (b - a) !! (a * b);
  }

  /** Two quorums of the same configuration share a replica that is not faulty. */
  lemma QuorumsShareHonest(config: set<ID>, a: set<ID>, b: set<ID>, faulty: set<ID>) returns (id: ID)
    requires a <= config && b <= config && config != {}
    requires |a| >= QuorumSize(|config|) && |b| >= QuorumSize(|config|) && |faulty| <= NumFaulty(|config|)
    ensures id in a && id in b && id !in faulty
  {
    Cardinality(a, b);
    Subset(a + b, config);
    if a * b <= faulty {
      Subset(a * b, faulty);
      assert false;
    }
    id :| id in a * b && id !in faulty;
  }

  lemma Subset(a: set<ID>, b: set<ID>)
    requires a <= b
    ensures |a| <= |b|
  {
    assert b == a + (b - a);
  }

  /** Quorums of a configuration of n can be as small as 2f+1 and never smaller. */
  lemma QuorumBounds(n: nat)
    requires n >= 1
    ensures 3 * NumFaulty(n) + 1 <= n <= 3 * NumFaulty(n) + 3
    ensures QuorumSize(n) >= 2 * NumFaulty(n) + 1 && 2 * QuorumSize(n) > n + NumFaulty(n)
  {
  }
}

module HotStuffReplicas {
  import opened HotStuffBlocks

  /** What the replica did, oldest first. */
  datatype Act = Signed(msg: Message) | SentTimeout(view: View) | Committed(block: Block)

  /** The certificate that let the replica enter its view. */
  datatype Entry =
    | AtStart
    | ByTC(tc: TimeoutCert)
    | ByQC(qc: QuorumCert)
    | ByAggQC(agg: AggregateQC, judged: bool)     // whether the scheme itself accepts the aggregate's batch

  datatype Env = Env(
    fetch: Hash -> Option<Block>,                    // Configuration.Fetch; checked against the hash
    verify: (Signature, Message) -> bool,            // CryptoBase.Verify
    verifyBatch: (Signature, map<ID, Message>) -> bool, // BatchVerify of the scheme under the cache
    keeps: Signature -> bool,                        // whether the cache still has the signature's batch key
    order: AggregateQC -> seq<ID>,                   // the order in which its map of QCs is walked
    leader: View -> ID,
    voteRule: Proposal -> bool,                      // Rules other than the chained ones
    commitRule: Block -> Option<Block>,
    accept: nat -> bool,
    signs: Message -> bool,
    cmd: nat,                                        // CommandQueue.Get
    combineViews: map<ID, TimeoutMsg> -> Option<Signature>, // Combine of the timeouts' view signatures
    combineMsgs: map<ID, TimeoutMsg> -> Option<Signature>)  // Combine of their message signatures

  datatype Replica = Replica(
    id: ID, n: nat, useAgg: bool, chained: bool,
    lastVote: View, exec: Block, executed: seq<Block>,
    lock: Block,                                  // bLock of the chained rules
    view: View, entry: Entry, highQC: QuorumCert, highTC: TimeoutCert,
    lastTimeout: Option<View>, timeouts: map<View, map<ID, TimeoutMsg>>,
    blocks: map<Hash, Block>,
    batched: set<Signature>,                      // signatures whose batch key went into the cache
    history: seq<Act>,
    halted: bool)                                 // a nil signature was dereferenced

  function InitialReplica(id: ID, n: nat, useAgg: bool, chained: bool): Replica {
    Replica(id, n, useAgg, chained, 0, GENESIS, [], GENESIS, 1, AtStart, QuorumCert(None, 0, HashOf(GENESIS)),
      TimeoutCert(None, 0), None, map[], map[HashOf(GENESIS) := GENESIS], {}, [], false)
  }

  /** blockChain.Get: the local copy, or a fetched block that is then stored. */
  function Get(r: Replica, env: Env, h: Hash): (res: (Replica, Option<Block>))
    ensures res.0 == r.(blocks := res.0.blocks)
  {
    if h in r.blocks then (r, Some(r.blocks[h]))
    else match env.fetch(h)
      case Some(b) => if HashOf(b) == h then (r.(blocks := r.blocks[h := b]), Some(b)) else (r, None)
      case None => (r, None)
  }

  function VerifyQC(r: Replica, env: Env, qc: QuorumCert): (res: (Replica, bool))
    ensures res.0 == r.(blocks := res.0.blocks, halted := res.0.halted)
  {
    if qc.hash == HashOf(GENESIS) then (r, true)
    else if qc.sig.None? then (r.(halted := true), false)
    else if |qc.sig.value.Participants()| < QuorumSize(r.n) then (r, false)
    else
      var (r1, b) := Get(r, env, qc.hash);
      (r1, b.Some? && env.verify(qc.sig.value, BlockMsg(b.value)))
  }

  function VerifyTC(r: Replica, env: Env, tc: TimeoutCert): (res: (Replica, bool))
    ensures res.0 == r.(halted := res.0.halted)
  {
    if tc.view == 0 then (r, true)
    else if tc.sig.None? then (r.(halted := true), false)
    else (r, |tc.sig.value.Participants()| >= QuorumSize(r.n) && env.verify(tc.sig.value, ViewMsg(tc.view)))
  }

  /** The QC with the largest view of those visited, the first one if several. */
  function Highest(qcs: map<ID, QuorumCert>, ids: seq<ID>): QuorumCert {
    if ids == [] then ZERO_QC
    else
      var high, id := Highest(qcs, ids[..|ids| - 1]), ids[|ids| - 1];
      if id in qcs && (high.view < qcs[id].view || high == ZERO_QC) then qcs[id] else high
  }

  /** The timeout messages, as signed, that the aggregate claims its participants sent. */
  function Messages(a: AggregateQC, ids: seq<ID>): map<ID, Message> {
    map id | id in ids && id in a.qcs :: TimeoutBytes(id, a.view, a.qcs[id])
  }

  /** BatchVerify of the cache: its key leaves the messages out, so a signature it still has passes with any batch. */
  function VerifyBatch(r: Replica, env: Env, sig: Signature, batch: map<ID, Message>): (res: (Replica, bool))
    ensures res.0 == r.(batched := res.0.batched)
  {
    if sig in r.batched && env.keeps(sig) then (r, true)
    else if env.verifyBatch(sig, batch) then (r.(batched := r.batched + {sig}), true)
    else (r, false)
  }

  function VerifyAgg(r: Replica, env: Env, a: AggregateQC): (res: (Replica, Option<QuorumCert>))
    ensures res.0 == r.(blocks := res.0.blocks, batched := res.0.batched, halted := res.0.halted)
  {
    if a.sig.None? then (r.(halted := true), None)
    else if |a.sig.value.Participants()| < QuorumSize(r.n) then (r, None)
    else
      var (r1, good) := VerifyBatch(r, env, a.sig.value, Messages(a, env.order(a)));
      if !good then (r1, None) else
        var high := Highest(a.qcs, env.order(a));
        var (r2, ok) := VerifyQC(r1, env, high);
        (r2, if ok then Some(high) else None)
  }

  /** Whether the scheme, without the cache, accepts the aggregate's batch. */
  predicate Judged(env: Env, a: AggregateQC) {
    a.sig.Some? && env.verifyBatch(a.sig.value, Messages(a, env.order(a)))
  }

  function UpdateHighTC(r: Replica, tc: TimeoutCert): Replica {
    if tc.view > r.highTC.view then r.(highTC := tc) else r
  }

  /** Compares the certified block's view with the old certificate's own view field. */
  function UpdateHighQC(r: Replica, env: Env, qc: QuorumCert): (r': Replica)
    ensures r' == r.(blocks := r'.blocks, highQC := r'.highQC)
  {
    var (r1, b) := Get(r, env, qc.hash);
    if b.Some? && b.value.view > r1.highQC.view then r1.(highQC := qc) else r1
  }

  /** commitInner: execute the missing ancestors first; nothing runs if one cannot be found.
      The store files every block under its own hash, so the hash test always passes. */
  function CommitInner(r: Replica, env: Env, b: Block): (res: (Replica, bool))
    ensures res.0 == r.(blocks := res.0.blocks, exec := res.0.exec, executed := res.0.executed)
    decreases b
  {
    if r.exec.view >= b.view then (r, true)
    else match Get(r, env, b.parent)
      case (r1, Some(p)) =>
        if HashOf(p) != b.parent then (r1, false) else
          var (r2, ok) := CommitInner(r1, env, p);
          if ok then (r2.(exec := b, executed := r2.executed + [b]), true) else (r2, false)
      case (r1, None) => (r1, false)
  }

  /** commit; the history notes the target when there was something to execute and all of it was found. */
  function Commit(r: Replica, env: Env, b: Block): (r': Replica)
    ensures r' == r.(blocks := r'.blocks, exec := r'.exec, executed := r'.executed, history := r'.history)
  {
    var (r1, ok) := CommitInner(r, env, b);
    if ok && r.exec.view < b.view then r1.(history := r1.history + [Committed(b)]) else r1
  }

  /** The certificate's own view field is at or past the replica's view. */
  function Ahead(r: Replica, qc: QuorumCert): nat {
    if qc.view >= r.view then 1 else 0
  }

  function InfoView(si: SyncInfo): View {
    var a := if si.tc.Some? then si.tc.value.view else 0;
    var b := if si.agg.Some? && si.agg.value.view > a then si.agg.value.view else a;
    if si.qc.Some? && si.qc.value.view > b then si.qc.value.view else b
  }

  function JustQC(qc: QuorumCert): SyncInfo {
    SyncInfo(Some(qc), None, None)
  }

  function CertOf(si: SyncInfo): QuorumCert {
    if si.qc.Some? then si.qc.value else ZERO_QC
  }

  /** consensusBase.Propose: the block carries the sync info's QC and the current view. */
  function NewBlock(r: Replica, env: Env, si: SyncInfo): Block {
    Block(CertOf(si).hash, CertOf(si), env.cmd, r.view, r.id)
  }

  function Propose(r: Replica, env: Env, si: SyncInfo): (r': Replica)
    decreases Ahead(r, CertOf(si)), 4
  {
    var (r1, _) := if si.qc.Some? then Get(r, env, si.qc.value.hash) else (r, None);
    var b := NewBlock(r1, env, si);
    var p := Proposal(r.id, b, if r.useAgg then si.agg else None);
    OnPropose(r1.(blocks := r1.blocks[HashOf(b) := b]), env, p)
  }

  /** Whether the proposal's aggregate, if it needs one, vouches for the block's certificate. */
  function ExamineAgg(r: Replica, env: Env, p: Proposal): (res: (Replica, bool))
    ensures res.0 == r.(blocks := res.0.blocks, batched := res.0.batched, halted := res.0.halted)
  {
    if r.useAgg && p.agg.Some? then
      var (r1, high) := VerifyAgg(r, env, p.agg.value);
      (r1, high == Some(p.block.cert))
    else (r, true)
  }

  /** blockChain.Extends: walk back from b to the target's view. */
  function ExtendsWalk(r: Replica, env: Env, b: Block, target: Block): (res: (Replica, bool))
    ensures res.0 == r.(blocks := res.0.blocks)
    decreases b
  {
    if b.view <= target.view then (r, b == target)
    else match Get(r, env, b.parent)
      case (r1, Some(p)) => if HashOf(p) == b.parent then ExtendsWalk(r1, env, p, target) else (r1, false)
      case (r1, None) => (r1, false)
  }

  /** Rules.VoteRule; the chained one asks for a certificate above the lock, or a block that extends it. */
  function VoteRule(r: Replica, env: Env, p: Proposal): (res: (Replica, bool))
    ensures res.0 == r.(blocks := res.0.blocks)
  {
    if !r.chained then (r, env.voteRule(p))
    else
      var (r1, b) := Get(r, env, p.block.cert.hash);
      if b.Some? && b.value.view > r1.lock.view then (r1, true) else ExtendsWalk(r1, env, p.block, r1.lock)
  }

  /** chainedhotstuff's qcRef; the empty hash is of no block. */
  function CertRef(r: Replica, env: Env, qc: QuorumCert): (res: (Replica, Option<Block>))
    ensures res.0 == r.(blocks := res.0.blocks)
  {
    if qc.hash.Junk? then (r, None) else Get(r, env, qc.hash)
  }

  /** Lock the block two certificates back, and commit the one three back if parents link them. */
  function LockAndPick(r: Replica, env: Env, b1: Block, b2: Block): (res: (Replica, Option<Block>))
    ensures res.0 == r.(blocks := res.0.blocks, lock := res.0.lock)
  {
    var r1 := if b2.view > r.lock.view then r.(lock := b2) else r;
    match CertRef(r1, env, b2.cert)
    case (r2, Some(b3)) => (r2, if b1.parent == HashOf(b2) && b2.parent == HashOf(b3) then Some(b3) else None)
    case (r2, None) => (r2, None)
  }

  function CommitRule(r: Replica, env: Env, b: Block): (res: (Replica, Option<Block>))
    ensures res.0 == r.(blocks := res.0.blocks, lock := res.0.lock)
  {
    if !r.chained then (r, env.commitRule(b))
    else match CertRef(r, env, b.cert)
      case (r1, None) => (r1, None)
      case (r1, Some(b1)) =>
        match CertRef(r1, env, b1.cert)
        case (r2, None) => (r2, None)
        case (r2, Some(b2)) => LockAndPick(r2, env, b1, b2)
  }

  /** The checks OnPropose makes before it touches the vote: the state after them, and whether all passed. */
  function Examine(r: Replica, env: Env, p: Proposal): (res: (Replica, bool))
    ensures res.0 == r.(blocks := res.0.blocks, batched := res.0.batched, halted := res.0.halted)
  {
    var (r1, agg) := ExamineAgg(r, env, p);
    if !agg then (r1, false) else
      var (r2, ok) := VerifyQC(r1, env, p.block.cert);
      if !ok || p.id != env.leader(p.block.view) then (r2, false) else
        var (r3, safe) := VoteRule(r2, env, p);
        if !safe then (r3, false) else
          (Get(r3, env, p.block.cert.hash).0, env.accept(p.block.cmd))
  }

  function StoreAndCommit(r: Replica, env: Env, b: Block): (r': Replica)
    ensures r' == r.(blocks := r'.blocks, lock := r'.lock, exec := r'.exec, executed := r'.executed, history := r'.history)
  {
    match CommitRule(r.(blocks := r.blocks[HashOf(b) := b]), env, b)
    case (r1, Some(c)) => Commit(r1, env, c)
    case (r1, None) => r1
  }

  /** Sign the block unless its view is not above the last vote. */
  function CastVote(r: Replica, env: Env, b: Block): Replica {
    if r.halted || b.view <= r.lastVote || !env.signs(BlockMsg(b)) then r
    else r.(history := r.history + [Signed(BlockMsg(b))], lastVote := b.view)
  }

  function OnPropose(r: Replica, env: Env, p: Proposal): Replica
    decreases Ahead(r, p.block.cert), 3
  {
    if r.halted then r else
      var (r1, ok) := Examine(r, env, p);
      if ok then Take(r1, env, p.block) else r1
  }

  /** The block is safe and was accepted: store it, commit, advance the view on its certificate, and vote. */
  function Take(r: Replica, env: Env, b: Block): Replica
    decreases Ahead(r, b.cert), 2
  {
    CastVote(AdvanceView(StoreAndCommit(r, env, b), env, JustQC(b.cert)), env, b)
  }

  function StopVoting(r: Replica, view: View): Replica {
    if r.lastVote < view then r.(lastVote := view) else r
  }

  /** The certificates of a SyncInfo after they were checked. */
  datatype Checked = Rejected(r: Replica) | Accepted(r: Replica, info: SyncInfo, view: View, entry: Entry)

  function CheckTC(r: Replica, env: Env, si: SyncInfo): Checked {
    if si.tc.None? then Accepted(r, si, 0, AtStart)
    else
      var (r1, ok) := VerifyTC(r, env, si.tc.value);
      if ok then Accepted(UpdateHighTC(r1, si.tc.value), si, si.tc.value.view, ByTC(si.tc.value)) else Rejected(r1)
  }

  function TakeQC(r: Replica, env: Env, si: SyncInfo, qc: QuorumCert, v: View, entry: Entry): Checked {
    var r1 := UpdateHighQC(r, env, qc);
    if qc.view >= v then Accepted(r1, si, qc.view, ByQC(qc)) else Accepted(r1, si, v, entry)
  }

  function CheckQC(r: Replica, env: Env, si: SyncInfo, v: View, entry: Entry): Checked {
    if si.agg.Some? && r.useAgg then
      match VerifyAgg(r, env, si.agg.value)
      case (r1, None) => Rejected(r1)
      case (r1, Some(high)) =>
        var a := si.agg.value;
        if a.view >= v then TakeQC(r1, env, si.(qc := Some(high)), high, a.view, ByAggQC(a, Judged(env, a)))
        else TakeQC(r1, env, si.(qc := Some(high)), high, v, entry)
    else if si.qc.Some? then
      var (r1, ok) := VerifyQC(r, env, si.qc.value);
      if ok then TakeQC(r1, env, si, si.qc.value, v, entry) else Rejected(r1)
    else Accepted(r, si, v, entry)
  }

  function Check(r: Replica, env: Env, si: SyncInfo): Checked {
    match CheckTC(r, env, si)
    case Rejected(r1) => Rejected(r1)
    case Accepted(r1, _, v, entry) => CheckQC(r1, env, si, v, entry)
  }

  ghost predicate Framed(r: Replica, c: Checked) {
    c.r == r.(blocks := c.r.blocks, batched := c.r.batched, highQC := c.r.highQC, highTC := c.r.highTC, halted := c.r.halted)
  }

  lemma TakeQCFrame(r: Replica, env: Env, si: SyncInfo, qc: QuorumCert, v: View, entry: Entry)
    ensures var c := TakeQC(r, env, si, qc, v, entry);
      && c.Accepted? && c.r == r.(blocks := c.r.blocks, highQC := c.r.highQC)
      && c.info == si && c.view == if qc.view > v then qc.view else v
  {
  }

  lemma CheckQCFrame(r: Replica, env: Env, si: SyncInfo, v: View, entry: Entry)
    ensures var c := CheckQC(r, env, si, v, entry);
      && Framed(r, c) && c.r.highTC == r.highTC
      && (c.Accepted? ==> CertOf(c.info).view <= c.view)
      && (c.Accepted? && (si.agg.None? || !r.useAgg) ==>
            c.info == si && c.view == if si.qc.Some? && si.qc.value.view > v then si.qc.value.view else v)
  {
    if si.agg.Some? && r.useAgg {
      var a := si.agg.value;
      var (r1, high) := VerifyAgg(r, env, a);
      if high.Some? {
        TakeQCFrame(r1, env, si.(qc := high), high.value, a.view, ByAggQC(a, Judged(env, a)));
        TakeQCFrame(r1, env, si.(qc := high), high.value, v, entry);
      }
    } else if si.qc.Some? {
      TakeQCFrame(VerifyQC(r, env, si.qc.value).0, env, si, si.qc.value, v, entry);
    }
  }

  /** A check leaves voting, views and execution alone, and finds a view no lower than the QC's. */
  lemma CheckFrame(r: Replica, env: Env, si: SyncInfo)
    ensures var c := Check(r, env, si);
      && Framed(r, c)
      && (c.Accepted? ==> CertOf(c.info).view <= c.view)
      && (c.Accepted? && (si.agg.None? || !r.useAgg) ==> c.info == si && c.view == InfoView(si.(agg := None)))
  {
    var t := CheckTC(r, env, si);
    if t.Accepted? {
      CheckQCFrame(t.r, env, si, t.view, t.entry);
    }
  }

  function EnterView(r: Replica, v: View, entry: Entry): Replica {
    r.(view := v + 1, entry := entry, lastTimeout := None)
  }

  /** Whether the sync info can move the replica, which bounds how deep a proposal can nest. */
  function Moves(r: Replica, env: Env, si: SyncInfo): nat {
    var c := Check(r, env, si);
    if c.Accepted? && c.view >= c.r.view then 1 else 0
  }

  function AdvanceView(r: Replica, env: Env, si: SyncInfo): Replica
    decreases Moves(r, env, si), 1
  {
    if r.halted then r else
      CheckFrame(r, env, si);
      match Check(r, env, si)
      case Rejected(r1) => r1
      case Accepted(r1, info, v, entry) => Enter(r1, env, info, v, entry)
  }

  /** Enter the view after v unless it is past, and propose in it as its leader. */
  function Enter(r: Replica, env: Env, info: SyncInfo, v: View, entry: Entry): Replica
    requires CertOf(info).view <= v
    decreases if v >= r.view then 1 else 0, 0
  {
    if r.halted || v < r.view then r else
      var r1 := EnterView(r, v, entry);
      if env.leader(v + 1) == r1.id then Propose(r1, env, info) else r1
  }

  // ----- events of the synchronizer -----

  function Cleanup(r: Replica, view: View): Replica {
    r.(timeouts := map v | v in r.timeouts && v >= view :: r.timeouts[v])
  }

  function AddTimeout(r: Replica, t: TimeoutMsg): Replica {
    var at := if t.view in r.timeouts then r.timeouts[t.view] else map[];
    r.(timeouts := r.timeouts[t.view := if t.id in at then at else at[t.id := t]])
  }

  /** CreateTimeoutCert of the collected timeouts of a view. */
  function CreateTC(env: Env, timeouts: map<ID, TimeoutMsg>, v: View): Option<TimeoutCert> {
    if v == 0 then Some(TimeoutCert(None, 0))
    else match env.combineViews(timeouts)
      case Some(sig) => Some(TimeoutCert(Some(sig), v))
      case None => None
  }

  /** CreateAggregateQC: the QCs the timeouts carried, under one signature. */
  function CreateAgg(env: Env, timeouts: map<ID, TimeoutMsg>, v: View): Option<AggregateQC> {
    match env.combineMsgs(timeouts)
    case Some(sig) =>
      Some(AggregateQC(map id | id in timeouts && timeouts[id].info.qc.Some? :: timeouts[id].info.qc.value, Some(sig), v))
    case None => None
  }

  /** The sync info made of a quorum of timeouts; the aggregate, if any, is for the view the replica was in. */
  function TimeoutInfo(r: Replica, env: Env, timeouts: map<ID, TimeoutMsg>, tc: TimeoutCert, current: View): SyncInfo {
    SyncInfo(Some(r.highQC), Some(tc), if r.useAgg then CreateAgg(env, timeouts, current) else None)
  }

  function CollectTimeout(r: Replica, env: Env, t: TimeoutMsg, current: View): Replica {
    if r.halted then r else
      var r1 := AddTimeout(r, t);
      var at := r1.timeouts[t.view];
      if |at| < QuorumSize(r1.n) then r1
      else match CreateTC(env, at, t.view)
        case None => r1
        case Some(tc) => AdvanceView(r1.(timeouts := r1.timeouts - {t.view}), env, TimeoutInfo(r1, env, at, tc, current))
  }

  function OnRemoteTimeout(r: Replica, env: Env, t: TimeoutMsg): Replica {
    if r.halted then r
    else if !env.verify(t.viewSig, ViewMsg(t.view)) then Cleanup(r, r.view)
    else Cleanup(CollectTimeout(AdvanceView(r, env, t.info), env, t, r.view), r.view)
  }

  function OwnTimeout(r: Replica): TimeoutMsg {
    TimeoutMsg(r.id, r.view, Signature(map[r.id := ViewMsg(r.view)]),
      if r.useAgg then Some(Signature(map[r.id := TimeoutBytes(r.id, r.view, r.highQC)])) else None,
      SyncInfo(Some(r.highQC), Some(r.highTC), None))
  }

  function NoteTimeout(r: Replica): Replica {
    var r1 := StopVoting(r.(lastTimeout := Some(r.view)), r.view);
    r1.(history := r1.history + [SentTimeout(r.view)])
  }

  /** Stop voting in the view, and treat the own timeout like any other. */
  function SendTimeout(r: Replica, env: Env): Replica {
    OnRemoteTimeout(NoteTimeout(r), env, OwnTimeout(r))
  }

  function OnLocalTimeout(r: Replica, env: Env): Replica {
    if r.halted then r
    else if r.lastTimeout == Some(r.view) then r.(history := r.history + [SentTimeout(r.view)])
    else if !env.signs(ViewMsg(r.view)) then r
    else
      var r1 := r.(history := r.history + [Signed(ViewMsg(r.view))]);
      var m := TimeoutBytes(r.id, r.view, r.highQC);
      if !r.useAgg then SendTimeout(r1, env)
      else if !env.signs(m) then r1
      else SendTimeout(r1.(history := r1.history + [Signed(m)]), env)
  }

  datatype Event =
    | ProposalArrived(p: Proposal)
    | NewViewArrived(info: SyncInfo)
    | TimeoutArrived(t: TimeoutMsg)
    | LocalTimeout(view: View)
    | StartProposing

  function Handle(r: Replica, env: Env, e: Event): Replica {
    match e
    case ProposalArrived(p) => OnPropose(r, env, p)
    case NewViewArrived(info) => AdvanceView(r, env, info)
    case TimeoutArrived(t) => OnRemoteTimeout(r, env, t)
    case LocalTimeout(view) => if r.view == view then OnLocalTimeout(r, env) else r
    case StartProposing =>
      if r.view == 1 && env.leader(1) == r.id then Propose(r, env, SyncInfo(Some(r.highQC), Some(r.highTC), None)) else r
  }
}
