/**
 What crash recovery achieves: from any disk a node can be left with, the
 handshake ends with application and state at the store height, and every height
 reaches the real application once, in order, whatever crashed before.
 */
module CrashRecovery {
  import opened Recovery

  /** The application hash after the first n blocks of the chain. */
  ghost function HashAfter(chain: seq<Block>, n: nat): AppHash
    requires n <= |chain|
  {
    if n == 0 then [] else After(HashAfter(chain, n - 1), chain[n - 1].txs)
  }

  ghost predicate BlockOk(initial: nat, chain: seq<Block>, i: nat)
    requires i < |chain|
  {
    chain[i].height == initial + i && chain[i].appHash == HashAfter(chain, i)
  }

  ghost predicate ChainOk(initial: nat, chain: seq<Block>) {
    forall i {:trigger BlockOk(initial, chain, i)} :: 0 <= i < |chain| ==> BlockOk(initial, chain, i)
  }

  /** Number of blocks up to height h. */
  ghost function Count(initial: nat, h: nat): nat {
    if h < initial then 0 else h - initial + 1
  }

  /** h is 0 or a height of the chain, and hash is the application's after it. */
  ghost predicate At(initial: nat, chain: seq<Block>, h: nat, hash: AppHash) {
    && (h == 0 || h >= initial) && Count(initial, h) <= |chain|
    && hash == HashAfter(chain, Count(initial, h))
  }

  /** The heights initial..h in ascending order. */
  ghost function Heights(initial: nat, h: nat): seq<nat> {
    seq(Count(initial, h), i requires 0 <= i => initial + i)
  }

  /** The store holds the chain's blocks from base up. */
  ghost predicate StoreOk(chain: seq<Block>, initial: nat, base: nat, height: nat, blocks: map<nat, Block>) {
    && height == (if chain == [] then 0 else initial + |chain| - 1)
    && (chain == [] <==> base == 0) && (chain != [] ==> initial <= base <= height)
    && (forall h :: base <= h <= height && chain != [] ==> h in blocks && blocks[h] == chain[h - initial])
  }

  /** Markers are written only for stored blocks. */
  ghost predicate EndedOk(ended: set<nat>, height: nat) {
    forall h :: h in ended ==> h <= height
  }

  ghost predicate StateOk(chain: seq<Block>, initial: nat, height: nat, stateHeight: nat, stateHash: AppHash) {
    At(initial, chain, stateHeight, stateHash) && height <= Next(initial, stateHeight)
  }

  ghost predicate AppOk(chain: seq<Block>, initial: nat, appHeight: nat, appHash: AppHash, applied: seq<nat>) {
    At(initial, chain, appHeight, appHash) && applied == Heights(initial, appHeight)
  }

  /** Every disk a crash can leave: the state at most one block behind the store, the application anywhere up to the store. */
  ghost predicate DiskOk(chain: seq<Block>, d: Disk) {
    && d.initial >= 1 && ChainOk(d.initial, chain)
    && StoreOk(chain, d.initial, d.base, d.height, d.blocks) && EndedOk(d.ended, d.height)
    && StateOk(chain, d.initial, d.height, d.stateHeight, d.stateHash)
    && AppOk(chain, d.initial, d.appHeight, d.appHash, d.applied)
    && (d.appHeight > d.stateHeight ==> d.lastResponses == d.height)
  }

  ghost predicate InSync(d: Disk) {
    d.appHeight == d.stateHeight == d.height
  }

  /** The application is so far behind that the blocks it needs were pruned. */
  ghost predicate Pruned(d: Disk) {
    Next(d.initial, d.appHeight) < d.base
  }

  /** The first block of a chain that does not start at height 1 is stored and not yet in the state. */
  ghost predicate FirstOfLateChain(d: Disk) {
    d.initial > 1 && d.stateHeight == 0 && d.height == d.initial
  }

  ghost predicate PrefixOk(chain: seq<Block>, d: Disk, ws: seq<Write>, k: nat)
    requires k <= |ws|
  {
    DiskOk(chain, ApplyAll(d, ws[..k]))
  }

  /** Every prefix of the writes leaves such a disk. */
  ghost predicate AllOk(chain: seq<Block>, d: Disk, ws: seq<Write>) {
    forall k {:trigger PrefixOk(chain, d, ws, k)} :: 0 <= k <= |ws| ==> PrefixOk(chain, d, ws, k)
  }

  lemma AllOkSnoc(chain: seq<Block>, d: Disk, ws: seq<Write>, w: Write)
    requires AllOk(chain, d, ws) && DiskOk(chain, Apply(ApplyAll(d, ws), w))
    ensures AllOk(chain, d, ws + [w])
  {
    forall k | 0 <= k <= |ws + [w]| ensures PrefixOk(chain, d, ws + [w], k) {
      if k <= |ws| {
        assert PrefixOk(chain, d, ws, k);
        assert (ws + [w])[..k] == ws[..k];
      } else {
        assert (ws + [w])[..k] == ws + [w];
        ApplySnoc(d, ws, w);
      }
    }
  }

  lemma AllOkNil(chain: seq<Block>, d: Disk)
    requires DiskOk(chain, d)
    ensures AllOk(chain, d, [])
  {
  }

  lemma AllOkEnd(chain: seq<Block>, d: Disk, ws: seq<Write>)
    requires AllOk(chain, d, ws)
    ensures DiskOk(chain, ApplyAll(d, ws))
  {
    assert PrefixOk(chain, d, ws, |ws|);
    assert ws[..|ws|] == ws;
  }

  /** Committing the next block on the application keeps the disk recoverable while the application is not past the state. */
  lemma CommitAppOk(chain: seq<Block>, d: Disk, b: Block)
    requires DiskOk(chain, d) && Count(d.initial, d.appHeight) < |chain| && b == chain[Count(d.initial, d.appHeight)]
    requires b.height <= d.stateHeight || d.lastResponses == d.height
    ensures DiskOk(chain, Apply(d, CommitApp(b)))
  {
    assert BlockOk(d.initial, chain, Count(d.initial, d.appHeight));
    assert Count(d.initial, b.height) == Count(d.initial, d.appHeight) + 1;
    assert Heights(d.initial, b.height) == Heights(d.initial, d.appHeight) + [b.height];
  }

  // ----- replaying the missing range -----

  ghost predicate RangeOk(chain: seq<Block>, d: Disk, first: nat, last: nat) {
    var p := ExecRange(d, first, last);
    && AllOk(chain, d, p.writes) && p.disk == ApplyAll(d, p.writes)
    && OnlyAppMoves(d, p.disk)
    && (last < first ==> p == Plan([], Synced(None), d))
    && (first <= last ==> p.outcome == Synced(Some(p.disk.appHash)) && p.disk.appHeight == last)
  }

  /** The block the application needs next is stored and carries the application's hash. */
  lemma NextToReplay(chain: seq<Block>, d: Disk, h: nat)
    requires DiskOk(chain, d) && d.base <= h <= d.stateHeight && h == Next(d.initial, d.appHeight)
    ensures h in d.blocks && d.blocks[h].appHash == d.appHash && d.blocks[h].height == h
    ensures DiskOk(chain, Apply(d, CommitApp(d.blocks[h])))
  {
    assert BlockOk(d.initial, chain, Count(d.initial, d.appHeight));
    CommitAppOk(chain, d, d.blocks[h]);
  }

  lemma {:induction false} RangeReplays(chain: seq<Block>, d: Disk, last: nat)
    requires DiskOk(chain, d) && !Pruned(d) && last <= d.stateHeight
    ensures RangeOk(chain, d, Next(d.initial, d.appHeight), last)
    decreases last
  {
    var first := Next(d.initial, d.appHeight);
    AllOkNil(chain, d);
    if first <= last {
      RangeReplays(chain, d, last - 1);
      RangeExtends(chain, d, first, last);
    }
  }

  lemma RangeExtends(chain: seq<Block>, d: Disk, first: nat, last: nat)
    requires d.base <= first <= last <= d.stateHeight && first == Next(d.initial, d.appHeight) && last >= 1
    requires RangeOk(chain, d, first, last - 1)
    ensures RangeOk(chain, d, first, last)
  {
    var p := ExecRange(d, first, last - 1);
    AllOkEnd(chain, d, p.writes);
    NextToReplay(chain, p.disk, last);
    var w := CommitApp(d.blocks[last]);
    AllOkSnoc(chain, d, p.writes, w);
    ApplySnoc(d, p.writes, w);
  }

  // ----- replaying the last block -----

  /** Saving the state at the store height, which the application has reached, finishes the block. */
  lemma SaveStateOk(chain: seq<Block>, d: Disk)
    requires DiskOk(chain, d) && chain != [] && d.appHeight == d.height
    ensures var d' := Apply(d, SaveState(d.height, d.appHash)); DiskOk(chain, d') && InSync(d') && d'.applied == Heights(d.initial, d.height)
    ensures d.appHash == HashAfter(chain, |chain|)
  {
    assert Count(d.initial, d.height) == |chain|;
  }

  lemma SaveResponsesOk(chain: seq<Block>, d: Disk)
    requires DiskOk(chain, d)
    ensures DiskOk(chain, Apply(d, SaveResponses(d.height)))
  {
  }

  /** The block to replay is the chain's last, and it fits the state. */
  lemma LastBlock(chain: seq<Block>, d: Disk)
    requires DiskOk(chain, d) && d.height == Next(d.initial, d.stateHeight) && d.height > 0
    ensures chain != [] && d.height in d.blocks && d.blocks[d.height] == chain[|chain| - 1]
    ensures var b := d.blocks[d.height]; b.height == d.height && b.appHash == d.stateHash
    ensures Count(d.initial, d.stateHeight) == |chain| - 1
  {
    assert BlockOk(d.initial, chain, |chain| - 1);
  }

  ghost predicate Finished(chain: seq<Block>, d: Disk, ws: seq<Write>) {
    var d' := ApplyAll(d, ws);
    AllOk(chain, d, ws) && InSync(d') && d'.height == d.height && d'.applied == Heights(d.initial, d.height)
  }

  lemma FinishedSnoc(chain: seq<Block>, d: Disk, ws: seq<Write>)
    requires AllOk(chain, d, ws) && chain != []
    requires var e := ApplyAll(d, ws); e.initial == d.initial && e.height == d.height == e.appHeight
    ensures Finished(chain, d, ws + [SaveState(d.height, ApplyAll(d, ws).appHash)])
  {
    var e := ApplyAll(d, ws);
    AllOkEnd(chain, d, ws);
    SaveStateOk(chain, e);
    AllOkSnoc(chain, d, ws, SaveState(d.height, e.appHash));
    ApplySnoc(d, ws, SaveState(d.height, e.appHash));
  }

  ghost predicate LastReplayed(chain: seq<Block>, d: Disk, live: bool) {
    var p := ReplayBlock(d, d.height, live);
    && Finished(chain, d, p.writes) && p.disk == ApplyAll(d, p.writes)
    && p.outcome == Synced(Some(HashAfter(chain, |chain|)))
  }

  lemma ReplayMock(chain: seq<Block>, d: Disk)
    requires DiskOk(chain, d) && d.height == Next(d.initial, d.stateHeight) && d.height > 0 && d.appHeight == d.height
    ensures LastReplayed(chain, d, false)
  {
    LastBlock(chain, d);
    BlockWrites(d, d.height, false);
    var w := SaveResponses(d.height);
    AllOkNil(chain, d);
    SaveResponsesOk(chain, d);
    AllOkSnoc(chain, d, [], w);
    ApplySnoc(d, [], w);
    assert [] + [w] == [w] && [w] + [] == [w];
    SaveStateOk(chain, d);
    FinishedSnoc(chain, d, [w]);
  }

  lemma ReplayReal(chain: seq<Block>, d: Disk)
    requires DiskOk(chain, d) && d.height == Next(d.initial, d.stateHeight) && d.height > 0 && d.appHeight == d.stateHeight
    ensures LastReplayed(chain, d, true)
  {
    LastBlock(chain, d);
    BlockWrites(d, d.height, true);
    var b := d.blocks[d.height];
    var w1, w2 := SaveResponses(d.height), CommitApp(b);
    AllOkNil(chain, d);
    ResponsesThenCommit(chain, d, [], b);
    assert [] + [w1, w2] == [w1] + [w2];
    ApplyTwo(d, w1, w2);
    FinishedSnoc(chain, d, [w1] + [w2]);
    LastHash(chain, d, b);
  }

  lemma LastHash(chain: seq<Block>, d: Disk, b: Block)
    requires DiskOk(chain, d) && chain != [] && Count(d.initial, d.appHeight) == |chain| - 1 && b == chain[|chain| - 1]
    ensures After(d.appHash, b.txs) == HashAfter(chain, |chain|)
  {
  }

  lemma ApplyTwo(d: Disk, w1: Write, w2: Write)
    ensures ApplyAll(d, [w1] + [w2]) == Apply(Apply(d, w1), w2)
  {
    ApplySnoc(d, [], w1);
    assert [] + [w1] == [w1];
    ApplySnoc(d, [w1], w2);
  }

  /** Saving the responses and committing the last block, after writes that left all but that block applied. */
  lemma ResponsesThenCommit(chain: seq<Block>, d: Disk, ws: seq<Write>, b: Block)
    requires DiskOk(chain, d) && AllOk(chain, d, ws)
    requires var e := ApplyAll(d, ws); e.height == d.height && Count(e.initial, e.appHeight) == |chain| - 1 && b == chain[|chain| - 1]
    ensures AllOk(chain, d, ws + [SaveResponses(d.height), CommitApp(b)])
  {
    var w1, w2, e := SaveResponses(d.height), CommitApp(b), ApplyAll(d, ws);
    AllOkEnd(chain, d, ws);
    SaveResponsesOk(chain, e);
    AllOkSnoc(chain, d, ws, w1);
    ApplySnoc(d, ws, w1);
    CommitAppOk(chain, Apply(e, w1), b);
    AllOkSnoc(chain, d, ws + [w1], w2);
    assert ws + [w1] + [w2] == ws + [w1, w2];
  }

  lemma AllOkConcat(chain: seq<Block>, d: Disk, ws: seq<Write>, vs: seq<Write>)
    requires AllOk(chain, d, ws) && AllOk(chain, ApplyAll(d, ws), vs)
    ensures AllOk(chain, d, ws + vs)
  {
    forall k | 0 <= k <= |ws + vs| ensures PrefixOk(chain, d, ws + vs, k) {
      if k <= |ws| {
        assert PrefixOk(chain, d, ws, k);
        assert (ws + vs)[..k] == ws[..k];
      } else {
        assert PrefixOk(chain, ApplyAll(d, ws), vs, k - |ws|);
        assert (ws + vs)[..k] == ws + vs[..k - |ws|];
        ApplyConcat(d, ws, vs[..k - |ws|]);
      }
    }
  }

  /** What a handshake that ends well has achieved. */
  ghost predicate Recovered(chain: seq<Block>, d: Disk, p: Plan) {
    && p.outcome == Synced(Some(HashAfter(chain, |chain|)))
    && InSync(p.disk) && p.disk.height == d.height && p.disk.applied == Heights(d.initial, d.height)
  }

  lemma ReplayRangeOk(chain: seq<Block>, d: Disk, mutateState: bool)
    requires DiskOk(chain, d) && !Pruned(d) && chain != [] && d.appHeight < d.stateHeight
    requires d.height == if mutateState then d.stateHeight + 1 else d.stateHeight
    ensures var p := ReplayBlocks(d, mutateState); Recovered(chain, d, p) && AllOk(chain, d, p.writes)
  {
    var first := Next(d.initial, d.appHeight);
    RangeReplays(chain, d, d.stateHeight);
    var p := ExecRange(d, first, d.stateHeight);
    AllOkEnd(chain, d, p.writes);
    if mutateState {
      ReplayReal(chain, p.disk);
      AllOkConcat(chain, d, p.writes, ReplayBlock(p.disk, d.height, true).writes);
    } else {
      AtStoreHeight(chain, d, p.disk);
    }
  }

  /** An application that caught up with a state at the store height agrees with it. */
  lemma AtStoreHeight(chain: seq<Block>, d: Disk, e: Disk)
    requires DiskOk(chain, d) && DiskOk(chain, e) && OnlyAppMoves(d, e) && chain != []
    requires d.stateHeight == d.height == e.appHeight
    ensures e.appHash == d.stateHash == HashAfter(chain, |chain|) && e.applied == Heights(d.initial, d.height)
  {
    assert Count(d.initial, d.height) == |chain|;
  }

  /**
   Recovery. From every disk a crash can leave, that of a node which has stored nothing
   included, the handshake reports that the application's blocks were pruned exactly when
   they were, fails with StoreAhead exactly for the first block of a chain that starts
   above height 1, and otherwise ends with application and state at the store height, the
   real application having committed every height exactly once in ascending order. On an
   empty store it writes nothing. Crashing anywhere in between leaves such a disk again.
   */
  lemma RecoverySyncs(chain: seq<Block>, d: Disk)
    requires DiskOk(chain, d)
    ensures InitChain(d) == d && AllOk(chain, d, Replay(d).writes) && Replay(d).disk == ApplyAll(d, Replay(d).writes)
    ensures Replay(d).outcome == AppTooLow <==> Pruned(d)
    ensures Replay(d).outcome == StoreAhead <==> FirstOfLateChain(d)
    ensures Recovered(chain, d, Replay(d)) <==> !Pruned(d) && !FirstOfLateChain(d)
    ensures chain == [] ==> Replay(d) == Plan([], Synced(Some([])), d) && d.height == d.stateHeight == d.appHeight == 0
  {
    AllOkNil(chain, d);
    ReplayWrites(d);
    assert Heights(d.initial, 0) == [];
    assert Count(d.initial, d.height) == |chain|;
    if chain == [] || Pruned(d) || FirstOfLateChain(d) {
    } else if d.height == d.stateHeight {
      if d.appHeight < d.height {
        ReplayRangeOk(chain, d, false);
      }
    } else if d.appHeight < d.stateHeight {
      ReplayRangeOk(chain, d, true);
    } else if d.appHeight == d.stateHeight {
      ReplayReal(chain, d);
    } else {
      ReplayMock(chain, d);
    }
  }

  /** Every stored block is filed under its height. */
  ghost predicate Filed(d: Disk) {
    forall h :: h in d.blocks ==> d.blocks[h].height == h
  }

  lemma {:induction false} RangeReaches(d: Disk, first: nat, last: nat)
    requires Filed(d) && 1 <= first <= last && ExecRange(d, first, last).outcome.Synced?
    ensures var p := ExecRange(d, first, last); p.disk.appHeight == last && p.outcome == Synced(Some(p.disk.appHash))
    decreases last
  {
    if first < last {
      RangeReaches(d, first, last - 1);
    }
  }

  /** The last block is there and is the one the state comes before. */
  ghost predicate LastFits(d: Disk) {
    d.height in d.blocks && d.blocks[d.height].height == Next(d.initial, d.stateHeight) && d.blocks[d.height].appHash == d.stateHash
  }

  /**
   Whatever is on the disk: when a handshake over a store that holds blocks succeeds, the
   application and the state are at the store's height, with one hash, which is the answer;
   and if the state was a block behind, the last block is the one that follows it.
   */
  lemma SyncedMeansInSync(d: Disk)
    requires Filed(d) && d.initial >= 1 && d.height >= 1 && Replay(d).outcome.Synced?
    ensures var p := Replay(d); InSync(p.disk) && p.outcome == Synced(Some(p.disk.appHash)) && p.disk.stateHash == p.disk.appHash
    ensures Replay(d).disk.height == d.height && (d.height == d.stateHeight + 1 ==> LastFits(d))
  {
    var first, last := Next(d.initial, d.appHeight), if d.height == d.stateHeight then d.height else d.height - 1;
    RangeKeeps(d, first, last);
    if d.appHeight < d.stateHeight && first <= last && ExecRange(d, first, last).outcome.Synced? {
      RangeReaches(d, first, last);
    }
  }

  /** And it is refused up front exactly for these heights, the first that applies giving the reason. */
  lemma RefusedIff(d: Disk)
    requires d.height >= 1
    ensures var low, high, ahead, behind := d.base > Next(d.initial, d.appHeight), d.appHeight > d.height, d.stateHeight > d.height, d.height - d.stateHeight > 1;
      && (Replay(d).outcome == AppTooLow <==> low) && (Replay(d).outcome == AppTooHigh <==> high && !low)
      && (Replay(d).outcome == StateAhead <==> ahead && !low && !high)
      && (Replay(d).outcome == StoreAhead <==> behind && !low && !high)
      && (low || high || ahead || behind ==> Replay(d).writes == [] && Replay(d).disk == d)
  {
    var last := if d.height == d.stateHeight then d.height else d.height - 1;
    RangeOutcome(d, Next(d.initial, d.appHeight), last);
  }

  /** With only the last block left to replay: what each way to fail comes from, and that none of them writes. */
  lemma LastBlockOutcome(d: Disk)
    requires d.height >= 1 && d.height == d.stateHeight + 1 && d.stateHeight <= d.appHeight <= d.height && !Pruned(d)
    ensures var o := Replay(d).outcome;
      && (o == NoResponses <==> d.appHeight == d.height && d.lastResponses != d.height)
      && (o == MissingBlock <==> o != NoResponses && d.height !in d.blocks)
      && (o == InvalidBlock <==> o != NoResponses && d.height in d.blocks && !LastFits(d))
      && (o.Synced? <==> o != NoResponses && LastFits(d)) && (!o.Synced? ==> Replay(d).writes == [])
  {
  }

  /** Over an empty store the hashes of application and state are compared, and nothing is written. */
  lemma EmptyStoreOutcome(d: Disk)
    requires d.height == 0
    ensures Replay(d).writes == [] && Replay(d).disk == d && (Replay(d).outcome.Synced? <==> d.appHash == d.stateHash)
  {
  }

  /** InitChain: whatever an application at height 0 reports of itself, and a state at height 0 holds, it starts from genesis. */
  lemma InitChainRestores(chain: seq<Block>, d: Disk, hash: AppHash, applied: seq<nat>, stateHash: AppHash)
    requires DiskOk(chain, d) && d.appHeight == 0 && (d.stateHeight > 0 ==> stateHash == d.stateHash)
    ensures InitChain(d.(appHash := hash, applied := applied, stateHash := stateHash)) == d
  {
    assert Heights(d.initial, 0) == [];
  }

  lemma {:induction false} RangeOutcome(d: Disk, first: nat, last: nat)
    ensures var o := ExecRange(d, first, last).outcome; o.Synced? || o == MissingBlock || o == HashMismatch
    decreases last
  {
    if last != 0 {
      RangeOutcome(d, first, last - 1);
    }
  }

  /** Whatever the three heights and hashes are, the case analysis covers them. */
  lemma NeverUncovered(d: Disk)
    ensures Replay(d).outcome != Uncovered
  {
    if d.height >= 1 {
      var last := if d.height == d.stateHeight then d.height else d.height - 1;
      RangeOutcome(d, Next(d.initial, d.appHeight), last);
    }
  }

  // ----- crashes while committing -----

  /** The durable writes of finalizeCommit and ApplyBlock, in order. */
  ghost function CommitWrites(d: Disk, b: Block): seq<Write> {
    [SaveBlock(b), EndHeight(b.height), SaveResponses(b.height), CommitApp(b), SaveState(b.height, After(d.appHash, b.txs))]
  }

  ghost predicate NextBlock(d: Disk, b: Block) {
    b.height == Next(d.initial, d.height) && b.appHash == d.stateHash
  }

  lemma {:induction false} HashStays(chain: seq<Block>, b: Block, n: nat)
    requires n <= |chain|
    ensures HashAfter(chain + [b], n) == HashAfter(chain, n)
    decreases n
  {
    if n > 0 {
      HashStays(chain, b, n - 1);
    }
  }

  lemma ChainGrows(initial: nat, chain: seq<Block>, b: Block)
    requires ChainOk(initial, chain) && b.height == initial + |chain| && b.appHash == HashAfter(chain, |chain|)
    ensures ChainOk(initial, chain + [b])
  {
    forall i | 0 <= i < |chain + [b]| ensures BlockOk(initial, chain + [b], i) {
      HashStays(chain, b, i);
      assert i < |chain| ==> BlockOk(initial, chain, i);
    }
  }

  lemma SaveBlockOk(chain: seq<Block>, d: Disk, b: Block)
    requires DiskOk(chain, d) && InSync(d) && NextBlock(d, b)
    ensures DiskOk(chain + [b], Apply(d, SaveBlock(b)))
    ensures Count(d.initial, d.height) == |chain|
  {
    ChainGrows(d.initial, chain, b);
    HashStays(chain, b, |chain|);
  }

  /** Once the block is stored, every further write leaves a recoverable disk. */
  lemma CommitKeepsDisk(chain: seq<Block>, d: Disk, b: Block)
    requires DiskOk(chain, d) && InSync(d) && NextBlock(d, b)
    ensures Finished(chain + [b], Apply(d, SaveBlock(b)), CommitWrites(d, b)[1..])
  {
    var d1, chain', e := Apply(d, SaveBlock(b)), chain + [b], EndHeight(b.height);
    SaveBlockOk(chain, d, b);
    AllOkNil(chain', d1);
    ApplySnoc(d1, [], e);
    AllOkSnoc(chain', d1, [], e);
    assert [] + [e] == [e];
    ResponsesThenCommit(chain', d1, [e], b);
    var w1, w2 := SaveResponses(b.height), CommitApp(b);
    var ws := [e] + [w1] + [w2];
    assert [e] + [w1, w2] == ws;
    ApplySnoc(d1, [e], w1);
    ApplySnoc(d1, [e] + [w1], w2);
    FinishedSnoc(chain', d1, ws);
    assert ws + [SaveState(b.height, After(d.appHash, b.txs))] == CommitWrites(d, b)[1..];
  }

  /** Crashing anywhere while committing leaves a recoverable disk, of the old chain or of the new one. */
  lemma CommitCrash(chain: seq<Block>, d: Disk, b: Block, k: nat)
    requires DiskOk(chain, d) && InSync(d) && NextBlock(d, b) && k <= |CommitWrites(d, b)|
    ensures DiskOk(if k == 0 then chain else chain + [b], ApplyAll(d, CommitWrites(d, b)[..k]))
  {
    if k > 0 {
      CommitKeepsDisk(chain, d, b);
      var ws := CommitWrites(d, b);
      assert PrefixOk(chain + [b], Apply(d, SaveBlock(b)), ws[1..], k - 1);
      assert ws[..k] == [ws[0]] + ws[1..][..k - 1];
      ApplyConcat(d, [ws[0]], ws[1..][..k - 1]);
      ApplySnoc(d, [], ws[0]);
      assert [] + [ws[0]] == [ws[0]];
    }
  }

  // ----- whole runs -----

  datatype Action =
    | Commit(b: Block, k: nat)  // commit a block, crashing after k writes (all of them: no crash)
    | Recover(k: nat)           // a handshake that crashes after k writes
    | Rollback(h: nat)          // the application comes back at an earlier height
    | Prune(base: nat)

  ghost function RolledBack(chain: seq<Block>, d: Disk, h: nat): Disk
    requires Count(d.initial, h) <= |chain|
  {
    d.(appHeight := h, appHash := HashAfter(chain, Count(d.initial, h)), applied := Heights(d.initial, h))
  }

  ghost predicate Step(chain: seq<Block>, d: Disk, a: Action, chain': seq<Block>, d': Disk) {
    match a
    case Commit(b, k) =>
      && InSync(d) && NextBlock(d, b) && k <= |CommitWrites(d, b)|
      && chain' == (if k == 0 then chain else chain + [b]) && d' == ApplyAll(d, CommitWrites(d, b)[..k])
    case Recover(k) => k <= |Replay(d).writes| && chain' == chain && d' == ApplyAll(d, Replay(d).writes[..k])
    case Rollback(h) =>
      && (h == 0 || d.initial <= h) && h <= d.appHeight && Count(d.initial, h) <= |chain|
      && chain' == chain && d' == RolledBack(chain, d, h)
    case Prune(base) =>
      && d.base <= base <= d.height && d.base > 0 && chain' == chain
      && d' == d.(base := base, blocks := map h | h in d.blocks && h >= base :: d.blocks[h])
  }

  lemma StepOk(chain: seq<Block>, d: Disk, a: Action, chain': seq<Block>, d': Disk)
    requires DiskOk(chain, d) && Step(chain, d, a, chain', d')
    ensures DiskOk(chain', d')
  {
    match a
    case Commit(b, k) => CommitCrash(chain, d, b, k);
    case Recover(k) =>
      RecoverySyncs(chain, d);
      assert PrefixOk(chain, d, Replay(d).writes, k);
    case Rollback(h) =>
    case Prune(base) =>
  }

  ghost function Fresh(initial: nat): Disk {
    Disk(initial, 0, 0, map[], {}, 0, [], 0, 0, [], [])
  }

  /** A chain that starts at any height above 1 and crashes right after storing its first block cannot restart. */
  lemma LateChainStuck(initial: nat, b: Block, d: Disk)
    requires initial > 1 && b.height == initial && Step([], Fresh(initial), Commit(b, 1), [b], d)
    ensures DiskOk([b], d) && Replay(d).outcome == StoreAhead
  {
    assert Heights(initial, 0) == [];
    StepOk([], Fresh(initial), Commit(b, 1), [b], d);
    var ws := CommitWrites(Fresh(initial), b);
    ApplySnoc(Fresh(initial), [], ws[0]);
    assert ws[..1] == [] + [ws[0]];
    RecoverySyncs([b], d);
  }

  ghost predicate IsRun(chains: seq<seq<Block>>, disks: seq<Disk>, actions: seq<Action>) {
    && |chains| == |disks| == |actions| + 1
    && chains[0] == [] && disks[0] == Fresh(disks[0].initial) && disks[0].initial >= 1
    && forall i :: 0 <= i < |actions| ==> Step(chains[i], disks[i], actions[i], chains[i + 1], disks[i + 1])
  }

  /** Along any run of commits, crashes, interrupted handshakes, application rollbacks and pruning, every disk is recoverable. */
  lemma {:induction false} RunsStayRecoverable(chains: seq<seq<Block>>, disks: seq<Disk>, actions: seq<Action>, i: nat)
    requires IsRun(chains, disks, actions) && i < |disks|
    ensures DiskOk(chains[i], disks[i])
  {
    if i == 0 {
      assert Heights(disks[0].initial, 0) == [];
    } else {
      RunsStayRecoverable(chains, disks, actions, i - 1);
      StepOk(chains[i - 1], disks[i - 1], actions[i - 1], chains[i], disks[i]);
    }
  }

  // ----- runs without pruning -----

  lemma {:induction false} BaseStays(d: Disk, ws: seq<Write>)
    requires forall w :: w in ws ==> !w.SaveBlock?
    ensures ApplyAll(d, ws).base == d.base && ApplyAll(d, ws).initial == d.initial
  {
    if ws != [] {
      BaseStays(d, ws[..|ws| - 1]);
      assert ws[|ws| - 1] in ws;
    }
  }

  lemma {:induction false} RangeSavesNone(d: Disk, first: nat, last: nat)
    ensures forall w :: w in ExecRange(d, first, last).writes ==> !w.SaveBlock?
    decreases last
  {
    if last != 0 {
      RangeSavesNone(d, first, last - 1);
    }
  }

  /** A handshake stores no block. */
  lemma ReplaySavesNone(d: Disk)
    ensures forall w :: w in Replay(d).writes ==> !w.SaveBlock?
  {
    if d.height >= 1 {
      RangeSavesNone(d, Next(d.initial, d.appHeight), if d.height == d.stateHeight then d.height else d.height - 1);
    }
  }

  lemma FirstSaves(d: Disk, w: Write, ws: seq<Write>)
    requires w.SaveBlock? && forall x :: x in ws ==> !x.SaveBlock?
    ensures var d' := ApplyAll(d, [w] + ws); d'.initial == d.initial && d'.base == if d.base == 0 then w.b.height else d.base
  {
    ApplyConcat(d, [w], ws);
    ApplySnoc(d, [], w);
    assert [] + [w] == [w];
    BaseStays(Apply(d, w), ws);
  }

  lemma SavesOneBlock(d: Disk, b: Block, w: Write)
    requires w in CommitWrites(d, b)[1..]
    ensures !w.SaveBlock?
  {
  }

  lemma CommitBase(d: Disk, b: Block, k: nat)
    requires k <= |CommitWrites(d, b)|
    ensures var d' := ApplyAll(d, CommitWrites(d, b)[..k]);
      d'.initial == d.initial && d'.base == if k > 0 && d.base == 0 then b.height else d.base
  {
    var ws := CommitWrites(d, b);
    if k > 0 {
      var rest := ws[1..][..k - 1];
      forall w | w in rest ensures !w.SaveBlock? {
        SavesOneBlock(d, b, w);
      }
      FirstSaves(d, ws[0], rest);
      assert ws[..k] == [ws[0]] + rest;
    }
  }

  ghost predicate Unpruned(d: Disk) {
    d.base == 0 || d.base == d.initial
  }

  lemma {:induction false} UnprunedBase(chains: seq<seq<Block>>, disks: seq<Disk>, actions: seq<Action>, i: nat)
    requires IsRun(chains, disks, actions) && i < |disks| && forall a :: a in actions ==> !a.Prune?
    ensures Unpruned(disks[i])
  {
    if i > 0 {
      UnprunedBase(chains, disks, actions, i - 1);
      RunsStayRecoverable(chains, disks, actions, i - 1);
      StepBase(chains[i - 1], disks[i - 1], actions[i - 1], chains[i], disks[i]);
    }
  }

  /** Along any run that prunes nothing the store goes back to the first height, so no handshake finds the application too low. */
  lemma UnprunedRuns(chains: seq<seq<Block>>, disks: seq<Disk>, actions: seq<Action>, i: nat)
    requires IsRun(chains, disks, actions) && i < |disks| && forall a :: a in actions ==> !a.Prune?
    ensures Unpruned(disks[i]) && Replay(disks[i]).outcome != AppTooLow
  {
    UnprunedBase(chains, disks, actions, i);
    RunsStayRecoverable(chains, disks, actions, i);
    RecoverySyncs(chains[i], disks[i]);
  }

  lemma StepBase(chain: seq<Block>, d: Disk, a: Action, chain': seq<Block>, d': Disk)
    requires DiskOk(chain, d) && Step(chain, d, a, chain', d') && !a.Prune? && Unpruned(d)
    ensures Unpruned(d')
  {
    match a
    case Commit(b, k) => CommitBase(d, b, k);
    case Recover(k) =>
      ReplaySavesNone(d);
      BaseStays(d, Replay(d).writes[..k]);
    case Rollback(h) =>
  }
}
