/**
 The HotStuff block store (blockchain/blockchain.go): the ancestry walk and the
 pruning pass, as loops on the store's maps.
 */
module BlockChains {
  import opened HotStuffBlocks
  import opened HotStuffLog

  type Fetch = Hash -> Option<Block>

  /** Configuration.Fetch answers with the block that was asked for. */
  ghost predicate Honest(fetch: Fetch) {
    forall h :: fetch(h).Some? ==> HashOf(fetch(h).value) == h
  }

  ghost predicate Available(blocks: map<Hash, Block>, fetch: Fetch, h: Hash) {
    h in blocks || fetch(h).Some?
  }

  /** The walk back from b to a view at most v, as far as blocks can be had. */
  ghost function Reach(blocks: map<Hash, Block>, fetch: Fetch, b: Block, v: View): Option<Block>
    decreases b
  {
    if b.view <= v then Some(b)
    else if b.parent.HashOf? && Available(blocks, fetch, b.parent) then Reach(blocks, fetch, b.parent.block, v)
    else None
  }

  lemma {:induction false} ReachLands(blocks: map<Hash, Block>, fetch: Fetch, b: Block, v: View)
    ensures Reach(blocks, fetch, b, v).Some? ==> Reach(blocks, fetch, b, v) == Landing(b, v)
    ensures (forall x :: x in Lineage(b) ==> Available(blocks, fetch, HashOf(x))) ==>
      Reach(blocks, fetch, b, v) == Landing(b, v)
    decreases b
  {
    if b.view > v && b.parent.HashOf? {
      ReachLands(blocks, fetch, b.parent.block, v);
      assert b.parent.block in Lineage(b.parent.block);
    }
  }

  /** Parent views strictly decrease on the way back. */
  ghost predicate ViewsFall(b: Block)
    decreases b
  {
    b.parent.HashOf? ==> b.parent.block.view < b.view && ViewsFall(b.parent.block)
  }

  lemma {:induction false} PathBelow(b: Block)
    requires ViewsFall(b)
    ensures forall x :: x in Lineage(b) && x != b ==> x.view < b.view
    decreases b
  {
    if b.parent.HashOf? {
      PathBelow(b.parent.block);
    }
  }

  /** When parent views fall, extending a block means having it on one's path. */
  lemma {:induction false} ExtendsIsAncestry(b: Block, target: Block)
    requires ViewsFall(b)
    ensures Extends(b, target) <==> target in Lineage(b)
    decreases b
  {
    PathBelow(b);
    if b.view > target.view && b.parent.HashOf? {
      ExtendsIsAncestry(b.parent.block, target);
      assert target in Lineage(b) <==> target in Lineage(b.parent.block) || target == b;
    }
  }

  // ----- pruning -----

  /** A block and its parent are both stored, and the parent's view is lower. */
  ghost predicate StoredViewsFall(blocks: map<Hash, Block>) {
    forall h :: h in blocks && blocks[h].parent in blocks ==> blocks[blocks[h].parent].view < blocks[h].view
  }

  ghost predicate Filed(blocks: map<Hash, Block>, at: map<View, Block>) {
    && (forall h :: h in blocks ==> HashOf(blocks[h]) == h)
    && (forall v :: v in at ==> at[v].view == v && HashOf(at[v]) in blocks)
  }

  /** The view the walk over committed blocks visits after h, if it goes on. */
  ghost function Below(blocks: map<Hash, Block>, at: map<View, Block>, pruned: View, h: View): Option<View> {
    if h >= pruned && h in at && at[h].parent in blocks && blocks[at[h].parent].view >= pruned
    then Some(blocks[at[h].parent].view) else None
  }

  /** The walk over committed blocks from h stops after at most n moves. */
  ghost predicate Ends(blocks: map<Hash, Block>, at: map<View, Block>, pruned: View, h: View, n: nat)
    decreases n
  {
    match Below(blocks, at, pruned, h)
    case Some(v) => n > 0 && Ends(blocks, at, pruned, v, n - 1)
    case None => true
  }

  /** The views the walk over committed blocks visits from h in at most n moves. */
  ghost function CommittedViews(blocks: map<Hash, Block>, at: map<View, Block>, pruned: View, h: View, n: nat): set<View>
    decreases n
  {
    match Below(blocks, at, pruned, h)
    case Some(v) => {h} + if n == 0 then {} else CommittedViews(blocks, at, pruned, v, n - 1)
    case None => {h}
  }

  /** With parents in lower views the walk always stops. */
  lemma {:induction false} WalkEnds(blocks: map<Hash, Block>, at: map<View, Block>, pruned: View, h: View)
    requires Filed(blocks, at) && StoredViewsFall(blocks)
    ensures Ends(blocks, at, pruned, h, h)
    decreases h
  {
    match Below(blocks, at, pruned, h)
    case Some(v) =>
      WalkEnds(blocks, at, pruned, v);
      EndsLater(blocks, at, pruned, v, v, h - 1);
    case None =>
  }

  lemma {:induction false} EndsLater(blocks: map<Hash, Block>, at: map<View, Block>, pruned: View, h: View, n: nat, m: nat)
    requires Ends(blocks, at, pruned, h, n) && n <= m
    ensures Ends(blocks, at, pruned, h, m)
    decreases n
  {
    if Below(blocks, at, pruned, h).Some? {
      EndsLater(blocks, at, pruned, Below(blocks, at, pruned, h).value, n - 1, m - 1);
    }
  }

  /** The blocks at views pruned+1 .. height that are not in keep, highest first. */
  ghost function Forked(at: map<View, Block>, keep: set<View>, pruned: View, height: View): seq<Block>
    decreases height
  {
    if height <= pruned then []
    else (if height !in keep && height in at then [at[height]] else []) + Forked(at, keep, pruned, height - 1)
  }

  /** The index without the views pruned+1 .. height. */
  ghost function Cut(at: map<View, Block>, pruned: View, height: View): map<View, Block> {
    map v | v in at && !(pruned < v <= height) :: at[v]
  }

  lemma CutStep(at: map<View, Block>, h: View, height: View)
    requires 0 < h <= height
    ensures Cut(at, h, height) - {h} == Cut(at, h - 1, height)
    ensures h in at ==> h in Cut(at, h, height) && Cut(at, h, height)[h] == at[h]
    ensures h !in at ==> h !in Cut(at, h, height)
  {
  }

  class BlockChain {
    var pruneHeight: View
    var blocks: map<Hash, Block>
    var blockAtHeight: map<View, Block>

    ghost predicate Valid()
      reads this
    {
      Filed(blocks, blockAtHeight)
    }

    /** Every stored block above the prune height is the one of its view. */
    ghost predicate OnePerView()
      reads this
    {
      forall h :: h in blocks && blocks[h].view > pruneHeight ==>
        blocks[h].view in blockAtHeight && blockAtHeight[blocks[h].view] == blocks[h]
    }

    constructor ()
      ensures Valid() && OnePerView() && StoredViewsFall(blocks)
      ensures pruneHeight == 0 && blocks == map[HashOf(GENESIS) := GENESIS] && blockAtHeight == map[0 := GENESIS]
    {
      pruneHeight := 0;
      blocks := map[HashOf(GENESIS) := GENESIS];
      blockAtHeight := map[0 := GENESIS];
    }

    /** Files the block under its hash and as the block of its view. */
    method Store(b: Block)
      requires Valid()
      modifies `blocks, `blockAtHeight
      ensures Valid()
      ensures blocks == old(blocks)[HashOf(b) := b] && blockAtHeight == old(blockAtHeight)[b.view := b]
      ensures old(OnePerView()) && (forall h :: h in old(blocks) && old(blocks)[h].view == b.view ==> old(blocks)[h] == b) ==> OnePerView()
    {
      blocks := blocks[HashOf(b) := b];
      blockAtHeight := blockAtHeight[b.view := b];
    }

    method Get(fetch: Fetch, h: Hash) returns (res: Option<Block>)
      requires Valid() && Honest(fetch)
      modifies `blocks, `blockAtHeight
      ensures Valid()
      ensures res.Some? <==> Available(old(blocks), fetch, h)
      ensures res.Some? ==> HashOf(res.value) == h && blocks == old(blocks)[h := res.value]
      ensures res.None? ==> blocks == old(blocks)
      ensures blockAtHeight ==
        if res.Some? && h !in old(blocks) then old(blockAtHeight)[res.value.view := res.value] else old(blockAtHeight)
    {
      if h in blocks {
        return Some(blocks[h]);
      }
      res := fetch(h);
      if res.Some? {
        blocks := blocks[h := res.value];
        blockAtHeight := blockAtHeight[res.value.view := res.value];
      }
    }

    /** True iff the walk back from b, fetching as it goes, comes to the target. */
    method ExtendsBranch(fetch: Fetch, b: Block, target: Block) returns (yes: bool)
      requires Valid() && Honest(fetch)
      modifies `blocks, `blockAtHeight
      ensures Valid()
      ensures yes <==> Reach(old(blocks), fetch, b, target.view) == Some(target)
      ensures yes ==> Extends(b, target)
      ensures (forall x :: x in Lineage(b) ==> Available(old(blocks), fetch, HashOf(x))) ==> (yes <==> Extends(b, target))
    {
      var current := Some(b);
      while current.Some? && current.value.view > target.view
        invariant Valid()
        invariant forall h :: Available(blocks, fetch, h) <==> Available(old(blocks), fetch, h)
        invariant Reach(old(blocks), fetch, b, target.view) ==
          if current.Some? then Reach(old(blocks), fetch, current.value, target.view) else None
        decreases current.Some?, if current.Some? then current.value else b
      {
        var was := current.value;
        current := Get(fetch, was.parent);
      }
      ReachLands(old(blocks), fetch, b, target.view);
      yes := current.Some? && HashOf(current.value) == HashOf(target);
    }

    /** Returns whenever the walk over the committed blocks does. */
    method PruneToHeight(height: View, committed: View, ghost n: nat) returns (forked: seq<Block>)
      requires Valid() && Ends(blocks, blockAtHeight, pruneHeight, committed, n)
      modifies `blockAtHeight, `pruneHeight
      ensures Valid() && pruneHeight == height
      ensures forked == Forked(old(blockAtHeight),
        CommittedViews(blocks, old(blockAtHeight), old(pruneHeight), committed, n), old(pruneHeight), height)
      ensures blockAtHeight == Cut(old(blockAtHeight), old(pruneHeight), height)
      ensures old(OnePerView()) && old(pruneHeight) <= height ==> OnePerView()
    {
      var keep := WalkCommitted(committed, n);
      forked := DropRange(height, keep);
      pruneHeight := height;
    }

    /** Takes the views down from height to the old prune height out of the index, and reports those not kept. */
    method DropRange(height: View, keep: set<View>) returns (forked: seq<Block>)
      modifies `blockAtHeight
      ensures forked == Forked(old(blockAtHeight), keep, pruneHeight, height)
      ensures blockAtHeight == Cut(old(blockAtHeight), pruneHeight, height)
    {
      forked := [];
      var h: View := height;
      while h > pruneHeight
        invariant h == height || pruneHeight <= h <= height
        invariant forked + Forked(old(blockAtHeight), keep, pruneHeight, h) == Forked(old(blockAtHeight), keep, pruneHeight, height)
        invariant blockAtHeight == Cut(old(blockAtHeight), h, height)
      {
        CutStep(old(blockAtHeight), h, height);
        if h !in keep && h in blockAtHeight {
          forked := forked + [blockAtHeight[h]];
        }
        blockAtHeight := blockAtHeight - {h};
        h := h - 1;
      }
    }

    method WalkCommitted(committed: View, ghost n: nat) returns (keep: set<View>)
      requires Ends(blocks, blockAtHeight, pruneHeight, committed, n)
      ensures keep == CommittedViews(blocks, blockAtHeight, pruneHeight, committed, n)
    {
      keep := {committed};
      var h: View := committed;
      ghost var left: nat := n;
      while h >= pruneHeight
        invariant Ends(blocks, blockAtHeight, pruneHeight, h, left) && h in keep
        invariant keep + CommittedViews(blocks, blockAtHeight, pruneHeight, h, left) ==
          CommittedViews(blocks, blockAtHeight, pruneHeight, committed, n)
        decreases left, h
      {
        if h !in blockAtHeight {
          break;
        }
        var b := blockAtHeight[h];
        if b.parent !in blocks || blocks[b.parent].view < pruneHeight {
          break;
        }
        h := blocks[b.parent].view;
        keep := keep + {h};
        left := left - 1;
      }
    }
  }

  // ----- what a pruning pass returns -----

  lemma {:induction false} ForkedIs(at: map<View, Block>, keep: set<View>, pruned: View, height: View)
    requires forall v :: v in at ==> at[v].view == v
    ensures var f := Forked(at, keep, pruned, height);
      && (forall b :: b in f <==> pruned < b.view <= height && b.view !in keep && b.view in at && at[b.view] == b)
      && (forall i, j :: 0 <= i < j < |f| ==> f[i].view > f[j].view)
    decreases height
  {
    if height > pruned {
      ForkedIs(at, keep, pruned, height - 1);
      assert forall v :: v in at ==> at[v].view == v;
    }
  }

  /** Above the prune height, the walk visits exactly the committed block's ancestors. */
  lemma {:induction false} WalkIsPath(blocks: map<Hash, Block>, at: map<View, Block>, pruned: View, b: Block, n: nat)
    requires Filed(blocks, at) && StoredViewsFall(blocks) && ViewsFall(b) && Ends(blocks, at, pruned, b.view, n)
    requires forall x :: x in Lineage(b) && x.view > pruned ==> x.view in at && at[x.view] == x
    ensures forall v :: v > pruned ==> (v in CommittedViews(blocks, at, pruned, b.view, n) <==> exists x :: x in Lineage(b) && x.view == v)
    decreases b
  {
    if b.view > pruned {
      assert b in Lineage(b);
      if b.parent.HashOf? {
        var p := b.parent.block;
        assert Lineage(b) == Lineage(p) + [b];
        if p.view > pruned {
          assert p in Lineage(p);
          assert HashOf(at[p.view]) in blocks;
          assert Below(blocks, at, pruned, b.view) == Some(p.view);
          WalkIsPath(blocks, at, pruned, p, n - 1);
        } else {
          PathBelow(p);
          OnlyTop(blocks, at, pruned, b, n);
        }
      } else {
        assert Below(blocks, at, pruned, b.view) == None;
      }
    } else {
      PathBelow(b);
      WalkStays(blocks, at, pruned, b.view, n);
    }
  }

  /** A block whose parent is not above the prune height is the only one above it that the walk from it visits. */
  lemma OnlyTop(blocks: map<Hash, Block>, at: map<View, Block>, pruned: View, b: Block, n: nat)
    requires Filed(blocks, at) && StoredViewsFall(blocks)
    requires b.view > pruned && b.parent.HashOf? && b.parent.block.view <= pruned && b.view in at && at[b.view] == b
    ensures forall v :: v > pruned ==> (v in CommittedViews(blocks, at, pruned, b.view, n) <==> v == b.view)
  {
    if Below(blocks, at, pruned, b.view).Some? && n > 0 {
      WalkStays(blocks, at, pruned, Below(blocks, at, pruned, b.view).value, n - 1);
    }
  }

  lemma {:induction false} WalkStays(blocks: map<Hash, Block>, at: map<View, Block>, pruned: View, h: View, n: nat)
    requires Filed(blocks, at) && StoredViewsFall(blocks)
    ensures forall v :: v in CommittedViews(blocks, at, pruned, h, n) ==> v <= h
    decreases n
  {
    if Below(blocks, at, pruned, h).Some? && n > 0 {
      WalkStays(blocks, at, pruned, Below(blocks, at, pruned, h).value, n - 1);
    }
  }

  /**
   Pruning. With one block stored per view and the committed block's ancestors
   stored, the pass returns exactly the stored blocks of the newly pruned range
   that are off the committed chain, each once, highest view first.
   */
  lemma PruneIsExact(blocks: map<Hash, Block>, at: map<View, Block>, pruned: View, height: View, committed: Block, n: nat)
    requires Filed(blocks, at) && StoredViewsFall(blocks) && ViewsFall(committed) && Ends(blocks, at, pruned, committed.view, n)
    requires forall h :: h in blocks && blocks[h].view > pruned ==> blocks[h].view in at && at[blocks[h].view] == blocks[h]
    requires forall x :: x in Lineage(committed) && x.view > pruned ==> HashOf(x) in blocks
    ensures var f := Forked(at, CommittedViews(blocks, at, pruned, committed.view, n), pruned, height);
      && (forall b :: b in f <==> HashOf(b) in blocks && pruned < b.view <= height && b !in Lineage(committed))
      && (forall i, j :: 0 <= i < j < |f| ==> f[i].view > f[j].view)
  {
    var keep := CommittedViews(blocks, at, pruned, committed.view, n);
    var f := Forked(at, keep, pruned, height);
    ForkedIs(at, keep, pruned, height);
    forall x | x in Lineage(committed) && x.view > pruned ensures x.view in at && at[x.view] == x {
      assert blocks[HashOf(x)] == x;
    }
    WalkIsPath(blocks, at, pruned, committed, n);
    forall b ensures b in f <==> HashOf(b) in blocks && pruned < b.view <= height && b !in Lineage(committed) {
      if HashOf(b) in blocks && pruned < b.view <= height {
        assert blocks[HashOf(b)] == b;
        assert b.view in keep <==> b in Lineage(committed);
      }
    }
  }
}
