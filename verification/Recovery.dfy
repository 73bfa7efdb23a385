/**
 Crash recovery: the ABCI handshake (consensus/replay.go) over what a node keeps
 on disk, and the order in which finalizeCommit and ApplyBlock write it. A plan is
 the list of durable writes an operation makes, so a crash is a prefix of a plan.
 The application is deterministic and its hash determines its history.
 */
module Recovery {
  datatype Option<T> = None | Some(value: T)

  /** The application hash, which stands for all the transactions executed so far. */
  type AppHash = seq<nat>

  function After(h: AppHash, txs: nat): AppHash {
    h + [txs]
  }

  /** A block records the application hash before it. */
  datatype Block = Block(height: nat, appHash: AppHash, txs: nat)

  datatype Disk = Disk(
    initial: nat,                                            // the genesis document's InitialHeight
    base: nat, height: nat, blocks: map<nat, Block>,         // block store; 0 when empty
    ended: set<nat>,                                         // ENDHEIGHT markers in the WAL
    stateHeight: nat, stateHash: AppHash,
    lastResponses: nat,                                      // height of the last saved ABCI responses
    appHeight: nat, appHash: AppHash, applied: seq<nat>)     // applied: heights the real application committed

  datatype Write =
    | SaveBlock(b: Block)
    | EndHeight(h: nat)
    | SaveResponses(h: nat)
    | CommitApp(b: Block)
    | SaveState(h: nat, hash: AppHash)

  datatype Outcome =
    | Synced(hash: Option<AppHash>)
    | AppTooLow | AppTooHigh | NoResponses | InvalidBlock            // returned errors
    | StateAhead | StoreAhead | HashMismatch | MissingBlock | Uncovered // panics

  /** What an operation writes, how it ends, and the disk it leaves. */
  datatype Plan = Plan(writes: seq<Write>, outcome: Outcome, disk: Disk)

  function Apply(d: Disk, w: Write): Disk {
    match w
    case SaveBlock(b) => d.(base := if d.base == 0 then b.height else d.base, height := b.height, blocks := d.blocks[b.height := b])
    case EndHeight(h) => d.(ended := d.ended + {h})
    case SaveResponses(h) => d.(lastResponses := h)
    case CommitApp(b) => d.(appHeight := b.height, appHash := After(d.appHash, b.txs), applied := d.applied + [b.height])
    case SaveState(h, hash) => d.(stateHeight := h, stateHash := hash)
  }

  function ApplyAll(d: Disk, ws: seq<Write>): Disk {
    if ws == [] then d else Apply(ApplyAll(d, ws[..|ws| - 1]), ws[|ws| - 1])
  }

  /** The height after h. */
  function Next(initial: nat, h: nat): nat {
    if h == 0 then initial else h + 1
  }

  // ----- the handshake -----

  /** InitChain: an application at height 0 starts from genesis, and so does a state at height 0. */
  function InitChain(d: Disk): Disk {
    if d.appHeight != 0 then d
    else d.(appHash := [], applied := [], stateHash := if d.stateHeight == 0 then [] else d.stateHash)
  }

  /** replayBlock: ApplyBlock of the block at h, on the real application or on the mock that repeats its answers. */
  function ReplayBlock(d: Disk, h: nat, live: bool): Plan {
    if h !in d.blocks then Plan([], MissingBlock, d)
    else
      var b := d.blocks[h];
      if b.height != Next(d.initial, d.stateHeight) || b.appHash != d.stateHash then Plan([], InvalidBlock, d)
      else
        var d1 := Apply(d, SaveResponses(h));
        var d2 := if live then Apply(d1, CommitApp(b)) else d1;
        Plan([SaveResponses(h)] + (if live then [CommitApp(b)] else []) + [SaveState(h, d2.appHash)],
          Synced(Some(d2.appHash)), Apply(d2, SaveState(h, d2.appHash)))
  }

  /** The loop of replayBlocks: execute and commit blocks first..last on the real application. */
  function ExecRange(d: Disk, first: nat, last: nat): Plan
    decreases last
  {
    if last < first || last == 0 then Plan([], Synced(None), d)
    else
      var p := ExecRange(d, first, last - 1);
      if !p.outcome.Synced? then p
      else if last !in d.blocks then p.(outcome := MissingBlock)
      else if p.outcome.hash.Some? && p.outcome.hash.value != d.blocks[last].appHash then p.(outcome := HashMismatch)
      else
        var w := CommitApp(d.blocks[last]);
        var d' := Apply(p.disk, w);
        Plan(p.writes + [w], Synced(Some(d'.appHash)), d')
  }

  function CheckHash(p: Plan, stateHash: AppHash): Plan {
    if p.outcome.Synced? && p.outcome.hash != Some(stateHash) then p.(outcome := HashMismatch) else p
  }

  function ReplayBlocks(d: Disk, mutateState: bool): Plan
    requires d.height >= 1
  {
    var p := ExecRange(d, Next(d.initial, d.appHeight), if mutateState then d.height - 1 else d.height);
    if !p.outcome.Synced? then p
    else if !mutateState then CheckHash(p, d.stateHash)
    else
      var q := ReplayBlock(p.disk, d.height, true);
      Plan(p.writes + q.writes, q.outcome, q.disk)
  }

  function Stop(d: Disk, outcome: Outcome): Plan {
    Plan([], outcome, d)
  }

  /** ReplayBlocks of the source, after InitChain. */
  function Replay(d: Disk): Plan {
    if d.height == 0 then CheckHash(Stop(d, Synced(Some(d.appHash))), d.stateHash)
    else if d.appHeight == 0 && d.initial < d.base then Stop(d, AppTooLow)
    else if d.appHeight > 0 && d.appHeight + 1 < d.base then Stop(d, AppTooLow)
    else if d.height < d.appHeight then Stop(d, AppTooHigh)
    else if d.height < d.stateHeight then Stop(d, StateAhead)
    else if d.height > d.stateHeight + 1 then Stop(d, StoreAhead)
    else if d.height == d.stateHeight then
      if d.appHeight < d.height then ReplayBlocks(d, false)
      else if d.appHeight == d.height then CheckHash(Stop(d, Synced(Some(d.appHash))), d.stateHash)
      else Stop(d, Uncovered)
    else if d.height == d.stateHeight + 1 then
      if d.appHeight < d.stateHeight then ReplayBlocks(d, true)
      else if d.appHeight == d.stateHeight then ReplayBlock(d, d.height, true)
      else if d.appHeight == d.height then
        if d.lastResponses == d.height then ReplayBlock(d, d.height, false) else Stop(d, NoResponses)
      else Stop(d, Uncovered)
    else Stop(d, Uncovered)
  }

  // ----- the handshaker object -----

  class Handshaker {
    var disk: Disk
    var nBlocks: nat

    constructor (d: Disk)
      ensures disk == d && nBlocks == 0
    {
      disk, nBlocks := d, 0;
    }

    method DoReplayBlock(h: nat, live: bool) returns (out: Outcome)
      modifies this
      ensures var p := ReplayBlock(old(disk), h, live); disk == p.disk && out == p.outcome
      ensures nBlocks == old(nBlocks) + if out.Synced? then 1 else 0
    {
      if h !in disk.blocks {
        return MissingBlock;
      }
      var b := disk.blocks[h];
      if b.height != Next(disk.initial, disk.stateHeight) || b.appHash != disk.stateHash {
        return InvalidBlock;
      }
      disk := disk.(lastResponses := h);
      if live {
        disk := disk.(appHeight := b.height, appHash := After(disk.appHash, b.txs), applied := disk.applied + [b.height]);
      }
      disk := disk.(stateHeight := h, stateHash := disk.appHash);
      nBlocks := nBlocks + 1;
      out := Synced(Some(disk.stateHash));
    }

    /** The loop over heights: each block is executed and committed on the real application. */
    method ExecBlocks(first: nat, last: nat) returns (out: Outcome)
      modifies this
      ensures var p := ExecRange(old(disk), first, last); disk == p.disk && out == p.outcome
      ensures out.Synced? && 1 <= first <= last ==> nBlocks == old(nBlocks) + last + 1 - first
    {
      var appHash: Option<AppHash> := None;
      var i := if first == 0 then 1 else first;
      if last < i {
        return Synced(None);
      }
      while i <= last
        invariant 1 <= i <= last + 1 && i >= first && (first >= 1 ==> nBlocks == old(nBlocks) + i - first)
        invariant var p := ExecRange(old(disk), first, i - 1); disk == p.disk && p.outcome == Synced(appHash)
        invariant disk.blocks == old(disk).blocks
      {
        if i !in disk.blocks {
          RangeStops(old(disk), first, i, last);
          return MissingBlock;
        }
        var b := disk.blocks[i];
        if appHash.Some? && appHash.value != b.appHash {
          RangeStops(old(disk), first, i, last);
          return HashMismatch;
        }
        disk := disk.(appHeight := b.height, appHash := After(disk.appHash, b.txs), applied := disk.applied + [b.height]);
        appHash := Some(disk.appHash);
        nBlocks := nBlocks + 1;
        i := i + 1;
      }
      out := Synced(appHash);
    }

    method DoReplayBlocks(mutateState: bool) returns (out: Outcome)
      requires disk.height >= 1
      modifies this
      ensures var p := ReplayBlocks(old(disk), mutateState); disk == p.disk && out == p.outcome
    {
      var last := if mutateState then disk.height - 1 else disk.height;
      var first := Next(disk.initial, disk.appHeight);
      RangeKeeps(disk, first, last);
      out := ExecBlocks(first, last);
      if out.Synced? {
        if mutateState {
          out := DoReplayBlock(disk.height, true);
        } else if out.hash != Some(disk.stateHash) {
          out := HashMismatch;
        }
      }
    }

    /** ReplayBlocks: InitChain when the application is at height 0, then the case analysis over the three heights. */
    method Run() returns (out: Outcome)
      modifies this
      ensures var p := Replay(InitChain(old(disk))); disk == p.disk && out == p.outcome
    {
      if disk.appHeight == 0 {
        disk := disk.(appHash := [], applied := [], stateHash := if disk.stateHeight == 0 then [] else disk.stateHash);
      }
      if disk.height == 0 {
        return if disk.appHash == disk.stateHash then Synced(Some(disk.appHash)) else HashMismatch;
      } else if disk.appHeight == 0 && disk.initial < disk.base {
        return AppTooLow;
      } else if disk.appHeight > 0 && disk.appHeight + 1 < disk.base {
        return AppTooLow;
      } else if disk.height < disk.appHeight {
        return AppTooHigh;
      } else if disk.height < disk.stateHeight {
        return StateAhead;
      } else if disk.height > disk.stateHeight + 1 {
        return StoreAhead;
      }
      if disk.height == disk.stateHeight {
        if disk.appHeight < disk.height {
          out := DoReplayBlocks(false);
        } else {
          out := if disk.appHash == disk.stateHash then Synced(Some(disk.appHash)) else HashMismatch;
        }
      } else if disk.appHeight < disk.stateHeight {
        out := DoReplayBlocks(true);
      } else if disk.appHeight == disk.stateHeight {
        out := DoReplayBlock(disk.height, true);
      } else if disk.lastResponses != disk.height {
        out := NoResponses;
      } else {
        out := DoReplayBlock(disk.height, false);
      }
    }
  }

  lemma {:induction false} RangeStops(d: Disk, first: nat, i: nat, last: nat)
    requires 1 <= i <= last && first <= i && ExecRange(d, first, i - 1).outcome.Synced? && !ExecRange(d, first, i).outcome.Synced?
    ensures ExecRange(d, first, last) == ExecRange(d, first, i)
    decreases last
  {
    if i < last {
      RangeStops(d, first, i, last - 1);
    }
  }

  ghost predicate OnlyAppMoves(d: Disk, d': Disk) {
    && d'.initial == d.initial && d'.base == d.base && d'.height == d.height && d'.blocks == d.blocks && d'.ended == d.ended
    && d'.stateHeight == d.stateHeight && d'.stateHash == d.stateHash && d'.lastResponses == d.lastResponses
  }

  lemma {:induction false} RangeKeeps(d: Disk, first: nat, last: nat)
    ensures OnlyAppMoves(d, ExecRange(d, first, last).disk)
    decreases last
  {
    if last >= first && last != 0 {
      RangeKeeps(d, first, last - 1);
    }
  }

  // ----- a plan's disk is what its writes leave -----

  lemma ApplySnoc(d: Disk, ws: seq<Write>, w: Write)
    ensures ApplyAll(d, ws + [w]) == Apply(ApplyAll(d, ws), w)
  {
    assert (ws + [w])[..|ws|] == ws;
  }

  lemma {:induction false} ApplyConcat(d: Disk, ws: seq<Write>, vs: seq<Write>)
    ensures ApplyAll(d, ws + vs) == ApplyAll(ApplyAll(d, ws), vs)
  {
    if vs == [] {
      assert ws + vs == ws;
    } else {
      var n := |vs| - 1;
      ApplyConcat(d, ws, vs[..n]);
      assert (ws + vs)[..|ws| + n] == ws + vs[..n];
    }
  }

  lemma {:induction false} RangeWrites(d: Disk, first: nat, last: nat)
    ensures var p := ExecRange(d, first, last); p.disk == ApplyAll(d, p.writes)
    decreases last
  {
    if last >= first && last != 0 {
      RangeWrites(d, first, last - 1);
      if last in d.blocks {
        ApplySnoc(d, ExecRange(d, first, last - 1).writes, CommitApp(d.blocks[last]));
      }
    }
  }

  lemma BlockWrites(d: Disk, h: nat, live: bool)
    ensures var p := ReplayBlock(d, h, live); p.disk == ApplyAll(d, p.writes)
  {
    var p := ReplayBlock(d, h, live);
    if p.outcome.Synced? {
      var w, b := SaveResponses(h), d.blocks[h];
      ApplySnoc(d, [], w);
      assert [] + [w] == [w];
      if live {
        ApplySnoc(d, [w], CommitApp(b));
        ApplySnoc(d, [w] + [CommitApp(b)], SaveState(h, p.disk.stateHash));
      } else {
        assert [w] + [] == [w];
        ApplySnoc(d, [w], SaveState(h, p.disk.stateHash));
      }
    }
  }

  lemma BlocksWrites(d: Disk, mutateState: bool)
    requires d.height >= 1
    ensures var p := ReplayBlocks(d, mutateState); p.disk == ApplyAll(d, p.writes)
  {
    var first, last := Next(d.initial, d.appHeight), if mutateState then d.height - 1 else d.height;
    var p := ExecRange(d, first, last);
    RangeWrites(d, first, last);
    if p.outcome.Synced? && mutateState {
      BlockWrites(p.disk, d.height, true);
      ApplyConcat(d, p.writes, ReplayBlock(p.disk, d.height, true).writes);
    }
  }

  lemma ReplayWrites(d: Disk)
    ensures Replay(d).disk == ApplyAll(d, Replay(d).writes)
  {
    if d.height >= 1 {
      if d.appHeight < d.stateHeight {
        BlocksWrites(d, d.height == d.stateHeight + 1);
      } else {
        BlockWrites(d, d.height, d.appHeight == d.stateHeight);
      }
    }
  }
}
