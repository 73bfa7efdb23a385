/**
 Handel's level partitioner (handel/partitioner.go): the range of replicas that
 one replica contacts at each level, found by repeated halving. The number of
 levels is the exact ceiling of the binary logarithm.
 */
module Handel {
  datatype Option<T> = None | Some(value: T)

  function Pow2(k: nat): nat {
    if k == 0 then 1 else 2 * Pow2(k - 1)
  }

  function MaxLevel(n: nat): (k: nat) {
    if n <= 1 then 0 else 1 + MaxLevel((n + 1) / 2)
  }

  /** MaxLevel is the least k with n at most 2 to the k. */
  lemma {:induction false} MaxLevelIsLog(n: nat)
    requires n >= 1
    ensures n <= Pow2(MaxLevel(n)) && (n > 1 ==> Pow2(MaxLevel(n) - 1) < n)
  {
    if n > 1 {
      MaxLevelIsLog((n + 1) / 2);
    }
  }

  /** The half of lo..hi with self in it, and the other half, as inclusive ranges. */
  function Near(lo: int, hi: int, self: int): (int, int) {
    var mid := (lo + hi) / 2;
    if self > mid then (mid + 1, hi) else (lo, mid)
  }

  function Far(lo: int, hi: int, self: int): (int, int) {
    var mid := (lo + hi) / 2;
    if self > mid then (lo, mid) else (mid + 1, hi)
  }

  /** The range at a level: halve towards self down to the level, then take the other half. */
  function Descend(lo: int, hi: int, self: int, cur: nat, level: nat): (int, int)
    requires level <= cur
    decreases cur
  {
    if cur == level then Far(lo, hi, self)
    else
      var (a, b) := Near(lo, hi, self);
      Descend(a, b, self, cur - 1, level)
  }

  /** The level at which the halving separates i from j. */
  function LevelOf(lo: int, hi: int, i: int, j: int, cur: nat): nat
    decreases cur
  {
    var mid := (lo + hi) / 2;
    if (i > mid) != (j > mid) || cur == 0 then cur
    else
      var (a, b) := Near(lo, hi, i);
      LevelOf(a, b, i, j, cur - 1)
  }

  ghost predicate InRange(r: (int, int), j: int) {
    r.0 <= j <= r.1
  }

  /** j is in i's range at a level exactly when that is the level that separates them. */
  lemma {:induction false} DescendSeparates(lo: int, hi: int, i: int, j: int, cur: nat, level: nat)
    requires 0 <= lo <= i <= hi && lo <= j <= hi && hi - lo < Pow2(cur) && level <= cur
    ensures InRange(Descend(lo, hi, i, cur, level), j) <==> i != j && LevelOf(lo, hi, i, j, cur) == level
    ensures i != j ==> 1 <= LevelOf(lo, hi, i, j, cur) <= cur
    ensures i == j ==> LevelOf(lo, hi, i, j, cur) == 0
    decreases cur
  {
    var (a, b) := Near(lo, hi, i);
    if cur > 0 && InRange((a, b), j) {
      DescendSeparates(a, b, i, j, cur - 1, if level < cur then level else 0);
    } else if cur > level {
      DescendInside(a, b, i, cur - 1, level);
    }
  }

  /** A range stays within the indices it was cut from. */
  lemma {:induction false} DescendInside(lo: int, hi: int, i: int, cur: nat, level: nat)
    requires 0 <= lo <= i <= hi && level <= cur
    ensures var r := Descend(lo, hi, i, cur, level); lo <= r.0 <= r.1 + 1 && r.1 <= hi
    decreases cur
  {
    if cur > level {
      var (a, b) := Near(lo, hi, i);
      DescendInside(a, b, i, cur - 1, level);
    }
  }

  lemma {:induction false} LevelOfSymmetric(lo: int, hi: int, i: int, j: int, cur: nat)
    ensures LevelOf(lo, hi, i, j, cur) == LevelOf(lo, hi, j, i, cur)
    decreases cur
  {
    var mid := (lo + hi) / 2;
    if (i > mid) == (j > mid) && cur > 0 {
      var (a, b) := Near(lo, hi, i);
      LevelOfSymmetric(a, b, i, j, cur - 1);
    }
  }

  /** Replica index j is in the level partition of the replica at index i, among n. */
  ghost predicate InLevel(n: nat, i: nat, level: nat, j: nat)
    requires level <= MaxLevel(n)
  {
    InRange(Descend(0, n - 1, i, MaxLevel(n), level), j)
  }

  /**
   Levels. Among n replicas, every index other than i is in exactly one of i's
   level partitions, at a level from 1 to the highest; i itself is in none; and
   level 0 is empty.
   */
  lemma LevelsPartition(n: nat, i: nat, j: nat)
    requires i < n && j < n
    ensures forall level :: 0 <= level <= MaxLevel(n) ==>
      (InLevel(n, i, level, j) <==> i != j && level == LevelOf(0, n - 1, i, j, MaxLevel(n)))
    ensures i != j ==> exists level :: 1 <= level <= MaxLevel(n) && InLevel(n, i, level, j)
    ensures !InLevel(n, i, 0, j)
  {
    MaxLevelIsLog(n);
    forall level | 0 <= level <= MaxLevel(n)
      ensures InLevel(n, i, level, j) <==> i != j && level == LevelOf(0, n - 1, i, j, MaxLevel(n))
    {
      DescendSeparates(0, n - 1, i, j, MaxLevel(n), level);
    }
    DescendSeparates(0, n - 1, i, j, MaxLevel(n), 0);
    if i != j {
      assert InLevel(n, i, LevelOf(0, n - 1, i, j, MaxLevel(n)), j);
    }
  }

  /** Membership is symmetric: the replicas of one level contact each other. */
  lemma LevelsSymmetric(n: nat, i: nat, j: nat, level: nat)
    requires i < n && j < n && level <= MaxLevel(n)
    ensures InLevel(n, i, level, j) <==> InLevel(n, j, level, i)
  {
    LevelsPartition(n, i, j);
    LevelsPartition(n, j, i);
    LevelOfSymmetric(0, n - 1, i, j, MaxLevel(n));
  }

  datatype Partitioner = Partitioner(ids: seq<nat>, selfIndex: nat)

  /** newPartitioner: self is the first index with the replica's ID, or 0 when there is none. */
  method NewPartitioner(selfID: nat, allIDs: seq<nat>) returns (p: Partitioner)
    ensures p.ids == allIDs
    ensures selfID in allIDs ==> p.selfIndex < |allIDs| && allIDs[p.selfIndex] == selfID && selfID !in allIDs[..p.selfIndex]
    ensures selfID !in allIDs ==> p.selfIndex == 0
  {
    p := Partitioner(allIDs, 0);
    for k := 0 to |allIDs|
      invariant selfID !in allIDs[..k]
    {
      if selfID == allIDs[k] {
        return Partitioner(allIDs, k);
      }
    }
    assert allIDs[..|allIDs|] == allIDs;
  }

  /** rangeLevel; None is the panic on an invalid level. */
  method RangeLevel(p: Partitioner, level: int) returns (r: Option<(int, int)>)
    requires p.selfIndex < |p.ids|
    ensures r.None? <==> level < 0 || level > MaxLevel(|p.ids|)
    ensures r.Some? ==> r.value == Descend(0, |p.ids| - 1, p.selfIndex, MaxLevel(|p.ids|), level)
    ensures r.Some? ==> forall j: nat :: j < |p.ids| ==> (InRange(r.value, j) <==> InLevel(|p.ids|, p.selfIndex, level, j))
    ensures r.Some? ==> 0 <= r.value.0 <= r.value.1 + 1 <= |p.ids|
  {
    var maxLevel := MaxLevel(|p.ids|);
    if level < 0 || level > maxLevel {
      return None;
    }
    var min, max := 0, |p.ids| - 1;
    DescendInside(min, max, p.selfIndex, maxLevel, level);
    var cur := maxLevel;
    while cur >= level
      invariant level - 1 <= cur <= maxLevel
      invariant Descend(0, |p.ids| - 1, p.selfIndex, maxLevel, level) ==
        if cur >= level then Descend(min, max, p.selfIndex, cur, level) else (min, max)
    {
      var mid := (min + max) / 2;
      if cur == level {
        if p.selfIndex > mid {
          max := mid;
        } else {
          min := mid + 1;
        }
      } else {
        if p.selfIndex > mid {
          min := mid + 1;
        } else {
          max := mid;
        }
      }
      cur := cur - 1;
    }
    r := Some((min, max));
  }

  /** partition and size of a valid level. */
  method PartitionAt(p: Partitioner, level: nat) returns (part: seq<nat>, size: int)
    requires p.selfIndex < |p.ids| && level <= MaxLevel(|p.ids|)
    ensures size == |part|
    ensures forall x :: x in part <==> exists j: nat :: j < |p.ids| && InLevel(|p.ids|, p.selfIndex, level, j) && p.ids[j] == x
  {
    var r := RangeLevel(p, level);
    var (min, max) := r.value;
    part := p.ids[min..max + 1];
    size := max - min + 1;
    forall x | x in part ensures exists j: nat :: j < |p.ids| && InLevel(|p.ids|, p.selfIndex, level, j) && p.ids[j] == x {
      var k :| 0 <= k < |part| && part[k] == x;
      var j: nat := min + k;
      assert p.ids[j] == x && InRange(r.value, j);
    }
  }
}
