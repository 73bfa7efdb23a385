/**
 genPartitionSizes of twins/generator.go: the ways to split n nodes into at most
 k partitions, largest first.
 */
module PartitionSizes {
  type uint8 = x: int | 0 <= x < 256

  function Sum(s: seq<uint8>): nat {
    if s == [] then 0 else s[0] as int + Sum(s[1..])
  }

  function Zeros(n: nat): (z: seq<uint8>)
    ensures |z| == n
  {
    if n == 0 then [] else [0] + Zeros(n - 1)
  }

  function Least(a: uint8, b: uint8): uint8 {
    if a < b then a else b
  }

  ghost predicate NonIncreasing(s: seq<uint8>) {
    forall i, j :: 0 <= i < j < |s| ==> s[i] >= s[j]
  }

  /** A split of n into at most k parts, largest first, the first at least minSize if n allows. */
  ghost predicate IsSplit(q: seq<uint8>, n: nat, k: nat, minSize: nat) {
    |q| == k && Sum(q) == n && NonIncreasing(q) && (q != [] ==> q[0] >= minSize || q[0] == n)
  }

  // ----- what the recursion emits -----

  /** The largest size the loop tries after the fixed sizes p, and the smallest. */
  function Top(p: seq<uint8>, n: uint8): uint8
    requires n >= 1 || p == []
  {
    if p == [] then Wrap(n - 1) else Least(n - 1, p[|p| - 1])
  }

  /** Eight-bit arithmetic. */
  function Wrap(x: int): uint8 {
    x % 256
  }

  /** How many nodes the first loop divides; 0 less one wraps, and counts as 256 less one. */
  function Left(n: uint8): nat {
    if n == 0 then 256 else n
  }

  function Low(p: seq<uint8>, minSize: uint8): uint8 {
    if p == [] then minSize else 1
  }

  function Here(p: seq<uint8>, n: uint8, k: nat): seq<seq<uint8>>
    requires |p| < k
  {
    if p == [] || p[|p| - 1] >= n then [p + [n] + Zeros(k - |p| - 1)] else []
  }

  /** What the recursion emits once the sizes p are fixed and n nodes are left. */
  function Emit(p: seq<uint8>, n: uint8, k: nat, minSize: uint8): seq<seq<uint8>>
    requires |p| < k && (n >= 1 || p == []) && (minSize >= 1 || k == 1)
    decreases k - |p|, 256
  {
    Here(p, n, k) + if |p| + 1 < k then Loop(p, Left(n), k, minSize, Top(p, n)) else []
  }

  function Loop(p: seq<uint8>, n: nat, k: nat, minSize: uint8, m: uint8): seq<seq<uint8>>
    requires |p| + 1 < k && 1 <= n <= 256 && minSize >= 1 && m < n
    decreases k - |p|, m
  {
    if m < Low(p, minSize) then [] else Emit(p + [m], n - m, k, minSize) + Loop(p, n, k, minSize, m - 1)
  }

  /** t goes down from at most cap and adds up to n. */
  ghost predicate Down(t: seq<uint8>, cap: nat, n: nat) {
    if t == [] then n == 0 else t[0] <= cap && t[0] <= n && Down(t[1..], t[0], n - t[0])
  }

  lemma {:induction false} DownIs(t: seq<uint8>, cap: nat, n: nat)
    ensures Down(t, cap, n) <==> Sum(t) == n && NonIncreasing(t) && (t != [] ==> t[0] <= cap)
  {
    if t != [] {
      if t[0] <= n {
        DownIs(t[1..], t[0], n - t[0]);
      }
      assert forall i :: 1 <= i < |t| ==> t[i] == t[1..][i - 1];
      if NonIncreasing(t[1..]) && (|t| > 1 ==> t[1] <= t[0]) {
        assert forall j :: 1 <= j < |t| ==> t[0] >= t[j];
      }
    }
  }

  lemma {:induction false} DownZeros(t: seq<uint8>, cap: nat)
    ensures Down(t, cap, 0) <==> t == Zeros(|t|)
  {
    if t != [] {
      DownZeros(t[1..], t[0]);
      assert t == [t[0]] + t[1..];
    }
  }

  lemma {:induction false} DownFromZero(t: seq<uint8>, n: nat)
    requires Down(t, 0, n)
    ensures n == 0
  {
    if t != [] {
      DownFromZero(t[1..], n);
    }
  }

  function Cap(p: seq<uint8>): nat {
    if p == [] then 255 else p[|p| - 1]
  }

  /** q completes the fixed sizes p with n more nodes. */
  ghost predicate Completes(q: seq<uint8>, p: seq<uint8>, n: nat, k: nat, minSize: uint8)
    requires |p| < k
  {
    |q| == k && p <= q && Down(q[|p|..], Cap(p), n) && (p == [] ==> q[0] >= minSize || q[0] == n)
  }

  /** The next size of a completion: all that is left, followed by zeros, or less, followed by a completion. */
  lemma CompletesSplits(q: seq<uint8>, p: seq<uint8>, n: uint8, k: nat, minSize: uint8)
    requires |p| < k && n >= 1 && (minSize >= 1 || k == 1)
    ensures Completes(q, p, n, k, minSize) <==> q in Here(p, n, k) || (|p| + 1 < k && FromLoop(q, p, n, k, minSize, Top(p, n)))
  {
    if |q| == k && p <= q {
      var v, t := q[|p|], q[|p|..];
      assert t[1..] == q[|p| + 1..] && (p + [v])[|p|] == v;
      DownZeros(t[1..], t[0]);
      assert Down(t, Cap(p), n) <==> v <= Cap(p) && v <= n && Down(t[1..], v, n - v);
      assert q[..|p| + 1] == p + [v] && (|p| + 1 == k ==> t[1..] == []);
      if v == n {
        assert q == p + [n] + Zeros(k - |p| - 1) <==> t[1..] == Zeros(k - |p| - 1);
      } else {
        assert q !in Here(p, n, k) by {
          assert (p + [n] + Zeros(k - |p| - 1))[|p|] == n;
        }
        if v == 0 && Down(t[1..], 0, n) {
          DownFromZero(t[1..], n);
        }
        assert p == q[..|p|] && p < q;
      }
    }
  }

  /** Everything emitted has the fixed sizes in front. */
  lemma {:induction false} EmitExact(p: seq<uint8>, n: uint8, k: nat, minSize: uint8, q: seq<uint8>)
    requires |p| < k && n >= 1 && (minSize >= 1 || k == 1)
    ensures q in Emit(p, n, k, minSize) <==> Completes(q, p, n, k, minSize)
    decreases k - |p|, 256
  {
    CompletesSplits(q, p, n, k, minSize);
    if |p| + 1 < k {
      LoopExact(p, n, k, minSize, Top(p, n), q);
    }
  }

  ghost predicate FromLoop(q: seq<uint8>, p: seq<uint8>, n: nat, k: nat, minSize: uint8, m: uint8)
    requires |p| + 1 < k && m < n
  {
    |q| == k && p < q && Low(p, minSize) <= q[|p|] <= m && Completes(q, p + [q[|p|]], n - q[|p|], k, minSize)
  }

  lemma {:induction false} LoopExact(p: seq<uint8>, n: nat, k: nat, minSize: uint8, m: uint8, q: seq<uint8>)
    requires |p| + 1 < k && 1 <= n <= 256 && minSize >= 1 && m < n
    ensures q in Loop(p, n, k, minSize, m) <==> FromLoop(q, p, n, k, minSize, m)
    decreases k - |p|, m
  {
    if m >= Low(p, minSize) {
      EmitExact(p + [m], n - m, k, minSize, q);
      LoopExact(p, n, k, minSize, m - 1, q);
      LoopStep(p, n, k, minSize, m, q);
    }
  }

  lemma LoopStep(p: seq<uint8>, n: nat, k: nat, minSize: uint8, m: uint8, q: seq<uint8>)
    requires |p| + 1 < k && 1 <= n <= 256 && minSize >= 1 && m < n && Low(p, minSize) <= m
    requires q in Emit(p + [m], n - m, k, minSize) <==> Completes(q, p + [m], n - m, k, minSize)
    requires q in Loop(p, n, k, minSize, m - 1) <==> FromLoop(q, p, n, k, minSize, m - 1)
    ensures q in Loop(p, n, k, minSize, m) <==> FromLoop(q, p, n, k, minSize, m)
  {
    LoopMembers(p, n, k, minSize, m, q);
    FromLoopStep(q, p, n, k, minSize, m);
  }

  lemma LoopUnfolds(p: seq<uint8>, n: nat, k: nat, minSize: uint8, m: uint8, before: seq<seq<uint8>>)
    requires |p| + 1 < k && 1 <= n <= 256 && minSize >= 1 && m < n && Low(p, minSize) <= m
    ensures before + Loop(p, n, k, minSize, m) == (before + Emit(p + [m], n - m, k, minSize)) + Loop(p, n, k, minSize, m - 1)
  {
  }

  lemma LoopMembers(p: seq<uint8>, n: nat, k: nat, minSize: uint8, m: uint8, q: seq<uint8>)
    requires |p| + 1 < k && 1 <= n <= 256 && minSize >= 1 && m < n && Low(p, minSize) <= m
    ensures q in Loop(p, n, k, minSize, m) <==> q in Emit(p + [m], n - m, k, minSize) || q in Loop(p, n, k, minSize, m - 1)
  {
  }

  lemma FromLoopStep(q: seq<uint8>, p: seq<uint8>, n: nat, k: nat, minSize: uint8, m: uint8)
    requires |p| + 1 < k && m < n && Low(p, minSize) <= m && minSize >= 1
    ensures FromLoop(q, p, n, k, minSize, m) <==> Completes(q, p + [m], n - m, k, minSize) || FromLoop(q, p, n, k, minSize, m - 1)
  {
    if Completes(q, p + [m], n - m, k, minSize) {
      assert q[|p|] == (p + [m])[|p|] && p == (p + [m])[..|p|] && p == q[..|p|];
    }
  }

  ghost predicate Distinct(qs: seq<seq<uint8>>) {
    forall i, j :: 0 <= i < j < |qs| ==> qs[i] != qs[j]
  }

  lemma DistinctJoin(a: seq<seq<uint8>>, b: seq<seq<uint8>>)
    requires Distinct(a) && Distinct(b) && forall q :: !(q in a && q in b)
    ensures Distinct(a + b)
  {
    forall i, j | 0 <= i < j < |a + b| ensures (a + b)[i] != (a + b)[j] {
      if i < |a| <= j {
        assert a[i] in a && b[j - |a|] in b;
      }
    }
  }

  lemma {:induction false} EmitOnce(p: seq<uint8>, n: uint8, k: nat, minSize: uint8)
    requires |p| < k && (n >= 1 || p == []) && (minSize >= 1 || k == 1)
    ensures Distinct(Emit(p, n, k, minSize))
    decreases k - |p|, 256
  {
    if |p| + 1 < k {
      LoopOnce(p, Left(n), k, minSize, Top(p, n));
      forall q ensures !(q in Here(p, n, k) && q in Loop(p, Left(n), k, minSize, Top(p, n))) {
        LoopExact(p, Left(n), k, minSize, Top(p, n), q);
        if q in Here(p, n, k) {
          assert q[|p|] == n;
        }
      }
      DistinctJoin(Here(p, n, k), Loop(p, Left(n), k, minSize, Top(p, n)));
    }
  }

  lemma {:induction false} LoopOnce(p: seq<uint8>, n: nat, k: nat, minSize: uint8, m: uint8)
    requires |p| + 1 < k && 1 <= n <= 256 && minSize >= 1 && m < n
    ensures Distinct(Loop(p, n, k, minSize, m))
    decreases k - |p|, m
  {
    if m >= Low(p, minSize) {
      var a, b := Emit(p + [m], n - m, k, minSize), Loop(p, n, k, minSize, m - 1);
      EmitOnce(p + [m], n - m, k, minSize);
      LoopOnce(p, n, k, minSize, m - 1);
      forall q ensures !(q in a && q in b) {
        EmitExact(p + [m], n - m, k, minSize, q);
        LoopExact(p, n, k, minSize, m - 1, q);
      }
      DistinctJoin(a, b);
    }
  }

  /** What is listed for n: the splits of n, and for 0, where eight bits wrap, also those of 256. */
  ghost predicate IsListed(q: seq<uint8>, n: uint8, k: nat, minSize: uint8) {
    IsSplit(q, n, k, minSize) || (n == 0 && IsSplit(q, 256, k, minSize))
  }

  /** The list holds every split of n into at most k parts with first part at least minSize, each once, and nothing else. */
  lemma SizesAreExact(n: uint8, k: nat, minSize: uint8)
    requires k >= 1 && (minSize >= 1 || k == 1)
    ensures forall q :: q in Emit([], n, k, minSize) <==> IsListed(q, n, k, minSize)
    ensures Distinct(Emit([], n, k, minSize))
  {
    EmitOnce([], n, k, minSize);
    forall q ensures q in Emit([], n, k, minSize) <==> IsListed(q, n, k, minSize) {
      DownIs(q, 255, n);
      assert q[0..] == q;
      if n >= 1 {
        EmitExact([], n, k, minSize, q);
      } else {
        ZeroListed(q, k, minSize);
      }
    }
  }

  lemma FirstFromLoop(q: seq<uint8>, k: nat, minSize: uint8)
    requires k > 1 && |q| == k && minSize >= 1
    ensures FromLoop(q, [], 256, k, minSize, 255) <==> minSize <= q[0] && Down(q[1..], q[0], 256 - q[0])
  {
    assert [] + [q[0]] == [q[0]] && q[..1] == [q[0]];
  }

  lemma ZeroListed(q: seq<uint8>, k: nat, minSize: uint8)
    requires k >= 1 && (minSize >= 1 || k == 1)
    ensures q in Emit([], 0, k, minSize) <==> IsListed(q, 0, k, minSize)
  {
    DownIs(q, 255, 0);
    DownZeros(q, 255);
    DownIs(q, 255, 256);
    assert [] + [0] + Zeros(k - 1) == Zeros(k);
    assert Here([], 0, k) == [Zeros(k)];
    if k > 1 {
      LoopExact([], 256, k, minSize, 255, q);
      if |q| == k {
        FirstFromLoop(q, k, minSize);
      }
    } else if |q| == 1 {
      assert q == [q[0]] && q[1..] == [];
    }
  }

  method Less(n: uint8, m: uint8) returns (rest: uint8)
    requires 1 <= m < Left(n)
    ensures rest == Left(n) - m
  {
    rest := Wrap(n - m);
  }

  // ----- the recursion as the source writes it, appending to one shared list -----

  class SizeList {
    var sizes: seq<seq<uint8>>

    constructor ()
      ensures sizes == []
    {
      sizes := [];
    }

    method Recurse(i: nat, n: uint8, minSize: uint8, state: seq<uint8>)
      requires i < |state| && (n >= 1 || i == 0) && (minSize >= 1 || |state| == 1) && state[i..] == Zeros(|state| - i)
      modifies this
      ensures sizes == old(sizes) + Emit(state[..i], n, |state|, minSize)
      decreases |state| - i, 0
    {
      var s := state[i := n];
      ghost var p, k := state[..i], |state|;
      assert s == p + [n] + Zeros(k - i - 1) by {
        assert forall j :: i <= j < k ==> state[j] == state[i..][j - i];
      }
      if i == 0 || s[i - 1] >= n {
        sizes := sizes + [s];
      }
      var m := Wrap(n - 1);
      if i > 0 {
        m := Least(m, s[i - 1]);
      }
      assert sizes == old(sizes) + Here(p, n, k) && m == Top(p, n);
      if i + 1 < |s| {
        Descend(i, n, minSize, s, m);
        assert s[..i] == p;
        assert old(sizes) + Here(p, n, k) + Loop(p, Left(n), k, minSize, m) ==
          old(sizes) + (Here(p, n, k) + Loop(p, Left(n), k, minSize, m));
      }
    }

    /** The loop that tries sizes m, m-1, ... at index i and recurses. */
    method Descend(i: nat, n: uint8, minSize: uint8, s: seq<uint8>, top: uint8)
      requires i + 1 < |s| && minSize >= 1 && top < Left(n) && s[i + 1..] == Zeros(|s| - i - 1)
      modifies this
      ensures sizes == old(sizes) + Loop(s[..i], Left(n), |s|, minSize, top)
      decreases |s| - i - 1, 2
    {
      var m: uint8 := top;
      ghost var p, left, k := s[..i], Left(n), |s|;
      while (i == 0 && m >= minSize) || (i != 0 && m > 0)
        invariant m <= top
        invariant sizes + Loop(p, left, k, minSize, m) == old(sizes) + Loop(p, left, k, minSize, top)
        decreases m
      {
        LoopUnfolds(p, left, k, minSize, m, sizes);
        Try(i, n, minSize, s, m);
        m := m - 1;
      }
    }

    method Try(i: nat, n: uint8, minSize: uint8, s: seq<uint8>, m: uint8)
      requires i + 1 < |s| && minSize >= 1 && 1 <= m < Left(n) && s[i + 1..] == Zeros(|s| - i - 1)
      modifies this
      ensures sizes == old(sizes) + Emit(s[..i] + [m], Left(n) - m, |s|, minSize)
      decreases |s| - i - 1, 1
    {
      var next := s[i := m];
      assert next[..i + 1] == s[..i] + [m] && next[i + 1..] == s[i + 1..];
      var rest := Less(n, m);
      Recurse(i + 1, rest, minSize, next);
    }
  }

  /** Without partitions the source panics, and with several of minimum size 0 its loop does not end. */
  method GenPartitionSizes(n: uint8, k: uint8, minSize: uint8) returns (sizes: seq<seq<uint8>>)
    requires k >= 1 && (minSize >= 1 || k == 1)
    ensures forall q :: q in sizes <==> IsListed(q, n, k, minSize)
    ensures Distinct(sizes)
  {
    var list := new SizeList();
    assert Zeros(k)[0..] == Zeros(k) && Zeros(k)[..0] == [];
    list.Recurse(0, n, minSize, Zeros(k));
    sizes := list.sizes;
    SizesAreExact(n, k, minSize);
  }
}
