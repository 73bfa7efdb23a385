/**
 The Twins scenario generator (twins/generator.go): node and network IDs, the
 assignments of twins to partitions, and the partition scenarios built from them.
 */
module Twins {
  import opened PartitionSizes

  datatype NodeID = NodeID(replicaID: nat, networkID: nat)

  datatype Assignment = Assignment(first: nat, second: nat)

  // ----- node IDs -----

  /** The first min(numTwins, numNodes) replicas get a twin; network IDs run on over twins and then nodes. */
  method AssignNodeIDs(numNodes: uint8, numTwins: uint8) returns (nodes: seq<NodeID>, twins: seq<NodeID>)
    ensures |twins| == 2 * Least(numNodes, numTwins) as int && |twins| / 2 + |nodes| == numNodes
    ensures forall i :: 0 <= i < |twins| ==> twins[i] == NodeID(i / 2 + 1, i + 1)
    ensures forall i :: 0 <= i < |nodes| ==> nodes[i] == NodeID(|twins| / 2 + i + 1, |twins| + i + 1)
  {
    nodes, twins := [], [];
    var replicaID, networkID, remaining := 1, 1, numTwins as int;
    var i := 0;
    while i < numNodes as int
      invariant 0 <= i <= numNodes as int
      invariant remaining == numTwins as int - |twins| / 2 >= 0 && |twins| % 2 == 0
      invariant |twins| / 2 + |nodes| == i && (nodes != [] ==> remaining == 0)
      invariant replicaID == i + 1 && networkID == |twins| + |nodes| + 1
      invariant forall t :: 0 <= t < |twins| ==> twins[t] == NodeID(t / 2 + 1, t + 1)
      invariant forall t :: 0 <= t < |nodes| ==> nodes[t] == NodeID(|twins| / 2 + t + 1, |twins| + t + 1)
    {
      if remaining > 0 {
        twins := twins + [NodeID(replicaID, networkID)];
        networkID := networkID + 1;
        twins := twins + [NodeID(replicaID, networkID)];
        remaining := remaining - 1;
      } else {
        nodes := nodes + [NodeID(replicaID, networkID)];
      }
      networkID := networkID + 1;
      replicaID := replicaID + 1;
      i := i + 1;
    }
  }

  /** Assigned network IDs never collide. */
  lemma AssignedIdsDistinct(nodes: seq<NodeID>, twins: seq<NodeID>)
    requires forall i :: 0 <= i < |twins| ==> twins[i] == NodeID(i / 2 + 1, i + 1)
    requires forall i :: 0 <= i < |nodes| ==> nodes[i] == NodeID(|twins| / 2 + i + 1, |twins| + i + 1)
    ensures DistinctIds(NetworkIDs(twins + nodes))
  {
    var ids := NetworkIDs(twins + nodes);
    forall i | 0 <= i < |ids| ensures ids[i] == i + 1 {
      assert i >= |twins| ==> (twins + nodes)[i] == nodes[i - |twins|];
    }
  }

  // ----- twin assignments -----

  /** All pairs of partitions with the first not above the second, in order. */
  method GenerateTwinPartitionPairs(n: nat) returns (pairs: seq<Assignment>)
    ensures forall a :: a in pairs <==> a.first <= a.second < n
    ensures forall i, j :: 0 <= i < j < |pairs| ==> pairs[i] != pairs[j]
  {
    pairs := [];
    for i := 0 to n
      invariant forall a :: a in pairs <==> a.first <= a.second < n && a.first < i
      invariant forall u, v :: 0 <= u < v < |pairs| ==> pairs[u] != pairs[v]
    {
      for j := i to n
        invariant forall a :: a in pairs <==> (a.first <= a.second < n && a.first < i) || (a.first == i && i <= a.second < j)
        invariant forall u, v :: 0 <= u < v < |pairs| ==> pairs[u] != pairs[v]
      {
        pairs := pairs + [Assignment(i, j)];
      }
    }
  }

  /** Nothing is listed twice. */
  ghost predicate NoRepeat<T>(list: seq<T>) {
    forall i, j :: 0 <= i < j < |list| ==> list[i] != list[j]
  }

  lemma OneMore<T>(list: seq<T>, x: T)
    requires NoRepeat(list) && x !in list
    ensures NoRepeat(list + [x])
  {
  }

  lemma Joined<T>(a: seq<T>, b: seq<T>)
    requires NoRepeat(a) && NoRepeat(b) && forall i, j :: 0 <= i < |a| && 0 <= j < |b| ==> a[i] != b[j]
    ensures NoRepeat(a + b)
  {
  }

  ghost predicate Chosen(a: seq<Assignment>, input: seq<seq<Assignment>>) {
    |a| == |input| && forall i :: 0 <= i < |a| ==> a[i] in input[i]
  }

  lemma ChosenHead(a: seq<Assignment>, input: seq<seq<Assignment>>)
    requires input != []
    ensures Chosen(a, input) <==> a != [] && a[0] in input[0] && Chosen(a[1..], input[1..])
  {
    if a != [] && a[0] in input[0] && Chosen(a[1..], input[1..]) {
      forall i | 0 <= i < |a| ensures a[i] in input[i] {
        if i > 0 {
          assert a[i] == a[1..][i - 1] && input[i] == input[1..][i - 1];
        }
      }
    }
  }

  /** Every way to choose one entry of each list, each way once if no list has an entry twice. */
  method CartesianProduct(input: seq<seq<Assignment>>) returns (output: seq<seq<Assignment>>)
    ensures forall a :: a in output <==> Chosen(a, input)
    ensures (forall i :: 0 <= i < |input| ==> NoRepeat(input[i])) ==> NoRepeat(output)
    decreases |input|
  {
    if input == [] {
      return [[]];
    }
    var r := CartesianProduct(input[1..]);
    output := [];
    for i := 0 to |input[0]|
      invariant forall a :: a in output <==> a != [] && a[0] in input[0][..i] && a[1..] in r
      invariant NoRepeat(input[0]) && NoRepeat(r) ==> NoRepeat(output)
    {
      output := Prepend(output, input[0][i], r);
      assert input[0][..i + 1] == input[0][..i] + [input[0][i]];
    }
    assert input[0][..|input[0]|] == input[0];
    forall a ensures a in output <==> Chosen(a, input) {
      ChosenHead(a, input);
    }
  }

  method Prepend(before: seq<seq<Assignment>>, v: Assignment, r: seq<seq<Assignment>>) returns (output: seq<seq<Assignment>>)
    ensures forall a :: a in output <==> a in before || (a != [] && a[0] == v && a[1..] in r)
    ensures NoRepeat(before) && NoRepeat(r) && (forall a :: a in before ==> a != [] && a[0] != v) ==> NoRepeat(output)
  {
    output := before;
    for j := 0 to |r|
      invariant forall a :: a in output <==> a in before || (a != [] && a[0] == v && a[1..] in r[..j])
      invariant NoRepeat(before) && NoRepeat(r) && (forall a :: a in before ==> a != [] && a[0] != v) ==> NoRepeat(output)
    {
      var x := [v] + r[j];
      assert x[1..] == r[j];
      output := output + [x];
      assert r[..j + 1] == r[..j] + [r[j]] && x[1..] == r[j];
      assert forall a :: a != [] && a[0] == v && a[1..] == r[j] ==> a == [v] + a[1..];
    }
    assert r[..|r|] == r;
  }

  /** The partition of each twin: first and second of each pair in turn. */
  function Slots(a: seq<Assignment>): (s: seq<nat>)
    ensures |s| == 2 * |a|
  {
    if a == [] then [] else Slots(a[..|a| - 1]) + [a[|a| - 1].first, a[|a| - 1].second]
  }

  /** No partition is given more twins than it has room for. */
  ghost predicate Fitting(slots: seq<nat>, sizes: seq<uint8>) {
    && (forall i :: 0 <= i < |slots| ==> slots[i] < |sizes|)
    && (forall p :: 0 <= p < |sizes| ==> multiset(slots)[p] <= sizes[p] as int)
  }

  lemma FittingPrefix(s: seq<nat>, t: seq<nat>, sizes: seq<uint8>)
    requires s <= t && Fitting(t, sizes)
    ensures Fitting(s, sizes)
  {
    assert t == s + t[|s|..];
  }

  lemma {:induction false} SlotsPrefix(a: seq<Assignment>, i: nat)
    requires i <= |a|
    ensures Slots(a[..i]) <= Slots(a)
  {
    if i < |a| {
      SlotsPrefix(a[..|a| - 1], i);
      assert a[..|a| - 1][..i] == a[..i];
    } else {
      assert a[..i] == a;
    }
  }

  /** The room left is the sizes less what the slots used. */
  ghost predicate Room(ps: seq<int>, sizes: seq<uint8>, slots: seq<nat>) {
    |ps| == |sizes| && forall p :: 0 <= p < |ps| ==> ps[p] == sizes[p] as int - multiset(slots)[p]
  }

  /** Taking one more place succeeds exactly when the slots still fit with it. */
  lemma TakeSlot(ps: seq<int>, sizes: seq<uint8>, slots: seq<nat>, p: nat)
    requires Room(ps, sizes, slots) && Fitting(slots, sizes)
    ensures Fitting(slots + [p], sizes) <==> p < |sizes| && ps[p] != 0
    ensures p < |sizes| && ps[p] != 0 ==> Room(ps[p := ps[p] - 1], sizes, slots + [p])
  {
    assert multiset(slots + [p]) == multiset(slots) + multiset{p};
    if Fitting(slots + [p], sizes) {
      assert (slots + [p])[|slots|] < |sizes|;
    }
  }

  /** Takes one place in a partition, if there is one. */
  method Take(ps: seq<int>, sizes: seq<uint8>, p: nat, ghost slots: seq<nat>) returns (ok: bool, ps': seq<int>)
    requires Room(ps, sizes, slots) && Fitting(slots, sizes)
    ensures ok <==> Fitting(slots + [p], sizes)
    ensures ok ==> Room(ps', sizes, slots + [p])
  {
    TakeSlot(ps, sizes, slots, p);
    if p >= |sizes| || ps[p] == 0 {
      return false, ps;
    }
    return true, ps[p := ps[p] - 1];
  }

  lemma SlotsSnoc(a: seq<Assignment>, x: Assignment)
    ensures Slots(a + [x]) == Slots(a) + [x.first] + [x.second]
  {
    assert (a + [x])[..|a|] == a;
    assert [x.first] + [x.second] == [x.first, x.second];
  }

  lemma PrefixChain(s: seq<nat>, x: nat, y: nat, t: seq<nat>)
    requires s + [x] + [y] <= t
    ensures s + [x] <= t
  {
    assert t[..|s| + 1] == (s + [x] + [y])[..|s| + 1] == s + [x];
  }

  lemma SlotsStep(a: seq<Assignment>, i: nat)
    requires i < |a|
    ensures Slots(a[..i + 1]) == Slots(a[..i]) + [a[i].first] + [a[i].second]
  {
    SlotsSnoc(a[..i], a[i]);
    assert a[..i + 1] == a[..i] + [a[i]];
  }

  lemma SlotsWithin(a: seq<Assignment>, i: nat, s: seq<nat>)
    requires i < |a| && Slots(a[..i + 1]) == s + [a[i].first] + [a[i].second]
    ensures s + [a[i].first] <= Slots(a) && s + [a[i].first] + [a[i].second] <= Slots(a)
  {
    SlotsPrefix(a, i + 1);
    PrefixChain(s, a[i].first, a[i].second, Slots(a));
  }

  method IsValidTwinAssignment(a: seq<Assignment>, sizes: seq<uint8>) returns (ok: bool)
    ensures ok <==> Fitting(Slots(a), sizes)
  {
    var ps: seq<int> := seq(|sizes|, i requires 0 <= i < |sizes| => sizes[i] as int);
    assert a[..0] == [];
    for i := 0 to |a|
      invariant Room(ps, sizes, Slots(a[..i])) && Fitting(Slots(a[..i]), sizes)
    {
      SlotsStep(a, i);
      ghost var s := Slots(a[..i]);
      SlotsWithin(a, i, s);
      ok, ps := Take(ps, sizes, a[i].first, s);
      if !ok {
        Overfull(s + [a[i].first], Slots(a), sizes);
        return;
      }
      ok, ps := Take(ps, sizes, a[i].second, s + [a[i].first]);
      if !ok {
        Overfull(s + [a[i].first] + [a[i].second], Slots(a), sizes);
        return;
      }
    }
    assert a[..|a|] == a;
    ok := true;
  }

  lemma Overfull(s: seq<nat>, t: seq<nat>, sizes: seq<uint8>)
    requires s <= t && !Fitting(s, sizes)
    ensures !Fitting(t, sizes)
  {
    if Fitting(t, sizes) {
      FittingPrefix(s, t, sizes);
    }
  }

  // ----- partition scenarios -----

  type Partitions = seq<set<nat>>

  ghost predicate InSome(parts: Partitions, x: nat) {
    exists p :: 0 <= p < |parts| && x in parts[p]
  }

  ghost predicate Apart(parts: Partitions) {
    forall p, q :: 0 <= p < q < |parts| ==> parts[p] !! parts[q]
  }

  /** Each of the ids is in exactly one partition, nothing else is in any, and partition p holds sizes[p] of them. */
  ghost predicate IsScenario(parts: Partitions, sizes: seq<uint8>, ids: set<nat>) {
    && |parts| == |sizes| && Apart(parts)
    && (forall x :: InSome(parts, x) <==> x in ids)
    && (forall p :: 0 <= p < |parts| ==> |parts[p]| == sizes[p] as int)
  }

  ghost predicate TwinsPlaced(parts: Partitions, slots: seq<nat>, ids: seq<nat>) {
    |slots| <= |ids| && forall i :: 0 <= i < |slots| ==> slots[i] < |parts| && ids[i] in parts[slots[i]]
  }

  function Total(parts: Partitions): nat {
    if parts == [] then 0 else |parts[0]| + Total(parts[1..])
  }

  lemma {:induction false} TotalAdd(parts: Partitions, p: nat, x: nat)
    requires p < |parts| && x !in parts[p]
    ensures Total(parts[p := parts[p] + {x}]) == Total(parts) + 1
  {
    var parts' := parts[p := parts[p] + {x}];
    if p == 0 {
      assert parts'[1..] == parts[1..];
    } else {
      TotalAdd(parts[1..], p - 1, x);
      assert parts'[1..] == parts[1..][p - 1 := parts[1..][p - 1] + {x}];
    }
  }

  ghost predicate Within(parts: Partitions, sizes: seq<uint8>) {
    |parts| == |sizes| && forall p :: 0 <= p < |parts| ==> |parts[p]| <= sizes[p] as int
  }

  lemma {:induction false} TotalWithin(parts: Partitions, sizes: seq<uint8>)
    requires Within(parts, sizes)
    ensures Total(parts) <= Sum(sizes)
    ensures (exists p :: 0 <= p < |parts| && |parts[p]| < sizes[p] as int) ==> Total(parts) < Sum(sizes)
    ensures (forall p :: 0 <= p < |parts| ==> |parts[p]| == sizes[p] as int) ==> Total(parts) == Sum(sizes)
  {
    if parts != [] {
      TotalWithin(parts[1..], sizes[1..]);
      if p :| 0 <= p < |parts| && |parts[p]| < sizes[p] as int {
        assert p > 0 ==> |parts[1..][p - 1]| < sizes[1..][p - 1] as int;
      }
      if forall p :: 0 <= p < |parts| ==> |parts[p]| == sizes[p] as int {
        forall p | 0 <= p < |parts[1..]| ensures |parts[1..][p]| == sizes[1..][p] as int {
          assert parts[1..][p] == parts[p + 1];
        }
      }
    }
  }

  /** The first ids of the list are placed, each once, and nothing else. */
  ghost predicate PlacedUpTo(parts: Partitions, ids: seq<nat>, n: nat) {
    n <= |ids| && Apart(parts) && Total(parts) == n && forall x :: InSome(parts, x) <==> x in ids[..n]
  }

  ghost predicate DistinctIds(ids: seq<nat>) {
    forall i, j :: 0 <= i < j < |ids| ==> ids[i] != ids[j]
  }

  lemma PlaceNext(parts: Partitions, ids: seq<nat>, n: nat, p: nat)
    requires PlacedUpTo(parts, ids, n) && n < |ids| && DistinctIds(ids) && p < |parts|
    ensures PlacedUpTo(parts[p := parts[p] + {ids[n]}], ids, n + 1)
    ensures ids[n] !in parts[p]
  {
    var x := ids[n];
    var parts' := parts[p := parts[p] + {x}];
    assert x !in ids[..n];
    assert !InSome(parts, x);
    TotalAdd(parts, p, x);
    assert ids[..n + 1] == ids[..n] + [x];
    forall y ensures InSome(parts', y) <==> y in ids[..n + 1] {
      if InSome(parts, y) {
        var q :| 0 <= q < |parts| && y in parts[q];
        assert y in parts'[q];
      }
      if y == x {
        assert y in parts'[p];
      }
    }
  }

  /** Puts each twin in the partition of its slot. */
  method PlaceTwins(k: nat, slots: seq<nat>, ids: seq<nat>) returns (parts: Partitions)
    requires |slots| <= |ids| && DistinctIds(ids) && forall i :: 0 <= i < |slots| ==> slots[i] < k
    ensures |parts| == k && PlacedUpTo(parts, ids, |slots|) && TwinsPlaced(parts, slots, ids)
    ensures forall p :: 0 <= p < k ==> |parts[p]| == multiset(slots)[p]
  {
    parts := seq(k, i => {});
    EmptyTotal(parts);
    for i := 0 to |slots|
      invariant |parts| == k && PlacedUpTo(parts, ids, i)
      invariant TwinsPlaced(parts, slots[..i], ids)
      invariant forall p :: 0 <= p < k ==> |parts[p]| == multiset(slots[..i])[p]
    {
      PlaceNext(parts, ids, i, slots[i]);
      assert slots[..i + 1] == slots[..i] + [slots[i]];
      parts := parts[slots[i] := parts[slots[i]] + {ids[i]}];
    }
    assert slots[..|slots|] == slots;
  }

  lemma {:induction false} EmptyTotal(parts: Partitions)
    requires forall p :: 0 <= p < |parts| ==> parts[p] == {}
    ensures Total(parts) == 0
  {
    if parts != [] {
      EmptyTotal(parts[1..]);
    }
  }

  /** Fills every partition up to its size with the nodes, in order. */
  method Fill(sizes: seq<uint8>, start: Partitions, slots: seq<nat>, ids: seq<nat>) returns (parts: Partitions)
    requires Within(start, sizes) && Sum(sizes) == |ids| && DistinctIds(ids)
    requires PlacedUpTo(start, ids, |slots|) && TwinsPlaced(start, slots, ids)
    ensures IsScenario(parts, sizes, set x | x in ids) && TwinsPlaced(parts, slots, ids)
  {
    parts := start;
    var node: nat := |slots|;
    for p := 0 to |parts|
      invariant |parts| == |start|
      invariant Within(parts, sizes) && PlacedUpTo(parts, ids, node) && TwinsPlaced(parts, slots, ids)
      invariant forall q :: 0 <= q < p ==> |parts[q]| == sizes[q] as int
    {
      while |parts[p]| < sizes[p] as int
        invariant |parts| == |start|
        invariant Within(parts, sizes) && PlacedUpTo(parts, ids, node) && TwinsPlaced(parts, slots, ids)
        invariant forall q :: 0 <= q < p ==> |parts[q]| == sizes[q] as int
        decreases sizes[p] as int - |parts[p]|
      {
        TotalWithin(parts, sizes);
        PlaceNext(parts, ids, node, p);
        parts := parts[p := parts[p] + {ids[node]}];
        node := node + 1;
      }
    }
    TotalWithin(parts, sizes);
    assert ids[..|ids|] == ids;
  }

  function NetworkIDs(nodes: seq<NodeID>): (ids: seq<nat>)
    ensures |ids| == |nodes|
  {
    seq(|nodes|, i requires 0 <= i < |nodes| => nodes[i].networkID)
  }

  /** One scenario: twins by their assignment, then nodes. */
  method BuildScenario(sizes: seq<uint8>, a: seq<Assignment>, ids: seq<nat>) returns (parts: Partitions)
    requires Fitting(Slots(a), sizes) && 2 * |a| <= |ids| && Sum(sizes) == |ids| && DistinctIds(ids)
    ensures IsScenario(parts, sizes, set x | x in ids) && TwinsPlaced(parts, Slots(a), ids)
  {
    var start := PlaceTwins(|sizes|, Slots(a), ids);
    parts := Fill(sizes, start, Slots(a), ids);
  }

  /** One entry per pair of twins: partitions below k, first not above second. */
  ghost predicate IsAssignment(a: seq<Assignment>, pairs: nat, k: nat) {
    |a| == pairs && forall i :: 0 <= i < |a| ==> a[i].first <= a[i].second < k
  }

  ghost predicate Matches(parts: Partitions, sizes: seq<uint8>, a: seq<Assignment>, ids: seq<nat>) {
    IsScenario(parts, sizes, set x | x in ids) && TwinsPlaced(parts, Slots(a), ids)
  }

  method TwinAssignments(pairs: nat, k: nat) returns (list: seq<seq<Assignment>>)
    ensures (forall a :: a in list <==> IsAssignment(a, pairs, k)) && NoRepeat(list)
  {
    if pairs == 0 {
      return [[]];
    }
    var ways := GenerateTwinPartitionPairs(k);
    var input := seq(pairs, i => ways);
    list := CartesianProduct(input);
    forall a ensures Chosen(a, input) <==> IsAssignment(a, pairs, k) {
    }
  }

  ghost predicate Explained(s: Partitions, q: seq<uint8>, pairs: nat, k: nat, ids: seq<nat>) {
    exists a :: IsAssignment(a, pairs, k) && Fitting(Slots(a), q) && Matches(s, q, a, ids)
  }

  ghost predicate Covered(out: seq<Partitions>, q: seq<uint8>, a: seq<Assignment>, ids: seq<nat>) {
    exists s :: s in out && Matches(s, q, a, ids)
  }

  lemma {:induction false} SlotsInjective(a: seq<Assignment>, b: seq<Assignment>)
    requires |a| == |b| && Slots(a) == Slots(b)
    ensures a == b
  {
    if a != [] {
      var n := |a| - 1;
      assert Slots(a)[..2 * n] == Slots(a[..n]) && Slots(b)[..2 * n] == Slots(b[..n]);
      SlotsInjective(a[..n], b[..n]);
      assert Slots(a)[2 * n] == a[n].first && Slots(a)[2 * n + 1] == a[n].second;
      assert Slots(b)[2 * n] == b[n].first && Slots(b)[2 * n + 1] == b[n].second;
      assert a == a[..n] + [a[n]] && b == b[..n] + [b[n]];
    }
  }

  /** A scenario tells which assignment it is of, and which sizes. */
  lemma ScenarioTells(s: Partitions, q: seq<uint8>, a: seq<Assignment>, q': seq<uint8>, a': seq<Assignment>, ids: seq<nat>)
    requires Matches(s, q, a, ids) && Matches(s, q', a', ids) && |a| == |a'|
    ensures q == q' && a == a'
  {
    forall i | 0 <= i < |Slots(a)| ensures Slots(a)[i] == Slots(a')[i] {
      var u, v := Slots(a)[i], Slots(a')[i];
      assert ids[i] in s[u] && ids[i] in s[v];
    }
    SlotsInjective(a, a');
  }

  ghost predicate From(s: Partitions, q: seq<uint8>, done: seq<seq<Assignment>>, ids: seq<nat>) {
    exists a :: a in done && Matches(s, q, a, ids)
  }

  lemma NewScenario(out: seq<Partitions>, s: Partitions, q: seq<uint8>, list: seq<seq<Assignment>>, j: nat, ids: seq<nat>)
    requires j < |list| && NoRepeat(list) && (forall i :: 0 <= i < |list| ==> |list[i]| == |list[j]|)
    requires Matches(s, q, list[j], ids) && forall x :: x in out ==> From(x, q, list[..j], ids)
    ensures s !in out
  {
    if s in out {
      var a :| a in list[..j] && Matches(s, q, a, ids);
      ScenarioTells(s, q, a, q, list[j], ids);
    }
  }

  /** The scenarios of one vector of sizes, each once. */
  method ScenariosFor(q: seq<uint8>, list: seq<seq<Assignment>>, pairs: nat, ids: seq<nat>) returns (out: seq<Partitions>)
    requires (forall a :: a in list <==> IsAssignment(a, pairs, |q|)) && NoRepeat(list)
    requires 2 * pairs <= |ids| && Sum(q) == |ids| && DistinctIds(ids)
    ensures forall s :: s in out ==> Explained(s, q, pairs, |q|, ids)
    ensures forall a :: IsAssignment(a, pairs, |q|) && Fitting(Slots(a), q) ==> Covered(out, q, a, ids)
    ensures NoRepeat(out)
  {
    out := [];
    for j := 0 to |list|
      invariant AllFrom(out, q, list[..j], ids) && NoRepeat(out)
      invariant forall s :: s in out ==> Explained(s, q, pairs, |q|, ids)
      invariant forall a :: a in list[..j] && Fitting(Slots(a), q) ==> Covered(out, q, a, ids)
    {
      assert list[j] in list && list[..j + 1] == list[..j] + [list[j]];
      ghost var before := out;
      var ok := IsValidTwinAssignment(list[j], q);
      if ok {
        var s := BuildScenario(q, list[j], ids);
        assert Explained(s, q, pairs, |q|, ids);
        AddScenario(out, s, q, list, j, pairs, ids);
        out := out + [s];
        assert s in out;
      } else {
        FromMore(out, q, list, j, ids);
      }
      forall a | a in list[..j + 1] && Fitting(Slots(a), q) ensures Covered(out, q, a, ids) {
        if a in list[..j] {
          var s :| s in before && Matches(s, q, a, ids);
          assert s in out;
        }
      }
    }
    assert list[..|list|] == list;
  }

  ghost predicate AllFrom(out: seq<Partitions>, q: seq<uint8>, done: seq<seq<Assignment>>, ids: seq<nat>) {
    forall s :: s in out ==> From(s, q, done, ids)
  }

  lemma FromMore(out: seq<Partitions>, q: seq<uint8>, list: seq<seq<Assignment>>, j: nat, ids: seq<nat>)
    requires j < |list| && AllFrom(out, q, list[..j], ids)
    ensures AllFrom(out, q, list[..j + 1], ids)
  {
    forall s | s in out ensures From(s, q, list[..j + 1], ids) {
      var a :| a in list[..j] && Matches(s, q, a, ids);
      assert a in list[..j + 1];
    }
  }

  lemma AddScenario(out: seq<Partitions>, s: Partitions, q: seq<uint8>, list: seq<seq<Assignment>>, j: nat, pairs: nat, ids: seq<nat>)
    requires j < |list| && NoRepeat(list) && (forall a :: a in list ==> |a| == pairs)
    requires Matches(s, q, list[j], ids) && AllFrom(out, q, list[..j], ids) && NoRepeat(out)
    ensures NoRepeat(out + [s]) && AllFrom(out + [s], q, list[..j + 1], ids)
  {
    NewScenario(out, s, q, list, j, ids);
    OneMore(out, s);
    FromMore(out, q, list, j, ids);
    assert list[..j + 1][j] == list[j];
    assert From(s, q, list[..j + 1], ids);
  }

  ghost predicate AllExplained(out: seq<Partitions>, sizes: seq<seq<uint8>>, pairs: nat, k: nat, ids: seq<nat>) {
    forall s :: s in out ==> exists q :: q in sizes && Explained(s, q, pairs, k, ids)
  }

  ghost predicate AllCovered(out: seq<Partitions>, sizes: seq<seq<uint8>>, pairs: nat, k: nat, ids: seq<nat>) {
    forall q, a :: q in sizes && IsAssignment(a, pairs, k) && Fitting(Slots(a), q) ==> Covered(out, q, a, ids)
  }

  /** Scenarios of different sizes differ. */
  lemma ScenariosApart(out: seq<Partitions>, more: seq<Partitions>, sizes: seq<seq<uint8>>, q: seq<uint8>, pairs: nat, k: nat, ids: seq<nat>)
    requires NoRepeat(out) && NoRepeat(more) && q !in sizes
    requires AllExplained(out, sizes, pairs, k, ids) && AllExplained(more, [q], pairs, k, ids)
    ensures NoRepeat(out + more)
  {
    forall i, j | 0 <= i < |out| && 0 <= j < |more| ensures out[i] != more[j] {
      var s, s' := out[i], more[j];
      assert s in out && s' in more;
      var q1 :| q1 in sizes && Explained(s, q1, pairs, k, ids);
      assert Explained(s', q, pairs, k, ids);
      var a1 :| IsAssignment(a1, pairs, k) && Matches(s, q1, a1, ids);
      var a2 :| IsAssignment(a2, pairs, k) && Matches(s', q, a2, ids);
      if s == s' {
        ScenarioTells(s, q1, a1, q, a2, ids);
      }
    }
    Joined(out, more);
  }

  lemma CoveredGrows(out: seq<Partitions>, more: seq<Partitions>, q: seq<uint8>, a: seq<Assignment>, ids: seq<nat>)
    requires Covered(out, q, a, ids) || Covered(more, q, a, ids)
    ensures Covered(out + more, q, a, ids)
  {
    var s :| (s in out || s in more) && Matches(s, q, a, ids);
    assert s in out + more;
  }

  lemma AllCoveredStep(out: seq<Partitions>, more: seq<Partitions>, sizes: seq<seq<uint8>>, q0: seq<uint8>, pairs: nat, k: nat, ids: seq<nat>)
    requires AllCovered(out, sizes, pairs, k, ids) && AllCovered(more, [q0], pairs, k, ids)
    ensures AllCovered(out + more, sizes + [q0], pairs, k, ids)
  {
    forall q, a | q in sizes + [q0] && IsAssignment(a, pairs, k) && Fitting(Slots(a), q) ensures Covered(out + more, q, a, ids) {
      if q !in sizes {
        assert q in [q0];
      }
      CoveredGrows(out, more, q, a, ids);
    }
  }

  /**
   Partition scenarios. Every scenario puts each network ID in exactly one of at
   most k partitions whose sizes are a split of all the nodes, with the twins where
   a valid assignment says; every split and valid assignment has a scenario; and no
   scenario is listed twice.
   */
  method GenPartitionScenarios(twins: seq<NodeID>, nodes: seq<NodeID>, k: uint8, minSize: uint8) returns (out: seq<Partitions>)
    requires k >= 1 && (minSize >= 1 || k == 1) && |twins| % 2 == 0 && 1 <= |twins| + |nodes| <= 255
    requires DistinctIds(NetworkIDs(twins + nodes))
    ensures var ids, n := NetworkIDs(twins + nodes), |twins| + |nodes|;
      && (forall s :: s in out ==> exists q :: IsSplit(q, n, k, minSize) && Explained(s, q, |twins| / 2, k, ids))
      && (forall q, a :: IsSplit(q, n, k, minSize) && IsAssignment(a, |twins| / 2, k) && Fitting(Slots(a), q) ==> Covered(out, q, a, ids))
      && NoRepeat(out)
  {
    var n: uint8 := |twins| + |nodes|;
    var ids, pairs := NetworkIDs(twins + nodes), |twins| / 2;
    var list := TwinAssignments(pairs, k);
    var sizes := GenPartitionSizes(n, k, minSize);
    out := AllScenarios(sizes, list, pairs, k, ids);
  }

  method AllScenarios(sizes: seq<seq<uint8>>, list: seq<seq<Assignment>>, pairs: nat, k: nat, ids: seq<nat>) returns (out: seq<Partitions>)
    requires (forall a :: a in list <==> IsAssignment(a, pairs, k)) && NoRepeat(list) && Distinct(sizes)
    requires 2 * pairs <= |ids| && DistinctIds(ids) && forall q :: q in sizes ==> Sum(q) == |ids| && |q| == k
    ensures AllExplained(out, sizes, pairs, k, ids) && AllCovered(out, sizes, pairs, k, ids) && NoRepeat(out)
  {
    out := [];
    for i := 0 to |sizes|
      invariant AllExplained(out, sizes[..i], pairs, k, ids) && AllCovered(out, sizes[..i], pairs, k, ids) && NoRepeat(out)
    {
      assert sizes[i] in sizes;
      var more := ScenariosFor(sizes[i], list, pairs, ids);
      assert AllExplained(more, [sizes[i]], pairs, k, ids) by {
        assert sizes[i] in [sizes[i]];
      }
      ScenariosApart(out, more, sizes[..i], sizes[i], pairs, k, ids);
      AllExplainedStep(out, more, sizes[..i], sizes[i], pairs, k, ids);
      AllCoveredStep(out, more, sizes[..i], sizes[i], pairs, k, ids);
      assert sizes[..i + 1] == sizes[..i] + [sizes[i]];
      out := out + more;
    }
    assert sizes[..|sizes|] == sizes;
  }

  lemma AllExplainedStep(out: seq<Partitions>, more: seq<Partitions>, sizes: seq<seq<uint8>>, q0: seq<uint8>, pairs: nat, k: nat, ids: seq<nat>)
    requires AllExplained(out, sizes, pairs, k, ids) && AllExplained(more, [q0], pairs, k, ids)
    ensures AllExplained(out + more, sizes + [q0], pairs, k, ids)
  {
    forall s | s in out + more ensures exists q :: q in sizes + [q0] && Explained(s, q, pairs, k, ids) {
      if s in out {
        var q :| q in sizes && Explained(s, q, pairs, k, ids);
        assert q in sizes + [q0];
      } else {
        var q :| q in [q0] && Explained(s, q, pairs, k, ids);
        assert q in sizes + [q0];
      }
    }
  }
}
