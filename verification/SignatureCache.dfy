/**
 The signature verification cache (crypto/cache.go): a map of known-good
 signatures with a list in order of use. The signature scheme is a parameter; a
 key is a digest followed by the signature. Verify's digest is that of the
 message, without collisions. BatchVerify hashes the messages of the batch but
 never takes the sum into its key, so its digest is zero for every batch.
 */
module SignatureCache {
  datatype Option<T> = None | Some(value: T)

  /** No message hashes to zero. */
  datatype Digest = Zero | Of(message: nat)

  datatype Key = Key(digest: Digest, signature: nat)

  type Batch = map<nat, nat>

  /** The keys used so far, most recently used first, each once. */
  function Recent(history: seq<Key>): seq<Key> {
    if history == [] then []
    else
      var k := history[|history| - 1];
      [k] + Drop(Recent(history[..|history| - 1]), k)
  }

  /** The list without k. */
  function Drop(s: seq<Key>, k: Key): seq<Key> {
    if s == [] then [] else (if s[0] == k then [] else [s[0]]) + Drop(s[1..], k)
  }

  function Front(s: seq<Key>, n: nat): seq<Key> {
    if |s| <= n then s else s[..n]
  }

  ghost predicate NoRepeats(s: seq<Key>) {
    forall i, j :: 0 <= i < j < |s| ==> s[i] != s[j]
  }

  lemma {:induction false} DropIs(s: seq<Key>, k: Key)
    ensures forall x :: x in Drop(s, k) <==> x in s && x != k
    ensures k !in s ==> Drop(s, k) == s
    ensures NoRepeats(s) ==> NoRepeats(Drop(s, k)) && |Drop(s, k)| == |s| - if k in s then 1 else 0
  {
    if s != [] {
      DropIs(s[1..], k);
      assert s == [s[0]] + s[1..];
      if NoRepeats(s) {
        assert s[0] !in s[1..];
        assert NoRepeats(s[1..]);
      }
    }
  }

  lemma {:induction false} RecentNoRepeats(history: seq<Key>)
    ensures NoRepeats(Recent(history))
  {
    if history != [] {
      RecentNoRepeats(history[..|history| - 1]);
      DropIs(Recent(history[..|history| - 1]), history[|history| - 1]);
    }
  }

  lemma FrontCons(x: Key, t: seq<Key>, n: nat)
    ensures Front([x] + t, n + 1) == [x] + Front(t, n)
  {
  }

  lemma NoRepeatsTail(x: Key, t: seq<Key>)
    requires NoRepeats([x] + t)
    ensures NoRepeats(t) && x !in t
  {
    var s := [x] + t;
    forall i, j | 0 <= i < j < |t| ensures t[i] != t[j] {
      assert t[i] == s[i + 1] && t[j] == s[j + 1];
    }
    forall i | 0 <= i < |t| ensures t[i] != x {
      assert t[i] == s[i + 1] && x == s[0];
    }
  }

  lemma DropCons(x: Key, t: seq<Key>, k: Key)
    ensures Drop([x] + t, k) == (if x == k then [] else [x]) + Drop(t, k)
  {
    assert ([x] + t)[1..] == t;
  }

  lemma FrontKeeps(t: seq<Key>, k: Key, n: nat)
    requires k !in t
    ensures k !in Front(t, n)
  {
  }

  lemma FrontPast(x: Key, t: seq<Key>, k: Key, n: nat)
    requires k in Front([x] + t, n) && x != k
    ensures n >= 2 && k in Front(t, n - 1)
  {
    assert n >= 1;
    FrontCons(x, t, n - 1);
    assert k in Front(t, n - 1);
  }

  lemma DropFirst(k: Key, t: seq<Key>)
    requires k !in t
    ensures Drop([k] + t, k) == t
  {
    DropCons(k, t, k);
    DropIs(t, k);
  }

  /** Dropping a key among the first n commutes with cutting the list there. */
  lemma {:induction false} DropFront(s: seq<Key>, k: Key, n: nat)
    requires NoRepeats(s) && k in Front(s, n)
    ensures n >= 1 && Drop(Front(s, n), k) == Front(Drop(s, k), n - 1)
  {
    var x, t := s[0], s[1..];
    assert s == [x] + t && n >= 1;
    NoRepeatsTail(x, t);
    FrontCons(x, t, n - 1);
    if x == k {
      FrontKeeps(t, k, n - 1);
      DropFirst(k, t);
      DropFirst(k, Front(t, n - 1));
    } else {
      FrontPast(x, t, k, n);
      DropFront(t, k, n - 1);
      DropPast(x, t, k, n);
    }
  }

  lemma DropPast(x: Key, t: seq<Key>, k: Key, n: nat)
    requires x != k && n >= 2 && Drop(Front(t, n - 1), k) == Front(Drop(t, k), n - 2)
    ensures Drop([x] + Front(t, n - 1), k) == Front(Drop([x] + t, k), n - 1)
  {
    DropCons(x, t, k);
    DropCons(x, Front(t, n - 1), k);
    FrontCons(x, Drop(t, k), n - 2);
  }

  /** Dropping a key beyond the first n leaves those alone. */
  lemma {:induction false} DropBeyond(s: seq<Key>, k: Key, n: nat)
    requires k !in Front(s, n)
    ensures Front(Drop(s, k), n) == Front(s, n)
  {
    if s != [] && n > 0 {
      var x, t := s[0], s[1..];
      assert s == [x] + t;
      FrontCons(x, t, n - 1);
      DropCons(x, t, k);
      assert x == Front(s, n)[0];
      DropBeyond(t, k, n - 1);
      FrontCons(x, Drop(t, k), n - 1);
    }
  }

  class Cache {
    const capacity: nat
    const verify: (nat, nat) -> bool
    const verifyBatch: (nat, Batch) -> bool
    var entries: set<Key>
    var order: seq<Key>
    ghost var history: seq<Key>

    /** The signature verifies for the message of the key, or for some batch. */
    ghost predicate Good(k: Key) {
      match k.digest
      case Of(message) => verify(k.signature, message)
      case Zero => exists batch :: verifyBatch(k.signature, batch)
    }

    /** Map and list hold the same keys, the most recently used ones, and only good signatures. */
    ghost predicate Valid()
      reads this
    {
      && capacity >= 1
      && order == Front(Recent(history), capacity)
      && entries == (set k | k in order)
      && (forall k :: k in entries ==> Good(k))
    }

    constructor (capacity: nat, verify: (nat, nat) -> bool, verifyBatch: (nat, Batch) -> bool)
      requires capacity >= 1
      ensures Valid() && this.verify == verify && this.verifyBatch == verifyBatch && this.capacity == capacity
      ensures history == [] && order == [] && entries == {}
    {
      this.capacity, this.verify, this.verifyBatch, entries, order, history := capacity, verify, verifyBatch, {}, [], [];
    }

    /** The map and the list agree, without repeats and within capacity. */
    lemma InStep()
      requires Valid()
      ensures NoRepeats(order) && |order| <= capacity && forall k :: k in entries <==> k in order
    {
      RecentNoRepeats(history);
    }

    method MoveToFront(k: Key)
      requires Valid() && k in entries
      modifies `order, `history
      ensures Valid() && history == old(history) + [k] && order == [k] + Drop(old(order), k)
    {
      RecentNoRepeats(history);
      DropFront(Recent(history), k, capacity);
      FrontCons(k, Drop(Recent(history), k), capacity - 1);
      DropIs(order, k);
      order := [k] + Drop(order, k);
      history := history + [k];
      assert history[..|history| - 1] == old(history);
    }

    /** Makes room by dropping the least recently used key. */
    method Evict()
      requires Valid()
      modifies `entries, `order
      ensures order == Front(old(order), capacity - 1) && entries == set k | k in order
    {
      InStep();
      ListingCounts(order);
      if |entries| < capacity {
        return;
      }
      var k := order[|order| - 1];
      order := order[..|order| - 1];
      entries := entries - {k};
    }

    method Insert(k: Key)
      requires Valid() && Good(k)
      modifies `entries, `order, `history
      ensures Valid() && history == old(history) + [k] && k in entries
    {
      if k in entries {
        MoveToFront(k);
        return;
      }
      ghost var recent := Recent(history);
      FrontFront(recent, capacity);
      assert k !in Front(recent, capacity - 1) by {
        assert forall x :: x in Front(recent, capacity - 1) ==> x in Front(recent, capacity);
      }
      DropBeyond(recent, k, capacity - 1);
      FrontCons(k, Drop(recent, k), capacity - 1);
      Evict();
      order := [k] + order;
      entries := entries + {k};
      history := history + [k];
      assert history[..|history| - 1] == old(history);
    }

    method Check(k: Key) returns (hit: bool)
      requires Valid()
      modifies `order, `history
      ensures Valid() && (hit <==> k in entries) && history == old(history) + if hit then [k] else []
    {
      if k !in entries {
        return false;
      }
      MoveToFront(k);
      hit := true;
    }

    /** Sign: the scheme's own signatures verify, so a new one is remembered; a failure to sign changes nothing. */
    method Sign(message: nat, sign: nat -> Option<nat>) returns (signature: Option<nat>)
      requires Valid() && forall m :: sign(m).Some? ==> verify(sign(m).value, m)
      modifies this
      ensures Valid() && signature == sign(message)
      ensures if signature.Some? then Key(Of(message), signature.value) in entries else entries == old(entries) && order == old(order)
    {
      signature := sign(message);
      if signature.Some? {
        Insert(Key(Of(message), signature.value));
      }
    }

    /** Verify gives the answer of the uncached scheme, whatever happened before, batches included. */
    method Verify(signature: nat, message: nat) returns (ok: bool)
      requires Valid()
      modifies this
      ensures Valid() && ok == verify(signature, message)
    {
      var k := Key(Of(message), signature);
      ok := Check(k);
      if !ok {
        ok := verify(signature, message);
        if ok {
          Insert(k);
        }
      }
    }

    /**
     BatchVerify answers for the batch only when the cache does not hold the signature
     under its batch key. It holds it there while it was used recently enough and some
     batch, not necessarily this one, was accepted: the answer is then true whatever the
     batch.
     */
    method BatchVerify(signature: nat, batch: Batch) returns (ok: bool)
      requires Valid()
      modifies this
      ensures Valid() && ok == (Key(Zero, signature) in old(entries) || verifyBatch(signature, batch))
      ensures ok == verifyBatch(signature, batch) <==> Key(Zero, signature) !in old(entries) || verifyBatch(signature, batch)
      ensures ok ==> Key(Zero, signature) in entries && exists batch' :: verifyBatch(signature, batch')
      ensures history == old(history) + if ok then [Key(Zero, signature)] else []
    {
      var k := Key(Zero, signature);
      ok := Check(k);
      if !ok {
        ok := verifyBatch(signature, batch);
        if ok {
          Insert(k);
        }
      }
    }
  }

  lemma FrontFront(s: seq<Key>, n: nat)
    requires n >= 1
    ensures Front(Front(s, n), n - 1) == Front(s, n - 1)
  {
  }

  lemma {:induction false} ListingCounts(s: seq<Key>)
    requires NoRepeats(s)
    ensures |set k | k in s| == |s|
  {
    if s != [] {
      var t := s[..|s| - 1];
      ListingCounts(t);
      assert (set k | k in s) == (set k | k in t) + {s[|s| - 1]};
    }
  }

  // ----- what the cache holds, from the calls alone -----

  /** The keys used after the last use of k. */
  function Since(history: seq<Key>, k: Key): set<Key> {
    if history == [] || history[|history| - 1] == k then {}
    else Since(history[..|history| - 1], k) + {history[|history| - 1]}
  }

  lemma {:induction false} DropConcat(a: seq<Key>, b: seq<Key>, x: Key)
    ensures Drop(a + b, x) == Drop(a, x) + Drop(b, x)
  {
    if a == [] {
      assert a + b == b;
    } else {
      assert a + b == [a[0]] + (a[1..] + b);
      DropCons(a[0], a[1..] + b, x);
      DropConcat(a[1..], b, x);
    }
  }

  /** Before k the list has exactly the keys used since. */
  lemma {:induction false} RecentSplits(history: seq<Key>, k: Key) returns (a: seq<Key>, b: seq<Key>)
    requires k in history
    ensures Recent(history) == a + [k] + b && (set x | x in a) == Since(history, k)
  {
    var rest, x := history[..|history| - 1], history[|history| - 1];
    if x == k {
      a, b := [], Drop(Recent(rest), k);
    } else {
      var a', b' := RecentSplits(rest, k);
      DropConcat(a' + [k], b', x);
      DropConcat(a', [k], x);
      DropIs(a', x);
      assert Drop([k], x) == [k];
      a, b := [x] + Drop(a', x), Drop(b', x);
    }
  }

  lemma {:induction false} RecentAreUsed(history: seq<Key>, k: Key)
    ensures k in Recent(history) <==> k in history
  {
    if history != [] {
      RecentAreUsed(history[..|history| - 1], k);
      DropIs(Recent(history[..|history| - 1]), history[|history| - 1]);
    }
  }

  /** A key is held exactly when it was used and fewer than n other keys were used since. */
  lemma HeldIff(history: seq<Key>, k: Key, n: nat)
    ensures k in Front(Recent(history), n) <==> k in history && |Since(history, k)| < n
  {
    RecentAreUsed(history, k);
    if k in history {
      var a, b := RecentSplits(history, k);
      RecentNoRepeats(history);
      assert a + ([k] + b) == a + [k] + b;
      PrefixNoRepeats(a, [k] + b);
      ListingCounts(a);
      FrontHolds(a, k, b, n);
    }
  }

  lemma PrefixNoRepeats(a: seq<Key>, b: seq<Key>)
    requires NoRepeats(a + b)
    ensures NoRepeats(a)
  {
    forall i, j | 0 <= i < j < |a| ensures a[i] != a[j] {
      assert (a + b)[i] == a[i] && (a + b)[j] == a[j];
    }
  }

  lemma FrontHolds(a: seq<Key>, k: Key, b: seq<Key>, n: nat)
    requires NoRepeats(a + [k] + b)
    ensures k in Front(a + [k] + b, n) <==> |a| < n
  {
    var s := a + [k] + b;
    assert s[|a|] == k;
    if |a| < n {
      assert Front(s, n)[|a|] == k;
    } else {
      assert forall i :: 0 <= i < |Front(s, n)| ==> Front(s, n)[i] == s[i];
    }
  }
}
