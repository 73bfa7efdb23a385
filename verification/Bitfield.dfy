/**
 Bitfield (crypto/bitfield.go): a set of replica IDs, which start at 1, kept as
 bits of a growing byte slice, with a cached size.
 */
module Bitfields {
  function Mask(bit: nat): bv8
    requires bit < 8
  {
    (1 as bv8) << bit
  }

  /** isSet on one byte. */
  predicate IsSet(b: bv8, bit: nat)
    requires bit < 8
  {
    b & Mask(bit) != 0
  }

  /** The same, shifting the byte down to the bit. */
  ghost predicate HasBit(b: bv8, bit: nat) {
    if bit == 0 then b & 1 != 0 else HasBit(b >> 1, bit - 1)
  }

  lemma MaskIs(i: nat)
    requires i < 8
    ensures Mask(i) == [1, 2, 4, 8, 16, 32, 64, 128][i]
  {
  }

  lemma {:induction false} IsSetIs(b: bv8, i: nat)
    requires i < 8
    ensures IsSet(b, i) <==> HasBit(b, i)
  {
    MaskIs(i);
    if i > 0 {
      IsSetIs(b >> 1, i - 1);
      MaskIs(i - 1);
    }
  }

  lemma SetBit(b: bv8, i: nat, j: nat)
    requires i < 8 && j < 8
    ensures HasBit(b | Mask(i), j) <==> i == j || HasBit(b, j)
    ensures !HasBit(0, j)
  {
    MaskIs(i);
    MaskIs(j);
    IsSetIs(b | Mask(i), j);
    IsSetIs(b, j);
    IsSetIs(0, j);
  }

  method TestBit(b: bv8, bit: nat) returns (yes: bool)
    requires bit < 8
    ensures yes <==> HasBit(b, bit)
  {
    IsSetIs(b, bit);
    yes := IsSet(b, bit);
  }

  /** Setting one bit of a byte sets that bit and no other. */
  method OrBit(b: bv8, bit: nat) returns (b': bv8)
    requires bit < 8
    ensures forall j :: 0 <= j < 8 ==> (HasBit(b', j) <==> j == bit || HasBit(b, j))
  {
    b' := b | Mask(bit);
    forall j | 0 <= j < 8 ensures HasBit(b', j) <==> j == bit || HasBit(b, j) {
      SetBit(b, bit, j);
    }
  }

  /** The bits of the bytes, lowest bit of each byte first. */
  ghost function Bits(data: seq<bv8>): (bits: seq<bool>)
    ensures |bits| == 8 * |data|
  {
    seq(8 * |data|, k requires 0 <= k < 8 * |data| => HasBit(data[k / 8], k % 8))
  }

  // ----- sets as bits -----

  /** The IDs of the set bits among the first n, in ascending order. */
  ghost function Listing(bits: seq<bool>, n: nat): seq<nat>
    requires n <= |bits|
  {
    if n == 0 then [] else Listing(bits, n - 1) + if bits[n - 1] then [n] else []
  }

  ghost predicate Rising(s: seq<nat>) {
    forall i, j :: 0 <= i < j < |s| ==> s[i] < s[j]
  }

  lemma {:induction false} ListingIs(bits: seq<bool>, n: nat)
    requires n <= |bits|
    ensures forall id: nat :: id in Listing(bits, n) <==> 1 <= id <= n && bits[id - 1]
    ensures Rising(Listing(bits, n))
  {
    if n > 0 {
      ListingIs(bits, n - 1);
      var s := Listing(bits, n - 1);
      forall i | 0 <= i < |s| ensures s[i] < n {
        assert s[i] in s;
      }
    }
  }

  ghost function ToSet(s: seq<nat>): set<nat> {
    set id | id in s
  }

  /** A rising list has as many entries as members. */
  lemma {:induction false} RisingCounts(s: seq<nat>)
    requires Rising(s)
    ensures |ToSet(s)| == |s|
  {
    if s != [] {
      var t, x := s[..|s| - 1], s[|s| - 1];
      RisingCounts(t);
      assert s == t + [x] && x !in t;
      assert ToSet(s) == ToSet(t) + {x};
    }
  }

  /** The set the bits stand for. */
  ghost function Members(bits: seq<bool>): set<nat> {
    ToSet(Listing(bits, |bits|))
  }

  lemma MembersIs(bits: seq<bool>)
    ensures forall id: nat :: id in Members(bits) <==> 1 <= id <= |bits| && bits[id - 1]
    ensures |Members(bits)| == |Listing(bits, |bits|)|
  {
    ListingIs(bits, |bits|);
    RisingCounts(Listing(bits, |bits|));
  }

  /** bits' is bits with bit k set, and possibly more unset bits at the end. */
  ghost predicate Sets(bits: seq<bool>, bits': seq<bool>, k: nat) {
    && |bits| <= |bits'| && k < |bits'| && bits'[k]
    && forall i :: 0 <= i < |bits'| && i != k ==> (bits'[i] <==> i < |bits| && bits[i])
  }

  lemma SetsMembers(bits: seq<bool>, bits': seq<bool>, k: nat)
    requires Sets(bits, bits', k)
    ensures Members(bits') == Members(bits) + {k + 1}
    ensures k + 1 in Members(bits) <==> k < |bits| && bits[k]
  {
    MembersIs(bits);
    MembersIs(bits');
    forall id: nat ensures id in Members(bits') <==> id in Members(bits) + {k + 1} {
      if 1 <= id <= |bits'| {
        assert id - 1 != k ==> (bits'[id - 1] <==> id - 1 < |bits| && bits[id - 1]);
      }
    }
  }

  /** Everything up to and including the first entry f refuses. */
  ghost function TakeUntil(s: seq<nat>, f: nat -> bool): seq<nat> {
    if s == [] then [] else if !f(s[0]) then [s[0]] else [s[0]] + TakeUntil(s[1..], f)
  }

  ghost predicate AllPass(s: seq<nat>, f: nat -> bool) {
    forall x :: x in s ==> f(x)
  }

  lemma {:induction false} TakeUntilConcat(s: seq<nat>, t: seq<nat>, f: nat -> bool)
    requires AllPass(s, f)
    ensures TakeUntil(s + t, f) == s + TakeUntil(t, f)
  {
    if s == [] {
      assert s + t == t;
    } else {
      TakeUntilConcat(s[1..], t, f);
      assert (s + t)[1..] == s[1..] + t;
    }
  }

  lemma TakeAll(s: seq<nat>, f: nat -> bool)
    requires AllPass(s, f)
    ensures TakeUntil(s, f) == s
  {
    TakeUntilConcat(s, [], f);
    assert s + [] == s;
  }

  /** The listing up to a set bit is a prefix of the whole listing. */
  lemma {:induction false} ListingPrefix(bits: seq<bool>, m: nat, n: nat)
    requires m <= n <= |bits|
    ensures Listing(bits, m) <= Listing(bits, n)
  {
    if m < n {
      ListingPrefix(bits, m, n - 1);
    }
  }

  lemma StopsAt(bits: seq<bool>, k: nat, f: nat -> bool)
    requires k < |bits| && bits[k] && AllPass(Listing(bits, k), f) && !f(k + 1)
    ensures TakeUntil(Listing(bits, |bits|), f) == Listing(bits, k + 1)
  {
    var before, all := Listing(bits, k), Listing(bits, |bits|);
    ListingPrefix(bits, k + 1, |bits|);
    var rest := all[|before|..];
    assert all == before + rest && rest[0] == k + 1;
    TakeUntilConcat(before, rest, f);
  }

  // ----- the object -----

  ghost function ByteAt(data: seq<bv8>, b: nat): bv8 {
    if b < |data| then data[b] else 0
  }

  lemma BitsAt(data: seq<bv8>, i: nat)
    ensures (i < |Bits(data)| && Bits(data)[i]) <==> HasBit(ByteAt(data, i / 8), i % 8)
  {
    SetBit(0, 0, i % 8);
  }

  lemma Position(k: nat, byteIdx: nat, bitIdx: nat)
    requires k == 8 * byteIdx + bitIdx && bitIdx < 8
    ensures k / 8 == byteIdx && k % 8 == bitIdx
  {
  }

  lemma BitOf(data: seq<bv8>, byteIdx: nat, bitIdx: nat)
    requires byteIdx < |data| && bitIdx < 8
    ensures Bits(data)[8 * byteIdx + bitIdx] <==> HasBit(data[byteIdx], bitIdx)
  {
    var k := 8 * byteIdx + bitIdx;
    Position(k, byteIdx, bitIdx);
    BitsAt(data, k);
  }

  /** Setting one bit of one byte, after zero bytes were added, sets one bit. */
  lemma OrSets(data: seq<bv8>, data': seq<bv8>, k: nat)
    requires k < 8 * |data'| && |data'| >= |data|
    requires forall b :: 0 <= b < |data'| && b != k / 8 ==> data'[b] == ByteAt(data, b)
    requires forall j :: 0 <= j < 8 ==> (HasBit(data'[k / 8], j) <==> j == k % 8 || HasBit(ByteAt(data, k / 8), j))
    ensures Sets(Bits(data), Bits(data'), k)
  {
    forall i | 0 <= i < |Bits(data')| ensures Bits(data')[i] <==> i == k || (i < |Bits(data)| && Bits(data)[i]) {
      BitsAt(data, i);
      BitsAt(data', i);
      assert i != k ==> i / 8 != k / 8 || i % 8 != k % 8;
    }
  }

  /** Appends zero bytes until there is one at the index. */
  method Extend(data: seq<bv8>, byteIdx: nat) returns (bytes: seq<bv8>)
    ensures |bytes| >= |data| && byteIdx < |bytes|
    ensures forall b :: 0 <= b < |bytes| ==> bytes[b] == ByteAt(data, b)
  {
    bytes := data;
    if |data| <= byteIdx {
      bytes := data + seq(byteIdx + 1 - |data|, i => 0);
    }
  }

  class Bitfield {
    var data: seq<bv8>
    var len: nat

    /** The IDs in the set. */
    ghost function Ids(): set<nat>
      reads this
    {
      Members(Bits(data))
    }

    /** The cached size is the number of members. */
    ghost predicate Valid()
      reads this
    {
      len == |Ids()|
    }

    constructor ()
      ensures Valid() && data == [] && Ids() == {}
    {
      data, len := [], 0;
    }

    /** BitfieldFromBytes: the size is found by visiting every member. */
    constructor FromBytes(bytes: seq<bv8>)
      ensures Valid() && data == bytes
    {
      data, len := bytes, 0;
      new;
      MembersIs(Bits(data));
      TakeAll(Listing(Bits(data), |Bits(data)|), _ => true);
      var visited := RangeWhile(_ => true);
      len := |visited|;
    }

    method Bytes() returns (bytes: seq<bv8>)
      ensures bytes == data
    {
      return data;
    }

    method Add(id: nat)
      requires Valid() && id >= 1
      modifies this
      ensures Valid() && Ids() == old(Ids()) + {id}
    {
      var bytes, known := WithBit(id - 1);
      SetsMembers(Bits(data), Bits(bytes), id - 1);
      assert known <==> id in Ids();
      if !known {
        len := len + 1;
      }
      data := bytes;
    }

    /** The bytes with bit k set, and whether it was set already. */
    method WithBit(k: nat) returns (bytes: seq<bv8>, known: bool)
      ensures Sets(Bits(data), Bits(bytes), k) && (known <==> k < |Bits(data)| && Bits(data)[k])
    {
      var byteIdx, bitIdx := k / 8, k % 8;
      bytes := Extend(data, byteIdx);
      known := TestBit(bytes[byteIdx], bitIdx);
      var b := OrBit(bytes[byteIdx], bitIdx);
      bytes := bytes[byteIdx := b];
      OrSets(data, bytes, k);
      BitsAt(data, k);
    }

    method Contains(id: nat) returns (yes: bool)
      requires id >= 1
      ensures yes <==> id in Ids()
    {
      MembersIs(Bits(data));
      var byteIdx := (id - 1) / 8;
      if |data| <= byteIdx {
        return false;
      }
      BitsAt(data, id - 1);
      yes := TestBit(data[byteIdx], (id - 1) % 8);
    }

    method Len() returns (n: nat)
      requires Valid()
      ensures n == |Ids()|
    {
      return len;
    }

    /** One bit of the iteration: adds its ID if it is set, and stops if f refuses it. */
    method Visit(byteIdx: nat, bitIdx: nat, f: nat -> bool, visited: seq<nat>) returns (visited': seq<nat>, stop: bool)
      requires byteIdx < |data| && bitIdx < 8
      requires visited == Listing(Bits(data), 8 * byteIdx + bitIdx) && AllPass(visited, f)
      ensures visited' == Listing(Bits(data), 8 * byteIdx + bitIdx + 1)
      ensures if stop then visited' == TakeUntil(Listing(Bits(data), |Bits(data)|), f) else AllPass(visited', f)
    {
      visited', stop := visited, false;
      BitOf(data, byteIdx, bitIdx);
      var member := TestBit(data[byteIdx], bitIdx);
      if member {
        var id := 1 + byteIdx * 8 + bitIdx;
        visited' := visited + [id];
        if !f(id) {
          StopsAt(Bits(data), id - 1, f);
          stop := true;
        }
      }
    }

    /** Calls f for each member in ascending order, until it answers false. */
    method RangeWhile(f: nat -> bool) returns (visited: seq<nat>)
      ensures visited == TakeUntil(Listing(Bits(data), |Bits(data)|), f)
    {
      visited := [];
      var stop := false;
      for byteIdx := 0 to |data|
        invariant visited == Listing(Bits(data), 8 * byteIdx) && AllPass(visited, f)
      {
        visited, stop := VisitByte(byteIdx, f, visited);
        if stop {
          return;
        }
      }
      TakeAll(visited, f);
    }

    method VisitByte(byteIdx: nat, f: nat -> bool, before: seq<nat>) returns (visited: seq<nat>, stop: bool)
      requires byteIdx < |data| && before == Listing(Bits(data), 8 * byteIdx) && AllPass(before, f)
      ensures stop ==> visited == TakeUntil(Listing(Bits(data), |Bits(data)|), f)
      ensures !stop ==> visited == Listing(Bits(data), 8 * (byteIdx + 1)) && AllPass(visited, f)
    {
      visited, stop := before, false;
      for bitIdx := 0 to 8
        invariant visited == Listing(Bits(data), 8 * byteIdx + bitIdx) && AllPass(visited, f)
      {
        visited, stop := Visit(byteIdx, bitIdx, f, visited);
        if stop {
          return;
        }
      }
    }
  }

  /** A bitfield made from another's bytes is the same set of the same size. */
  method CopyBits(bf: Bitfield) returns (copy: Bitfield)
    requires bf.Valid()
    ensures fresh(copy) && copy.Valid() && copy.Ids() == bf.Ids() && copy.len == bf.len
  {
    var bytes := bf.Bytes();
    copy := new Bitfield.FromBytes(bytes);
  }
}
