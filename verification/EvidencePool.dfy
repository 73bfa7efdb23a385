/**
 The evidence pool (evidence/pool.go): evidence waiting to be committed, the
 gossip list, and the pruning pass that walks the store in key order and stops
 at the first entry that is still live. Block times, signature checks and the
 block store answer through parameters.
 */
module EvidenceKeys {
  type byte = x: int | 0 <= x < 256

  /** A collision-free hash: it pins down the height it was made for. */
  datatype Hash = Hash(height: nat, digest: seq<byte>)

  const PENDING := 1 as char
  const COMMITTED := 0 as char

  function HexDigit(d: nat): (c: char)
    requires d < 16
  {
    if d < 10 then '0' + d as char else 'A' + (d - 10) as char
  }

  /** n in upper-case hexadecimal, padded with zeros to the given width. */
  function Hex(n: nat, width: nat): (s: string)
    ensures |s| == width
    decreases width
  {
    if width == 0 then [] else Hex(n / 16, width - 1) + [HexDigit(n % 16)]
  }

  function HexBytes(bytes: seq<byte>): (s: string)
    ensures |s| == 2 * |bytes|
  {
    if bytes == [] then [] else Hex(bytes[0], 2) + HexBytes(bytes[1..])
  }

  function KeyAt(prefix: char, width: nat, h: Hash): string {
    [prefix] + Hex(h.height, width) + ("/" + HexBytes(h.digest))
  }

  /** The database key: a prefix, the padded height, a slash and the hash. */
  function Key(prefix: char, h: Hash): string {
    KeyAt(prefix, 16, h)
  }

  function Pow16(k: nat): nat {
    if k == 0 then 1 else 16 * Pow16(k - 1)
  }

  /** Byte order, as the database iterates. */
  predicate Leq(s: string, t: string) {
    s == [] || (t != [] && (s[0] < t[0] || (s[0] == t[0] && Leq(s[1..], t[1..]))))
  }

  lemma DigitOrder(a: nat, b: nat)
    requires a < 16 && b < 16
    ensures HexDigit(a) < HexDigit(b) <==> a < b
    ensures HexDigit(a) == HexDigit(b) <==> a == b
  {
  }

  lemma {:induction false} LeqConcat(a: string, b: string, s: string, t: string)
    requires |a| == |b|
    ensures Leq(a + s, b + t) <==> (if a == b then Leq(s, t) else Leq(a, b))
  {
    if a == [] {
      assert a + s == s && b + t == t;
    } else {
      LeqConcat(a[1..], b[1..], s, t);
      assert (a + s)[1..] == a[1..] + s && (b + t)[1..] == b[1..] + t;
      assert a == b <==> a[0] == b[0] && a[1..] == b[1..];
    }
  }

  /** Padded hexadecimal of the same width sorts like the numbers, and is one-to-one. */
  lemma {:induction false} HexOrder(m: nat, n: nat, width: nat)
    requires m < Pow16(width) && n < Pow16(width)
    ensures Leq(Hex(m, width), Hex(n, width)) <==> m <= n
    ensures Hex(m, width) == Hex(n, width) <==> m == n
    decreases width
  {
    if width > 0 {
      var a, b := Hex(m / 16, width - 1), Hex(n / 16, width - 1);
      HexOrder(m / 16, n / 16, width - 1);
      DigitOrder(m % 16, n % 16);
      LeqConcat(a, b, [HexDigit(m % 16)], [HexDigit(n % 16)]);
      if Hex(m, width) == Hex(n, width) {
        assert a == Hex(m, width)[..width - 1] && b == Hex(n, width)[..width - 1];
        assert Hex(m, width)[width - 1] == Hex(n, width)[width - 1];
      }
    }
  }

  lemma {:induction false} HexBytesOneToOne(a: seq<byte>, b: seq<byte>)
    requires HexBytes(a) == HexBytes(b)
    ensures a == b
  {
    if a != [] {
      assert Pow16(2) == 256 by {
        assert Pow16(1) == 16;
      }
      assert |b| == |a|;
      assert HexBytes(a)[..2] == Hex(a[0], 2) && HexBytes(b)[..2] == Hex(b[0], 2);
      HexOrder(a[0], b[0], 2);
      assert HexBytes(a)[2..] == HexBytes(a[1..]) && HexBytes(b)[2..] == HexBytes(b[1..]);
      HexBytesOneToOne(a[1..], b[1..]);
    }
  }

  lemma Pow16Is()
    ensures Pow16(16) == 0x1_0000_0000_0000_0000
  {
    assert Pow16(4) == 65536;
    assert Pow16(8) == 65536 * 65536;
    assert Pow16(12) == 65536 * 65536 * 65536;
  }

  /** Heights are int64 in the source. */
  ghost predicate Representable(h: Hash) {
    h.height < 0x1_0000_0000_0000_0000
  }

  lemma KeyParts(p: char, a: string, s: string)
    ensures var k := [p] + a + ("/" + s); k[0] == p && k[1..|a| + 1] == a && k[|a| + 2..] == s
  {
  }

  lemma KeysAtOneToOne(p: char, q: char, width: nat, g: Hash, h: Hash)
    requires g.height < Pow16(width) && h.height < Pow16(width)
    ensures KeyAt(p, width, g) == KeyAt(q, width, h) <==> p == q && g == h
  {
    if KeyAt(p, width, g) == KeyAt(q, width, h) {
      KeyParts(p, Hex(g.height, width), HexBytes(g.digest));
      KeyParts(q, Hex(h.height, width), HexBytes(h.digest));
      HexOrder(g.height, h.height, width);
      HexBytesOneToOne(g.digest, h.digest);
    }
  }

  /** Different hashes have different keys, and no pending key is a committed key. */
  lemma KeysOneToOne(p: char, q: char, g: Hash, h: Hash)
    requires Representable(g) && Representable(h)
    ensures Key(p, g) == Key(q, h) <==> p == q && g == h
  {
    Pow16Is();
    KeysAtOneToOne(p, q, 16, g, h);
  }

  lemma LeqMiddle(p: char, a: string, b: string, s: string, t: string)
    requires |a| == |b| && Leq([p] + a + s, [p] + b + t)
    ensures a == b || Leq(a, b)
  {
    assert [p] + a + s == [p] + (a + s) && [p] + b + t == [p] + (b + t);
    LeqConcat([p], [p], a + s, b + t);
    LeqConcat(a, b, s, t);
  }

  lemma KeysAtSort(p: char, width: nat, g: Hash, h: Hash)
    requires g.height < Pow16(width) && h.height < Pow16(width) && Leq(KeyAt(p, width, g), KeyAt(p, width, h))
    ensures g.height <= h.height
  {
    LeqMiddle(p, Hex(g.height, width), Hex(h.height, width), "/" + HexBytes(g.digest), "/" + HexBytes(h.digest));
    HexOrder(g.height, h.height, width);
  }

  /** Keys of one kind sort by height. */
  lemma KeysSortByHeight(p: char, g: Hash, h: Hash)
    requires Representable(g) && Representable(h) && Leq(Key(p, g), Key(p, h))
    ensures g.height <= h.height
  {
    Pow16Is();
    KeysAtSort(p, 16, g, h);
  }

  lemma {:induction false} LeqTotal(s: string, t: string)
    ensures Leq(s, t) || Leq(t, s)
  {
    if s != [] && t != [] {
      LeqTotal(s[1..], t[1..]);
    }
  }

  lemma {:induction false} LeqTransitive(s: string, t: string, u: string)
    requires Leq(s, t) && Leq(t, u)
    ensures Leq(s, u)
  {
    if s != [] && s[0] == t[0] == u[0] {
      LeqTransitive(s[1..], t[1..], u[1..]);
    }
  }

  predicate IsLeast(ks: set<string>, k: string) {
    k in ks && forall l :: l in ks ==> Leq(k, l)
  }

  lemma {:induction false} LeastExists(ks: set<string>)
    requires ks != {}
    ensures exists k :: IsLeast(ks, k)
    decreases |ks|
  {
    var x :| x in ks;
    LeqTotal(x, x);
    if ks == {x} {
      assert IsLeast(ks, x);
    } else {
      LeastExists(ks - {x});
      var y :| IsLeast(ks - {x}, y);
      LeqTotal(x, y);
      if Leq(y, x) {
        assert IsLeast(ks, y);
      } else {
        forall l | l in ks ensures Leq(x, l) {
          if l != x {
            LeqTransitive(x, y, l);
          }
        }
        assert IsLeast(ks, x);
      }
    }
  }

  predicate IsFirst(hs: set<Hash>, h: Hash) {
    h in hs && IsLeast(set g | g in hs :: Key(PENDING, g), Key(PENDING, h))
  }

  /** Some key comes first in the iteration. */
  lemma FirstExists(hs: set<Hash>)
    requires hs != {}
    ensures exists h :: IsFirst(hs, h)
  {
    var ks := set g | g in hs :: Key(PENDING, g);
    var x :| x in hs;
    assert Key(PENDING, x) in ks;
    LeastExists(ks);
    var k :| IsLeast(ks, k);
    var h :| h in hs && Key(PENDING, h) == k;
    assert IsFirst(hs, h);
  }

  /** The first key has the lowest height. */
  lemma FirstIsLowest(hs: set<Hash>, h: Hash, g: Hash)
    requires IsFirst(hs, h) && g in hs && Representable(g) && Representable(h)
    ensures h.height <= g.height
  {
    assert Key(PENDING, g) in set x | x in hs :: Key(PENDING, x);
    KeysSortByHeight(PENDING, h, g);
  }

  /** The iterator's next entry: the first key, which has the lowest height. */
  method FirstKey(hs: set<Hash>) returns (h: Hash)
    requires hs != {} && forall g :: g in hs ==> Representable(g)
    ensures h in hs && forall g :: g in hs ==> h.height <= g.height
  {
    FirstExists(hs);
    h :| h in hs && IsFirst(hs, h);
    forall g | g in hs ensures h.height <= g.height {
      FirstIsLowest(hs, h, g);
    }
  }
}

module EvidencePools {
  import opened EvidenceKeys

  datatype Option<T> = None | Some(value: T)

  /** Light-client evidence with one hash can come with different conflicting blocks (body). */
  datatype Evidence = Evidence(hash: Hash, time: int, light: bool, body: nat)

  datatype State = State(height: nat, time: int, maxBlocks: int, maxDuration: int)

  const SECOND := 1_000_000_000 // times are in nanoseconds

  datatype VotePair = VotePair(hash: Hash, body: nat)

  predicate Expired(s: State, height: nat, time: int) {
    s.height - height > s.maxBlocks && s.time - time > s.maxDuration
  }

  /** Block times never decrease with height. */
  ghost predicate TimesRise(chain: nat -> int) {
    forall i, j :: i <= j ==> chain(i) <= chain(j)
  }

  /** The block store's times are the chain's. */
  ghost predicate Faithful(load: nat -> Option<int>, chain: nat -> int) {
    forall h :: load(h).Some? ==> load(h).value == chain(h)
  }

  /** verify: the evidence has the time of its block, is not expired, and passes its own checks. */
  function Verify(s: State, load: nat -> Option<int>, check: Evidence -> bool, ev: Evidence): bool {
    load(ev.hash.height) == Some(ev.time) && !Expired(s, ev.hash.height, ev.time) && check(ev)
  }

  /** The list without the evidence of the given hashes, in order. */
  function Without(list: seq<Evidence>, gone: set<Hash>): seq<Evidence> {
    if list == [] then []
    else Without(list[..|list| - 1], gone) + if list[|list| - 1].hash in gone then [] else [list[|list| - 1]]
  }

  ghost predicate NoRepeats(list: seq<Evidence>) {
    forall i, j :: 0 <= i < j < |list| ==> list[i].hash != list[j].hash
  }

  lemma {:induction false} WithoutIs(list: seq<Evidence>, gone: set<Hash>)
    ensures forall ev :: ev in Without(list, gone) <==> ev in list && ev.hash !in gone
    ensures NoRepeats(list) ==> NoRepeats(Without(list, gone))
  {
    if list != [] {
      var front, last := list[..|list| - 1], list[|list| - 1];
      WithoutIs(front, gone);
      assert list == front + [last];
      if NoRepeats(list) {
        assert forall ev :: ev in front ==> ev.hash != last.hash;
        assert forall ev :: ev in Without(front, gone) ==> ev.hash != last.hash;
      }
    }
  }

  /** The number of elements, counted one by one. */
  ghost function Card(hs: set<Hash>): nat {
    if hs == {} then 0 else
      var h :| h in hs;
      1 + Card(hs - {h})
  }

  lemma {:induction false} CardIs(hs: set<Hash>)
    ensures Card(hs) == |hs|
    decreases hs
  {
    if hs != {} {
      var h :| h in hs && Card(hs) == 1 + Card(hs - {h});
      CardIs(hs - {h});
    }
  }

  lemma CardAdd(hs: set<Hash>, h: Hash)
    ensures Card(hs + {h}) <= Card(hs) + 1
  {
    CardIs(hs);
    CardIs(hs + {h});
  }

  lemma CardRemove(hs: set<Hash>, h: Hash)
    requires h in hs
    ensures Card(hs) == Card(hs - {h}) + 1
  {
    CardIs(hs);
    CardIs(hs - {h});
  }

  ghost function HashesOf(evs: seq<Evidence>): set<Hash> {
    set ev | ev in evs :: ev.hash
  }

  lemma HashesSnoc(evs: seq<Evidence>, ev: Evidence)
    ensures HashesOf(evs + [ev]) == HashesOf(evs) + {ev.hash}
  {
    assert forall x :: x in evs + [ev] <==> x in evs || x == ev;
    assert ev in evs + [ev];
  }

  /** When the entry of lowest height is live, so are all the others. */
  lemma LiveStops(s: State, chain: nat -> int, h: Hash, g: Hash)
    requires TimesRise(chain) && h.height <= g.height && !Expired(s, h.height, chain(h.height))
    ensures !Expired(s, g.height, chain(g.height))
  {
    assert chain(h.height) <= chain(g.height);
  }

  ghost function OldOf(pending: map<Hash, Evidence>, s: State): set<Hash> {
    set h | h in pending && Expired(s, h.height, pending[h].time)
  }

  lemma OldGone(pending: map<Hash, Evidence>, s: State)
    ensures OldOf(pending - OldOf(pending, s), s) == {}
  {
  }

  /** The votes' block is decided, so they can become evidence. */
  ghost predicate Due(pair: VotePair, s: State, load: nat -> Option<int>) {
    pair.hash.height == s.height || (pair.hash.height < s.height && load(pair.hash.height).Some?)
  }

  /** The hashes of the vote pairs whose blocks are decided. */
  ghost function DueHashes(pairs: seq<VotePair>, s: State, load: nat -> Option<int>): set<Hash> {
    set pair | pair in pairs && Due(pair, s, load) :: pair.hash
  }

  lemma DueSnoc(pairs: seq<VotePair>, pair: VotePair, s: State, load: nat -> Option<int>)
    ensures DueHashes(pairs + [pair], s, load) == DueHashes(pairs, s, load) + if Due(pair, s, load) then {pair.hash} else {}
  {
    assert forall x :: x in pairs + [pair] <==> x in pairs || x == pair;
    assert pair in pairs + [pair];
  }

  /** The evidence a due pair of votes makes, dated by its block. */
  function FromPair(pair: VotePair, s: State, load: nat -> Option<int>): Evidence {
    var time := if pair.hash.height == s.height then s.time else if load(pair.hash.height).Some? then load(pair.hash.height).value else 0;
    Evidence(pair.hash, time, false, pair.body)
  }

  /** The evidence of the due pairs that is not known, each once, in order. */
  ghost function FromPairs(pairs: seq<VotePair>, s: State, load: nat -> Option<int>, known: set<Hash>): seq<Evidence> {
    if pairs == [] then []
    else
      var rest, pair := pairs[..|pairs| - 1], pairs[|pairs| - 1];
      FromPairs(rest, s, load, known) +
      if Due(pair, s, load) && pair.hash !in known + DueHashes(rest, s, load) then [FromPair(pair, s, load)] else []
  }

  lemma FromPairsSnoc(pairs: seq<VotePair>, pair: VotePair, s: State, load: nat -> Option<int>, known: set<Hash>)
    ensures FromPairs(pairs + [pair], s, load, known) == FromPairs(pairs, s, load, known) +
      if Due(pair, s, load) && pair.hash !in known + DueHashes(pairs, s, load) then [FromPair(pair, s, load)] else []
  {
    assert (pairs + [pair])[..|pairs|] == pairs;
  }

  /** What the next pair adds to the hashes and to the evidence. */
  lemma PairStep(pairs: seq<VotePair>, i: nat, s: State, load: nat -> Option<int>, pending: set<Hash>, committed: set<Hash>)
    requires i < |pairs|
    ensures var pair, due := pairs[i], DueHashes(pairs[..i], s, load);
      var isNew := Due(pair, s, load) && pair.hash !in pending + (due - committed) && pair.hash !in committed;
      && pending + (DueHashes(pairs[..i + 1], s, load) - committed) ==
         pending + (due - committed) + (if Due(pair, s, load) && pair.hash !in committed then {pair.hash} else {})
      && FromPairs(pairs[..i + 1], s, load, pending + committed) ==
         FromPairs(pairs[..i], s, load, pending + committed) + if isNew then [FromPair(pair, s, load)] else []
  {
    assert pairs[..i + 1] == pairs[..i] + [pairs[i]];
    DueSnoc(pairs[..i], pairs[i], s, load);
    FromPairsSnoc(pairs[..i], pairs[i], s, load, pending + committed);
  }

  lemma Appended(list: seq<Evidence>, made: seq<Evidence>, list': seq<Evidence>, made': seq<Evidence>)
    requires (list' == list + made && made' == made) || (exists ev :: list' == list + made + [ev] && made' == made + [ev])
    ensures list' == list + made'
  {
  }

  /** Those of the list whose hashes are in the set, in order. */
  ghost function Only(list: seq<Evidence>, hs: set<Hash>): seq<Evidence> {
    Without(list, HashesOf(list) - hs)
  }

  lemma {:induction false} WithoutSame(list: seq<Evidence>, a: set<Hash>, b: set<Hash>)
    requires forall ev :: ev in list ==> (ev.hash in a <==> ev.hash in b)
    ensures Without(list, a) == Without(list, b)
  {
    if list != [] {
      assert list[|list| - 1] in list;
      WithoutSame(list[..|list| - 1], a, b);
    }
  }

  lemma {:induction false} WithoutTwice(list: seq<Evidence>, a: set<Hash>, b: set<Hash>)
    ensures Without(Without(list, a), b) == Without(list, a + b)
  {
    if list != [] {
      var front, last := list[..|list| - 1], list[|list| - 1];
      WithoutTwice(front, a, b);
      if last.hash !in a {
        WithoutSnoc(Without(front, a), last, b);
      } else {
        assert Without(front, a) + [] == Without(front, a);
      }
    }
  }

  lemma WithoutSnoc(list: seq<Evidence>, ev: Evidence, gone: set<Hash>)
    ensures Without(list + [ev], gone) == Without(list, gone) + if ev.hash in gone then [] else [ev]
  {
    assert (list + [ev])[..|list|] == list;
  }

  /** Dropping from a list of pending evidence what stops being pending leaves what is pending. */
  lemma OnlyOfAll(list: seq<Evidence>, hs: set<Hash>, gone: set<Hash>)
    requires HashesOf(list) <= hs
    ensures Without(list, gone) == Only(list, hs - gone)
  {
    forall ev | ev in list ensures ev.hash in gone <==> ev.hash in HashesOf(list) - (hs - gone) {
      assert ev.hash in HashesOf(list);
    }
    WithoutSame(list, gone, HashesOf(list) - (hs - gone));
  }

  /** Committing the evidence of a block leaves the rest of the list. */
  lemma CommittedLeave(list: seq<Evidence>, pending: map<Hash, Evidence>, hs: set<Hash>)
    requires HashesOf(list) <= pending.Keys
    ensures Without(list, pending.Keys * hs) == Only(list, (pending - hs).Keys)
  {
    OnlyOfAll(list, pending.Keys, pending.Keys * hs);
    assert pending.Keys - pending.Keys * hs == (pending - hs).Keys;
  }

  lemma OnlyTwice(list: seq<Evidence>, hs: set<Hash>, gone: set<Hash>)
    ensures Without(Only(list, hs), gone) == Only(list, hs - gone)
  {
    WithoutTwice(list, HashesOf(list) - hs, gone);
    forall ev | ev in list ensures ev.hash in HashesOf(list) - hs + gone <==> ev.hash in HashesOf(list) - (hs - gone) {
      assert ev.hash in HashesOf(list);
    }
    WithoutSame(list, HashesOf(list) - hs + gone, HashesOf(list) - (hs - gone));
  }

  /** What was there is there unchanged. */
  ghost predicate Keeps(before: map<Hash, Evidence>, after: map<Hash, Evidence>) {
    forall h :: h in before && h in after ==> after[h] == before[h]
  }

  lemma MinusStep(m: map<Hash, Evidence>, hs: set<Hash>, h: Hash)
    ensures (m - hs) - {h} == m - (hs + {h})
    ensures m.Keys * (hs + {h}) == m.Keys * hs + if h in m - hs then {h} else {}
  {
  }

  /** Lower heights come first. */
  ghost predicate Ascending(list: seq<Evidence>) {
    forall i, j :: 0 <= i < j < |list| ==> list[i].hash.height <= list[j].hash.height
  }

  ghost predicate Before(list: seq<Evidence>, left: set<Hash>) {
    forall ev, h :: ev in list && h in left ==> ev.hash.height <= h.height
  }

  lemma ListStep(list: seq<Evidence>, left: set<Hash>, ev: Evidence)
    requires Ascending(list) && Before(list, left) && ev.hash in left && forall h :: h in left ==> ev.hash.height <= h.height
    ensures Ascending(list + [ev]) && Before(list + [ev], left - {ev.hash})
  {
    assert forall i :: 0 <= i < |list| ==> list[i] in list;
  }

  /** Of the pending evidence, h is of the lowest height. */
  ghost predicate Lowest(pending: map<Hash, Evidence>, h: Hash) {
    h in pending && forall g :: g in pending ==> h.height <= g.height
  }

  /** The next pass is due a block and a second after the lowest pending evidence expires, or with any newer block if there is none. */
  ghost predicate Schedules(pending: map<Hash, Evidence>, s: State, height: int, time: int) {
    if pending == map[] then height == s.height && time == s.time
    else exists h :: Lowest(pending, h) && height == h.height + s.maxBlocks + 1 && time == pending[h].time + s.maxDuration + SECOND
  }

  /**
   What was pending after a pass and has been expired for more than a block and a second makes
   the next pass due; and when that is due, some of it has expired.
   */
  lemma PassesInTime(chain: nat -> int, pending: map<Hash, Evidence>, s: State, height: int, time: int, s': State, g: Hash)
    requires TimesRise(chain) && Schedules(pending, s, height, time) && s'.maxBlocks == s.maxBlocks && s'.maxDuration == s.maxDuration
    requires g in pending && forall h :: h in pending ==> pending[h].time == chain(h.height)
    ensures s'.height - g.height > s.maxBlocks + 1 && s'.time - pending[g].time > s.maxDuration + SECOND ==> s'.height > height && s'.time > time
    ensures s'.height > height && s'.time > time ==> OldOf(pending, s') != {}
  {
    var h :| Lowest(pending, h) && height == h.height + s.maxBlocks + 1 && time == pending[h].time + s.maxDuration + SECOND;
    assert chain(h.height) <= chain(g.height);
    if s'.height > height && s'.time > time {
      assert h in OldOf(pending, s');
    }
  }

  /** The pending evidence once that of a checked block is added: light-client evidence replaces what is there. */
  ghost function TakenIn(pending: map<Hash, Evidence>, evs: seq<Evidence>): map<Hash, Evidence> {
    if evs == [] then pending else Take(TakenIn(pending, evs[..|evs| - 1]), evs[|evs| - 1])
  }

  ghost function Take(pending: map<Hash, Evidence>, ev: Evidence): map<Hash, Evidence> {
    if !ev.light && ev.hash in pending then pending else pending[ev.hash := ev]
  }

  /** What the next evidence of the list does to the pending evidence and to the hashes. */
  lemma TakenInNext(pending: map<Hash, Evidence>, evs: seq<Evidence>, i: nat)
    requires i < |evs|
    ensures TakenIn(pending, evs[..i + 1]) == Take(TakenIn(pending, evs[..i]), evs[i])
    ensures HashesOf(evs[..i + 1]) == HashesOf(evs[..i]) + {evs[i].hash}
  {
    assert evs[..i + 1][..i] == evs[..i] && evs[..i + 1] == evs[..i] + [evs[i]];
    HashesSnoc(evs[..i], evs[i]);
  }

  ghost predicate TakenAs(pending: map<Hash, Evidence>, after: map<Hash, Evidence>, ev: Evidence) {
    ev.hash in after && after[ev.hash] == if !ev.light && ev.hash in pending then pending[ev.hash] else ev
  }

  /** Evidence that is listed once is then pending as the block has it, unless it was pending and is not of a light client; other evidence stays. */
  lemma {:induction false} TakenInIs(pending: map<Hash, Evidence>, evs: seq<Evidence>)
    requires NoRepeats(evs)
    ensures TakenIn(pending, evs).Keys == pending.Keys + HashesOf(evs)
    ensures forall h :: h in pending && h !in HashesOf(evs) ==> TakenIn(pending, evs)[h] == pending[h]
    ensures forall ev :: ev in evs ==> TakenAs(pending, TakenIn(pending, evs), ev)
  {
    if evs != [] {
      var front, last := evs[..|evs| - 1], evs[|evs| - 1];
      TakenInIs(pending, front);
      HashesSnoc(front, last);
      assert evs == front + [last];
      assert forall ev :: ev in front ==> ev.hash != last.hash;
    }
  }

  /** What a proposed block's evidence must be to pass. */
  predicate Acceptable(ev: Evidence, pending: set<Hash>, committed: set<Hash>, s: State, load: nat -> Option<int>, check: Evidence -> bool) {
    (!ev.light && ev.hash in pending) || (ev.hash !in committed && Verify(s, load, check, ev))
  }

  ghost predicate AllAcceptable(evs: seq<Evidence>, pending: map<Hash, Evidence>, committed: set<Hash>, s: State, load: nat -> Option<int>, check: Evidence -> bool) {
    forall ev :: ev in evs ==> Acceptable(ev, pending.Keys, committed, s, load, check)
  }

  /** Judged on what is pending by then, evidence that is not repeated is judged as on what was pending at first. */
  lemma AcceptableNext(evs: seq<Evidence>, i: nat, before: map<Hash, Evidence>, pending: map<Hash, Evidence>, committed: set<Hash>, s: State, load: nat -> Option<int>, check: Evidence -> bool)
    requires i < |evs| && AllAcceptable(evs[..i], before, committed, s, load, check) && pending.Keys == before.Keys + HashesOf(evs[..i])
    ensures Acceptable(evs[i], pending.Keys, committed, s, load, check) && (forall ev :: ev in evs[..i] ==> ev.hash != evs[i].hash) ==>
      AllAcceptable(evs[..i + 1], before, committed, s, load, check)
    ensures !Acceptable(evs[i], pending.Keys, committed, s, load, check) ==> !AllAcceptable(evs, before, committed, s, load, check)
  {
    var ev := evs[i];
    assert ev in evs && evs[..i + 1] == evs[..i] + [ev];
    if Acceptable(ev, pending.Keys, committed, s, load, check) && (forall x :: x in evs[..i] ==> x.hash != ev.hash) {
      assert ev.hash !in HashesOf(evs[..i]);
    }
  }

  class Pool {
    ghost const chain: nat -> int
    var pending: map<Hash, Evidence>
    var committed: set<Hash>
    var list: seq<Evidence>
    var size: nat
    var state: State
    var buffer: seq<VotePair>
    var pruningHeight: int
    var pruningTime: int

    /** Stored evidence is filed under its hash and has the time of its block. */
    ghost predicate Filed()
      reads this
    {
      forall h :: h in pending ==> Representable(h) && pending[h].hash == h && pending[h].time == chain(h.height)
    }

    ghost predicate Listed()
      reads this
    {
      NoRepeats(list) && forall ev :: ev in list ==> ev.hash in pending
    }

    /** Nothing is both pending and committed; the gossip list has no repeats and only pending evidence. */
    ghost predicate Valid()
      reads this
    {
      pending.Keys !! committed && Filed() && Listed() && size >= Card(pending.Keys)
    }

    /** What is expired, by the pool's current state. */
    ghost function Old(): set<Hash>
      reads this
    {
      OldOf(pending, state)
    }

    /** NewPool on a store left by an earlier process: prune, then list what is pending. */
    constructor (ghost chain: nat -> int, pending: map<Hash, Evidence>, committed: set<Hash>, state: State)
      requires pending.Keys !! committed && TimesRise(chain)
      requires forall h :: h in pending ==> Representable(h) && pending[h].hash == h && pending[h].time == chain(h.height)
      ensures Valid() && this.chain == chain && this.committed == committed && this.state == state && buffer == []
      ensures Old() == {} && this.pending == pending - OldOf(pending, state) && this.pending.Keys == HashesOf(list) && Ascending(list)
      ensures Schedules(this.pending, state, pruningHeight, pruningTime)
    {
      this.chain := chain;
      this.pending, this.committed, list, size := pending, committed, [], |pending|;
      CardIs(pending.Keys);
      this.state, buffer, pruningHeight, pruningTime := state, [], 0, 0;
      new;
      Restore();
    }

    method Restore()
      requires pending.Keys !! committed && Filed() && list == [] && size >= Card(pending.Keys) && TimesRise(chain)
      modifies `pending, `size, `list, `pruningHeight, `pruningTime
      ensures Valid() && Old() == {} && pending == old(pending) - old(Old()) && pending.Keys == HashesOf(list)
      ensures Ascending(list) && Schedules(pending, state, pruningHeight, pruningTime)
    {
      RemoveExpired();
      assert list == [];
      Recount();
      ListAll();
    }

    method Recount()
      modifies `size
      ensures size >= Card(pending.Keys)
    {
      size := |pending|;
      CardIs(pending.Keys);
    }

    /** Puts every pending entry on the list, in key order. */
    method ListAll()
      requires Valid() && list == []
      modifies `list
      ensures Valid() && pending.Keys == HashesOf(list) && Ascending(list)
    {
      var left := pending.Keys;
      while left != {}
        invariant left <= pending.Keys && NoRepeats(list) && Ascending(list) && Before(list, left)
        invariant forall ev :: ev in list ==> ev.hash in pending && ev.hash !in left && pending[ev.hash] == ev
        invariant forall h :: h in pending && h !in left ==> pending[h] in list
        decreases left
      {
        var h := FirstKey(left);
        ListStep(list, left, pending[h]);
        left := left - {h};
        list := list + [pending[h]];
      }
      assert forall h :: h in pending ==> pending[h] in list && pending[h].hash == h;
    }

    method AddPending(ev: Evidence)
      requires Valid() && ev.hash !in committed && Representable(ev.hash) && ev.time == chain(ev.hash.height)
      modifies `pending, `size
      ensures Valid() && pending == old(pending)[ev.hash := ev]
    {
      ghost var before := pending;
      pending := pending[ev.hash := ev];
      size := size + 1;
      assert pending.Keys == before.Keys + {ev.hash};
      CardAdd(before.Keys, ev.hash);
    }

    method RemovePending(h: Hash)
      requires h in pending && size >= Card(pending.Keys) && Filed()
      modifies `pending, `size
      ensures pending == old(pending) - {h} && size >= Card(pending.Keys) && Filed()
    {
      CardRemove(pending.Keys, h);
      pending := pending - {h};
      size := size - 1;
      assert pending.Keys == old(pending).Keys - {h};
    }

    method RemoveFromList(gone: set<Hash>)
      modifies `list
      ensures list == Without(old(list), gone)
    {
      var kept: seq<Evidence> := [];
      for i := 0 to |list|
        invariant list == old(list) && kept == Without(list[..i], gone)
      {
        assert list[..i + 1][..i] == list[..i];
        if list[i].hash !in gone {
          kept := kept + [list[i]];
        }
      }
      assert list[..|list|] == list;
      list := kept;
    }

    method AddEvidence(ev: Evidence, load: nat -> Option<int>, check: Evidence -> bool) returns (ok: bool)
      requires Valid() && Faithful(load, chain) && Representable(ev.hash)
      modifies `pending, `size, `list
      ensures Valid()
      ensures ok <==> ev.hash in old(pending) || ev.hash in committed || Verify(state, load, check, ev)
      ensures if ev.hash in old(pending) || ev.hash in committed || !ok then pending == old(pending) && list == old(list)
        else pending == old(pending)[ev.hash := ev] && list == old(list) + [ev]
      ensures list != old(list) ==> check(ev) && ev.time == chain(ev.hash.height) && ev.hash !in Old()
    {
      if ev.hash in pending || ev.hash in committed {
        return true;
      }
      ok := Verify(state, load, check, ev);
      if ok {
        AddPending(ev);
        list := list + [ev];
      }
    }

    method ReportConflictingVotes(pair: VotePair)
      requires Valid()
      modifies `buffer
      ensures Valid() && buffer == old(buffer) + [pair]
    {
      buffer := buffer + [pair];
    }

    method CheckEvidence(evs: seq<Evidence>, load: nat -> Option<int>, check: Evidence -> bool) returns (ok: bool)
      requires Valid() && Faithful(load, chain) && forall ev :: ev in evs ==> Representable(ev.hash)
      modifies `pending, `size
      ensures Valid()
      ensures ok <==> NoRepeats(evs) && AllAcceptable(evs, old(pending), committed, state, load, check)
      ensures ok ==> pending.Keys == old(pending).Keys + HashesOf(evs) && pending == TakenIn(old(pending), evs)
    {
      ghost var before := pending;
      for i := 0 to |evs|
        invariant Valid() && NoRepeats(evs[..i]) && AllAcceptable(evs[..i], before, committed, state, load, check)
        invariant pending.Keys == before.Keys + HashesOf(evs[..i]) && pending == TakenIn(before, evs[..i])
      {
        TakenInNext(before, evs, i);
        var repeated := IsRepeated(evs, i);
        AcceptableNext(evs, i, before, pending, committed, state, load, check);
        ok := CheckOne(evs[i], load, check);
        if !ok || repeated {
          return false;
        }
      }
      assert evs[..|evs|] == evs;
      ok := true;
    }

    method CheckOne(ev: Evidence, load: nat -> Option<int>, check: Evidence -> bool) returns (ok: bool)
      requires Valid() && Faithful(load, chain) && Representable(ev.hash)
      modifies `pending, `size
      ensures Valid() && (ok <==> Acceptable(ev, old(pending).Keys, committed, state, load, check))
      ensures pending == (if ok then Take(old(pending), ev) else old(pending)) && (ok ==> pending.Keys == old(pending).Keys + {ev.hash})
    {
      if ev.light || ev.hash !in pending {
        if ev.hash in committed || !Verify(state, load, check, ev) {
          return false;
        }
        AddPending(ev);
      }
      ok := true;
    }

    /** Whether the hash at i already occurred, looking back from i. */
    method IsRepeated(evs: seq<Evidence>, i: nat) returns (yes: bool)
      requires i < |evs| && NoRepeats(evs[..i])
      ensures yes <==> exists ev :: ev in evs[..i] && ev.hash == evs[i].hash
      ensures !yes ==> NoRepeats(evs[..i + 1])
      ensures yes ==> !NoRepeats(evs)
    {
      yes := false;
      var k := i;
      while k > 0
        invariant 0 <= k <= i && forall j :: k <= j < i ==> evs[j].hash != evs[i].hash
      {
        k := k - 1;
        if evs[k].hash == evs[i].hash {
          assert evs[..i][k] == evs[k];
          return true;
        }
      }
      assert forall j :: 0 <= j < i ==> evs[..i][j] == evs[j];
      assert evs[..i + 1] == evs[..i] + [evs[i]];
    }

    /** Evidence from one pair of votes, unless it is known already or its block is not. */
    method AddFromVotes(pair: VotePair, s: State, load: nat -> Option<int>)
      requires Valid() && Faithful(load, chain) && s.time == chain(s.height) && Representable(pair.hash)
      modifies `pending, `size, `list
      ensures Valid()
      ensures pending.Keys == old(pending).Keys + if Due(pair, s, load) && pair.hash !in committed then {pair.hash} else {}
      ensures Keeps(old(pending), pending)
      ensures list == old(list) + if Due(pair, s, load) && pair.hash !in old(pending) && pair.hash !in committed then [FromPair(pair, s, load)] else []
    {
      var time := if pair.hash.height == s.height then Some(s.time) else if pair.hash.height < s.height then load(pair.hash.height) else None;
      if time.Some? {
        var ev := Evidence(pair.hash, time.value, false, pair.body);
        if ev.hash !in pending && ev.hash !in committed {
          AddPending(ev);
          list := list + [ev];
        }
      }
    }

    /** Evidence from votes consensus saw conflict, now that their height is decided. */
    method ProcessConsensusBuffer(s: State, load: nat -> Option<int>)
      requires Valid() && Faithful(load, chain) && s.time == chain(s.height)
      requires forall pair :: pair in buffer ==> Representable(pair.hash)
      modifies `pending, `size, `list, `buffer
      ensures Valid() && buffer == [] && Keeps(old(pending), pending)
      ensures pending.Keys == old(pending).Keys + (DueHashes(old(buffer), s, load) - committed)
      ensures list == old(list) + FromPairs(old(buffer), s, load, old(pending).Keys + committed)
    {
      ghost var made: seq<Evidence> := [];
      for i := 0 to |buffer|
        invariant Valid() && buffer == old(buffer) && Keeps(old(pending), pending)
        invariant pending.Keys == old(pending).Keys + (DueHashes(buffer[..i], s, load) - committed)
        invariant list == old(list) + made && made == FromPairs(buffer[..i], s, load, old(pending).Keys + committed)
      {
        PairStep(buffer, i, s, load, old(pending).Keys, committed);
        AddFromVotes(buffer[i], s, load);
        Appended(old(list), made, list, FromPairs(buffer[..i + 1], s, load, old(pending).Keys + committed));
        made := FromPairs(buffer[..i + 1], s, load, old(pending).Keys + committed);
      }
      assert buffer[..|buffer|] == buffer;
      buffer := [];
    }

    /** Moves the block's evidence from pending to committed. */
    method MarkCommitted(evs: seq<Evidence>)
      requires Valid()
      modifies `pending, `size, `list, `committed
      ensures Valid()
      ensures committed == old(committed) + HashesOf(evs) && pending == old(pending) - HashesOf(evs)
      ensures list == Without(old(list), old(pending).Keys * HashesOf(evs))
    {
      var gone := MoveAll(evs);
      WithoutIs(list, gone);
      RemoveFromList(gone);
    }

    method MoveAll(evs: seq<Evidence>) returns (gone: set<Hash>)
      requires Filed() && size >= Card(pending.Keys)
      modifies `pending, `size, `committed
      ensures Filed() && size >= Card(pending.Keys) && gone == old(pending).Keys * HashesOf(evs)
      ensures committed == old(committed) + HashesOf(evs) && pending == old(pending) - HashesOf(evs)
    {
      gone := {};
      ghost var hs: set<Hash> := {};
      for i := 0 to |evs|
        invariant hs == HashesOf(evs[..i])
        invariant Filed() && size >= Card(pending.Keys)
        invariant gone == old(pending).Keys * hs && committed == old(committed) + hs && pending == old(pending) - hs
      {
        assert evs[..i + 1] == evs[..i] + [evs[i]];
        HashesSnoc(evs[..i], evs[i]);
        MinusStep(old(pending), hs, evs[i].hash);
        gone := gone + if evs[i].hash in pending then {evs[i].hash} else {};
        Move(evs[i].hash);
        hs := hs + {evs[i].hash};
      }
      assert evs[..|evs|] == evs;
    }

    method Move(h: Hash)
      requires Filed() && size >= Card(pending.Keys)
      modifies `pending, `size, `committed
      ensures Filed() && size >= Card(pending.Keys)
      ensures committed == old(committed) + {h} && pending == old(pending) - {h}
    {
      if h in pending {
        RemovePending(h);
      }
      committed := committed + {h};
    }

    /** Walks pending evidence in key order and drops it until the first entry that is still live. */
    method RemoveExpired()
      requires pending.Keys !! committed && Filed() && Listed() && size >= Card(pending.Keys) && TimesRise(chain)
      modifies `pending, `size, `list, `pruningHeight, `pruningTime
      ensures Valid() && Old() == {}
      ensures pending == old(pending) - old(Old()) && list == Without(old(list), old(Old()))
      ensures Schedules(pending, state, pruningHeight, pruningTime)
    {
      var gone := PrunePending();
      OldGone(old(pending), state);
      WithoutIs(list, gone);
      RemoveFromList(gone);
    }

    method PrunePending() returns (gone: set<Hash>)
      requires Filed() && size >= Card(pending.Keys) && TimesRise(chain)
      modifies `pending, `size, `pruningHeight, `pruningTime
      ensures gone == old(Old()) && pending == old(pending) - gone && Filed() && size >= Card(pending.Keys)
      ensures Schedules(pending, state, pruningHeight, pruningTime)
    {
      var live;
      gone, live := PruneStore();
      Schedule(live);
    }

    /** When the first live entry will have expired. */
    method Schedule(live: Option<Hash>)
      requires if live.Some? then Lowest(pending, live.value) && Filed() else pending == map[]
      modifies `pruningHeight, `pruningTime
      ensures Schedules(pending, state, pruningHeight, pruningTime)
    {
      if live.Some? {
        var ev := pending[live.value];
        pruningHeight, pruningTime := ev.hash.height + state.maxBlocks + 1, ev.time + state.maxDuration + SECOND;
      } else {
        pruningHeight, pruningTime := state.height, state.time;
      }
    }

    method PruneStore() returns (gone: set<Hash>, live: Option<Hash>)
      requires Filed() && size >= Card(pending.Keys) && TimesRise(chain)
      modifies `pending, `size
      ensures gone == old(Old()) && pending == old(pending) - gone && Filed() && size >= Card(pending.Keys)
      ensures if live.Some? then Lowest(pending, live.value) else pending == map[]
    {
      gone := {};
      var left := pending.Keys;
      while left != {}
        invariant Filed() && size >= Card(pending.Keys) && gone <= old(Old())
        invariant pending == old(pending) - gone && left == pending.Keys
        decreases left
      {
        var h := FirstKey(left);
        var ev := pending[h];
        if !Expired(state, ev.hash.height, ev.time) {
          forall g | g in left ensures g !in old(Old()) {
            LiveStops(state, chain, h, g);
          }
          return gone, Some(h);
        }
        RemovePending(h);
        left, gone := left - {h}, gone + {h};
      }
      live := None;
    }

    method Flush(s: State, evs: seq<Evidence>, load: nat -> Option<int>)
      requires Valid() && Faithful(load, chain) && s.time == chain(s.height)
      requires forall pair :: pair in buffer ==> Representable(pair.hash)
      modifies `pending, `size, `list, `buffer, `state, `committed
      ensures Valid() && state == s && buffer == [] && committed == old(committed) + HashesOf(evs)
      ensures pending.Keys == old(pending).Keys + (DueHashes(old(buffer), s, load) - old(committed)) - HashesOf(evs)
      ensures Keeps(old(pending), pending) && list == Only(old(Gossiped(s, load)), pending.Keys)
    {
      ProcessConsensusBuffer(s, load);
      state := s;
      ListedHashes();
      CommittedLeave(list, pending, HashesOf(evs));
      MarkCommitted(evs);
    }

    lemma ListedHashes()
      requires Listed()
      ensures HashesOf(list) <= pending.Keys
    {
    }

    /** The gossip list with the evidence of the buffered votes now due. */
    ghost function Gossiped(s: State, load: nat -> Option<int>): seq<Evidence>
      reads this
    {
      list + FromPairs(buffer, s, load, pending.Keys + committed)
    }

    /** What is pending, or becomes so from the buffered votes, and is not in the block. */
    ghost function Uncommitted(s: State, evs: seq<Evidence>, load: nat -> Option<int>): set<Hash>
      reads this
    {
      pending.Keys + (DueHashes(buffer, s, load) - committed) - HashesOf(evs)
    }

    ghost predicate Prunes(s: State)
      reads this
    {
      s.height > pruningHeight && s.time > pruningTime
    }

    /**
     Update after a block; false is the panic on a state that is not newer. The block's
     evidence is committed, and all other evidence stays or becomes pending unless it
     expired and the pool was due to prune.
     */
    method Update(s: State, evs: seq<Evidence>, load: nat -> Option<int>) returns (ok: bool)
      requires Valid() && Faithful(load, chain) && TimesRise(chain) && s.time == chain(s.height)
      requires forall pair :: pair in buffer ==> Representable(pair.hash)
      modifies this
      ensures Valid() && (ok <==> s.height > old(state).height)
      ensures !ok ==> pending == old(pending) && committed == old(committed) && list == old(list) && buffer == old(buffer)
      ensures ok ==> state == s && buffer == [] && committed == old(committed) + HashesOf(evs) && Keeps(old(pending), pending)
      ensures ok ==> forall h ::
        h in pending <==> (h in old(Uncommitted(s, evs, load)) && !(old(Prunes(s)) && Expired(s, h.height, chain(h.height))))
      ensures ok ==> list == Only(old(Gossiped(s, load)), pending.Keys)
      ensures if ok && old(Prunes(s)) then Schedules(pending, s, pruningHeight, pruningTime) || (pending == map[] && unchanged(`pruningHeight, `pruningTime))
        else unchanged(`pruningHeight, `pruningTime)
    {
      if s.height <= state.height {
        return false;
      }
      ok := true;
      Flush(s, evs, load);
      if size > 0 && s.height > pruningHeight && s.time > pruningTime {
        OnlyTwice(old(Gossiped(s, load)), pending.Keys, Old());
        RemoveExpired();
      } else if size == 0 {
        assert pending.Keys == {};
      }
    }
  }
}
