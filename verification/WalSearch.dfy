/**
 SearchForEndHeight of consensus/wal.go: files of the log group are tried from
 the newest to the oldest, each read on to the end of the group, and the search
 stops early once the last marker read lies below the height looked for.
 */
module WalSearch {
  import opened Wal

  type Reader = seq<byte> -> (Decoded, seq<byte>)

  datatype ScanResult = Hit(rest: seq<byte>) | Ran(last: int) | Failed

  /** One pass over the records of s; last is the latest marker read so far. */
  ghost function Scan(next: Reader, s: seq<byte>, height: int, ignore: bool, last: int): ScanResult
    decreases |s|
  {
    var (d, rest) := next(s);
    if d.EndOfStream? then Ran(last)
    else if |rest| >= |s| || (d.Corrupt? && !ignore) then Failed
    else if d.Message? && d.m.EndHeight? then
      if d.m.height == height then Hit(rest) else Scan(next, rest, height, ignore, d.m.height)
    else Scan(next, rest, height, ignore, last)
  }

  function Concat<T>(ss: seq<seq<T>>): seq<T> {
    if ss == [] then [] else ss[0] + Concat(ss[1..])
  }

  datatype SearchResult = Found(rest: seq<byte>) | NotFound | SearchFailed

  /** The search over the oldest k files, newest first. */
  ghost function Search(next: Reader, files: seq<seq<byte>>, k: nat, height: int, ignore: bool, last: int): SearchResult
    requires k <= |files|
  {
    if k == 0 then NotFound
    else match Scan(next, Concat(files[k - 1..]), height, ignore, last)
      case Hit(rest) => Found(rest)
      case Failed => SearchFailed
      case Ran(l) => if 0 < l < height then NotFound else Search(next, files, k - 1, height, ignore, l)
  }

  ghost predicate AgreesAt(next: Reader, c: Codec, s: seq<byte>) {
    next(s) == Decode(c, true, s)
  }

  ghost predicate ReadsGroup(next: Reader, c: Codec) {
    forall s {:trigger AgreesAt(next, c, s)} :: AgreesAt(next, c, s)
  }

  /** The inner loop. */
  method ScanFrom(dec: WalDecoder, height: int, ignore: bool, last: int, ghost next: Reader) returns (r: ScanResult)
    requires dec.grouped && ReadsGroup(next, dec.codec)
    modifies dec
    ensures r == Scan(next, old(dec.rd), height, ignore, last)
  {
    var lastHeightFound := last;
    while true
      invariant Scan(next, old(dec.rd), height, ignore, last) == Scan(next, dec.rd, height, ignore, lastHeightFound)
      decreases |dec.rd|
    {
      assert AgreesAt(next, dec.codec, dec.rd);
      var d := dec.Next();
      if d.EndOfStream? {
        return Ran(lastHeightFound);
      }
      if d.Corrupt? && !ignore {
        return Failed;
      }
      if d.Message? && d.m.EndHeight? {
        lastHeightFound := d.m.height;
        if d.m.height == height {
          return Hit(dec.rd);
        }
      }
    }
  }

  method SearchForEndHeight(c: Codec, files: seq<seq<byte>>, height: int, ignore: bool) returns (r: SearchResult)
    ensures r == Search(Decoder(c, true), files, |files|, height, ignore, -1)
  {
    ghost var next := Decoder(c, true);
    var lastHeightFound := -1;
    var k: nat := |files|;
    while k > 0
      invariant k <= |files|
      invariant Search(next, files, |files|, height, ignore, -1) == Search(next, files, k, height, ignore, lastHeightFound)
    {
      var dec := new WalDecoder(c, true, Concat(files[k - 1..]));
      var s := ScanFrom(dec, height, ignore, lastHeightFound, next);
      match s {
        case Hit(rest) => return Found(rest);
        case Failed => return SearchFailed;
        case Ran(l) =>
          if 0 < l < height {
            return NotFound;
          }
          lastHeightFound := l;
      }
      k := k - 1;
    }
    return NotFound;
  }

  // ----- what the search finds -----

  ghost predicate Marker(ms: seq<Msg>, h: int) {
    exists i :: 0 <= i < |ms| && ms[i].EndHeight? && ms[i].height == h
  }

  ghost predicate Rising(ms: seq<Msg>) {
    forall i, j :: 0 <= i < j < |ms| && ms[i].EndHeight? && ms[j].EndHeight? ==> ms[i].height <= ms[j].height
  }

  ghost function LastMarker(ms: seq<Msg>, last: int): int {
    if ms == [] then last else LastMarker(ms[1..], if ms[0].EndHeight? then ms[0].height else last)
  }

  lemma {:induction false} LastMarkerIs(ms: seq<Msg>, last: int)
    ensures (forall i :: 0 <= i < |ms| ==> !ms[i].EndHeight?) ==> LastMarker(ms, last) == last
    ensures !(forall i :: 0 <= i < |ms| ==> !ms[i].EndHeight?) ==> Marker(ms, LastMarker(ms, last)) && forall other :: LastMarker(ms, other) == LastMarker(ms, last)
    ensures Rising(ms) ==> forall i :: 0 <= i < |ms| && ms[i].EndHeight? ==> ms[i].height <= LastMarker(ms, last)
  {
    if ms != [] {
      var t := ms[1..];
      LastMarkerIs(t, if ms[0].EndHeight? then ms[0].height else last);
      assert forall i :: 1 <= i < |ms| ==> ms[i] == t[i - 1];
      if exists i :: 0 <= i < |t| && t[i].EndHeight? {
        var i :| 0 <= i < |t| && t[i].EndHeight? && t[i].height == LastMarker(ms, last);
        assert ms[i + 1] == t[i];
      } else if ms[0].EndHeight? {
        forall other ensures LastMarker(ms, other) == ms[0].height {
        }
      }
    }
  }

  /** What follows the marker the scan stops at. */
  ghost predicate After(c: Codec, ms: seq<Msg>, h: int, rest: seq<byte>) {
    exists i :: 0 <= i < |ms| && ms[i].EndHeight? && ms[i].height == h && Fits(c, ms[i + 1..]) && rest == Stream(c, ms[i + 1..])
  }

  lemma {:induction false} ScanStream(c: Codec, next: Reader, ms: seq<Msg>, h: int, ignore: bool, last: int)
    requires Fits(c, ms) && next([]).0 == EndOfStream
    requires forall m, t {:trigger TakesRecord(c, next, m, t)} :: Small(c, m) ==> TakesRecord(c, next, m, t)
    ensures var r := Scan(next, Stream(c, ms), h, ignore, last);
      if Marker(ms, h) then r.Hit? && After(c, ms, h, r.rest) else r == Ran(LastMarker(ms, last))
  {
    if ms != [] {
      var t := ms[1..];
      assert TakesRecord(c, next, ms[0], Stream(c, t));
      assert Stream(c, ms) == Record(c, ms[0]) + Stream(c, t);
      if ms[0].EndHeight? && ms[0].height == h {
      } else {
        ScanStream(c, next, t, h, ignore, if ms[0].EndHeight? then ms[0].height else last);
        MarkerTail(ms, h);
        if Marker(t, h) {
          AfterTail(c, ms, h, Scan(next, Stream(c, ms), h, ignore, last).rest);
        }
      }
    }
  }

  lemma MarkerTail(ms: seq<Msg>, h: int)
    requires ms != []
    ensures Marker(ms, h) <==> (ms[0].EndHeight? && ms[0].height == h) || Marker(ms[1..], h)
  {
    if Marker(ms[1..], h) {
      var i :| 0 <= i < |ms[1..]| && ms[1..][i].EndHeight? && ms[1..][i].height == h;
      assert ms[i + 1] == ms[1..][i];
    }
    if Marker(ms, h) && !(ms[0].EndHeight? && ms[0].height == h) {
      var i :| 0 <= i < |ms| && ms[i].EndHeight? && ms[i].height == h;
      assert ms[i] == ms[1..][i - 1];
    }
  }

  lemma AfterTail(c: Codec, ms: seq<Msg>, h: int, rest: seq<byte>)
    requires ms != [] && After(c, ms[1..], h, rest)
    ensures After(c, ms, h, rest)
  {
    var t := ms[1..];
    var i :| 0 <= i < |t| && t[i].EndHeight? && t[i].height == h && Fits(c, t[i + 1..]) && rest == Stream(c, t[i + 1..]);
    assert ms[i + 1] == t[i] && ms[i + 2..] == t[i + 1..];
  }

  /** Every file holds whole records, so reading on from a file reads the records of the later ones. */
  ghost predicate Clean(c: Codec, files: seq<seq<byte>>, logs: seq<seq<Msg>>) {
    |files| == |logs| && forall i :: 0 <= i < |logs| ==> Fits(c, logs[i]) && files[i] == Stream(c, logs[i])
  }

  lemma {:induction false} StreamConcat(c: Codec, ms: seq<Msg>, ns: seq<Msg>)
    requires Fits(c, ms) && Fits(c, ns)
    ensures Fits(c, ms + ns) && Stream(c, ms + ns) == Stream(c, ms) + Stream(c, ns)
  {
    if ms == [] {
      assert ms + ns == ns;
    } else {
      assert (ms + ns)[1..] == ms[1..] + ns;
      StreamConcat(c, ms[1..], ns);
    }
  }

  lemma {:induction false} GroupStream(c: Codec, files: seq<seq<byte>>, logs: seq<seq<Msg>>)
    requires Clean(c, files, logs)
    ensures Fits(c, Concat(logs)) && Concat(files) == Stream(c, Concat(logs))
  {
    if logs != [] {
      GroupStream(c, files[1..], logs[1..]);
      StreamConcat(c, logs[0], Concat(logs[1..]));
    }
  }

  lemma {:induction false} ConcatSplits<T>(ss: seq<seq<T>>, k: nat)
    requires k <= |ss|
    ensures Concat(ss) == Concat(ss[..k]) + Concat(ss[k..])
  {
    if k == 0 {
      assert ss[..k] == [] && ss[k..] == ss;
    } else {
      ConcatSplits(ss[1..], k - 1);
      assert ss[..k][1..] == ss[1..][..k - 1] && ss[k..] == ss[1..][k - 1..];
    }
  }

  lemma RisingSuffix(pre: seq<Msg>, suf: seq<Msg>)
    requires Rising(pre + suf)
    ensures Rising(suf)
  {
    var all := pre + suf;
    forall i, j | 0 <= i < j < |suf| && suf[i].EndHeight? && suf[j].EndHeight? ensures suf[i].height <= suf[j].height {
      assert all[|pre| + i] == suf[i] && all[|pre| + j] == suf[j];
    }
  }

  lemma MarkerSuffix(pre: seq<Msg>, suf: seq<Msg>, h: int)
    requires Marker(suf, h)
    ensures Marker(pre + suf, h)
  {
    var i :| 0 <= i < |suf| && suf[i].EndHeight? && suf[i].height == h;
    assert (pre + suf)[|pre| + i] == suf[i];
  }

  lemma SuffixMarkers(logs: seq<seq<Msg>>, k: nat, h: int)
    requires k <= |logs|
    ensures Marker(Concat(logs[k..]), h) ==> Marker(Concat(logs), h)
    ensures Rising(Concat(logs)) ==> Rising(Concat(logs[k..]))
  {
    ConcatSplits(logs, k);
    if Marker(Concat(logs[k..]), h) {
      MarkerSuffix(Concat(logs[..k]), Concat(logs[k..]), h);
    }
    if Rising(Concat(logs)) {
      RisingSuffix(Concat(logs[..k]), Concat(logs[k..]));
    }
  }

  /** Markers of the whole log are at most the last marker of any suffix that has one. */
  lemma SuffixBounds(logs: seq<seq<Msg>>, k: nat, h: int)
    requires k <= |logs| && Rising(Concat(logs)) && LastMarker(Concat(logs[k..]), -1) != -1 && Marker(Concat(logs), h)
    ensures h <= LastMarker(Concat(logs[k..]), -1)
  {
    var all, pre, suf := Concat(logs), Concat(logs[..k]), Concat(logs[k..]);
    ConcatSplits(logs, k);
    SuffixMarkers(logs, k, h);
    LastMarkerIs(suf, -1);
    var j :| 0 <= j < |suf| && suf[j].EndHeight? && suf[j].height == LastMarker(suf, -1);
    assert all[|pre| + j] == suf[j];
    var i :| 0 <= i < |all| && all[i].EndHeight? && all[i].height == h;
    if i >= |pre| {
      assert suf[i - |pre|] == all[i];
    }
  }

  lemma ConcatTail(logs: seq<seq<Msg>>, k: nat)
    requires 0 < k <= |logs|
    ensures Concat(logs[k - 1..]) == logs[k - 1] + Concat(logs[k..])
  {
    assert logs[k - 1..][1..] == logs[k..];
  }

  lemma {:induction false} LastMarkerAppends(ms: seq<Msg>, ns: seq<Msg>, last: int)
    ensures LastMarker(ms + ns, last) == LastMarker(ns, LastMarker(ms, last))
  {
    if ms == [] {
      assert ms + ns == ns;
    } else {
      assert (ms + ns)[1..] == ms[1..] + ns;
      LastMarkerAppends(ms[1..], ns, if ms[0].EndHeight? then ms[0].height else last);
    }
  }

  /** Scanning again from an older file ends on the same last marker as scanning it afresh. */
  lemma LastMarkerAgain(ms: seq<Msg>, ns: seq<Msg>)
    ensures LastMarker(ms + ns, LastMarker(ns, -1)) == LastMarker(ms + ns, -1)
  {
    LastMarkerIs(ns, -1);
    LastMarkerIs(ms + ns, -1);
    LastMarkerIs(ms + ns, LastMarker(ns, -1));
    if exists i :: 0 <= i < |ns| && ns[i].EndHeight? {
      var i :| 0 <= i < |ns| && ns[i].EndHeight?;
      assert (ms + ns)[|ms| + i].EndHeight?;
    }
  }

  /** What reading on from file k - 1 to the end of the log gives. */
  lemma ScansFrom(c: Codec, next: Reader, files: seq<seq<byte>>, logs: seq<seq<Msg>>, k: nat, h: int, ignore: bool)
    requires Clean(c, files, logs) && 0 < k <= |logs| && next([]).0 == EndOfStream
    requires forall m, t {:trigger TakesRecord(c, next, m, t)} :: Small(c, m) ==> TakesRecord(c, next, m, t)
    ensures var s := Concat(logs[k - 1..]);
      var r := Scan(next, Concat(files[k - 1..]), h, ignore, LastMarker(Concat(logs[k..]), -1));
      if Marker(s, h) then r.Hit? && After(c, s, h, r.rest) else r == Ran(LastMarker(s, -1))
  {
    GroupStream(c, files[k - 1..], logs[k - 1..]);
    ScanStream(c, next, Concat(logs[k - 1..]), h, ignore, LastMarker(Concat(logs[k..]), -1));
    ConcatTail(logs, k);
    LastMarkerAgain(logs[k - 1], Concat(logs[k..]));
  }

  lemma {:induction false} SearchFinds(c: Codec, next: Reader, files: seq<seq<byte>>, logs: seq<seq<Msg>>, k: nat, h: int, ignore: bool)
    requires Clean(c, files, logs) && k <= |logs| && Rising(Concat(logs)) && next([]).0 == EndOfStream
    requires forall m, t {:trigger TakesRecord(c, next, m, t)} :: Small(c, m) ==> TakesRecord(c, next, m, t)
    requires !Marker(Concat(logs[k..]), h)
    ensures var r := Search(next, files, k, h, ignore, LastMarker(Concat(logs[k..]), -1));
      && (r.Found? <==> Marker(Concat(logs), h)) && r != SearchFailed
      && (r.Found? ==> exists j :: 0 <= j < |logs| && After(c, Concat(logs[j..]), h, r.rest))
  {
    if k == 0 {
      assert logs[0..] == logs;
    } else {
      var s := Concat(logs[k - 1..]);
      ScansFrom(c, next, files, logs, k, h, ignore);
      SuffixMarkers(logs, k - 1, h);
      if !Marker(s, h) {
        var l := LastMarker(s, -1);
        if 0 < l < h {
          if Marker(Concat(logs), h) {
            SuffixBounds(logs, k - 1, h);
          }
        } else {
          SearchFinds(c, next, files, logs, k - 1, h, ignore);
        }
      }
    }
  }

  /**
   Search. On a group of intact files whose end-height markers never go down, the
   search with its early exit finds a marker exactly when the log has it, and the
   reader it returns stands right after that marker.
   */
  lemma SearchIsExact(c: Codec, files: seq<seq<byte>>, logs: seq<seq<Msg>>, h: int, ignore: bool)
    requires Good(c) && Clean(c, files, logs) && Rising(Concat(logs))
    ensures var r := Search(Decoder(c, true), files, |files|, h, ignore, -1);
      && (r.Found? <==> Marker(Concat(logs), h)) && r != SearchFailed
      && (r.Found? ==> exists j :: 0 <= j < |logs| && After(c, Concat(logs[j..]), h, r.rest))
  {
    var next := Decoder(c, true);
    forall m, t | Small(c, m) ensures TakesRecord(c, next, m, t) {
      RecordReadsBack(c, true, m, t);
    }
    assert logs[|logs|..] == [];
    SearchFinds(c, next, files, logs, |logs|, h, ignore);
  }
}
