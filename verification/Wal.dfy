/**
 The consensus write-ahead log (consensus/wal.go): framed records on a byte
 stream, their decoder over a plain file or over a group of files, the repair of
 a damaged file, and the search for an end-height marker. The protobuf encoding
 and the checksum are parameters.
 */
module Wal {
  datatype Option<T> = None | Some(value: T)

  type byte = x: int | 0 <= x < 256

  type uint32 = x: int | 0 <= x < 0x1_0000_0000

  const MAX_MSG_SIZE_BYTES := 1048576 + 24

  /** One TimedWALMessage; only end-height markers are told apart. */
  datatype Msg = EndHeight(height: int, time: nat) | Other(id: nat)

  datatype Codec = Codec(marshal: Msg -> seq<byte>, unmarshal: seq<byte> -> Option<Msg>, crc: seq<byte> -> uint32)

  /** Marshalling is never empty (the time stamp is always written) and has unmarshalling as its inverse. */
  ghost predicate Good(c: Codec) {
    forall m :: c.marshal(m) != [] && c.unmarshal(c.marshal(m)) == Some(m)
  }

  function U32(n: uint32): (s: seq<byte>)
    ensures |s| == 4
  {
    [n / 16777216, n / 65536 % 256, n / 256 % 256, n % 256]
  }

  function FromU32(s: seq<byte>): nat
    requires |s| == 4
  {
    s[0] as int * 16777216 + s[1] as int * 65536 + s[2] as int * 256 + s[3]
  }

  lemma U32RoundTrip(n: uint32)
    ensures FromU32(U32(n)) == n
  {
    assert n / 256 == n / 65536 * 256 + n / 256 % 256;
    assert n / 65536 == n / 16777216 * 256 + n / 65536 % 256;
  }

  /** Encode: the length is truncated to 32 bits before it is compared and used. */
  function Encode(c: Codec, m: Msg): (r: Option<seq<byte>>) {
    var data := c.marshal(m);
    var length := |data| % 0x1_0000_0000;
    if length > MAX_MSG_SIZE_BYTES then None
    else Some(U32(c.crc(data)) + U32(length) + data[..length])
  }

  datatype ReadError = NoError | Eof | BadRead

  /** What one Read of n bytes leaves in a zeroed buffer, what stays unread, and its error. */
  datatype ReadResult = ReadResult(data: seq<byte>, rest: seq<byte>, err: ReadError)

  function Zeros(n: nat): seq<byte> {
    seq(n, i => 0)
  }

  /** A file gives what it has and reports the end only when it has nothing; a group of files also reports it
      when it had too little, and refuses an empty buffer. */
  function Read(grouped: bool, s: seq<byte>, n: nat): (r: ReadResult)
    ensures |r.data| == n && |r.rest| <= |s|
    ensures n > 0 && r.err == NoError ==> |r.rest| < |s|
  {
    if n == 0 then ReadResult([], s, if grouped then BadRead else NoError)
    else if n <= |s| then ReadResult(s[..n], s[n..], NoError)
    else ReadResult(s + Zeros(n - |s|), [], if grouped || s == [] then Eof else NoError)
  }

  datatype Decoded = Message(m: Msg) | EndOfStream | Corrupt

  /** Decode: the result and the unread rest. */
  function Decode(c: Codec, grouped: bool, s: seq<byte>): (r: (Decoded, seq<byte>))
    ensures !r.0.EndOfStream? ==> |r.1| < |s|
  {
    var sum := Read(grouped, s, 4);
    if sum.err == Eof then (EndOfStream, sum.rest)
    else if sum.err == BadRead then (Corrupt, sum.rest)
    else
      var len := Read(grouped, sum.rest, 4);
      if len.err != NoError then (Corrupt, len.rest)
      else
        var length := FromU32(len.data);
        if length > MAX_MSG_SIZE_BYTES then (Corrupt, len.rest)
        else
          var body := Read(grouped, len.rest, length);
          if body.err != NoError || c.crc(body.data) != FromU32(sum.data) || c.unmarshal(body.data).None?
          then (Corrupt, body.rest)
          else (Message(c.unmarshal(body.data).value), body.rest)
  }

  /** All messages a decoder gives up to the first thing that is not one, and what that was. */
  ghost function Drain(next: seq<byte> -> (Decoded, seq<byte>), s: seq<byte>): (r: (seq<Msg>, Decoded))
    ensures !r.1.Message?
    decreases |s|
  {
    var (d, rest) := next(s);
    if !d.Message? then ([], d)
    else if |rest| >= |s| then ([], Corrupt)
    else ([d.m] + Drain(next, rest).0, Drain(next, rest).1)
  }

  ghost function Decoder(c: Codec, grouped: bool): seq<byte> -> (Decoded, seq<byte>) {
    s => Decode(c, grouped, s)
  }

  ghost function DecodeAll(c: Codec, grouped: bool, s: seq<byte>): (seq<Msg>, Decoded) {
    Drain(Decoder(c, grouped), s)
  }

  ghost predicate Small(c: Codec, m: Msg) {
    |c.marshal(m)| <= MAX_MSG_SIZE_BYTES
  }

  ghost predicate Fits(c: Codec, ms: seq<Msg>) {
    forall i :: 0 <= i < |ms| ==> Small(c, ms[i])
  }

  ghost function Record(c: Codec, m: Msg): seq<byte>
    requires Small(c, m)
  {
    Encode(c, m).value
  }

  /** The stream the encoder writes for ms. */
  ghost function Stream(c: Codec, ms: seq<Msg>): seq<byte>
    requires Fits(c, ms)
  {
    if ms == [] then [] else Record(c, ms[0]) + Stream(c, ms[1..])
  }

  // ----- the round trip -----

  /** The bytes of a record with the given payload. */
  function Framed(c: Codec, data: seq<byte>): seq<byte>
    requires |data| <= MAX_MSG_SIZE_BYTES
  {
    U32(c.crc(data)) + U32(|data|) + data
  }

  /** A payload that unmarshals is read back whole, whatever follows it. */
  lemma FrameReadsBack(c: Codec, grouped: bool, data: seq<byte>, tail: seq<byte>)
    requires 0 < |data| <= MAX_MSG_SIZE_BYTES && c.unmarshal(data).Some?
    ensures Decode(c, grouped, Framed(c, data) + tail) == (Message(c.unmarshal(data).value), tail)
  {
    var head, len := U32(c.crc(data)), U32(|data|);
    var s := Framed(c, data) + tail;
    assert s == head + len + data + tail;
    U32RoundTrip(c.crc(data));
    U32RoundTrip(|data|);
    assert s[..4] == head && s[4..] == len + data + tail;
    assert s[4..][..4] == len && s[4..][4..] == data + tail;
    assert (data + tail)[..|data|] == data && (data + tail)[|data|..] == tail;
  }

  /** A record that is followed by anything is read back whole. */
  lemma RecordReadsBack(c: Codec, grouped: bool, m: Msg, tail: seq<byte>)
    requires Good(c) && Small(c, m)
    ensures Decode(c, grouped, Record(c, m) + tail) == (Message(m), tail)
  {
    var data := c.marshal(m);
    assert data[..|data|] == data;
    assert Record(c, m) == Framed(c, data);
    FrameReadsBack(c, grouped, data, tail);
  }

  /** The decoder takes one record off the front of any stream. */
  ghost predicate TakesRecord(c: Codec, next: seq<byte> -> (Decoded, seq<byte>), m: Msg, tail: seq<byte>)
    requires Small(c, m)
  {
    Record(c, m) != [] && next(Record(c, m) + tail) == (Message(m), tail)
  }

  lemma {:induction false} DrainStream(c: Codec, next: seq<byte> -> (Decoded, seq<byte>), ms: seq<Msg>, tail: seq<byte>)
    requires Good(c) && Fits(c, ms)
    requires forall m, t {:trigger TakesRecord(c, next, m, t)} :: Small(c, m) ==> TakesRecord(c, next, m, t)
    ensures Drain(next, Stream(c, ms) + tail) == (ms + Drain(next, tail).0, Drain(next, tail).1)
  {
    var (rest, stop) := Drain(next, tail);
    if ms == [] {
      assert Stream(c, ms) + tail == tail && ms + rest == rest;
    } else {
      var t := Stream(c, ms[1..]) + tail;
      DrainStream(c, next, ms[1..], tail);
      assert TakesRecord(c, next, ms[0], t);
      assert Stream(c, ms) + tail == Record(c, ms[0]) + t;
      assert [ms[0]] + (ms[1..] + rest) == ms + rest;
    }
  }

  lemma StreamReadsBack(c: Codec, grouped: bool, ms: seq<Msg>, tail: seq<byte>)
    requires Good(c) && Fits(c, ms)
    ensures DecodeAll(c, grouped, Stream(c, ms) + tail) ==
      (ms + DecodeAll(c, grouped, tail).0, DecodeAll(c, grouped, tail).1)
  {
    forall m, t | Small(c, m) ensures TakesRecord(c, Decoder(c, grouped), m, t) {
      RecordReadsBack(c, grouped, m, t);
    }
    DrainStream(c, Decoder(c, grouped), ms, tail);
  }

  /** Reading back what was written gives the same messages and then the end, from a file or a group. */
  lemma RoundTrip(c: Codec, grouped: bool, ms: seq<Msg>)
    requires Good(c) && Fits(c, ms)
    ensures DecodeAll(c, grouped, Stream(c, ms)) == (ms, EndOfStream)
  {
    StreamReadsBack(c, grouped, ms, []);
    assert Stream(c, ms) + [] == Stream(c, ms) && ms + [] == ms;
  }

  /** The encoder accepts exactly the messages that fit, as long as lengths do not wrap at 32 bits. */
  lemma AcceptsIff(c: Codec, m: Msg)
    requires |c.marshal(m)| < 0x1_0000_0000
    ensures Encode(c, m).Some? <==> Fits(c, [m])
  {
    assert Fits(c, [m]) <==> Small(c, [m][0]);
  }

  // ----- what the decoder answers, on bytes -----

  /** One read of n bytes at k succeeds: a group has them all; a file has at least one, or none was asked for. */
  predicate Gives(grouped: bool, s: seq<byte>, k: nat, n: nat) {
    if n == 0 then !grouped else if grouped then k + n <= |s| else k < |s|
  }

  /** The n bytes at k, zeros past the end of the stream. */
  function Bytes(s: seq<byte>, k: nat, n: nat): (r: seq<byte>)
    ensures |r| == n
  {
    seq(n, i requires 0 <= i => if k + i < |s| then s[k + i] else 0)
  }

  /** The length field of the record at the front. */
  function LengthField(s: seq<byte>): nat {
    FromU32(Bytes(s, 4, 4))
  }

  /** A checksum, a length within the limit, and a payload that has the checksum and unmarshals to m. */
  ghost predicate HoldsRecord(c: Codec, grouped: bool, s: seq<byte>, m: Msg) {
    && Gives(grouped, s, 0, 4) && Gives(grouped, s, 4, 4)
    && LengthField(s) <= MAX_MSG_SIZE_BYTES && Gives(grouped, s, 8, LengthField(s))
    && c.crc(Bytes(s, 8, LengthField(s))) == FromU32(Bytes(s, 0, 4))
    && c.unmarshal(Bytes(s, 8, LengthField(s))) == Some(m)
  }

  ghost predicate AtEnd(grouped: bool, s: seq<byte>) {
    s == [] || (grouped && |s| < 4)
  }

  function Past(s: seq<byte>, k: nat): seq<byte> {
    if k <= |s| then s[k..] else []
  }

  lemma ReadIs(grouped: bool, s: seq<byte>, k: nat, n: nat)
    ensures var r := Read(grouped, Past(s, k), n);
      r.err == NoError <==> Gives(grouped, s, k, n)
    ensures var r := Read(grouped, Past(s, k), n);
      r.data == Bytes(s, k, n) && r.rest == Past(s, k + n) && (r.err == BadRead <==> n == 0 && grouped)
  {
    var t, r := Past(s, k), Read(grouped, Past(s, k), n);
    assert forall i :: 0 <= i < n ==> r.data[i] == Bytes(s, k, n)[i];
  }

  /**
   The decoder answers a message exactly when the front of the stream is a record of it,
   whose checksum is right; the end exactly when there is nothing left, or in a group too
   little for a checksum; and corruption for everything else. After a message the rest of
   the stream is what follows the record.
   */
  lemma DecodeIff(c: Codec, grouped: bool, s: seq<byte>)
    ensures forall m :: Decode(c, grouped, s).0 == Message(m) <==> HoldsRecord(c, grouped, s, m)
    ensures Decode(c, grouped, s).0 == EndOfStream <==> AtEnd(grouped, s)
    ensures Decode(c, grouped, s).0.Message? ==> Decode(c, grouped, s).1 == Past(s, 8 + LengthField(s))
  {
    assert Past(s, 0) == s;
    ReadIs(grouped, s, 0, 4);
    ReadIs(grouped, s, 4, 4);
    ReadIs(grouped, s, 8, LengthField(s));
  }

  // ----- encoder and decoder objects -----

  class WalEncoder {
    const codec: Codec
    var wr: seq<byte>

    constructor (c: Codec)
      ensures codec == c && wr == []
    {
      codec, wr := c, [];
    }

    method Write(m: Msg) returns (ok: bool)
      modifies this
      ensures ok <==> Encode(codec, m).Some?
      ensures wr == old(wr) + if ok then Encode(codec, m).value else []
    {
      var data := codec.marshal(m);
      var crc := codec.crc(data);
      var length := |data| % 0x1_0000_0000;
      if length > MAX_MSG_SIZE_BYTES {
        return false;
      }
      var msg := U32(crc) + U32(length) + data[..length];
      wr := wr + msg;
      ok := true;
    }
  }

  class WalDecoder {
    const codec: Codec
    const grouped: bool
    var rd: seq<byte>

    constructor (c: Codec, grouped: bool, stream: seq<byte>)
      ensures codec == c && this.grouped == grouped && rd == stream
    {
      codec, this.grouped, rd := c, grouped, stream;
    }

    /** One Read of the underlying reader into a fresh buffer. */
    method Fill(n: nat) returns (buf: seq<byte>, err: ReadError)
      modifies this
      ensures ReadResult(buf, rd, err) == Read(grouped, old(rd), n)
    {
      if n == 0 {
        return [], if grouped then BadRead else NoError;
      }
      if n <= |rd| {
        buf, rd, err := rd[..n], rd[n..], NoError;
      } else {
        err := if grouped || rd == [] then Eof else NoError;
        buf, rd := rd + Zeros(n - |rd|), [];
      }
    }

    method Next() returns (r: Decoded)
      modifies this
      ensures (r, rd) == Decode(codec, grouped, old(rd))
    {
      var b, err := Fill(4);
      if err == Eof {
        return EndOfStream;
      }
      var crc := FromU32(b);
      b, err := Fill(4);
      if err != NoError {
        return Corrupt;
      }
      var length := FromU32(b);
      if length > MAX_MSG_SIZE_BYTES {
        return Corrupt;
      }
      var data;
      data, err := Fill(length);
      if err != NoError || codec.crc(data) != crc {
        return Corrupt;
      }
      var m := codec.unmarshal(data);
      r := if m.None? then Corrupt else Message(m.value);
    }
  }

  // ----- repair -----

  ghost predicate Writable(c: Codec, m: Msg) {
    Encode(c, m).Some?
  }

  ghost predicate AllWritable(c: Codec, ms: seq<Msg>) {
    forall i :: 0 <= i < |ms| ==> Writable(c, ms[i])
  }

  /** The messages up to the first one the encoder refuses. */
  ghost function Kept(c: Codec, ms: seq<Msg>): seq<Msg> {
    if ms == [] || !Writable(c, ms[0]) then [] else [ms[0]] + Kept(c, ms[1..])
  }

  /** What the encoder writes for messages it accepts. */
  ghost function Written(c: Codec, ms: seq<Msg>): seq<byte> {
    if ms == [] || !Writable(c, ms[0]) then [] else Encode(c, ms[0]).value + Written(c, ms[1..])
  }

  /** Kept is the longest prefix that can be written. */
  lemma {:induction false} KeptIsLongest(c: Codec, ms: seq<Msg>)
    ensures Kept(c, ms) <= ms && AllWritable(c, Kept(c, ms)) && Written(c, Kept(c, ms)) == Written(c, ms)
    ensures |Kept(c, ms)| < |ms| ==> !Writable(c, ms[|Kept(c, ms)|])
    ensures Kept(c, ms) == ms <==> AllWritable(c, ms)
  {
    if ms != [] && Writable(c, ms[0]) {
      KeptIsLongest(c, ms[1..]);
      assert ms == [ms[0]] + ms[1..];
      assert Kept(c, ms)[1..] == Kept(c, ms[1..]);
    }
  }

  /** No message marshals to so many bytes that its length wraps at 32 bits. */
  ghost predicate NoWrap(c: Codec, ms: seq<Msg>) {
    forall i :: 0 <= i < |ms| ==> |c.marshal(ms[i])| < 0x1_0000_0000
  }

  lemma {:induction false} WrittenIsStream(c: Codec, ms: seq<Msg>)
    requires NoWrap(c, ms) && AllWritable(c, ms)
    ensures Fits(c, ms) && Written(c, ms) == Stream(c, ms)
  {
    if ms != [] {
      assert Writable(c, ms[0]) && Small(c, ms[0]);
      WrittenIsStream(c, ms[1..]);
      assert ms == [ms[0]] + ms[1..];
    }
  }

  ghost predicate Agrees(next: seq<byte> -> (Decoded, seq<byte>), c: Codec, s: seq<byte>) {
    next(s) == Decode(c, false, s)
  }

  ghost predicate Reads(next: seq<byte> -> (Decoded, seq<byte>), c: Codec) {
    forall s {:trigger Agrees(next, c, s)} :: Agrees(next, c, s)
  }

  /** What copying the records of s writes, and whether it gets to the first record that does not decode. */
  ghost function Copied(c: Codec, next: seq<byte> -> (Decoded, seq<byte>), s: seq<byte>): (seq<byte>, bool)
    decreases |s|
  {
    var (d, rest) := next(s);
    if !d.Message? || |rest| >= |s| then ([], true)
    else if !Writable(c, d.m) then ([], false)
    else (Encode(c, d.m).value + Copied(c, next, rest).0, Copied(c, next, rest).1)
  }

  lemma {:induction false} CopiedIsWritten(c: Codec, next: seq<byte> -> (Decoded, seq<byte>), s: seq<byte>)
    ensures Copied(c, next, s).0 == Written(c, Drain(next, s).0)
    ensures Copied(c, next, s).1 <==> AllWritable(c, Drain(next, s).0)
    decreases |s|
  {
    var (d, rest) := next(s);
    if d.Message? && |rest| < |s| {
      CopiedIsWritten(c, next, rest);
      WrittenCons(c, d.m, Drain(next, rest).0);
    }
  }

  lemma WrittenCons(c: Codec, m: Msg, ms: seq<Msg>)
    ensures Written(c, [m] + ms) == if Writable(c, m) then Encode(c, m).value + Written(c, ms) else []
    ensures AllWritable(c, [m] + ms) <==> Writable(c, m) && AllWritable(c, ms)
  {
    assert ([m] + ms)[0] == m && ([m] + ms)[1..] == ms;
    if AllWritable(c, [m] + ms) {
      forall i | 0 <= i < |ms| ensures Writable(c, ms[i]) {
        assert ([m] + ms)[i + 1] == ms[i];
      }
    }
  }

  /** Next, in terms of the function that stands for the decoder. */
  method NextOf(dec: WalDecoder, ghost next: seq<byte> -> (Decoded, seq<byte>)) returns (r: Decoded)
    requires !dec.grouped && Reads(next, dec.codec)
    modifies dec
    ensures (r, dec.rd) == next(old(dec.rd)) && (r.Message? ==> |dec.rd| < |old(dec.rd)|)
  {
    assert Agrees(next, dec.codec, dec.rd);
    r := dec.Next();
  }

  lemma Concat3(a: seq<byte>, b: seq<byte>, c: seq<byte>)
    ensures (a + b) + c == a + (b + c)
  {
  }

  /** Moves one record from the decoder to the encoder, if there is one to move and it is not refused. */
  method CopyRecord(dec: WalDecoder, enc: WalEncoder, ghost next: seq<byte> -> (Decoded, seq<byte>))
    returns (more: bool, ok: bool, ghost piece: seq<byte>)
    requires enc.codec == dec.codec && !dec.grouped && Reads(next, dec.codec)
    modifies dec, enc
    ensures enc.wr == old(enc.wr) + piece && (more ==> ok && |dec.rd| < |old(dec.rd)|)
    ensures Copied(dec.codec, next, old(dec.rd)) ==
      if more then (piece + Copied(dec.codec, next, dec.rd).0, Copied(dec.codec, next, dec.rd).1) else (piece, ok)
  {
    more, ok, piece := false, true, [];
    var r := NextOf(dec, next);
    if r.Message? {
      ok := enc.Write(r.m);
      more := ok;
      piece := if ok then Encode(enc.codec, r.m).value else [];
    }
  }

  /** Copies records until one does not decode or is refused. */
  method CopyRecords(dec: WalDecoder, enc: WalEncoder, ghost next: seq<byte> -> (Decoded, seq<byte>)) returns (ok: bool)
    requires enc.codec == dec.codec && !dec.grouped && Reads(next, dec.codec) && enc.wr == []
    modifies dec, enc
    ensures (enc.wr, ok) == Copied(dec.codec, next, old(dec.rd))
  {
    var more := true;
    ok := true;
    while more
      invariant more ==> ok
      invariant var all, rest := Copied(dec.codec, next, old(dec.rd)), if more then Copied(dec.codec, next, dec.rd) else ([], ok);
        enc.wr + rest.0 == all.0 && rest.1 == all.1
      decreases more, |dec.rd|
    {
      ghost var before, piece := enc.wr, [];
      more, ok, piece := CopyRecord(dec, enc, next);
      Concat3(before, piece, if more then Copied(dec.codec, next, dec.rd).0 else []);
    }
    assert enc.wr + [] == enc.wr;
  }

  /**
   Repair succeeds exactly when the encoder takes back every message that decodes, and writes
   the longest prefix it takes; as long as lengths do not wrap, those are the messages that fit.
   */
  method RepairWalFile(c: Codec, src: seq<byte>) returns (ok: bool, dst: seq<byte>)
    ensures var ms := DecodeAll(c, false, src).0;
      && (ok <==> AllWritable(c, ms)) && dst == Written(c, Kept(c, ms))
      && (NoWrap(c, ms) ==> (ok <==> Fits(c, ms)) && Fits(c, Kept(c, ms)) && dst == Stream(c, Kept(c, ms)))
  {
    var dec := new WalDecoder(c, false, src);
    var enc := new WalEncoder(c);
    ok := CopyRecords(dec, enc, Decoder(c, false));
    dst := enc.wr;
    CopiedIsWritten(c, Decoder(c, false), src);
    ghost var ms := DecodeAll(c, false, src).0;
    KeptIsLongest(c, ms);
    if NoWrap(c, ms) {
      KeptFits(c, ms);
    }
  }

  lemma KeptFits(c: Codec, ms: seq<Msg>)
    requires NoWrap(c, ms)
    ensures Fits(c, Kept(c, ms)) && Written(c, Kept(c, ms)) == Stream(c, Kept(c, ms))
    ensures AllWritable(c, ms) <==> Fits(c, ms)
  {
    KeptIsLongest(c, ms);
    WrittenIsStream(c, Kept(c, ms));
    if Fits(c, ms) {
      FitsWritable(c, ms);
    }
  }

  lemma FitsWritable(c: Codec, ms: seq<Msg>)
    requires Fits(c, ms)
    ensures AllWritable(c, ms) && NoWrap(c, ms)
  {
    forall i | 0 <= i < |ms| ensures Writable(c, ms[i]) && |c.marshal(ms[i])| < 0x1_0000_0000 {
      assert Small(c, ms[i]);
    }
  }

  /** The repaired file reads back as the messages kept and then ends; these are all that decode exactly when all of them fit. */
  lemma RepairKeepsPrefix(c: Codec, grouped: bool, src: seq<byte>, ms: seq<Msg>)
    requires Good(c) && ms == DecodeAll(c, false, src).0 && NoWrap(c, ms)
    ensures DecodeAll(c, grouped, Written(c, Kept(c, ms))) == (Kept(c, ms), EndOfStream) && Kept(c, ms) <= ms
    ensures DecodeAll(c, grouped, Written(c, Kept(c, ms))).0 == ms <==> Fits(c, ms)
  {
    KeptIsLongest(c, ms);
    KeptFits(c, ms);
    RoundTrip(c, grouped, Kept(c, ms));
  }

  /** On intact records followed by damage, repair returns the intact bytes and nothing else. */
  lemma RepairDropsTail(c: Codec, ms: seq<Msg>, tail: seq<byte>)
    requires Good(c) && Fits(c, ms) && !Decode(c, false, tail).0.Message?
    ensures DecodeAll(c, false, Stream(c, ms) + tail).0 == ms
    ensures Written(c, Kept(c, ms)) == Stream(c, ms)
  {
    StreamReadsBack(c, false, ms, tail);
    assert ms + [] == ms;
    FitsWritable(c, ms);
    KeptIsLongest(c, ms);
    WrittenIsStream(c, ms);
  }

  /** A payload that unmarshals to a message too long to be written again stops the repair there. */
  lemma UnfitStopsRepair(c: Codec, data: seq<byte>, tail: seq<byte>)
    requires 0 < |data| <= MAX_MSG_SIZE_BYTES && c.unmarshal(data).Some?
    requires MAX_MSG_SIZE_BYTES < |c.marshal(c.unmarshal(data).value)| < 0x1_0000_0000
    ensures var ms := DecodeAll(c, false, Framed(c, data) + tail).0;
      ms != [] && ms[0] == c.unmarshal(data).value && !AllWritable(c, ms) && Kept(c, ms) == []
  {
    FrameReadsBack(c, false, data, tail);
    var ms := DecodeAll(c, false, Framed(c, data) + tail).0;
    assert !Writable(c, ms[0]);
  }

  // ----- a codec with such payloads -----

  /** The time stamp, which marshalling always writes and unmarshalling does not need. */
  const STAMP_SIZE := 13

  function Ones(s: seq<byte>): nat {
    if s != [] && s[0] == 1 then 1 + Ones(s[1..]) else 0
  }

  lemma {:induction false} OnesCounts(n: nat, t: nat)
    ensures Ones(seq(n, i => 1) + Zeros(t)) == n
  {
    if n > 0 {
      OnesCounts(n - 1, t);
      assert (seq(n, i => 1) + Zeros(t))[1..] == seq(n - 1, i => 1) + Zeros(t);
    }
  }

  function Body(m: Msg): seq<byte> {
    match m
    case Other(id) => [3] + Zeros(id)
    case EndHeight(h, t) => [if h >= 0 then 1 else 2] + seq(if h >= 0 then h else -h, i => 1) + Zeros(t)
  }

  function Parse(s: seq<byte>): Option<Msg> {
    if s == [] || s[0] == 0 || s[0] > 3 then None
    else if s[0] == 3 then Some(Other(|s| - 1))
    else
      var n: int := Ones(s[1..]);
      if n > |s| - 1 then None else Some(EndHeight(if s[0] == 1 then n else -n, |s| - 1 - n))
  }

  lemma BodyParses(m: Msg)
    ensures Parse(Body(m)) == Some(m) && Body(m)[0] != 0
  {
    match m
    case Other(id) =>
    case EndHeight(h, t) =>
      var n := if h >= 0 then h else -h;
      OnesCounts(n, t);
      assert Body(m)[1..] == seq(n, i => 1) + Zeros(t);
  }

  function StampedCodec(crc: seq<byte> -> uint32): Codec {
    Codec(m => Zeros(STAMP_SIZE) + Body(m), s => if s != [] && s[0] == 0 && STAMP_SIZE <= |s| then Parse(s[STAMP_SIZE..]) else Parse(s), crc)
  }

  lemma StampedGood(crc: seq<byte> -> uint32)
    ensures Good(StampedCodec(crc))
  {
    var c := StampedCodec(crc);
    forall m ensures c.marshal(m) != [] && c.unmarshal(c.marshal(m)) == Some(m) {
      BodyParses(m);
      assert (Zeros(STAMP_SIZE) + Body(m))[STAMP_SIZE..] == Body(m);
    }
  }

  /**
   Repair can fail: with a codec that always writes a time stamp and reads without one, a
   whole record of the largest size without a stamp decodes and is refused on the way back.
   */
  lemma RepairCanFail(crc: seq<byte> -> uint32, tail: seq<byte>)
    ensures var c, m := StampedCodec(crc), Other(MAX_MSG_SIZE_BYTES - 1);
      && Good(c) && |Body(m)| == MAX_MSG_SIZE_BYTES
      && var ms := DecodeAll(c, false, Framed(c, Body(m)) + tail).0;
      && ms != [] && ms[0] == m && !AllWritable(c, ms) && Kept(c, ms) == []
  {
    var c, m := StampedCodec(crc), Other(MAX_MSG_SIZE_BYTES - 1);
    StampedGood(crc);
    BodyParses(m);
    UnfitStopsRepair(c, Body(m), tail);
  }
}
