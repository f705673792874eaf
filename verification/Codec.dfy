/** The wire formats of internal/proto/proto.go: length-prefixed control frames and session-tagged datagrams. */
module Codec {
  import opened Basics

  newtype byte = x: int | 0 <= x < 256

  type Bytes = seq<byte>

  // ---- big-endian numbers ----

  function BigEndian(n: nat, v: nat): (b: Bytes)
    ensures |b| == n
  {
    if n == 0 then [] else BigEndian(n - 1, v / 256) + [(v % 256) as byte]
  }

  function Value(b: Bytes): nat {
    if b == [] then 0 else Value(b[..|b| - 1]) * 256 + b[|b| - 1] as int
  }

  function Pow256(n: nat): (p: nat)
    ensures p > 0
  {
    if n == 0 then 1 else 256 * Pow256(n - 1)
  }

  lemma {:induction false} ValueOfBigEndian(n: nat, v: nat)
    requires v < Pow256(n)
    ensures Value(BigEndian(n, v)) == v
  {
    if n > 0 {
      ValueOfBigEndian(n - 1, v / 256);
      assert BigEndian(n, v)[..n - 1] == BigEndian(n - 1, v / 256);
    }
  }

  lemma {:induction false} BigEndianOfValue(b: Bytes)
    ensures Value(b) < Pow256(|b|) && BigEndian(|b|, Value(b)) == b
  {
    if b != [] {
      BigEndianOfValue(b[..|b| - 1]);
      assert Value(b) / 256 == Value(b[..|b| - 1]);
      assert b == b[..|b| - 1] + [b[|b| - 1]];
    }
  }

  /** Byte i of n, counted from the front, is worth 256 to the power of the number of bytes after it. */
  lemma {:induction false} BigEndianAt(n: nat, v: nat, i: nat)
    requires i < n
    ensures BigEndian(n, v)[i] as int == v / Pow256(n - 1 - i) % 256
  {
    if i < n - 1 {
      BigEndianAt(n - 1, v / 256, i);
      DivideTwice(v, Pow256(n - 2 - i));
    }
  }

  lemma DivideTwice(v: nat, d: nat)
    requires d > 0
    ensures (v / 256) / d == v / (256 * d)
  {
    var q, r := v / 256 / d, v / 256 % d;
    assert v / 256 == q * d + r;
    assert v == (q * d + r) * 256 + v % 256;
    assert (q * d + r) * 256 == q * (256 * d) + r * 256;
    assert r * 256 + v % 256 < 256 * d;
    QuotientUnique(v, 256 * d, q, r * 256 + v % 256);
  }

  /** A session id and a length as they travel, most significant byte first. */
  lemma HeaderBytes(v: nat)
    ensures forall i :: 0 <= i < 8 ==> BigEndian(8, v)[i] as int == v / Pow256(7 - i) % 256
    ensures forall i :: 0 <= i < 4 ==> BigEndian(4, v)[i] as int == v / Pow256(3 - i) % 256
  {
    forall i | 0 <= i < 8 ensures BigEndian(8, v)[i] as int == v / Pow256(7 - i) % 256 {
      BigEndianAt(8, v, i);
    }
    forall i | 0 <= i < 4 ensures BigEndian(4, v)[i] as int == v / Pow256(3 - i) % 256 {
      BigEndianAt(4, v, i);
    }
  }

  const U32: nat := 0x1_0000_0000
  const U64: nat := 0x1_0000_0000_0000_0000

  lemma Widths()
    ensures Pow256(4) == U32 && Pow256(8) == U64
  {
    assert Pow256(2) == 0x1_0000;
    assert Pow256(3) == 0x100_0000;
    assert Pow256(4) == U32;
    assert Pow256(5) == 0x100_0000_0000;
    assert Pow256(6) == 0x1_0000_0000_0000;
    assert Pow256(7) == 0x100_0000_0000_0000;
  }

  // ---- datagrams ----

  const HEADER: nat := 8

  /** What travels on the relay: the session id, then the packet. */
  function Tagged(sid: nat, pkt: Bytes): Bytes {
    BigEndian(HEADER, sid) + pkt
  }

  method EncodeDatagram(sid: nat, pkt: Bytes) returns (out: array<byte>)
    ensures fresh(out) && out[..] == Tagged(sid, pkt)
  {
    out := new byte[HEADER + |pkt|];
    var head := BigEndian(HEADER, sid);
    forall i | 0 <= i < HEADER { out[i] := head[i]; }
    forall i | 0 <= i < |pkt| { out[HEADER + i] := pkt[i]; }
    assert out[..HEADER] == head;
    assert out[HEADER..] == pkt;
    assert out[..] == out[..HEADER] + out[HEADER..];
  }

  function DecodeDatagram(b: Bytes): Option<(nat, Bytes)> {
    if |b| < HEADER then None else Some((Value(b[..HEADER]), b[HEADER..]))
  }

  /** On the wire: eight bytes of session id, most significant first, then the packet. */
  lemma TaggedBytes(sid: nat, pkt: Bytes)
    ensures |Tagged(sid, pkt)| == 8 + |pkt| && Tagged(sid, pkt)[8..] == pkt
    ensures forall i :: 0 <= i < 8 ==> Tagged(sid, pkt)[i] as int == sid / Pow256(7 - i) % 256
  {
    HeaderBytes(sid);
  }

  lemma DatagramRoundTrip(sid: nat, pkt: Bytes)
    requires sid < U64
    ensures DecodeDatagram(Tagged(sid, pkt)) == Some((sid, pkt))
  {
    Widths();
    ValueOfBigEndian(HEADER, sid);
    assert Tagged(sid, pkt)[..HEADER] == BigEndian(HEADER, sid);
    assert Tagged(sid, pkt)[HEADER..] == pkt;
  }

  /** Every datagram of at least eight bytes is the tagging of exactly one id and packet. */
  lemma DatagramIsTagged(b: Bytes)
    ensures DecodeDatagram(b).None? <==> |b| < HEADER
    ensures forall sid, pkt :: DecodeDatagram(b) == Some((sid, pkt)) ==> sid < U64 && Tagged(sid, pkt) == b
  {
    Widths();
    if |b| >= HEADER {
      BigEndianOfValue(b[..HEADER]);
      assert b == b[..HEADER] + b[HEADER..];
    }
  }

  // ---- control frames ----

  const LIMIT: nat := 0x10_0000

  /** JSON, as far as framing can tell: a printer that may refuse and a parser that may refuse. */
  datatype Json<!M> = Json(marshal: M -> Option<Bytes>, unmarshal: Bytes -> Option<M>)

  ghost predicate ParsesBack<M(!new)>(j: Json<M>) {
    forall m :: j.marshal(m).Some? ==> j.unmarshal(j.marshal(m).value) == Some(m)
  }

  datatype Outcome<M> = Message(m: M) | EndOfStream | TooLarge | Malformed

  function Framed(b: Bytes): Bytes {
    BigEndian(4, |b|) + b
  }

  /** What the writer makes of a message; None when it refuses and writes nothing. */
  function Written<M>(j: Json<M>, m: M): Option<Bytes> {
    var b := j.marshal(m);
    if b.None? || |b.value| > LIMIT then None else Some(Framed(b.value))
  }

  /** What the reader makes of a stream, and what it leaves behind. */
  function Read<M>(j: Json<M>, s: Bytes): (Outcome<M>, Bytes) {
    if |s| < 4 then (EndOfStream, [])
    else
      var n := Value(s[..4]);
      if n > LIMIT then (TooLarge, s[4..])
      else if |s| < 4 + n then (EndOfStream, [])
      else
        var r := j.unmarshal(s[4..4 + n]);
        (if r.Some? then Message(r.value) else Malformed, s[4 + n..])
  }

  /** A byte stream that takes so many bytes more before it breaks. */
  class Pipe {
    var data: Bytes
    var room: nat

    constructor (room: nat)
      ensures data == [] && this.room == room
    {
      data, this.room := [], room;
    }

    /** Write as much as the stream takes; fail if that is not everything. */
    method Write(b: Bytes) returns (ok: bool)
      modifies this
      ensures ok == (|b| <= old(room))
      ensures data == old(data) + b[..Min(|b|, old(room))] && room == old(room) - Min(|b|, old(room))
    {
      ok := |b| <= room;
      var k := Min(|b|, room);
      data, room := data + b[..k], room - k;
    }

    /** Take n bytes, or everything and fail. */
    method ReadFull(n: nat) returns (b: Bytes, ok: bool)
      modifies this`data
      ensures ok == (|old(data)| >= n)
      ensures ok ==> b == old(data)[..n] && data == old(data)[n..]
      ensures !ok ==> data == []
    {
      ok := |data| >= n;
      var k := if ok then n else |data|;
      b, data := data[..k], data[k..];
    }
  }

  /**
   Write one frame. A refused message leaves the stream alone; a stream that breaks is left with part of the frame.
   */
  method WriteControl<M>(j: Json<M>, w: Pipe, m: M) returns (ok: bool)
    modifies w
    ensures Written(j, m).None? ==> !ok && w.data == old(w.data) && w.room == old(w.room)
    ensures Written(j, m).Some? ==>
              var f, k := Written(j, m).value, Min(|Written(j, m).value|, old(w.room));
              ok == (|f| <= old(w.room)) && w.data == old(w.data) + f[..k] && w.room == old(w.room) - k
  {
    var b := j.marshal(m);
    if b.None? || |b.value| > LIMIT {
      return false;
    }
    PrefixOfSum(BigEndian(4, |b.value|), b.value, Min(4 + |b.value|, w.room));
    ok := w.Write(BigEndian(4, |b.value|));
    if !ok {
      return;
    }
    ok := w.Write(b.value);
  }

  method ReadControl<M>(j: Json<M>, r: Pipe) returns (m: Outcome<M>)
    modifies r`data
    ensures (m, r.data) == Read(j, old(r.data))
    ensures m.TooLarge? <==> |old(r.data)| >= 4 && Value(old(r.data)[..4]) > 1048576
    ensures m.TooLarge? ==> r.data == old(r.data)[4..]
    ensures m.EndOfStream? ==> r.data == []
  {
    var hdr, ok := r.ReadFull(4);
    if !ok {
      return EndOfStream;
    }
    var n := Value(hdr);
    if n > LIMIT {
      return TooLarge;
    }
    var buf;
    buf, ok := r.ReadFull(n);
    if !ok {
      return EndOfStream;
    }
    assert old(r.data)[4..][..n] == old(r.data)[4..4 + n];
    assert old(r.data)[4..][n..] == old(r.data)[4 + n..];
    var v := j.unmarshal(buf);
    return if v.Some? then Message(v.value) else Malformed;
  }

  /** A message is written if and only if it prints to at most 2^20 bytes, behind a header of four bytes. */
  lemma WrittenIff<M>(j: Json<M>, m: M)
    ensures Written(j, m).Some? <==> j.marshal(m).Some? && |j.marshal(m).value| <= 1048576
    ensures Written(j, m).Some? ==>
              var f, b := Written(j, m).value, j.marshal(m).value;
              |f| == 4 + |b| && f[4..] == b && forall i :: 0 <= i < 4 ==> f[i] as int == |b| / Pow256(3 - i) % 256
  {
    if Written(j, m).Some? {
      var b := j.marshal(m).value;
      HeaderBytes(|b|);
      assert (BigEndian(4, |b|) + b)[4..] == b;
    }
  }

  /** A frame is read back whole, and nothing after it is touched. */
  lemma ReadFramed<M>(j: Json<M>, b: Bytes, rest: Bytes)
    requires |b| <= LIMIT
    ensures Read(j, Framed(b) + rest).1 == rest
    ensures var v := j.unmarshal(b); Read(j, Framed(b) + rest).0 == if v.Some? then Message(v.value) else Malformed
  {
    Widths();
    ValueOfBigEndian(4, |b|);
    var s := Framed(b) + rest;
    assert s[..4] == BigEndian(4, |b|);
    assert s[4..4 + |b|] == b;
    assert s[4 + |b|..] == rest;
  }

  /** Conversely, whatever is read as a message was one frame within the limit. */
  lemma ReadConsumesOneFrame<M>(j: Json<M>, s: Bytes) returns (b: Bytes)
    requires Read(j, s).0.Message?
    ensures |b| <= LIMIT && s == Framed(b) + Read(j, s).1 && j.unmarshal(b) == Some(Read(j, s).0.m)
  {
    var n := Value(s[..4]);
    b := s[4..4 + n];
    BigEndianOfValue(s[..4]);
    assert s == s[..4] + s[4..4 + n] + s[4 + n..];
  }

  /** A frame that fits its 32-bit header is turned away by the reader exactly when the writer would refuse it. */
  lemma SameLimit<M>(j: Json<M>, m: M, rest: Bytes)
    requires j.marshal(m).Some? && |j.marshal(m).value| < U32
    ensures Written(j, m).None? <==> Read(j, Framed(j.marshal(m).value) + rest).0.TooLarge?
  {
    var b := j.marshal(m).value;
    Widths();
    ValueOfBigEndian(4, |b|);
    assert (Framed(b) + rest)[..4] == BigEndian(4, |b|);
  }

  // ---- whole streams ----

  /** The stream that writing the messages in order produces. */
  function Stream<M>(j: Json<M>, ms: seq<M>): Bytes
    requires forall i :: 0 <= i < |ms| ==> Written(j, ms[i]).Some?
  {
    if ms == [] then [] else Written(j, ms[0]).value + Stream(j, ms[1..])
  }

  /** Reading n times: the outcomes and what is left. */
  function ReadMany<M>(j: Json<M>, n: nat, s: Bytes): (seq<Outcome<M>>, Bytes) {
    if n == 0 then ([], s)
    else
      var (o, rest) := Read(j, s);
      var (os, end) := ReadMany(j, n - 1, rest);
      ([o] + os, end)
  }

  function Messages<M>(ms: seq<M>): seq<Outcome<M>> {
    seq(|ms|, i requires 0 <= i < |ms| => Message(ms[i]))
  }

  lemma {:induction false} StreamRoundTrip<M(!new)>(j: Json<M>, ms: seq<M>, rest: Bytes)
    requires ParsesBack(j)
    requires forall i :: 0 <= i < |ms| ==> Written(j, ms[i]).Some?
    ensures ReadMany(j, |ms|, Stream(j, ms) + rest) == (Messages(ms), rest)
  {
    if ms == [] {
      assert Stream(j, ms) + rest == rest;
    } else {
      var b := j.marshal(ms[0]).value;
      var tail := Stream(j, ms[1..]) + rest;
      assert Stream(j, ms) + rest == Framed(b) + tail;
      ReadFramed(j, b, tail);
      StreamRoundTrip(j, ms[1..], rest);
      assert Messages(ms) == [Message(ms[0])] + Messages(ms[1..]);
    }
  }

  /** Read until something other than a message comes: the messages and what stopped the reader. */
  function ReadAll<M>(j: Json<M>, s: Bytes): (seq<M>, Outcome<M>)
    decreases |s|
  {
    var (o, rest) := Read(j, s);
    if o.Message? then
      var (ms, end) := ReadAll(j, rest);
      ([o.m] + ms, end)
    else ([], o)
  }

  /** The number of whole frames among the first c bytes. */
  function Complete<M>(j: Json<M>, ms: seq<M>, c: nat): (k: nat)
    requires forall i :: 0 <= i < |ms| ==> Written(j, ms[i]).Some?
    ensures k <= |ms|
  {
    if ms == [] || c < |Written(j, ms[0]).value| then 0
    else 1 + Complete(j, ms[1..], c - |Written(j, ms[0]).value|)
  }

  lemma {:induction false} CompleteIsMost<M>(j: Json<M>, ms: seq<M>, c: nat)
    requires forall i :: 0 <= i < |ms| ==> Written(j, ms[i]).Some?
    ensures var k := Complete(j, ms, c);
            |Stream(j, ms[..k])| <= c && (k < |ms| ==> c < |Stream(j, ms[..k + 1])|)
  {
    if ms != [] && c >= |Written(j, ms[0]).value| {
      CompleteIsMost(j, ms[1..], c - |Written(j, ms[0]).value|);
      var k := Complete(j, ms, c);
      assert ms[..k][1..] == ms[1..][..k - 1];
      assert k < |ms| ==> ms[..k + 1][1..] == ms[1..][..k];
    }
  }

  /** A stream cut anywhere yields exactly the messages whose frames are complete, then the end of the stream. */
  lemma {:induction false} CutStream<M(!new)>(j: Json<M>, ms: seq<M>, c: nat)
    requires ParsesBack(j)
    requires forall i :: 0 <= i < |ms| ==> Written(j, ms[i]).Some?
    requires c <= |Stream(j, ms)|
    ensures ReadAll(j, Stream(j, ms)[..c]) == (ms[..Complete(j, ms, c)], EndOfStream)
  {
    if ms != [] {
      var f := Written(j, ms[0]).value;
      if c < |f| {
        CutEarly(j, ms[0], Stream(j, ms[1..]), c);
      } else {
        CutStream(j, ms[1..], c - |f|);
        CutLater(j, ms[0], Stream(j, ms[1..]), c);
        CompleteLater(j, ms, c);
      }
    }
  }

  lemma CutEarly<M>(j: Json<M>, m: M, tail: Bytes, c: nat)
    requires Written(j, m).Some? && c < |Written(j, m).value|
    ensures ReadAll(j, (Written(j, m).value + tail)[..c]) == ([], EndOfStream)
  {
    var f := Written(j, m).value;
    PrefixOfSum(f, tail, c);
    CutFrame(j, j.marshal(m).value, f[..c]);
  }

  lemma CutLater<M(!new)>(j: Json<M>, m: M, tail: Bytes, c: nat)
    requires ParsesBack(j) && Written(j, m).Some?
    requires |Written(j, m).value| <= c <= |Written(j, m).value + tail|
    ensures var (ms, end) := ReadAll(j, tail[..c - |Written(j, m).value|]);
            ReadAll(j, (Written(j, m).value + tail)[..c]) == ([m] + ms, end)
  {
    var f := Written(j, m).value;
    PrefixOfSum(f, tail, c);
    ReadFramed(j, j.marshal(m).value, tail[..c - |f|]);
  }

  lemma CompleteLater<M>(j: Json<M>, ms: seq<M>, c: nat)
    requires forall i :: 0 <= i < |ms| ==> Written(j, ms[i]).Some?
    requires ms != [] && |Written(j, ms[0]).value| <= c
    ensures ms[..Complete(j, ms, c)] == [ms[0]] + ms[1..][..Complete(j, ms[1..], c - |Written(j, ms[0]).value|)]
  {
    PrefixOfSum([ms[0]], ms[1..], Complete(j, ms, c));
    assert ms == [ms[0]] + ms[1..];
  }

  lemma PrefixOfSum<T>(a: seq<T>, b: seq<T>, c: nat)
    requires c <= |a| + |b|
    ensures (a + b)[..c] == if c < |a| then a[..c] else a + b[..c - |a|]
  {
  }

  /** A strict prefix of a frame is read as the end of the stream. */
  lemma CutFrame<M>(j: Json<M>, b: Bytes, s: Bytes)
    requires |b| <= LIMIT && s < Framed(b)
    ensures Read(j, s).0 == EndOfStream
  {
    Widths();
    ValueOfBigEndian(4, |b|);
    if |s| >= 4 {
      assert s[..4] == BigEndian(4, |b|);
    }
  }
}
