/**
 * The framed protocol of src/protocol.cpp: a 28-byte header, a bounded payload, a
 * checksum over both. The codec is an exact bijection between frames and the byte
 * strings the decoder accepts.
 */
module Frames {
  import opened Bytes
  import opened Records
  import Crc32

  const FRAME_MAGIC: nat := 0x5244_4246
  const FRAME_VERSION: nat := 1
  const MAX_PAYLOAD: nat := 0x100_0000
  const HEADER: nat := 28
  const KIND_LIMIT: nat := 25

  datatype Frame = Frame(kind: nat, number: nat, payload: seq<byte>)

  datatype FrameError = TRUNCATED | BAD_MAGIC | BAD_VERSION | INVALID_ENUM | OVERSIZED | CHECKSUM_MISMATCH

  /** A frame the protocol carries: an enumerated kind, a 64-bit sequence number, a bounded payload. */
  predicate Valid(f: Frame) {
    0 < f.kind < KIND_LIMIT && f.number < WORD_LIMIT && |f.payload| <= MAX_PAYLOAD
  }

  // ---- the format ------------------------------------------------------------------

  function Header(kind: nat, number: nat, length: nat): (s: seq<byte>)
    ensures |s| == HEADER
  {
    LE(FRAME_MAGIC, 4) + LE(FRAME_VERSION, 4) + LE(kind, 4) + LE(number, 8) + LE(length, 8)
  }

  function Covered(f: Frame): (s: seq<byte>)
    ensures |s| == HEADER + |f.payload|
  {
    Header(f.kind, f.number, |f.payload|) + f.payload
  }

  /** An oversized payload yields no bytes at all. */
  function Encoded(f: Frame): seq<byte> {
    if |f.payload| > MAX_PAYLOAD then [] else Covered(f) + LE(Crc32.Code(Covered(f)), 4)
  }

  /** The first frame of `data` and the number of bytes it occupies. */
  function Decoded(data: seq<byte>): (r: Result<(Frame, nat), FrameError>)
    ensures r.Ok? ==> 32 <= r.value.1 <= |data|
  {
    if |data| < HEADER then Err(TRUNCATED)
    else if FromLE(data[..4]) != FRAME_MAGIC then Err(BAD_MAGIC)
    else if FromLE(data[4..8]) != FRAME_VERSION then Err(BAD_VERSION)
    else if FromLE(data[8..12]) >= KIND_LIMIT || FromLE(data[8..12]) == 0 then Err(INVALID_ENUM)
    else
      var length := FromLE(data[20..28]);
      if length > MAX_PAYLOAD then Err(OVERSIZED)
      else if |data| < HEADER + length + 4 then Err(TRUNCATED)
      else if !Crc32.Checked(data[..HEADER + length], data[HEADER + length..HEADER + length + 4])
      then Err(CHECKSUM_MISMATCH)
      else Ok((Frame(FromLE(data[8..12]), FromLE(data[12..20]), data[HEADER..HEADER + length]), HEADER + length + 4))
  }

  // ---- the code ----------------------------------------------------------------------

  method Put(v: seq<byte>, x: nat, width: nat) returns (v': seq<byte>)
    ensures v' == v + LE(x, width)
  {
    v' := v;
    for i := 0 to width
      invariant v' == v + LE(x, width)[..i]
    {
      LEByte(x, width, i);
      v' := v' + [x / Pow256(i) % 256];
    }
  }

  /** get32 and get64: the position advances past the bytes that are or-ed in one by one. */
  method Get(d: seq<byte>, p: nat, width: nat) returns (ok: bool, p': nat, x: nat)
    ensures ok <==> p + width <= |d|
    ensures p' == if ok then p + width else p
    ensures ok ==> x == FromLE(d[p..p + width])
  {
    ok, p', x := p + width <= |d|, p, 0;
    if !ok {
      return;
    }
    ghost var from := d[p..p + width];
    for i := 0 to width
      invariant p' == p + i && x == FromLE(from[..i])
    {
      FromLEAppend(from[..i], d[p']);
      assert from[..i + 1] == from[..i] + [d[p']];
      x := x + d[p'] * Pow256(i);
      p' := p' + 1;
    }
    assert from[..width] == from;
  }

  method EncodeFrame(kind: nat, number: nat, payload: seq<byte>) returns (frame: seq<byte>)
    ensures frame == Encoded(Frame(kind, number, payload))
  {
    hide LE, Crc32.Code;
    if |payload| > MAX_PAYLOAD {
      return [];
    }
    frame := Put([], FRAME_MAGIC, 4);
    assert frame == LE(FRAME_MAGIC, 4);
    frame := Put(frame, FRAME_VERSION, 4);
    frame := Put(frame, kind, 4);
    frame := Put(frame, number, 8);
    frame := Put(frame, |payload|, 8);
    assert frame == Header(kind, number, |payload|);
    for i := 0 to |payload|
      invariant frame == Header(kind, number, |payload|) + payload[..i]
    {
      frame := frame + [payload[i]];
    }
    assert frame == Covered(Frame(kind, number, payload));
    var crc := Crc32.Crc(frame);
    frame := Put(frame, crc, 4);
  }

  method DecodeFrame(data: seq<byte>) returns (res: Result<(Frame, nat), FrameError>)
    ensures res == Decoded(data)
  {
    hide FromLE, Crc32.Code;
    if |data| < HEADER {
      return Err(TRUNCATED);
    }
    var p, ok := 0, true;
    var magic, version, kind, number, length;
    ok, p, magic := Get(data, p, 4);
    ok, p, version := Get(data, p, 4);
    ok, p, kind := Get(data, p, 4);
    ok, p, number := Get(data, p, 8);
    ok, p, length := Get(data, p, 8);
    if magic != FRAME_MAGIC {
      return Err(BAD_MAGIC);
    }
    if version != FRAME_VERSION {
      return Err(BAD_VERSION);
    }
    if kind >= KIND_LIMIT || kind == 0 {
      return Err(INVALID_ENUM);
    }
    if length > MAX_PAYLOAD {
      return Err(OVERSIZED);
    }
    var total := HEADER + length + 4;
    if |data| < total {
      return Err(TRUNCATED);
    }
    var expected, q;
    ok, q, expected := Get(data, HEADER + length, 4);
    var actual := Crc32.Crc(data[..HEADER + length]);
    if actual != expected {
      return Err(CHECKSUM_MISMATCH);
    }
    res := Ok((Frame(kind, number, data[HEADER..HEADER + length]), total));
  }

  // ---- the bijection -------------------------------------------------------------------

  lemma Sizes()
    ensures Pow256(4) == 0x1_0000_0000 && Pow256(8) == WORD_LIMIT
  {
    EightBytes();
  }

  lemma HeaderParts(f: Frame, more: seq<byte>)
    requires Valid(f)
    ensures var s := Header(f.kind, f.number, |f.payload|) + more;
            && FromLE(s[..4]) == FRAME_MAGIC && FromLE(s[4..8]) == FRAME_VERSION && FromLE(s[8..12]) == f.kind
            && FromLE(s[12..20]) == f.number && FromLE(s[20..28]) == |f.payload|
  {
    hide LE, FromLE;
    Sizes();
    var s := Header(f.kind, f.number, |f.payload|) + more;
    assert s[..4] == LE(FRAME_MAGIC, 4) && s[4..8] == LE(FRAME_VERSION, 4) && s[8..12] == LE(f.kind, 4);
    assert s[12..20] == LE(f.number, 8) && s[20..28] == LE(|f.payload|, 8);
    FromLEOfLE(FRAME_MAGIC, 4);
    FromLEOfLE(FRAME_VERSION, 4);
    FromLEOfLE(f.kind, 4);
    FromLEOfLE(f.number, 8);
    FromLEOfLE(|f.payload|, 8);
  }

  /** A frame decodes to itself and to its exact length, whatever follows it. */
  lemma FrameRoundTrip(f: Frame, rest: seq<byte>)
    requires Valid(f)
    ensures |Encoded(f)| == 32 + |f.payload|
    ensures Decoded(Encoded(f) + rest) == Ok((f, |Encoded(f)|))
  {
    hide LE, FromLE, Header, Crc32.Code;
    var s, n := Encoded(f) + rest, HEADER + |f.payload|;
    var trailer := LE(Crc32.Code(Covered(f)), 4);
    assert s == Header(f.kind, f.number, |f.payload|) + (f.payload + trailer + rest);
    HeaderParts(f, f.payload + trailer + rest);
    assert s[..n] == Covered(f) && s[n..n + 4] == trailer && s[HEADER..n] == f.payload;
    Crc32.CodeBound(Covered(f));
    FromLEOfLE(Crc32.Code(Covered(f)), 4);
  }

  /** Whatever is accepted is byte for byte the encoding of the valid frame it decodes to. */
  lemma AcceptedIsEncoded(data: seq<byte>)
    requires Decoded(data).Ok?
    ensures var (f, n) := Decoded(data).value;
            Valid(f) && n == 32 + |f.payload| && data[..n] == Encoded(f)
  {
    hide LE, FromLE, Crc32.Code;
    var (f, n) := Decoded(data).value;
    Sizes();
    LEOfFromLE(data[..4]);
    LEOfFromLE(data[4..8]);
    LEOfFromLE(data[8..12]);
    LEOfFromLE(data[12..20]);
    LEOfFromLE(data[20..28]);
    LEOfFromLE(data[n - 4..n]);
    var h := data[..4] + data[4..8] + data[8..12] + data[12..20] + data[20..28];
    assert h == Header(f.kind, f.number, |f.payload|);
    assert data[..n - 4] == h + data[HEADER..n - 4];
    assert data[..n] == data[..n - 4] + data[n - 4..n];
  }

  /** Every strict prefix of a frame is reported as truncated, and as nothing else. */
  lemma PrefixTruncated(f: Frame, k: nat)
    requires Valid(f) && k < |Encoded(f)|
    ensures Decoded(Encoded(f)[..k]) == Err(TRUNCATED)
  {
    hide LE, FromLE, Header, Crc32.Code;
    FrameRoundTrip(f, []);
    var part := Encoded(f)[..k];
    if k >= HEADER {
      var tail := part[HEADER..];
      assert part == Header(f.kind, f.number, |f.payload|) + tail;
      HeaderParts(f, tail);
    }
  }

  /** An unknown kind is refused by the decoder although the encoder writes it. */
  lemma UnknownKindRefused(f: Frame, rest: seq<byte>)
    requires !(0 < f.kind < KIND_LIMIT) && f.kind < Pow256(4) && |f.payload| <= MAX_PAYLOAD
    ensures Decoded(Encoded(f) + rest) == Err(INVALID_ENUM)
  {
    hide LE, FromLE, Crc32.Code;
    Sizes();
    var s := Encoded(f) + rest;
    assert s[..4] == LE(FRAME_MAGIC, 4) && s[4..8] == LE(FRAME_VERSION, 4) && s[8..12] == LE(f.kind, 4);
    FromLEOfLE(FRAME_MAGIC, 4);
    FromLEOfLE(FRAME_VERSION, 4);
    FromLEOfLE(f.kind, 4);
  }

  // ---- streams ----------------------------------------------------------------------------

  function Concatenated(fs: seq<Frame>): seq<byte> {
    if fs == [] then [] else Encoded(fs[0]) + Concatenated(fs[1..])
  }

  /** Repeated decoding: the frames, and the error that stopped it, if any. */
  function DecodedAll(data: seq<byte>): (seq<Frame>, Option<FrameError>)
    decreases |data|
  {
    if data == [] then ([], None) else
      match Decoded(data)
      case Err(e) => ([], Some(e))
      case Ok((f, n)) =>
        var (fs, e) := DecodedAll(data[n..]);
        ([f] + fs, e)
  }

  /** The receiving loop: each accepted frame consumes at least 32 bytes, so it ends. */
  method DecodeStream(data: seq<byte>) returns (fs: seq<Frame>, error: Option<FrameError>)
    ensures (fs, error) == DecodedAll(data)
  {
    hide Decoded;
    fs := [];
    var left := data;
    ghost var all := DecodedAll(data);
    assert [] + all.0 == all.0;
    while left != []
      invariant all == (fs + DecodedAll(left).0, DecodedAll(left).1)
      decreases |left|
    {
      var res := DecodeFrame(left);
      if res.Err? {
        assert fs + [] == fs;
        return fs, Some(res.error);
      }
      var (f, n) := res.value;
      assert fs + ([f] + DecodedAll(left[n..]).0) == (fs + [f]) + DecodedAll(left[n..]).0;
      fs := fs + [f];
      left := left[n..];
    }
    assert fs + [] == fs;
    error := None;
  }

  lemma {:induction false} StreamRoundTrip(fs: seq<Frame>, cut: seq<byte>)
    requires forall f :: f in fs ==> Valid(f)
    requires cut == [] || exists f, k :: Valid(f) && 0 < k < |Encoded(f)| && cut == Encoded(f)[..k]
    ensures DecodedAll(Concatenated(fs) + cut) == (fs, if cut == [] then None else Some(TRUNCATED))
  {
    hide Encoded, Decoded;
    if fs == [] {
      assert Concatenated(fs) + cut == cut;
      if cut != [] {
        var f, k :| Valid(f) && 0 < k < |Encoded(f)| && cut == Encoded(f)[..k];
        PrefixTruncated(f, k);
      }
    } else {
      var tail := Concatenated(fs[1..]) + cut;
      var data := Encoded(fs[0]) + tail;
      assert Concatenated(fs) + cut == data;
      FrameRoundTrip(fs[0], tail);
      assert data[|Encoded(fs[0])|..] == tail;
      StreamRoundTrip(fs[1..], cut);
      assert [fs[0]] + fs[1..] == fs;
    }
  }

  /** What a stream was decoded to, encoded again, is the part of the stream that was consumed. */
  lemma {:induction false} StreamExact(data: seq<byte>)
    ensures var (fs, e) := DecodedAll(data);
            && (forall f :: f in fs ==> Valid(f))
            && Concatenated(fs) <= data
            && (e.None? ==> Concatenated(fs) == data)
    decreases |data|
  {
    hide Encoded, Decoded;
    if data != [] && Decoded(data).Ok? {
      var (f, n) := Decoded(data).value;
      AcceptedIsEncoded(data);
      StreamExact(data[n..]);
      var fs := DecodedAll(data[n..]).0;
      assert ([f] + fs)[1..] == fs;
      assert data == data[..n] + data[n..];
    }
  }

  // ---- corruption -----------------------------------------------------------------------------

  /**
   * A frame damaged inside a window of 32 consecutive bits is not accepted, wherever
   * the window lies, provided the length field still reads the same.
   */
  lemma BurstRejected(data: seq<byte>, data': seq<byte>, lo: nat)
    requires Decoded(data).Ok? && |data'| == |data|
    requires var n := Decoded(data).value.1; Crc32.BurstBytes(data[..n], data'[..n], lo)
    requires data'[20..28] == data[20..28]
    ensures Decoded(data').Err?
  {
    hide Crc32.BurstBytes, Crc32.Checked, FromLE;
    var n := Decoded(data).value.1;
    var m := n - 4;
    assert data[..n] == data[..m] + data[m..n] && data'[..n] == data'[..m] + data'[m..n];
    Crc32.BurstRejected(data[..m], data[m..n], data'[..m], data'[m..n], lo);
  }

  lemma FourBytesRejected(data: seq<byte>, data': seq<byte>, k: nat)
    requires Decoded(data).Ok? && |data'| == |data|
    requires var n := Decoded(data).value.1;
             && data[..n] != data'[..n]
             && forall i :: 0 <= i < n && !(k <= i < k + 4) ==> data[i] == data'[i]
    requires data'[20..28] == data[20..28]
    ensures Decoded(data').Err?
  {
    hide Crc32.BurstBytes, Decoded;
    var n := Decoded(data).value.1;
    Crc32.FourBytesAreABurst(data[..n], data'[..n], k);
    BurstRejected(data, data', 8 * k);
  }
}
