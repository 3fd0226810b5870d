/**
 * The protocol payloads of include/rdmabuffer/codec.hpp. The descriptor is written
 * and read here field by field, by code of its own; that it agrees byte for byte
 * with the saved format is what the contracts state.
 */
module WireCodec {
  import opened Bytes
  import opened Records
  import opened Layouts
  import opened ByteIo
  import opened RecordFormats

  // ---- writing -----------------------------------------------------------------

  method PutWord(w: Writer, v: nat, ghost at: seq<byte>, ghost row: seq<Value>) returns (ghost row': seq<Value>)
    requires w.buf == at + Encode(row)
    modifies w
    ensures row' == row + [W(v)] && w.buf == at + Encode(row')
  {
    hide LE, Encode;
    w.U64(v);
    row' := row + [W(v)];
    EncodeSnoc(row, W(v));
  }

  method PutByte(w: Writer, b: byte, ghost at: seq<byte>, ghost row: seq<Value>) returns (ghost row': seq<Value>)
    requires w.buf == at + Encode(row)
    modifies w
    ensures row' == row + [C(b)] && w.buf == at + Encode(row')
  {
    hide Encode;
    w.U8(b);
    row' := row + [C(b)];
    EncodeSnoc(row, C(b));
  }

  method WriteDescriptor(w: Writer, d: BufferDescriptor)
    modifies w
    ensures w.buf == old(w.buf) + Encode(DescriptorRow(d))
  {
    hide Encode, MemoryRow, HolderRow, TermRow;
    WriteMemory(w, d);
    WriteHolder(w, d);
    WriteTerms(w, d);
    EncodeConcat(MemoryRow(d), HolderRow(d));
    EncodeConcat(MemoryRow(d) + HolderRow(d), TermRow(d));
  }

  method WriteMemory(w: Writer, d: BufferDescriptor)
    modifies w
    ensures w.buf == old(w.buf) + Encode(MemoryRow(d))
  {
    hide Encode;
    ghost var at, row := w.buf, [];
    EncodeNothing();
    row := PutWord(w, d.id, at, row);
    row := PutWord(w, d.generation, at, row);
    row := PutByte(w, DomainCode(d.domain), at, row);
    row := PutWord(w, d.address, at, row);
    row := PutByte(w, PointerCode(d.pointer), at, row);
    row := PutWord(w, d.byteLength, at, row);
    row := PutWord(w, d.alignment, at, row);
    row := PutWord(w, d.pageSize, at, row);
    assert row == MemoryRow(d);
  }

  method WriteHolder(w: Writer, d: BufferDescriptor)
    modifies w
    ensures w.buf == old(w.buf) + Encode(HolderRow(d))
  {
    hide Encode;
    ghost var at, row := w.buf, [];
    EncodeNothing();
    row := PutWord(w, d.owner, at, row);
    row := PutWord(w, d.process, at, row);
    row := PutWord(w, d.worker, at, row);
    row := PutWord(w, d.node, at, row);
    row := PutWord(w, d.device, at, row);
    assert row == HolderRow(d);
  }

  method WriteTerms(w: Writer, d: BufferDescriptor)
    modifies w
    ensures w.buf == old(w.buf) + Encode(TermRow(d))
  {
    hide Encode, MaskByte;
    ghost var at, row := w.buf, [];
    EncodeNothing();
    row := PutByte(w, DirectionCode(d.direction), at, row);
    row := PutByte(w, MaskByte(d.requestedAccess), at, row);
    row := PutByte(w, ModeCode(d.mode), at, row);
    row := PutByte(w, LifetimeCode(d.lifetime), at, row);
    row := PutByte(w, ProvenanceCode(d.provenance), at, row);
    row := PutByte(w, FreshnessCode(d.freshness), at, row);
    row := PutWord(w, d.policyGeneration, at, row);
    assert row == TermRow(d);
  }

  lemma EncodeNothing()
    ensures Encode([]) == []
  {
  }

  // ---- reading -----------------------------------------------------------------

  /** Field `k` of the layout `fs`, the fields before it having been read from `from` as `row`. */
  method GetWord(r: Reader, fs: Layout, ghost from: seq<byte>, k: nat, ghost row: seq<Value>)
    returns (v: Option<nat>, ghost row': seq<Value>)
    requires r.Valid() && k < |fs| && fs[k] == Word64
    requires Decode(fs[..k], from) == Some((row, r.Rest()))
    modifies r
    ensures r.Valid()
    ensures v.None? ==> Decode(fs, from).None?
    ensures v.Some? ==> row' == row + [W(v.value)] && Decode(fs[..k + 1], from) == Some((row', r.Rest()))
  {
    hide Decode, DecodeWord;
    assert fs[..k + 1] == fs[..k] + [fs[k]];
    DecodeSnoc(fs[..k], fs[k], from);
    row' := row;
    v := r.U64();
    if v.None? {
      FailingPrefix(fs[..k + 1], fs, from);
    } else {
      row' := row + [W(v.value)];
    }
  }

  /** The same for a byte with an upper bound. */
  method GetCode(r: Reader, fs: Layout, ghost from: seq<byte>, k: nat, ghost row: seq<Value>, limit: nat)
    returns (v: Option<byte>, ghost row': seq<Value>)
    requires r.Valid() && k < |fs| && fs[k] == Code(limit)
    requires Decode(fs[..k], from) == Some((row, r.Rest()))
    modifies r
    ensures r.Valid()
    ensures v.None? ==> Decode(fs, from).None?
    ensures v.Some? ==> row' == row + [C(v.value)] && Decode(fs[..k + 1], from) == Some((row', r.Rest()))
  {
    hide Decode;
    assert fs[..k + 1] == fs[..k] + [fs[k]];
    DecodeSnoc(fs[..k], fs[k], from);
    row' := row;
    v := r.U8();
    if v.Some? && v.value > limit {
      v := None;
    }
    if v.None? {
      FailingPrefix(fs[..k + 1], fs, from);
    } else {
      row' := row + [C(v.value)];
    }
  }

  /** A group of fields read from `from` in full, as `row`, unless it is refused. */
  ghost predicate Read(r: Reader, fs: Layout, from: seq<byte>, row: seq<Value>, ok: bool)
    reads r
  {
    r.Valid() && if ok then Decode(fs, from) == Some((row, r.Rest())) else Decode(fs, from).None?
  }

  method ReadMemory(r: Reader, b: BufferDescriptor) returns (ok: bool, d: BufferDescriptor, ghost row: seq<Value>)
    requires r.Valid()
    modifies r
    ensures Read(r, MemoryFields, old(r.Rest()), row, ok)
    ensures ok ==> |row| == 8 && d == b.(
        id := Num(row[0]), generation := Num(row[1]), domain := DomainOf(Byt(row[2])), address := Num(row[3]),
        pointer := PointerOf(Byt(row[4])), byteLength := Num(row[5]), alignment := Num(row[6]), pageSize := Num(row[7]))
  {
    hide Decode;
    ghost var from := r.Rest();
    ok, d, row := false, b, [];
    DecodeNothing(MemoryFields, from);
    var id, generation, domain, address, pointer, byteLength, alignment, pageSize;
    id, row := GetWord(r, MemoryFields, from, 0, row);
    if id.None? { return; }
    generation, row := GetWord(r, MemoryFields, from, 1, row);
    if generation.None? { return; }
    domain, row := GetCode(r, MemoryFields, from, 2, row, 7);
    if domain.None? { return; }
    address, row := GetWord(r, MemoryFields, from, 3, row);
    if address.None? { return; }
    pointer, row := GetCode(r, MemoryFields, from, 4, row, 5);
    if pointer.None? { return; }
    byteLength, row := GetWord(r, MemoryFields, from, 5, row);
    if byteLength.None? { return; }
    alignment, row := GetWord(r, MemoryFields, from, 6, row);
    if alignment.None? { return; }
    pageSize, row := GetWord(r, MemoryFields, from, 7, row);
    if pageSize.None? { return; }
    assert MemoryFields[..8] == MemoryFields;
    ok, d := true, b.(
      id := id.value, generation := generation.value, domain := DomainOf(domain.value), address := address.value,
      pointer := PointerOf(pointer.value), byteLength := byteLength.value, alignment := alignment.value,
      pageSize := pageSize.value);
  }

  method ReadHolder(r: Reader, b: BufferDescriptor) returns (ok: bool, d: BufferDescriptor, ghost row: seq<Value>)
    requires r.Valid()
    modifies r
    ensures Read(r, HolderFields, old(r.Rest()), row, ok)
    ensures ok ==> |row| == 5 && d == b.(
        owner := Num(row[0]), process := Num(row[1]), worker := Num(row[2]), node := Num(row[3]), device := Num(row[4]))
  {
    hide Decode;
    ghost var from := r.Rest();
    ok, d, row := false, b, [];
    DecodeNothing(HolderFields, from);
    var owner, process, worker, node, device;
    owner, row := GetWord(r, HolderFields, from, 0, row);
    if owner.None? { return; }
    process, row := GetWord(r, HolderFields, from, 1, row);
    if process.None? { return; }
    worker, row := GetWord(r, HolderFields, from, 2, row);
    if worker.None? { return; }
    node, row := GetWord(r, HolderFields, from, 3, row);
    if node.None? { return; }
    device, row := GetWord(r, HolderFields, from, 4, row);
    if device.None? { return; }
    assert HolderFields[..5] == HolderFields;
    ok, d := true, b.(
      owner := owner.value, process := process.value, worker := worker.value, node := node.value,
      device := device.value);
  }

  method ReadTerms(r: Reader, b: BufferDescriptor) returns (ok: bool, d: BufferDescriptor, ghost row: seq<Value>)
    requires r.Valid()
    modifies r
    ensures Read(r, TermFields, old(r.Rest()), row, ok)
    ensures ok ==> |row| == 7 && d == b.(
        direction := DirectionOf(Byt(row[0])), requestedAccess := MaskOf(Byt(row[1])), mode := ModeOf(Byt(row[2])),
        lifetime := LifetimeOf(Byt(row[3])), provenance := ProvenanceOf(Byt(row[4])),
        freshness := FreshnessOf(Byt(row[5])), policyGeneration := Num(row[6]))
  {
    hide Decode, MaskOf, DirectionOf, ModeOf, LifetimeOf, ProvenanceOf, FreshnessOf;
    ghost var from := r.Rest();
    ok, d, row := false, b, [];
    DecodeNothing(TermFields, from);
    var direction, access, mode, lifetime, provenance, freshness, policy;
    direction, row := GetCode(r, TermFields, from, 0, row, 3);
    if direction.None? { return; }
    access, row := GetCode(r, TermFields, from, 1, row, 255);
    if access.None? { return; }
    mode, row := GetCode(r, TermFields, from, 2, row, 2);
    if mode.None? { return; }
    lifetime, row := GetCode(r, TermFields, from, 3, row, 2);
    if lifetime.None? { return; }
    provenance, row := GetCode(r, TermFields, from, 4, row, 2);
    if provenance.None? { return; }
    freshness, row := GetCode(r, TermFields, from, 5, row, 3);
    if freshness.None? { return; }
    policy, row := GetWord(r, TermFields, from, 6, row);
    if policy.None? { return; }
    assert TermFields[..7] == TermFields;
    ok, d := true, b.(
      direction := DirectionOf(direction.value), requestedAccess := MaskOf(access.value), mode := ModeOf(mode.value),
      lifetime := LifetimeOf(lifetime.value), provenance := ProvenanceOf(provenance.value),
      freshness := FreshnessOf(freshness.value), policyGeneration := policy.value);
  }

  /** The descriptor the saved format has at the head of `s`, and what follows it. */
  function DescriptorAt(s: seq<byte>): Parsed<BufferDescriptor> {
    match Decode(DescriptorLayout, s)
    case None => None
    case Some((vs, rest)) => Some((DescriptorOf(vs), rest))
  }

  /** read_descriptor accepts what the saved format's decoder accepts, with the same value and cursor. */
  method ReadDescriptor(r: Reader, blank: BufferDescriptor) returns (d: Option<BufferDescriptor>)
    requires r.Valid()
    modifies r
    ensures r.Yields(d, DescriptorAt(old(r.Rest())))
  {
    hide Decode, MaskOf, DomainOf, PointerOf, DirectionOf, ModeOf, LifetimeOf, ProvenanceOf, FreshnessOf;
    ghost var from := r.Rest();
    var ok, b;
    ghost var m, h, t;
    DecodeConcat(MemoryFields, HolderFields, from);
    DecodeConcat(MemoryFields + HolderFields, TermFields, from);
    ok, b, m := ReadMemory(r, blank);
    if !ok { return None; }
    ok, b, h := ReadHolder(r, b);
    if !ok { return None; }
    ok, b, t := ReadTerms(r, b);
    if !ok { return None; }
    GroupsRead(m, h, t, b, blank);
    d := Some(b);
  }

  /** Reading one layout after another. */
  lemma {:induction false} DecodeConcat(fs: Layout, gs: Layout, s: seq<byte>)
    ensures Decode(fs + gs, s)
         == match Decode(fs, s)
            case None => None
            case Some((vs, rest)) =>
              match Decode(gs, rest)
              case None => None
              case Some((ws, rest')) => Some((vs + ws, rest'))
  {
    hide DecodeField;
    if fs == [] {
      assert fs + gs == gs;
      match Decode(gs, s)
      case None =>
      case Some((ws, _)) =>
        assert [] + ws == ws;
    } else {
      assert (fs + gs)[1..] == fs[1..] + gs;
      match DecodeField(fs[0], s)
      case None =>
      case Some((v, rest)) =>
        DecodeConcat(fs[1..], gs, rest);
        match Decode(fs[1..], rest)
        case None =>
        case Some((vs, rest')) =>
          match Decode(gs, rest')
          case None =>
          case Some((ws, _)) =>
            assert [v] + (vs + ws) == ([v] + vs) + ws;
    }
  }

  lemma GroupsRead(m: seq<Value>, h: seq<Value>, t: seq<Value>, b: BufferDescriptor, blank: BufferDescriptor)
    requires |m| == 8 && |h| == 5 && |t| == 7
    requires b == blank.(
        id := Num(m[0]), generation := Num(m[1]), domain := DomainOf(Byt(m[2])), address := Num(m[3]),
        pointer := PointerOf(Byt(m[4])), byteLength := Num(m[5]), alignment := Num(m[6]), pageSize := Num(m[7]),
        owner := Num(h[0]), process := Num(h[1]), worker := Num(h[2]), node := Num(h[3]), device := Num(h[4]),
        direction := DirectionOf(Byt(t[0])), requestedAccess := MaskOf(Byt(t[1])), mode := ModeOf(Byt(t[2])),
        lifetime := LifetimeOf(Byt(t[3])), provenance := ProvenanceOf(Byt(t[4])),
        freshness := FreshnessOf(Byt(t[5])), policyGeneration := Num(t[6]))
    ensures b == DescriptorOf(m + h + t)
  {
    hide MaskOf, DomainOf, PointerOf, DirectionOf, ModeOf, LifetimeOf, ProvenanceOf, FreshnessOf;
    var vs := m + h + t;
    assert vs[..8] == m && vs[8..13] == h && vs[13..] == t;
  }

  ghost predicate DescriptorWide(d: BufferDescriptor) {
    RepresentableRow(DescriptorLayout, DescriptorRow(d))
  }

  /**
   * The descriptor codec is exact: the accepted byte strings are the encodings
   * of descriptors followed by anything, and each is read as what it encodes.
   */
  lemma DescriptorCodecExact(s: seq<byte>, d: BufferDescriptor, rest: seq<byte>)
    ensures DescriptorAt(s) == Some((d, rest)) <==> DescriptorWide(d) && s == Encode(DescriptorRow(d)) + rest
  {
    hide Decode, Encode, DescriptorRow, DescriptorOf, RepresentableRow;
    if DescriptorAt(s) == Some((d, rest)) {
      Sound(DescriptorLayout, s);
      DescriptorRowExact(Decode(DescriptorLayout, s).value.0);
    }
    if DescriptorWide(d) && s == Encode(DescriptorRow(d)) + rest {
      RoundTrip(DescriptorLayout, DescriptorRow(d), rest);
      PlainBounds(DescriptorLayout, DescriptorRow(d));
      DescriptorInverse(d);
    }
  }

  // ---- the REGISTER command ----------------------------------------------------------

  function RegisterPayload(d: BufferDescriptor, domain: nat, backend: nat): seq<byte> {
    LE(domain, 8) + (LE(backend, 8) + Encode(DescriptorRow(d)))
  }

  /** Bytes after the descriptor are not looked at. */
  function RegisterAt(s: seq<byte>): Option<(BufferDescriptor, nat, nat)> {
    var (domain, s1) :- DecodeWord(s);
    var (backend, s2) :- DecodeWord(s1);
    var (d, _) :- DescriptorAt(s2);
    Some((d, domain, backend))
  }

  method EncodeRegister(d: BufferDescriptor, domain: nat, backend: nat) returns (payload: seq<byte>)
    ensures payload == RegisterPayload(d, domain, backend)
  {
    hide LE, Encode, DescriptorRow;
    var w := new Writer();
    w.U64(domain);
    w.U64(backend);
    WriteDescriptor(w, d);
    assert LE(domain, 8) + LE(backend, 8) + Encode(DescriptorRow(d)) == RegisterPayload(d, domain, backend);
    payload := w.buf;
  }

  method DecodeRegister(payload: seq<byte>, blank: BufferDescriptor)
    returns (request: Option<(BufferDescriptor, nat, nat)>)
    ensures request == RegisterAt(payload)
  {
    hide DecodeWord, DescriptorAt;
    var r := new Reader(payload);
    var domain :- r.U64();
    var backend :- r.U64();
    var d :- ReadDescriptor(r, blank);
    request := Some((d, domain, backend));
  }

  lemma RegisterRoundTrip(d: BufferDescriptor, domain: nat, backend: nat, rest: seq<byte>)
    requires DescriptorWide(d) && domain < WORD_LIMIT && backend < WORD_LIMIT
    ensures RegisterAt(RegisterPayload(d, domain, backend) + rest) == Some((d, domain, backend))
  {
    hide LE, DecodeWord, DescriptorAt, Encode, DescriptorRow;
    var tail := Encode(DescriptorRow(d)) + rest;
    assert RegisterPayload(d, domain, backend) + rest == LE(domain, 8) + (LE(backend, 8) + tail);
    DecodeWordOfLE(domain, LE(backend, 8) + tail);
    DecodeWordOfLE(backend, tail);
    DescriptorCodecExact(tail, d, rest);
  }

  lemma DecodeNothing(fs: Layout, from: seq<byte>)
    ensures Decode(fs[..0], from) == Some(([], from))
  {
  }
}
