/**
 * Which error a refused input gets. For frames and for saved blobs the header is judged byte
 * by byte; behind it, a blob cut short or with too many items in a list is reported by
 * where that is, and a sound one by the first zero generation or repeated identity.
 */
module Refusals {
  import opened Bytes
  import opened Records
  import opened Layouts
  import opened RecordFormats
  import opened Persistence
  import opened Tables
  import Frames
  import Crc32

  // ---- numbers and their bytes --------------------------------------------------------------------

  /** Four bytes read as a number below 2^32 are that number's bytes. */
  lemma FourExact(s: seq<byte>, n: nat)
    requires |s| == 4 && n < 0x1_0000_0000
    ensures FromLE(s) == n <==> s == LE(n, 4)
  {
    hide LE, FromLE;
    assert Pow256(4) == 0x1_0000_0000;
    LEOfFromLE(s);
    FromLEOfLE(n, 4);
  }

  lemma CheckedExact(s: seq<byte>, trailer: seq<byte>)
    requires |trailer| == 4
    ensures Crc32.Checked(s, trailer) <==> trailer == LE(Crc32.Code(s), 4)
  {
    hide Crc32.Code, LE, FromLE;
    Crc32.CodeBound(s);
    assert Pow256(4) == 0x1_0000_0000;
    FourExact(trailer, Crc32.Code(s));
  }

  // ---- frames ----------------------------------------------------------------------------------------

  /** "FBDR", version 1, a kind from 1 to 24, at most 16 MiB of payload, all of it there, and its checksum. */
  function FrameChecks(data: seq<byte>): seq<Check<Frames.FrameError>> {
    if |data| < 28 then [Check(false, Frames.TRUNCATED)] else
      var length := FromLE(data[20..28]);
      [Check(data[..4] == [0x46, 0x42, 0x44, 0x52], Frames.BAD_MAGIC),
       Check(data[4..8] == [1, 0, 0, 0], Frames.BAD_VERSION),
       Check(1 <= FromLE(data[8..12]) <= 24, Frames.INVALID_ENUM),
       Check(length <= 0x100_0000, Frames.OVERSIZED),
       Check(28 + length + 4 <= |data|, Frames.TRUNCATED),
       Check(28 + length + 4 <= |data| && data[28 + length..28 + length + 4] == LE(Crc32.Code(data[..28 + length]), 4),
             Frames.CHECKSUM_MISMATCH)]
  }

  lemma FrameBytes()
    ensures LE(Frames.FRAME_MAGIC, 4) == [0x46, 0x42, 0x44, 0x52] && LE(Frames.FRAME_VERSION, 4) == [1, 0, 0, 0]
  {
  }

  /** The decoder's error is that of the first condition that fails; a frame for which all hold is read from its places. */
  lemma FrameTable(data: seq<byte>)
    ensures match First(FrameChecks(data))
            case Some(e) => Frames.Decoded(data) == Err(e)
            case None =>
              && |data| >= 32 && FromLE(data[20..28]) + 32 <= |data|
              && Frames.Decoded(data) == Ok((Frames.Frame(FromLE(data[8..12]), FromLE(data[12..20]),
                                                          data[28..28 + FromLE(data[20..28])]), FromLE(data[20..28]) + 32))
  {
    hide First, FromLE, LE, Crc32.Code, Crc32.Checked;
    var cs := FrameChecks(data);
    if |data| >= 28 {
      FrameBytes();
      FourExact(data[..4], Frames.FRAME_MAGIC);
      FourExact(data[4..8], Frames.FRAME_VERSION);
      var length := FromLE(data[20..28]);
      if 28 + length + 4 <= |data| {
        CheckedExact(data[..28 + length], data[28 + length..28 + length + 4]);
      }
      if !cs[0].holds {
        FirstAt(cs, 0);
      } else if !cs[1].holds {
        FirstAt(cs, 1);
      } else if !cs[2].holds {
        FirstAt(cs, 2);
      } else if !cs[3].holds {
        FirstAt(cs, 3);
      } else if !cs[4].holds {
        FirstAt(cs, 4);
      } else if !cs[5].holds {
        FirstAt(cs, 5);
      } else {
        FirstNone(cs);
      }
    } else {
      FirstAt(cs, 0);
    }
  }

  // ---- blobs: the header --------------------------------------------------------------------------------

  /** "1MDR", version 1, and the checksum of all but the last four bytes. */
  function HeaderChecks(bytes: seq<byte>): seq<Check<FormatError>> {
    if |bytes| < 12 then [Check(false, TRUNCATED)] else
      [Check(bytes[..4] == [0x31, 0x4D, 0x44, 0x52], BAD_MAGIC),
       Check(bytes[4..8] == [1, 0, 0, 0], BAD_VERSION),
       Check(bytes[|bytes| - 4..] == LE(Crc32.Code(bytes[..|bytes| - 4]), 4), CHECKSUM_MISMATCH)]
  }

  lemma BlobBytes()
    ensures LE(FORMAT_MAGIC, 4) == [0x31, 0x4D, 0x44, 0x52] && LE(FORMAT_VERSION, 4) == [1, 0, 0, 0]
  {
  }

  /** The part behind a sound header. */
  function Inside(payload: seq<byte>): Result<PersistableState, FormatError> {
    match DecodePayload(payload)
    case Err(e) => Err(e)
    case Ok((s, rest)) =>
      if rest != [] then Err(TRAILING_GARBAGE) else
        match Fault(s)
        case Some(fault) => Err(fault)
        case None => Ok(s)
  }

  /** A bad header is reported by its first fault, and only behind a good one is anything else looked at. */
  lemma HeaderTable(bytes: seq<byte>)
    ensures match First(HeaderChecks(bytes))
            case Some(e) => Accept(bytes) == Err(e)
            case None => |bytes| >= 12 && Accept(bytes) == Inside(bytes[8..|bytes| - 4])
  {
    hide First, FromLE, LE, Crc32.Code, Crc32.Checked, DecodePayload, Fault;
    var cs := HeaderChecks(bytes);
    if |bytes| >= 12 {
      var body := bytes[..|bytes| - 4];
      BlobBytes();
      FourExact(body[..4], FORMAT_MAGIC);
      FourExact(body[4..8], FORMAT_VERSION);
      CheckedExact(body, bytes[|bytes| - 4..]);
      assert body[..4] == bytes[..4] && body[4..8] == bytes[4..8] && body[8..] == bytes[8..|bytes| - 4];
      if !cs[0].holds {
        FirstAt(cs, 0);
      } else if !cs[1].holds {
        FirstAt(cs, 1);
      } else if !cs[2].holds {
        FirstAt(cs, 2);
      } else {
        FirstNone(cs);
      }
    } else {
      FirstAt(cs, 0);
    }
  }

  // ---- blobs: integrity -----------------------------------------------------------------------------------

  /** Position `i` has a zero generation or an identity seen before. */
  predicate FaultyAt(ids: seq<nat>, gens: seq<nat>, i: nat) {
    i < |ids| && i < |gens| && (gens[i] == 0 || ids[i] in ids[..i])
  }

  /** The first such position decides, and there a zero generation before a repeated identity. */
  lemma {:induction false} FirstFaultExact(ids: seq<nat>, gens: seq<nat>, i: nat, k: nat)
    requires |ids| == |gens| && i <= k && FaultyAt(ids, gens, k) && forall j :: i <= j < k ==> !FaultyAt(ids, gens, j)
    ensures FirstFault(ids, gens, i) == Some(if gens[k] == 0 then GENERATION_REGRESSION else DUPLICATE_IDENTITY)
    decreases k - i
  {
    if i < k {
      assert !FaultyAt(ids, gens, i);
      FirstFaultExact(ids, gens, i + 1, k);
    }
  }

  /** Position `k` is the first faulty one. */
  predicate FirstFaulty(ids: seq<nat>, gens: seq<nat>, k: nat) {
    FaultyAt(ids, gens, k) && forall j :: 0 <= j < k ==> !FaultyAt(ids, gens, j)
  }

  predicate Faultless(ids: seq<nat>, gens: seq<nat>) {
    forall k: nat :: k < |ids| ==> !FaultyAt(ids, gens, k)
  }

  lemma NoFaultAt(ids: seq<nat>, gens: seq<nat>)
    requires |ids| == |gens| && Faultless(ids, gens)
    ensures FirstFault(ids, gens, 0) == None
  {
    forall j | 0 <= j < |ids| ensures gens[j] != 0 && ids[j] !in ids[..j] {
      assert !FaultyAt(ids, gens, j);
    }
  }

  function FaultOf(generation: nat): FormatError {
    if generation == 0 then GENERATION_REGRESSION else DUPLICATE_IDENTITY
  }

  /** A readable state that is not sound is reported by its first fault: buffers first, then registrations, then domains. */
  lemma UnsoundReported(s: PersistableState, k: nat)
    requires Wide(s) && InBounds(s)
    ensures FirstFaulty(BufferIds(s.buffers), BufferGenerations(s.buffers), k) ==>
              Accept(Blob(s)) == Err(FaultOf(BufferGenerations(s.buffers)[k]))
    ensures && Faultless(BufferIds(s.buffers), BufferGenerations(s.buffers))
            && FirstFaulty(RegistrationIds(s.registrations), RegistrationGenerations(s.registrations), k) ==>
              Accept(Blob(s)) == Err(FaultOf(RegistrationGenerations(s.registrations)[k]))
    ensures && Faultless(BufferIds(s.buffers), BufferGenerations(s.buffers))
            && Faultless(RegistrationIds(s.registrations), RegistrationGenerations(s.registrations)) && !Distinct(s.domains) ==>
              Accept(Blob(s)) == Err(DUPLICATE_IDENTITY)
  {
    hide FaultyAt, Faultless, FirstFault, Wide, InBounds, Blob, Accept, Canonical, Distinct;
    WrittenFault(s);
    CanonicalSame(s);
    var (bi, bg) := (BufferIds(s.buffers), BufferGenerations(s.buffers));
    var (ri, rg) := (RegistrationIds(s.registrations), RegistrationGenerations(s.registrations));
    if FirstFaulty(bi, bg, k) {
      FirstFaultExact(bi, bg, 0, k);
    }
    if Faultless(bi, bg) {
      NoFaultAt(bi, bg);
      if FirstFaulty(ri, rg, k) {
        FirstFaultExact(ri, rg, 0, k);
      }
      if Faultless(ri, rg) && !Distinct(s.domains) {
        NoFaultAt(ri, rg);
        RepeatedDomain(s.domains);
      }
    }
  }

  lemma RepeatedDomain(ds: seq<nat>)
    requires !Distinct(ds)
    ensures FirstFault(ds, Ones(|ds|), 0) == Some(DUPLICATE_IDENTITY)
  {
    NoFault(ds, Ones(|ds|));
    NeverZero(ds, Ones(|ds|), 0);
  }

  lemma {:induction false} NeverZero(ids: seq<nat>, gens: seq<nat>, i: nat)
    requires |ids| == |gens| && i <= |ids| && forall j :: 0 <= j < |gens| ==> gens[j] != 0
    ensures FirstFault(ids, gens, i) != Some(GENERATION_REGRESSION) && FirstFault(ids, gens, i) in {None, Some(DUPLICATE_IDENTITY)}
    decreases |ids| - i
  {
    if i < |ids| {
      NeverZero(ids, gens, i + 1);
    }
  }

  lemma CanonicalSame(s: PersistableState)
    ensures var c := Canonical(s);
            && c.buffers == s.buffers && c.domains == s.domains
            && RegistrationIds(c.registrations) == RegistrationIds(s.registrations)
            && RegistrationGenerations(c.registrations) == RegistrationGenerations(s.registrations)
  {
  }

  /** What the parser makes of a written state within bounds depends on its first fault alone. */
  lemma WrittenFault(s: PersistableState)
    requires Wide(s) && InBounds(s)
    ensures Accept(Blob(s)) == match Fault(Canonical(s)) case Some(fault) => Err(fault) case None => Ok(Canonical(s))
  {
    hide Crc32.Checked, Payload, DecodePayload, Fault, Canonical, Wide, InBounds, Seal;
    BodyParts(Payload(s));
    SealParts(Body(s));
    PayloadRoundTrip(s, []);
    assert Payload(s) + [] == Payload(s);
  }

  // ---- blobs: cut short or overfull ----------------------------------------------------------------------------

  /** The nine parts of a payload: head, five lists, reasons, counters, backends. */
  function Part(s: PersistableState, j: nat): seq<byte>
    requires j < 9
  {
    match j
    case 0 => Encode(HeadRow(s))
    case 1 => EncodeValue(L(BufferRows(s.buffers)))
    case 2 => EncodeValue(L(RegistrationRows(s.registrations)))
    case 3 => EncodeValue(L(WordRows(s.domains)))
    case 4 => EncodeValue(L(RemoteKeyRows(s.remoteKeys)))
    case 5 => EncodeValue(L(LocalKeyRows(s.localKeys)))
    case 6 => EncodeValue(L(TextRows(s.revocations)))
    case 7 => Encode(AccountingRow(s.accounting))
    case _ => EncodeValue(L(BackendRows(s.backends)))
  }

  /** The parts from `i` up to `j`, and then `x`. */
  function Between(s: PersistableState, i: nat, j: nat, x: seq<byte>): seq<byte>
    requires i <= j <= 9
    decreases j - i
  {
    if i == j then x else Part(s, i) + Between(s, i + 1, j, x)
  }

  lemma WholePayload(s: PersistableState)
    ensures Payload(s) == Between(s, 0, 9, [])
  {
    hide Encode, EncodeValue, BufferRows, RegistrationRows, WordRows, RemoteKeyRows, LocalKeyRows, TextRows, BackendRows;
    hide AccountingRow, HeadRow;
    var e8 := Part(s, 8);
    assert e8 + [] == e8;
    assert Between(s, 9, 9, []) == [];
    assert Between(s, 8, 9, []) == e8;
    assert Between(s, 5, 9, []) == Part(s, 5) + (Part(s, 6) + (Part(s, 7) + e8));
    assert Between(s, 2, 9, []) == Part(s, 2) + (Part(s, 3) + (Part(s, 4) + Between(s, 5, 9, [])));
  }

  /** Reading part `j` from `x` ends in the error `e`. */
  predicate StageFails(j: nat, x: seq<byte>, e: FormatError)
    requires j < 9
  {
    match j
    case 0 => DecodeHead(HeadLayout, x) == Err(e)
    case 1 => DecodeSection(DescriptorLayout, x, TRUNCATED) == Err(e)
    case 2 => DecodeSection(RegistrationLayout, x, IMPOSSIBLE_COUNT) == Err(e)
    case 3 => DecodeSection([Word64], x, IMPOSSIBLE_COUNT) == Err(e)
    case 4 => DecodeSection(RemoteKeyLayout, x, IMPOSSIBLE_COUNT) == Err(e)
    case 5 => DecodeSection(LocalKeyLayout, x, IMPOSSIBLE_COUNT) == Err(e)
    case 6 => DecodeSection(ReasonLayout, x, IMPOSSIBLE_COUNT) == Err(e)
    case 7 => DecodeHead(AccountingLayout, x) == Err(e)
    case _ => DecodeSection(BackendInfoLayout, x, IMPOSSIBLE_COUNT) == Err(e)
  }

  /** The parts before `i` are within the parser's bounds. */
  ghost predicate BoundedBefore(s: PersistableState, i: nat) {
    && (i > 1 ==> |s.buffers| <= MAX_COUNT)
    && (i > 2 ==> |s.registrations| <= MAX_COUNT && BoundedRows(RegistrationLayout, RegistrationRows(s.registrations)))
    && (i > 3 ==> |s.domains| <= MAX_COUNT) && (i > 4 ==> |s.remoteKeys| <= MAX_COUNT) && (i > 5 ==> |s.localKeys| <= MAX_COUNT)
    && (i > 6 ==> |s.revocations| <= MAX_COUNT && BoundedRows(ReasonLayout, TextRows(s.revocations)))
  }

  lemma BoundsBefore(s: PersistableState, i: nat)
    requires InBounds(s)
    ensures BoundedBefore(s, i)
  {
    BoundsOfState(s);
  }

  /** If part `j` cannot be read, the payload fails with its error. */
  lemma FailsThere(s: PersistableState, j: nat, x: seq<byte>, e: FormatError)
    requires Wide(s) && j < 9 && BoundedBefore(s, j) && StageFails(j, x, e)
    ensures DecodePayload(Between(s, 0, j, x)) == Err(e)
  {
    hide DecodeHead, DecodeSection, Encode, EncodeValue, Representable, RepresentableRow, BoundedRows;
    hide BufferRows, RegistrationRows, WordRows, RemoteKeyRows, LocalKeyRows, TextRows, BackendRows;
    hide BuffersOf, RegistrationsOf, WordsOf, RemoteKeysOf, LocalKeysOf, TextsOf, BackendsOf;
    hide AccountingRow, HeadRow, AccountingOf, AuthorityOf;
    PlainLists(s);
    if j > 0 {
      HeadRoundTrip(HeadLayout, HeadRow(s), Between(s, 1, j, x));
    }
    if j > 1 {
      SectionRoundTrip(DescriptorLayout, BufferRows(s.buffers), Between(s, 2, j, x), TRUNCATED);
    }
    if j > 2 {
      SectionRoundTrip(RegistrationLayout, RegistrationRows(s.registrations), Between(s, 3, j, x), IMPOSSIBLE_COUNT);
    }
    if j > 3 {
      SectionRoundTrip([Word64], WordRows(s.domains), Between(s, 4, j, x), IMPOSSIBLE_COUNT);
    }
    if j > 4 {
      SectionRoundTrip(RemoteKeyLayout, RemoteKeyRows(s.remoteKeys), Between(s, 5, j, x), IMPOSSIBLE_COUNT);
    }
    if j > 5 {
      SectionRoundTrip(LocalKeyLayout, LocalKeyRows(s.localKeys), Between(s, 6, j, x), IMPOSSIBLE_COUNT);
    }
    if j > 6 {
      SectionRoundTrip(ReasonLayout, TextRows(s.revocations), Between(s, 7, j, x), IMPOSSIBLE_COUNT);
    }
    if j > 7 {
      HeadRoundTrip(AccountingLayout, AccountingRow(s.accounting), Between(s, 8, j, x));
    }
  }

  lemma PlainLists(s: PersistableState)
    ensures BoundedRows(DescriptorLayout, BufferRows(s.buffers)) && |BufferRows(s.buffers)| == |s.buffers|
    ensures BoundedRows([Word64], WordRows(s.domains)) && |WordRows(s.domains)| == |s.domains|
    ensures BoundedRows(RemoteKeyLayout, RemoteKeyRows(s.remoteKeys)) && |RemoteKeyRows(s.remoteKeys)| == |s.remoteKeys|
    ensures BoundedRows(LocalKeyLayout, LocalKeyRows(s.localKeys)) && |LocalKeyRows(s.localKeys)| == |s.localKeys|
    ensures |RegistrationRows(s.registrations)| == |s.registrations| && |TextRows(s.revocations)| == |s.revocations|
    ensures |BackendRows(s.backends)| == |s.backends|
  {
    hide BoundedRow, DescriptorRow, RemoteKeyRow, LocalKeyRow, RegistrationRow, BackendInfoRow;
    PlainRows(DescriptorLayout, BufferRows(s.buffers));
    PlainRows([Word64], WordRows(s.domains));
    PlainRows(RemoteKeyLayout, RemoteKeyRows(s.remoteKeys));
    PlainRows(LocalKeyLayout, LocalKeyRows(s.localKeys));
  }

  /** A list cut inside its count misses the count; cut behind it, an item. */
  lemma CutSection(item: Layout, rows: seq<Row>, k: nat, missing: FormatError)
    requires Representable(List(MAX_COUNT, item), L(rows)) && |rows| <= MAX_COUNT && BoundedRows(item, rows)
    requires k < |EncodeValue(L(rows))|
    ensures DecodeSection(item, EncodeValue(L(rows))[..k], missing) == Err(if k < 8 then missing else TRUNCATED)
  {
    hide LE, FromLE, Encode, Decode, DecodeRows, Representable, BoundedRows, EncodeRows, DecodeWord;
    var all := EncodeValue(L(rows));
    var s, more := all[..k], all[k..];
    assert s + more == all && all + [] == all;
    SectionRoundTrip(item, rows, [], missing);
    if k < 8 {
      ShortWord(s);
    } else {
      CountThere(rows, s);
      if DecodeSection(item, s, missing).Ok? {
        SectionExtend(item, s, missing, more);
        assert false;
      }
    }
  }

  lemma ShortWord(s: seq<byte>)
    requires |s| < 8
    ensures DecodeWord(s) == None
  {
  }

  lemma CountThere(rows: seq<Row>, s: seq<byte>)
    requires 8 <= |s| <= |EncodeValue(L(rows))| && s == EncodeValue(L(rows))[..|s|] && |rows| < WORD_LIMIT
    ensures DecodeWord(s).Some? && DecodeWord(s).value.0 == |rows|
  {
    hide LE, DecodeWord, EncodeRows;
    assert s == LE(|rows|, 8) + s[8..];
    DecodeWordOfLE(|rows|, s[8..]);
  }

  lemma CutHead(fs: Layout, vs: seq<Value>, k: nat)
    requires RepresentableRow(fs, vs) && k < |Encode(vs)|
    requires forall i :: 0 <= i < |fs| ==> fs[i].Code? || fs[i].Word64?
    ensures DecodeHead(fs, Encode(vs)[..k]) == Err(TRUNCATED)
  {
    hide Encode, Decode, RepresentableRow;
    var s, more := Encode(vs)[..k], Encode(vs)[k..];
    assert s + more == Encode(vs) && Encode(vs) + [] == Encode(vs);
    HeadRoundTrip(fs, vs, []);
    if DecodeHead(fs, s).Ok? {
      HeadExtend(fs, s, more);
      assert false;
    }
  }

  /** The error for a payload cut `k` bytes into its part `j`: IMPOSSIBLE_COUNT inside the count of any list but the first. */
  function CutError(j: nat, k: nat): FormatError {
    if k < 8 && j in {2, 3, 4, 5, 6, 8} then IMPOSSIBLE_COUNT else TRUNCATED
  }

  lemma CutStage(s: PersistableState, j: nat, k: nat)
    requires Wide(s) && InBounds(s) && j < 9 && k < |Part(s, j)|
    ensures StageFails(j, Part(s, j)[..k], CutError(j, k))
  {
    hide DecodeHead, DecodeSection, Encode, EncodeValue, Representable, RepresentableRow, InBounds;
    hide BufferRows, RegistrationRows, WordRows, RemoteKeyRows, LocalKeyRows, TextRows, BackendRows, AccountingRow, HeadRow;
    BoundsOfState(s);
    match j
    case 0 => CutHead(HeadLayout, HeadRow(s), k);
    case 1 => CutSection(DescriptorLayout, BufferRows(s.buffers), k, TRUNCATED);
    case 2 => CutSection(RegistrationLayout, RegistrationRows(s.registrations), k, IMPOSSIBLE_COUNT);
    case 3 => CutSection([Word64], WordRows(s.domains), k, IMPOSSIBLE_COUNT);
    case 4 => CutSection(RemoteKeyLayout, RemoteKeyRows(s.remoteKeys), k, IMPOSSIBLE_COUNT);
    case 5 => CutSection(LocalKeyLayout, LocalKeyRows(s.localKeys), k, IMPOSSIBLE_COUNT);
    case 6 => CutSection(ReasonLayout, TextRows(s.revocations), k, IMPOSSIBLE_COUNT);
    case 7 => CutHead(AccountingLayout, AccountingRow(s.accounting), k);
    case _ => CutSection(BackendInfoLayout, BackendRows(s.backends), k, IMPOSSIBLE_COUNT);
  }

  /** A written body cut short behind its header, under a fresh checksum, is refused by where the cut is. */
  lemma CutReported(s: PersistableState, j: nat, k: nat)
    requires Wide(s) && InBounds(s) && j < 9 && k < |Part(s, j)|
    ensures Accept(Sealed(Between(s, 0, j, Part(s, j)[..k]))) == Err(CutError(j, k))
  {
    hide Part, StageFails, DecodePayload, Wide, InBounds, BoundedBefore;
    BoundsBefore(s, j);
    CutStage(s, j, k);
    FailsThere(s, j, Part(s, j)[..k], CutError(j, k));
    SealedIs(Between(s, 0, j, Part(s, j)[..k]));
  }

  /** Header, payload, checksum. */
  function Sealed(payload: seq<byte>): seq<byte> {
    Seal(LE(FORMAT_MAGIC, 4) + LE(FORMAT_VERSION, 4) + payload)
  }

  lemma SealedIs(payload: seq<byte>)
    ensures Accept(Sealed(payload)) == Inside(payload)
  {
    hide Crc32.Checked, DecodePayload, Fault, Seal;
    BodyParts(payload);
    SealParts(LE(FORMAT_MAGIC, 4) + LE(FORMAT_VERSION, 4) + payload);
  }

  /** Every strict prefix of a payload is cut inside one of the parts. */
  lemma {:induction false} CutSomewhere(s: PersistableState, i: nat, n: nat)
    requires i <= 9 && n < |Between(s, i, 9, [])|
    ensures exists j: nat, k: nat :: i <= j < 9 && k < |Part(s, j)| && Between(s, i, 9, [])[..n] == Between(s, i, j, Part(s, j)[..k])
    decreases 9 - i
  {
    hide Part;
    var part, rest := Part(s, i), Between(s, i + 1, 9, []);
    if n < |part| {
      assert Between(s, i, 9, [])[..n] == Between(s, i, i, part[..n]);
    } else {
      CutSomewhere(s, i + 1, n - |part|);
      var j: nat, k: nat :| i + 1 <= j < 9 && k < |Part(s, j)| && rest[..n - |part|] == Between(s, i + 1, j, Part(s, j)[..k]);
      assert (part + rest)[..n] == part + rest[..n - |part|];
      assert Between(s, i, 9, [])[..n] == Between(s, i, j, Part(s, j)[..k]);
    }
  }

  /** The number of items in part `j`, if it is a list. */
  function ListLength(s: PersistableState, j: nat): nat {
    match j
    case 1 => |s.buffers|
    case 2 => |s.registrations|
    case 3 => |s.domains|
    case 4 => |s.remoteKeys|
    case 5 => |s.localKeys|
    case 6 => |s.revocations|
    case 8 => |s.backends|
    case _ => 0
  }

  lemma OverfullSection(item: Layout, rows: seq<Row>, rest: seq<byte>, missing: FormatError)
    requires |rows| < WORD_LIMIT && |rows| > 0x10_0000
    ensures DecodeSection(item, EncodeValue(L(rows)) + rest, missing) == Err(IMPOSSIBLE_COUNT)
  {
    hide LE, DecodeWord, EncodeRows;
    DecodeWordOfLE(|rows|, EncodeRows(rows) + rest);
    assert EncodeValue(L(rows)) + rest == LE(|rows|, 8) + (EncodeRows(rows) + rest);
  }

  lemma OverfullStage(s: PersistableState, j: nat, rest: seq<byte>)
    requires Wide(s) && j < 9 && ListLength(s, j) > 0x10_0000
    ensures StageFails(j, Part(s, j) + rest, IMPOSSIBLE_COUNT)
  {
    hide DecodeSection, EncodeValue, RepresentableRows, RepresentableRow;
    hide BufferRows, RegistrationRows, WordRows, RemoteKeyRows, LocalKeyRows, TextRows, BackendRows;
    PlainLists(s);
    match j
    case 1 => OverfullSection(DescriptorLayout, BufferRows(s.buffers), rest, TRUNCATED);
    case 2 => OverfullSection(RegistrationLayout, RegistrationRows(s.registrations), rest, IMPOSSIBLE_COUNT);
    case 3 => OverfullSection([Word64], WordRows(s.domains), rest, IMPOSSIBLE_COUNT);
    case 4 => OverfullSection(RemoteKeyLayout, RemoteKeyRows(s.remoteKeys), rest, IMPOSSIBLE_COUNT);
    case 5 => OverfullSection(LocalKeyLayout, LocalKeyRows(s.localKeys), rest, IMPOSSIBLE_COUNT);
    case 6 => OverfullSection(ReasonLayout, TextRows(s.revocations), rest, IMPOSSIBLE_COUNT);
    case 8 => OverfullSection(BackendInfoLayout, BackendRows(s.backends), rest, IMPOSSIBLE_COUNT);
    case _ =>
  }

  lemma {:induction false} SplitBetween(s: PersistableState, i: nat, j: nat)
    requires i <= j <= 9
    ensures Between(s, i, 9, []) == Between(s, i, j, Between(s, j, 9, []))
    decreases j - i
  {
    hide Part;
    if i < j {
      SplitBetween(s, i + 1, j);
    }
  }

  /** The first list with more than 2^20 items, whatever follows it, is reported as an impossible count. */
  lemma OverfullReported(s: PersistableState, j: nat)
    requires Wide(s) && j < 9 && ListLength(s, j) > 0x10_0000 && BoundedBefore(s, j)
    ensures Accept(Blob(s)) == Err(IMPOSSIBLE_COUNT)
  {
    hide Part, StageFails, DecodePayload, Wide, BoundedBefore, ListLength, Payload, Accept;
    WholePayload(s);
    SplitBetween(s, 0, j);
    OverfullStage(s, j, Between(s, j + 1, 9, []));
    FailsThere(s, j, Between(s, j, 9, []), IMPOSSIBLE_COUNT);
    SealedIs(Payload(s));
  }
}
