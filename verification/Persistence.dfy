/**
 * The saved blob of src/persistence.cpp: what serialize writes, what parse
 * accepts, and the theorems that connect the two.
 */
module Persistence {
  import opened Bytes
  import opened Records
  import opened Layouts
  import opened RecordFormats
  import Crc32

  const FORMAT_MAGIC: nat := 0x5244_4D31
  const FORMAT_VERSION: nat := 1

  datatype FormatError =
    | TRUNCATED | BAD_MAGIC | BAD_VERSION | CHECKSUM_MISMATCH | IMPOSSIBLE_COUNT
    | TRAILING_GARBAGE | GENERATION_REGRESSION | DUPLICATE_IDENTITY

  // ---- rows of the repeated sections ------------------------------------------

  function BufferRows(bs: seq<BufferDescriptor>): seq<Row> {
    seq(|bs|, i requires 0 <= i < |bs| => Row(DescriptorRow(bs[i])))
  }

  function RegistrationRows(rs: seq<RegistrationRecord>): seq<Row> {
    seq(|rs|, i requires 0 <= i < |rs| => Row(RegistrationRow(rs[i])))
  }

  function WordRows(ns: seq<nat>): seq<Row> {
    seq(|ns|, i requires 0 <= i < |ns| => Row([W(ns[i])]))
  }

  function RemoteKeyRows(ks: seq<RemoteKey>): seq<Row> {
    seq(|ks|, i requires 0 <= i < |ks| => Row(RemoteKeyRow(ks[i])))
  }

  function LocalKeyRows(ks: seq<LocalKey>): seq<Row> {
    seq(|ks|, i requires 0 <= i < |ks| => Row(LocalKeyRow(ks[i])))
  }

  function TextRows(ts: seq<Text>): seq<Row> {
    seq(|ts|, i requires 0 <= i < |ts| => Row([T(ts[i])]))
  }

  function BackendRows(bs: seq<BackendInfo>): seq<Row> {
    seq(|bs|, i requires 0 <= i < |bs| => Row(BackendInfoRow(bs[i])))
  }

  predicate Shaped(rows: seq<Row>, n: nat) {
    forall row :: row in rows ==> |row.values| == n
  }

  function BuffersOf(rows: seq<Row>): seq<BufferDescriptor>
    requires Shaped(rows, 20)
  {
    seq(|rows|, i requires 0 <= i < |rows| => DescriptorOf(rows[i].values))
  }

  function RegistrationsOf(rows: seq<Row>): seq<RegistrationRecord>
    requires Shaped(rows, 74)
  {
    seq(|rows|, i requires 0 <= i < |rows| => RegistrationOf(rows[i].values))
  }

  function WordsOf(rows: seq<Row>): seq<nat>
    requires Shaped(rows, 1)
  {
    seq(|rows|, i requires 0 <= i < |rows| => Num(rows[i].values[0]))
  }

  function RemoteKeysOf(rows: seq<Row>): seq<RemoteKey>
    requires Shaped(rows, 15)
  {
    seq(|rows|, i requires 0 <= i < |rows| => RemoteKeyOf(rows[i].values))
  }

  function LocalKeysOf(rows: seq<Row>): seq<LocalKey>
    requires Shaped(rows, 9)
  {
    seq(|rows|, i requires 0 <= i < |rows| => LocalKeyOf(rows[i].values))
  }

  function TextsOf(rows: seq<Row>): seq<Text>
    requires Shaped(rows, 1)
  {
    seq(|rows|, i requires 0 <= i < |rows| => Txt(rows[i].values[0]))
  }

  function BackendsOf(rows: seq<Row>): seq<BackendInfo>
    requires Shaped(rows, 25)
  {
    seq(|rows|, i requires 0 <= i < |rows| => BackendInfoOf(rows[i].values))
  }

  // ---- the blob -----------------------------------------------------------------

  const HeadLayout: Layout := [Word64] + AuthorityLayout
  const ReasonLayout: Layout := [Str(MAX_COUNT)]

  function HeadRow(s: PersistableState): (vs: seq<Value>)
    ensures |vs| == 14
  {
    [W(s.policyGeneration)] + AuthorityRow(s.authority)
  }

  /** Everything after magic and version, before the checksum. */
  function Payload(s: PersistableState): seq<byte> {
    Encode(HeadRow(s))
    + (EncodeValue(L(BufferRows(s.buffers)))
    + (EncodeValue(L(RegistrationRows(s.registrations)))
    + (EncodeValue(L(WordRows(s.domains)))
    + (EncodeValue(L(RemoteKeyRows(s.remoteKeys)))
    + (EncodeValue(L(LocalKeyRows(s.localKeys)))
    + (EncodeValue(L(TextRows(s.revocations)))
    + (Encode(AccountingRow(s.accounting))
    + EncodeValue(L(BackendRows(s.backends))))))))))
  }

  function Body(s: PersistableState): seq<byte> {
    LE(FORMAT_MAGIC, 4) + LE(FORMAT_VERSION, 4) + Payload(s)
  }

  function Seal(body: seq<byte>): seq<byte> {
    body + LE(Crc32.Code(body), 4)
  }

  function Blob(s: PersistableState): seq<byte> {
    Seal(Body(s))
  }

  // ---- what the parser accepts ----------------------------------------------------

  /** A count and that many items; a missing count is reported as `missing`. */
  function DecodeSection(item: Layout, s: seq<byte>, missing: FormatError):
    (r: Result<(seq<Row>, seq<byte>), FormatError>)
    ensures r.Ok? ==> Shaped(r.value.0, |item|)
  {
    match DecodeWord(s)
    case None => Err(missing)
    case Some((n, rest)) =>
      if n > MAX_COUNT then Err(IMPOSSIBLE_COUNT) else
        match DecodeRows(n, item, rest)
        case None => Err(TRUNCATED)
        case Some(rows) => Ok(rows)
  }

  function DecodeHead(fs: Layout, s: seq<byte>): (r: Result<(seq<Value>, seq<byte>), FormatError>)
    ensures r.Ok? ==> |r.value.0| == |fs|
  {
    match Decode(fs, s)
    case None => Err(TRUNCATED)
    case Some(p) => Ok(p)
  }

  function DecodePayload(s: seq<byte>): Result<(PersistableState, seq<byte>), FormatError> {
    var (head, s0) :- DecodeHead(HeadLayout, s);
    var (buffers, s1) :- DecodeSection(DescriptorLayout, s0, TRUNCATED);
    var (registrations, s2) :- DecodeSection(RegistrationLayout, s1, IMPOSSIBLE_COUNT);
    var (domains, s3) :- DecodeSection([Word64], s2, IMPOSSIBLE_COUNT);
    var (remoteKeys, s4) :- DecodeSection(RemoteKeyLayout, s3, IMPOSSIBLE_COUNT);
    var (localKeys, s5) :- DecodeSection(LocalKeyLayout, s4, IMPOSSIBLE_COUNT);
    var (revocations, s6) :- DecodeSection(ReasonLayout, s5, IMPOSSIBLE_COUNT);
    var (accounting, s7) :- DecodeHead(AccountingLayout, s6);
    var (backends, s8) :- DecodeSection(BackendInfoLayout, s7, IMPOSSIBLE_COUNT);
    Ok((PersistableState(
          FORMAT_VERSION, BuffersOf(buffers), RegistrationsOf(registrations), WordsOf(domains),
          RemoteKeysOf(remoteKeys), LocalKeysOf(localKeys), TextsOf(revocations), AccountingOf(accounting),
          BackendsOf(backends), AuthorityOf(head[1..]), Num(head[0])), s8))
  }

  predicate Distinct(ids: seq<nat>) {
    forall i, j :: 0 <= i < j < |ids| ==> ids[i] != ids[j]
  }

  function BufferIds(bs: seq<BufferDescriptor>): (ids: seq<nat>)
    ensures |ids| == |bs|
  {
    seq(|bs|, i requires 0 <= i < |bs| => bs[i].id)
  }

  function RegistrationIds(rs: seq<RegistrationRecord>): (ids: seq<nat>)
    ensures |ids| == |rs|
  {
    seq(|rs|, i requires 0 <= i < |rs| => rs[i].id)
  }

  function BufferGenerations(bs: seq<BufferDescriptor>): (gs: seq<nat>)
    ensures |gs| == |bs|
  {
    seq(|bs|, i requires 0 <= i < |bs| => bs[i].generation)
  }

  function RegistrationGenerations(rs: seq<RegistrationRecord>): (gs: seq<nat>)
    ensures |gs| == |rs|
  {
    seq(|rs|, i requires 0 <= i < |rs| => rs[i].registrationGeneration)
  }

  /** The first fault met scanning identities and generations from position `i` on. */
  function FirstFault(ids: seq<nat>, gens: seq<nat>, i: nat): (fault: Option<FormatError>)
    requires |ids| == |gens| && i <= |ids|
    ensures fault.None? <==> forall j :: i <= j < |ids| ==> gens[j] != 0 && ids[j] !in ids[..j]
    decreases |ids| - i
  {
    if i == |ids| then None
    else if gens[i] == 0 then Some(GENERATION_REGRESSION)
    else if ids[i] in ids[..i] then Some(DUPLICATE_IDENTITY)
    else FirstFault(ids, gens, i + 1)
  }

  function Ones(n: nat): (s: seq<nat>)
    ensures |s| == n
  {
    seq(n, _ => 1)
  }

  /** Buffers, then registrations, then domains: a duplicate identity or a zero generation. */
  function Fault(s: PersistableState): Option<FormatError> {
    var b := FirstFault(BufferIds(s.buffers), BufferGenerations(s.buffers), 0);
    if b.Some? then b else
      var r := FirstFault(RegistrationIds(s.registrations), RegistrationGenerations(s.registrations), 0);
      if r.Some? then r else FirstFault(s.domains, Ones(|s.domains|), 0)
  }

  function Accept(bytes: seq<byte>): Result<PersistableState, FormatError> {
    if |bytes| < 12 then Err(TRUNCATED) else
      var body := bytes[..|bytes| - 4];
      if FromLE(body[..4]) != FORMAT_MAGIC then Err(BAD_MAGIC)
      else if FromLE(body[4..8]) != FORMAT_VERSION then Err(BAD_VERSION)
      else if !Crc32.Checked(body, bytes[|bytes| - 4..]) then Err(CHECKSUM_MISMATCH)
      else
        var (s, rest) :- DecodePayload(body[8..]);
        if rest != [] then Err(TRAILING_GARBAGE) else
          match Fault(s)
          case Some(fault) => Err(fault)
          case None => Ok(s)
  }

  // ---- the states a blob can carry --------------------------------------------------

  /** Every number of `s` is within the width of the C++ field that holds it. */
  ghost predicate Wide(s: PersistableState) {
    && RepresentableRow(HeadLayout, HeadRow(s))
    && Representable(List(MAX_COUNT, DescriptorLayout), L(BufferRows(s.buffers)))
    && Representable(List(MAX_COUNT, RegistrationLayout), L(RegistrationRows(s.registrations)))
    && Representable(List(MAX_COUNT, [Word64]), L(WordRows(s.domains)))
    && Representable(List(MAX_COUNT, RemoteKeyLayout), L(RemoteKeyRows(s.remoteKeys)))
    && Representable(List(MAX_COUNT, LocalKeyLayout), L(LocalKeyRows(s.localKeys)))
    && Representable(List(MAX_COUNT, ReasonLayout), L(TextRows(s.revocations)))
    && RepresentableRow(AccountingLayout, AccountingRow(s.accounting))
    && Representable(List(MAX_COUNT, BackendInfoLayout), L(BackendRows(s.backends)))
  }

  /** The counts and strings the parser is willing to read. */
  predicate InBounds(s: PersistableState) {
    && |s.buffers| <= MAX_COUNT && |s.registrations| <= MAX_COUNT && |s.domains| <= MAX_COUNT
    && |s.remoteKeys| <= MAX_COUNT && |s.localKeys| <= MAX_COUNT && |s.revocations| <= MAX_COUNT
    && |s.backends| <= MAX_COUNT
    && (forall i :: 0 <= i < |s.registrations| ==> RegistrationBounded(s.registrations[i]))
    && (forall i :: 0 <= i < |s.revocations| ==> |s.revocations[i]| <= MAX_COUNT)
    && (forall i :: 0 <= i < |s.backends| ==> BackendInfoBounded(s.backends[i]))
  }

  /** Identities are distinct within each table and no generation is zero. */
  predicate Integral(s: PersistableState) {
    && Distinct(BufferIds(s.buffers)) && Distinct(RegistrationIds(s.registrations)) && Distinct(s.domains)
    && (forall i :: 0 <= i < |s.buffers| ==> s.buffers[i].generation != 0)
    && (forall i :: 0 <= i < |s.registrations| ==> s.registrations[i].registrationGeneration != 0)
  }

  /** `s` without the two things the format does not carry back. */
  function Canonical(s: PersistableState): PersistableState {
    s.(formatVersion := FORMAT_VERSION,
       registrations := seq(|s.registrations|, i requires 0 <= i < |s.registrations| =>
                              s.registrations[i].(policyGeneration := 0)),
       authority := s.authority.(provenance := UNKNOWN_PROVENANCE))
  }

  lemma FaultFreeIsIntegral(s: PersistableState)
    ensures Fault(s).None? <==> Integral(s)
  {
    NoFault(BufferIds(s.buffers), BufferGenerations(s.buffers));
    NoFault(RegistrationIds(s.registrations), RegistrationGenerations(s.registrations));
    NoFault(s.domains, Ones(|s.domains|));
    var bg, rg := BufferGenerations(s.buffers), RegistrationGenerations(s.registrations);
    assert forall i :: 0 <= i < |s.buffers| ==> bg[i] == s.buffers[i].generation;
    assert forall i :: 0 <= i < |s.registrations| ==> rg[i] == s.registrations[i].registrationGeneration;
  }

  lemma NoFault(ids: seq<nat>, gens: seq<nat>)
    requires |ids| == |gens|
    ensures FirstFault(ids, gens, 0).None? <==> Distinct(ids) && forall i :: 0 <= i < |gens| ==> gens[i] != 0
  {
    if forall j :: 0 <= j < |ids| ==> ids[j] !in ids[..j] {
      forall i, j | 0 <= i < j < |ids| ensures ids[i] != ids[j] {
        assert ids[..j][i] == ids[i];
      }
    }
  }

  // ---- sections -----------------------------------------------------------------------

  lemma SectionRoundTrip(item: Layout, rows: seq<Row>, rest: seq<byte>, missing: FormatError)
    requires Representable(List(MAX_COUNT, item), L(rows))
    ensures DecodeSection(item, EncodeValue(L(rows)) + rest, missing).Ok?
       <==> |rows| <= MAX_COUNT && BoundedRows(item, rows)
    ensures DecodeSection(item, EncodeValue(L(rows)) + rest, missing).Ok?
        ==> DecodeSection(item, EncodeValue(L(rows)) + rest, missing) == Ok((rows, rest))
  {
    hide LE, FromLE, DecodeWord, Encode, Decode, RepresentableRows;
    var s := EncodeValue(L(rows)) + rest;
    FieldRoundTrip(List(MAX_COUNT, item), L(rows), rest);
    DecodeWordOfLE(|rows|, EncodeRows(rows) + rest);
    assert s == LE(|rows|, 8) + (EncodeRows(rows) + rest);
  }

  lemma SectionSound(item: Layout, s: seq<byte>, missing: FormatError)
    requires DecodeSection(item, s, missing).Ok?
    ensures var (rows, rest) := DecodeSection(item, s, missing).value;
            && Representable(List(MAX_COUNT, item), L(rows))
            && |rows| <= MAX_COUNT && BoundedRows(item, rows)
  {
    FieldSound(List(MAX_COUNT, item), s);
  }

  lemma SectionExtend(item: Layout, s: seq<byte>, missing: FormatError, more: seq<byte>)
    requires DecodeSection(item, s, missing).Ok?
    ensures var (rows, rest) := DecodeSection(item, s, missing).value;
            DecodeSection(item, s + more, missing) == Ok((rows, rest + more))
  {
    var (n, tail) := DecodeWord(s).value;
    ExtendRows(n, item, tail, more);
    assert s + more == LE(n, 8) + (tail + more);
    DecodeWordOfLE(n, tail + more);
  }

  lemma HeadRoundTrip(fs: Layout, vs: seq<Value>, rest: seq<byte>)
    requires RepresentableRow(fs, vs)
    requires forall i :: 0 <= i < |fs| ==> fs[i].Code? || fs[i].Word64?
    ensures DecodeHead(fs, Encode(vs) + rest) == Ok((vs, rest))
  {
    RoundTrip(fs, vs, rest);
    PlainBounds(fs, vs);
  }

  lemma HeadExtend(fs: Layout, s: seq<byte>, more: seq<byte>)
    requires DecodeHead(fs, s).Ok?
    ensures var (vs, rest) := DecodeHead(fs, s).value;
            DecodeHead(fs, s + more) == Ok((vs, rest + more))
  {
    Extend(fs, s, more);
  }

  // ---- the payload ----------------------------------------------------------------------

  /** What has been decoded stays decoded when more bytes follow. */
  lemma PayloadExtend(s: seq<byte>, more: seq<byte>)
    requires DecodePayload(s).Ok?
    ensures var (state, rest) := DecodePayload(s).value;
            DecodePayload(s + more) == Ok((state, rest + more))
  {
    hide DecodeHead, DecodeSection;
    var (_, s0) := DecodeHead(HeadLayout, s).value;
    HeadExtend(HeadLayout, s, more);
    var (_, s1) := DecodeSection(DescriptorLayout, s0, TRUNCATED).value;
    SectionExtend(DescriptorLayout, s0, TRUNCATED, more);
    var (_, s2) := DecodeSection(RegistrationLayout, s1, IMPOSSIBLE_COUNT).value;
    SectionExtend(RegistrationLayout, s1, IMPOSSIBLE_COUNT, more);
    var (_, s3) := DecodeSection([Word64], s2, IMPOSSIBLE_COUNT).value;
    SectionExtend([Word64], s2, IMPOSSIBLE_COUNT, more);
    var (_, s4) := DecodeSection(RemoteKeyLayout, s3, IMPOSSIBLE_COUNT).value;
    SectionExtend(RemoteKeyLayout, s3, IMPOSSIBLE_COUNT, more);
    var (_, s5) := DecodeSection(LocalKeyLayout, s4, IMPOSSIBLE_COUNT).value;
    SectionExtend(LocalKeyLayout, s4, IMPOSSIBLE_COUNT, more);
    var (_, s6) := DecodeSection(ReasonLayout, s5, IMPOSSIBLE_COUNT).value;
    SectionExtend(ReasonLayout, s5, IMPOSSIBLE_COUNT, more);
    var (_, s7) := DecodeHead(AccountingLayout, s6).value;
    HeadExtend(AccountingLayout, s6, more);
    SectionExtend(BackendInfoLayout, s7, IMPOSSIBLE_COUNT, more);
  }

  /** The tails of a payload, each starting at one more section. */
  function Tails(s: PersistableState, rest: seq<byte>): (t: seq<seq<byte>>)
    ensures |t| == 9
  {
    var t8 := rest;
    var t7 := EncodeValue(L(BackendRows(s.backends))) + t8;
    var t6 := Encode(AccountingRow(s.accounting)) + t7;
    var t5 := EncodeValue(L(TextRows(s.revocations))) + t6;
    var t4 := EncodeValue(L(LocalKeyRows(s.localKeys))) + t5;
    var t3 := EncodeValue(L(RemoteKeyRows(s.remoteKeys))) + t4;
    var t2 := EncodeValue(L(WordRows(s.domains))) + t3;
    var t1 := EncodeValue(L(RegistrationRows(s.registrations))) + t2;
    var t0 := EncodeValue(L(BufferRows(s.buffers))) + t1;
    [t0, t1, t2, t3, t4, t5, t6, t7, t8]
  }

  lemma Regroup(a: seq<byte>, b: seq<byte>, c: seq<byte>)
    ensures (a + b) + c == a + (b + c)
  {
  }

  lemma PayloadTails(s: PersistableState, rest: seq<byte>)
    ensures Payload(s) + rest == Encode(HeadRow(s)) + Tails(s, rest)[0]
  {
    hide Encode, EncodeValue, BufferRows, RegistrationRows, WordRows, RemoteKeyRows, LocalKeyRows, TextRows, BackendRows;
    hide AccountingRow, HeadRow;
    var e8 := EncodeValue(L(BackendRows(s.backends)));
    var e7 := Encode(AccountingRow(s.accounting)) + e8;
    var e6 := EncodeValue(L(TextRows(s.revocations))) + e7;
    var e5 := EncodeValue(L(LocalKeyRows(s.localKeys))) + e6;
    var e4 := EncodeValue(L(RemoteKeyRows(s.remoteKeys))) + e5;
    var e3 := EncodeValue(L(WordRows(s.domains))) + e4;
    var e2 := EncodeValue(L(RegistrationRows(s.registrations))) + e3;
    var e1 := EncodeValue(L(BufferRows(s.buffers))) + e2;
    Regroup(Encode(AccountingRow(s.accounting)), e8, rest);
    Regroup(EncodeValue(L(TextRows(s.revocations))), e7, rest);
    Regroup(EncodeValue(L(LocalKeyRows(s.localKeys))), e6, rest);
    Regroup(EncodeValue(L(RemoteKeyRows(s.remoteKeys))), e5, rest);
    Regroup(EncodeValue(L(WordRows(s.domains))), e4, rest);
    Regroup(EncodeValue(L(RegistrationRows(s.registrations))), e3, rest);
    Regroup(EncodeValue(L(BufferRows(s.buffers))), e2, rest);
    Regroup(Encode(HeadRow(s)), e1, rest);
  }

  /** A payload decodes exactly when it is in bounds, and to the canonical state. */
  lemma PayloadRoundTrip(s: PersistableState, rest: seq<byte>)
    requires Wide(s)
    ensures DecodePayload(Payload(s) + rest).Ok? <==> InBounds(s)
    ensures InBounds(s) ==> DecodePayload(Payload(s) + rest) == Ok((Canonical(s), rest))
  {
    hide DecodeHead, DecodeSection, Encode, EncodeValue, Payload, Representable, RepresentableRow, InBounds, Canonical;
    hide BufferRows, RegistrationRows, WordRows, RemoteKeyRows, LocalKeyRows, TextRows, BackendRows;
    hide BuffersOf, RegistrationsOf, WordsOf, RemoteKeysOf, LocalKeysOf, TextsOf, BackendsOf;
    hide AccountingRow, HeadRow, AccountingOf, AuthorityOf;
    var t := Tails(s, rest);
    PayloadTails(s, rest);
    HeadRoundTrip(HeadLayout, HeadRow(s), t[0]);
    SectionRoundTrip(DescriptorLayout, BufferRows(s.buffers), t[1], TRUNCATED);
    SectionRoundTrip(RegistrationLayout, RegistrationRows(s.registrations), t[2], IMPOSSIBLE_COUNT);
    SectionRoundTrip([Word64], WordRows(s.domains), t[3], IMPOSSIBLE_COUNT);
    SectionRoundTrip(RemoteKeyLayout, RemoteKeyRows(s.remoteKeys), t[4], IMPOSSIBLE_COUNT);
    SectionRoundTrip(LocalKeyLayout, LocalKeyRows(s.localKeys), t[5], IMPOSSIBLE_COUNT);
    SectionRoundTrip(ReasonLayout, TextRows(s.revocations), t[6], IMPOSSIBLE_COUNT);
    HeadRoundTrip(AccountingLayout, AccountingRow(s.accounting), t[7]);
    SectionRoundTrip(BackendInfoLayout, BackendRows(s.backends), t[8], IMPOSSIBLE_COUNT);
    BoundsOfState(s);
    RowsInvert(s);
  }

  /** The bounds on rows are the bounds on the state. */
  lemma BoundsOfState(s: PersistableState)
    ensures InBounds(s) <==>
      && |BufferRows(s.buffers)| <= MAX_COUNT && BoundedRows(DescriptorLayout, BufferRows(s.buffers))
      && |RegistrationRows(s.registrations)| <= MAX_COUNT
      && BoundedRows(RegistrationLayout, RegistrationRows(s.registrations))
      && |WordRows(s.domains)| <= MAX_COUNT && BoundedRows([Word64], WordRows(s.domains))
      && |RemoteKeyRows(s.remoteKeys)| <= MAX_COUNT && BoundedRows(RemoteKeyLayout, RemoteKeyRows(s.remoteKeys))
      && |LocalKeyRows(s.localKeys)| <= MAX_COUNT && BoundedRows(LocalKeyLayout, LocalKeyRows(s.localKeys))
      && |TextRows(s.revocations)| <= MAX_COUNT && BoundedRows(ReasonLayout, TextRows(s.revocations))
      && |BackendRows(s.backends)| <= MAX_COUNT && BoundedRows(BackendInfoLayout, BackendRows(s.backends))
  {
    PlainRows(DescriptorLayout, BufferRows(s.buffers));
    PlainRows([Word64], WordRows(s.domains));
    PlainRows(RemoteKeyLayout, RemoteKeyRows(s.remoteKeys));
    PlainRows(LocalKeyLayout, LocalKeyRows(s.localKeys));
    RegistrationRowsBounds(s.registrations);
    TextRowsBounds(s.revocations);
    BackendRowsBounds(s.backends);
  }

  lemma PlainRows(fs: Layout, rows: seq<Row>)
    requires forall i :: 0 <= i < |fs| ==> fs[i].Code? || fs[i].Word64?
    ensures BoundedRows(fs, rows)
  {
    forall i | 0 <= i < |rows| ensures BoundedRow(fs, rows[i].values) {
      PlainBounds(fs, rows[i].values);
    }
  }

  lemma RegistrationRowsBounds(rs: seq<RegistrationRecord>)
    ensures BoundedRows(RegistrationLayout, RegistrationRows(rs))
       <==> forall i :: 0 <= i < |rs| ==> RegistrationBounded(rs[i])
  {
    hide BoundedRow, RegistrationRow, RegistrationBounded;
    forall i | 0 <= i < |rs|
      ensures BoundedRow(RegistrationLayout, RegistrationRows(rs)[i].values) <==> RegistrationBounded(rs[i])
    {
      RegistrationBounds(rs[i]);
    }
  }

  lemma TextRowsBounds(ts: seq<Text>)
    ensures BoundedRows(ReasonLayout, TextRows(ts)) <==> forall i :: 0 <= i < |ts| ==> |ts[i]| <= MAX_COUNT
  {
    forall i | 0 <= i < |ts|
      ensures BoundedRow(ReasonLayout, TextRows(ts)[i].values) <==> |ts[i]| <= MAX_COUNT
    {
      assert TextRows(ts)[i].values == [T(ts[i])];
      assert Bounded(ReasonLayout[0], [T(ts[i])][0]) <==> |ts[i]| <= MAX_COUNT;
    }
  }

  lemma BackendRowsBounds(bs: seq<BackendInfo>)
    ensures BoundedRows(BackendInfoLayout, BackendRows(bs))
       <==> forall i :: 0 <= i < |bs| ==> BackendInfoBounded(bs[i])
  {
    hide BoundedRow, BackendInfoRow, BackendInfoBounded;
    forall i | 0 <= i < |bs|
      ensures BoundedRow(BackendInfoLayout, BackendRows(bs)[i].values) <==> BackendInfoBounded(bs[i])
    {
      BackendInfoBounds(bs[i]);
    }
  }

  /** Rows read back as the state they were made from, up to what the format drops. */
  lemma RowsInvert(s: PersistableState)
    ensures Canonical(s) == PersistableState(
              FORMAT_VERSION, BuffersOf(BufferRows(s.buffers)), RegistrationsOf(RegistrationRows(s.registrations)),
              WordsOf(WordRows(s.domains)), RemoteKeysOf(RemoteKeyRows(s.remoteKeys)),
              LocalKeysOf(LocalKeyRows(s.localKeys)), TextsOf(TextRows(s.revocations)),
              AccountingOf(AccountingRow(s.accounting)), BackendsOf(BackendRows(s.backends)),
              AuthorityOf(HeadRow(s)[1..]), Num(HeadRow(s)[0]))
  {
    hide DescriptorRow, DescriptorOf, RegistrationRow, RegistrationOf, RemoteKeyRow, RemoteKeyOf, LocalKeyRow, LocalKeyOf;
    hide BackendInfoRow, BackendInfoOf, AccountingRow, AccountingOf, AuthorityRow, AuthorityOf;
    forall i | 0 <= i < |s.buffers| ensures BuffersOf(BufferRows(s.buffers))[i] == s.buffers[i] {
      DescriptorInverse(s.buffers[i]);
    }
    forall i | 0 <= i < |s.registrations|
      ensures RegistrationsOf(RegistrationRows(s.registrations))[i] == s.registrations[i].(policyGeneration := 0)
    {
      RegistrationInverse(s.registrations[i]);
    }
    forall i | 0 <= i < |s.remoteKeys| ensures RemoteKeysOf(RemoteKeyRows(s.remoteKeys))[i] == s.remoteKeys[i] {
      RemoteKeyInverse(s.remoteKeys[i]);
    }
    forall i | 0 <= i < |s.localKeys| ensures LocalKeysOf(LocalKeyRows(s.localKeys))[i] == s.localKeys[i] {
      LocalKeyInverse(s.localKeys[i]);
    }
    forall i | 0 <= i < |s.backends| ensures BackendsOf(BackendRows(s.backends))[i] == s.backends[i] {
      BackendInfoInverse(s.backends[i]);
    }
    AccountingInverse(s.accounting);
    AuthorityInverse(s.authority);
    assert HeadRow(s)[1..] == AuthorityRow(s.authority);
    assert WordsOf(WordRows(s.domains)) == s.domains;
    assert TextsOf(TextRows(s.revocations)) == s.revocations;
  }

  /** Whatever is decoded could be written again, within bounds, and unchanged. */
  lemma PayloadRenewed(s: seq<byte>)
    requires DecodePayload(s).Ok?
    ensures var state := DecodePayload(s).value.0; Wide(state) && InBounds(state) && Canonical(state) == state
  {
    hide DecodeHead, DecodeSection, Representable, RepresentableRow, BoundedRows, RegistrationBounded, BackendInfoBounded;
    hide BuffersOf, RegistrationsOf, WordsOf, RemoteKeysOf, LocalKeysOf, TextsOf, BackendsOf, AccountingOf, AuthorityOf;
    hide BufferRows, RegistrationRows, WordRows, RemoteKeyRows, LocalKeyRows, TextRows, BackendRows, AccountingRow, HeadRow;
    var (head, s0) := DecodeHead(HeadLayout, s).value;
    HeadSound(HeadLayout, s);
    var (buffers, s1) := DecodeSection(DescriptorLayout, s0, TRUNCATED).value;
    SectionSound(DescriptorLayout, s0, TRUNCATED);
    BuffersRenewed(buffers);
    var (registrations, s2) := DecodeSection(RegistrationLayout, s1, IMPOSSIBLE_COUNT).value;
    SectionSound(RegistrationLayout, s1, IMPOSSIBLE_COUNT);
    RegistrationsRenewed(registrations);
    var (domains, s3) := DecodeSection([Word64], s2, IMPOSSIBLE_COUNT).value;
    SectionSound([Word64], s2, IMPOSSIBLE_COUNT);
    WordsRenewed(domains);
    var (remoteKeys, s4) := DecodeSection(RemoteKeyLayout, s3, IMPOSSIBLE_COUNT).value;
    SectionSound(RemoteKeyLayout, s3, IMPOSSIBLE_COUNT);
    RemoteKeysRenewed(remoteKeys);
    var (localKeys, s5) := DecodeSection(LocalKeyLayout, s4, IMPOSSIBLE_COUNT).value;
    SectionSound(LocalKeyLayout, s4, IMPOSSIBLE_COUNT);
    LocalKeysRenewed(localKeys);
    var (revocations, s6) := DecodeSection(ReasonLayout, s5, IMPOSSIBLE_COUNT).value;
    SectionSound(ReasonLayout, s5, IMPOSSIBLE_COUNT);
    TextsRenewed(revocations);
    var (accounting, s7) := DecodeHead(AccountingLayout, s6).value;
    HeadSound(AccountingLayout, s6);
    AccountingRenewed(accounting);
    var (backends, s8) := DecodeSection(BackendInfoLayout, s7, IMPOSSIBLE_COUNT).value;
    SectionSound(BackendInfoLayout, s7, IMPOSSIBLE_COUNT);
    BackendsRenewed(backends);
    HeadRenewedRow(head, DecodePayload(s).value.0);
  }

  lemma HeadSound(fs: Layout, s: seq<byte>)
    requires DecodeHead(fs, s).Ok?
    ensures RepresentableRow(fs, DecodeHead(fs, s).value.0)
  {
    Sound(fs, s);
  }

  lemma HeadRenewedRow(head: seq<Value>, s: PersistableState)
    requires RepresentableRow(HeadLayout, head)
    requires s.policyGeneration == Num(head[0]) && s.authority == AuthorityOf(head[1..])
    ensures RepresentableRow(HeadLayout, HeadRow(s)) && s.authority.provenance == UNKNOWN_PROVENANCE
  {
    hide AuthorityRow;
    assert Representable(HeadLayout[0], head[0]);
    assert head == [head[0]] + head[1..];
    RepresentableConcat([Word64], AuthorityLayout, [head[0]], head[1..]);
    AuthorityRenewed(head[1..]);
    RepresentableConcat([Word64], AuthorityLayout, [W(s.policyGeneration)], AuthorityRow(s.authority));
  }

  lemma BuffersRenewed(rows: seq<Row>)
    requires Shaped(rows, 20) && Representable(List(MAX_COUNT, DescriptorLayout), L(rows))
    ensures |BuffersOf(rows)| == |rows|
    ensures Representable(List(MAX_COUNT, DescriptorLayout), L(BufferRows(BuffersOf(rows))))
  {
    hide DescriptorRow, DescriptorOf, RepresentableRow;
    var again := BufferRows(BuffersOf(rows));
    forall i | 0 <= i < |again| ensures RepresentableRow(DescriptorLayout, again[i].values) {
      DescriptorRowExact(rows[i].values);
    }
  }

  lemma RegistrationsRenewed(rows: seq<Row>)
    requires Shaped(rows, 74) && Representable(List(MAX_COUNT, RegistrationLayout), L(rows))
    requires BoundedRows(RegistrationLayout, rows)
    ensures |RegistrationsOf(rows)| == |rows|
    ensures Representable(List(MAX_COUNT, RegistrationLayout), L(RegistrationRows(RegistrationsOf(rows))))
    ensures forall i :: 0 <= i < |rows| ==> RegistrationBounded(RegistrationsOf(rows)[i])
    ensures forall i :: 0 <= i < |rows| ==> RegistrationsOf(rows)[i].policyGeneration == 0
  {
    hide RegistrationRow, RepresentableRow, BoundedRow, RegistrationBounded, DescriptorOf, RemoteKeyOf, LocalKeyOf;
    var again := RegistrationRows(RegistrationsOf(rows));
    forall i | 0 <= i < |rows|
      ensures RepresentableRow(RegistrationLayout, again[i].values)
      ensures RegistrationBounded(RegistrationsOf(rows)[i])
    {
      RegistrationRenewed(rows[i].values);
    }
  }

  lemma WordsRenewed(rows: seq<Row>)
    requires Shaped(rows, 1) && Representable(List(MAX_COUNT, [Word64]), L(rows))
    ensures |WordsOf(rows)| == |rows|
    ensures Representable(List(MAX_COUNT, [Word64]), L(WordRows(WordsOf(rows))))
  {
    var again := WordRows(WordsOf(rows));
    forall i | 0 <= i < |again| ensures RepresentableRow([Word64], again[i].values) {
      assert RepresentableRow([Word64], rows[i].values);
      assert Representable([Word64][0], rows[i].values[0]);
    }
  }

  lemma RemoteKeysRenewed(rows: seq<Row>)
    requires Shaped(rows, 15) && Representable(List(MAX_COUNT, RemoteKeyLayout), L(rows))
    ensures |RemoteKeysOf(rows)| == |rows|
    ensures Representable(List(MAX_COUNT, RemoteKeyLayout), L(RemoteKeyRows(RemoteKeysOf(rows))))
  {
    hide RemoteKeyRow, RemoteKeyOf, RepresentableRow;
    var again := RemoteKeyRows(RemoteKeysOf(rows));
    forall i | 0 <= i < |again| ensures RepresentableRow(RemoteKeyLayout, again[i].values) {
      RemoteKeyRenewed(rows[i].values);
    }
  }

  lemma LocalKeysRenewed(rows: seq<Row>)
    requires Shaped(rows, 9) && Representable(List(MAX_COUNT, LocalKeyLayout), L(rows))
    ensures |LocalKeysOf(rows)| == |rows|
    ensures Representable(List(MAX_COUNT, LocalKeyLayout), L(LocalKeyRows(LocalKeysOf(rows))))
  {
    hide LocalKeyRow, LocalKeyOf, RepresentableRow;
    var again := LocalKeyRows(LocalKeysOf(rows));
    forall i | 0 <= i < |again| ensures RepresentableRow(LocalKeyLayout, again[i].values) {
      LocalKeyRenewed(rows[i].values);
    }
  }

  lemma TextsRenewed(rows: seq<Row>)
    requires Shaped(rows, 1) && Representable(List(MAX_COUNT, ReasonLayout), L(rows)) && BoundedRows(ReasonLayout, rows)
    ensures |TextsOf(rows)| == |rows|
    ensures Representable(List(MAX_COUNT, ReasonLayout), L(TextRows(TextsOf(rows))))
    ensures forall i :: 0 <= i < |rows| ==> |TextsOf(rows)[i]| <= MAX_COUNT
  {
    var again := TextRows(TextsOf(rows));
    forall i | 0 <= i < |again|
      ensures RepresentableRow(ReasonLayout, again[i].values) && |TextsOf(rows)[i]| <= MAX_COUNT
    {
      assert RepresentableRow(ReasonLayout, rows[i].values) && BoundedRow(ReasonLayout, rows[i].values);
      assert Representable(ReasonLayout[0], rows[i].values[0]) && Bounded(ReasonLayout[0], rows[i].values[0]);
    }
  }

  lemma BackendsRenewed(rows: seq<Row>)
    requires Shaped(rows, 25) && Representable(List(MAX_COUNT, BackendInfoLayout), L(rows))
    requires BoundedRows(BackendInfoLayout, rows)
    ensures |BackendsOf(rows)| == |rows|
    ensures Representable(List(MAX_COUNT, BackendInfoLayout), L(BackendRows(BackendsOf(rows))))
    ensures forall i :: 0 <= i < |rows| ==> BackendInfoBounded(BackendsOf(rows)[i])
  {
    hide BackendInfoRow, BackendInfoOf, RepresentableRow, BoundedRow, BackendInfoBounded;
    var again := BackendRows(BackendsOf(rows));
    forall i | 0 <= i < |rows|
      ensures RepresentableRow(BackendInfoLayout, again[i].values) && BackendInfoBounded(BackendsOf(rows)[i])
    {
      BackendInfoRenewed(rows[i].values);
    }
  }

  // ---- the theorems -----------------------------------------------------------------------

  lemma SealParts(body: seq<byte>)
    requires |body| >= 8
    ensures |Seal(body)| == |body| + 4
    ensures Seal(body)[..|body|] == body
    ensures Crc32.Checked(body, Seal(body)[|body|..])
  {
    hide Crc32.Code;
    assert Seal(body)[|body|..] == LE(Crc32.Code(body), 4);
    Crc32.CodeBound(body);
    FromLEOfLE(Crc32.Code(body), 4);
  }

  lemma BodyParts(payload: seq<byte>)
    ensures var body := LE(FORMAT_MAGIC, 4) + LE(FORMAT_VERSION, 4) + payload;
            && |body| == 8 + |payload|
            && FromLE(body[..4]) == FORMAT_MAGIC && FromLE(body[4..8]) == FORMAT_VERSION && body[8..] == payload
  {
    var body := LE(FORMAT_MAGIC, 4) + LE(FORMAT_VERSION, 4) + payload;
    assert body[..4] == LE(FORMAT_MAGIC, 4) && body[4..8] == LE(FORMAT_VERSION, 4);
    assert Pow256(4) == 0x1_0000_0000;
    FromLEOfLE(FORMAT_MAGIC, 4);
    FromLEOfLE(FORMAT_VERSION, 4);
  }

  /**
   * The round trip: a written state is accepted exactly when it is within the
   * bounds and its identities and generations are sound, and it is then read
   * back as it was, except for the two fields the format does not carry.
   */
  lemma BlobRoundTrip(s: PersistableState)
    requires Wide(s)
    ensures Accept(Blob(s)).Ok? <==> InBounds(s) && Integral(s)
    ensures Accept(Blob(s)).Ok? ==> Accept(Blob(s)) == Ok(Canonical(s))
  {
    hide Crc32.Checked, Payload, DecodePayload, Fault, Canonical, Wide, InBounds, Integral, Seal;
    BodyParts(Payload(s));
    SealParts(Body(s));
    PayloadRoundTrip(s, []);
    assert Payload(s) + [] == Payload(s);
    FaultFreeIsIntegral(Canonical(s));
    CanonicalIntegral(s);
  }

  lemma CanonicalIntegral(s: PersistableState)
    ensures Integral(Canonical(s)) <==> Integral(s)
  {
    assert RegistrationIds(Canonical(s).registrations) == RegistrationIds(s.registrations);
    var c := Canonical(s).registrations;
    assert forall i :: 0 <= i < |c| ==> c[i].registrationGeneration == s.registrations[i].registrationGeneration;
  }

  /** Whatever was accepted is accepted again, unchanged, when written anew. */
  lemma AcceptedIsStable(bytes: seq<byte>)
    requires Accept(bytes).Ok?
    ensures var s := Accept(bytes).value;
            Wide(s) && InBounds(s) && Integral(s) && Canonical(s) == s && Accept(Blob(s)) == Ok(s)
  {
    hide Crc32.Checked, DecodePayload, Fault, Canonical, Wide, InBounds, Integral, Blob;
    var s := Accept(bytes).value;
    PayloadRenewed(bytes[..|bytes| - 4][8..]);
    FaultFreeIsIntegral(s);
    BlobRoundTrip(s);
  }

  /** No strict prefix of a written blob is accepted, even if its last four bytes happen to be its checksum. */
  lemma PrefixRejected(s: PersistableState, n: nat)
    requires Wide(s) && InBounds(s) && n < |Blob(s)|
    ensures Accept(Blob(s)[..n]).Err?
  {
    hide Crc32.Checked, Payload, DecodePayload, Fault, Canonical, Wide, InBounds, Seal;
    BodyParts(Payload(s));
    SealParts(Body(s));
    assert Payload(s) + [] == Payload(s);
    PayloadRoundTrip(s, []);
    if Accept(Blob(s)[..n]).Ok? {
      var short := Blob(s)[..n][..n - 4][8..];
      var cut := Payload(s)[|short|..];
      assert Blob(s)[..n][..n - 4] == Blob(s)[..|Body(s)|][..n - 4];
      assert short == Payload(s)[..|short|];
      assert Payload(s) == short + cut;
      PayloadExtend(short, cut);
      assert false;
    }
  }

  /** Bytes added to the body under a fresh checksum are always reported as trailing garbage. */
  lemma TrailingGarbageRejected(s: PersistableState, junk: seq<byte>)
    requires Wide(s) && InBounds(s) && junk != []
    ensures Accept(Seal(Body(s) + junk)) == Err(TRAILING_GARBAGE)
  {
    hide Crc32.Checked, Payload, DecodePayload, Fault, Canonical, Wide, InBounds, Seal;
    assert Body(s) + junk == LE(FORMAT_MAGIC, 4) + LE(FORMAT_VERSION, 4) + (Payload(s) + junk);
    BodyParts(Payload(s) + junk);
    SealParts(Body(s) + junk);
    PayloadRoundTrip(s, junk);
  }

  /**
   * Corruption: no blob that differs from an accepted one inside a window of 32
   * consecutive bits, be it in the body, in the checksum or across both, is accepted.
   */
  lemma BurstRejected(bytes: seq<byte>, bytes': seq<byte>, lo: nat)
    requires Accept(bytes).Ok? && Crc32.BurstBytes(bytes, bytes', lo)
    ensures Accept(bytes').Err?
    ensures Accept(bytes').error in {BAD_MAGIC, BAD_VERSION, CHECKSUM_MISMATCH}
  {
    hide Crc32.BurstBytes, Crc32.Checked, DecodePayload, Fault;
    Crc32.BurstLength(bytes, bytes', lo);
    var n := |bytes| - 4;
    assert bytes == bytes[..n] + bytes[n..] && bytes' == bytes'[..n] + bytes'[n..];
    Crc32.BurstRejected(bytes[..n], bytes[n..], bytes'[..n], bytes'[n..], lo);
  }

  /** The same for a change of up to four consecutive bytes. */
  lemma FourBytesRejected(bytes: seq<byte>, bytes': seq<byte>, k: nat)
    requires Accept(bytes).Ok? && |bytes| == |bytes'| && bytes != bytes'
    requires forall i :: 0 <= i < |bytes| && !(k <= i < k + 4) ==> bytes[i] == bytes'[i]
    ensures Accept(bytes').Err?
  {
    hide Crc32.BurstBytes, Accept;
    Crc32.FourBytesAreABurst(bytes, bytes', k);
    BurstRejected(bytes, bytes', 8 * k);
  }
}
