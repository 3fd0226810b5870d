/**
 * serialize and parse as they run: a Writer appended to section by section, a
 * Reader whose cursor advances, and the two nested scans of the integrity check.
 * Their contracts tie them to `Blob` and `Accept`.
 */
module PersistenceIo {
  import opened Bytes
  import opened Records
  import opened Layouts
  import opened ByteIo
  import opened RowIo
  import opened RecordFormats
  import opened Persistence

  /** serialize: magic, version, the sections in order, then the checksum of all of it. */
  method Serialize(s: PersistableState) returns (blob: seq<byte>)
    ensures blob == Blob(s)
  {
    hide Encode, EncodeValue, LE, Crc32.Code;
    hide BufferRows, RegistrationRows, WordRows, RemoteKeyRows, LocalKeyRows, TextRows, BackendRows;
    hide AuthorityRow, AccountingRow, HeadRow;
    var w := new Writer();
    w.U32(FORMAT_MAGIC);
    w.U32(FORMAT_VERSION);
    ghost var head := w.buf;
    WriteRow(w, HeadRow(s));
    WriteRows(w, BufferRows(s.buffers));
    WriteRows(w, RegistrationRows(s.registrations));
    WriteRows(w, WordRows(s.domains));
    WriteRows(w, RemoteKeyRows(s.remoteKeys));
    WriteRows(w, LocalKeyRows(s.localKeys));
    WriteRows(w, TextRows(s.revocations));
    WriteRow(w, AccountingRow(s.accounting));
    WriteRows(w, BackendRows(s.backends));
    var body := w.buf;
    PayloadPieces(s, head);
    assert body == Body(s);
    var crc := Crc32.Crc(body);
    var sealed := new Writer();
    sealed.Raw(body);
    sealed.U32(crc);
    blob := sealed.buf;
  }

  /** The pieces in the order they were appended are the payload. */
  lemma PayloadPieces(s: PersistableState, head: seq<byte>)
    ensures head + Encode(HeadRow(s))
            + EncodeValue(L(BufferRows(s.buffers)))
            + EncodeValue(L(RegistrationRows(s.registrations)))
            + EncodeValue(L(WordRows(s.domains)))
            + EncodeValue(L(RemoteKeyRows(s.remoteKeys)))
            + EncodeValue(L(LocalKeyRows(s.localKeys)))
            + EncodeValue(L(TextRows(s.revocations)))
            + Encode(AccountingRow(s.accounting))
            + EncodeValue(L(BackendRows(s.backends)))
         == head + Payload(s)
  {
    hide Encode, EncodeValue, HeadRow, AccountingRow;
    hide BufferRows, RegistrationRows, WordRows, RemoteKeyRows, LocalKeyRows, TextRows, BackendRows;
    var e8 := EncodeValue(L(BackendRows(s.backends)));
    var e7 := Encode(AccountingRow(s.accounting));
    var e6 := EncodeValue(L(TextRows(s.revocations)));
    var e5 := EncodeValue(L(LocalKeyRows(s.localKeys)));
    var e4 := EncodeValue(L(RemoteKeyRows(s.remoteKeys)));
    var e3 := EncodeValue(L(WordRows(s.domains)));
    var e2 := EncodeValue(L(RegistrationRows(s.registrations)));
    var e1 := EncodeValue(L(BufferRows(s.buffers)));
    var e0 := Encode(HeadRow(s));
    Regroup(head + e0 + e1 + e2 + e3 + e4 + e5 + e6, e7, e8);
    Regroup(head + e0 + e1 + e2 + e3 + e4 + e5, e6, e7 + e8);
    Regroup(head + e0 + e1 + e2 + e3 + e4, e5, e6 + (e7 + e8));
    Regroup(head + e0 + e1 + e2 + e3, e4, e5 + (e6 + (e7 + e8)));
    Regroup(head + e0 + e1 + e2, e3, e4 + (e5 + (e6 + (e7 + e8))));
    Regroup(head + e0 + e1, e2, e3 + (e4 + (e5 + (e6 + (e7 + e8)))));
    Regroup(head + e0, e1, e2 + (e3 + (e4 + (e5 + (e6 + (e7 + e8))))));
    Regroup(head, e0, e1 + (e2 + (e3 + (e4 + (e5 + (e6 + (e7 + e8)))))));
  }

  // ---- parse --------------------------------------------------------------------

  method ReadHead(r: Reader, fs: Layout) returns (res: Result<seq<Value>, FormatError>)
    requires r.Valid()
    modifies r
    ensures r.Valid()
    ensures match DecodeHead(fs, old(r.Rest()))
            case Err(e) => res == Err(e)
            case Ok((vs, rest)) => res == Ok(vs) && r.Rest() == rest
  {
    var row := ReadRow(r, fs);
    res := if row.None? then Err(TRUNCATED) else Ok(row.value);
  }

  /** A count, checked against the limit, and that many items; a missing count is reported as `missing`. */
  method ReadSection(r: Reader, item: Layout, missing: FormatError) returns (res: Result<seq<Row>, FormatError>)
    requires r.Valid()
    modifies r
    ensures r.Valid()
    ensures match DecodeSection(item, old(r.Rest()), missing)
            case Err(e) => res == Err(e)
            case Ok((rows, rest)) => res == Ok(rows) && r.Rest() == rest
  {
    var n := r.U64();
    if n.None? {
      return Err(missing);
    }
    if n.value > MAX_COUNT {
      return Err(IMPOSSIBLE_COUNT);
    }
    var rows := ReadRows(r, n.value, item);
    res := if rows.None? then Err(TRUNCATED) else Ok(rows.value);
  }

  method ReadPayload(r: Reader) returns (res: Result<PersistableState, FormatError>)
    requires r.Valid()
    modifies r
    ensures r.Valid()
    ensures match DecodePayload(old(r.Rest()))
            case Err(e) => res == Err(e)
            case Ok((s, rest)) => res == Ok(s) && r.Rest() == rest
  {
    hide DecodeHead, DecodeSection;
    hide BuffersOf, RegistrationsOf, WordsOf, RemoteKeysOf, LocalKeysOf, TextsOf, BackendsOf, AccountingOf, AuthorityOf;
    var head :- ReadHead(r, HeadLayout);
    var buffers :- ReadSection(r, DescriptorLayout, TRUNCATED);
    var registrations :- ReadSection(r, RegistrationLayout, IMPOSSIBLE_COUNT);
    var domains :- ReadSection(r, [Word64], IMPOSSIBLE_COUNT);
    var remoteKeys :- ReadSection(r, RemoteKeyLayout, IMPOSSIBLE_COUNT);
    var localKeys :- ReadSection(r, LocalKeyLayout, IMPOSSIBLE_COUNT);
    var revocations :- ReadSection(r, ReasonLayout, IMPOSSIBLE_COUNT);
    var accounting :- ReadHead(r, AccountingLayout);
    var backends :- ReadSection(r, BackendInfoLayout, IMPOSSIBLE_COUNT);
    res := Ok(PersistableState(
      FORMAT_VERSION, BuffersOf(buffers), RegistrationsOf(registrations), WordsOf(domains),
      RemoteKeysOf(remoteKeys), LocalKeysOf(localKeys), TextsOf(revocations), AccountingOf(accounting),
      BackendsOf(backends), AuthorityOf(head[1..]), Num(head[0])));
  }

  /** The scan over one table: a zero generation, or an identity already in `seen`. */
  method Scan(ids: seq<nat>, gens: seq<nat>) returns (fault: Option<FormatError>)
    requires |ids| == |gens|
    ensures fault == FirstFault(ids, gens, 0)
  {
    var seen: seq<nat> := [];
    for i := 0 to |ids|
      invariant seen == ids[..i]
      invariant FirstFault(ids, gens, 0) == FirstFault(ids, gens, i)
    {
      if gens[i] == 0 {
        return Some(GENERATION_REGRESSION);
      }
      for j := 0 to |seen|
        invariant ids[i] !in seen[..j]
      {
        if seen[j] == ids[i] {
          return Some(DUPLICATE_IDENTITY);
        }
      }
      assert seen[..|seen|] == seen;
      seen := seen + [ids[i]];
    }
    fault := None;
  }

  method CheckIntegrity(s: PersistableState) returns (fault: Option<FormatError>)
    ensures fault == Fault(s)
  {
    fault := Scan(BufferIds(s.buffers), BufferGenerations(s.buffers));
    if fault.Some? {
      return;
    }
    fault := Scan(RegistrationIds(s.registrations), RegistrationGenerations(s.registrations));
    if fault.Some? {
      return;
    }
    fault := Scan(s.domains, Ones(|s.domains|));
  }

  method ChecksumMatches(body: seq<byte>, trailer: seq<byte>) returns (ok: bool)
    requires |trailer| == 4
    ensures ok == Crc32.Checked(body, trailer)
  {
    hide FromLE, Crc32.Code, Crc32.Steps;
    var expected := Crc32.Crc(body);
    var stored := ReadStored(trailer);
    ok := expected == stored;
  }

  method ReadStored(trailer: seq<byte>) returns (stored: nat)
    requires |trailer| == 4
    ensures stored == FromLE(trailer)
  {
    hide FromLE;
    var r := new Reader(trailer);
    assert r.Rest()[..4] == trailer;
    stored := r.Gather(4);
  }

  method Parse(bytes: seq<byte>) returns (res: Result<PersistableState, FormatError>)
    ensures res == Accept(bytes)
  {
    hide DecodePayload, Fault, FromLE, Crc32.Checked;
    if |bytes| < 12 {
      return Err(TRUNCATED);
    }
    var body := bytes[..|bytes| - 4];
    var r := new Reader(body);
    var magic := r.U32();
    var version := r.U32();
    assert body[4..][..4] == body[4..8] && r.Rest() == body[8..];
    if magic.value != FORMAT_MAGIC {
      return Err(BAD_MAGIC);
    }
    if version.value != FORMAT_VERSION {
      return Err(BAD_VERSION);
    }
    var intact := ChecksumMatches(body, bytes[|bytes| - 4..]);
    if !intact {
      return Err(CHECKSUM_MISMATCH);
    }
    var s :- ReadPayload(r);
    var left := r.Remaining();
    if left != 0 {
      return Err(TRAILING_GARBAGE);
    }
    var fault := CheckIntegrity(s);
    res := if fault.Some? then Err(fault.value) else Ok(s);
  }
}
