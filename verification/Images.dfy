/**
 * The bytes of everything that is saved, field by field in the order they are written, with
 * the magic number, the version and every enumeration spelled out in numbers.
 */
module Images {
  import opened Bytes
  import opened Records
  import opened Layouts
  import opened RecordFormats
  import opened Persistence
  import WireCodec

  function Joined(parts: seq<seq<byte>>): seq<byte> {
    if parts == [] then [] else parts[0] + Joined(parts[1..])
  }

  function U64(n: nat): seq<byte> {
    LE(n, 8)
  }

  /** A length word and the characters. */
  function Str(t: Text): seq<byte> {
    LE(|t|, 8) + t
  }

  function U8(b: byte): seq<byte> {
    [b]
  }

  /** A count word and the items, one after the other. */
  function Counted(items: seq<seq<byte>>): seq<byte> {
    LE(|items|, 8) + Joined(items)
  }

  // ---- enumerations ---------------------------------------------------------------------------------

  const DOMAINS: seq<MemoryDomain> :=
    [HOST_PAGEABLE, HOST_PINNED, CUDA_DEVICE, CUDA_MANAGED, SHARED_MEMORY, FILE_BACKED, SYNTHETIC_REMOTE_CAPABLE, UNKNOWN_DOMAIN]
  const POINTERS: seq<PointerKind> := [VIRTUAL, DEVICE, SHARED, FILE, SYNTHETIC_POINTER, UNKNOWN_POINTER]
  const LIFECYCLES: seq<Lifecycle> :=
    [UNREGISTERED, REGISTERING, REGISTERED, ACTIVE, REVOKING, REVOKED, DEREGISTERING, DEREGISTERED, FAILED, STALE,
     REVALIDATION_REQUIRED]
  const FRESHNESSES: seq<Freshness> := [VALID, FRESH_REVALIDATION_REQUIRED, FRESH_STALE, FRESH_UNKNOWN]
  const TRANSPORTS: seq<TransportClass> :=
    [INFINIBAND_CLASS, ROCE_CLASS, IWARP_CLASS, WINDOWS_ND_CLASS, LIBFABRIC_CLASS, VERBS_CLASS, TCP_REFERENCE,
     SYNTHETIC_TRANSPORT, UNKNOWN_TRANSPORT]
  const PROVENANCES: seq<Provenance> := [REAL, SYNTHETIC, UNKNOWN_PROVENANCE]
  const MODES: seq<RegistrationMode> := [PIN_ONLY, REMOTE_ACCESS, ANY]
  const LIFETIMES: seq<LifetimePolicy> := [TRANSACTIONAL, PERSISTENT, EPHEMERAL]
  const DIRECTIONS: seq<TransferDirection> := [NONE, SEND, RECEIVE, BIDIRECTIONAL]
  const CAPABILITIES: seq<CapabilityState> := [SUPPORTED, NOT_SUPPORTED, UNKNOWN_CAPABILITY]
  const BACKEND_STATES: seq<BackendState> := [READY, DISCOVERING, BACKEND_FAILED, BACKEND_DESTROYED]

  /** Each enumerator's byte is its place in the enumeration. */
  lemma Enumerators()
    ensures forall i :: 0 <= i < 8 ==> DomainCode(DOMAINS[i]) == i
    ensures forall i :: 0 <= i < 6 ==> PointerCode(POINTERS[i]) == i
    ensures forall i :: 0 <= i < 11 ==> LifecycleCode(LIFECYCLES[i]) == i
    ensures forall i :: 0 <= i < 4 ==> FreshnessCode(FRESHNESSES[i]) == i
    ensures forall i :: 0 <= i < 9 ==> TransportCode(TRANSPORTS[i]) == i
    ensures forall i :: 0 <= i < 3 ==> ProvenanceCode(PROVENANCES[i]) == i
    ensures forall i :: 0 <= i < 3 ==> ModeCode(MODES[i]) == i
    ensures forall i :: 0 <= i < 3 ==> LifetimeCode(LIFETIMES[i]) == i
    ensures forall i :: 0 <= i < 4 ==> DirectionCode(DIRECTIONS[i]) == i
    ensures forall i :: 0 <= i < 3 ==> CapabilityCode(CAPABILITIES[i]) == i
    ensures forall i :: 0 <= i < 4 ==> BackendStateCode(BACKEND_STATES[i]) == i
  {
  }

  // ---- records ----------------------------------------------------------------------------------------

  function DescriptorImage(b: BufferDescriptor): seq<seq<byte>> {
    [U64(b.id), U64(b.generation), U8(DomainCode(b.domain)), U64(b.address), U8(PointerCode(b.pointer)),
     U64(b.byteLength), U64(b.alignment), U64(b.pageSize), U64(b.owner), U64(b.process), U64(b.worker), U64(b.node),
     U64(b.device), U8(DirectionCode(b.direction)), U8(MaskByte(b.requestedAccess)), U8(ModeCode(b.mode)),
     U8(LifetimeCode(b.lifetime)), U8(ProvenanceCode(b.provenance)), U8(FreshnessCode(b.freshness)),
     U64(b.policyGeneration)]
  }

  function RemoteKeyImage(k: RemoteKey): seq<seq<byte>> {
    [U64(k.id), U64(k.registration), U64(k.registrationGeneration), U64(k.keyGeneration), U64(k.bufferGeneration),
     U64(k.boot), U64(k.process), U64(k.backend), U8(TransportCode(k.transport)), U8(MaskByte(k.access)), U64(k.start),
     U64(k.length), U64(k.opaqueValue), U8(if k.revoked then 1 else 0), U8(ProvenanceCode(k.provenance))]
  }

  function LocalKeyImage(k: LocalKey): seq<seq<byte>> {
    [U64(k.id), U64(k.registration), U64(k.registrationGeneration), U64(k.boot), U64(k.backend),
     U8(TransportCode(k.transport)), U8(MaskByte(k.access)), U64(k.opaqueValue), U8(ProvenanceCode(k.provenance))]
  }

  function RegistrationHeadImage(r: RegistrationRecord): seq<seq<byte>> {
    [U64(r.id), U64(r.bufferId), U64(r.bufferGeneration), U64(r.registrationGeneration), U64(r.backend),
     U64(r.backendGeneration), U64(r.transport), U64(r.nic), U8(DomainCode(r.domain)), U8(TransportCode(r.transportClass)),
     U8(MaskByte(r.grantedAccess)), U64(r.start), U64(r.length), U64(r.pageAlignment), U64(r.owner), U64(r.process),
     U64(r.worker), U64(r.boot), U64(r.epoch), U64(r.device), U64(r.domainId), U64(r.timestamp),
     U8(ProvenanceCode(r.provenance)), U8(FreshnessCode(r.freshness)), U8(LifecycleCode(r.lifecycle)),
     U64(r.leaseCount), U64(r.refCount), U64(r.regionId), Str(r.handle), Str(r.reason)]
  }

  function RegistrationImage(r: RegistrationRecord): seq<seq<byte>> {
    RegistrationHeadImage(r) + DescriptorImage(r.descriptor) + RemoteKeyImage(r.remoteKey) + LocalKeyImage(r.localKey)
  }

  function AccountingImage(a: Accounting): seq<seq<byte>> {
    [U64(a.logicalBuffers), U64(a.liveBufferBytes), U64(a.pinnedBytes), U64(a.registeredBytes), U64(a.activeRegistrations),
     U64(a.activeLeases), U64(a.protectionDomains), U64(a.localKeys), U64(a.remoteKeys), U64(a.remoteReadBytes),
     U64(a.remoteWriteBytes), U64(a.atomicOperations), U64(a.failedAccessAttempts), U64(a.staleAccessRejections),
     U64(a.revocations), U64(a.deregistrations), U64(a.reuseHits), U64(a.reuseMisses), U64(a.participantRestarts)]
  }

  function AuthorityImage(s: AuthoritySnapshot): seq<seq<byte>> {
    [U64(s.epoch), U64(s.workerBoot), U64(s.worker), U64(s.owner), U64(s.ownerGeneration), U64(s.workerGeneration),
     U64(s.policyGeneration), U64(s.backendGeneration), U64(s.transportGeneration), U64(s.nicGeneration), U64(s.node),
     U64(s.process), U8(ProvenanceCode(s.provenance))]
  }

  function DomainBytes(ds: seq<MemoryDomain>): (bs: seq<seq<byte>>)
    ensures |bs| == |ds|
  {
    seq(|ds|, i requires 0 <= i < |ds| => U8(DomainCode(ds[i])))
  }

  function BackendHeadImage(b: BackendInfo): seq<seq<byte>> {
    var c := b.capabilities;
    [U64(b.id), Str(b.name), Str(b.description), U8(ProvenanceCode(b.provenance)), U8(BackendStateCode(b.state)),
     U64(b.generation), U64(b.protDomainCount), U64(b.registrationCount), Counted(DomainBytes(c.supportedDomains)),
     U64(c.maxRegistrationLength), U64(c.requiredAlignment)]
  }

  function CapabilityImage(c: Capabilities): seq<seq<byte>> {
    [U8(CapabilityCode(c.remoteRead)), U8(CapabilityCode(c.remoteWrite)), U8(CapabilityCode(c.remoteAtomic)),
     U8(CapabilityCode(c.hostPinned)),
     U8(CapabilityCode(c.pageable)), U8(CapabilityCode(c.cudaDevice)), U8(CapabilityCode(c.cudaManaged)),
     U8(CapabilityCode(c.onDemandPaging)), U8(CapabilityCode(c.oneSided)), U8(CapabilityCode(c.multiprocess)),
     U8(CapabilityCode(c.multinode)), U8(CapabilityCode(c.keyRotation)), U8(CapabilityCode(c.revocation)),
     U8(ProvenanceCode(c.provenance))]
  }

  function BackendImage(b: BackendInfo): seq<seq<byte>> {
    BackendHeadImage(b) + CapabilityImage(b.capabilities)
  }

  // ---- rows are images ----------------------------------------------------------------------------------

  /** Row and image agree value by value. */
  ghost predicate Images(vs: seq<Value>, parts: seq<seq<byte>>) {
    |vs| == |parts| && forall i :: 0 <= i < |vs| ==> EncodeValue(vs[i]) == parts[i]
  }

  lemma {:induction false} RowIsImage(vs: seq<Value>, parts: seq<seq<byte>>)
    requires Images(vs, parts)
    ensures Encode(vs) == Joined(parts)
  {
    hide EncodeValue;
    if vs != [] {
      RowIsImage(vs[1..], parts[1..]);
    }
  }

  lemma ImagesConcat(vs: seq<Value>, parts: seq<seq<byte>>, us: seq<Value>, others: seq<seq<byte>>)
    requires Images(vs, parts) && Images(us, others)
    ensures Images(vs + us, parts + others)
  {
    hide EncodeValue;
  }

  /** Values one at a time. */
  lemma Primitives()
    ensures forall n: nat :: EncodeValue(W(n)) == U64(n)
    ensures forall b: byte :: EncodeValue(C(b)) == U8(b)
    ensures forall t: Text :: EncodeValue(T(t)) == Str(t)
  {
  }

  lemma DescriptorBytes(b: BufferDescriptor)
    ensures Images(DescriptorRow(b), DescriptorImage(b))
  {
    hide MaskByte, EncodeValue, U64, U8, MemoryRow, HolderRow, TermRow, Images;
    var parts := DescriptorImage(b);
    DescriptorParts(b, parts[..8], parts[8..13], parts[13..]);
    assert parts == parts[..8] + parts[8..13] + parts[13..];
    ImagesConcat(MemoryRow(b), parts[..8], HolderRow(b), parts[8..13]);
    ImagesConcat(MemoryRow(b) + HolderRow(b), parts[..8] + parts[8..13], TermRow(b), parts[13..]);
  }

  lemma DescriptorParts(b: BufferDescriptor, memory: seq<seq<byte>>, holder: seq<seq<byte>>, terms: seq<seq<byte>>)
    requires memory == [U64(b.id), U64(b.generation), U8(DomainCode(b.domain)), U64(b.address), U8(PointerCode(b.pointer)),
                        U64(b.byteLength), U64(b.alignment), U64(b.pageSize)]
    requires holder == [U64(b.owner), U64(b.process), U64(b.worker), U64(b.node), U64(b.device)]
    requires terms == [U8(DirectionCode(b.direction)), U8(MaskByte(b.requestedAccess)), U8(ModeCode(b.mode)),
                       U8(LifetimeCode(b.lifetime)), U8(ProvenanceCode(b.provenance)), U8(FreshnessCode(b.freshness)),
                       U64(b.policyGeneration)]
    ensures Images(MemoryRow(b), memory) && Images(HolderRow(b), holder) && Images(TermRow(b), terms)
  {
    hide EncodeValue, U64, U8, Str, MaskByte, DomainCode, PointerCode, DirectionCode, ModeCode, LifetimeCode, ProvenanceCode, FreshnessCode;
    Primitives();
  }

  lemma RemoteKeyBytes(k: RemoteKey)
    ensures Images(RemoteKeyRow(k), RemoteKeyImage(k))
  {
    hide EncodeValue, U64, U8, Str, MaskByte, TransportCode, ProvenanceCode;
    Primitives();
  }

  lemma LocalKeyBytes(k: LocalKey)
    ensures Images(LocalKeyRow(k), LocalKeyImage(k))
  {
    hide EncodeValue, U64, U8, Str, MaskByte, TransportCode, ProvenanceCode;
    Primitives();
  }

  lemma AccountingBytes(a: Accounting)
    ensures Images(AccountingRow(a), AccountingImage(a))
  {
    hide EncodeValue, U64, U8, Str;
    Primitives();
  }

  lemma AuthorityBytes(s: AuthoritySnapshot)
    ensures Images(AuthorityRow(s), AuthorityImage(s))
  {
    hide EncodeValue, U64, U8, Str, ProvenanceCode;
    Primitives();
  }

  lemma RegistrationHeadBytes(r: RegistrationRecord)
    ensures Images(RegistrationHeadRow(r), RegistrationHeadImage(r))
  {
    hide EncodeValue, U64, U8, Str, MaskByte, DomainCode, TransportCode, ProvenanceCode, FreshnessCode, LifecycleCode;
    Primitives();
  }

  lemma RegistrationBytes(r: RegistrationRecord)
    ensures Images(RegistrationRow(r), RegistrationImage(r))
  {
    hide Images, RegistrationHeadRow, RegistrationHeadImage, DescriptorRow, RemoteKeyRow, LocalKeyRow, DescriptorImage, RemoteKeyImage, LocalKeyImage;
    hide MaskByte, U64, U8, Str;
    var head := RegistrationHeadImage(r);
    RegistrationHeadBytes(r);
    DescriptorBytes(r.descriptor);
    RemoteKeyBytes(r.remoteKey);
    LocalKeyBytes(r.localKey);
    ImagesConcat(RegistrationHeadRow(r), head, DescriptorRow(r.descriptor), DescriptorImage(r.descriptor));
    ImagesConcat(RegistrationHeadRow(r) + DescriptorRow(r.descriptor), head + DescriptorImage(r.descriptor),
                 RemoteKeyRow(r.remoteKey), RemoteKeyImage(r.remoteKey));
    ImagesConcat(RegistrationHeadRow(r) + DescriptorRow(r.descriptor) + RemoteKeyRow(r.remoteKey),
                 head + DescriptorImage(r.descriptor) + RemoteKeyImage(r.remoteKey), LocalKeyRow(r.localKey), LocalKeyImage(r.localKey));
  }

  /** Rows that are images one by one. */
  ghost predicate AllImages(rows: seq<Row>, items: seq<seq<byte>>) {
    |rows| == |items| && forall i :: 0 <= i < |rows| ==> Encode(rows[i].values) == items[i]
  }

  lemma {:induction false} RowsJoined(rows: seq<Row>, items: seq<seq<byte>>)
    requires AllImages(rows, items)
    ensures EncodeRows(rows) == Joined(items)
  {
    hide Encode;
    if rows != [] {
      RowsJoined(rows[1..], items[1..]);
    }
  }

  lemma ListIsCounted(rows: seq<Row>, items: seq<seq<byte>>)
    requires AllImages(rows, items)
    ensures EncodeValue(L(rows)) == Counted(items)
  {
    hide Encode, LE;
    RowsJoined(rows, items);
  }

  lemma DomainListBytes(ds: seq<MemoryDomain>)
    ensures EncodeValue(L(DomainRows(ds))) == Counted(DomainBytes(ds))
  {
    forall i | 0 <= i < |ds| ensures Encode(DomainRows(ds)[i].values) == DomainBytes(ds)[i] {
      OneByte(DomainCode(ds[i]));
    }
    ListIsCounted(DomainRows(ds), DomainBytes(ds));
  }

  lemma OneByte(b: byte)
    ensures Encode([C(b)]) == [b]
  {
    assert [C(b)][1..] == [];
  }

  lemma BackendHeadBytes(b: BackendInfo)
    ensures Images(BackendHeadRow(b), BackendHeadImage(b))
  {
    hide EncodeValue, U64, U8, Str, ProvenanceCode, BackendStateCode, Counted, DomainBytes, DomainRows;
    Primitives();
    DomainListBytes(b.capabilities.supportedDomains);
  }

  lemma CapabilityBytes(c: Capabilities)
    ensures Images(CapabilityRow(c), CapabilityImage(c))
  {
    hide EncodeValue, U64, U8, Str, ProvenanceCode, CapabilityCode;
    Primitives();
  }

  lemma BackendBytes(b: BackendInfo)
    ensures Images(BackendInfoRow(b), BackendImage(b))
  {
    hide Images, BackendHeadRow, CapabilityRow, BackendHeadImage, CapabilityImage;
    BackendHeadBytes(b);
    CapabilityBytes(b.capabilities);
    ImagesConcat(BackendHeadRow(b), BackendHeadImage(b), CapabilityRow(b.capabilities), CapabilityImage(b.capabilities));
  }

  // ---- the blob --------------------------------------------------------------------------------------------

  /** The bytes of each item of a list. */
  function Items<A>(xs: seq<A>, image: A -> seq<seq<byte>>): (items: seq<seq<byte>>)
    ensures |items| == |xs|
  {
    seq(|xs|, i requires 0 <= i < |xs| => Joined(image(xs[i])))
  }

  /** The saved state, section by section: "1MDR", version 1, policy, authority, the seven lists and the counters. */
  function BodyImage(s: PersistableState): seq<seq<byte>> {
    [[0x31, 0x4D, 0x44, 0x52], [1, 0, 0, 0], U64(s.policyGeneration), Joined(AuthorityImage(s.authority)),
     Counted(Items(s.buffers, DescriptorImage)), Counted(Items(s.registrations, RegistrationImage)),
     Counted(Items(s.domains, WordImage)), Counted(Items(s.remoteKeys, RemoteKeyImage)),
     Counted(Items(s.localKeys, LocalKeyImage)), Counted(Items(s.revocations, TextImage)),
     Joined(AccountingImage(s.accounting)), Counted(Items(s.backends, BackendImage))]
  }

  lemma BuffersBytes(xs: seq<BufferDescriptor>)
    ensures EncodeValue(L(BufferRows(xs))) == Counted(Items(xs, DescriptorImage))
  {
    hide DescriptorRow, DescriptorImage, Images, EncodeValue;
    forall i | 0 <= i < |xs| ensures Encode(BufferRows(xs)[i].values) == Items(xs, DescriptorImage)[i] {
      DescriptorBytes(xs[i]);
      RowIsImage(DescriptorRow(xs[i]), DescriptorImage(xs[i]));
    }
    ListIsCounted(BufferRows(xs), Items(xs, DescriptorImage));
  }

  lemma RegistrationsBytes(xs: seq<RegistrationRecord>)
    ensures EncodeValue(L(RegistrationRows(xs))) == Counted(Items(xs, RegistrationImage))
  {
    hide RegistrationRow, RegistrationImage, Images, EncodeValue;
    forall i | 0 <= i < |xs| ensures Encode(RegistrationRows(xs)[i].values) == Items(xs, RegistrationImage)[i] {
      RegistrationBytes(xs[i]);
      RowIsImage(RegistrationRow(xs[i]), RegistrationImage(xs[i]));
    }
    ListIsCounted(RegistrationRows(xs), Items(xs, RegistrationImage));
  }

  lemma RemoteKeysBytes(xs: seq<RemoteKey>)
    ensures EncodeValue(L(RemoteKeyRows(xs))) == Counted(Items(xs, RemoteKeyImage))
  {
    hide RemoteKeyRow, RemoteKeyImage, Images, EncodeValue;
    forall i | 0 <= i < |xs| ensures Encode(RemoteKeyRows(xs)[i].values) == Items(xs, RemoteKeyImage)[i] {
      RemoteKeyBytes(xs[i]);
      RowIsImage(RemoteKeyRow(xs[i]), RemoteKeyImage(xs[i]));
    }
    ListIsCounted(RemoteKeyRows(xs), Items(xs, RemoteKeyImage));
  }

  lemma LocalKeysBytes(xs: seq<LocalKey>)
    ensures EncodeValue(L(LocalKeyRows(xs))) == Counted(Items(xs, LocalKeyImage))
  {
    hide LocalKeyRow, LocalKeyImage, Images, EncodeValue;
    forall i | 0 <= i < |xs| ensures Encode(LocalKeyRows(xs)[i].values) == Items(xs, LocalKeyImage)[i] {
      LocalKeyBytes(xs[i]);
      RowIsImage(LocalKeyRow(xs[i]), LocalKeyImage(xs[i]));
    }
    ListIsCounted(LocalKeyRows(xs), Items(xs, LocalKeyImage));
  }

  lemma BackendsBytes(xs: seq<BackendInfo>)
    ensures EncodeValue(L(BackendRows(xs))) == Counted(Items(xs, BackendImage))
  {
    hide BackendInfoRow, BackendImage, Images, EncodeValue;
    forall i | 0 <= i < |xs| ensures Encode(BackendRows(xs)[i].values) == Items(xs, BackendImage)[i] {
      BackendBytes(xs[i]);
      RowIsImage(BackendInfoRow(xs[i]), BackendImage(xs[i]));
    }
    ListIsCounted(BackendRows(xs), Items(xs, BackendImage));
  }

  function WordImage(n: nat): seq<seq<byte>> {
    [U64(n)]
  }

  function TextImage(t: Text): seq<seq<byte>> {
    [Str(t)]
  }

  lemma WordsBytes(ns: seq<nat>)
    ensures EncodeValue(L(WordRows(ns))) == Counted(Items(ns, WordImage))
  {
    hide LE;
    forall i | 0 <= i < |ns| ensures Encode(WordRows(ns)[i].values) == Items(ns, WordImage)[i] {
      RowIsImage([W(ns[i])], WordImage(ns[i]));
    }
    ListIsCounted(WordRows(ns), Items(ns, WordImage));
  }

  lemma TextsBytes(ts: seq<Text>)
    ensures EncodeValue(L(TextRows(ts))) == Counted(Items(ts, TextImage))
  {
    hide LE;
    forall i | 0 <= i < |ts| ensures Encode(TextRows(ts)[i].values) == Items(ts, TextImage)[i] {
      RowIsImage([T(ts[i])], TextImage(ts[i]));
    }
    ListIsCounted(TextRows(ts), Items(ts, TextImage));
  }

  lemma MagicBytes()
    ensures LE(FORMAT_MAGIC, 4) == [0x31, 0x4D, 0x44, 0x52] && LE(FORMAT_VERSION, 4) == [1, 0, 0, 0]
  {
  }

  lemma HeadBytes(s: PersistableState)
    ensures Encode(HeadRow(s)) == U64(s.policyGeneration) + Joined(AuthorityImage(s.authority))
  {
    hide AuthorityRow, AuthorityImage, Images, LE;
    AuthorityBytes(s.authority);
    RowIsImage(AuthorityRow(s.authority), AuthorityImage(s.authority));
    assert HeadRow(s)[1..] == AuthorityRow(s.authority);
  }

  lemma {:induction false} JoinedTwo(xs: seq<seq<byte>>, ys: seq<seq<byte>>)
    ensures Joined(xs + ys) == Joined(xs) + Joined(ys)
  {
    if xs == [] {
      assert xs + ys == ys;
    } else {
      assert (xs + ys)[1..] == xs[1..] + ys;
      JoinedTwo(xs[1..], ys);
    }
  }

  /** What is saved is this, and the checksum of it in four bytes. */
  lemma BlobIsImage(s: PersistableState)
    ensures Blob(s) == Joined(BodyImage(s)) + LE(Crc32.Code(Joined(BodyImage(s))), 4)
  {
    hide EncodeValue, Encode, LE, Items, Counted, Crc32.Code, AuthorityImage, AccountingImage, Images;
    MagicBytes();
    HeadBytes(s);
    BuffersBytes(s.buffers);
    RegistrationsBytes(s.registrations);
    WordsBytes(s.domains);
    RemoteKeysBytes(s.remoteKeys);
    LocalKeysBytes(s.localKeys);
    TextsBytes(s.revocations);
    AccountingBytes(s.accounting);
    RowIsImage(AccountingRow(s.accounting), AccountingImage(s.accounting));
    BackendsBytes(s.backends);
    BodyJoined(s);
  }

  lemma BodyJoined(s: PersistableState)
    requires LE(FORMAT_MAGIC, 4) == [0x31, 0x4D, 0x44, 0x52] && LE(FORMAT_VERSION, 4) == [1, 0, 0, 0]
    requires Encode(HeadRow(s)) == U64(s.policyGeneration) + Joined(AuthorityImage(s.authority))
    requires EncodeValue(L(BufferRows(s.buffers))) == Counted(Items(s.buffers, DescriptorImage))
    requires EncodeValue(L(RegistrationRows(s.registrations))) == Counted(Items(s.registrations, RegistrationImage))
    requires EncodeValue(L(WordRows(s.domains))) == Counted(Items(s.domains, WordImage))
    requires EncodeValue(L(RemoteKeyRows(s.remoteKeys))) == Counted(Items(s.remoteKeys, RemoteKeyImage))
    requires EncodeValue(L(LocalKeyRows(s.localKeys))) == Counted(Items(s.localKeys, LocalKeyImage))
    requires EncodeValue(L(TextRows(s.revocations))) == Counted(Items(s.revocations, TextImage))
    requires Encode(AccountingRow(s.accounting)) == Joined(AccountingImage(s.accounting))
    requires EncodeValue(L(BackendRows(s.backends))) == Counted(Items(s.backends, BackendImage))
    ensures Body(s) == Joined(BodyImage(s))
  {
    hide EncodeValue, Encode, LE, Items, Counted, AuthorityImage, AccountingImage, U64;
    var parts := BodyImage(s);
    Unjoined12(parts);
  }

  lemma Unjoined12(p: seq<seq<byte>>)
    requires |p| == 12
    ensures Joined(p) == p[0] + p[1] + (p[2] + p[3] + (p[4] + (p[5] + (p[6] + (p[7] + (p[8] + (p[9] + (p[10] + p[11]))))))))
  {
    hide Joined;
    forall i | 0 <= i < 12 ensures Joined(p[i..]) == p[i] + Joined(p[i + 1..]) {
      OneOff(p[i..]);
      assert p[i..][1..] == p[i + 1..];
    }
    NoneLeft(p[12..]);
    assert p[0..] == p;
  }

  lemma OneOff(p: seq<seq<byte>>)
    requires p != []
    ensures Joined(p) == p[0] + Joined(p[1..])
  {
  }

  lemma NoneLeft(p: seq<seq<byte>>)
    requires p == []
    ensures Joined(p) == []
  {
  }

  // ---- the REGISTER payload ----------------------------------------------------------------------------------

  /** Domain, backend and descriptor, each as it is saved. */
  lemma RegisterIsImage(d: BufferDescriptor, domain: nat, backend: nat)
    ensures WireCodec.RegisterPayload(d, domain, backend) == Joined([U64(domain), U64(backend)] + DescriptorImage(d))
  {
    hide DescriptorRow, DescriptorImage, Images, Encode, LE;
    DescriptorBytes(d);
    RowIsImage(DescriptorRow(d), DescriptorImage(d));
    JoinedTwo([U64(domain), U64(backend)], DescriptorImage(d));
    assert [U64(domain), U64(backend)][1..] == [U64(backend)] && [U64(backend)][1..] == [];
  }
}
