/**
 * The format of each persisted record: its layout, the row of values a record
 * is written as, and the record a row stands for.
 */
module RecordFormats {
  import opened Bytes
  import opened Records
  import opened Layouts

  const MAX_COUNT: nat := 0x10_0000

  function Num(v: Value): nat {
    if v.W? then v.n else 0
  }

  function Byt(v: Value): byte {
    if v.C? then v.b else 0
  }

  function Txt(v: Value): Text {
    if v.T? then v.s else []
  }

  function Lst(v: Value): seq<Row> {
    if v.L? then v.rows else []
  }

  function Flag(b: bool): byte {
    if b then 1 else 0
  }

  // ---- BufferDescriptor -----------------------------------------------------

  // A descriptor is written in three groups: the memory, its holder, the terms of use.

  const MemoryFields: Layout := [Word64, Word64, Code(7), Word64, Code(5), Word64, Word64, Word64]
  const HolderFields: Layout := [Word64, Word64, Word64, Word64, Word64]
  const TermFields: Layout := [Code(3), Code(255), Code(2), Code(2), Code(2), Code(3), Word64]
  const DescriptorLayout: Layout := MemoryFields + HolderFields + TermFields

  function MemoryRow(b: BufferDescriptor): (vs: seq<Value>)
    ensures |vs| == 8
  {
    [W(b.id), W(b.generation), C(DomainCode(b.domain)), W(b.address), C(PointerCode(b.pointer)),
     W(b.byteLength), W(b.alignment), W(b.pageSize)]
  }

  function HolderRow(b: BufferDescriptor): (vs: seq<Value>)
    ensures |vs| == 5
  {
    [W(b.owner), W(b.process), W(b.worker), W(b.node), W(b.device)]
  }

  function TermRow(b: BufferDescriptor): (vs: seq<Value>)
    ensures |vs| == 7
  {
    [C(DirectionCode(b.direction)), C(MaskByte(b.requestedAccess)), C(ModeCode(b.mode)),
     C(LifetimeCode(b.lifetime)), C(ProvenanceCode(b.provenance)), C(FreshnessCode(b.freshness)),
     W(b.policyGeneration)]
  }

  function DescriptorRow(b: BufferDescriptor): (vs: seq<Value>)
    ensures |vs| == 20
  {
    MemoryRow(b) + HolderRow(b) + TermRow(b)
  }

  function DescriptorOf(vs: seq<Value>): BufferDescriptor
    requires |vs| == 20
  {
    var (m, h, t) := (vs[..8], vs[8..13], vs[13..]);
    BufferDescriptor(
      Num(m[0]), Num(m[1]), DomainOf(Byt(m[2])), Num(m[3]), PointerOf(Byt(m[4])), Num(m[5]), Num(m[6]), Num(m[7]),
      Num(h[0]), Num(h[1]), Num(h[2]), Num(h[3]), Num(h[4]),
      DirectionOf(Byt(t[0])), MaskOf(Byt(t[1])), ModeOf(Byt(t[2])), LifetimeOf(Byt(t[3])),
      ProvenanceOf(Byt(t[4])), FreshnessOf(Byt(t[5])), Num(t[6]))
  }

  // ---- RemoteKey, LocalKey ----------------------------------------------------

  const RemoteKeyLayout: Layout := [
    Word64, Word64, Word64, Word64, Word64, Word64, Word64, Word64, Code(8), Code(255),
    Word64, Word64, Word64, Code(255), Code(2)]

  function RemoteKeyRow(k: RemoteKey): (vs: seq<Value>)
    ensures |vs| == 15
  {
    [W(k.id), W(k.registration), W(k.registrationGeneration), W(k.keyGeneration), W(k.bufferGeneration),
     W(k.boot), W(k.process), W(k.backend), C(TransportCode(k.transport)), C(MaskByte(k.access)),
     W(k.start), W(k.length), W(k.opaqueValue), C(Flag(k.revoked)), C(ProvenanceCode(k.provenance))]
  }

  function RemoteKeyOf(vs: seq<Value>): RemoteKey
    requires |vs| == 15
  {
    RemoteKey(
      Num(vs[0]), Num(vs[1]), Num(vs[2]), Num(vs[3]), Num(vs[4]), Num(vs[5]), Num(vs[6]), Num(vs[7]),
      TransportOf(Byt(vs[8])), MaskOf(Byt(vs[9])), Num(vs[10]), Num(vs[11]), Num(vs[12]),
      Byt(vs[13]) != 0, ProvenanceOf(Byt(vs[14])))
  }

  const LocalKeyLayout: Layout := [
    Word64, Word64, Word64, Word64, Word64, Code(8), Code(255), Word64, Code(2)]

  function LocalKeyRow(k: LocalKey): (vs: seq<Value>)
    ensures |vs| == 9
  {
    [W(k.id), W(k.registration), W(k.registrationGeneration), W(k.boot), W(k.backend),
     C(TransportCode(k.transport)), C(MaskByte(k.access)), W(k.opaqueValue), C(ProvenanceCode(k.provenance))]
  }

  function LocalKeyOf(vs: seq<Value>): LocalKey
    requires |vs| == 9
  {
    LocalKey(
      Num(vs[0]), Num(vs[1]), Num(vs[2]), Num(vs[3]), Num(vs[4]), TransportOf(Byt(vs[5])), MaskOf(Byt(vs[6])),
      Num(vs[7]), ProvenanceOf(Byt(vs[8])))
  }

  // ---- RegistrationRecord -----------------------------------------------------

  const RegistrationHead: Layout := [
    Word64, Word64, Word64, Word64, Word64, Word64, Word64, Word64, Code(7), Code(8), Code(255),
    Word64, Word64, Word64, Word64, Word64, Word64, Word64, Word64, Word64, Word64, Word64,
    Code(2), Code(3), Code(10), Word64, Word64, Word64, Str(MAX_COUNT), Str(MAX_COUNT)]

  const RegistrationLayout: Layout :=
    RegistrationHead + DescriptorLayout + RemoteKeyLayout + LocalKeyLayout

  function RegistrationHeadRow(r: RegistrationRecord): (vs: seq<Value>)
    ensures |vs| == 30
  {
    [W(r.id), W(r.bufferId), W(r.bufferGeneration), W(r.registrationGeneration), W(r.backend),
     W(r.backendGeneration), W(r.transport), W(r.nic), C(DomainCode(r.domain)), C(TransportCode(r.transportClass)),
     C(MaskByte(r.grantedAccess)), W(r.start), W(r.length), W(r.pageAlignment), W(r.owner), W(r.process),
     W(r.worker), W(r.boot), W(r.epoch), W(r.device), W(r.domainId), W(r.timestamp),
     C(ProvenanceCode(r.provenance)), C(FreshnessCode(r.freshness)), C(LifecycleCode(r.lifecycle)),
     W(r.leaseCount), W(r.refCount), W(r.regionId), T(r.handle), T(r.reason)]
  }

  function RegistrationRow(r: RegistrationRecord): (vs: seq<Value>)
    ensures |vs| == 74
  {
    RegistrationHeadRow(r) + DescriptorRow(r.descriptor) + RemoteKeyRow(r.remoteKey) + LocalKeyRow(r.localKey)
  }

  function RegistrationOf(vs: seq<Value>): RegistrationRecord
    requires |vs| == 74
  {
    var h := vs[..30];
    RegistrationRecord(
      Num(h[0]), Num(h[1]), Num(h[2]), Num(h[3]), Num(h[4]), Num(h[5]), Num(h[6]), Num(h[7]),
      DomainOf(Byt(h[8])), TransportOf(Byt(h[9])), MaskOf(Byt(h[10])), Num(h[11]), Num(h[12]), Num(h[13]),
      Num(h[14]), Num(h[15]), Num(h[16]), Num(h[17]), Num(h[18]), Num(h[19]), Num(h[20]), Num(h[21]),
      ProvenanceOf(Byt(h[22])), FreshnessOf(Byt(h[23])), LifecycleOf(Byt(h[24])),
      Num(h[25]), Num(h[26]), Num(h[27]), Txt(h[28]), Txt(h[29]),
      DescriptorOf(vs[30..50]), RemoteKeyOf(vs[50..65]), LocalKeyOf(vs[65..74]), 0)
  }

  // ---- BackendInfo --------------------------------------------------------------

  const DomainList: Field := List(MAX_COUNT, [Code(7)])

  const BackendHead: Layout := [
    Word64, Str(256), Str(1024), Code(2), Code(3), Word64, Word64, Word64, DomainList, Word64, Word64]

  const CapabilityLayout: Layout := [
    Code(255), Code(255), Code(255), Code(255), Code(255), Code(255), Code(255), Code(255), Code(255),
    Code(255), Code(255), Code(255), Code(255), Code(255)]

  const BackendInfoLayout: Layout := BackendHead + CapabilityLayout

  function DomainRows(ds: seq<MemoryDomain>): (rows: seq<Row>)
    ensures |rows| == |ds|
  {
    seq(|ds|, i requires 0 <= i < |ds| => Row([C(DomainCode(ds[i]))]))
  }

  function DomainsOf(rows: seq<Row>): (ds: seq<MemoryDomain>)
    ensures |ds| == |rows|
  {
    seq(|rows|, i requires 0 <= i < |rows| => if rows[i].values == [] then UNKNOWN_DOMAIN else DomainOf(Byt(rows[i].values[0])))
  }

  function BackendHeadRow(b: BackendInfo): (vs: seq<Value>)
    ensures |vs| == 11
  {
    var c := b.capabilities;
    [W(b.id), T(b.name), T(b.description), C(ProvenanceCode(b.provenance)), C(BackendStateCode(b.state)),
     W(b.generation), W(b.protDomainCount), W(b.registrationCount), L(DomainRows(c.supportedDomains)),
     W(c.maxRegistrationLength), W(c.requiredAlignment)]
  }

  function CapabilityRow(c: Capabilities): (vs: seq<Value>)
    ensures |vs| == 14
  {
    [C(CapabilityCode(c.remoteRead)), C(CapabilityCode(c.remoteWrite)), C(CapabilityCode(c.remoteAtomic)),
     C(CapabilityCode(c.hostPinned)), C(CapabilityCode(c.pageable)), C(CapabilityCode(c.cudaDevice)),
     C(CapabilityCode(c.cudaManaged)), C(CapabilityCode(c.onDemandPaging)), C(CapabilityCode(c.oneSided)),
     C(CapabilityCode(c.multiprocess)), C(CapabilityCode(c.multinode)), C(CapabilityCode(c.keyRotation)),
     C(CapabilityCode(c.revocation)), C(ProvenanceCode(c.provenance))]
  }

  function BackendInfoRow(b: BackendInfo): (vs: seq<Value>)
    ensures |vs| == 25
  {
    BackendHeadRow(b) + CapabilityRow(b.capabilities)
  }

  function BackendInfoOf(vs: seq<Value>): BackendInfo
    requires |vs| == 25
  {
    var (h, c) := (vs[..11], vs[11..]);
    BackendInfo(
      Num(h[0]), Txt(h[1]), Txt(h[2]), ProvenanceOf(Byt(h[3])), BackendStateOf(Byt(h[4])),
      Num(h[5]), Num(h[6]), Num(h[7]),
      Capabilities(
        DomainsOf(Lst(h[8])), Num(h[9]), Num(h[10]),
        CapabilityOf(Byt(c[0])), CapabilityOf(Byt(c[1])), CapabilityOf(Byt(c[2])), CapabilityOf(Byt(c[3])),
        CapabilityOf(Byt(c[4])), CapabilityOf(Byt(c[5])), CapabilityOf(Byt(c[6])), CapabilityOf(Byt(c[7])),
        CapabilityOf(Byt(c[8])), CapabilityOf(Byt(c[9])), CapabilityOf(Byt(c[10])), CapabilityOf(Byt(c[11])),
        CapabilityOf(Byt(c[12])), ProvenanceOf(Byt(c[13]))))
  }

  // ---- Accounting, AuthoritySnapshot ----------------------------------------------

  const AccountingLayout: Layout := [
    Word64, Word64, Word64, Word64, Word64, Word64, Word64, Word64, Word64, Word64, Word64, Word64, Word64,
    Word64, Word64, Word64, Word64, Word64, Word64]

  function AccountingRow(a: Accounting): (vs: seq<Value>)
    ensures |vs| == 19
  {
    [W(a.logicalBuffers), W(a.liveBufferBytes), W(a.pinnedBytes), W(a.registeredBytes), W(a.activeRegistrations),
     W(a.activeLeases), W(a.protectionDomains), W(a.localKeys), W(a.remoteKeys), W(a.remoteReadBytes),
     W(a.remoteWriteBytes), W(a.atomicOperations), W(a.failedAccessAttempts), W(a.staleAccessRejections),
     W(a.revocations), W(a.deregistrations), W(a.reuseHits), W(a.reuseMisses), W(a.participantRestarts)]
  }

  function AccountingOf(vs: seq<Value>): Accounting
    requires |vs| == 19
  {
    Accounting(
      Num(vs[0]), Num(vs[1]), Num(vs[2]), Num(vs[3]), Num(vs[4]), Num(vs[5]), Num(vs[6]), Num(vs[7]), Num(vs[8]),
      Num(vs[9]), Num(vs[10]), Num(vs[11]), Num(vs[12]), Num(vs[13]), Num(vs[14]), Num(vs[15]), Num(vs[16]),
      Num(vs[17]), Num(vs[18]))
  }

  /** The trailing provenance byte is read and dropped by the decoder. */
  const AuthorityLayout: Layout := [
    Word64, Word64, Word64, Word64, Word64, Word64, Word64, Word64, Word64, Word64, Word64, Word64, Code(255)]

  function AuthorityRow(s: AuthoritySnapshot): (vs: seq<Value>)
    ensures |vs| == 13
  {
    [W(s.epoch), W(s.workerBoot), W(s.worker), W(s.owner), W(s.ownerGeneration), W(s.workerGeneration),
     W(s.policyGeneration), W(s.backendGeneration), W(s.transportGeneration), W(s.nicGeneration), W(s.node),
     W(s.process), C(ProvenanceCode(s.provenance))]
  }

  function AuthorityOf(vs: seq<Value>): AuthoritySnapshot
    requires |vs| == 13
  {
    AuthoritySnapshot(
      Num(vs[0]), Num(vs[1]), Num(vs[2]), Num(vs[3]), Num(vs[4]), Num(vs[5]), Num(vs[6]), Num(vs[7]), Num(vs[8]),
      Num(vs[9]), Num(vs[10]), Num(vs[11]), UNKNOWN_PROVENANCE)
  }

  // ---- rows and records correspond ------------------------------------------------

  lemma MaskRoundTrip(b: byte, m: Mask)
    ensures MaskByte(MaskOf(b)) == b
    ensures MaskOf(MaskByte(m)) == m
  {
    NumberOfOctet(b);
  }

  /** In-range bytes are the codes of the values they stand for. */
  lemma CodesExact(b: byte)
    ensures b <= 7 ==> DomainCode(DomainOf(b)) == b
    ensures b <= 5 ==> PointerCode(PointerOf(b)) == b
    ensures b <= 3 ==> DirectionCode(DirectionOf(b)) == b && FreshnessCode(FreshnessOf(b)) == b
    ensures b <= 2 ==> ModeCode(ModeOf(b)) == b && LifetimeCode(LifetimeOf(b)) == b
    ensures b <= 2 ==> ProvenanceCode(ProvenanceOf(b)) == b
  {
  }

  lemma DescriptorInverse(b: BufferDescriptor)
    ensures DescriptorOf(DescriptorRow(b)) == b
  {
    hide MaskByte, MaskOf;
    var vs := DescriptorRow(b);
    assert vs[..8] == MemoryRow(b) && vs[8..13] == HolderRow(b) && vs[13..] == TermRow(b);
    MaskRoundTrip(0, b.requestedAccess);
  }

  /** Every row the layout admits is the row of the descriptor it stands for. */
  lemma DescriptorRowExact(vs: seq<Value>)
    requires RepresentableRow(DescriptorLayout, vs)
    ensures DescriptorRow(DescriptorOf(vs)) == vs
  {
    hide RepresentableRow, MaskByte, MaskOf;
    hide DomainOf, DomainCode, PointerOf, PointerCode, DirectionOf, DirectionCode, ModeOf, ModeCode;
    hide LifetimeOf, LifetimeCode, ProvenanceOf, ProvenanceCode, FreshnessOf, FreshnessCode;
    Width(DescriptorLayout, vs);
    var (m, h, t) := (vs[..8], vs[8..13], vs[13..]);
    assert vs == m + h + t;
    RepresentableConcat(MemoryFields, HolderFields, m, h);
    RepresentableConcat(MemoryFields + HolderFields, TermFields, m + h, t);
    MemoryExact(vs);
    HolderExact(vs);
    TermsExact(vs);
  }

  lemma Width(fs: Layout, vs: seq<Value>)
    requires RepresentableRow(fs, vs)
    ensures |vs| == |fs|
  {
  }

  lemma MemoryExact(vs: seq<Value>)
    requires |vs| == 20 && RepresentableRow(MemoryFields, vs[..8])
    ensures MemoryRow(DescriptorOf(vs)) == vs[..8]
  {
    hide MaskByte, MaskOf, DomainOf, DomainCode, PointerOf, PointerCode;
    hide DirectionOf, ModeOf, LifetimeOf, ProvenanceOf, FreshnessOf;
    var m := vs[..8];
    forall i | 0 <= i < 8 ensures Representable(MemoryFields[i], m[i]) {
    }
    CodesExact(Byt(m[2]));
    CodesExact(Byt(m[4]));
  }

  lemma HolderExact(vs: seq<Value>)
    requires |vs| == 20 && RepresentableRow(HolderFields, vs[8..13])
    ensures HolderRow(DescriptorOf(vs)) == vs[8..13]
  {
    hide MaskOf, DomainOf, PointerOf, DirectionOf, ModeOf, LifetimeOf, ProvenanceOf, FreshnessOf;
    var h := vs[8..13];
    forall i | 0 <= i < 5 ensures Representable(HolderFields[i], h[i]) {
    }
  }

  lemma TermsExact(vs: seq<Value>)
    requires |vs| == 20 && RepresentableRow(TermFields, vs[13..])
    ensures TermRow(DescriptorOf(vs)) == vs[13..]
  {
    hide MaskByte, MaskOf, DomainOf, PointerOf, DirectionOf, DirectionCode, ModeOf, ModeCode;
    hide LifetimeOf, LifetimeCode, ProvenanceOf, ProvenanceCode, FreshnessOf, FreshnessCode;
    var t := vs[13..];
    forall i | 0 <= i < 7 ensures Representable(TermFields[i], t[i]) {
    }
    MaskRoundTrip(Byt(t[1]), 0);
    CodesExact(Byt(t[0]));
    CodesExact(Byt(t[2]));
    CodesExact(Byt(t[3]));
    CodesExact(Byt(t[4]));
    CodesExact(Byt(t[5]));
  }

  lemma RemoteKeyInverse(k: RemoteKey)
    ensures RemoteKeyOf(RemoteKeyRow(k)) == k
  {
    hide MaskByte, MaskOf;
    MaskRoundTrip(0, k.access);
  }

  lemma LocalKeyInverse(k: LocalKey)
    ensures LocalKeyOf(LocalKeyRow(k)) == k
  {
    hide MaskByte, MaskOf;
    MaskRoundTrip(0, k.access);
  }

  /** Every field of a registration is carried except the policy generation. */
  lemma RegistrationInverse(r: RegistrationRecord)
    ensures RegistrationOf(RegistrationRow(r)) == r.(policyGeneration := 0)
  {
    hide MaskByte, MaskOf, DescriptorRow, DescriptorOf, RemoteKeyRow, RemoteKeyOf, LocalKeyRow, LocalKeyOf;
    hide DomainOf, DomainCode, TransportOf, TransportCode, ProvenanceOf, ProvenanceCode, FreshnessOf, FreshnessCode;
    hide LifecycleOf, LifecycleCode;
    var vs := RegistrationRow(r);
    assert vs[..30] == RegistrationHeadRow(r);
    assert vs[30..50] == DescriptorRow(r.descriptor);
    assert vs[50..65] == RemoteKeyRow(r.remoteKey);
    assert vs[65..74] == LocalKeyRow(r.localKey);
    MaskRoundTrip(0, r.grantedAccess);
    DescriptorInverse(r.descriptor);
    RemoteKeyInverse(r.remoteKey);
    LocalKeyInverse(r.localKey);
  }

  lemma BackendInfoInverse(b: BackendInfo)
    ensures BackendInfoOf(BackendInfoRow(b)) == b
  {
    hide DomainsOf, DomainRows, CapabilityOf, CapabilityCode, ProvenanceOf, ProvenanceCode, BackendStateOf, BackendStateCode;
    var vs := BackendInfoRow(b);
    assert vs[..11] == BackendHeadRow(b) && vs[11..] == CapabilityRow(b.capabilities);
    DomainsInverse(b.capabilities.supportedDomains);
  }

  lemma DomainsInverse(ds: seq<MemoryDomain>)
    ensures DomainsOf(DomainRows(ds)) == ds
  {
  }

  lemma AccountingInverse(a: Accounting)
    ensures AccountingOf(AccountingRow(a)) == a
  {
  }

  /** The provenance of the authority snapshot is written but not read back. */
  lemma AuthorityInverse(s: AuthoritySnapshot)
    ensures AuthorityOf(AuthorityRow(s)) == s.(provenance := UNKNOWN_PROVENANCE)
  {
  }

  // ---- bounds, in the records' own terms ------------------------------------------

  predicate RegistrationBounded(r: RegistrationRecord) {
    |r.handle| <= MAX_COUNT && |r.reason| <= MAX_COUNT
  }

  predicate BackendInfoBounded(b: BackendInfo) {
    |b.name| <= 256 && |b.description| <= 1024 && |b.capabilities.supportedDomains| <= MAX_COUNT
  }

  lemma BoundedConcat(fs: Layout, gs: Layout, vs: seq<Value>, ws: seq<Value>)
    requires |fs| == |vs|
    ensures BoundedRow(fs + gs, vs + ws) <==> BoundedRow(fs, vs) && BoundedRow(gs, ws)
  {
    var all, row := fs + gs, vs + ws;
    assert forall i :: 0 <= i < |fs| ==> all[i] == fs[i] && row[i] == vs[i];
    assert forall i :: 0 <= i < |gs| && i < |ws| ==> all[|fs| + i] == gs[i] && row[|fs| + i] == ws[i];
  }

  lemma RegistrationBounds(r: RegistrationRecord)
    ensures BoundedRow(RegistrationLayout, RegistrationRow(r)) <==> RegistrationBounded(r)
  {
    var head, d, k, l := RegistrationHeadRow(r), DescriptorRow(r.descriptor), RemoteKeyRow(r.remoteKey), LocalKeyRow(r.localKey);
    hide RegistrationHeadRow, DescriptorRow, RemoteKeyRow, LocalKeyRow, BoundedRow;
    PlainBounds(DescriptorLayout, d);
    PlainBounds(RemoteKeyLayout, k);
    PlainBounds(LocalKeyLayout, l);
    HeadBounds(r);
    BoundedConcat(RegistrationHead, DescriptorLayout, head, d);
    BoundedConcat(RegistrationHead + DescriptorLayout, RemoteKeyLayout, head + d, k);
    BoundedConcat(RegistrationHead + DescriptorLayout + RemoteKeyLayout, LocalKeyLayout, head + d + k, l);
  }

  lemma HeadBounds(r: RegistrationRecord)
    ensures BoundedRow(RegistrationHead, RegistrationHeadRow(r)) <==> RegistrationBounded(r)
  {
    hide MaskByte, DomainCode, TransportCode, ProvenanceCode, FreshnessCode, LifecycleCode;
    var fs, vs := RegistrationHead, RegistrationHeadRow(r);
    assert Bounded(fs[28], vs[28]) <==> |r.handle| <= MAX_COUNT;
    assert Bounded(fs[29], vs[29]) <==> |r.reason| <= MAX_COUNT;
  }

  lemma BackendInfoBounds(b: BackendInfo)
    ensures BoundedRow(BackendInfoLayout, BackendInfoRow(b)) <==> BackendInfoBounded(b)
  {
    var head, caps := BackendHeadRow(b), CapabilityRow(b.capabilities);
    hide BoundedRow, BackendHeadRow, CapabilityRow;
    BackendHeadBounds(b);
    PlainBounds(CapabilityLayout, caps);
    BoundedConcat(BackendHead, CapabilityLayout, head, caps);
  }

  lemma BackendHeadBounds(b: BackendInfo)
    ensures BoundedRow(BackendHead, BackendHeadRow(b)) <==> BackendInfoBounded(b)
  {
    hide ProvenanceCode, BackendStateCode, DomainRows;
    var fs, vs := BackendHead, BackendHeadRow(b);
    DomainRowsBounded(b.capabilities.supportedDomains);
    assert Bounded(fs[1], vs[1]) <==> |b.name| <= 256;
    assert Bounded(fs[2], vs[2]) <==> |b.description| <= 1024;
    assert Bounded(fs[8], vs[8]) <==> |b.capabilities.supportedDomains| <= MAX_COUNT;
  }

  lemma DomainRowsBounded(ds: seq<MemoryDomain>)
    ensures BoundedRows([Code(7)], DomainRows(ds))
  {
  }

  /** Layouts with neither strings nor lists bound nothing. */
  lemma PlainBounds(fs: Layout, vs: seq<Value>)
    requires forall i :: 0 <= i < |fs| ==> fs[i].Code? || fs[i].Word64?
    ensures BoundedRow(fs, vs)
  {
  }

  // ---- what was read can be written again -------------------------------------------

  lemma RemoteKeyRenewed(vs: seq<Value>)
    requires RepresentableRow(RemoteKeyLayout, vs)
    ensures RepresentableRow(RemoteKeyLayout, RemoteKeyRow(RemoteKeyOf(vs)))
  {
    hide MaskByte, MaskOf, TransportOf, TransportCode, ProvenanceOf, ProvenanceCode;
    forall i | 0 <= i < 15 ensures Representable(RemoteKeyLayout[i], vs[i]) {
    }
  }

  lemma LocalKeyRenewed(vs: seq<Value>)
    requires RepresentableRow(LocalKeyLayout, vs)
    ensures RepresentableRow(LocalKeyLayout, LocalKeyRow(LocalKeyOf(vs)))
  {
    hide MaskByte, MaskOf, TransportOf, TransportCode, ProvenanceOf, ProvenanceCode;
    forall i | 0 <= i < 9 ensures Representable(LocalKeyLayout[i], vs[i]) {
    }
  }

  lemma RepresentableConcat(fs: Layout, gs: Layout, vs: seq<Value>, ws: seq<Value>)
    requires |fs| == |vs|
    ensures RepresentableRow(fs + gs, vs + ws) <==> RepresentableRow(fs, vs) && RepresentableRow(gs, ws)
  {
    var all, row := fs + gs, vs + ws;
    assert forall i :: 0 <= i < |fs| ==> all[i] == fs[i] && row[i] == vs[i];
    assert forall i :: 0 <= i < |gs| && i < |ws| ==> all[|fs| + i] == gs[i] && row[|fs| + i] == ws[i];
  }

  /** A registration row is representable exactly when its four parts are. */
  lemma RegistrationParts(head: seq<Value>, d: seq<Value>, k: seq<Value>, l: seq<Value>)
    requires |head| == 30 && |d| == 20 && |k| == 15 && |l| == 9
    ensures RepresentableRow(RegistrationLayout, head + d + k + l) <==>
      && RepresentableRow(RegistrationHead, head) && RepresentableRow(DescriptorLayout, d)
      && RepresentableRow(RemoteKeyLayout, k) && RepresentableRow(LocalKeyLayout, l)
  {
    hide RepresentableRow;
    RepresentableConcat(RegistrationHead, DescriptorLayout, head, d);
    RepresentableConcat(RegistrationHead + DescriptorLayout, RemoteKeyLayout, head + d, k);
    RepresentableConcat(RegistrationHead + DescriptorLayout + RemoteKeyLayout, LocalKeyLayout, head + d + k, l);
  }

  lemma HeadRenewed(vs: seq<Value>, r: RegistrationRecord)
    requires |vs| == 74 && RepresentableRow(RegistrationHead, vs[..30]) && BoundedRow(RegistrationHead, vs[..30])
    requires r == RegistrationOf(vs)
    ensures RepresentableRow(RegistrationHead, RegistrationHeadRow(r)) && RegistrationBounded(r)
  {
    hide MaskByte, MaskOf, DomainOf, DomainCode, TransportOf, TransportCode, ProvenanceOf, ProvenanceCode;
    hide FreshnessOf, FreshnessCode, LifecycleOf, LifecycleCode, DescriptorOf, RemoteKeyOf, LocalKeyOf;
    var h := vs[..30];
    forall i | 0 <= i < 30 ensures Representable(RegistrationHead[i], h[i]) && Bounded(RegistrationHead[i], h[i]) {
    }
  }

  lemma RegistrationRenewed(vs: seq<Value>)
    requires RepresentableRow(RegistrationLayout, vs) && BoundedRow(RegistrationLayout, vs)
    ensures RepresentableRow(RegistrationLayout, RegistrationRow(RegistrationOf(vs)))
    ensures RegistrationBounded(RegistrationOf(vs))
  {
    hide RepresentableRow, BoundedRow, RegistrationHeadRow, DescriptorRow, RemoteKeyRow, LocalKeyRow, RegistrationOf;
    hide DescriptorOf, RemoteKeyOf, LocalKeyOf;
    Width(RegistrationLayout, vs);
    var r := RegistrationOf(vs);
    var (h, d, k, l) := (vs[..30], vs[30..50], vs[50..65], vs[65..74]);
    RegistrationSlices(vs);
    RegistrationParts(h, d, k, l);
    BoundedConcat(RegistrationHead, DescriptorLayout + RemoteKeyLayout + LocalKeyLayout, h, d + k + l);
    HeadRenewed(vs, r);
    DescriptorRowExact(d);
    RemoteKeyRenewed(k);
    LocalKeyRenewed(l);
    RegistrationParts(RegistrationHeadRow(r), DescriptorRow(r.descriptor), RemoteKeyRow(r.remoteKey), LocalKeyRow(r.localKey));
  }

  lemma RegistrationSlices(vs: seq<Value>)
    requires |vs| == 74
    ensures vs == vs[..30] + vs[30..50] + vs[50..65] + vs[65..74]
    ensures vs == vs[..30] + (vs[30..50] + vs[50..65] + vs[65..74])
    ensures RegistrationLayout == RegistrationHead + (DescriptorLayout + RemoteKeyLayout + LocalKeyLayout)
    ensures RegistrationOf(vs).descriptor == DescriptorOf(vs[30..50])
    ensures RegistrationOf(vs).remoteKey == RemoteKeyOf(vs[50..65])
    ensures RegistrationOf(vs).localKey == LocalKeyOf(vs[65..74])
  {
    hide DescriptorOf, RemoteKeyOf, LocalKeyOf;
  }

  lemma BackendInfoRenewed(vs: seq<Value>)
    requires RepresentableRow(BackendInfoLayout, vs) && BoundedRow(BackendInfoLayout, vs)
    ensures RepresentableRow(BackendInfoLayout, BackendInfoRow(BackendInfoOf(vs)))
    ensures BackendInfoBounded(BackendInfoOf(vs))
  {
    hide RepresentableRow, BoundedRow, BackendHeadRow, CapabilityRow, BackendInfoOf;
    Width(BackendInfoLayout, vs);
    var b, h, c := BackendInfoOf(vs), vs[..11], vs[11..];
    assert vs == h + c;
    RepresentableConcat(BackendHead, CapabilityLayout, h, c);
    BoundedConcat(BackendHead, CapabilityLayout, h, c);
    BackendHeadRenewed(vs, b);
    CapabilitiesRepresentable(b.capabilities);
    RepresentableConcat(BackendHead, CapabilityLayout, BackendHeadRow(b), CapabilityRow(b.capabilities));
  }

  lemma BackendHeadRenewed(vs: seq<Value>, b: BackendInfo)
    requires |vs| == 25 && RepresentableRow(BackendHead, vs[..11]) && BoundedRow(BackendHead, vs[..11])
    requires b == BackendInfoOf(vs)
    ensures RepresentableRow(BackendHead, BackendHeadRow(b)) && BackendInfoBounded(b)
  {
    hide CapabilityOf, ProvenanceOf, ProvenanceCode, BackendStateOf, BackendStateCode, DomainRows, DomainsOf;
    hide RepresentableRows, BoundedRows;
    var h := vs[..11];
    forall i | 0 <= i < 11 ensures Representable(BackendHead[i], h[i]) && Bounded(BackendHead[i], h[i]) {
    }
    DomainRowsRepresentable(DomainsOf(Lst(h[8])));
  }

  lemma CapabilitiesRepresentable(c: Capabilities)
    ensures RepresentableRow(CapabilityLayout, CapabilityRow(c))
  {
    hide CapabilityCode, ProvenanceCode;
    var vs := CapabilityRow(c);
    assert forall i :: 0 <= i < 14 ==> CapabilityLayout[i] == Code(255);
    assert forall i :: 0 <= i < 14 ==> vs[i].C?;
  }

  lemma DomainRowsRepresentable(ds: seq<MemoryDomain>)
    ensures RepresentableRows([Code(7)], DomainRows(ds))
  {
  }

  lemma AccountingRenewed(vs: seq<Value>)
    requires RepresentableRow(AccountingLayout, vs)
    ensures RepresentableRow(AccountingLayout, AccountingRow(AccountingOf(vs)))
  {
    forall i | 0 <= i < 19 ensures Representable(AccountingLayout[i], vs[i]) {
    }
  }

  lemma AuthorityRenewed(vs: seq<Value>)
    requires RepresentableRow(AuthorityLayout, vs)
    ensures RepresentableRow(AuthorityLayout, AuthorityRow(AuthorityOf(vs)))
  {
    forall i | 0 <= i < 13 ensures Representable(AuthorityLayout[i], vs[i]) {
    }
  }
}
