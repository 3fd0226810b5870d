/**
 * The synthetic backend of src/synthetic_backend.cpp on values: its table of live
 * handles, the reverse table from regions, its generations, and what each call does.
 */
module BackendModel {
  import opened Records
  import opened Words
  import opened Checks

  const SYNTHETIC_ID: nat := 0x5359_4E54

  datatype Profile = Profile(
    hostPinned: bool,
    pageable: bool,
    shared: bool,
    fileBacked: bool,
    cudaDevice: bool,
    cudaManaged: bool,
    syntheticDomain: bool,
    remoteRead: bool,
    remoteWrite: bool,
    atomic: bool,
    oneSided: bool,
    requiredAlignment: nat)

  const DEFAULT_PROFILE: Profile :=
    Profile(true, true, true, true, false, false, true, true, true, false, true, 4096)

  /** What a successful registration hands back to the runtime. */
  datatype Grant = Grant(
    region: nat,
    handle: Text,
    base: nat,
    length: nat,
    access: Mask,
    remoteKeyId: nat,
    localKeyId: nat,
    keyGeneration: nat,
    opaqueValue: nat)

  datatype Entry = Entry(grant: Grant, keyGeneration: nat, revoked: bool, revalidate: bool)

  datatype Backend = Backend(
    generation: nat,
    transportGeneration: nat,
    nicGeneration: nat,
    seed: nat,
    nextNumber: nat,
    profile: Profile,
    entries: map<Text, Entry>,
    regionHandle: map<nat, Text>)

  function Fresh(seed: nat): Backend {
    Backend(1, 1, 1, seed, 1, DEFAULT_PROFILE, map[], map[])
  }

  // ---- capabilities --------------------------------------------------------------------

  function Claimed(supported: bool): CapabilityState {
    if supported then SUPPORTED else NOT_SUPPORTED
  }

  function Listed(supported: bool, d: MemoryDomain): seq<MemoryDomain> {
    if supported then [d] else []
  }

  function CapabilitiesOf(p: Profile): Capabilities {
    Capabilities(
      Listed(p.syntheticDomain, SYNTHETIC_REMOTE_CAPABLE) + Listed(p.hostPinned, HOST_PINNED)
      + Listed(p.pageable, HOST_PAGEABLE) + Listed(p.shared, SHARED_MEMORY) + Listed(p.fileBacked, FILE_BACKED)
      + Listed(p.cudaDevice, CUDA_DEVICE) + Listed(p.cudaManaged, CUDA_MANAGED),
      0, p.requiredAlignment, Claimed(p.remoteRead), Claimed(p.remoteWrite), Claimed(p.atomic),
      Claimed(p.hostPinned), Claimed(p.pageable), Claimed(p.cudaDevice), Claimed(p.cudaManaged),
      UNKNOWN_CAPABILITY, Claimed(p.oneSided), SUPPORTED, SUPPORTED, SUPPORTED, SUPPORTED, SYNTHETIC)
  }

  predicate DomainSupported(p: Profile, d: MemoryDomain) {
    d in CapabilitiesOf(p).supportedDomains
  }

  predicate Supports(p: Profile, kind: OperationKind) {
    match kind
    case READ => p.remoteRead
    case WRITE => p.remoteWrite
    case ATOMIC_COMPARE_SWAP => p.atomic
  }

  datatype CannotRegister =
    | DOMAIN_UNSUPPORTED
    | BAD_RANGE(range: RangeError)
    | ALIGNMENT_INCOMPATIBLE
    | REMOTE_READ_UNSUPPORTED
    | REMOTE_WRITE_UNSUPPORTED
    | REMOTE_ATOMIC_UNSUPPORTED
    | CUDA_DEVICE_UNSUPPORTED

  function CanRegister(p: Profile, d: BufferDescriptor): (r: Option<CannotRegister>)
    requires Sized(d)
    ensures r.None? ==> ValidateRange(d).None? && DomainSupported(p, d.domain)
    ensures r.None? ==> forall kind: OperationKind :: Has(d.requestedAccess, RightFor(kind)) ==> Supports(p, kind)
  {
    if !DomainSupported(p, d.domain) then Some(DOMAIN_UNSUPPORTED)
    else if ValidateRange(d).Some? then Some(BAD_RANGE(ValidateRange(d).value))
    else if && p.requiredAlignment != 0 && d.alignment != 0
            && (d.alignment % p.requiredAlignment != 0 || p.requiredAlignment % d.alignment != 0)
    then Some(ALIGNMENT_INCOMPATIBLE)
    else
      var wantsRead := Has(d.requestedAccess, REMOTE_READ);
      var wantsWrite := Has(d.requestedAccess, REMOTE_WRITE);
      var wantsAtomic := Has(d.requestedAccess, REMOTE_ATOMIC);
      if wantsRead && !p.remoteRead then Some(REMOTE_READ_UNSUPPORTED)
      else if wantsWrite && !p.remoteWrite then Some(REMOTE_WRITE_UNSUPPORTED)
      else if wantsAtomic && !p.atomic then Some(REMOTE_ATOMIC_UNSUPPORTED)
      else if (wantsRead || wantsWrite || wantsAtomic) && d.domain.CUDA_DEVICE? && !p.cudaDevice
      then Some(CUDA_DEVICE_UNSUPPORTED)
      else None
  }

  // ---- registrations ---------------------------------------------------------------------

  function GrantFor(b: Backend, d: BufferDescriptor): Grant {
    var region := Region(b.seed, b.nextNumber);
    Grant(region, HandleOf(region), d.address, d.byteLength, d.requestedAccess,
          RemoteKeyId(region), LocalKeyId(region), 1, Xor64(region, OPAQUE_MASK))
  }

  function RegisterBuffer(b: Backend, d: BufferDescriptor): Result<(Backend, Grant), CannotRegister>
    requires Sized(d)
  {
    match CanRegister(b.profile, d)
    case Some(reason) => Err(reason)
    case None =>
      var g := GrantFor(b, d);
      Ok((b.(nextNumber := b.nextNumber + 1,
             entries := b.entries[g.handle := Entry(g, 1, false, false)],
             regionHandle := b.regionHandle[g.region := g.handle]), g))
  }

  /** Both deregister_buffer and abort_registration: the handle's entry and its region go. */
  function Release(b: Backend, handle: Text): Option<Backend> {
    if handle !in b.entries then None else
      var region := b.entries[handle].grant.region;
      Some(b.(entries := b.entries - {handle}, regionHandle := b.regionHandle - {region}))
  }

  function RotateKey(b: Backend, handle: Text, generation: nat): Backend {
    if handle !in b.entries then b else
      var e := b.entries[handle];
      b.(entries := b.entries[handle := e.(keyGeneration := generation, grant := e.grant.(keyGeneration := generation), revalidate := false)])
  }

  function Revalidate(b: Backend, handle: Text): Backend {
    if handle !in b.entries then b else
      b.(entries := b.entries[handle := b.entries[handle].(revalidate := false)])
  }

  function QueryRemoteAccess(b: Backend, handle: Text, keyGeneration: nat, kind: OperationKind, offset: nat, length: nat):
    AccessOutcome
  {
    if handle !in b.entries then REJECT_NOT_REGISTERED else
      var e := b.entries[handle];
      if e.revalidate then REJECT_STALE_REGISTRATION
      else if e.revoked then REJECT_REVOKED
      else if keyGeneration != e.keyGeneration then REJECT_STALE_KEY
      else if offset > e.grant.length || length > e.grant.length - offset then REJECT_RANGE
      else if !Supports(b.profile, kind) then REJECT_UNKNOWN_CAPABILITY
      else if !Has(e.grant.access, RightFor(kind)) then REJECT_PERMISSION
      else ALLOW
  }

  // ---- incarnations --------------------------------------------------------------------------

  function RolloverBackend(b: Backend): Backend {
    b.(generation := b.generation + 1)
  }

  /** Every live key is invalidated: its generation moves on and it awaits revalidation. */
  function RolloverTransport(b: Backend): Backend {
    b.(transportGeneration := b.transportGeneration + 1,
       entries := map h | h in b.entries ::
                    b.entries[h].(revalidate := true, keyGeneration := b.entries[h].keyGeneration + 1))
  }

  function RolloverNic(b: Backend): Backend {
    b.(nicGeneration := b.nicGeneration + 1)
  }

  function Restart(b: Backend): Backend {
    b.(entries := map[], regionHandle := map[], generation := b.generation + 1,
       transportGeneration := b.transportGeneration + 1, nicGeneration := b.nicGeneration + 1)
  }

  // ---- what every call keeps --------------------------------------------------------------------

  /** `handle` was given out by an earlier registration of `b`. */
  ghost predicate Issued(b: Backend, handle: Text) {
    exists n :: 0 < n < b.nextNumber && handle == HandleAt(b.seed, n)
  }

  /** The handle table and the region table are exact inverses, and hold only issued handles. */
  ghost predicate Inverse(b: Backend) {
    && 0 < b.nextNumber
    && (forall h :: h in b.entries ==>
          && Issued(b, h) && h == b.entries[h].grant.handle == HandleOf(b.entries[h].grant.region)
          && b.entries[h].grant.region in b.regionHandle && b.regionHandle[b.entries[h].grant.region] == h)
    && (forall r :: r in b.regionHandle ==>
          b.regionHandle[r] in b.entries && b.entries[b.regionHandle[r]].grant.region == r)
  }

  datatype Call =
    | DoRegister(d: BufferDescriptor)
    | DoRelease(handle: Text)
    | DoRotate(handle: Text, generation: nat)
    | DoRevalidate(handle: Text)
    | DoConfigure(profile: Profile)
    | DoRolloverBackend
    | DoRolloverTransport
    | DoRolloverNic
    | DoRestart

  predicate Admissible(c: Call) {
    c.DoRegister? ==> Sized(c.d)
  }

  function Apply(b: Backend, c: Call): Backend
    requires Admissible(c)
  {
    match c
    case DoRegister(d) => (match RegisterBuffer(b, d) case Ok((b', _)) => b' case Err(_) => b)
    case DoRelease(handle) => (match Release(b, handle) case Some(b') => b' case None => b)
    case DoRotate(handle, generation) => RotateKey(b, handle, generation)
    case DoRevalidate(handle) => Revalidate(b, handle)
    case DoConfigure(profile) => b.(profile := profile)
    case DoRolloverBackend => RolloverBackend(b)
    case DoRolloverTransport => RolloverTransport(b)
    case DoRolloverNic => RolloverNic(b)
    case DoRestart => Restart(b)
  }

  /** Whatever was issued stays issued: the sequence number survives restarts. */
  lemma IssuedStays(b: Backend, c: Call, handle: Text)
    requires Admissible(c) && Issued(b, handle)
    ensures Issued(Apply(b, c), handle)
  {
    hide HandleAt, CanRegister;
    var n :| 0 < n < b.nextNumber && handle == HandleAt(b.seed, n);
    assert n < Apply(b, c).nextNumber && Apply(b, c).seed == b.seed;
  }

  /** A new registration gets a handle that no earlier one ever had. */
  lemma HandleIsNew(b: Backend, d: BufferDescriptor)
    requires Sized(d) && 0 < b.nextNumber < SEQUENCE_LIMIT && RegisterBuffer(b, d).Ok?
    ensures var (b', g) := RegisterBuffer(b, d).value;
            !Issued(b, g.handle) && Issued(b', g.handle) && g.handle == HandleAt(b.seed, b.nextNumber)
  {
    hide Region, HandleOf, CanRegister, Xor64;
    var (b', g) := RegisterBuffer(b, d).value;
    assert g.handle == HandleAt(b.seed, b.nextNumber);
    assert 0 < b.nextNumber < b'.nextNumber && b'.seed == b.seed;
    forall n | 0 < n < b.nextNumber ensures g.handle != HandleAt(b.seed, n) {
      HandleAtInjective(b.seed, n, b.nextNumber);
    }
  }

  /** The two tables stay inverse through every call, for the first 2^57 registrations. */
  lemma InverseKept(b: Backend, c: Call)
    requires Inverse(b) && Admissible(c) && Apply(b, c).nextNumber <= SEQUENCE_LIMIT
    ensures Inverse(Apply(b, c))
  {
    hide Region, HandleAt, HandleOf, CanRegister, Xor64, Supports, Issued, RegisterBuffer, Release;
    forall h | h in b.entries ensures Issued(Apply(b, c), h) {
      IssuedStays(b, c, h);
    }
    if c.DoRegister? {
      if RegisterBuffer(b, c.d).Ok? {
        RegisterCounts(b, c.d);
        InverseExtended(b, c.d);
      }
    } else if c.DoRelease? {
      if Release(b, c.handle).Some? {
        InverseReduced(b, c.handle);
      }
    }
  }

  /** A release takes one entry from each table. */
  lemma InverseReduced(b: Backend, handle: Text)
    requires Inverse(b) && Release(b, handle).Some?
    ensures Inverse(Release(b, handle).value)
  {
    hide HandleAt, HandleOf, Issued;
    var b' := Release(b, handle).value;
    forall h | h in b'.entries ensures Issued(b', h) {
      IssuedStays(b, DoRelease(handle), h);
    }
  }

  lemma RegisterCounts(b: Backend, d: BufferDescriptor)
    requires Sized(d) && RegisterBuffer(b, d).Ok?
    ensures RegisterBuffer(b, d).value.0.nextNumber == b.nextNumber + 1
  {
    hide CanRegister, GrantFor;
  }

  /** A registration adds one entry to each table, under a handle and a region neither held. */
  lemma InverseExtended(b: Backend, d: BufferDescriptor)
    requires Inverse(b) && Sized(d) && b.nextNumber < SEQUENCE_LIMIT && RegisterBuffer(b, d).Ok?
    ensures Inverse(RegisterBuffer(b, d).value.0)
  {
    hide Region, HandleAt, HandleOf, CanRegister, Xor64, Issued;
    var (b', g) := RegisterBuffer(b, d).value;
    HandleIsNew(b, d);
    forall h | h in b.entries ensures Issued(b', h) {
      IssuedStays(b, DoRegister(d), h);
    }
    assert g.handle !in b.entries;
    assert g.region !in b.regionHandle;
  }

  /** Any number of calls. */
  function ApplyAll(b: Backend, cs: seq<Call>): Backend
    requires forall c :: c in cs ==> Admissible(c)
    decreases |cs|
  {
    if cs == [] then b else ApplyAll(Apply(b, cs[0]), cs[1..])
  }

  lemma {:induction false} NumberGrows(b: Backend, cs: seq<Call>)
    requires forall c :: c in cs ==> Admissible(c)
    ensures b.nextNumber <= ApplyAll(b, cs).nextNumber && ApplyAll(b, cs).seed == b.seed
    decreases |cs|
  {
    hide Apply;
    if cs != [] {
      NumberStep(b, cs[0]);
      NumberGrows(Apply(b, cs[0]), cs[1..]);
    }
  }

  /** From a new backend on, whatever calls are made. */
  lemma {:induction false} AlwaysInverse(b: Backend, cs: seq<Call>)
    requires Inverse(b) && (forall c :: c in cs ==> Admissible(c))
    requires ApplyAll(b, cs).nextNumber <= SEQUENCE_LIMIT
    ensures Inverse(ApplyAll(b, cs))
    decreases |cs|
  {
    hide Inverse, Apply;
    if cs != [] {
      var b' := Apply(b, cs[0]);
      NumberGrows(b', cs[1..]);
      NumberStep(b, cs[0]);
      InverseKept(b, cs[0]);
      AlwaysInverse(b', cs[1..]);
    }
  }

  lemma NumberStep(b: Backend, c: Call)
    requires Admissible(c)
    ensures b.nextNumber <= Apply(b, c).nextNumber && Apply(b, c).seed == b.seed
    ensures Apply(b, c).nextNumber == b.nextNumber || (c.DoRegister? && RegisterBuffer(b, c.d).Ok?)
  {
    hide Region, HandleOf, CanRegister;
  }

  lemma FreshInverse(seed: nat)
    ensures Inverse(Fresh(seed))
  {
  }

  /** A handle once given out is never given out again, restarts or not. */
  lemma NeverReissued(b: Backend, d: BufferDescriptor, cs: seq<Call>, d': BufferDescriptor)
    requires Sized(d) && Sized(d') && 0 < b.nextNumber && RegisterBuffer(b, d).Ok?
    requires forall c :: c in cs ==> Admissible(c)
    requires var later := ApplyAll(RegisterBuffer(b, d).value.0, cs);
             later.nextNumber < SEQUENCE_LIMIT && RegisterBuffer(later, d').Ok?
    ensures var g := RegisterBuffer(b, d).value.1;
            var g' := RegisterBuffer(ApplyAll(RegisterBuffer(b, d).value.0, cs), d').value.1;
            g.handle != g'.handle && g.region != g'.region && g.remoteKeyId != g'.remoteKeyId && g.localKeyId != g'.localKeyId
  {
    hide Region, HandleOf, CanRegister, RemoteKeyId, LocalKeyId, Xor64;
    var (b', g) := RegisterBuffer(b, d).value;
    var later := ApplyAll(b', cs);
    var g' := RegisterBuffer(later, d').value.1;
    NumberGrows(b', cs);
    assert b.nextNumber < later.nextNumber;
    RegionInjective(b.seed, b.nextNumber, later.nextNumber);
    HandleInjective(g.region, g'.region);
    KeyIdsInjective(g.region, g'.region);
  }
}
