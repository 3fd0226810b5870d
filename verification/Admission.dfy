/**
 * What registration, reuse and leasing admit, and what they say otherwise. The decisions are
 * given once more as tables of conditions on the descriptor, the caller and the tables of
 * the runtime; what is admitted is then described without any of the refusals.
 */
module Admission {
  import opened Bytes
  import opened Records
  import opened Checks
  import opened Words
  import opened BackendModel
  import opened Runtime
  import opened Worlds
  import opened Evolution
  import opened Safety
  import opened Tables
  import opened Decisions

  // ---- ranges -----------------------------------------------------------------------------------

  function RangeChecks(d: BufferDescriptor): seq<Check<RangeError>> {
    [Check(d.byteLength > 0, ZERO_LENGTH),
     Check(d.address != 0 || d.domain in {SYNTHETIC_REMOTE_CAPABLE, FILE_BACKED}, NULL_OR_INVALID_POINTER),
     Check(d.alignment > 0, ZERO_ALIGNMENT),
     Check(d.alignment > 0 && d.address % d.alignment == 0, MISALIGNED_BASE),
     Check(d.address + d.byteLength <= MAX64, OVERFLOW)]
  }

  lemma RangeTable(d: BufferDescriptor)
    requires Sized(d)
    ensures ValidateRange(d) == First(RangeChecks(d))
  {
    hide First;
    var cs := RangeChecks(d);
    if !cs[0].holds {
      FirstAt(cs, 0);
    } else if !cs[1].holds {
      FirstAt(cs, 1);
    } else if !cs[2].holds {
      FirstAt(cs, 2);
    } else if !cs[3].holds {
      FirstAt(cs, 3);
    } else if !cs[4].holds {
      FirstAt(cs, 4);
    } else {
      FirstNone(cs);
    }
  }

  /** A range is valid exactly when it is a nonempty aligned part of the 64-bit address space with a base. */
  predicate ValidRange(d: BufferDescriptor) {
    && 0 < d.byteLength && d.address + d.byteLength < WORD_LIMIT
    && 0 < d.alignment && d.address % d.alignment == 0
    && (d.address == 0 ==> d.domain == SYNTHETIC_REMOTE_CAPABLE || d.domain == FILE_BACKED)
  }

  lemma RangeExact(d: BufferDescriptor)
    requires Sized(d)
    ensures ValidateRange(d).None? <==> ValidRange(d)
  {
  }

  // ---- what the backend can register ---------------------------------------------------------------

  /** The domains a profile advertises. */
  predicate Advertised(p: Profile, domain: MemoryDomain) {
    match domain
    case HOST_PAGEABLE => p.pageable
    case HOST_PINNED => p.hostPinned
    case SHARED_MEMORY => p.shared
    case FILE_BACKED => p.fileBacked
    case CUDA_DEVICE => p.cudaDevice
    case CUDA_MANAGED => p.cudaManaged
    case SYNTHETIC_REMOTE_CAPABLE => p.syntheticDomain
    case _ => false
  }

  /** No alignment is required, or the buffer's is the one required. */
  predicate AlignmentFits(p: Profile, d: BufferDescriptor) {
    p.requiredAlignment == 0 || d.alignment == 0 || d.alignment == p.requiredAlignment
  }

  lemma AdvertisedExact(p: Profile, domain: MemoryDomain)
    ensures DomainSupported(p, domain) <==> Advertised(p, domain)
  {
    hide Listed;
    ListedIs(p.syntheticDomain, SYNTHETIC_REMOTE_CAPABLE, domain);
    ListedIs(p.hostPinned, HOST_PINNED, domain);
    ListedIs(p.pageable, HOST_PAGEABLE, domain);
    ListedIs(p.shared, SHARED_MEMORY, domain);
    ListedIs(p.fileBacked, FILE_BACKED, domain);
    ListedIs(p.cudaDevice, CUDA_DEVICE, domain);
    ListedIs(p.cudaManaged, CUDA_MANAGED, domain);
  }

  /** What the capability snapshot claims is what the profile has; nothing of it is unknown but on-demand paging. */
  lemma CapabilitiesExact(p: Profile)
    ensures var c := CapabilitiesOf(p);
            && (c.remoteRead == SUPPORTED <==> p.remoteRead) && (c.remoteWrite == SUPPORTED <==> p.remoteWrite)
            && (c.remoteAtomic == SUPPORTED <==> p.atomic) && (c.oneSided == SUPPORTED <==> p.oneSided)
            && (c.hostPinned == SUPPORTED <==> p.hostPinned) && (c.pageable == SUPPORTED <==> p.pageable)
            && (c.cudaDevice == SUPPORTED <==> p.cudaDevice) && (c.cudaManaged == SUPPORTED <==> p.cudaManaged)
            && c.onDemandPaging == UNKNOWN_CAPABILITY && c.requiredAlignment == p.requiredAlignment
            && (forall d: MemoryDomain :: d in c.supportedDomains <==> Advertised(p, d))
  {
    hide Listed;
    forall d: MemoryDomain ensures d in CapabilitiesOf(p).supportedDomains <==> Advertised(p, d) {
      AdvertisedExact(p, d);
    }
  }

  lemma ListedIs(supported: bool, d: MemoryDomain, domain: MemoryDomain)
    ensures domain in Listed(supported, d) <==> supported && domain == d
  {
  }

  /** Each dividing the other is being equal. */
  lemma AlignmentExact(p: Profile, d: BufferDescriptor)
    ensures AlignmentFits(p, d) <==>
              p.requiredAlignment == 0 || d.alignment == 0
              || (d.alignment % p.requiredAlignment == 0 && p.requiredAlignment % d.alignment == 0)
  {
    if 0 < p.requiredAlignment && 0 < d.alignment {
      DivideEachOther(p.requiredAlignment, d.alignment);
    }
  }

  lemma DivideEachOther(a: nat, m: nat)
    requires a > 0 && m > 0
    ensures a % m == 0 && m % a == 0 <==> a == m
  {
    if a < m {
      SmallRemainder(a, m);
    } else if m < a {
      SmallRemainder(m, a);
    }
  }

  lemma SmallRemainder(a: nat, m: nat)
    requires a < m
    ensures a % m == a
  {
  }

  function SupportChecks(p: Profile, d: BufferDescriptor): seq<Check<CannotRegister>>
    requires Sized(d)
  {
    [Check(Advertised(p, d.domain), DOMAIN_UNSUPPORTED)]
    + (match First(RangeChecks(d)) case None => [] case Some(e) => [Check(false, BAD_RANGE(e))])
    + [Check(AlignmentFits(p, d), ALIGNMENT_INCOMPATIBLE),
       Check(Has(d.requestedAccess, REMOTE_READ) ==> p.remoteRead, REMOTE_READ_UNSUPPORTED),
       Check(Has(d.requestedAccess, REMOTE_WRITE) ==> p.remoteWrite, REMOTE_WRITE_UNSUPPORTED),
       Check(Has(d.requestedAccess, REMOTE_ATOMIC) ==> p.atomic, REMOTE_ATOMIC_UNSUPPORTED)]
  }

  lemma RegisterableTable(p: Profile, d: BufferDescriptor)
    requires Sized(d)
    ensures CanRegister(p, d) == First(SupportChecks(p, d))
  {
    hide First, Has, RangeChecks, Advertised, AlignmentFits, ValidateRange, DomainSupported;
    AdvertisedExact(p, d.domain);
    CudaAdvertised(p);
    AlignmentExact(p, d);
    RangeTable(d);
    var cs := SupportChecks(p, d);
    if !cs[0].holds {
      FirstAt(cs, 0);
    } else if !cs[1].holds {
      FirstAt(cs, 1);
    } else if !cs[2].holds {
      FirstAt(cs, 2);
    } else if !cs[3].holds {
      FirstAt(cs, 3);
    } else if !cs[4].holds {
      FirstAt(cs, 4);
    } else {
      FirstNone(cs);
    }
  }

  lemma CudaAdvertised(p: Profile)
    ensures Advertised(p, CUDA_DEVICE) == p.cudaDevice
  {
  }

  /** Everything the backend asks of a buffer. */
  ghost predicate Registerable(p: Profile, d: BufferDescriptor) {
    && Advertised(p, d.domain) && ValidRange(d) && AlignmentFits(p, d)
    && forall kind: OperationKind :: Has(d.requestedAccess, RightFor(kind)) ==> Supports(p, kind)
  }

  lemma RegisterableExact(p: Profile, d: BufferDescriptor)
    requires Sized(d)
    ensures CanRegister(p, d).None? <==> Registerable(p, d)
  {
    hide Has, Advertised, AlignmentFits, ValidateRange, DomainSupported, ValidRange;
    AdvertisedExact(p, d.domain);
    CudaAdvertised(p);
    AlignmentExact(p, d);
    RangeExact(d);
    assert RightFor(READ) == REMOTE_READ && RightFor(WRITE) == REMOTE_WRITE && RightFor(ATOMIC_COMPARE_SWAP) == REMOTE_ATOMIC;
    assert Supports(p, READ) == p.remoteRead && Supports(p, WRITE) == p.remoteWrite && Supports(p, ATOMIC_COMPARE_SWAP) == p.atomic;
  }

  // ---- what the runtime registers ---------------------------------------------------------------------

  function RegisterChecks(s: State, b: Backend, d: BufferDescriptor, backend: nat, domain: nat, env: Envelope): seq<Check<Miss>>
    requires Sized(d)
  {
    (match First(AuthorityChecks(s.authority, env)) case None => [] case Some(o) => [Check(false, AUTHORITY(o))])
    + [Check(s.attached && backend == SYNTHETIC_ID, UNKNOWN_BACKEND),
       Check(domain in s.domains && s.domains[domain].state == DOMAIN_ACTIVE, DOMAIN_INVALID)]
    + (match First(RangeChecks(d)) case None => [] case Some(e) => [Check(false, INVALID_RANGE(e))])
    + [Check(d.id in s.buffers, BUFFER_NOT_FOUND),
       Check(d.id in s.buffers && s.buffers[d.id].descriptor.generation == d.generation, GENERATION_MISMATCH),
       Check(d.id !in s.activeFor, REGISTRATION_IN_FLIGHT)]
    + (match First(SupportChecks(b.profile, d)) case None => [] case Some(r) => [Check(false, BACKEND_REJECTS(r))])
  }

  lemma RegisterTable(s: State, b: Backend, d: BufferDescriptor, backend: nat, domain: nat, env: Envelope)
    requires Sized(d)
    ensures RegisterMiss(s, b, d, backend, domain, env) == First(RegisterChecks(s, b, d, backend, domain, env))
  {
    hide First, AuthorityChecks, RangeChecks, SupportChecks, ValidateAuthority, ValidateRange, CanRegister;
    AuthorityTable(s.authority, env);
    AuthorityRejects(s.authority, env);
    RangeTable(d);
    RegisterableTable(b.profile, d);
    var cs := RegisterChecks(s, b, d, backend, domain, env);
    if !cs[0].holds {
      FirstAt(cs, 0);
    } else if !cs[1].holds {
      FirstAt(cs, 1);
    } else if !cs[2].holds {
      FirstAt(cs, 2);
    } else if !cs[3].holds {
      FirstAt(cs, 3);
    } else if !cs[4].holds {
      FirstAt(cs, 4);
    } else if |cs| > 5 && !cs[5].holds {
      FirstAt(cs, 5);
    } else {
      FirstNone(cs);
    }
  }

  lemma AuthorityRejects(snap: AuthoritySnapshot, env: Envelope)
    ensures Answer(AuthorityChecks(snap, env)) == ALLOW <==> First(AuthorityChecks(snap, env)) == None
  {
    OnlyRejects(AuthorityChecks(snap, env));
  }

  /** Everything a register call needs, the buffer's slot included. */
  ghost predicate Registers(s: State, b: Backend, d: BufferDescriptor, backend: nat, domain: nat, env: Envelope) {
    && Current(s.authority, env) && s.attached && backend == SYNTHETIC_ID
    && domain in s.domains && s.domains[domain].state == DOMAIN_ACTIVE
    && d.id in s.buffers && s.buffers[d.id].descriptor.generation == d.generation && d.id !in s.activeFor
    && Registerable(b.profile, d)
  }

  lemma RegistersExact(s: State, b: Backend, d: BufferDescriptor, backend: nat, domain: nat, env: Envelope)
    requires Sized(d)
    ensures RegisterMiss(s, b, d, backend, domain, env).None? <==> Registers(s, b, d, backend, domain, env)
  {
    hide ValidateAuthority, Current, ValidateRange, CanRegister, Registerable, ValidRange;
    AuthorityExact(s.authority, env);
    RegisterableExact(b.profile, d);
    RangeExact(d);
    RangeNeeded(b.profile, d);
  }

  lemma RangeNeeded(p: Profile, d: BufferDescriptor)
    ensures Registerable(p, d) ==> ValidRange(d)
  {
  }

  /** The record a register call enters, as its caller can see it. */
  predicate Describes(rec: RegistrationRecord, s: State, b: Backend, d: BufferDescriptor, backend: nat, domain: nat, env: Envelope) {
    && rec.lifecycle == ACTIVE && rec.freshness == VALID && rec.reason == [] && rec.leaseCount == 0
    && rec.descriptor == d && rec.bufferId == d.id && rec.bufferGeneration == d.generation && rec.domain == d.domain
    && rec.start == d.address && rec.length == d.byteLength && rec.grantedAccess == d.requestedAccess
    && rec.backend == backend && rec.backendGeneration == b.generation && rec.domainId == domain
    && rec.owner == env.owner && rec.boot == env.workerBoot && rec.registrationGeneration == 1
    && rec.remoteKey.keyGeneration == 1 && !rec.remoteKey.revoked && rec.remoteKey.access == rec.grantedAccess
    && rec.remoteKey.registration == rec.id && rec.localKey.registration == rec.id
  }

  /** The backend's entry behind it. */
  predicate Backs(b: Backend, rec: RegistrationRecord) {
    && rec.handle in b.entries
    && var e := b.entries[rec.handle];
       && e.keyGeneration == rec.remoteKey.keyGeneration && !e.revoked && !e.revalidate
       && e.grant.region == rec.regionId && e.grant.base == rec.start && e.grant.length == rec.length
       && e.grant.access == rec.grantedAccess && e.grant.keyGeneration == rec.remoteKey.keyGeneration
       && e.grant.remoteKeyId == rec.remoteKey.id && e.grant.localKeyId == rec.localKey.id
  }

  lemma RegisteredDescribes(w: World, d: BufferDescriptor, backend: nat, domain: nat, env: Envelope)
    requires Sized(d)
    ensures var (w', n) := (Step(w, Registering(d, backend, domain, env)), w.s.nextRegistration);
            if !Registers(w.s, w.b, d, backend, domain, env) then w' == w else
              && n in w'.s.registrations && w'.s.registrations == w.s.registrations[n := w'.s.registrations[n]]
              && w'.s.registrations[n].id == n && Describes(w'.s.registrations[n], w.s, w.b, d, backend, domain, env)
              && Backs(w'.b, w'.s.registrations[n])
              && w'.s.activeFor == w.s.activeFor[d.id := n] && w'.s.nextRegistration == n + 1
  {
    hide RegisterMiss, CanRegister, AccountCommit, Registers, Region, HandleOf, RemoteKeyId, LocalKeyId, Xor64;
    RegistersExact(w.s, w.b, d, backend, domain, env);
    if Registers(w.s, w.b, d, backend, domain, env) {
      CheckedFirst(w.s, w.b, d, backend, domain, env);
    }
  }

  // ---- reuse ---------------------------------------------------------------------------------------------

  function CandidateChecks(d: BufferDescriptor, cand: RegistrationRecord, backend: nat, domain: nat, env: Envelope): seq<Check<ReuseMiss>> {
    [Check(cand.bufferId == d.id, BUFFER_MISMATCH),
     Check(cand.bufferGeneration == d.generation, BUFFER_GENERATION_CHANGED),
     Check(cand.domain == d.domain, MEMORY_DOMAIN_MISMATCH),
     Check(cand.backend == backend, BACKEND_MISMATCH),
     Check(cand.domainId == domain, DOMAIN_MISMATCH),
     Check(Superset(cand.grantedAccess, d.requestedAccess), RIGHTS_NOT_GRANTED),
     Check(cand.lifecycle in {ACTIVE, REGISTERED}, NOT_ACTIVE),
     Check(cand.boot == env.workerBoot, BOOT_MISMATCH),
     Check(cand.freshness == VALID, NOT_FRESH),
     Check(cand.remoteKey.id != 0 || cand.remoteKey.revoked, KEY_ABSENT)]
  }

  lemma CandidateTable(d: BufferDescriptor, cand: RegistrationRecord, backend: nat, domain: nat, env: Envelope)
    ensures ReuseMissReason(d, cand, backend, domain, env) == First(CandidateChecks(d, cand, backend, domain, env))
  {
    hide First, Superset;
    var cs := CandidateChecks(d, cand, backend, domain, env);
    if !cs[0].holds {
      FirstAt(cs, 0);
    } else if !cs[1].holds {
      FirstAt(cs, 1);
    } else if !cs[2].holds {
      FirstAt(cs, 2);
    } else if !cs[3].holds {
      FirstAt(cs, 3);
    } else if !cs[4].holds {
      FirstAt(cs, 4);
    } else if !cs[5].holds {
      FirstAt(cs, 5);
    } else if !cs[6].holds {
      FirstAt(cs, 6);
    } else if !cs[7].holds {
      FirstAt(cs, 7);
    } else if !cs[8].holds {
      FirstAt(cs, 8);
    } else if !cs[9].holds {
      FirstAt(cs, 9);
    } else {
      FirstNone(cs);
    }
  }

  /** The index names a registration in the table. */
  predicate HasCandidate(s: State, buffer: nat) {
    buffer in s.activeFor && s.activeFor[buffer] in s.registrations
  }

  function ReuseChecks(s: State, d: BufferDescriptor, backend: nat, domain: nat, env: Envelope): seq<Check<ReuseMiss>> {
    (match First(AuthorityChecks(s.authority, env)) case None => [] case Some(o) => [Check(false, REUSE_AUTHORITY(o))])
    + if HasCandidate(s, d.id) then CandidateChecks(d, s.registrations[s.activeFor[d.id]], backend, domain, env)
      else [Check(false, NO_CANDIDATE)]
  }

  /** The reason a reuse misses is the first condition that fails; without one it hits what the index names. */
  lemma ReuseTable(s: State, d: BufferDescriptor, backend: nat, domain: nat, env: Envelope)
    ensures match First(ReuseChecks(s, d, backend, domain, env))
            case Some(miss) => Reuse(s, d, backend, domain, env) == Err(miss)
            case None => HasCandidate(s, d.id) && Reuse(s, d, backend, domain, env) == Ok(s.registrations[s.activeFor[d.id]].id)
  {
    hide First, AuthorityChecks, ValidateAuthority, CandidateChecks, ReuseMissReason;
    AuthorityTable(s.authority, env);
    AuthorityRejects(s.authority, env);
    FirstOne(false, NO_CANDIDATE);
    var rest := if HasCandidate(s, d.id) then CandidateChecks(d, s.registrations[s.activeFor[d.id]], backend, domain, env)
                else [Check(false, NO_CANDIDATE)];
    if HasCandidate(s, d.id) {
      CandidateTable(d, s.registrations[s.activeFor[d.id]], backend, domain, env);
    }
    match First(AuthorityChecks(s.authority, env)) {
      case None => assert [] + rest == rest;
      case Some(o) =>
        FirstOne(false, REUSE_AUTHORITY(o));
        FirstOfTwo([Check(false, REUSE_AUTHORITY(o))], rest);
    }
  }

  /** The registration can stand in for registering `d` again. */
  ghost predicate Reusable(s: State, id: nat, d: BufferDescriptor, backend: nat, domain: nat, env: Envelope) {
    && Current(s.authority, env) && id in s.registrations
    && var rec := s.registrations[id];
       && rec.lifecycle == ACTIVE && rec.freshness == VALID && Indexed(s, id, rec)
       && rec.bufferId == d.id && rec.bufferGeneration == d.generation && rec.domain == d.domain
       && rec.backend == backend && rec.domainId == domain && rec.boot == env.workerBoot
       && Superset(rec.grantedAccess, d.requestedAccess) && rec.remoteKey.id != 0
  }

  /** In a sound state a reuse hits a registration exactly when it can stand in. */
  lemma ReuseExact(s: State, b: Backend, id: nat, d: BufferDescriptor, backend: nat, domain: nat, env: Envelope)
    requires Sound(s, b)
    ensures Reuse(s, d, backend, domain, env) == Ok(id) <==> Reusable(s, id, d, backend, domain, env)
  {
    hide ValidateAuthority, Current, Superset, Inverse, Issued, Placed, Extent, ValidSound;
    AuthorityExact(s.authority, env);
    if d.id in s.activeFor && s.activeFor[d.id] in s.registrations {
      assert RecordSound(s, b, s.activeFor[d.id], s.registrations[s.activeFor[d.id]]);
    }
    if id in s.registrations {
      assert RecordSound(s, b, id, s.registrations[id]);
    }
  }

  /** So in every run of whole operations, recoveries included. */
  lemma ReachableReuse(seed: nat, ops: seq<Op>, id: nat, d: BufferDescriptor, backend: nat, domain: nat, env: Envelope)
    requires AllProper(ops) && Whole(ops) && Run(Start(seed), ops).b.nextNumber <= SEQUENCE_LIMIT
    ensures var s := Run(Start(seed), ops).s;
            Reuse(s, d, backend, domain, env) == Ok(id) <==> Reusable(s, id, d, backend, domain, env)
  {
    hide Run, Reuse, Reusable, Sound;
    StartSound(seed);
    RunSound(Start(seed), ops);
    var w := Run(Start(seed), ops);
    ReuseExact(w.s, w.b, id, d, backend, domain, env);
  }

  /** The one region whose key identity is zero. */
  const KEYLESS: nat := 0x5555_5555_5555_5555

  lemma KeylessExact(region: nat)
    requires region < WORD_LIMIT
    ensures RemoteKeyId(region) == 0 <==> region == KEYLESS
  {
  }

  /** Registering and asking to reuse the same again hits the new registration, unless the region it got has key identity zero. */
  lemma RegisterThenReuse(w: World, d: BufferDescriptor, backend: nat, domain: nat, env: Envelope)
    requires Sized(d) && Registers(w.s, w.b, d, backend, domain, env)
    ensures var (w', n) := (Step(w, Registering(d, backend, domain, env)), w.s.nextRegistration);
            Reuse(w'.s, d, backend, domain, env) ==
              if Region(w.b.seed, w.b.nextNumber) == KEYLESS then Err(KEY_ABSENT) else Ok(n)
  {
    hide Step, ValidateAuthority, Current, Region, Registerable, Xor64, HandleOf;
    RegisteredDescribes(w, d, backend, domain, env);
    RegisteredKey(w, d, backend, domain, env);
    KeylessExact(Region(w.b.seed, w.b.nextNumber));
    AuthorityExact(w.s.authority, env);
    assert d.requestedAccess & d.requestedAccess == d.requestedAccess;
  }

  /** Region, handle, keys and opaque value of a new registration. */
  lemma RegisteredKey(w: World, d: BufferDescriptor, backend: nat, domain: nat, env: Envelope)
    requires Sized(d) && Registers(w.s, w.b, d, backend, domain, env)
    ensures var (w', n) := (Step(w, Registering(d, backend, domain, env)), w.s.nextRegistration);
            && n in w'.s.registrations && w'.s.authority == w.s.authority
            && (var (rec, region) := (w'.s.registrations[n], Region(w.b.seed, w.b.nextNumber));
                && rec.regionId == region && rec.handle == HandleOf(region)
                && rec.remoteKey.id == (3 * region + 1) % WORD_LIMIT && rec.localKey.id == (3 * region + 2) % WORD_LIMIT
                && rec.remoteKey.opaqueValue == rec.localKey.opaqueValue == Xor64(region, 0xA5A5_A5A5_A5A5_A5A5))
  {
    hide RegisterMiss, CanRegister, AccountCommit, Registers, Region, HandleOf, Xor64;
    RegistersExact(w.s, w.b, d, backend, domain, env);
    CheckedFirst(w.s, w.b, d, backend, domain, env);
  }

  // ---- leases ----------------------------------------------------------------------------------------------

  function LeaseChecks(s: State, id: nat, env: Envelope, needed: Mask): seq<Check<LeaseMiss>> {
    (match First(AuthorityChecks(s.authority, env)) case None => [] case Some(o) => [Check(false, LEASE_AUTHORITY(o))])
    + if id !in s.registrations then [Check(false, LEASE_NOT_FOUND)] else
        var rec := s.registrations[id];
        [Check(rec.lifecycle in {ACTIVE, REGISTERED}, LEASE_LIFECYCLE),
         Check(Superset(rec.grantedAccess, needed), LEASE_RIGHTS),
         Check(rec.freshness == VALID, LEASE_FRESHNESS)]
  }

  lemma LeaseTable(s: State, id: nat, env: Envelope, needed: Mask)
    ensures LeaseMissReason(s, id, env, needed) == First(LeaseChecks(s, id, env, needed))
  {
    hide First, AuthorityChecks, ValidateAuthority, Superset;
    AuthorityTable(s.authority, env);
    AuthorityRejects(s.authority, env);
    var cs := LeaseChecks(s, id, env, needed);
    if !cs[0].holds {
      FirstAt(cs, 0);
    } else if !cs[1].holds {
      FirstAt(cs, 1);
    } else if !cs[2].holds {
      FirstAt(cs, 2);
    } else {
      FirstNone(cs);
    }
  }

  /** The caller may lease the registration for the rights it needs. */
  predicate Leasable(s: State, id: nat, env: Envelope, needed: Mask) {
    && Current(s.authority, env) && id in s.registrations
    && s.registrations[id].lifecycle in {ACTIVE, REGISTERED} && s.registrations[id].freshness == VALID
    && Superset(s.registrations[id].grantedAccess, needed)
  }

  /** What `ls` says of its registration and its caller. */
  predicate LeaseOn(ls: Lease, id: nat, rec: RegistrationRecord, env: Envelope, needed: Mask) {
    && ls.registration == id && ls.registrationGeneration == rec.registrationGeneration
    && ls.bufferGeneration == rec.bufferGeneration && ls.domain == rec.domainId && ls.provenance == rec.provenance
    && ls.owner == env.owner && ls.boot == env.workerBoot && ls.access == needed
  }

  /** A lease is granted exactly when it may be; then it is active and entered, the registration's count and the counter rise, and nothing else happens. */
  lemma LeaseExact(s: State, id: nat, env: Envelope, needed: Mask)
    ensures var (s', n) := (AcquireLease(s, id, env, needed), s.nextLease);
            if !Leasable(s, id, env, needed) then s' == s && LeaseMissReason(s, id, env, needed).Some? else
              && LeaseMissReason(s, id, env, needed).None?
              && n in s'.leases && s'.leases == s.leases[n := s'.leases[n]] && s'.leases[n].id == n
              && s'.leases[n].state == LEASE_ACTIVE && LeaseOn(s'.leases[n], id, s.registrations[id], env, needed)
              && s'.leases[n].leaseGeneration == s'.registrations[id].leaseCount == s.registrations[id].leaseCount + 1
              && s'.registrations == s.registrations[id := s.registrations[id].(leaseCount := s.registrations[id].leaseCount + 1)]
              && s'.nextLease == n + 1 && s'.acct == s.acct.(activeLeases := s.acct.activeLeases + 1)
              && s' == s.(leases := s'.leases, registrations := s'.registrations, nextLease := s'.nextLease, acct := s'.acct)
  {
    hide ValidateAuthority, Current, Superset;
    AuthorityExact(s.authority, env);
  }
}
