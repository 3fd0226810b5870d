/**
 * The registration runtime of src/registry.cpp on values: its tables, counters and
 * authority snapshot, and the effect of each operation. Loops over hash maps take
 * the iteration order as a parameter. `register_buffer` and `deregister` are given
 * in the pieces between which the lock is released.
 */
module Runtime {
  import opened Records
  import opened Checks
  import opened Words
  import opened BackendModel

  // ---- entities -------------------------------------------------------------------------

  datatype DomainState = CREATED | DOMAIN_ACTIVE | DESTROYING | DESTROYED

  datatype DomainEntry = DomainEntry(
    domain: MemoryDomain,
    state: DomainState,
    generation: nat,
    node: nat,
    process: nat)

  datatype BufferEntry = BufferEntry(descriptor: BufferDescriptor, registered: bool)

  datatype LeaseState = PENDING | LEASE_ACTIVE | RELEASED | LEASE_REVOKED

  datatype Lease = Lease(
    id: nat,
    registration: nat,
    registrationGeneration: nat,
    leaseGeneration: nat,
    bufferGeneration: nat,
    boot: nat,
    owner: nat,
    domain: nat,
    access: Mask,
    state: LeaseState,
    provenance: Provenance)

  datatype State = State(
    authority: AuthoritySnapshot,
    attached: bool,
    domains: map<nat, DomainEntry>,
    buffers: map<nat, BufferEntry>,
    registrations: map<nat, RegistrationRecord>,
    activeFor: map<nat, nat>,
    leases: map<nat, Lease>,
    acct: Accounting,
    nextBuffer: nat,
    nextRegistration: nat,
    nextDomain: nat,
    nextLease: nat)

  const NO_AUTHORITY: AuthoritySnapshot :=
    AuthoritySnapshot(0, 0, 0, 0, 0, 0, 0, 0, 0, 0, 0, 0, UNKNOWN_PROVENANCE)

  const CLEAN: Accounting := Accounting(0, 0, 0, 0, 0, 0, 0, 0, 0, 0, 0, 0, 0, 0, 0, 0, 0, 0, 0)

  const Empty: State := State(NO_AUTHORITY, false, map[], map[], map[], map[], map[], CLEAN, 1, 1, 1, 1)

  /** The backend registered under `id`, if there is one. */
  predicate HasBackend(s: State, id: nat) {
    s.attached && id == SYNTHETIC_ID
  }

  // ---- counters (include/rdmabuffer/accounting.hpp) ----------------------------------------

  /** A decrement larger than the counter is refused. */
  function Decrement(value: nat, n: nat): (r: nat)
    ensures n <= value ==> r == value - n
    ensures n > value ==> r == value
  {
    if n > value then value else value - n
  }

  function AccountCommit(a: Accounting, rec: RegistrationRecord): Accounting {
    a.(activeRegistrations := a.activeRegistrations + 1,
       registeredBytes := a.registeredBytes + rec.length,
       pinnedBytes := if rec.domain.HOST_PINNED? then a.pinnedBytes + rec.length else a.pinnedBytes,
       localKeys := a.localKeys + 1,
       remoteKeys := a.remoteKeys + 1)
  }

  function AccountInvalidate(a: Accounting, rec: RegistrationRecord): Accounting {
    a.(activeRegistrations := Decrement(a.activeRegistrations, 1),
       registeredBytes := Decrement(a.registeredBytes, rec.length),
       pinnedBytes := if rec.domain.HOST_PINNED? then Decrement(a.pinnedBytes, rec.length) else a.pinnedBytes,
       localKeys := Decrement(a.localKeys, 1),
       remoteKeys := Decrement(a.remoteKeys, 1))
  }

  // ---- authority ----------------------------------------------------------------------------

  function SetAuthority(s: State, snap: AuthoritySnapshot): State {
    s.(authority := snap)
  }

  function AdvanceEpoch(s: State): State {
    s.(authority := s.authority.(epoch := s.authority.epoch + 1))
  }

  function NoteRestart(s: State): State {
    s.(authority := s.authority.(epoch := s.authority.epoch + 1, workerBoot := s.authority.workerBoot + 1),
       acct := s.acct.(participantRestarts := s.acct.participantRestarts + 1))
  }

  function AddBackend(s: State): State {
    s.(attached := true)
  }

  // ---- bulk invalidation --------------------------------------------------------------------

  /** Why registrations are invalidated in bulk. */
  datatype Cause = DomainDestroyed(domain: nat) | Reallocated(buffer: nat)

  const DOMAIN_REASON: Text := Ascii("protection domain destroyed")
  const REALLOCATION_REASON: Text := Ascii("memory reallocated under new generation")
  const HARD_REASON: Text := Ascii("hard revoke")
  const SOFT_REASON: Text := Ascii("soft revoke")

  predicate Matches(rec: RegistrationRecord, c: Cause) {
    match c
    case DomainDestroyed(d) => rec.domainId == d && Live(rec.lifecycle)
    case Reallocated(b) => rec.bufferId == b && (Live(rec.lifecycle) || rec.lifecycle.REGISTERING?)
  }

  function Invalidated(rec: RegistrationRecord, c: Cause): RegistrationRecord {
    match c
    case DomainDestroyed(_) => rec.(lifecycle := REVOKED, freshness := FRESH_STALE, reason := DOMAIN_REASON)
    case Reallocated(_) => rec.(lifecycle := STALE, freshness := FRESH_STALE, reason := REALLOCATION_REASON)
  }

  function Invalidate(s: State, id: nat, c: Cause): State {
    if id !in s.registrations || !Matches(s.registrations[id], c) then s else
      var rec := Invalidated(s.registrations[id], c);
      s.(registrations := s.registrations[id := rec], acct := AccountInvalidate(s.acct, rec))
  }

  /** The loop over the registration table, visiting it in the given order. */
  function InvalidateAll(s: State, order: seq<nat>, c: Cause): State {
    if order == [] then s else
      Invalidate(InvalidateAll(s, order[..|order| - 1], c), order[|order| - 1], c)
  }

  /** `order` visits every key of the table once. */
  ghost predicate Enumerates<V>(order: seq<nat>, m: map<nat, V>) {
    && (forall k :: k in m <==> k in order)
    && (forall i, j :: 0 <= i < j < |order| ==> order[i] != order[j])
  }

  // ---- domains and buffers ---------------------------------------------------------------------

  function CreateDomain(s: State, node: nat, process: nat): State {
    s.(domains := s.domains[s.nextDomain := DomainEntry(UNKNOWN_DOMAIN, DOMAIN_ACTIVE, 1, node, process)],
       nextDomain := s.nextDomain + 1,
       acct := s.acct.(protectionDomains := s.acct.protectionDomains + 1))
  }

  function DestroyDomain(s: State, d: nat, order: seq<nat>): (r: State)
  {
    if d !in s.domains then s else
      var s1 := InvalidateAll(s, order, DomainDestroyed(d));
      var e := s.domains[d];
      s1.(domains := s.domains[d := e.(state := DESTROYED, generation := e.generation + 1)],
          acct := s1.acct.(protectionDomains := Decrement(s1.acct.protectionDomains, 1)))
  }

  /** The identity a created buffer is filed under: its own, or the next free number. */
  function BufferKey(s: State, d: BufferDescriptor): nat {
    if d.id != 0 then d.id else s.nextBuffer
  }

  /** A duplicate or a regressed generation under an identity already in use. */
  predicate CreateRefused(s: State, d: BufferDescriptor) {
    var key := BufferKey(s, d);
    key in s.buffers && d.generation <= s.buffers[key].descriptor.generation
  }

  function CreateBuffer(s: State, d: BufferDescriptor, order: seq<nat>): State {
    var key := BufferKey(s, d);
    var s0 := if d.id != 0 then s else s.(nextBuffer := s.nextBuffer + 1);
    if CreateRefused(s, d) then s0
    else if key in s.buffers then
      var s1 := InvalidateAll(s0, order, Reallocated(key));
      var was := s.buffers[key].descriptor.byteLength;
      var live := if d.byteLength >= was then s1.acct.liveBufferBytes + (d.byteLength - was)
                  else Decrement(s1.acct.liveBufferBytes, was - d.byteLength);
      s1.(buffers := s1.buffers[key := BufferEntry(d, false)], acct := s1.acct.(liveBufferBytes := live))
    else
      s0.(buffers := s0.buffers[key := BufferEntry(d, false)],
          acct := s0.acct.(logicalBuffers := s0.acct.logicalBuffers + 1,
                           liveBufferBytes := s0.acct.liveBufferBytes + d.byteLength))
  }

  // ---- registration ------------------------------------------------------------------------------

  datatype Miss =
    | AUTHORITY(outcome: AccessOutcome)
    | UNKNOWN_BACKEND
    | DOMAIN_INVALID
    | INVALID_RANGE(range: RangeError)
    | BUFFER_NOT_FOUND
    | GENERATION_MISMATCH
    | REGISTRATION_IN_FLIGHT
    | BACKEND_REJECTS(reason: CannotRegister)

  const NO_LOCAL_KEY: LocalKey := LocalKey(0, 0, 0, 0, 0, UNKNOWN_TRANSPORT, 0, 0, UNKNOWN_PROVENANCE)
  const NO_REMOTE_KEY: RemoteKey :=
    RemoteKey(0, 0, 0, 0, 0, 0, 0, 0, UNKNOWN_TRANSPORT, 0, 0, 0, 0, false, UNKNOWN_PROVENANCE)

  /** The record begun under the lock, before the backend has granted anything. */
  function BegunRecord(s: State, b: Backend, d: BufferDescriptor, backend: nat, domain: nat, env: Envelope):
    RegistrationRecord
  {
    RegistrationRecord(
      s.nextRegistration, d.id, d.generation, 1, backend, b.generation, 0, 0, d.domain, UNKNOWN_TRANSPORT, 0,
      d.address, d.byteLength, d.alignment, env.owner, s.authority.process, s.authority.worker, env.workerBoot,
      s.authority.epoch, d.device, domain, 0, SYNTHETIC, FRESH_UNKNOWN, REGISTERING, 0, 0, 0, [], [], d,
      NO_REMOTE_KEY, NO_LOCAL_KEY, s.authority.policyGeneration)
  }

  /** Why the check step refuses, if it does. */
  function RegisterMiss(s: State, b: Backend, d: BufferDescriptor, backend: nat, domain: nat, env: Envelope): Option<Miss>
    requires Sized(d)
  {
    if ValidateAuthority(s.authority, env) != ALLOW then Some(AUTHORITY(ValidateAuthority(s.authority, env)))
    else if !HasBackend(s, backend) then Some(UNKNOWN_BACKEND)
    else if domain !in s.domains || !s.domains[domain].state.DOMAIN_ACTIVE? then Some(DOMAIN_INVALID)
    else if ValidateRange(d).Some? then Some(INVALID_RANGE(ValidateRange(d).value))
    else if d.id !in s.buffers then Some(BUFFER_NOT_FOUND)
    else if s.buffers[d.id].descriptor.generation != d.generation then Some(GENERATION_MISMATCH)
    else if d.id in s.activeFor then Some(REGISTRATION_IN_FLIGHT)
    else if CanRegister(b.profile, d).Some? then Some(BACKEND_REJECTS(CanRegister(b.profile, d).value))
    else None
  }

  /** First lock: the checks, and a new identity. */
  function RegisterCheck(s: State, b: Backend, d: BufferDescriptor, backend: nat, domain: nat, env: Envelope):
    Result<(State, RegistrationRecord), Miss>
    requires Sized(d)
  {
    match RegisterMiss(s, b, d, backend, domain, env)
    case Some(miss) => Err(miss)
    case None =>
      Ok((s.(nextRegistration := s.nextRegistration + 1), BegunRecord(s, b, d, backend, domain, env)))
  }

  function CommittedRecord(s: State, rec: RegistrationRecord, g: Grant): RegistrationRecord {
    rec.(
      regionId := g.region, handle := g.handle, start := g.base, length := g.length, grantedAccess := g.access,
      localKey := LocalKey(g.localKeyId, rec.id, rec.registrationGeneration, s.authority.workerBoot, rec.backend,
                           TCP_REFERENCE, g.access, g.opaqueValue, SYNTHETIC),
      remoteKey := RemoteKey(g.remoteKeyId, rec.id, rec.registrationGeneration, g.keyGeneration, rec.bufferGeneration,
                             s.authority.workerBoot, s.authority.process, rec.backend, TCP_REFERENCE, g.access,
                             g.base, g.length, g.opaqueValue, false, SYNTHETIC),
      provenance := SYNTHETIC, freshness := VALID, lifecycle := ACTIVE)
  }

  /** Second lock: the grant is entered in the tables, unconditionally. */
  function RegisterCommit(s: State, rec: RegistrationRecord, g: Grant): State {
    var done := CommittedRecord(s, rec, g);
    s.(registrations := s.registrations[rec.id := done],
       activeFor := s.activeFor[rec.bufferId := rec.id],
       acct := AccountCommit(s.acct, done))
  }

  // ---- reuse -----------------------------------------------------------------------------------------

  datatype ReuseMiss =
    | REUSE_AUTHORITY(outcome: AccessOutcome)
    | NO_CANDIDATE
    | BUFFER_MISMATCH | BUFFER_GENERATION_CHANGED | MEMORY_DOMAIN_MISMATCH | BACKEND_MISMATCH | DOMAIN_MISMATCH
    | RIGHTS_NOT_GRANTED | NOT_ACTIVE | BOOT_MISMATCH | NOT_FRESH | KEY_ABSENT

  function ReuseMissReason(d: BufferDescriptor, cand: RegistrationRecord, backend: nat, domain: nat, env: Envelope):
    Option<ReuseMiss>
  {
    if cand.bufferId != d.id then Some(BUFFER_MISMATCH)
    else if cand.bufferGeneration != d.generation then Some(BUFFER_GENERATION_CHANGED)
    else if cand.domain != d.domain then Some(MEMORY_DOMAIN_MISMATCH)
    else if cand.backend != backend then Some(BACKEND_MISMATCH)
    else if cand.domainId != domain then Some(DOMAIN_MISMATCH)
    else if !Superset(cand.grantedAccess, d.requestedAccess) then Some(RIGHTS_NOT_GRANTED)
    else if !Live(cand.lifecycle) then Some(NOT_ACTIVE)
    else if cand.boot != env.workerBoot then Some(BOOT_MISMATCH)
    else if cand.freshness != VALID then Some(NOT_FRESH)
    else if !cand.remoteKey.revoked && cand.remoteKey.id == 0 then Some(KEY_ABSENT)
    else None
  }

  function Reuse(s: State, d: BufferDescriptor, backend: nat, domain: nat, env: Envelope): Result<nat, ReuseMiss> {
    if ValidateAuthority(s.authority, env) != ALLOW then Err(REUSE_AUTHORITY(ValidateAuthority(s.authority, env)))
    else if d.id !in s.activeFor || s.activeFor[d.id] !in s.registrations then Err(NO_CANDIDATE)
    else
      var cand := s.registrations[s.activeFor[d.id]];
      match ReuseMissReason(d, cand, backend, domain, env)
      case Some(miss) => Err(miss)
      case None => Ok(cand.id)
  }

  function ReuseCounted(s: State, res: Result<nat, ReuseMiss>): State {
    match res
    case Ok(_) => s.(acct := s.acct.(reuseHits := s.acct.reuseHits + 1))
    case Err(miss) =>
      if miss.REUSE_AUTHORITY? || miss.NO_CANDIDATE? then s
      else s.(acct := s.acct.(reuseMisses := s.acct.reuseMisses + 1))
  }

  // ---- leases ------------------------------------------------------------------------------------------

  datatype LeaseMiss = LEASE_AUTHORITY(outcome: AccessOutcome) | LEASE_NOT_FOUND | LEASE_LIFECYCLE | LEASE_RIGHTS | LEASE_FRESHNESS

  function LeaseMissReason(s: State, id: nat, env: Envelope, needed: Mask): Option<LeaseMiss> {
    if ValidateAuthority(s.authority, env) != ALLOW then Some(LEASE_AUTHORITY(ValidateAuthority(s.authority, env)))
    else if id !in s.registrations then Some(LEASE_NOT_FOUND)
    else
      var rec := s.registrations[id];
      if !Live(rec.lifecycle) then Some(LEASE_LIFECYCLE)
      else if !Superset(rec.grantedAccess, needed) then Some(LEASE_RIGHTS)
      else if rec.freshness != VALID then Some(LEASE_FRESHNESS)
      else None
  }

  function GrantedLease(s: State, id: nat, env: Envelope, needed: Mask): Lease
    requires id in s.registrations
  {
    var rec := s.registrations[id];
    Lease(s.nextLease, id, rec.registrationGeneration, rec.leaseCount + 1, rec.bufferGeneration, env.workerBoot,
          env.owner, rec.domainId, needed, LEASE_ACTIVE, rec.provenance)
  }

  lemma CanLease(s: State, id: nat, env: Envelope, needed: Mask)
    requires LeaseMissReason(s, id, env, needed).None?
    ensures id in s.registrations
  {
  }

  function AcquireLease(s: State, id: nat, env: Envelope, needed: Mask): State {
    if LeaseMissReason(s, id, env, needed).Some? then s else
      var rec := s.registrations[id];
      s.(leases := s.leases[s.nextLease := GrantedLease(s, id, env, needed)],
         nextLease := s.nextLease + 1,
         registrations := s.registrations[id := rec.(leaseCount := rec.leaseCount + 1)],
         acct := s.acct.(activeLeases := s.acct.activeLeases + 1))
  }

  predicate Releasable(s: State, lease: nat) {
    lease in s.leases && !s.leases[lease].state.RELEASED?
  }

  function ReleaseLease(s: State, lease: nat): State {
    if !Releasable(s, lease) then s else
      var ls := s.leases[lease];
      var regs := s.registrations;
      s.(leases := s.leases[lease := ls.(state := RELEASED)],
         registrations :=
           if ls.registration in regs && regs[ls.registration].leaseCount > 0
           then regs[ls.registration := regs[ls.registration].(leaseCount := regs[ls.registration].leaseCount - 1)]
           else regs,
         acct := s.acct.(activeLeases := Decrement(s.acct.activeLeases, 1)))
  }

  // ---- remote access -----------------------------------------------------------------------------------

  datatype Request = Request(
    registration: nat,
    offset: nat,
    length: nat,
    kind: OperationKind,
    requiredRights: Mask,
    expectedBufferGeneration: nat,
    expectedRegistrationGeneration: nat,
    expectedKeyGeneration: nat,
    authority: Envelope,
    domain: nat,
    backend: nat,
    transport: nat)

  predicate Ranged(q: Request) {
    q.offset <= MAX64 && q.length <= MAX64
  }

  /** Lifecycle and freshness. */
  function StatusOutcome(rec: RegistrationRecord): AccessOutcome {
    if rec.lifecycle.REVOKED? || rec.lifecycle.DEREGISTERED? || rec.lifecycle.STALE? then REJECT_REVOKED
    else if rec.lifecycle.REVOKING? then REJECT_REVOKED
    else if rec.freshness != VALID then REJECT_STALE_REGISTRATION
    else ALLOW
  }

  /** Generations, key, backend, transport and domain; zero in a request means the caller does not care. */
  function CurrencyOutcome(s: State, b: Backend, rec: RegistrationRecord, q: Request): AccessOutcome {
    if q.expectedRegistrationGeneration != 0 && q.expectedRegistrationGeneration != rec.registrationGeneration
    then REJECT_STALE_REGISTRATION
    else if q.expectedBufferGeneration != 0 && q.expectedBufferGeneration != rec.bufferGeneration
    then REJECT_STALE_BUFFER
    else if q.expectedKeyGeneration != 0 && q.expectedKeyGeneration != rec.remoteKey.keyGeneration
    then REJECT_STALE_KEY
    else if rec.remoteKey.revoked then REJECT_STALE_KEY
    else if q.backend != 0 && q.backend != rec.backend then REJECT_BACKEND
    else if !HasBackend(s, rec.backend) || b.generation != rec.backendGeneration then REJECT_BACKEND
    else if q.transport != 0 && q.transport != rec.transport then REJECT_TRANSPORT
    else if q.domain != 0 && q.domain != rec.domainId then REJECT_DOMAIN
    else ALLOW
  }

  /** Rights, atomic capability and range. */
  function GrantOutcome(b: Backend, rec: RegistrationRecord, q: Request): AccessOutcome
    requires Ranged(q)
  {
    if !Superset(rec.grantedAccess, q.requiredRights) then REJECT_PERMISSION
    else if !Has(rec.grantedAccess, RightFor(q.kind)) then REJECT_PERMISSION
    else if q.kind.ATOMIC_COMPARE_SWAP? && Has(q.requiredRights, REMOTE_ATOMIC) && !b.profile.atomic
    then REJECT_UNKNOWN_CAPABILITY
    else if !RangeInside(rec.descriptor, q.offset, q.length) then REJECT_RANGE
    else ALLOW
  }

  /** The runtime's own checks, in their order. */
  function RuntimeOutcome(s: State, b: Backend, q: Request): AccessOutcome
    requires Ranged(q)
  {
    if q.registration !in s.registrations then REJECT_NOT_REGISTERED else
      var rec := s.registrations[q.registration];
      if StatusOutcome(rec) != ALLOW then StatusOutcome(rec)
      else if ValidateAuthority(s.authority, q.authority) != ALLOW then ValidateAuthority(s.authority, q.authority)
      else if CurrencyOutcome(s, b, rec, q) != ALLOW then CurrencyOutcome(s, b, rec, q)
      else GrantOutcome(b, rec, q)
  }

  /** validate_remote_access: the runtime's checks, then the backend's confirmation. */
  function Access(s: State, b: Backend, q: Request): AccessOutcome
    requires Ranged(q)
  {
    var own := RuntimeOutcome(s, b, q);
    if own != ALLOW then own else
      var rec := s.registrations[q.registration];
      QueryRemoteAccess(b, rec.handle, rec.remoteKey.keyGeneration, q.kind, q.offset, q.length)
  }

  /** An authority rejection is returned without being counted. */
  predicate Uncounted(s: State, q: Request) {
    && q.registration in s.registrations && StatusOutcome(s.registrations[q.registration]) == ALLOW
    && ValidateAuthority(s.authority, q.authority) != ALLOW
  }

  predicate StaleOutcome(o: AccessOutcome) {
    o.REJECT_STALE_EPOCH? || o.REJECT_STALE_BOOT? || o.REJECT_STALE_BUFFER? || o.REJECT_STALE_REGISTRATION?
    || o.REJECT_STALE_KEY?
  }

  function AccessAccounting(a: Accounting, o: AccessOutcome, q: Request): Accounting {
    if o != ALLOW then
      a.(failedAccessAttempts := a.failedAccessAttempts + 1,
         staleAccessRejections := a.staleAccessRejections + if StaleOutcome(o) then 1 else 0)
    else
      match q.kind
      case WRITE => a.(remoteWriteBytes := a.remoteWriteBytes + q.length)
      case READ => a.(remoteReadBytes := a.remoteReadBytes + q.length)
      case ATOMIC_COMPARE_SWAP => a.(atomicOperations := a.atomicOperations + 1)
  }

  function AccessCounted(s: State, b: Backend, q: Request): State
    requires Ranged(q)
  {
    if Uncounted(s, q) then s else s.(acct := AccessAccounting(s.acct, Access(s, b, q), q))
  }

  // ---- revocation and rotation -----------------------------------------------------------------------------

  /** One turn of the hard revocation's loop over the leases. */
  function RevokeLease(s: State, lease: nat, id: nat): State {
    if lease in s.leases && s.leases[lease].registration == id && s.leases[lease].state.LEASE_ACTIVE? then
      s.(leases := s.leases[lease := s.leases[lease].(state := LEASE_REVOKED)],
         acct := s.acct.(activeLeases := Decrement(s.acct.activeLeases, 1)))
    else s
  }

  function RevokeLeases(s: State, order: seq<nat>, id: nat): State {
    if order == [] then s else RevokeLease(RevokeLeases(s, order[..|order| - 1], id), order[|order| - 1], id)
  }

  predicate Revocable(s: State, id: nat) {
    id in s.registrations && Live(s.registrations[id].lifecycle)
  }

  function RevokedRecord(rec: RegistrationRecord): RegistrationRecord {
    rec.(lifecycle := REVOKED, freshness := FRESH_STALE, reason := HARD_REASON,
         remoteKey := rec.remoteKey.(keyGeneration := rec.remoteKey.keyGeneration + 1, revoked := true))
  }

  function HardRevoke(s: State, id: nat, order: seq<nat>): State {
    if !Revocable(s, id) then s else
      var s1 := s.(registrations := s.registrations[id := RevokedRecord(s.registrations[id])]);
      var s2 := RevokeLeases(s1, order, id);
      s2.(activeFor := s2.activeFor - {s.registrations[id].bufferId},
          acct := s2.acct.(revocations := s2.acct.revocations + 1))
  }

  /** Leases outstanding leave the record REVOKING, and nothing later moves it on. */
  function SoftRevoke(s: State, id: nat): State {
    if !Revocable(s, id) then s else
      var rec := s.registrations[id];
      var drained := rec.leaseCount == 0;
      s.(registrations := s.registrations[
           id := rec.(lifecycle := if drained then REVOKED else REVOKING, freshness := FRESH_STALE, reason := SOFT_REASON)],
         acct := s.acct.(revocations := s.acct.revocations + if drained then 1 else 0))
  }

  function RotatedRecord(rec: RegistrationRecord): RegistrationRecord {
    var key := rec.remoteKey;
    rec.(remoteKey := key.(keyGeneration := key.keyGeneration + 1, revoked := false,
                           opaqueValue := Xor64(key.opaqueValue, ROTATION_MASK)))
  }

  function RotateRegistration(s: State, b: Backend, id: nat): (State, Backend) {
    if !Revocable(s, id) then (s, b) else
      var rec := RotatedRecord(s.registrations[id]);
      (s.(registrations := s.registrations[id := rec]),
       if HasBackend(s, rec.backend) && rec.handle != [] then RotateKey(b, rec.handle, rec.remoteKey.keyGeneration) else b)
  }

  // ---- deregistration --------------------------------------------------------------------------------------

  predicate MayDeregister(s: State, id: nat) {
    && id in s.registrations
    && s.registrations[id].leaseCount == 0
    && Deregisterable(s.registrations[id].lifecycle)
  }

  /** First lock: the record is marked, its backend handle copied out. */
  function DeregisterCheck(s: State, id: nat): State
    requires MayDeregister(s, id)
  {
    s.(registrations := s.registrations[id := s.registrations[id].(lifecycle := DEREGISTERING)])
  }

  /** Outside the lock: the backend releases the handle; without a backend there is nothing to do. */
  function DeregisterBackend(s: State, b: Backend, backend: nat, handle: Text): Option<Backend> {
    if backend != 0 && HasBackend(s, backend) then Release(b, handle) else Some(b)
  }

  /** The backend did not know the handle. */
  function DeregisterFail(s: State, id: nat): State {
    if id !in s.registrations then s else
      s.(registrations := s.registrations[id := s.registrations[id].(lifecycle := FAILED)])
  }

  function Naming(index: map<nat, nat>, id: nat): set<nat> {
    set k | k in index && index[k] == id
  }

  function LeasesOf(leases: map<nat, Lease>, id: nat): set<nat> {
    set l | l in leases && leases[l].registration == id
  }

  /** Second lock: the charge is released, the record, its index entry and its leases are erased. */
  function DeregisterCommit(s: State, id: nat): State {
    if id !in s.registrations then s else
      var a := AccountInvalidate(s.acct, s.registrations[id]);
      s.(registrations := s.registrations - {id},
         activeFor := s.activeFor - Naming(s.activeFor, id),
         leases := s.leases - LeasesOf(s.leases, id),
         acct := a.(deregistrations := a.deregistrations + 1))
  }

  // ---- what the loops amount to ------------------------------------------------------------------------------

  /** A record that was invalidated no longer matches: revisiting it would do nothing. */
  lemma InvalidatedOnce(rec: RegistrationRecord, c: Cause)
    ensures !Matches(Invalidated(rec, c), c)
  {
  }

  /** Only the counters that follow the registrations' charges differ. */
  predicate OnlyCharges(a: Accounting, a': Accounting) {
    a' == a.(activeRegistrations := a'.activeRegistrations, registeredBytes := a'.registeredBytes,
             pinnedBytes := a'.pinnedBytes, localKeys := a'.localKeys, remoteKeys := a'.remoteKeys)
  }

  /** Only tallies of events and the count of domains differ. */
  predicate OnlyTallies(a: Accounting, a': Accounting) {
    a' == a.(protectionDomains := a'.protectionDomains, remoteReadBytes := a'.remoteReadBytes,
             remoteWriteBytes := a'.remoteWriteBytes, atomicOperations := a'.atomicOperations,
             failedAccessAttempts := a'.failedAccessAttempts, staleAccessRejections := a'.staleAccessRejections,
             reuseHits := a'.reuseHits, reuseMisses := a'.reuseMisses, participantRestarts := a'.participantRestarts)
  }

  lemma {:induction false} InvalidateAllFrame(s: State, order: seq<nat>, c: Cause)
    ensures var s' := InvalidateAll(s, order, c);
            && s' == s.(registrations := s'.registrations, acct := s'.acct)
            && s'.registrations.Keys == s.registrations.Keys && OnlyCharges(s.acct, s'.acct)
  {
    hide Matches, Invalidated;
    if order != [] {
      InvalidateAllFrame(s, order[..|order| - 1], c);
    }
  }

  lemma {:induction false} InvalidateAllAt(s: State, order: seq<nat>, c: Cause, id: nat)
    requires id in s.registrations
    ensures id in InvalidateAll(s, order, c).registrations
    ensures InvalidateAll(s, order, c).registrations[id]
         == if id in order && Matches(s.registrations[id], c) then Invalidated(s.registrations[id], c)
            else s.registrations[id]
  {
    hide Matches, Invalidated, AccountInvalidate;
    if order != [] {
      var front, last := order[..|order| - 1], order[|order| - 1];
      InvalidateAllAt(s, front, c, id);
      assert order == front + [last];
      InvalidatedOnce(s.registrations[id], c);
    }
  }

  /** Exactly the matching records among those visited are invalidated; nothing else but counters changes. */
  lemma InvalidateAllEffect(s: State, order: seq<nat>, c: Cause)
    ensures var s' := InvalidateAll(s, order, c);
            && s' == s.(registrations := s'.registrations, acct := s'.acct)
            && s'.registrations.Keys == s.registrations.Keys
            && forall id :: id in s.registrations ==>
                 s'.registrations[id] == if id in order && Matches(s.registrations[id], c)
                                         then Invalidated(s.registrations[id], c) else s.registrations[id]
  {
    hide Matches, Invalidated, InvalidateAll;
    InvalidateAllFrame(s, order, c);
    forall id | id in s.registrations
      ensures InvalidateAll(s, order, c).registrations[id]
           == if id in order && Matches(s.registrations[id], c) then Invalidated(s.registrations[id], c)
              else s.registrations[id]
    {
      InvalidateAllAt(s, order, c, id);
    }
  }

  lemma {:induction false} RevokeLeasesFrame(s: State, order: seq<nat>, id: nat)
    ensures var s' := RevokeLeases(s, order, id);
            && s' == s.(leases := s'.leases, acct := s.acct.(activeLeases := s'.acct.activeLeases))
            && s'.leases.Keys == s.leases.Keys
  {
    if order != [] {
      RevokeLeasesFrame(s, order[..|order| - 1], id);
    }
  }

  function RevokedLease(ls: Lease, id: nat): Lease {
    if ls.registration == id && ls.state.LEASE_ACTIVE? then ls.(state := LEASE_REVOKED) else ls
  }

  lemma {:induction false} RevokeLeasesAt(s: State, order: seq<nat>, id: nat, l: nat)
    requires l in s.leases
    ensures l in RevokeLeases(s, order, id).leases
    ensures RevokeLeases(s, order, id).leases[l] == if l in order then RevokedLease(s.leases[l], id) else s.leases[l]
  {
    if order != [] {
      var front, last := order[..|order| - 1], order[|order| - 1];
      RevokeLeasesAt(s, front, id, l);
      assert order == front + [last];
    }
  }

  lemma RevokeLeasesEffect(s: State, order: seq<nat>, id: nat)
    ensures var s' := RevokeLeases(s, order, id);
            && s' == s.(leases := s'.leases, acct := s.acct.(activeLeases := s'.acct.activeLeases))
            && s'.leases.Keys == s.leases.Keys
            && forall l :: l in s.leases ==>
                 s'.leases[l] == if l in order then RevokedLease(s.leases[l], id) else s.leases[l]
  {
    hide RevokeLeases, RevokedLease;
    RevokeLeasesFrame(s, order, id);
    forall l | l in s.leases
      ensures RevokeLeases(s, order, id).leases[l] == if l in order then RevokedLease(s.leases[l], id) else s.leases[l]
    {
      RevokeLeasesAt(s, order, id, l);
    }
  }
}
