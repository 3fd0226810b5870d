/**
 * The runtime as an object: `Rdmabuffer::Impl` with its tables, counters and identity
 * counters updated in place. Every method is specified by the function of the model that
 * gives its effect on `Value`; what those functions keep is proved in the other modules.
 * A loop over a hash map takes the entries in any order, which the method reports.
 */
module Registry {
  import opened Bytes
  import opened Records
  import opened Checks
  import opened Words
  import opened BackendModel
  import opened Runtime
  import opened Synthetic
  import opened Worlds
  import opened Evolution
  import opened Recovery
  import opened Persistence
  import opened PersistenceIo
  import opened Tables
  import opened Decisions
  import opened Admission
  import R = Runtime
  import Digest

  class Rdmabuffer {
    var authority: AuthoritySnapshot
    const backend: SyntheticBackend
    var attached: bool
    var domains: map<nat, DomainEntry>
    var buffers: map<nat, BufferEntry>
    var registrations: map<nat, RegistrationRecord>
    var activeFor: map<nat, nat>
    var leases: map<nat, Lease>
    var acct: Accounting
    var nextBuffer: nat
    var nextRegistration: nat
    var nextDomain: nat
    var nextLease: nat

    function Value(): State
      reads this
    {
      State(authority, attached, domains, buffers, registrations, activeFor, leases, acct,
            nextBuffer, nextRegistration, nextDomain, nextLease)
    }

    /** A runtime to which `b` has not been added yet. */
    constructor (b: SyntheticBackend)
      ensures Value() == Empty && backend == b
    {
      backend := b;
      authority, attached, acct := NO_AUTHORITY, false, CLEAN;
      domains, buffers, registrations, activeFor, leases := map[], map[], map[], map[], map[];
      nextBuffer, nextRegistration, nextDomain, nextLease := 1, 1, 1, 1;
    }

    // ---- authority and backends -----------------------------------------------------------

    method SetAuthority(snap: AuthoritySnapshot)
      modifies this`authority
      ensures Value() == R.SetAuthority(old(Value()), snap)
    {
      authority := snap;
    }

    method AdvanceEpoch()
      modifies this`authority
      ensures Value() == R.AdvanceEpoch(old(Value()))
    {
      authority := authority.(epoch := authority.epoch + 1);
    }

    method NoteParticipantRestart()
      modifies this`authority, this`acct
      ensures Value() == NoteRestart(old(Value()))
    {
      authority := authority.(epoch := authority.epoch + 1);
      authority := authority.(workerBoot := authority.workerBoot + 1);
      acct := acct.(participantRestarts := acct.participantRestarts + 1);
    }

    method AddBackend() returns (ok: bool)
      modifies this`attached
      ensures ok == !old(attached) && Value() == R.AddBackend(old(Value()))
    {
      ok := !attached;
      attached := true;
    }

    // ---- domains ----------------------------------------------------------------------------

    method CreateProtectionDomain(node: nat, process: nat) returns (id: nat)
      modifies this
      ensures id == old(nextDomain) && Value() == CreateDomain(old(Value()), node, process)
    {
      id := nextDomain;
      nextDomain := nextDomain + 1;
      domains := domains[id := DomainEntry(UNKNOWN_DOMAIN, DOMAIN_ACTIVE, 1, node, process)];
      acct := acct.(protectionDomains := acct.protectionDomains + 1);
    }

    method AccountRegistrationInvalidate(rec: RegistrationRecord)
      modifies this`acct
      ensures acct == AccountInvalidate(old(acct), rec)
    {
      acct := acct.(activeRegistrations := Decrement(acct.activeRegistrations, 1));
      acct := acct.(registeredBytes := Decrement(acct.registeredBytes, rec.length));
      if rec.domain.HOST_PINNED? {
        acct := acct.(pinnedBytes := Decrement(acct.pinnedBytes, rec.length));
      }
      acct := acct.(localKeys := Decrement(acct.localKeys, 1));
      acct := acct.(remoteKeys := Decrement(acct.remoteKeys, 1));
    }

    method AccountRegistrationCommit(rec: RegistrationRecord)
      modifies this`acct
      ensures acct == AccountCommit(old(acct), rec)
    {
      acct := acct.(activeRegistrations := acct.activeRegistrations + 1);
      acct := acct.(registeredBytes := acct.registeredBytes + rec.length);
      if rec.domain.HOST_PINNED? {
        acct := acct.(pinnedBytes := acct.pinnedBytes + rec.length);
      }
      acct := acct.(localKeys := acct.localKeys + 1);
      acct := acct.(remoteKeys := acct.remoteKeys + 1);
    }

    /** The body of both bulk loops: records that match are marked and their charge released. */
    method InvalidateMatching(c: Cause) returns (ghost order: seq<nat>)
      modifies this`registrations, this`acct
      ensures Enumerates(order, old(registrations))
      ensures Value() == InvalidateAll(old(Value()), order, c)
    {
      hide Matches, Invalidated, AccountInvalidate, InvalidateAll, Visiting;
      ghost var was := Value();
      order := [];
      var todo := registrations.Keys;
      VisitNone(todo);
      InvalidateNone(was, c);
      while todo != {}
        invariant Value() == InvalidateAll(was, order, c)
        invariant todo <= registrations.Keys == was.registrations.Keys && Visiting(order, todo, registrations.Keys)
        decreases |todo|
      {
        var id :| id in todo;
        VisitOne(order, todo, registrations.Keys, id);
        InvalidateNext(was, order, c, id);
        todo, order := todo - {id}, order + [id];
        if Matches(registrations[id], c) {
          var rec := Invalidated(registrations[id], c);
          registrations := registrations[id := rec];
          AccountRegistrationInvalidate(rec);
        }
      }
      VisitAll(order, was.registrations);
    }

    method DestroyProtectionDomain(d: nat) returns (ok: bool, ghost order: seq<nat>)
      modifies this
      ensures ok == (d in old(domains)) && (ok ==> Enumerates(order, old(registrations)))
      ensures Value() == DestroyDomain(old(Value()), d, order)
    {
      hide InvalidateAll, Enumerates;
      if d !in domains {
        return false, [];
      }
      ghost var was := Value();
      order := InvalidateMatching(DomainDestroyed(d));
      InvalidateAllFrame(was, order, DomainDestroyed(d));
      var e := domains[d];
      domains := domains[d := e.(state := DESTROYED, generation := e.generation + 1)];
      acct := acct.(protectionDomains := Decrement(acct.protectionDomains, 1));
      ok := true;
    }

    // ---- buffers --------------------------------------------------------------------------------

    /** Zero is returned for a duplicate identity or a regressed generation. */
    method CreateBuffer(d: BufferDescriptor) returns (id: nat, ghost order: seq<nat>)
      modifies this
      ensures CreateRefused(old(Value()), d) ==> id == 0
      ensures !CreateRefused(old(Value()), d) ==> id == BufferKey(old(Value()), d)
      ensures Enumerates(order, old(registrations)) || order == []
      ensures Value() == R.CreateBuffer(old(Value()), d, order)
    {
      hide InvalidateAll, Enumerates;
      order := [];
      id := d.id;
      if d.id == 0 {
        id := nextBuffer;
        nextBuffer := nextBuffer + 1;
      }
      if id in buffers {
        var current := buffers[id].descriptor;
        if d.generation == current.generation {
          return 0, [];
        }
        if d.generation < current.generation {
          return 0, [];
        }
        ghost var was := Value();
        order := InvalidateMatching(Reallocated(id));
        InvalidateAllFrame(was, order, Reallocated(id));
        if d.byteLength >= current.byteLength {
          acct := acct.(liveBufferBytes := acct.liveBufferBytes + (d.byteLength - current.byteLength));
        } else {
          acct := acct.(liveBufferBytes := Decrement(acct.liveBufferBytes, current.byteLength - d.byteLength));
        }
        buffers := buffers[id := BufferEntry(d, false)];
        return;
      }
      buffers := buffers[id := BufferEntry(d, false)];
      acct := acct.(logicalBuffers := acct.logicalBuffers + 1, liveBufferBytes := acct.liveBufferBytes + d.byteLength);
    }

    method HasBuffer(id: nat) returns (known: bool)
      ensures known == (id in buffers)
    {
      known := id in buffers;
    }

    // ---- registration -----------------------------------------------------------------------------

    /** register_buffer under its first lock: the checks in order, then a new identity. */
    method BeginRegistration(d: BufferDescriptor, id: nat, domain: nat, env: Envelope)
      returns (res: Result<RegistrationRecord, Miss>)
      requires Sized(d)
      modifies this`nextRegistration
      ensures match RegisterCheck(old(Value()), backend.Value(), d, id, domain, env)
              case Err(miss) => res == Err(miss) && Value() == old(Value())
              case Ok((s, rec)) => res == Ok(rec) && Value() == s
      ensures res.Ok? <==> Registers(old(Value()), backend.Value(), d, id, domain, env)
      ensures res.Err? ==> First(RegisterChecks(old(Value()), backend.Value(), d, id, domain, env)) == Some(res.error)
    {
      hide ValidateAuthority, ValidateRange, CanRegister, Registers, RegisterChecks, First;
      RegistersExact(Value(), backend.Value(), d, id, domain, env);
      RegisterTable(Value(), backend.Value(), d, id, domain, env);
      var current := ValidateAuthority(authority, env);
      if current != ALLOW {
        return Err(AUTHORITY(current));
      }
      if !attached || id != SYNTHETIC_ID {
        return Err(UNKNOWN_BACKEND);
      }
      if domain !in domains || domains[domain].state != DOMAIN_ACTIVE {
        return Err(DOMAIN_INVALID);
      }
      var range := ValidateRange(d);
      if range.Some? {
        return Err(INVALID_RANGE(range.value));
      }
      if d.id !in buffers {
        return Err(BUFFER_NOT_FOUND);
      }
      if buffers[d.id].descriptor.generation != d.generation {
        return Err(GENERATION_MISMATCH);
      }
      if d.id in activeFor {
        return Err(REGISTRATION_IN_FLIGHT);
      }
      var reason := backend.WhyNot(d);
      if reason.Some? {
        return Err(BACKEND_REJECTS(reason.value));
      }
      res := Ok(RegistrationRecord(
        nextRegistration, d.id, d.generation, 1, id, backend.generation, 0, 0, d.domain, UNKNOWN_TRANSPORT, 0,
        d.address, d.byteLength, d.alignment, env.owner, authority.process, authority.worker, env.workerBoot,
        authority.epoch, d.device, domain, 0, SYNTHETIC, FRESH_UNKNOWN, REGISTERING, 0, 0, 0, [], [], d,
        NO_REMOTE_KEY, NO_LOCAL_KEY, authority.policyGeneration));
      nextRegistration := nextRegistration + 1;
    }

    /** register_buffer under its second lock. */
    method CommitRegistration(begun: RegistrationRecord, g: Grant) returns (id: nat)
      modifies this`registrations, this`activeFor, this`acct
      ensures id == begun.id && Value() == RegisterCommit(old(Value()), begun, g)
    {
      hide AccountCommit;
      var rec := begun.(regionId := g.region, handle := g.handle);
      rec := rec.(start := g.base, length := g.length, grantedAccess := g.access);
      rec := rec.(localKey := LocalKey(g.localKeyId, rec.id, rec.registrationGeneration, authority.workerBoot,
                                       rec.backend, TCP_REFERENCE, g.access, g.opaqueValue, SYNTHETIC));
      rec := rec.(remoteKey := RemoteKey(g.remoteKeyId, rec.id, rec.registrationGeneration, g.keyGeneration,
                                         rec.bufferGeneration, authority.workerBoot, authority.process, rec.backend,
                                         TCP_REFERENCE, g.access, rec.start, rec.length, g.opaqueValue, false,
                                         SYNTHETIC));
      rec := rec.(provenance := SYNTHETIC, freshness := VALID, lifecycle := ACTIVE);
      AccountRegistrationCommit(rec);
      registrations := registrations[rec.id := rec];
      activeFor := activeFor[rec.bufferId := rec.id];
      id := rec.id;
    }

    /** The whole call, with nothing in between. */
    method RegisterBuffer(d: BufferDescriptor, id: nat, domain: nat, env: Envelope) returns (res: Result<nat, Miss>)
      requires Sized(d)
      modifies this, backend
      ensures var w := RegisterCall(World(old(Value()), old(backend.Value()), map[], map[]), d, id, domain, env);
              Value() == w.s && backend.Value() == w.b
      ensures match RegisterMiss(old(Value()), old(backend.Value()), d, id, domain, env)
              case Some(miss) => res == Err(miss)
              case None => res == Ok(old(nextRegistration))
    {
      hide ValidateAuthority, ValidateRange, CanRegister, GrantFor, CommittedRecord, AccountCommit;
      if RegisterMiss(Value(), backend.Value(), d, id, domain, env).None? {
        CheckedFirst(Value(), backend.Value(), d, id, domain, env);
      }
      var rec :- BeginRegistration(d, id, domain, env);
      var granted := backend.Register(d);
      match granted
      case Err(reason) =>
        return Err(BACKEND_REJECTS(reason));
      case Ok(g) =>
        var made := CommitRegistration(rec, g);
        res := Ok(made);
    }

    /** register_buffer_reuse: the one candidate the index names, or the first reason against it. */
    method RegisterBufferReuse(d: BufferDescriptor, id: nat, domain: nat, env: Envelope)
      returns (res: Result<nat, ReuseMiss>)
      modifies this`acct
      ensures res == Reuse(old(Value()), d, id, domain, env) && Value() == ReuseCounted(old(Value()), res)
      ensures match First(ReuseChecks(old(Value()), d, id, domain, env))
              case Some(miss) => res == Err(miss)
              case None => HasCandidate(old(Value()), d.id) && res == Ok(old(registrations[activeFor[d.id]].id))
    {
      hide ValidateAuthority, Superset, ReuseChecks;
      ReuseTable(Value(), d, id, domain, env);
      var current := ValidateAuthority(authority, env);
      if current != ALLOW {
        return Err(REUSE_AUTHORITY(current));
      }
      if d.id !in activeFor {
        return Err(NO_CANDIDATE);
      }
      if activeFor[d.id] !in registrations {
        return Err(NO_CANDIDATE);
      }
      var cand := registrations[activeFor[d.id]];
      var miss := FirstMismatch(d, cand, id, domain, env);
      if miss.Some? {
        acct := acct.(reuseMisses := acct.reuseMisses + 1);
        return Err(miss.value);
      }
      acct := acct.(reuseHits := acct.reuseHits + 1);
      res := Ok(cand.id);
    }

    method FirstMismatch(d: BufferDescriptor, cand: RegistrationRecord, id: nat, domain: nat, env: Envelope)
      returns (miss: Option<ReuseMiss>)
      ensures miss == ReuseMissReason(d, cand, id, domain, env) == First(CandidateChecks(d, cand, id, domain, env))
    {
      hide Superset, CandidateChecks, First;
      CandidateTable(d, cand, id, domain, env);
      if cand.bufferId != d.id { return Some(BUFFER_MISMATCH); }
      if cand.bufferGeneration != d.generation { return Some(BUFFER_GENERATION_CHANGED); }
      if cand.domain != d.domain { return Some(MEMORY_DOMAIN_MISMATCH); }
      if cand.backend != id { return Some(BACKEND_MISMATCH); }
      if cand.domainId != domain { return Some(DOMAIN_MISMATCH); }
      if !Superset(cand.grantedAccess, d.requestedAccess) { return Some(RIGHTS_NOT_GRANTED); }
      if cand.lifecycle != ACTIVE && cand.lifecycle != REGISTERED { return Some(NOT_ACTIVE); }
      if cand.boot != env.workerBoot { return Some(BOOT_MISMATCH); }
      if cand.freshness != VALID { return Some(NOT_FRESH); }
      if !cand.remoteKey.revoked && cand.remoteKey.id == 0 { return Some(KEY_ABSENT); }
      miss := None;
    }

    // ---- leases ------------------------------------------------------------------------------------

    /** The reasons not to lease, in their order. */
    method LeaseCheck(id: nat, env: Envelope, needed: Mask) returns (miss: Option<LeaseMiss>)
      ensures miss == LeaseMissReason(Value(), id, env, needed) == First(LeaseChecks(Value(), id, env, needed))
    {
      hide ValidateAuthority, Superset, LeaseChecks, First;
      LeaseTable(Value(), id, env, needed);
      var current := ValidateAuthority(authority, env);
      if current != ALLOW {
        return Some(LEASE_AUTHORITY(current));
      }
      if id !in registrations {
        return Some(LEASE_NOT_FOUND);
      }
      var rec := registrations[id];
      if rec.lifecycle != ACTIVE && rec.lifecycle != REGISTERED {
        return Some(LEASE_LIFECYCLE);
      }
      if !Superset(rec.grantedAccess, needed) {
        return Some(LEASE_RIGHTS);
      }
      if rec.freshness != VALID {
        return Some(LEASE_FRESHNESS);
      }
      miss := None;
    }

    method AcquireLease(id: nat, env: Envelope, needed: Mask) returns (res: Result<Lease, LeaseMiss>)
      modifies this
      ensures Value() == R.AcquireLease(old(Value()), id, env, needed)
      ensures match LeaseMissReason(old(Value()), id, env, needed)
              case Some(miss) => res == Err(miss)
              case None => res == Ok(GrantedLease(old(Value()), id, env, needed))
      ensures res.Ok? <==> Leasable(old(Value()), id, env, needed)
      ensures res.Ok? ==> LeaseOn(res.value, id, old(registrations[id]), env, needed)
    {
      hide LeaseMissReason, Leasable;
      LeaseExact(Value(), id, env, needed);
      if LeaseMissReason(Value(), id, env, needed).None? {
        CanLease(Value(), id, env, needed);
      }
      var miss := LeaseCheck(id, env, needed);
      if miss.Some? {
        return Err(miss.value);
      }
      var rec := registrations[id];
      var ls := Lease(nextLease, id, rec.registrationGeneration, rec.leaseCount + 1, rec.bufferGeneration,
                      env.workerBoot, env.owner, rec.domainId, needed, LEASE_ACTIVE, rec.provenance);
      nextLease := nextLease + 1;
      leases := leases[ls.id := ls];
      registrations := registrations[id := rec.(leaseCount := rec.leaseCount + 1)];
      acct := acct.(activeLeases := acct.activeLeases + 1);
      res := Ok(ls);
    }

    method ReleaseLease(lease: nat) returns (ok: bool)
      modifies this
      ensures ok == Releasable(old(Value()), lease) && Value() == R.ReleaseLease(old(Value()), lease)
    {
      if lease !in leases {
        return false;
      }
      if leases[lease].state == RELEASED {
        return false;
      }
      var id := leases[lease].registration;
      leases := leases[lease := leases[lease].(state := RELEASED)];
      if id in registrations {
        var rec := registrations[id];
        if rec.leaseCount > 0 {
          registrations := registrations[id := rec.(leaseCount := rec.leaseCount - 1)];
        }
      }
      acct := acct.(activeLeases := Decrement(acct.activeLeases, 1));
      ok := true;
    }

    // ---- remote access -----------------------------------------------------------------------------

    /** Count a decision, as the code's `decision` helper does. */
    method CountRejection(o: AccessOutcome)
      requires o != ALLOW
      modifies this`acct
      ensures forall q :: acct == AccessAccounting(old(acct), o, q)
    {
      acct := acct.(failedAccessAttempts := acct.failedAccessAttempts + 1);
      if StaleOutcome(o) {
        acct := acct.(staleAccessRejections := acct.staleAccessRejections + 1);
      }
    }

    method StatusCheck(rec: RegistrationRecord) returns (o: AccessOutcome)
      ensures o == StatusOutcome(rec)
    {
      if rec.lifecycle == REVOKED || rec.lifecycle == DEREGISTERED || rec.lifecycle == STALE {
        return REJECT_REVOKED;
      }
      if rec.lifecycle == REVOKING {
        return REJECT_REVOKED;
      }
      if rec.freshness != VALID {
        return REJECT_STALE_REGISTRATION;
      }
      o := ALLOW;
    }

    method CurrencyCheck(rec: RegistrationRecord, q: Request) returns (o: AccessOutcome)
      ensures o == CurrencyOutcome(Value(), backend.Value(), rec, q)
    {
      if q.expectedRegistrationGeneration != 0 && q.expectedRegistrationGeneration != rec.registrationGeneration {
        return REJECT_STALE_REGISTRATION;
      }
      if q.expectedBufferGeneration != 0 && q.expectedBufferGeneration != rec.bufferGeneration {
        return REJECT_STALE_BUFFER;
      }
      if q.expectedKeyGeneration != 0 && q.expectedKeyGeneration != rec.remoteKey.keyGeneration {
        return REJECT_STALE_KEY;
      }
      if rec.remoteKey.revoked {
        return REJECT_STALE_KEY;
      }
      if q.backend != 0 && q.backend != rec.backend {
        return REJECT_BACKEND;
      }
      if !attached || rec.backend != SYNTHETIC_ID || backend.generation != rec.backendGeneration {
        return REJECT_BACKEND;
      }
      if q.transport != 0 && q.transport != rec.transport {
        return REJECT_TRANSPORT;
      }
      if q.domain != 0 && q.domain != rec.domainId {
        return REJECT_DOMAIN;
      }
      o := ALLOW;
    }

    method GrantCheck(rec: RegistrationRecord, q: Request) returns (o: AccessOutcome)
      requires Ranged(q)
      ensures o == GrantOutcome(backend.Value(), rec, q)
    {
      hide Superset, Has, RangeInside;
      if !Superset(rec.grantedAccess, q.requiredRights) {
        return REJECT_PERMISSION;
      }
      var intrinsic := REMOTE_ATOMIC;
      if q.kind == WRITE {
        intrinsic := REMOTE_WRITE;
      } else if q.kind == READ {
        intrinsic := REMOTE_READ;
      }
      if !Has(rec.grantedAccess, intrinsic) {
        return REJECT_PERMISSION;
      }
      if q.kind == ATOMIC_COMPARE_SWAP && Has(q.requiredRights, REMOTE_ATOMIC) && !backend.profile.atomic {
        return REJECT_UNKNOWN_CAPABILITY;
      }
      if !RangeInside(rec.descriptor, q.offset, q.length) {
        return REJECT_RANGE;
      }
      o := ALLOW;
    }

    /** The runtime's own checks in their order, without the counting; and the one rejection that is never counted. */
    method OwnChecks(q: Request) returns (o: AccessOutcome, uncounted: bool)
      requires Ranged(q)
      ensures o == RuntimeOutcome(Value(), backend.Value(), q)
      ensures uncounted == Uncounted(Value(), q)
    {
      hide ValidateAuthority, StatusOutcome, CurrencyOutcome, GrantOutcome;
      if q.registration !in registrations {
        return REJECT_NOT_REGISTERED, false;
      }
      var rec := registrations[q.registration];
      uncounted := false;
      o := StatusCheck(rec);
      if o != ALLOW {
        return;
      }
      o := ValidateAuthority(authority, q.authority);
      if o != ALLOW {
        return o, true;
      }
      o := CurrencyCheck(rec, q);
      if o != ALLOW {
        return;
      }
      o := GrantCheck(rec, q);
    }

    method ValidateRemoteAccess(q: Request) returns (o: AccessOutcome)
      requires Ranged(q)
      modifies this`acct
      ensures o == Access(old(Value()), backend.Value(), q) == Answer(Conditions(old(Value()), backend.Value(), q))
      ensures Value() == AccessCounted(old(Value()), backend.Value(), q)
    {
      hide ValidateAuthority, RuntimeOutcome, QueryRemoteAccess, AccessAccounting, Uncounted, Conditions, Answer;
      AccessTable(Value(), backend.Value(), q);
      var uncounted;
      o, uncounted := OwnChecks(q);
      if o == ALLOW {
        RuntimeAllowed(Value(), backend.Value(), q);
        var rec := registrations[q.registration];
        o := backend.Query(rec.handle, rec.remoteKey.keyGeneration, q.kind, q.offset, q.length);
      }
      if uncounted {
        return;
      }
      if o != ALLOW {
        CountRejection(o);
      } else {
        CountCompletion(q);
      }
    }

    method CountCompletion(q: Request)
      modifies this`acct
      ensures acct == AccessAccounting(old(acct), ALLOW, q)
    {
      if q.kind == WRITE {
        acct := acct.(remoteWriteBytes := acct.remoteWriteBytes + q.length);
      } else if q.kind == READ {
        acct := acct.(remoteReadBytes := acct.remoteReadBytes + q.length);
      } else if q.kind == ATOMIC_COMPARE_SWAP {
        acct := acct.(atomicOperations := acct.atomicOperations + 1);
      }
    }

    // ---- revocation and rotation ------------------------------------------------------------------------

    /** The loop over the leases of a hard revocation. */
    method RevokeActiveLeases(id: nat) returns (ghost order: seq<nat>)
      modifies this`leases, this`acct
      ensures Enumerates(order, old(leases))
      ensures Value() == RevokeLeases(old(Value()), order, id)
    {
      hide RevokeLeases, Visiting;
      ghost var was := Value();
      order := [];
      var todo := leases.Keys;
      VisitNone(todo);
      RevokeNone(was, id);
      while todo != {}
        invariant Value() == RevokeLeases(was, order, id)
        invariant todo <= leases.Keys == was.leases.Keys && Visiting(order, todo, leases.Keys)
        decreases |todo|
      {
        var l :| l in todo;
        VisitOne(order, todo, leases.Keys, l);
        RevokeNext(was, order, id, l);
        todo, order := todo - {l}, order + [l];
        if leases[l].registration == id && leases[l].state == LEASE_ACTIVE {
          leases := leases[l := leases[l].(state := LEASE_REVOKED)];
          acct := acct.(activeLeases := Decrement(acct.activeLeases, 1));
        }
      }
      VisitAll(order, was.leases);
    }

    /** What a revocation reports: the lifecycle reached and whether the keys are dead. */
    method Revoke(id: nat, hard: bool) returns (res: Option<(Lifecycle, bool)>, ghost order: seq<nat>)
      modifies this
      ensures res.Some? == Revocable(old(Value()), id)
      ensures hard ==> Value() == HardRevoke(old(Value()), id, order)
      ensures !hard ==> Value() == R.SoftRevoke(old(Value()), id)
      ensures hard && res.Some? ==> Enumerates(order, old(leases)) && res.value == (REVOKED, true)
      ensures !hard && res.Some? ==> res.value == (registrations[id].lifecycle, false)
    {
      hide RevokeLeases, Enumerates;
      order := [];
      if id !in registrations {
        return None, [];
      }
      var rec := registrations[id];
      if rec.lifecycle != ACTIVE && rec.lifecycle != REGISTERED {
        return None, [];
      }
      if hard {
        var key := rec.remoteKey;
        var dead := rec.(lifecycle := REVOKED, freshness := FRESH_STALE, reason := HARD_REASON,
                         remoteKey := key.(keyGeneration := key.keyGeneration + 1, revoked := true));
        registrations := registrations[id := dead];
        ghost var was := Value();
        order := RevokeActiveLeases(id);
        RevokeLeasesFrame(was, order, id);
        activeFor := activeFor - {rec.bufferId};
        acct := acct.(revocations := acct.revocations + 1);
        res := Some((REVOKED, true));
      } else {
        var next := REVOKING;
        if rec.leaseCount == 0 {
          next := REVOKED;
          acct := acct.(revocations := acct.revocations + 1);
        }
        registrations := registrations[id := rec.(lifecycle := next, freshness := FRESH_STALE, reason := SOFT_REASON)];
        res := Some((next, false));
      }
    }

    method RotateKey(id: nat) returns (ok: bool)
      modifies this, backend
      ensures ok == Revocable(old(Value()), id)
      ensures (Value(), backend.Value()) == RotateRegistration(old(Value()), old(backend.Value()), id)
      ensures ok ==> && id in registrations
                     && registrations[id].remoteKey.keyGeneration == old(registrations[id].remoteKey.keyGeneration) + 1
      ensures ok && attached && registrations[id].backend == SYNTHETIC_ID && registrations[id].handle != []
              && registrations[id].handle in backend.entries ==>
                backend.entries[registrations[id].handle].keyGeneration == registrations[id].remoteKey.keyGeneration
    {
      hide Xor64;
      if id !in registrations {
        return false;
      }
      var rec := registrations[id];
      if rec.lifecycle != ACTIVE && rec.lifecycle != REGISTERED {
        return false;
      }
      var key := rec.remoteKey;
      key := key.(keyGeneration := key.keyGeneration + 1);
      key := key.(revoked := false);
      key := key.(opaqueValue := Xor64(key.opaqueValue, ROTATION_MASK));
      registrations := registrations[id := rec.(remoteKey := key)];
      if attached && rec.backend == SYNTHETIC_ID && rec.handle != [] {
        var _ := backend.Rotate(rec.handle, key.keyGeneration);
      }
      ok := true;
    }

    // ---- deregistration -----------------------------------------------------------------------------------

    /** deregister under its first lock: the backend and handle to release, if it may proceed. */
    method BeginDeregistration(id: nat) returns (res: Option<(nat, Text)>)
      modifies this`registrations
      ensures res.Some? == MayDeregister(old(Value()), id)
      ensures res.None? ==> Value() == old(Value())
      ensures res.Some? ==> Value() == DeregisterCheck(old(Value()), id)
                            && res.value == (old(registrations)[id].backend, old(registrations)[id].handle)
    {
      if id !in registrations {
        return None;
      }
      var rec := registrations[id];
      if rec.leaseCount > 0 {
        return None;
      }
      if rec.lifecycle != ACTIVE && rec.lifecycle != REGISTERED && rec.lifecycle != REVOKED
         && rec.lifecycle != STALE && rec.lifecycle != REVALIDATION_REQUIRED {
        return None;
      }
      registrations := registrations[id := rec.(lifecycle := DEREGISTERING)];
      res := Some((rec.backend, rec.handle));
    }

    /** Between the locks: true when the backend released the handle or there is none to ask. */
    method ReleaseBackend(id: nat, handle: Text) returns (ok: bool)
      modifies backend
      ensures ok == DeregisterBackend(Value(), old(backend.Value()), id, handle).Some?
      ensures backend.Value() == if ok then DeregisterBackend(Value(), old(backend.Value()), id, handle).value
                                 else old(backend.Value())
    {
      ok := true;
      if id != 0 && attached && id == SYNTHETIC_ID {
        ok := backend.Deregister(handle);
      }
    }

    method FailDeregistration(id: nat)
      modifies this`registrations
      ensures Value() == DeregisterFail(old(Value()), id)
    {
      if id in registrations {
        registrations := registrations[id := registrations[id].(lifecycle := FAILED)];
      }
    }

    /** deregister under its second lock: the charge, the record, then the two erasing loops. */
    method CommitDeregistration(id: nat) returns (ok: bool)
      modifies this
      ensures ok == (id in old(registrations)) && Value() == DeregisterCommit(old(Value()), id)
    {
      hide AccountInvalidate;
      if id !in registrations {
        return false;
      }
      var rec := registrations[id];
      AccountRegistrationInvalidate(rec);
      registrations := registrations - {id};
      EraseIndex(id);
      EraseLeases(id);
      acct := acct.(deregistrations := acct.deregistrations + 1);
      ok := true;
    }

    method EraseIndex(id: nat)
      modifies this`activeFor
      ensures activeFor == old(activeFor) - Naming(old(activeFor), id)
    {
      var todo := activeFor.Keys;
      while todo != {}
        invariant todo <= old(activeFor).Keys
        invariant activeFor == old(activeFor) - (Naming(old(activeFor), id) - todo)
        decreases |todo|
      {
        var k :| k in todo;
        todo := todo - {k};
        if activeFor[k] == id {
          activeFor := activeFor - {k};
        }
      }
    }

    method EraseLeases(id: nat)
      modifies this`leases
      ensures leases == old(leases) - LeasesOf(old(leases), id)
    {
      var todo := leases.Keys;
      while todo != {}
        invariant todo <= old(leases).Keys
        invariant leases == old(leases) - (LeasesOf(old(leases), id) - todo)
        decreases |todo|
      {
        var l :| l in todo;
        todo := todo - {l};
        if leases[l].registration == id {
          leases := leases - {l};
        }
      }
    }

    /** The whole call, with nothing in between. */
    method Deregister(id: nat) returns (ok: bool)
      modifies this, backend
      ensures var w := DeregisterCall(World(old(Value()), old(backend.Value()), map[], map[]), id);
              Value() == w.s && backend.Value() == w.b
      ensures ok ==> MayDeregister(old(Value()), id) && id !in registrations
    {
      hide DeregisterCommit, DeregisterFail, Release;
      var begun := BeginDeregistration(id);
      if begun.None? {
        return false;
      }
      var released := ReleaseBackend(begun.value.0, begun.value.1);
      if !released {
        FailDeregistration(id);
        return false;
      }
      CommitErases(Value(), id);
      ok := CommitDeregistration(id);
    }

    // ---- save and recover -------------------------------------------------------------------------------------

    method RevocationHistory(order: seq<nat>) returns (ts: seq<Text>)
      requires forall id :: id in order ==> id in registrations
      ensures ts == Reasons(Value(), order)
    {
      ts := [];
      for i := 0 to |order|
        invariant ts == Reasons(Value(), order[..i])
      {
        assert order[..i + 1][..i] == order[..i];
        var reason := registrations[order[i]].reason;
        if reason != [] {
          ts := ts + [reason];
        }
      }
      assert order[..|order|] == order;
    }

    /** The blob that save writes to its file. */
    method Save() returns (blob: seq<byte>, ghost o: Orders)
      ensures Visits(o, Value())
      ensures blob == Blob(Saved(Value(), backend.Value(), o))
    {
      hide Blob, DescriptorsIn, RecordsIn, RemoteKeysIn, LocalKeysIn, Reasons, Summaries, Enumerates;
      var byBuffer := Order(buffers);
      var byRegistration := Order(registrations);
      var byDomain := Order(domains);
      o := Orders(byBuffer, byRegistration, byDomain);
      EnumeratedKeys(byBuffer, buffers);
      EnumeratedKeys(byRegistration, registrations);
      var history := RevocationHistory(byRegistration);
      var p := PersistableState(
        FORMAT_VERSION, DescriptorsIn(buffers, byBuffer), RecordsIn(registrations, byRegistration), byDomain,
        RemoteKeysIn(registrations, byRegistration), LocalKeysIn(registrations, byRegistration),
        history, acct, Summaries(Value(), backend.Value()), authority, authority.policyGeneration);
      blob := Serialize(p);
    }

    /** Known buffers are kept, unknown ones added and counted. */
    method RecoverBufferTable(ds: seq<BufferDescriptor>) returns (added: nat)
      modifies this`buffers, this`acct
      ensures Value() == RecoverBuffers(old(Value()), ds)
      ensures added == |buffers| - |old(buffers)|
    {
      added := 0;
      ghost var was := Value();
      for i := 0 to |ds|
        invariant Value() == RecoverBuffers(was, ds[..i])
        invariant |buffers| == |was.buffers| + added
      {
        assert ds[..i + 1][..i] == ds[..i];
        var d := ds[i];
        if d.id !in buffers {
          buffers := buffers[d.id := BufferEntry(d, false)];
          acct := acct.(logicalBuffers := acct.logicalBuffers + 1, liveBufferBytes := acct.liveBufferBytes + d.byteLength);
          added := added + 1;
        }
      }
      assert ds[..|ds|] == ds;
    }

    method RecoverDomainTable(ds: seq<nat>) returns (added: nat)
      modifies this`domains, this`acct
      ensures Value() == RecoverDomains(old(Value()), ds)
      ensures added == |domains| - |old(domains)|
    {
      added := 0;
      ghost var was := Value();
      for i := 0 to |ds|
        invariant Value() == RecoverDomains(was, ds[..i])
        invariant |domains| == |was.domains| + added
      {
        assert ds[..i + 1][..i] == ds[..i];
        if ds[i] !in domains {
          domains := domains[ds[i] := DomainEntry(UNKNOWN_DOMAIN, DOMAIN_ACTIVE, 1, 0, 0)];
          acct := acct.(protectionDomains := acct.protectionDomains + 1);
          added := added + 1;
        }
      }
      assert ds[..|ds|] == ds;
    }

    method RecoverRegistrationTable(rs: seq<RegistrationRecord>)
      modifies this`registrations
      ensures Value() == RecoverRegistrations(old(Value()), rs)
    {
      hide Parked;
      ghost var was := Value();
      for i := 0 to |rs|
        invariant Value() == RecoverRegistrations(was, rs[..i])
      {
        assert rs[..i + 1][..i] == rs[..i];
        registrations := registrations[rs[i].id := Parked(rs[i])];
      }
      assert rs[..|rs|] == rs;
    }

    /** recover, given the bytes of the file or none if it cannot be opened; the report carries the text that is digested. */
    method RecoverFrom(file: Option<seq<byte>>) returns (res: Result<RecoveryReport, RecoveryError>)
      modifies this
      ensures file.None? ==> res == Err(IO_ERROR_OPEN) && Value() == old(Value())
      ensures file.Some? ==>
                match Accept(file.value)
                case Err(e) => res == Err(Rejected(e)) && Value() == old(Value())
                case Ok(p) =>
                  && Value() == Recover(old(Value()), p)
                  && |old(buffers)| <= |buffers| && |old(domains)| <= |domains|
                  && res == Ok(Report(|buffers| - |old(buffers)|, |domains| - |old(domains)|, p))
    {
      hide Accept, RecoverBuffers, RecoverDomains, RecoverRegistrations, Report;
      if file.None? {
        return Err(IO_ERROR_OPEN);
      }
      var parsed := Parse(file.value);
      if parsed.Err? {
        return Err(Rejected(parsed.error));
      }
      var p := parsed.value;
      var newBuffers := RecoverBufferTable(p.buffers);
      ghost var s1 := Value();
      RecoverBuffersFrame(old(Value()), p.buffers);
      var newDomains := RecoverDomainTable(p.domains);
      RecoverDomainsFrame(s1, p.domains);
      ghost var s2 := Value();
      RecoverRegistrationTable(p.registrations);
      RecoverRegistrationsFrame(s2, p.registrations);
      authority := p.authority;
      res := Ok(Report(newBuffers, newDomains, p));
    }
  }

  datatype RecoveryReport = RecoveryReport(buffers: nat, domains: nat, registrations: nat, digested: Text)

  function Report(newBuffers: nat, newDomains: nat, p: PersistableState): RecoveryReport {
    RecoveryReport(newBuffers, newDomains, |p.registrations|, Digest.DigestText(p))
  }

  datatype RecoveryError = IO_ERROR_OPEN | Rejected(error: FormatError)

  // ---- visiting a table in some order ---------------------------------------------------------------------------

  /** The keys visited so far are those no longer to do, each once. */
  ghost predicate Visiting(order: seq<nat>, todo: set<nat>, keys: set<nat>) {
    && (forall k :: k in order <==> k in keys && k !in todo)
    && (forall i, j :: 0 <= i < j < |order| ==> order[i] != order[j])
  }

  lemma VisitNone(keys: set<nat>)
    ensures Visiting([], keys, keys)
  {
  }

  lemma VisitOne(order: seq<nat>, todo: set<nat>, keys: set<nat>, k: nat)
    requires Visiting(order, todo, keys) && k in todo && k in keys
    ensures Visiting(order + [k], todo - {k}, keys)
  {
  }

  lemma VisitAll<V>(order: seq<nat>, m: map<nat, V>)
    requires Visiting(order, {}, m.Keys)
    ensures Enumerates(order, m)
  {
  }

  lemma InvalidateNone(s: State, c: Cause)
    ensures InvalidateAll(s, [], c) == s
  {
  }

  lemma InvalidateNext(s: State, order: seq<nat>, c: Cause, id: nat)
    ensures InvalidateAll(s, order + [id], c) == Invalidate(InvalidateAll(s, order, c), id, c)
  {
    hide Invalidate;
    assert (order + [id])[..|order|] == order;
  }

  lemma RevokeNone(s: State, id: nat)
    ensures RevokeLeases(s, [], id) == s
  {
  }

  lemma RevokeNext(s: State, order: seq<nat>, id: nat, l: nat)
    ensures RevokeLeases(s, order + [l], id) == RevokeLease(RevokeLeases(s, order, id), l, id)
  {
    hide RevokeLease;
    assert (order + [l])[..|order|] == order;
  }

  /** Some order in which a hash map gives its entries. */
  method Order<V>(m: map<nat, V>) returns (order: seq<nat>)
    ensures Enumerates(order, m)
  {
    order := [];
    var todo := m.Keys;
    while todo != {}
      invariant todo <= m.Keys && Visiting(order, todo, m.Keys)
      decreases |todo|
    {
      var k :| k in todo;
      VisitOne(order, todo, m.Keys, k);
      todo, order := todo - {k}, order + [k];
    }
  }

  lemma EnumeratedKeys<V>(order: seq<nat>, m: map<nat, V>)
    requires Enumerates(order, m)
    ensures forall k :: k in order ==> k in m
  {
  }

  lemma CommitErases(s: State, id: nat)
    ensures id !in DeregisterCommit(s, id).registrations
  {
    hide AccountInvalidate;
  }

  lemma RuntimeAllowed(s: State, b: Backend, q: Request)
    requires Ranged(q) && RuntimeOutcome(s, b, q) == ALLOW
    ensures q.registration in s.registrations
  {
  }
}
