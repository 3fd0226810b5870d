/**
 * When access is allowed, and why that is right. The invariants hold in every run of
 * whole operations, recovery and any call on the backend included.
 */
module Safety {
  import opened Bytes
  import opened Records
  import opened Checks
  import opened Words
  import opened BackendModel
  import opened Runtime
  import opened Recovery
  import opened Worlds
  import opened Evolution

  // ---- what holds of each record ---------------------------------------------------------------

  /** The single-flight index names `id` for its buffer. */
  predicate Indexed(s: State, id: nat, rec: RegistrationRecord) {
    id < s.nextRegistration && rec.bufferId in s.activeFor && s.activeFor[rec.bufferId] == id
  }

  /** The record's domain is active and its buffer is at the generation that was registered. */
  predicate Placed(s: State, rec: RegistrationRecord) {
    && rec.domainId in s.domains && s.domains[rec.domainId].state.DOMAIN_ACTIVE?
    && rec.bufferId in s.buffers && s.buffers[rec.bufferId].descriptor.generation == rec.bufferGeneration
  }

  /** The registered range is the descriptor's and ends below 2^64. */
  predicate Extent(rec: RegistrationRecord) {
    && Sized(rec.descriptor) && rec.start == rec.descriptor.address && rec.length == rec.descriptor.byteLength
    && 0 < rec.length && rec.start + rec.length < WORD_LIMIT
  }

  predicate ActiveSound(s: State, id: nat, rec: RegistrationRecord) {
    rec.lifecycle.ACTIVE? ==>
      Indexed(s, id, rec) && Placed(s, rec) && rec.freshness == VALID && !rec.remoteKey.revoked && rec.handle != []
  }

  /** A record that still claims to be valid is active, or has failed and lost its backend handle for good. */
  predicate ValidSound(b: Backend, rec: RegistrationRecord) {
    rec.freshness == VALID ==>
      Extent(rec) && (rec.lifecycle.ACTIVE? || (rec.lifecycle.FAILED? && rec.handle !in b.entries))
  }

  ghost predicate RecordSound(s: State, b: Backend, id: nat, rec: RegistrationRecord) {
    && rec.id == id && (Live(rec.lifecycle) ==> rec.lifecycle.ACTIVE?)
    && ActiveSound(s, id, rec) && ValidSound(b, rec)
    && (rec.handle == [] || Issued(b, rec.handle))
  }

  ghost predicate Sound(s: State, b: Backend) {
    && Inverse(b)
    && forall id :: id in s.registrations ==> RecordSound(s, b, id, s.registrations[id])
  }

  // ---- ALLOW is right ------------------------------------------------------------------------------

  /** Everything an allowed request is entitled to. */
  ghost predicate Entitled(s: State, b: Backend, q: Request) {
    && q.registration in s.registrations
    && var rec := s.registrations[q.registration];
       && rec.lifecycle == ACTIVE && rec.freshness == VALID && !rec.remoteKey.revoked
       && Indexed(s, q.registration, rec) && Placed(s, rec) && Current(s.authority, q.authority)
       && rec.backendGeneration == b.generation
       && rec.handle in b.entries && b.entries[rec.handle].keyGeneration == rec.remoteKey.keyGeneration
       && !b.entries[rec.handle].revoked && !b.entries[rec.handle].revalidate
       && Superset(rec.grantedAccess, q.requiredRights) && Has(rec.grantedAccess, RightFor(q.kind))
       && Has(b.entries[rec.handle].grant.access, RightFor(q.kind)) && Supports(b.profile, q.kind)
       && rec.start + q.offset + q.length <= rec.start + rec.length < WORD_LIMIT
       && (q.expectedKeyGeneration == 0 || q.expectedKeyGeneration == rec.remoteKey.keyGeneration)
       && (q.expectedBufferGeneration == 0 || q.expectedBufferGeneration == rec.bufferGeneration)
  }

  lemma AllowIsEntitled(s: State, b: Backend, q: Request)
    requires Sound(s, b) && Ranged(q) && Access(s, b, q) == ALLOW
    ensures Entitled(s, b, q)
  {
    hide ValidateAuthority, Superset, Has, Inverse, Issued, Indexed, Placed, Current;
    var rec := s.registrations[q.registration];
    assert RecordSound(s, b, q.registration, rec);
    AuthorityExact(s.authority, q.authority);
    RangeInsideExact(rec.descriptor, q.offset, q.length);
  }

  // ---- preservation --------------------------------------------------------------------------------

  /** Issued handles stay issued, and none of them comes back to life. */
  ghost predicate BackendKeeps(b: Backend, b': Backend) {
    Inverse(b') && forall h :: Issued(b, h) ==> Issued(b', h) && (h in b'.entries ==> h in b.entries)
  }

  /** `r` took the place of `rec` without becoming active, valid or differently placed. */
  predicate Weaker(rec: RegistrationRecord, r: RegistrationRecord) {
    && r.id == rec.id && r.handle == rec.handle && r.start == rec.start && r.length == rec.length
    && r.descriptor == rec.descriptor && (Live(r.lifecycle) ==> r.lifecycle.ACTIVE?)
    && (r.freshness == VALID ==> rec.freshness == VALID && (r.lifecycle == rec.lifecycle || r.lifecycle.ACTIVE?))
    && (r.lifecycle.ACTIVE? ==> rec.lifecycle.ACTIVE? && r.freshness == rec.freshness && r.bufferId == rec.bufferId
                                && r.bufferGeneration == rec.bufferGeneration && r.domainId == rec.domainId
                                && !r.remoteKey.revoked)
  }

  /** The index still names `id` and its place is still good, if it did and was before. */
  predicate StillPlaced(s: State, s': State, id: nat, rec: RegistrationRecord) {
    Indexed(s, id, rec) && Placed(s, rec) ==> Indexed(s', id, rec) && Placed(s', rec)
  }

  lemma Keeps(s: State, b: Backend, s': State, b': Backend, id: nat, rec: RegistrationRecord, r: RegistrationRecord)
    requires RecordSound(s, b, id, rec) && BackendKeeps(b, b') && Weaker(rec, r)
    requires r.lifecycle.ACTIVE? ==> StillPlaced(s, s', id, rec)
    ensures RecordSound(s', b', id, r)
  {
    hide Issued, Inverse;
    NoEmptyHandle(b');
  }

  lemma NoEmptyHandle(b: Backend)
    requires Inverse(b)
    ensures [] !in b.entries && 0 < b.nextNumber
  {
    hide Issued;
  }

  /** A step that at most weakens records. */
  lemma Carried(w: World, w': World)
    requires Sound(w.s, w.b) && BackendKeeps(w.b, w'.b)
    requires forall id :: id in w'.s.registrations ==>
               && id in w.s.registrations && Weaker(w.s.registrations[id], w'.s.registrations[id])
               && (w'.s.registrations[id].lifecycle.ACTIVE? ==> StillPlaced(w.s, w'.s, id, w.s.registrations[id]))
    ensures Sound(w'.s, w'.b)
  {
    hide RecordSound, Weaker, StillPlaced, Issued, Inverse;
    assert Inverse(w'.b);
    forall id | id in w'.s.registrations ensures RecordSound(w'.s, w'.b, id, w'.s.registrations[id]) {
      Keeps(w.s, w.b, w'.s, w'.b, id, w.s.registrations[id], w'.s.registrations[id]);
    }
  }

  /** A step that changes at most one record and keeps every place. */
  lemma CarriedOne(w: World, w': World, id: nat, r: RegistrationRecord)
    requires Sound(w.s, w.b) && BackendKeeps(w.b, w'.b)
    requires id in w.s.registrations && Weaker(w.s.registrations[id], r)
    requires w'.s.registrations == w.s.registrations[id := r] || w'.s.registrations == w.s.registrations
    requires w'.s.nextRegistration == w.s.nextRegistration && w'.s.activeFor == w.s.activeFor
    requires w'.s.domains == w.s.domains && w'.s.buffers == w.s.buffers
    ensures Sound(w'.s, w'.b)
  {
    hide BackendKeeps;
    forall k | k in w.s.registrations ensures Weaker(w.s.registrations[k], w.s.registrations[k]) {
      assert RecordSound(w.s, w.b, k, w.s.registrations[k]);
    }
    Carried(w, w');
  }

  lemma CarriedNone(w: World, w': World)
    requires Sound(w.s, w.b) && BackendKeeps(w.b, w'.b)
    requires w'.s.registrations == w.s.registrations
    requires forall id, rec :: StillPlaced(w.s, w'.s, id, rec)
    ensures Sound(w'.s, w'.b)
  {
    hide BackendKeeps, StillPlaced;
    forall k | k in w.s.registrations ensures Weaker(w.s.registrations[k], w.s.registrations[k]) {
      assert RecordSound(w.s, w.b, k, w.s.registrations[k]);
    }
    Carried(w, w');
  }

  lemma SameBackend(b: Backend)
    requires Inverse(b)
    ensures BackendKeeps(b, b)
  {
  }

  lemma CallKeeps(b: Backend, c: Call)
    requires Inverse(b) && Admissible(c) && Apply(b, c).nextNumber <= SEQUENCE_LIMIT
    ensures BackendKeeps(b, Apply(b, c))
  {
    hide Inverse, Issued, CanRegister, GrantFor;
    InverseKept(b, c);
    if c.DoRegister? && RegisterBuffer(b, c.d).Ok? {
      NoEmptyHandle(b);
      HandleIsNew(b, c.d);
    }
    forall h | Issued(b, h) ensures Issued(Apply(b, c), h) && (h in Apply(b, c).entries ==> h in b.entries) {
      IssuedStays(b, c, h);
    }
  }

  // ---- the operations, one by one ----------------------------------------------------------------------

  /** Invalidation in bulk: every record that stays active keeps its place. */
  lemma BulkKeeps(w: World, w': World, order: seq<nat>, c: Cause)
    requires Sound(w.s, w.b) && w'.b == w.b && Enumerates(order, w.s.registrations)
    requires w'.s.registrations == InvalidateAll(w.s, order, c).registrations
    requires forall id, rec :: Matches(rec, c) || !rec.lifecycle.ACTIVE? || StillPlaced(w.s, w'.s, id, rec)
    ensures Sound(w'.s, w'.b)
  {
    hide InvalidateAll, Invalidated, Matches, Weaker, StillPlaced;
    SameBackend(w.b);
    InvalidateAllEffect(w.s, order, c);
    forall id | id in w'.s.registrations
      ensures id in w.s.registrations && Weaker(w.s.registrations[id], w'.s.registrations[id])
      ensures w'.s.registrations[id].lifecycle.ACTIVE? ==> StillPlaced(w.s, w'.s, id, w.s.registrations[id])
    {
      WeakerSelf(w.s, w.b, id);
      InvalidatedWeaker(w.s.registrations[id], c);
    }
    Carried(w, w');
  }

  lemma WeakerSelf(s: State, b: Backend, id: nat)
    requires Sound(s, b) && id in s.registrations
    ensures Weaker(s.registrations[id], s.registrations[id])
  {
    assert RecordSound(s, b, id, s.registrations[id]);
  }

  lemma InvalidatedWeaker(rec: RegistrationRecord, c: Cause)
    ensures Weaker(rec, Invalidated(rec, c)) && !Invalidated(rec, c).lifecycle.ACTIVE?
  {
  }

  lemma DropDomainKeeps(w: World, d: nat, order: seq<nat>)
    requires Sound(w.s, w.b) && Enumerates(order, w.s.registrations)
    ensures Sound(DestroyDomain(w.s, d, order), w.b)
  {
    hide InvalidateAll, Sound, Enumerates;
    var w' := w.(s := DestroyDomain(w.s, d, order));
    if d in w.s.domains {
      InvalidateAllFrame(w.s, order, DomainDestroyed(d));
      BulkKeeps(w, w', order, DomainDestroyed(d));
    }
  }

  lemma ReallocationKeeps(w: World, d: BufferDescriptor, order: seq<nat>)
    requires Sound(w.s, w.b) && Enumerates(order, w.s.registrations)
    requires !CreateRefused(w.s, d) && BufferKey(w.s, d) in w.s.buffers
    ensures Sound(CreateBuffer(w.s, d, order), w.b)
  {
    hide InvalidateAll, Enumerates, Sound, Inverse, BackendKeeps, Decrement;
    var w' := w.(s := CreateBuffer(w.s, d, order));
    var key := BufferKey(w.s, d);
    var s0 := if d.id != 0 then w.s else w.s.(nextBuffer := w.s.nextBuffer + 1);
    InvalidateIgnores(w.s, s0, order, Reallocated(key));
    InvalidateAllFrame(w.s, order, Reallocated(key));
    BulkKeeps(w, w', order, Reallocated(key));
  }

  lemma NewBufferKeeps(w: World, d: BufferDescriptor, order: seq<nat>)
    requires Sound(w.s, w.b) && Enumerates(order, w.s.registrations)
    ensures Sound(CreateBuffer(w.s, d, order), w.b)
  {
    hide Enumerates, Sound, Inverse, BackendKeeps, InvalidateAll, Decrement;
    var w' := w.(s := CreateBuffer(w.s, d, order));
    InverseOf(w.s, w.b);
    SameBackend(w.b);
    if !CreateRefused(w.s, d) && BufferKey(w.s, d) in w.s.buffers {
      ReallocationKeeps(w, d, order);
    } else {
      CarriedNone(w, w');
    }
  }

  lemma LeasingKeeps(w: World, id: nat, env: Envelope, needed: Mask)
    requires Sound(w.s, w.b)
    ensures Sound(AcquireLease(w.s, id, env, needed), w.b)
  {
    hide ValidateAuthority, Superset, BackendKeeps, Sound, Inverse;
    InverseOf(w.s, w.b);
    SameBackend(w.b);
    var w' := w.(s := AcquireLease(w.s, id, env, needed));
    if LeaseMissReason(w.s, id, env, needed).None? {
      WeakerSelf(w.s, w.b, id);
      CarriedOne(w, w', id, w'.s.registrations[id]);
    }
  }

  lemma ReturningKeeps(w: World, lease: nat)
    requires Sound(w.s, w.b)
    ensures Sound(ReleaseLease(w.s, lease), w.b)
  {
    hide BackendKeeps, Sound, Inverse;
    InverseOf(w.s, w.b);
    SameBackend(w.b);
    var w' := w.(s := ReleaseLease(w.s, lease));
    if lease in w.s.leases && w.s.leases[lease].registration in w.s.registrations {
      var id := w.s.leases[lease].registration;
      WeakerSelf(w.s, w.b, id);
      CarriedOne(w, w', id, w'.s.registrations[id]);
    } else {
      CarriedNone(w, w');
    }
  }

  lemma RevokingKeeps(w: World, id: nat, order: seq<nat>)
    requires Sound(w.s, w.b)
    ensures Sound(HardRevoke(w.s, id, order), w.b)
  {
    hide RevokeLeases, BackendKeeps, Inverse, Issued;
    SameBackend(w.b);
    var w' := w.(s := HardRevoke(w.s, id, order));
    if Revocable(w.s, id) {
      var r := RevokedRecord(w.s.registrations[id]);
      RevokeLeasesFrame(w.s.(registrations := w.s.registrations[id := r]), order, id);
      assert RecordSound(w.s, w.b, id, w.s.registrations[id]);
      forall k | k in w'.s.registrations
        ensures Weaker(w.s.registrations[k], w'.s.registrations[k])
        ensures w'.s.registrations[k].lifecycle.ACTIVE? ==> StillPlaced(w.s, w'.s, k, w.s.registrations[k])
      {
        WeakerSelf(w.s, w.b, k);
        assert RecordSound(w.s, w.b, k, w.s.registrations[k]);
      }
      Carried(w, w');
    }
  }

  lemma SoftRevokingKeeps(w: World, id: nat)
    requires Sound(w.s, w.b)
    ensures Sound(SoftRevoke(w.s, id), w.b)
  {
    hide BackendKeeps, Sound, Inverse;
    InverseOf(w.s, w.b);
    SameBackend(w.b);
    var w' := w.(s := SoftRevoke(w.s, id));
    if Revocable(w.s, id) {
      CarriedOne(w, w', id, w'.s.registrations[id]);
    }
  }

  lemma RotatingKeeps(w: World, id: nat)
    requires Sound(w.s, w.b) && w.b.nextNumber <= SEQUENCE_LIMIT
    ensures var (s', b') := RotateRegistration(w.s, w.b, id); Sound(s', b')
  {
    hide BackendKeeps, Sound, Inverse, Xor64;
    InverseOf(w.s, w.b);
    SameBackend(w.b);
    if Revocable(w.s, id) {
      var (s', b') := RotateRegistration(w.s, w.b, id);
      var rec := RotatedRecord(w.s.registrations[id]);
      CallKeeps(w.b, DoRotate(rec.handle, rec.remoteKey.keyGeneration));
      WeakerSelf(w.s, w.b, id);
      CarriedOne(w, w.(s := s', b := b'), id, rec);
    }
  }

  lemma DeregisteringKeeps(w: World, id: nat)
    requires Sound(w.s, w.b) && w.b.nextNumber <= SEQUENCE_LIMIT
    ensures var w' := DeregisterCall(w, id); Sound(w'.s, w'.b)
  {
    hide Sound, AccountInvalidate, Release;
    if MayDeregister(w.s, id) {
      if id in DeregisterCall(w, id).s.registrations {
        DeregisterRefused(w, id);
      } else {
        DeregisterDone(w, id);
      }
    }
  }

  lemma DeregisterDone(w: World, id: nat)
    requires Sound(w.s, w.b) && w.b.nextNumber <= SEQUENCE_LIMIT
    requires MayDeregister(w.s, id) && id !in DeregisterCall(w, id).s.registrations
    ensures var w' := DeregisterCall(w, id); Sound(w'.s, w'.b)
  {
    hide Sound, BackendKeeps, Inverse, AccountInvalidate, Weaker;
    var w' := DeregisterCall(w, id);
    InverseOf(w.s, w.b);
    SameBackend(w.b);
    CallKeeps(w.b, DoRelease(w.s.registrations[id].handle));
    forall k | k in w'.s.registrations
      ensures k in w.s.registrations && Weaker(w.s.registrations[k], w'.s.registrations[k])
      ensures w'.s.registrations[k].lifecycle.ACTIVE? ==> StillPlaced(w.s, w'.s, k, w.s.registrations[k])
    {
      WeakerSelf(w.s, w.b, k);
    }
    Carried(w, w');
  }

  /** The backend did not know the handle: the record fails, and the handle is not in the table. */
  lemma DeregisterRefused(w: World, id: nat)
    requires Sound(w.s, w.b) && MayDeregister(w.s, id) && id in DeregisterCall(w, id).s.registrations
    ensures var w' := DeregisterCall(w, id); Sound(w'.s, w'.b)
  {
    hide Inverse, Issued, AccountInvalidate, Placed, Sized;
    var w' := DeregisterCall(w, id);
    forall k | k in w'.s.registrations ensures RecordSound(w'.s, w'.b, k, w'.s.registrations[k]) {
      var rec := w.s.registrations[k];
      assert RecordSound(w.s, w.b, k, rec);
      assert w'.s.registrations[k] == if k == id then rec.(lifecycle := FAILED) else rec;
      if rec.lifecycle.ACTIVE? && k != id {
        assert Placed(w'.s, rec) by { PlaceKept(w.s, w'.s, rec); }
      }
      if k == id && rec.freshness == VALID {
        assert rec.handle !in w.b.entries;
      }
    }
  }

  lemma PlaceKept(s: State, s': State, rec: RegistrationRecord)
    requires Placed(s, rec) && s'.domains == s.domains && s'.buffers == s.buffers
    ensures Placed(s', rec)
  {
  }

  /** What the first lock has established by the time a record is begun. */
  lemma CheckFacts(s: State, b: Backend, d: BufferDescriptor, backend: nat, domain: nat, env: Envelope)
    requires Sized(d) && RegisterCheck(s, b, d, backend, domain, env).Ok?
    ensures var rec := RegisterCheck(s, b, d, backend, domain, env).value.1;
            && CanRegister(b.profile, d).None? && ValidateRange(d).None? && d.id !in s.activeFor
            && HasBackend(s, backend) && Placed(s, rec) && rec.descriptor == d && rec.bufferId == d.id
            && rec.id == s.nextRegistration && rec.backend == backend && rec.backendGeneration == b.generation
            && rec.boot == s.authority.workerBoot && rec.domain == d.domain && rec.leaseCount == 0 && rec.reason == []
  {
    hide CanRegister, ValidateRange;
    AuthorityExact(s.authority, env);
  }

  lemma RegisteringKeeps(w: World, d: BufferDescriptor, backend: nat, domain: nat, env: Envelope)
    requires Sound(w.s, w.b) && Sized(d) && RegisterCall(w, d, backend, domain, env).b.nextNumber <= SEQUENCE_LIMIT
    ensures var w' := RegisterCall(w, d, backend, domain, env); Sound(w'.s, w'.b)
  {
    hide Inverse, Issued, AccountCommit, CanRegister, RegisterMiss, Region, HandleOf, Xor64, BegunRecord;
    var w' := RegisterCall(w, d, backend, domain, env);
    if RegisterCheck(w.s, w.b, d, backend, domain, env).Ok? {
      CheckFacts(w.s, w.b, d, backend, domain, env);
      NoEmptyHandle(w.b);
      CallKeeps(w.b, DoRegister(d));
      HandleIsNew(w.b, d);
      Committed(w.s, w.b, d, backend, domain, env);
      forall k | k in w'.s.registrations ensures RecordSound(w'.s, w'.b, k, w'.s.registrations[k]) {
        if k != w.s.nextRegistration {
          WeakerSelf(w.s, w.b, k);
          Keeps(w.s, w.b, w'.s, w'.b, k, w.s.registrations[k], w.s.registrations[k]);
        }
      }
    }
  }

  lemma Committed(s: State, b: Backend, d: BufferDescriptor, backend: nat, domain: nat, env: Envelope)
    requires Sized(d) && RegisterCheck(s, b, d, backend, domain, env).Ok? && RegisterBuffer(b, d).Ok?
    ensures var (s1, rec) := RegisterCheck(s, b, d, backend, domain, env).value;
            var (b1, g) := RegisterBuffer(b, d).value;
            var r := CommittedRecord(s1, rec, g);
            Extent(r) && r.handle == g.handle != [] && r.id == s.nextRegistration && r.lifecycle.ACTIVE?
            && r.freshness == VALID && !r.remoteKey.revoked && Placed(s, r)
  {
    hide CanRegister, RegisterMiss, Region, Xor64, BegunRecord, RemoteKeyId, LocalKeyId;
    CheckFacts(s, b, d, backend, domain, env);
  }

  lemma RecoveringKeeps(w: World, p: PersistableState)
    requires Sound(w.s, w.b)
    ensures Sound(Recover(w.s, p), w.b)
  {
    hide RecoverBuffers, RecoverDomains, RecoverRegistrations, Recover, Inverse, Issued;
    var s' := Recover(w.s, p);
    RecoverFrame(w.s, p);
    forall id | id in s'.registrations ensures RecordSound(s', w.b, id, s'.registrations[id]) {
      RecoverRegistrationsAt(w.s, p.registrations, id);
      if id in w.s.registrations && s'.registrations[id] == w.s.registrations[id] {
        var rec := w.s.registrations[id];
        assert RecordSound(w.s, w.b, id, rec);
        RecoverBuffersAt(w.s, p.buffers, rec.bufferId);
        RecoverDomainsAt(w.s, p.domains, rec.domainId);
      }
    }
  }

  lemma PlainKeeps(w: World, op: Op)
    requires Sound(w.s, w.b) && Proper(op) && Quiet(op) && Step(w, op).b.nextNumber <= SEQUENCE_LIMIT
    ensures Sound(Step(w, op).s, Step(w, op).b)
  {
    hide Sound, Inverse, BackendKeeps, Apply, Uncounted, AccessCounted, ReuseCounted, Reuse;
    var w' := Step(w, op);
    InverseOf(w.s, w.b);
    SameBackend(w.b);
    match op {
      case Reusing(d, backend, domain, env) => ReuseOnlyCounts(w.s, Reuse(w.s, d, backend, domain, env));
      case Accessing(q) => AccessOnlyCounts(w.s, w.b, q);
      case Calling(c) => CallKeeps(w.b, c);
      case _ =>
    }
    CarriedNone(w, w');
  }

  lemma StepKeeps(w: World, op: Op)
    requires Sound(w.s, w.b) && Proper(op) && AtomicOp(op) && Step(w, op).b.nextNumber <= SEQUENCE_LIMIT
    ensures Sound(Step(w, op).s, Step(w, op).b)
  {
    hide Sound, DestroyDomain, CreateBuffer, AcquireLease, ReleaseLease, HardRevoke, SoftRevoke;
    hide RegisterCall, DeregisterCall, Recover;
    NumberStays(w, op);
    if Orderly(w, op) {
      if Quiet(op) {
        PlainKeeps(w, op);
      } else {
        match op
        case DropDomain(d, order) => DropDomainKeeps(w, d, order);
        case NewBuffer(d, order) => NewBufferKeeps(w, d, order);
        case Leasing(id, env, needed) => LeasingKeeps(w, id, env, needed);
        case Returning(lease) => ReturningKeeps(w, lease);
        case Revoking(id, order) => RevokingKeeps(w, id, order);
        case SoftRevoking(id) => SoftRevokingKeeps(w, id);
        case Rotating(id) => RotatingKeeps(w, id);
        case Registering(d, backend, domain, env) => RegisteringKeeps(w, d, backend, domain, env);
        case Deregistering(id) => DeregisteringKeeps(w, id);
        case Recovering(p) => RecoveringKeeps(w, p);
      }
    }
  }

  /** Registrations are numbered upwards. */
  lemma NumberStays(w: World, op: Op)
    requires Proper(op)
    ensures w.b.nextNumber <= Step(w, op).b.nextNumber
  {
    hide CanRegister, GrantFor, RegisterMiss, Apply, Recover, Access, Reuse, Xor64, DestroyDomain, CreateBuffer;
    hide AcquireLease, ReleaseLease, HardRevoke, SoftRevoke, RegisterCommit, DeregisterCommit, DeregisterFail, AccessCounted;
    match op
    case Calling(c) => NumberStep(w.b, c);
    case _ =>
  }

  lemma {:induction false} NumberGrowsOnRuns(w: World, ops: seq<Op>)
    requires AllProper(ops)
    ensures w.b.nextNumber <= Run(w, ops).b.nextNumber
    decreases |ops|
  {
    hide Step;
    if ops != [] {
      NumberStays(w, ops[0]);
      NumberGrowsOnRuns(Step(w, ops[0]), ops[1..]);
    }
  }

  predicate Whole(ops: seq<Op>) {
    forall op :: op in ops ==> AtomicOp(op)
  }

  lemma {:induction false} RunSound(w: World, ops: seq<Op>)
    requires Sound(w.s, w.b) && AllProper(ops) && Whole(ops) && Run(w, ops).b.nextNumber <= SEQUENCE_LIMIT
    ensures Sound(Run(w, ops).s, Run(w, ops).b)
    decreases |ops|
  {
    hide Step, Sound;
    if ops != [] {
      NumberGrowsOnRuns(Step(w, ops[0]), ops[1..]);
      StepKeeps(w, ops[0]);
      RunSound(Step(w, ops[0]), ops[1..]);
    }
  }

  lemma StartSound(seed: nat)
    ensures Sound(Start(seed).s, Start(seed).b)
  {
  }

  // ---- the theorems ------------------------------------------------------------------------------------

  /**
   * In every reachable state an allowed request names a valid, active registration with
   * an unrevoked key, in an active domain and at its buffer's current generation, under
   * the current authority, confirmed by a live backend entry, and inside its range.
   */
  lemma AllowSafe(seed: nat, ops: seq<Op>, q: Request)
    requires AllProper(ops) && Whole(ops) && Ranged(q)
    requires var w := Run(Start(seed), ops);
             w.b.nextNumber <= SEQUENCE_LIMIT && Access(w.s, w.b, q) == ALLOW
    ensures var w := Run(Start(seed), ops); Entitled(w.s, w.b, q)
  {
    hide Run, Sound, Access, Entitled;
    StartSound(seed);
    RunSound(Start(seed), ops);
    AllowIsEntitled(Run(Start(seed), ops).s, Run(Start(seed), ops).b, q);
  }

  /** Single flight: a buffer has at most one active registration, well placed, and the index names it. */
  lemma SingleFlight(seed: nat, ops: seq<Op>, i: nat, j: nat)
    requires AllProper(ops) && Whole(ops)
    requires var w := Run(Start(seed), ops);
             && w.b.nextNumber <= SEQUENCE_LIMIT && i in w.s.registrations && j in w.s.registrations
             && w.s.registrations[i].lifecycle.ACTIVE? && w.s.registrations[j].lifecycle.ACTIVE?
    ensures var s := Run(Start(seed), ops).s;
            && (s.registrations[i].bufferId == s.registrations[j].bufferId ==> i == j)
            && Indexed(s, i, s.registrations[i]) && Placed(s, s.registrations[i])
  {
    hide Run, Placed, Inverse, Issued, Extent;
    StartSound(seed);
    RunSound(Start(seed), ops);
    var w := Run(Start(seed), ops);
    assert RecordSound(w.s, w.b, i, w.s.registrations[i]);
    assert RecordSound(w.s, w.b, j, w.s.registrations[j]);
  }

  /** A reuse hit is that one registration, made under the current boot with the rights asked for. */
  lemma ReuseHit(seed: nat, ops: seq<Op>, d: BufferDescriptor, backend: nat, domain: nat, env: Envelope)
    requires AllProper(ops) && Whole(ops)
    requires var w := Run(Start(seed), ops);
             w.b.nextNumber <= SEQUENCE_LIMIT && Reuse(w.s, d, backend, domain, env).Ok?
    ensures var s := Run(Start(seed), ops).s;
            var id := Reuse(s, d, backend, domain, env).value;
            && id in s.registrations && s.registrations[id].lifecycle.ACTIVE? && s.registrations[id].freshness == VALID
            && s.registrations[id].bufferId == d.id && Indexed(s, id, s.registrations[id]) && Placed(s, s.registrations[id])
            && s.registrations[id].bufferGeneration == d.generation && s.registrations[id].domain == d.domain
            && s.registrations[id].backend == backend && s.registrations[id].domainId == domain
            && s.registrations[id].boot == s.authority.workerBoot
            && Superset(s.registrations[id].grantedAccess, d.requestedAccess)
  {
    hide Run, Placed, Inverse, Issued, Extent, Superset, Current, ValidateAuthority;
    StartSound(seed);
    RunSound(Start(seed), ops);
    var w := Run(Start(seed), ops);
    AuthorityExact(w.s.authority, env);
    CurrentBoot(w.s.authority, env);
    assert RecordSound(w.s, w.b, w.s.activeFor[d.id], w.s.registrations[w.s.activeFor[d.id]]);
  }

  lemma CurrentBoot(snap: AuthoritySnapshot, env: Envelope)
    ensures Current(snap, env) ==> env.workerBoot == snap.workerBoot
  {
  }

  lemma InverseOf(s: State, b: Backend)
    requires Sound(s, b)
    ensures Inverse(b)
  {
  }
}
