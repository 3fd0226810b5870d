/**
 * The runtime and the backend each judge a request. As long as the capability profile
 * stays fixed and the backend is only rolled over or restarted from outside, the two
 * agree about every active registration, so the backend's confirmation adds nothing.
 */
module TwoLayers {
  import opened Records
  import opened Checks
  import opened Words
  import opened BackendModel
  import opened Runtime
  import opened Recovery
  import opened Worlds
  import opened Evolution
  import opened Safety

  /** The backend holds for this record what the record says it holds. */
  predicate EntryMatches(rec: RegistrationRecord, e: Entry) {
    && e.keyGeneration == rec.remoteKey.keyGeneration && e.grant.access == rec.grantedAccess
    && e.grant.length == rec.length && !e.revoked && !e.revalidate
  }

  predicate Linked(s: State, b: Backend, rec: RegistrationRecord) {
    rec.lifecycle.ACTIVE? ==>
      && HasBackend(s, rec.backend) && rec.backendGeneration <= b.generation
      && (forall kind: OperationKind :: Has(rec.grantedAccess, RightFor(kind)) ==> Supports(b.profile, kind))
      && (rec.backendGeneration == b.generation ==> rec.handle in b.entries && EntryMatches(rec, b.entries[rec.handle]))
  }

  /** No two records share a backend handle. */
  predicate OwnHandles(s: State) {
    forall i, j :: i in s.registrations && j in s.registrations && i != j && s.registrations[i].handle != [] ==>
      s.registrations[i].handle != s.registrations[j].handle
  }

  ghost predicate Joined(w: World) {
    && Sound(w.s, w.b) && OwnHandles(w.s)
    && forall id :: id in w.s.registrations ==> Linked(w.s, w.b, w.s.registrations[id])
  }

  // ---- agreement ---------------------------------------------------------------------------------

  /** What the runtime alone can say of a request: the record is active and everything asked for is current and granted. */
  predicate RuntimeAllows(s: State, generation: nat, q: Request) {
    && q.registration in s.registrations
    && var rec := s.registrations[q.registration];
       && rec.lifecycle.ACTIVE? && Current(s.authority, q.authority) && rec.backendGeneration == generation
       && (q.expectedRegistrationGeneration == 0 || q.expectedRegistrationGeneration == rec.registrationGeneration)
       && (q.expectedBufferGeneration == 0 || q.expectedBufferGeneration == rec.bufferGeneration)
       && (q.expectedKeyGeneration == 0 || q.expectedKeyGeneration == rec.remoteKey.keyGeneration)
       && (q.backend == 0 || q.backend == rec.backend) && (q.transport == 0 || q.transport == rec.transport)
       && (q.domain == 0 || q.domain == rec.domainId)
       && Superset(rec.grantedAccess, q.requiredRights) && Has(rec.grantedAccess, RightFor(q.kind))
       && q.offset + q.length <= rec.length
  }

  lemma LayersAgree(w: World, q: Request)
    requires Joined(w) && Ranged(q)
    ensures Access(w.s, w.b, q) == ALLOW <==> RuntimeAllows(w.s, w.b.generation, q)
  {
    hide ValidateAuthority, Superset, Has, Inverse, Issued, Placed, Current, OwnHandles;
    if q.registration in w.s.registrations {
      var rec := w.s.registrations[q.registration];
      assert RecordSound(w.s, w.b, q.registration, rec) && Linked(w.s, w.b, rec);
      AuthorityExact(w.s.authority, q.authority);
      if rec.lifecycle.ACTIVE? {
        RangeInsideExact(rec.descriptor, q.offset, q.length);
      }
    }
  }

  /** About an active record of the current incarnation the backend has nothing to add. */
  lemma BackendIsRedundant(w: World, q: Request)
    requires Joined(w) && Ranged(q)
    requires q.registration in w.s.registrations && w.s.registrations[q.registration].lifecycle.ACTIVE?
    ensures Access(w.s, w.b, q) == RuntimeOutcome(w.s, w.b, q)
  {
    hide ValidateAuthority, Superset, Inverse, Issued, Placed, Current, OwnHandles;
    var rec := w.s.registrations[q.registration];
    assert RecordSound(w.s, w.b, q.registration, rec) && Linked(w.s, w.b, rec);
    RangeInsideExact(rec.descriptor, q.offset, q.length);
  }

  // ---- preservation ----------------------------------------------------------------------------------

  /** What the backend knows of a record is left as it was. */
  predicate SameGrant(rec: RegistrationRecord, r: RegistrationRecord) {
    && r.handle == rec.handle && r.backend == rec.backend && r.backendGeneration == rec.backendGeneration
    && r.grantedAccess == rec.grantedAccess && r.length == rec.length
    && r.remoteKey.keyGeneration == rec.remoteKey.keyGeneration
  }

  predicate Carries(rec: RegistrationRecord, r: RegistrationRecord) {
    (r.handle == rec.handle || r.handle == []) && (r.lifecycle.ACTIVE? ==> rec.lifecycle.ACTIVE? && SameGrant(rec, r))
  }

  /** The backend is the same incarnation with the same entry for `rec`, or a later incarnation. */
  predicate EntryKept(b: Backend, b': Backend, rec: RegistrationRecord) {
    && b'.profile == b.profile && b.generation <= b'.generation
    && (b'.generation == b.generation && rec.handle in b.entries ==>
          rec.handle in b'.entries && b'.entries[rec.handle] == b.entries[rec.handle])
  }

  lemma LinkKept(s: State, b: Backend, s': State, b': Backend, rec: RegistrationRecord, r: RegistrationRecord)
    requires Linked(s, b, rec) && Carries(rec, r) && (s.attached ==> s'.attached)
    requires r.lifecycle.ACTIVE? ==> EntryKept(b, b', rec)
    ensures Linked(s', b', r)
  {
    hide Has, Supports;
  }

  lemma Joins(w: World, w': World)
    requires Joined(w) && Sound(w'.s, w'.b) && (w.s.attached ==> w'.s.attached)
    requires forall id :: id in w'.s.registrations ==>
               && id in w.s.registrations && Carries(w.s.registrations[id], w'.s.registrations[id])
               && (w'.s.registrations[id].lifecycle.ACTIVE? ==> EntryKept(w.b, w'.b, w.s.registrations[id]))
    ensures Joined(w')
  {
    hide Sound, Linked, EntryKept, SameGrant;
    forall id | id in w'.s.registrations ensures Linked(w'.s, w'.b, w'.s.registrations[id]) {
      LinkKept(w.s, w.b, w'.s, w'.b, w.s.registrations[id], w'.s.registrations[id]);
    }
  }

  /** Steps that leave the backend alone and at most weaken records. */
  lemma JoinsQuietly(w: World, w': World)
    requires Joined(w) && Sound(w'.s, w'.b) && (w.s.attached ==> w'.s.attached) && w'.b == w.b
    requires forall id :: id in w'.s.registrations ==>
               id in w.s.registrations && Carries(w.s.registrations[id], w'.s.registrations[id])
    ensures Joined(w')
  {
    hide Sound, Linked, Carries;
    Joins(w, w');
  }

  lemma BulkJoins(w: World, w': World, order: seq<nat>, c: Cause)
    requires Joined(w) && Sound(w'.s, w'.b) && w'.s.attached == w.s.attached && w'.b == w.b
    requires w'.s.registrations == InvalidateAll(w.s, order, c).registrations
    ensures Joined(w')
  {
    hide InvalidateAll, Matches, Joined, Sound;
    InvalidateAllEffect(w.s, order, c);
    JoinsQuietly(w, w');
  }

  lemma DropDomainJoins(w: World, d: nat, order: seq<nat>)
    requires Joined(w) && Enumerates(order, w.s.registrations)
    ensures Joined(w.(s := DestroyDomain(w.s, d, order)))
  {
    hide InvalidateAll, Joined, Sound, Enumerates;
    var w' := w.(s := DestroyDomain(w.s, d, order));
    JoinedSound(w);
    DropDomainKeeps(w, d, order);
    if d in w.s.domains {
      InvalidateAllFrame(w.s, order, DomainDestroyed(d));
      BulkJoins(w, w', order, DomainDestroyed(d));
    }
  }

  lemma ReallocationJoins(w: World, d: BufferDescriptor, order: seq<nat>)
    requires Joined(w) && Sound(CreateBuffer(w.s, d, order), w.b)
    requires !CreateRefused(w.s, d) && BufferKey(w.s, d) in w.s.buffers
    ensures Joined(w.(s := CreateBuffer(w.s, d, order)))
  {
    hide InvalidateAll, Joined, Sound, Decrement;
    var key := BufferKey(w.s, d);
    var s0 := if d.id != 0 then w.s else w.s.(nextBuffer := w.s.nextBuffer + 1);
    InvalidateIgnores(w.s, s0, order, Reallocated(key));
    InvalidateAllFrame(w.s, order, Reallocated(key));
    BulkJoins(w, w.(s := CreateBuffer(w.s, d, order)), order, Reallocated(key));
  }

  lemma NewBufferJoins(w: World, d: BufferDescriptor, order: seq<nat>)
    requires Joined(w) && Enumerates(order, w.s.registrations)
    ensures Joined(w.(s := CreateBuffer(w.s, d, order)))
  {
    hide Joined, Sound, Enumerates, CreateBuffer, CreateRefused;
    JoinedSound(w);
    NewBufferKeeps(w, d, order);
    if !CreateRefused(w.s, d) && BufferKey(w.s, d) in w.s.buffers {
      ReallocationJoins(w, d, order);
    } else {
      FreshBuffer(w.s, d, order);
      JoinsQuietly(w, w.(s := CreateBuffer(w.s, d, order)));
    }
  }

  lemma FreshBuffer(s: State, d: BufferDescriptor, order: seq<nat>)
    requires CreateRefused(s, d) || BufferKey(s, d) !in s.buffers
    ensures CreateBuffer(s, d, order).registrations == s.registrations && CreateBuffer(s, d, order).attached == s.attached
  {
    hide InvalidateAll, Decrement;
  }

  lemma LeasingJoins(w: World, id: nat, env: Envelope, needed: Mask)
    requires Joined(w)
    ensures Joined(w.(s := AcquireLease(w.s, id, env, needed)))
  {
    hide Joined, Sound, ValidateAuthority, Superset;
    JoinedSound(w);
    LeasingKeeps(w, id, env, needed);
    JoinsQuietly(w, w.(s := AcquireLease(w.s, id, env, needed)));
  }

  lemma ReturningJoins(w: World, lease: nat)
    requires Joined(w)
    ensures Joined(w.(s := ReleaseLease(w.s, lease)))
  {
    hide Joined, Sound;
    JoinedSound(w);
    ReturningKeeps(w, lease);
    JoinsQuietly(w, w.(s := ReleaseLease(w.s, lease)));
  }

  lemma RevokingJoins(w: World, id: nat, order: seq<nat>)
    requires Joined(w)
    ensures Joined(w.(s := HardRevoke(w.s, id, order)))
  {
    hide Joined, Sound, RevokeLeases;
    JoinedSound(w);
    RevokingKeeps(w, id, order);
    if Revocable(w.s, id) {
      var r := RevokedRecord(w.s.registrations[id]);
      RevokeLeasesFrame(w.s.(registrations := w.s.registrations[id := r]), order, id);
      JoinsQuietly(w, w.(s := HardRevoke(w.s, id, order)));
    }
  }

  lemma SoftRevokingJoins(w: World, id: nat)
    requires Joined(w)
    ensures Joined(w.(s := SoftRevoke(w.s, id)))
  {
    hide Joined, Sound;
    JoinedSound(w);
    SoftRevokingKeeps(w, id);
    JoinsQuietly(w, w.(s := SoftRevoke(w.s, id)));
  }

  lemma RecoveringJoins(w: World, p: PersistableState)
    requires Joined(w)
    ensures Joined(w.(s := Recover(w.s, p)))
  {
    hide Sound, Linked, Recover, RecoverBuffers, RecoverDomains, RecoverRegistrations;
    var s' := Recover(w.s, p);
    RecoveringKeeps(w, p);
    RecoverFrame(w.s, p);
    forall id | id in s'.registrations
      ensures (s'.registrations[id].handle == [] && !s'.registrations[id].lifecycle.ACTIVE?)
              || (id in w.s.registrations && s'.registrations[id] == w.s.registrations[id])
    {
      RecoverRegistrationsAt(w.s, p.registrations, id);
    }
    forall id | id in s'.registrations ensures Linked(s', w.b, s'.registrations[id]) {
      InactiveLinked(s', w.b, s'.registrations[id]);
      if id in w.s.registrations {
        LinkKept(w.s, w.b, s', w.b, w.s.registrations[id], w.s.registrations[id]);
      }
    }
  }

  lemma InactiveLinked(s: State, b: Backend, rec: RegistrationRecord)
    ensures !rec.lifecycle.ACTIVE? ==> Linked(s, b, rec)
  {
  }

  /** Runtime and backend move the key on together. */
  lemma RotatingJoins(w: World, id: nat)
    requires Joined(w) && w.b.nextNumber <= SEQUENCE_LIMIT
    ensures var (s', b') := RotateRegistration(w.s, w.b, id); Joined(w.(s := s', b := b'))
  {
    hide Sound, Xor64, Has, Supports;
    var (s', b') := RotateRegistration(w.s, w.b, id);
    RotatingKeeps(w, id);
    if Revocable(w.s, id) {
      RotatedActive(w.s, w.b, id);
      forall k | k in s'.registrations && k != id ensures Linked(s', b', s'.registrations[k]) {
        LinkKept(w.s, w.b, s', b', w.s.registrations[k], w.s.registrations[k]);
      }
    }
  }

  lemma RotatedActive(s: State, b: Backend, id: nat)
    requires Sound(s, b) && Revocable(s, id)
    ensures s.registrations[id].lifecycle.ACTIVE? && s.registrations[id].handle != []
  {
    assert RecordSound(s, b, id, s.registrations[id]);
  }

  lemma DeregisteringJoins(w: World, id: nat)
    requires Joined(w) && w.b.nextNumber <= SEQUENCE_LIMIT
    ensures Joined(DeregisterCall(w, id))
  {
    hide Sound, DeregisterCall, Linked, Carries, EntryKept, Release;
    var w' := DeregisterCall(w, id);
    DeregisteringKeeps(w, id);
    DeregisterEnds(w, id);
    InverseOf(w.s, w.b);
    NoEmptyHandle(w.b);
    forall k | k in w'.s.registrations
      ensures k in w.s.registrations && Carries(w.s.registrations[k], w'.s.registrations[k])
      ensures w'.s.registrations[k].lifecycle.ACTIVE? ==> EntryKept(w.b, w'.b, w.s.registrations[k])
    {
      DeregisteringAt(w, id, k);
    }
    Joins(w, w');
  }

  lemma DeregisteringAt(w: World, id: nat, k: nat)
    requires OwnHandles(w.s) && [] !in w.b.entries && k in w.s.registrations && k in DeregisterCall(w, id).s.registrations
    ensures var w' := DeregisterCall(w, id);
            && Carries(w.s.registrations[k], w'.s.registrations[k])
            && (w'.s.registrations[k].lifecycle.ACTIVE? ==> EntryKept(w.b, w'.b, w.s.registrations[k]))
  {
    hide DeregisterCall, Release, Carries, OwnHandles;
    DeregisterEnds(w, id);
    CarriesSelf(w.s.registrations[k]);
    if id in w.s.registrations {
      ReleaseEffect(w.b, w.s.registrations[id].handle);
      if k != id {
        OthersHandle(w.s, id, k);
      }
    }
  }

  lemma CarriesSelf(rec: RegistrationRecord)
    ensures Carries(rec, rec) && Carries(rec, rec.(lifecycle := FAILED))
  {
  }

  lemma OthersHandle(s: State, i: nat, j: nat)
    requires OwnHandles(s) && i in s.registrations && j in s.registrations && i != j
    ensures s.registrations[i].handle == s.registrations[j].handle ==> s.registrations[i].handle == []
  {
  }

  /** Releasing one handle leaves every other entry alone. */
  lemma ReleaseEffect(b: Backend, handle: Text)
    ensures Release(b, handle).None? <==> handle !in b.entries
    ensures match Release(b, handle)
            case None => true
            case Some(b') =>
              && b'.profile == b.profile && b'.generation == b.generation
              && forall h :: h != handle ==> (h in b'.entries <==> h in b.entries) && (h in b.entries ==> b'.entries[h] == b.entries[h])
  {
  }

  /** The committed record and the entry just made match; entries of other handles stay. */
  lemma NewEntryLinked(s: State, b: Backend, d: BufferDescriptor, backend: nat, domain: nat, env: Envelope)
    requires Sized(d) && RegisterCheck(s, b, d, backend, domain, env).Ok? && CanRegister(b.profile, d).None?
    ensures var (s1, rec) := RegisterCheck(s, b, d, backend, domain, env).value;
            var (b1, g) := RegisterBuffer(b, d).value;
            && Linked(RegisterCommit(s1, rec, g), b1, CommittedRecord(s1, rec, g))
            && CommittedRecord(s1, rec, g).handle == g.handle && rec.id == s.nextRegistration
            && b1.profile == b.profile && b1.generation == b.generation && b1.entries.Keys == b.entries.Keys + {g.handle}
            && forall h :: h in b.entries && h != g.handle ==> b1.entries[h] == b.entries[h]
  {
    hide CanRegister, RegisterMiss, Region, HandleOf, Xor64, BegunRecord, RemoteKeyId, LocalKeyId, AccountCommit, Has, Supports;
    CheckFacts(s, b, d, backend, domain, env);
    GrantsSupported(b, d);
  }

  lemma OldHandles(s: State, b: Backend, k: nat, handle: Text)
    requires Sound(s, b) && k in s.registrations && handle != [] && !Issued(b, handle)
    ensures s.registrations[k].handle != handle
  {
    hide Issued, Inverse;
    assert RecordSound(s, b, k, s.registrations[k]);
  }

  lemma RegisteringJoins(w: World, d: BufferDescriptor, backend: nat, domain: nat, env: Envelope)
    requires Joined(w) && Sized(d) && RegisterCall(w, d, backend, domain, env).b.nextNumber <= SEQUENCE_LIMIT
    ensures Joined(RegisterCall(w, d, backend, domain, env))
  {
    hide Sound, Issued, RegisterBuffer, CommittedRecord, BegunRecord, RegisterMiss, Linked, AccountCommit;
    var w' := RegisterCall(w, d, backend, domain, env);
    RegisteringKeeps(w, d, backend, domain, env);
    if RegisterCheck(w.s, w.b, d, backend, domain, env).Ok? {
      CheckFacts(w.s, w.b, d, backend, domain, env);
      Granted(w.b, d);
      InverseOf(w.s, w.b);
      NoEmptyHandle(w.b);
      HandleIsNew(w.b, d);
      NewEntryLinked(w.s, w.b, d, backend, domain, env);
      var g := RegisterBuffer(w.b, d).value.1;
      forall k | k in w.s.registrations
        ensures w.s.registrations[k].handle != g.handle
        ensures Linked(w'.s, w'.b, w.s.registrations[k])
      {
        OldHandles(w.s, w.b, k, g.handle);
        LinkKept(w.s, w.b, w'.s, w'.b, w.s.registrations[k], w.s.registrations[k]);
      }
    }
  }

  lemma Granted(b: Backend, d: BufferDescriptor)
    requires Sized(d)
    ensures CanRegister(b.profile, d).None? <==> RegisterBuffer(b, d).Ok?
    ensures RegisterBuffer(b, d).Ok? ==> var (b1, g) := RegisterBuffer(b, d).value;
                                         b1.nextNumber == b.nextNumber + 1 && g.handle != []
  {
    hide CanRegister, Region, Xor64, RemoteKeyId, LocalKeyId;
  }

  lemma GrantsSupported(b: Backend, d: BufferDescriptor)
    requires Sized(d) && CanRegister(b.profile, d).None?
    ensures forall kind: OperationKind :: Has(d.requestedAccess, RightFor(kind)) ==> Supports(b.profile, kind)
  {
    hide Has, Supports;
  }

  lemma JoinedSound(w: World)
    requires Joined(w)
    ensures Sound(w.s, w.b)
  {
  }

  // ---- runs ----------------------------------------------------------------------------------------------

  /** From outside, the backend is only rolled over or restarted. */
  predicate Undisturbed(op: Op) {
    op.Calling? ==> op.c.DoRolloverBackend? || op.c.DoRolloverNic? || op.c.DoRestart?
  }

  lemma PlainJoins(w: World, op: Op)
    requires Joined(w) && Proper(op) && Quiet(op) && Undisturbed(op) && Step(w, op).b.nextNumber <= SEQUENCE_LIMIT
    ensures Joined(Step(w, op))
  {
    hide Sound, Linked, OwnHandles, Step, OnlyTallies;
    var w' := Step(w, op);
    PlainKeeps(w, op);
    QuietFrame(w, op);
    Joins(w, w');
  }

  lemma StepJoins(w: World, op: Op)
    requires Joined(w) && Proper(op) && AtomicOp(op) && Undisturbed(op) && Step(w, op).b.nextNumber <= SEQUENCE_LIMIT
    ensures Joined(Step(w, op))
  {
    hide Joined, DestroyDomain, CreateBuffer, AcquireLease, ReleaseLease, HardRevoke, SoftRevoke;
    hide RegisterCall, DeregisterCall, Recover;
    NumberStays(w, op);
    if Orderly(w, op) {
      if Quiet(op) {
        PlainJoins(w, op);
      } else {
        match op
        case DropDomain(d, order) => DropDomainJoins(w, d, order);
        case NewBuffer(d, order) => NewBufferJoins(w, d, order);
        case Leasing(id, env, needed) => LeasingJoins(w, id, env, needed);
        case Returning(lease) => ReturningJoins(w, lease);
        case Revoking(id, order) => RevokingJoins(w, id, order);
        case SoftRevoking(id) => SoftRevokingJoins(w, id);
        case Rotating(id) => RotatingJoins(w, id);
        case Registering(d, backend, domain, env) => RegisteringJoins(w, d, backend, domain, env);
        case Deregistering(id) => DeregisteringJoins(w, id);
        case Recovering(p) => RecoveringJoins(w, p);
      }
    }
  }

  lemma {:induction false} RunJoined(w: World, ops: seq<Op>)
    requires Joined(w) && AllProper(ops) && Whole(ops) && (forall op :: op in ops ==> Undisturbed(op))
    requires Run(w, ops).b.nextNumber <= SEQUENCE_LIMIT
    ensures Joined(Run(w, ops))
    decreases |ops|
  {
    hide Step, Joined;
    if ops != [] {
      NumberGrowsOnRuns(Step(w, ops[0]), ops[1..]);
      StepJoins(w, ops[0]);
      RunJoined(Step(w, ops[0]), ops[1..]);
    }
  }

  /** In every such run the two-layer decision is exactly the runtime's own predicate. */
  lemma TwoLayerAgreement(seed: nat, ops: seq<Op>, q: Request)
    requires AllProper(ops) && Whole(ops) && (forall op :: op in ops ==> Undisturbed(op)) && Ranged(q)
    requires Run(Start(seed), ops).b.nextNumber <= SEQUENCE_LIMIT
    ensures var w := Run(Start(seed), ops);
            Access(w.s, w.b, q) == ALLOW <==> RuntimeAllows(w.s, w.b.generation, q)
  {
    hide Run, Joined, Access, RuntimeAllows;
    StartJoined(seed);
    RunJoined(Start(seed), ops);
    LayersAgree(Run(Start(seed), ops), q);
  }

  lemma StartJoined(seed: nat)
    ensures Joined(Start(seed))
  {
    StartSound(seed);
  }

  /** A transport rollover breaks the agreement: the backend refuses what the runtime would allow. */
  lemma TransportRolloverDisagrees(w: World, q: Request)
    requires Joined(w) && Ranged(q) && RuntimeAllows(w.s, w.b.generation, q)
    ensures Access(w.s, RolloverTransport(w.b), q) == REJECT_STALE_REGISTRATION
  {
    hide ValidateAuthority, Superset, Has, Inverse, Issued, Placed, Current, OwnHandles;
    var rec := w.s.registrations[q.registration];
    assert RecordSound(w.s, w.b, q.registration, rec) && Linked(w.s, w.b, rec);
    AuthorityExact(w.s.authority, q.authority);
    RangeInsideExact(rec.descriptor, q.offset, q.length);
  }
}
