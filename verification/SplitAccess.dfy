/**
 * What ALLOW still means when register and deregister calls are taken apart: everything
 * that does not depend on the check step having just run.
 */
module SplitAccess {
  import opened Bytes
  import opened Records
  import opened Checks
  import opened Words
  import opened BackendModel
  import opened Runtime
  import opened Worlds
  import opened Evolution
  import opened Safety
  import Revocation
  import Charges

  // ---- the invariant --------------------------------------------------------------------------------

  /** What every stored record has kept from its commit on. */
  ghost predicate Lawful(s: State, b: Backend, rec: RegistrationRecord) {
    && HasBackend(s, rec.backend) && Issued(b, rec.handle)
    && (rec.lifecycle.ACTIVE? ==> rec.freshness == VALID)
    && (rec.freshness == VALID ==>
          Extent(rec) && !rec.remoteKey.revoked
          && (rec.lifecycle.ACTIVE? || rec.lifecycle.DEREGISTERING? || rec.lifecycle.FAILED?))
    && (rec.lifecycle.FAILED? ==> rec.handle !in b.entries)
  }

  /** A register call in flight: checked for a range that was valid, and granted that range if granted. */
  ghost predicate TicketLawful(s: State, b: Backend, t: RegisterTicket) {
    && HasBackend(s, t.rec.backend) && t.rec.descriptor == t.d && Sized(t.d) && ValidateRange(t.d).None?
    && (t.grant.Some? ==>
          Issued(b, t.grant.value.handle) && t.grant.value.base == t.d.address && t.grant.value.length == t.d.byteLength)
  }

  /** A deregister call in flight: its handle is the record's, and after the backend call the backend has it no more. */
  predicate EndingLawful(b: Backend, t: DeregisterTicket, rec: RegistrationRecord) {
    match t
    case Checked(backend, handle) => backend == rec.backend && handle == rec.handle
    case Called(_) => rec.handle !in b.entries
  }

  ghost predicate Kept(w: World) {
    && Inverse(w.b)
    && (forall id :: id in w.s.registrations ==> Lawful(w.s, w.b, w.s.registrations[id]))
    && (forall id :: id in w.s.registrations && w.s.registrations[id].lifecycle.DEREGISTERING? ==> id in w.deregistering)
    && (forall id :: id in w.registering ==> TicketLawful(w.s, w.b, w.registering[id]))
    && (forall id :: id in w.deregistering ==>
          id in w.s.registrations && EndingLawful(w.b, w.deregistering[id], w.s.registrations[id]))
  }

  // ---- what ALLOW means --------------------------------------------------------------------------------

  ghost predicate EntitledMeanwhile(w: World, q: Request) {
    && q.registration in w.s.registrations
    && var rec := w.s.registrations[q.registration];
       && rec.freshness == VALID && !rec.remoteKey.revoked && Current(w.s.authority, q.authority)
       && (rec.lifecycle.ACTIVE?
           || (rec.lifecycle.DEREGISTERING? && q.registration in w.deregistering && w.deregistering[q.registration].Checked?))
       && rec.backendGeneration == w.b.generation
       && rec.handle in w.b.entries && w.b.entries[rec.handle].keyGeneration == rec.remoteKey.keyGeneration
       && !w.b.entries[rec.handle].revoked && !w.b.entries[rec.handle].revalidate
       && Superset(rec.grantedAccess, q.requiredRights) && Has(rec.grantedAccess, RightFor(q.kind))
       && Has(w.b.entries[rec.handle].grant.access, RightFor(q.kind)) && Supports(w.b.profile, q.kind)
       && rec.start + q.offset + q.length <= rec.start + rec.length < WORD_LIMIT
  }

  lemma AllowMeanwhile(w: World, q: Request)
    requires Kept(w) && Ranged(q) && Access(w.s, w.b, q) == ALLOW
    ensures EntitledMeanwhile(w, q)
  {
    hide ValidateAuthority, Superset, Has, Inverse, Issued, Current, TicketLawful;
    var rec := w.s.registrations[q.registration];
    assert Lawful(w.s, w.b, rec);
    AuthorityExact(w.s.authority, q.authority);
    RangeInsideExact(rec.descriptor, q.offset, q.length);
  }

  // ---- steps outside deregistration and registration -------------------------------------------------------

  /** Neither a deregistration begun nor one failed. */
  predicate SameEnding(rec: RegistrationRecord, r: RegistrationRecord) {
    && (r.lifecycle.FAILED? ==> rec.lifecycle.FAILED?)
    && (r.lifecycle.DEREGISTERING? <==> rec.lifecycle.DEREGISTERING?)
  }

  lemma LawCarried(s: State, b: Backend, s': State, b': Backend, rec: RegistrationRecord, r: RegistrationRecord)
    requires Lawful(s, b, rec) && BackendKeeps(b, b') && Moves(rec, r) && Stored(r.lifecycle)
    requires (s.attached ==> s'.attached) && (r.lifecycle.FAILED? ==> rec.lifecycle.FAILED? || rec.handle !in b'.entries)
    ensures Lawful(s', b', r) && r.handle == rec.handle && r.backend == rec.backend
  {
    hide Issued, Inverse, Path;
  }

  lemma TicketCarried(s: State, b: Backend, s': State, b': Backend, t: RegisterTicket)
    requires TicketLawful(s, b, t) && BackendKeeps(b, b') && (s.attached ==> s'.attached)
    ensures TicketLawful(s', b', t)
  {
    hide Issued, Inverse, ValidateRange;
  }

  lemma EndingCarried(s: State, b: Backend, b': Backend, t: DeregisterTicket, rec: RegistrationRecord, r: RegistrationRecord)
    requires EndingLawful(b, t, rec) && Lawful(s, b, rec) && BackendKeeps(b, b') && SameIdentity(rec, r)
    ensures EndingLawful(b', t, r)
  {
    hide Issued, Inverse;
  }

  lemma EndingsSame(w: World, w': World)
    requires Tidy(w) && Kept(w) && StepsTo(w, w') && Tidy(w') && BackendKeeps(w.b, w'.b)
    requires (w.s.attached ==> w'.s.attached) && w'.s.nextRegistration == w.s.nextRegistration
    requires w'.registering == w.registering && w'.deregistering == w.deregistering
    requires forall id :: id in w'.s.registrations ==>
               id in w.s.registrations && SameEnding(w.s.registrations[id], w'.s.registrations[id])
    ensures Kept(w')
  {
    hide Lawful, TicketLawful, EndingLawful, Moves, Inverse, Issued;
    InverseKeptBy(w.b, w'.b);
    forall id | id in w'.s.registrations
      ensures Lawful(w'.s, w'.b, w'.s.registrations[id])
      ensures id in w.deregistering ==> EndingLawful(w'.b, w.deregistering[id], w'.s.registrations[id])
    {
      var rec, r := w.s.registrations[id], w'.s.registrations[id];
      assert Moves(rec, r);
      LawCarried(w.s, w.b, w'.s, w'.b, rec, r);
      MovesIdentity(rec, r);
      if id in w.deregistering {
        EndingCarried(w.s, w.b, w'.b, w.deregistering[id], rec, r);
      }
    }
    forall id | id in w.registering ensures TicketLawful(w'.s, w'.b, w.registering[id]) {
      TicketCarried(w.s, w.b, w'.s, w'.b, w.registering[id]);
    }
  }

  lemma InverseKeptBy(b: Backend, b': Backend)
    requires BackendKeeps(b, b')
    ensures Inverse(b')
  {
  }

  lemma MovesIdentity(rec: RegistrationRecord, r: RegistrationRecord)
    requires Moves(rec, r)
    ensures SameIdentity(rec, r)
  {
  }

  // ---- which operations these are ---------------------------------------------------------------------------

  predicate Elsewhere(op: Op) {
    Quiet(op) || op.DropDomain? || op.NewBuffer? || op.Leasing? || op.Returning? || op.Revoking? || op.SoftRevoking?
    || op.Rotating?
  }

  ghost predicate OnlyRecords(w: World, w': World) {
    && w'.registering == w.registering && w'.deregistering == w.deregistering
    && (w.s.attached ==> w'.s.attached) && w'.s.nextRegistration == w.s.nextRegistration
    && forall id :: id in w'.s.registrations ==>
         id in w.s.registrations && SameEnding(w.s.registrations[id], w'.s.registrations[id])
  }

  lemma BulkEndings(s: State, order: seq<nat>, c: Cause, id: nat)
    requires id in s.registrations
    ensures id in InvalidateAll(s, order, c).registrations
    ensures SameEnding(s.registrations[id], InvalidateAll(s, order, c).registrations[id])
  {
    InvalidateAllAt(s, order, c, id);
  }

  lemma BulkOnly(w: World, w': World, order: seq<nat>, c: Cause)
    requires w' == w.(s := w'.s) && w'.s.attached == w.s.attached && w'.s.nextRegistration == w.s.nextRegistration
    requires w'.s.registrations == InvalidateAll(w.s, order, c).registrations
    ensures OnlyRecords(w, w')
  {
    hide InvalidateAll, SameEnding;
    InvalidateAllFrame(w.s, order, c);
    forall id | id in w'.s.registrations ensures SameEnding(w.s.registrations[id], w'.s.registrations[id]) {
      BulkEndings(w.s, order, c, id);
    }
  }

  lemma TablesOnly(w: World, op: Op)
    requires Proper(op) && Orderly(w, op) && (op.DropDomain? || op.NewBuffer?)
    ensures OnlyRecords(w, Step(w, op))
  {
    hide InvalidateAll, Enumerates, Decrement, OnlyRecords;
    match op
    case DropDomain(d, order) =>
      InvalidateAllFrame(w.s, order, DomainDestroyed(d));
      if d in w.s.domains {
        BulkOnly(w, Step(w, op), order, DomainDestroyed(d));
      } else {
        NothingOnly(w);
      }
    case NewBuffer(d, order) =>
      var key := BufferKey(w.s, d);
      var s0 := if d.id != 0 then w.s else w.s.(nextBuffer := w.s.nextBuffer + 1);
      InvalidateIgnores(w.s, s0, order, Reallocated(key));
      InvalidateAllFrame(w.s, order, Reallocated(key));
      if !CreateRefused(w.s, d) && key in w.s.buffers {
        BulkOnly(w, Step(w, op), order, Reallocated(key));
      } else {
        SameOnly(w, Step(w, op));
      }
  }

  lemma NothingOnly(w: World)
    ensures OnlyRecords(w, w)
  {
  }

  lemma SameOnly(w: World, w': World)
    requires w'.registering == w.registering && w'.deregistering == w.deregistering
    requires (w.s.attached ==> w'.s.attached) && w'.s.nextRegistration == w.s.nextRegistration
    requires w'.s.registrations == w.s.registrations
    ensures OnlyRecords(w, w')
  {
  }

  lemma RecordsOnly(w: World, op: Op)
    requires Proper(op) && (op.Leasing? || op.Returning? || op.SoftRevoking? || op.Rotating?)
    ensures OnlyRecords(w, Step(w, op))
  {
    hide AcquireLease, ReleaseLease, SoftRevoke, RotateRegistration;
    match op
    case Leasing(id, env, needed) => LeasingOnly(w, id, env, needed);
    case Returning(lease) => ReturningOnly(w, lease);
    case SoftRevoking(id) => StatusOnly(w, id);
    case Rotating(id) => StatusOnly(w, id);
  }

  lemma LeasingOnly(w: World, id: nat, env: Envelope, needed: Mask)
    ensures OnlyRecords(w, w.(s := AcquireLease(w.s, id, env, needed)))
  {
    hide ValidateAuthority, Superset, GrantedLease;
  }

  lemma ReturningOnly(w: World, lease: nat)
    ensures OnlyRecords(w, w.(s := ReleaseLease(w.s, lease)))
  {
  }

  lemma StatusOnly(w: World, id: nat)
    ensures OnlyRecords(w, w.(s := SoftRevoke(w.s, id)))
    ensures OnlyRecords(w, w.(s := RotateRegistration(w.s, w.b, id).0, b := RotateRegistration(w.s, w.b, id).1))
  {
    hide RotateKey, Xor64;
  }

  lemma RevokingOnly(w: World, id: nat, order: seq<nat>)
    requires Tidy(w)
    ensures OnlyRecords(w, w.(s := HardRevoke(w.s, id, order)))
  {
    hide RevokeLeases;
    if Revocable(w.s, id) {
      var r := RevokedRecord(w.s.registrations[id]);
      RevokeLeasesFrame(w.s.(registrations := w.s.registrations[id := r]), order, id);
    }
  }

  lemma ElsewhereOnly(w: World, op: Op)
    requires Tidy(w) && Proper(op) && Elsewhere(op)
    ensures OnlyRecords(w, Step(w, op))
  {
    hide Tidy, OnlyRecords, Step, HardRevoke;
    if !Orderly(w, op) {
      NothingOnly(w);
      Unordered(w, op);
    } else if Quiet(op) {
      QuietFrame(w, op);
      SameOnly(w, Step(w, op));
    } else if op.DropDomain? || op.NewBuffer? {
      TablesOnly(w, op);
    } else if op.Revoking? {
      RevokingOnly(w, op.id, op.order);
      Revocation.RevokingIs(w, op);
    } else {
      RecordsOnly(w, op);
    }
  }

  /** These operations reach the backend through at most one of its calls. */
  lemma ElsewhereBackend(w: World, op: Op)
    requires Proper(op) && Elsewhere(op) && Inverse(w.b) && Step(w, op).b.nextNumber <= SEQUENCE_LIMIT
    ensures BackendKeeps(w.b, Step(w, op).b)
  {
    hide Inverse, BackendKeeps, Apply, Access, Reuse, Uncounted, InvalidateAll, RevokeLeases, Xor64;
    SameBackend(w.b);
    match op
    case Calling(c) => CallKeeps(w.b, c);
    case Rotating(id) =>
      if Revocable(w.s, id) {
        var rec := RotatedRecord(w.s.registrations[id]);
        RotationLimit(w.b, rec.handle, rec.remoteKey.keyGeneration);
        CallKeeps(w.b, DoRotate(rec.handle, rec.remoteKey.keyGeneration));
        RotationIs(w.b, rec.handle, rec.remoteKey.keyGeneration);
      }
    case _ =>
  }

  lemma RotationLimit(b: Backend, handle: Text, generation: nat)
    ensures RotateKey(b, handle, generation).nextNumber == b.nextNumber
    ensures Apply(b, DoRotate(handle, generation)).nextNumber == b.nextNumber
  {
  }

  lemma RotationIs(b: Backend, handle: Text, generation: nat)
    ensures Apply(b, DoRotate(handle, generation)) == RotateKey(b, handle, generation)
  {
  }

  lemma ElsewhereKept(w: World, op: Op)
    requires Tidy(w) && Kept(w) && Proper(op) && Elsewhere(op) && Step(w, op).b.nextNumber <= SEQUENCE_LIMIT
    ensures Kept(Step(w, op))
  {
    hide Tidy, Kept, Step, BackendKeeps, StepsTo;
    InverseHeld(w);
    ElsewhereOnly(w, op);
    ElsewhereBackend(w, op);
    StepMoves(w, op);
    EndingsSame(w, Step(w, op));
  }

  lemma InverseHeld(w: World)
    requires Kept(w)
    ensures Inverse(w.b)
  {
  }

  // ---- the pieces of a register call --------------------------------------------------------------------------

  lemma StaysLawful(s: State, b: Backend, s': State, b': Backend, rec: RegistrationRecord)
    requires Lawful(s, b, rec) && BackendKeeps(b, b') && (s.attached ==> s'.attached)
    ensures Lawful(s', b', rec)
  {
    hide Issued, Inverse, Extent;
  }

  lemma CheckRegisterKept(w: World, d: BufferDescriptor, backend: nat, domain: nat, env: Envelope)
    requires Kept(w) && Sized(d)
    ensures Kept(CheckRegisterStep(w, d, backend, domain, env))
  {
    hide RegisterMiss, BegunRecord, Inverse, Lawful, TicketLawful, EndingLawful;
    var w' := CheckRegisterStep(w, d, backend, domain, env);
    if RegisterCheck(w.s, w.b, d, backend, domain, env).Ok? {
      var (s1, rec) := RegisterCheck(w.s, w.b, d, backend, domain, env).value;
      BegunLawful(w.s, w.b, d, backend, domain, env);
      SameBackend(w.b);
      forall id | id in w.s.registrations ensures Lawful(s1, w.b, w.s.registrations[id]) {
        StaysLawful(w.s, w.b, s1, w.b, w.s.registrations[id]);
      }
      forall id | id in w.registering ensures TicketLawful(s1, w.b, w.registering[id]) {
        TicketCarried(w.s, w.b, s1, w.b, w.registering[id]);
      }
    }
  }

  lemma BegunLawful(s: State, b: Backend, d: BufferDescriptor, backend: nat, domain: nat, env: Envelope)
    requires Sized(d) && RegisterCheck(s, b, d, backend, domain, env).Ok?
    ensures var (s1, rec) := RegisterCheck(s, b, d, backend, domain, env).value;
            TicketLawful(s1, b, RegisterTicket(rec, d, None)) && s1.attached == s.attached
  {
    hide RegisterMiss, BegunRecord, ValidateRange;
    CheckFacts(s, b, d, backend, domain, env);
  }

  lemma CallRegisterKept(w: World, id: nat)
    requires Tidy(w) && Kept(w) && CallRegisterStep(w, id).b.nextNumber <= SEQUENCE_LIMIT
    ensures Kept(CallRegisterStep(w, id))
  {
    hide Tidy, RegisterBuffer, Inverse, Issued, Lawful, TicketLawful, EndingLawful, BackendKeeps;
    var w' := CallRegisterStep(w, id);
    if id in w.registering && w.registering[id].grant.None? {
      var d := w.registering[id].d;
      TicketSized(w.s, w.b, w.registering[id]);
      CallKeeps(w.b, DoRegister(d));
      AppliedRegister(w.b, d);
      NoEmptyHandle(w.b);
      InverseKeptBy(w.b, Apply(w.b, DoRegister(d)));
      SameBackend(w.b);
      forall k | k in w.s.registrations ensures Lawful(w'.s, w'.b, w.s.registrations[k]) {
        StaysLawful(w.s, w.b, w'.s, w'.b, w.s.registrations[k]);
      }
      forall k | k in w.deregistering ensures EndingLawful(w'.b, w.deregistering[k], w.s.registrations[k]) {
        EndingStays(w.s, w.b, w'.b, w.deregistering[k], w.s.registrations[k]);
      }
      forall k | k in w'.registering ensures TicketLawful(w'.s, w'.b, w'.registering[k]) {
        TicketCarried(w.s, w.b, w'.s, w'.b, w.registering[k]);
        if k == id {
          GrantLawful(w.s, w.b, w.registering[id]);
        }
      }
    }
  }

  lemma EndingStays(s: State, b: Backend, b': Backend, t: DeregisterTicket, rec: RegistrationRecord)
    requires EndingLawful(b, t, rec) && Lawful(s, b, rec) && BackendKeeps(b, b')
    ensures EndingLawful(b', t, rec)
  {
    hide Issued, Inverse, Extent;
  }

  lemma TicketSized(s: State, b: Backend, t: RegisterTicket)
    requires TicketLawful(s, b, t)
    ensures Sized(t.d)
  {
  }

  lemma AppliedRegister(b: Backend, d: BufferDescriptor)
    requires Sized(d)
    ensures Apply(b, DoRegister(d)) == match RegisterBuffer(b, d) case Ok((b', _)) => b' case Err(_) => b
  {
    hide RegisterBuffer;
  }

  lemma GrantLawful(s: State, b: Backend, t: RegisterTicket)
    requires TicketLawful(s, b, t) && t.grant.None? && 0 < b.nextNumber && RegisterBuffer(b, t.d).Ok?
    ensures var (b', g) := RegisterBuffer(b, t.d).value; TicketLawful(s, b', t.(grant := Some(g)))
  {
    hide CanRegister, Region, HandleOf, RemoteKeyId, LocalKeyId, Xor64, ValidateRange;
    var (b', g) := RegisterBuffer(b, t.d).value;
    assert g.handle == HandleAt(b.seed, b.nextNumber) && b.nextNumber < b'.nextNumber && b'.seed == b.seed;
  }

  lemma CommitRegisterKept(w: World, id: nat)
    requires Tidy(w) && Kept(w)
    ensures Kept(CommitRegisterStep(w, id))
  {
    hide Inverse, Issued, Lawful, TicketLawful, EndingLawful, CommittedRecord, AccountCommit;
    var w' := CommitRegisterStep(w, id);
    if id in w.registering && w.registering[id].grant.Some? {
      var t := w.registering[id];
      SameBackend(w.b);
      CommitLawful(w.s, w.b, t);
      forall k | k in w.s.registrations ensures Lawful(w'.s, w.b, w.s.registrations[k]) {
        StaysLawful(w.s, w.b, w'.s, w.b, w.s.registrations[k]);
      }
      forall k | k in w'.registering ensures TicketLawful(w'.s, w.b, w'.registering[k]) {
        TicketCarried(w.s, w.b, w'.s, w.b, w.registering[k]);
      }
    }
  }

  lemma CommitLawful(s: State, b: Backend, t: RegisterTicket)
    requires TicketLawful(s, b, t) && t.grant.Some?
    ensures var r := CommittedRecord(s, t.rec, t.grant.value);
            Lawful(RegisterCommit(s, t.rec, t.grant.value), b, r) && r.lifecycle.ACTIVE?
  {
    hide Issued, AccountCommit;
  }

  lemma RegisteringKept(w: World, d: BufferDescriptor, backend: nat, domain: nat, env: Envelope)
    requires Tidy(w) && Kept(w) && Sized(d) && RegisterCall(w, d, backend, domain, env).b.nextNumber <= SEQUENCE_LIMIT
    ensures Kept(RegisterCall(w, d, backend, domain, env))
  {
    hide Kept, RegisterCall, CheckRegisterStep, CallRegisterStep, CommitRegisterStep, StepsTo;
    var id := w.s.nextRegistration;
    assert id !in w.registering;
    RegisterInPieces(w, d, backend, domain, env);
    var w1 := CheckRegisterStep(w, d, backend, domain, env);
    var w2 := CallRegisterStep(w1, id);
    CommitLeavesBackend(w2, id);
    CheckRegisterKept(w, d, backend, domain, env);
    CheckRegisterMoves(w, d, backend, domain, env);
    CallRegisterKept(w1, id);
    CallRegisterMoves(w1, id);
    CommitRegisterKept(w2, id);
  }

  lemma CommitLeavesBackend(w: World, id: nat)
    ensures CommitRegisterStep(w, id).b == w.b && CommitDeregisterStep(w, id).b == w.b
  {
  }

  // ---- the pieces of a deregister call --------------------------------------------------------------------------

  lemma CheckDeregisterKept(w: World, id: nat)
    requires Tidy(w) && Kept(w)
    ensures Kept(CheckDeregisterStep(w, id))
  {
    hide Inverse, Issued, Lawful, TicketLawful, EndingLawful, BackendKeeps;
    var w' := CheckDeregisterStep(w, id);
    if MayDeregister(w.s, id) && id !in w.deregistering {
      SameBackend(w.b);
      forall k | k in w.s.registrations ensures Lawful(w'.s, w.b, w'.s.registrations[k]) {
        StaysLawful(w.s, w.b, w'.s, w.b, w.s.registrations[k]);
        MarkedLawful(w'.s, w.b, w.s.registrations[k]);
      }
      forall k | k in w.registering ensures TicketLawful(w'.s, w.b, w.registering[k]) {
        TicketCarried(w.s, w.b, w'.s, w.b, w.registering[k]);
      }
      NewEnding(w.b, w.s.registrations[id]);
    }
  }

  lemma MarkedLawful(s: State, b: Backend, rec: RegistrationRecord)
    requires Lawful(s, b, rec)
    ensures Lawful(s, b, rec.(lifecycle := DEREGISTERING))
    ensures rec.handle !in b.entries ==> Lawful(s, b, rec.(lifecycle := FAILED))
  {
    hide Issued;
  }

  lemma NewEnding(b: Backend, rec: RegistrationRecord)
    ensures EndingLawful(b, DeregisterTicket.Checked(rec.backend, rec.handle), rec.(lifecycle := DEREGISTERING))
  {
  }

  lemma CallDeregisterKept(w: World, id: nat)
    requires Tidy(w) && Kept(w) && w.b.nextNumber <= SEQUENCE_LIMIT
    ensures Kept(CallDeregisterStep(w, id))
  {
    hide Tidy, Inverse, Issued, Lawful, TicketLawful, EndingLawful, BackendKeeps, Release;
    var w' := CallDeregisterStep(w, id);
    if id in w.deregistering && w.deregistering[id].Checked? {
      var rec := w.s.registrations[id];
      SameBackend(w.b);
      ReleaseKeeps(w, id);
      InverseKeptBy(w.b, w'.b);
      forall k | k in w.s.registrations ensures Lawful(w'.s, w'.b, w.s.registrations[k]) {
        StaysLawful(w.s, w.b, w'.s, w'.b, w.s.registrations[k]);
      }
      forall k | k in w'.deregistering ensures EndingLawful(w'.b, w'.deregistering[k], w.s.registrations[k]) {
        if k == id {
          CalledLawful(w'.b, w'.deregistering[id], rec);
        } else {
          EndingStays(w.s, w.b, w'.b, w.deregistering[k], w.s.registrations[k]);
        }
      }
      forall k | k in w.registering ensures TicketLawful(w'.s, w'.b, w.registering[k]) {
        TicketCarried(w.s, w.b, w'.s, w'.b, w.registering[k]);
      }
    }
  }

  lemma CalledLawful(b: Backend, t: DeregisterTicket, rec: RegistrationRecord)
    requires t.Called? && rec.handle !in b.entries
    ensures EndingLawful(b, t, rec)
  {
  }

  /** Whether the backend knew the handle or not, it does not know it afterwards. */
  lemma ReleaseKeeps(w: World, id: nat)
    requires Kept(w) && id in w.deregistering && w.deregistering[id].Checked? && w.b.nextNumber <= SEQUENCE_LIMIT
    ensures var w' := CallDeregisterStep(w, id);
            && BackendKeeps(w.b, w'.b) && w.s.registrations[id].handle !in w'.b.entries
            && w'.deregistering[id].Called?
  {
    hide Inverse, Issued, TicketLawful, BackendKeeps;
    var rec := w.s.registrations[id];
    assert Lawful(w.s, w.b, rec);
    SameBackend(w.b);
    CallKeeps(w.b, DoRelease(rec.handle));
  }

  lemma CommitDeregisterKept(w: World, id: nat)
    requires Tidy(w) && Kept(w)
    ensures Kept(CommitDeregisterStep(w, id))
  {
    hide Tidy, Inverse, Issued, Lawful, TicketLawful, EndingLawful, BackendKeeps, AccountInvalidate;
    var w' := CommitDeregisterStep(w, id);
    if id in w.deregistering && w.deregistering[id].Called? {
      SameBackend(w.b);
      HandleGone(w.b, w.deregistering[id], w.s.registrations[id]);
      forall k | k in w'.s.registrations ensures Lawful(w'.s, w.b, w'.s.registrations[k]) {
        StaysLawful(w.s, w.b, w'.s, w.b, w.s.registrations[k]);
        MarkedLawful(w'.s, w.b, w.s.registrations[k]);
      }
      forall k | k in w.registering ensures TicketLawful(w'.s, w.b, w.registering[k]) {
        TicketCarried(w.s, w.b, w'.s, w.b, w.registering[k]);
      }
    }
  }

  lemma HandleGone(b: Backend, t: DeregisterTicket, rec: RegistrationRecord)
    requires EndingLawful(b, t, rec) && t.Called?
    ensures rec.handle !in b.entries
  {
  }

  lemma DeregisteringKept(w: World, id: nat)
    requires Tidy(w) && Kept(w) && w.b.nextNumber <= SEQUENCE_LIMIT
    ensures Kept(DeregisterCall(w, id))
  {
    hide Kept, CheckDeregisterStep, CallDeregisterStep, CommitDeregisterStep, DeregisterCall, StepsTo;
    if MayDeregister(w.s, id) {
      assert id !in w.deregistering;
      DeregisterInPieces(w, id);
      var w1 := CheckDeregisterStep(w, id);
      var w2 := CallDeregisterStep(w1, id);
      CheckLeavesBackend(w, id);
      CheckDeregisterKept(w, id);
      CheckDeregisterMoves(w, id);
      CallDeregisterKept(w1, id);
      CallDeregisterMoves(w1, id);
      CommitDeregisterKept(w2, id);
    } else {
      Charges.NothingDone(w, id);
    }
  }

  lemma CheckLeavesBackend(w: World, id: nat)
    ensures CheckDeregisterStep(w, id).b == w.b
  {
  }

  // ---- runs ---------------------------------------------------------------------------------------------------------

  lemma StepKept(w: World, op: Op)
    requires Tidy(w) && Kept(w) && Proper(op) && !op.Recovering? && Step(w, op).b.nextNumber <= SEQUENCE_LIMIT
    ensures Kept(Step(w, op))
  {
    hide Tidy, Kept, RegisterCall, DeregisterCall, CheckRegisterStep, CallRegisterStep, CommitRegisterStep;
    hide CheckDeregisterStep, CallDeregisterStep, CommitDeregisterStep, Elsewhere;
    NumberStays(w, op);
    OpKinds(op);
    if Elsewhere(op) {
      ElsewhereKept(w, op);
    } else {
      match op
      case Registering(d, backend, domain, env) => RegisteringKept(w, d, backend, domain, env);
      case CheckRegister(d, backend, domain, env) => CheckRegisterKept(w, d, backend, domain, env);
      case CallRegister(id) => CallRegisterKept(w, id);
      case CommitRegister(id) => CommitRegisterKept(w, id);
      case Deregistering(id) => DeregisteringKept(w, id);
      case CheckDeregister(id) => CheckDeregisterKept(w, id);
      case CallDeregister(id) => CallDeregisterKept(w, id);
      case CommitDeregister(id) => CommitDeregisterKept(w, id);
    }
  }

  lemma OpKinds(op: Op)
    ensures Elsewhere(op) || op.Recovering? || op.Registering? || op.CheckRegister? || op.CallRegister? || op.CommitRegister?
            || op.Deregistering? || op.CheckDeregister? || op.CallDeregister? || op.CommitDeregister?
  {
  }

  lemma {:induction false} RunKept(w: World, ops: seq<Op>)
    requires Tidy(w) && Kept(w) && AllProper(ops) && RecoverFree(ops) && Run(w, ops).b.nextNumber <= SEQUENCE_LIMIT
    ensures Kept(Run(w, ops))
    decreases |ops|
  {
    hide Step, Tidy, Kept, StepsTo;
    if ops != [] {
      NumberGrowsOnRuns(Step(w, ops[0]), ops[1..]);
      StepMoves(w, ops[0]);
      StepKept(w, ops[0]);
      RunKept(Step(w, ops[0]), ops[1..]);
    }
  }

  /**
   * In every recover-free interleaving an allowed request names a valid registration with
   * an unrevoked key that is active, or marked for deregistration with its backend call
   * still to come; authority, incarnation, backend entry, rights and range are as in
   * whole-operation runs. Domain and buffer generation need not be.
   */
  lemma AllowInterleaved(seed: nat, ops: seq<Op>, q: Request)
    requires AllProper(ops) && RecoverFree(ops) && Ranged(q)
    requires var w := Run(Start(seed), ops); w.b.nextNumber <= SEQUENCE_LIMIT && Access(w.s, w.b, q) == ALLOW
    ensures EntitledMeanwhile(Run(Start(seed), ops), q)
  {
    hide Run, Tidy, Kept, Access, EntitledMeanwhile;
    StartTidy(seed);
    StartKept(seed);
    RunKept(Start(seed), ops);
    AllowMeanwhile(Run(Start(seed), ops), q);
  }

  lemma StartKept(seed: nat)
    ensures Kept(Start(seed))
  {
  }
}
