/**
 * What any interleaving of steps does to a registration, as long as nothing is
 * recovered. Each step moves a record along the lifecycle table and never makes
 * it fresher; an identity that has left the tables never comes back.
 */
module Evolution {
  import opened Records
  import opened Checks
  import opened Words
  import opened BackendModel
  import opened Runtime
  import opened Worlds

  // ---- how one record changes ---------------------------------------------------------------

  /** Only the status of the registration, its lease count and its key's currency differ. */
  predicate SameIdentity(r: RegistrationRecord, r': RegistrationRecord) {
    r' == r.(lifecycle := r'.lifecycle, freshness := r'.freshness, reason := r'.reason, leaseCount := r'.leaseCount,
             remoteKey := r.remoteKey.(keyGeneration := r'.remoteKey.keyGeneration, revoked := r'.remoteKey.revoked,
                                       opaqueValue := r'.remoteKey.opaqueValue))
  }

  /** Freshness is only ever lost, the key generation only ever rises. */
  predicate NoFresher(r: RegistrationRecord, r': RegistrationRecord) {
    && (r'.freshness == r.freshness || r'.freshness == FRESH_STALE)
    && r.remoteKey.keyGeneration <= r'.remoteKey.keyGeneration
  }

  /** Losing activity by revocation or invalidation, or the key, costs freshness; staying active does not. */
  predicate Together(r: RegistrationRecord, r': RegistrationRecord) {
    && (r'.lifecycle.ACTIVE? ==> r.lifecycle.ACTIVE? && r'.freshness == r.freshness)
    && (r'.lifecycle != r.lifecycle && (r'.lifecycle.REVOKING? || r'.lifecycle.REVOKED? || r'.lifecycle.STALE?) ==>
          r'.freshness == FRESH_STALE)
    && (r'.remoteKey.revoked && !r.remoteKey.revoked ==> r'.freshness == FRESH_STALE)
  }

  /** One step: the lifecycle stays, or takes one or two edges of the table and falls in rank. */
  ghost predicate Moves(r: RegistrationRecord, r': RegistrationRecord) {
    && SameIdentity(r, r') && NoFresher(r, r') && Together(r, r')
    && (r'.lifecycle == r.lifecycle || (Path(r.lifecycle, r'.lifecycle) && Rank(r'.lifecycle) < Rank(r.lifecycle)))
  }

  /** Any number of steps. */
  predicate Since(r: RegistrationRecord, r': RegistrationRecord) {
    && SameIdentity(r, r') && NoFresher(r, r')
    && (r'.lifecycle == r.lifecycle || Rank(r'.lifecycle) < Rank(r.lifecycle))
  }

  /** The lifecycles a record in the table can have. */
  predicate Stored(l: Lifecycle) {
    l.ACTIVE? || l.REVOKING? || l.REVOKED? || l.STALE? || l.DEREGISTERING? || l.FAILED?
  }

  /** `r` was committed from the record begun as `rec`. */
  predicate CommittedFrom(rec: RegistrationRecord, r: RegistrationRecord) {
    && r.id == rec.id && r.bufferId == rec.bufferId && r.bufferGeneration == rec.bufferGeneration
    && r.backend == rec.backend && r.backendGeneration == rec.backendGeneration && r.domainId == rec.domainId
    && r.boot == rec.boot
  }

  // ---- how a world changes ----------------------------------------------------------------------

  /** The tables and the calls in flight fit together. */
  ghost predicate Tidy(w: World) {
    && (forall id :: id in w.s.registrations ==>
          && id < w.s.nextRegistration && w.s.registrations[id].id == id && Stored(w.s.registrations[id].lifecycle)
          && w.s.registrations[id].backendGeneration <= w.b.generation)
    && (forall id :: id in w.registering ==>
          && id < w.s.nextRegistration && id !in w.s.registrations && w.registering[id].rec.id == id
          && w.registering[id].rec.leaseCount == 0 && w.registering[id].rec.reason == []
          && w.registering[id].rec.backendGeneration <= w.b.generation)
    && (forall id :: id in w.deregistering ==>
          id in w.s.registrations && w.s.registrations[id].lifecycle.DEREGISTERING?)
  }

  ghost predicate Onward(w: World, w': World) {
    && w.s.nextRegistration <= w'.s.nextRegistration && w.b.generation <= w'.b.generation
    && (forall id :: id in w'.registering ==>
          id >= w.s.nextRegistration || (id in w.registering && w'.registering[id].rec == w.registering[id].rec))
  }

  /** One step. */
  ghost predicate StepsTo(w: World, w': World) {
    && Onward(w, w')
    && (forall id :: id in w'.s.registrations && id < w.s.nextRegistration ==>
          if id in w.s.registrations then Moves(w.s.registrations[id], w'.s.registrations[id])
          else id in w.registering && CommittedFrom(w.registering[id].rec, w'.s.registrations[id]))
  }

  /** Any number of steps. */
  ghost predicate Evolves(w: World, w': World) {
    && Onward(w, w')
    && (forall id :: id in w'.s.registrations && id < w.s.nextRegistration ==>
          if id in w.s.registrations then Since(w.s.registrations[id], w'.s.registrations[id])
          else id in w.registering && CommittedFrom(w.registering[id].rec, w'.s.registrations[id]))
  }

  // ---- the steps ------------------------------------------------------------------------------------

  lemma Still(r: RegistrationRecord)
    ensures Moves(r, r)
  {
  }

  /** Steps that leave the registrations and the calls in flight alone. */
  lemma Untouched(w: World, w': World)
    requires Tidy(w)
    requires w'.s.registrations == w.s.registrations && w'.s.nextRegistration == w.s.nextRegistration
    requires w'.registering == w.registering && w'.deregistering == w.deregistering
    requires w.b.generation <= w'.b.generation
    ensures Tidy(w') && StepsTo(w, w')
  {
    hide Moves, CommittedFrom;
    forall id | id in w.s.registrations ensures Moves(w.s.registrations[id], w.s.registrations[id]) {
      Still(w.s.registrations[id]);
    }
  }

  /** Steps that change one record. */
  lemma OneRecord(w: World, w': World, id: nat, r: RegistrationRecord)
    requires Tidy(w) && id in w.s.registrations
    requires Moves(w.s.registrations[id], r) && Stored(r.lifecycle)
    requires id in w.deregistering ==> r.lifecycle == w.s.registrations[id].lifecycle
    requires w'.s.registrations == w.s.registrations[id := r] && w'.s.nextRegistration == w.s.nextRegistration
    requires w'.registering == w.registering && w'.deregistering == w.deregistering
    requires w.b.generation <= w'.b.generation
    ensures Tidy(w') && StepsTo(w, w')
  {
    hide CommittedFrom, Path;
    forall k | k in w.s.registrations ensures Moves(w.s.registrations[k], w'.s.registrations[k]) {
      Still(w.s.registrations[k]);
    }
  }

  lemma PathsUsed()
    ensures Path(ACTIVE, REVOKED) && Path(ACTIVE, REVOKING) && Path(ACTIVE, STALE) && Path(ACTIVE, DEREGISTERING)
    ensures Path(ACTIVE, FAILED) && Path(REVOKED, DEREGISTERING) && Path(REVOKED, FAILED)
    ensures Path(STALE, DEREGISTERING) && Path(STALE, FAILED) && Path(DEREGISTERING, FAILED)
  {
    assert CanTransition(ACTIVE, REVOKING) && CanTransition(REVOKING, REVOKED);
    assert CanTransition(ACTIVE, DEREGISTERING) && CanTransition(DEREGISTERING, FAILED);
    assert CanTransition(REVOKED, DEREGISTERING);
    assert CanTransition(STALE, DEREGISTERING);
  }

  lemma InvalidationMoves(r: RegistrationRecord, c: Cause)
    requires Stored(r.lifecycle) && Matches(r, c)
    ensures Moves(r, Invalidated(r, c)) && Stored(Invalidated(r, c).lifecycle) && r.lifecycle.ACTIVE?
  {
    hide Path;
    PathsUsed();
  }

  lemma BulkStep(w: World, w': World, order: seq<nat>, c: Cause)
    requires Tidy(w)
    requires w'.s.registrations == InvalidateAll(w.s, order, c).registrations
    requires w'.s.nextRegistration == w.s.nextRegistration && w'.b == w.b
    requires w'.registering == w.registering && w'.deregistering == w.deregistering
    ensures Tidy(w') && StepsTo(w, w')
  {
    hide Moves, CommittedFrom, Matches, Invalidated, InvalidateAll;
    InvalidateAllEffect(w.s, order, c);
    forall id | id in w.s.registrations
      ensures Moves(w.s.registrations[id], w'.s.registrations[id])
      ensures w'.s.registrations[id].id == id && Stored(w'.s.registrations[id].lifecycle)
      ensures w'.s.registrations[id].backendGeneration <= w'.b.generation
      ensures id in w.deregistering ==> w'.s.registrations[id].lifecycle.DEREGISTERING?
    {
      var r := w.s.registrations[id];
      Still(r);
      if Matches(r, c) {
        InvalidationMoves(r, c);
        InvalidatedIdentity(r, c);
      }
    }
  }

  lemma InvalidatedIdentity(r: RegistrationRecord, c: Cause)
    ensures Invalidated(r, c).id == r.id && Invalidated(r, c).backendGeneration == r.backendGeneration
  {
  }

  lemma DropDomainStep(w: World, d: nat, order: seq<nat>)
    requires Tidy(w)
    ensures Tidy(w.(s := DestroyDomain(w.s, d, order))) && StepsTo(w, w.(s := DestroyDomain(w.s, d, order)))
  {
    hide InvalidateAll, StepsTo, Tidy;
    var w' := w.(s := DestroyDomain(w.s, d, order));
    if d in w.s.domains {
      InvalidateAllFrame(w.s, order, DomainDestroyed(d));
      BulkStep(w, w', order, DomainDestroyed(d));
    } else {
      Untouched(w, w');
    }
  }

  lemma InvalidateIgnores(s: State, t: State, order: seq<nat>, c: Cause)
    requires t == s.(nextBuffer := t.nextBuffer)
    ensures InvalidateAll(t, order, c) == InvalidateAll(s, order, c).(nextBuffer := t.nextBuffer)
  {
    hide Matches, Invalidated, AccountInvalidate;
    if order != [] {
      InvalidateIgnores(s, t, order[..|order| - 1], c);
      InvalidateAllFrame(s, order[..|order| - 1], c);
    }
  }

  lemma NewBufferStep(w: World, d: BufferDescriptor, order: seq<nat>)
    requires Tidy(w)
    ensures Tidy(w.(s := CreateBuffer(w.s, d, order))) && StepsTo(w, w.(s := CreateBuffer(w.s, d, order)))
  {
    hide InvalidateAll, StepsTo, Tidy;
    var w' := w.(s := CreateBuffer(w.s, d, order));
    var key := BufferKey(w.s, d);
    if !CreateRefused(w.s, d) && key in w.s.buffers {
      var s0 := if d.id != 0 then w.s else w.s.(nextBuffer := w.s.nextBuffer + 1);
      InvalidateIgnores(w.s, s0, order, Reallocated(key));
      InvalidateAllFrame(w.s, order, Reallocated(key));
      BulkStep(w, w', order, Reallocated(key));
    } else {
      Untouched(w, w');
    }
  }

  lemma LeasingStep(w: World, id: nat, env: Envelope, needed: Mask)
    requires Tidy(w)
    ensures Tidy(w.(s := AcquireLease(w.s, id, env, needed))) && StepsTo(w, w.(s := AcquireLease(w.s, id, env, needed)))
  {
    hide ValidateAuthority, Superset, StepsTo;
    var w' := w.(s := AcquireLease(w.s, id, env, needed));
    if LeaseMissReason(w.s, id, env, needed).Some? {
      Untouched(w, w');
    } else {
      OneRecord(w, w', id, w'.s.registrations[id]);
    }
  }

  lemma ReturningStep(w: World, lease: nat)
    requires Tidy(w)
    ensures Tidy(w.(s := ReleaseLease(w.s, lease))) && StepsTo(w, w.(s := ReleaseLease(w.s, lease)))
  {
    hide StepsTo;
    var w' := w.(s := ReleaseLease(w.s, lease));
    if w'.s.registrations == w.s.registrations {
      Untouched(w, w');
    } else {
      var id := w.s.leases[lease].registration;
      OneRecord(w, w', id, w'.s.registrations[id]);
    }
  }

  lemma RevokingStep(w: World, id: nat, order: seq<nat>)
    requires Tidy(w)
    ensures Tidy(w.(s := HardRevoke(w.s, id, order))) && StepsTo(w, w.(s := HardRevoke(w.s, id, order)))
  {
    hide RevokeLeases, StepsTo, Path;
    var w' := w.(s := HardRevoke(w.s, id, order));
    if Revocable(w.s, id) {
      var r := RevokedRecord(w.s.registrations[id]);
      RevokeLeasesFrame(w.s.(registrations := w.s.registrations[id := r]), order, id);
      PathsUsed();
      OneRecord(w, w', id, r);
    } else {
      Untouched(w, w');
    }
  }

  lemma SoftRevokingStep(w: World, id: nat)
    requires Tidy(w)
    ensures Tidy(w.(s := SoftRevoke(w.s, id))) && StepsTo(w, w.(s := SoftRevoke(w.s, id)))
  {
    hide StepsTo, Path;
    var w' := w.(s := SoftRevoke(w.s, id));
    if Revocable(w.s, id) {
      PathsUsed();
      OneRecord(w, w', id, w'.s.registrations[id]);
    } else {
      Untouched(w, w');
    }
  }

  lemma RotatingStep(w: World, id: nat)
    requires Tidy(w)
    ensures var (s', b') := RotateRegistration(w.s, w.b, id);
            Tidy(w.(s := s', b := b')) && StepsTo(w, w.(s := s', b := b'))
  {
    hide Xor64, StepsTo, Path;
    var (s', b') := RotateRegistration(w.s, w.b, id);
    if Revocable(w.s, id) {
      OneRecord(w, w.(s := s', b := b'), id, RotatedRecord(w.s.registrations[id]));
    } else {
      Untouched(w, w.(s := s', b := b'));
    }
  }

  lemma CheckRegisterMoves(w: World, d: BufferDescriptor, backend: nat, domain: nat, env: Envelope)
    requires Tidy(w) && Sized(d)
    ensures var w' := CheckRegisterStep(w, d, backend, domain, env); Tidy(w') && StepsTo(w, w')
  {
    hide RegisterMiss, Moves;
    forall id | id in w.s.registrations ensures Moves(w.s.registrations[id], w.s.registrations[id]) {
      Still(w.s.registrations[id]);
    }
  }

  lemma CallRegisterMoves(w: World, id: nat)
    requires Tidy(w)
    ensures var w' := CallRegisterStep(w, id); Tidy(w') && StepsTo(w, w')
  {
    hide CanRegister, GrantFor, Moves;
    forall id | id in w.s.registrations ensures Moves(w.s.registrations[id], w.s.registrations[id]) {
      Still(w.s.registrations[id]);
    }
  }

  lemma CommitRegisterMoves(w: World, id: nat)
    requires Tidy(w)
    ensures var w' := CommitRegisterStep(w, id); Tidy(w') && StepsTo(w, w')
  {
    hide Moves, AccountCommit;
    forall id | id in w.s.registrations ensures Moves(w.s.registrations[id], w.s.registrations[id]) {
      Still(w.s.registrations[id]);
    }
  }

  lemma CheckDeregisterMoves(w: World, id: nat)
    requires Tidy(w)
    ensures var w' := CheckDeregisterStep(w, id); Tidy(w') && StepsTo(w, w')
  {
    hide StepsTo, Path;
    var w' := CheckDeregisterStep(w, id);
    if MayDeregister(w.s, id) && id !in w.deregistering {
      PathsUsed();
      OneRecord(w, w'.(deregistering := w.deregistering), id, w'.s.registrations[id]);
      TicketsAside(w, w'.(deregistering := w.deregistering), w'.deregistering);
    } else {
      Untouched(w, w');
    }
  }

  /** The deregistrations in flight play no part in how the world evolves. */
  lemma TicketsAside(w: World, w': World, ts: map<nat, DeregisterTicket>)
    requires Tidy(w')
    requires forall id :: id in ts ==> id in w'.s.registrations && w'.s.registrations[id].lifecycle.DEREGISTERING?
    ensures Tidy(w'.(deregistering := ts))
    ensures StepsTo(w, w') <==> StepsTo(w, w'.(deregistering := ts))
  {
    hide Moves, CommittedFrom, Stored;
  }

  lemma CallDeregisterMoves(w: World, id: nat)
    requires Tidy(w)
    ensures var w' := CallDeregisterStep(w, id); Tidy(w') && StepsTo(w, w')
  {
    hide StepsTo;
    var w' := CallDeregisterStep(w, id);
    Untouched(w, w.(b := w'.b));
    TicketsAside(w, w.(b := w'.b), w'.deregistering);
  }

  /** Steps that erase a record. */
  lemma Erased(w: World, w': World, id: nat)
    requires Tidy(w)
    requires w'.s.registrations == w.s.registrations - {id} && w'.s.nextRegistration == w.s.nextRegistration
    requires w'.registering == w.registering && w'.deregistering == w.deregistering - {id}
    requires w.b.generation <= w'.b.generation
    ensures Tidy(w') && StepsTo(w, w')
  {
    hide Moves, CommittedFrom, Stored;
    forall k | k in w.s.registrations ensures Moves(w.s.registrations[k], w.s.registrations[k]) {
      Still(w.s.registrations[k]);
    }
  }

  /** Steps that mark a record whose deregistration the backend refused. */
  lemma MarkedFailed(w: World, w': World, id: nat)
    requires Tidy(w) && id in w.s.registrations
    requires Deregisterable(w.s.registrations[id].lifecycle) || w.s.registrations[id].lifecycle.DEREGISTERING?
    requires w'.s.registrations == w.s.registrations[id := w.s.registrations[id].(lifecycle := FAILED)]
    requires w'.s.nextRegistration == w.s.nextRegistration && w'.b == w.b
    requires w'.registering == w.registering && w'.deregistering == w.deregistering - {id}
    ensures Tidy(w') && StepsTo(w, w')
  {
    hide Path, StepsTo;
    var w0 := w.(deregistering := w'.deregistering);
    PathsUsed();
    TicketsAside(w, w, w0.deregistering);
    OneRecord(w0, w', id, w'.s.registrations[id]);
    SameStart(w, w0, w');
  }

  lemma SameStart(w: World, w0: World, w': World)
    requires w0 == w.(deregistering := w0.deregistering) && StepsTo(w0, w')
    ensures StepsTo(w, w')
  {
    hide Moves, CommittedFrom;
  }

  lemma CommitDeregisterMoves(w: World, id: nat)
    requires Tidy(w)
    ensures var w' := CommitDeregisterStep(w, id); Tidy(w') && StepsTo(w, w')
  {
    hide AccountInvalidate, StepsTo;
    var w' := CommitDeregisterStep(w, id);
    if id !in w.deregistering || w.deregistering[id].Checked? {
      Untouched(w, w');
    } else if w.deregistering[id].ok {
      Erased(w, w', id);
    } else {
      MarkedFailed(w, w', id);
    }
  }

  /** Steps that enter a record under the next identity. */
  lemma Entered(w: World, w': World, r: RegistrationRecord)
    requires Tidy(w) && r.id == w.s.nextRegistration && Stored(r.lifecycle) && r.backendGeneration <= w'.b.generation
    requires w'.s.registrations == w.s.registrations[r.id := r] && w'.s.nextRegistration == w.s.nextRegistration + 1
    requires w'.registering == w.registering && w'.deregistering == w.deregistering
    requires w.b.generation <= w'.b.generation
    ensures Tidy(w') && StepsTo(w, w')
  {
    hide Moves, CommittedFrom, Stored;
    forall k | k in w.s.registrations ensures Moves(w.s.registrations[k], w.s.registrations[k]) {
      Still(w.s.registrations[k]);
    }
  }

  lemma RegisteringMoves(w: World, d: BufferDescriptor, backend: nat, domain: nat, env: Envelope)
    requires Tidy(w) && Sized(d)
    ensures var w' := RegisterCall(w, d, backend, domain, env); Tidy(w') && StepsTo(w, w')
  {
    hide RegisterMiss, CanRegister, GrantFor, AccountCommit, StepsTo, BegunRecord;
    var w' := RegisterCall(w, d, backend, domain, env);
    match RegisterCheck(w.s, w.b, d, backend, domain, env)
    case Err(_) => Untouched(w, w');
    case Ok((s1, rec)) =>
      CheckedFirst(w.s, w.b, d, backend, domain, env);
      match RegisterBuffer(w.b, d)
      case Err(_) => assert false;
      case Ok((_, g)) => Entered(w, w', CommittedRecord(s1, rec, g));
  }

  /** What the check has established when it passes. */
  lemma CheckedFirst(s: State, b: Backend, d: BufferDescriptor, backend: nat, domain: nat, env: Envelope)
    requires Sized(d) && RegisterCheck(s, b, d, backend, domain, env).Ok?
    ensures CanRegister(b.profile, d).None?
    ensures BegunRecord(s, b, d, backend, domain, env).id == s.nextRegistration
    ensures BegunRecord(s, b, d, backend, domain, env).backendGeneration == b.generation
    ensures BegunRecord(s, b, d, backend, domain, env).bufferId == d.id
  {
    hide CanRegister, ValidateAuthority, ValidateRange;
  }

  lemma DeregisteringMoves(w: World, id: nat)
    requires Tidy(w)
    ensures var w' := DeregisterCall(w, id); Tidy(w') && StepsTo(w, w')
  {
    hide AccountInvalidate, StepsTo;
    var w' := DeregisterCall(w, id);
    if !MayDeregister(w.s, id) {
      Untouched(w, w');
    } else {
      var rec, s1 := w.s.registrations[id], DeregisterCheck(w.s, id);
      assert id !in w.deregistering;
      assert w.deregistering - {id} == w.deregistering;
      if DeregisterBackend(s1, w.b, rec.backend, rec.handle).None? {
        MarkedFailed(w, w', id);
      } else {
        assert s1.registrations - {id} == w.s.registrations - {id};
        Erased(w, w', id);
      }
    }
  }

  // ---- every step ---------------------------------------------------------------------------------------

  /** Operations that leave every registration as it is. */
  predicate Quiet(op: Op) {
    op.SetTo? || op.NextEpoch? || op.ParticipantRestart? || op.Attach? || op.NewDomain? || op.Reusing?
    || op.Accessing? || op.Calling?
  }

  lemma QuietStep(w: World, op: Op)
    requires Tidy(w) && Proper(op) && Quiet(op)
    ensures Tidy(Step(w, op)) && StepsTo(w, Step(w, op))
  {
    hide Tidy, StepsTo, Apply, Step, OnlyTallies;
    QuietFrame(w, op);
    if op.Calling? {
      GenerationGrows(w.b, op.c);
    }
    Untouched(w, Step(w, op));
  }

  lemma ReuseOnlyCounts(s: State, res: Result<nat, ReuseMiss>)
    ensures ReuseCounted(s, res) == s.(acct := ReuseCounted(s, res).acct) && OnlyTallies(s.acct, ReuseCounted(s, res).acct)
  {
  }

  lemma AccessOnlyCounts(s: State, b: Backend, q: Request)
    requires Ranged(q)
    ensures AccessCounted(s, b, q) == s.(acct := AccessCounted(s, b, q).acct)
    ensures OnlyTallies(s.acct, AccessCounted(s, b, q).acct)
  {
    hide Access, Uncounted, AccessAccounting;
    AccessTallies(s.acct, Access(s, b, q), q);
  }

  lemma AccessTallies(a: Accounting, o: AccessOutcome, q: Request)
    ensures OnlyTallies(a, AccessAccounting(a, o, q))
  {
  }

  /** What a quiet operation can change. */
  lemma QuietFrame(w: World, op: Op)
    requires Proper(op) && Quiet(op)
    ensures var s' := Step(w, op).s;
            && s' == w.s.(authority := s'.authority, attached := s'.attached, domains := s'.domains,
                          nextDomain := s'.nextDomain, acct := s'.acct)
            && OnlyTallies(w.s.acct, s'.acct) && (w.s.attached ==> s'.attached)
            && Step(w, op) == w.(s := s', b := Step(w, op).b)
            && Step(w, op).b == if op.Calling? then Apply(w.b, op.c) else w.b
  {
    hide Apply, Uncounted, AccessCounted, ReuseCounted, Reuse, OnlyTallies;
    TalliesSame(w.s.acct);
    match op {
      case Reusing(d, backend, domain, env) => ReuseOnlyCounts(w.s, Reuse(w.s, d, backend, domain, env));
      case Accessing(q) => AccessOnlyCounts(w.s, w.b, q);
      case _ =>
    }
  }

  lemma TalliesSame(a: Accounting)
    ensures OnlyTallies(a, a)
    ensures OnlyTallies(a, a.(participantRestarts := a.participantRestarts + 1))
    ensures OnlyTallies(a, a.(protectionDomains := a.protectionDomains + 1))
  {
  }

  lemma GenerationGrows(b: Backend, c: Call)
    requires Admissible(c)
    ensures b.generation <= Apply(b, c).generation
    ensures c.DoRolloverBackend? || c.DoRestart? ==> b.generation < Apply(b, c).generation
  {
    hide CanRegister, GrantFor;
  }

  lemma CallStep(w: World, op: Op)
    requires Tidy(w) && Proper(op) && !Quiet(op) && !op.Recovering?
    requires !(op.DropDomain? || op.NewBuffer? || op.Leasing? || op.Returning? || op.Revoking? || op.SoftRevoking? || op.Rotating?)
    ensures Tidy(Step(w, op)) && StepsTo(w, Step(w, op))
  {
    hide Tidy, StepsTo, RegisterCall, DeregisterCall, CheckRegisterStep, CallRegisterStep, CommitRegisterStep;
    hide CheckDeregisterStep, CallDeregisterStep, CommitDeregisterStep;
    match op
    case Registering(d, backend, domain, env) => RegisteringMoves(w, d, backend, domain, env);
    case Deregistering(id) => DeregisteringMoves(w, id);
    case CheckRegister(d, backend, domain, env) => CheckRegisterMoves(w, d, backend, domain, env);
    case CallRegister(id) => CallRegisterMoves(w, id);
    case CommitRegister(id) => CommitRegisterMoves(w, id);
    case CheckDeregister(id) => CheckDeregisterMoves(w, id);
    case CallDeregister(id) => CallDeregisterMoves(w, id);
    case CommitDeregister(id) => CommitDeregisterMoves(w, id);
  }

  /** Lifecycle refinement, and everything else one step keeps. */
  lemma StepMoves(w: World, op: Op)
    requires Tidy(w) && Proper(op) && !op.Recovering?
    ensures Tidy(Step(w, op)) && StepsTo(w, Step(w, op))
  {
    hide Tidy, StepsTo, DestroyDomain, CreateBuffer, AcquireLease, ReleaseLease, HardRevoke, SoftRevoke;
    hide RotateRegistration;
    if !Orderly(w, op) {
      Untouched(w, w);
    } else if Quiet(op) {
      QuietStep(w, op);
    } else {
      match op
      case DropDomain(d, order) => DropDomainStep(w, d, order);
      case NewBuffer(d, order) => NewBufferStep(w, d, order);
      case Leasing(id, env, needed) => LeasingStep(w, id, env, needed);
      case Returning(lease) => ReturningStep(w, lease);
      case Revoking(id, order) => RevokingStep(w, id, order);
      case SoftRevoking(id) => SoftRevokingStep(w, id);
      case Rotating(id) => RotatingStep(w, id);
      case _ => CallStep(w, op);
    }
  }

  // ---- runs -----------------------------------------------------------------------------------------------

  lemma SinceTransitive(r: RegistrationRecord, r': RegistrationRecord, r'': RegistrationRecord)
    requires (Moves(r, r') || Since(r, r')) && Since(r', r'')
    ensures Since(r, r'')
  {
    hide Path;
  }

  lemma KeptCommitted(rec: RegistrationRecord, r: RegistrationRecord, r': RegistrationRecord)
    requires CommittedFrom(rec, r) && Since(r, r')
    ensures CommittedFrom(rec, r')
  {
  }

  lemma StepsCompose(w: World, w': World, w'': World)
    requires Tidy(w) && StepsTo(w, w') && Evolves(w', w'')
    ensures Evolves(w, w'')
  {
    hide Moves, Since, CommittedFrom;
    forall id | id in w''.s.registrations && id < w.s.nextRegistration
      ensures if id in w.s.registrations then Since(w.s.registrations[id], w''.s.registrations[id])
              else id in w.registering && CommittedFrom(w.registering[id].rec, w''.s.registrations[id])
    {
      var r'' := w''.s.registrations[id];
      if id in w'.s.registrations {
        var r' := w'.s.registrations[id];
        assert Since(r', r'');
        if id in w.s.registrations {
          SinceTransitive(w.s.registrations[id], r', r'');
        } else {
          KeptCommitted(w.registering[id].rec, r', r'');
        }
      } else {
        assert id in w'.registering;
      }
    }
  }

  /** Whatever is interleaved with whatever, in runs of any length. */
  lemma {:induction false} RunEvolves(w: World, ops: seq<Op>)
    requires Tidy(w) && AllProper(ops) && RecoverFree(ops)
    ensures Tidy(Run(w, ops)) && Evolves(w, Run(w, ops))
    decreases |ops|
  {
    hide Tidy, StepsTo, Evolves, Step;
    if ops == [] {
      NoStep(w);
    } else {
      StepMoves(w, ops[0]);
      RunEvolves(Step(w, ops[0]), ops[1..]);
      StepsCompose(w, Step(w, ops[0]), Run(w, ops));
    }
  }

  lemma NoStep(w: World)
    requires Tidy(w)
    ensures Evolves(w, w)
  {
  }

  lemma StartTidy(seed: nat)
    ensures Tidy(Start(seed))
  {
  }

  // ---- a registration that stopped being valid stays invalid ---------------------------------------------------

  /** The identity was given out, and whatever it names now is not valid, if it still names anything. */
  ghost predicate Retired(w: World, id: nat) {
    && id < w.s.nextRegistration && id !in w.registering
    && (id in w.s.registrations ==> w.s.registrations[id].freshness != VALID)
  }

  /** No request, lease or reuse is granted on it. */
  ghost predicate Unusable(w: World, id: nat) {
    && (forall q :: Ranged(q) && q.registration == id ==> Access(w.s, w.b, q) != ALLOW)
    && (forall env, needed :: LeaseMissReason(w.s, id, env, needed).Some?)
    && (forall d, backend, domain, env :: Reuse(w.s, d, backend, domain, env) != Ok(id))
  }

  lemma RetiredIsUnusable(w: World, id: nat)
    requires Tidy(w) && Retired(w, id)
    ensures Unusable(w, id)
  {
    hide ValidateAuthority, Superset, Has, QueryRemoteAccess, RangeInside;
  }

  /** In every interleaving: once an identity has left freshness VALID it is never usable again. */
  lemma StaleStaysStale(w: World, ops: seq<Op>, id: nat)
    requires Tidy(w) && AllProper(ops) && RecoverFree(ops) && Retired(w, id)
    ensures Retired(Run(w, ops), id) && Unusable(Run(w, ops), id)
  {
    hide Tidy, Unusable, Run;
    RunEvolves(w, ops);
    RetiredIsUnusable(Run(w, ops), id);
  }

  // ---- a key generation that has passed stays past --------------------------------------------------------------

  /** The key of this identity has moved beyond generation `k`, or the identity is gone. */
  ghost predicate KeyPassed(w: World, id: nat, k: nat) {
    && id < w.s.nextRegistration && id !in w.registering
    && (id in w.s.registrations ==> w.s.registrations[id].remoteKey.keyGeneration > k)
  }

  lemma PassedKeyRefused(w: World, ops: seq<Op>, id: nat, k: nat)
    requires Tidy(w) && AllProper(ops) && RecoverFree(ops) && KeyPassed(w, id, k) && k != 0
    ensures KeyPassed(Run(w, ops), id, k)
    ensures forall q :: Ranged(q) && q.registration == id && q.expectedKeyGeneration == k
                    ==> Access(Run(w, ops).s, Run(w, ops).b, q) != ALLOW
  {
    hide Tidy, Run, ValidateAuthority, Superset, Has, QueryRemoteAccess, RangeInside;
    RunEvolves(w, ops);
  }

  // ---- a backend incarnation that has ended fences off its registrations ---------------------------------------------

  ghost predicate Fenced(w: World, id: nat) {
    && id < w.s.nextRegistration
    && (id in w.s.registrations ==> w.s.registrations[id].backendGeneration < w.b.generation)
    && (id in w.registering ==> w.registering[id].rec.backendGeneration < w.b.generation)
  }

  /**
   * After a rollover or a restart of the backend no registration whose check ran before
   * it is ever allowed again, even if its backend call or its commit comes after.
   */
  lemma IncarnationFence(w: World, c: Call, ops: seq<Op>, id: nat)
    requires Tidy(w) && AllProper(ops) && RecoverFree(ops) && id < w.s.nextRegistration
    requires c.DoRolloverBackend? || c.DoRestart?
    ensures var w' := Run(Step(w, Calling(c)), ops);
            Fenced(w', id) && forall q :: Ranged(q) && q.registration == id ==> Access(w'.s, w'.b, q) != ALLOW
  {
    hide Run, Tidy, Evolves, Fenced, Access, Apply;
    var w1 := Step(w, Calling(c));
    StepMoves(w, Calling(c));
    FenceRaised(w, c, id);
    RunEvolves(w1, ops);
    FencedStays(w1, Run(w1, ops), id);
    FencedRefused(Run(w1, ops), id);
  }

  lemma FenceRaised(w: World, c: Call, id: nat)
    requires Tidy(w) && id < w.s.nextRegistration && (c.DoRolloverBackend? || c.DoRestart?)
    ensures Fenced(w.(b := Apply(w.b, c)), id)
  {
    hide Apply;
    GenerationGrows(w.b, c);
  }

  lemma FencedRefused(w: World, id: nat)
    requires Fenced(w, id)
    ensures forall q :: Ranged(q) && q.registration == id ==> Access(w.s, w.b, q) != ALLOW
  {
    hide ValidateAuthority, Superset, Has, QueryRemoteAccess, RangeInside;
  }

  lemma FencedStays(w: World, w': World, id: nat)
    requires Tidy(w) && Fenced(w, id) && Evolves(w, w')
    ensures Fenced(w', id)
  {
  }

  // ---- the history of one registration is finite ---------------------------------------------------------------------

  /** How often the lifecycle of `id` changes along a run. */
  ghost function Changes(w: World, ops: seq<Op>, id: nat): nat
    requires AllProper(ops)
    decreases |ops|
  {
    if ops == [] then 0 else
      var w' := Step(w, ops[0]);
      var here := if && id in w.s.registrations && id in w'.s.registrations
                     && w.s.registrations[id].lifecycle != w'.s.registrations[id].lifecycle then 1 else 0;
      here + Changes(w', ops[1..], id)
  }

  /** Every change lowers the rank, so there are at most four, and ACTIVE is never entered again. */
  lemma {:induction false} LifecycleFinite(w: World, ops: seq<Op>, id: nat)
    requires Tidy(w) && AllProper(ops) && RecoverFree(ops)
    requires id in w.s.registrations && id in Run(w, ops).s.registrations
    ensures var (l, l') := (w.s.registrations[id].lifecycle, Run(w, ops).s.registrations[id].lifecycle);
            && Changes(w, ops, id) + Rank(l') <= Rank(l) <= 5 && 1 <= Rank(l')
            && (l' == ACTIVE ==> l == ACTIVE)
    decreases |ops|
  {
    hide Step, Path, SameIdentity, NoFresher, CommittedFrom;
    if ops != [] {
      var w' := Step(w, ops[0]);
      StepMoves(w, ops[0]);
      RunEvolves(w', ops[1..]);
      assert Run(w, ops) == Run(w', ops[1..]);
      assert id in w'.s.registrations;
      LifecycleFinite(w', ops[1..], id);
    }
  }
}
