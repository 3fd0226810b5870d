/**
 * What one recover-free step leaves alone, in one place: buffers, domains, the index from
 * buffers to registrations, and the calls in flight.
 */
module StepFrames {
  import opened Records
  import opened Checks
  import opened BackendModel
  import opened Runtime
  import opened Worlds
  import opened Evolution

  predicate ReadyToCommit(w: World, id: nat) {
    id in w.registering && w.registering[id].grant.Some?
  }

  /** The check of a register call for `d` passes. */
  predicate Passes(w: World, d: BufferDescriptor, backend: nat, domain: nat, env: Envelope) {
    Sized(d) && RegisterMiss(w.s, w.b, d, backend, domain, env).None?
  }

  /** The step enters a record under `id`. */
  ghost predicate Enters(w: World, op: Op, id: nat) {
    match op
    case CommitRegister(k) => ReadyToCommit(w, k) && w.registering[k].rec.id == id
    case Registering(d, backend, domain, env) => Passes(w, d, backend, domain, env) && id == w.s.nextRegistration
    case _ => false
  }

  /** The step takes the index entry of `buffer`. */
  ghost predicate Takes(w: World, op: Op, buffer: nat) {
    match op
    case CommitRegister(k) => ReadyToCommit(w, k) && w.registering[k].rec.bufferId == buffer
    case Registering(d, backend, domain, env) => Passes(w, d, backend, domain, env) && d.id == buffer
    case _ => false
  }

  /** The step frees the index entry of `buffer` by revoking one of its registrations. */
  ghost predicate Frees(w: World, op: Op, buffer: nat) {
    op.Revoking? && Orderly(w, op) && Revocable(w.s, op.id) && w.s.registrations[op.id].bufferId == buffer
  }

  /** The step begins a register call for `buffer`. */
  predicate Begins(w: World, op: Op, buffer: nat) {
    op.CheckRegister? && Passes(w, op.d, op.backend, op.domain, op.env) && op.d.id == buffer
  }

  /** Active domains stay active. */
  predicate DomainsKept(s: State, s': State) {
    forall d :: d in s.domains ==> d in s'.domains && (s.domains[d].state.DOMAIN_ACTIVE? ==> s'.domains[d].state.DOMAIN_ACTIVE?)
  }

  /** Index entries stay, as far as their registration does, unless they are freed or taken. */
  ghost predicate IndexKept(w: World, op: Op, w': World) {
    && (forall b :: b in w.s.activeFor && w.s.activeFor[b] in w'.s.registrations && !Frees(w, op, b) && !Takes(w, op, b) ==>
          b in w'.s.activeFor && w'.s.activeFor[b] == w.s.activeFor[b])
    && (forall b :: b in w'.s.activeFor && b !in w.s.activeFor ==> Takes(w, op, b))
  }

  /** Register calls in flight stay as they are or end; new ones are begun by checks. Called is never Checked again. */
  ghost predicate CallsKept(w: World, op: Op, w': World) {
    && (forall n :: n in w'.registering && n !in w.registering ==> Begins(w, op, w'.registering[n].rec.bufferId))
    && (forall n :: n in w'.registering && n in w.registering ==> w'.registering[n].rec == w.registering[n].rec)
    && (forall n, m :: n in w'.registering && n !in w.registering && m in w'.registering && m !in w.registering ==> n == m)
    && (forall id :: id in w.deregistering && w.deregistering[id].Called? && id in w'.deregistering ==>
          w'.deregistering[id].Called?)
  }

  ghost predicate Framed(w: World, op: Op, w': World) {
    && (op.NewBuffer? || w'.s.buffers == w.s.buffers)
    && (op.DropDomain? || DomainsKept(w.s, w'.s))
    && (forall id :: id in w'.s.registrations && id !in w.s.registrations ==> Enters(w, op, id))
    && IndexKept(w, op, w') && CallsKept(w, op, w')
  }

  // ---- steps that change records only ------------------------------------------------------------------

  lemma IndexSame(w: World, op: Op, w': World)
    requires w'.s.activeFor == w.s.activeFor
    ensures IndexKept(w, op, w')
  {
    hide Frees, Takes;
  }

  lemma CallsSame(w: World, op: Op, w': World)
    requires w'.registering == w.registering && w'.deregistering == w.deregistering
    ensures CallsKept(w, op, w')
  {
    hide Begins;
  }

  lemma RecordsFramed(w: World, op: Op, w': World)
    requires w'.s.registrations.Keys <= w.s.registrations.Keys && w'.s.activeFor == w.s.activeFor
    requires op.NewBuffer? || w'.s.buffers == w.s.buffers
    requires op.DropDomain? || DomainsKept(w.s, w'.s)
    requires w'.registering == w.registering && w'.deregistering == w.deregistering
    ensures Framed(w, op, w')
  {
    hide Enters, IndexKept, CallsKept, DomainsKept;
    IndexSame(w, op, w');
    CallsSame(w, op, w');
  }

  lemma DomainsSame(s: State)
    ensures DomainsKept(s, s)
  {
  }

  lemma DomainsFrom(s: State, s': State)
    requires s'.domains == s.domains
    ensures DomainsKept(s, s')
  {
  }

  lemma QuietFramed(w: World, op: Op)
    requires Proper(op) && Quiet(op)
    ensures Framed(w, op, Step(w, op))
  {
    hide DomainsKept, Framed, Apply, Access, Reuse, Uncounted;
    QuietFrame(w, op);
    if op.NewDomain? {
      NewDomainKept(w.s, op.node, op.process);
    } else {
      DomainsFrom(w.s, Step(w, op).s);
    }
    RecordsFramed(w, op, Step(w, op));
  }

  lemma NewDomainKept(s: State, node: nat, process: nat)
    ensures DomainsKept(s, CreateDomain(s, node, process))
  {
  }

  lemma TablesFramed(w: World, op: Op)
    requires Proper(op) && (op.DropDomain? || op.NewBuffer?)
    ensures Framed(w, op, Step(w, op))
  {
    hide InvalidateAll, Enumerates, Decrement, Framed, DomainsKept, CreateBuffer;
    match op
    case DropDomain(d, order) =>
      InvalidateAllFrame(w.s, order, DomainDestroyed(d));
      RecordsFramed(w, op, Step(w, op));
    case NewBuffer(d, order) =>
      NewBufferFrame(w.s, d, order);
      DomainsFrom(w.s, Step(w, op).s);
      RecordsFramed(w, op, Step(w, op));
  }

  lemma NewBufferFrame(s: State, d: BufferDescriptor, order: seq<nat>)
    ensures var s' := CreateBuffer(s, d, order);
            s'.registrations.Keys == s.registrations.Keys && s'.activeFor == s.activeFor && s'.domains == s.domains
            && s'.nextRegistration == s.nextRegistration
  {
    hide InvalidateAll, Decrement;
    var s0 := if d.id != 0 then s else s.(nextBuffer := s.nextBuffer + 1);
    InvalidateAllFrame(s0, order, Reallocated(BufferKey(s, d)));
  }

  lemma StatusFramed(w: World, op: Op)
    requires Proper(op) && (op.Leasing? || op.Returning? || op.SoftRevoking? || op.Rotating?)
    ensures Framed(w, op, Step(w, op))
  {
    hide LeaseMissReason, GrantedLease, RotateKey, RotatedRecord, Framed, DomainsKept;
    match op {
      case Leasing(id, env, needed) =>
        if LeaseMissReason(w.s, id, env, needed).None? {
          CanLease(w.s, id, env, needed);
        }
      case _ =>
    }
    DomainsFrom(w.s, Step(w, op).s);
    RecordsFramed(w, op, Step(w, op));
  }

  // ---- revocation, registration, deregistration ----------------------------------------------------------

  lemma RevokingFramed(w: World, id: nat, order: seq<nat>)
    requires Orderly(w, Revoking(id, order))
    ensures Framed(w, Revoking(id, order), w.(s := HardRevoke(w.s, id, order)))
  {
    hide RevokeLeases, Enters, Takes, Begins;
    if Revocable(w.s, id) {
      var r := RevokedRecord(w.s.registrations[id]);
      RevokeLeasesFrame(w.s.(registrations := w.s.registrations[id := r]), order, id);
    }
  }

  lemma CheckFramed(w: World, op: Op)
    requires Tidy(w) && Proper(op) && op.CheckRegister?
    ensures Framed(w, op, Step(w, op))
  {
    hide RegisterMiss, Takes, Enters, Frees, BegunRecord, DomainsKept, Tidy;
    var w' := Step(w, op);
    NextIsNew(w);
    DomainsFrom(w.s, w'.s);
    if Passes(w, op.d, op.backend, op.domain, op.env) {
      CheckedFirst(w.s, w.b, op.d, op.backend, op.domain, op.env);
      OneBegun(w, op, w', w.s.nextRegistration);
    } else {
      RecordsFramed(w, op, w');
    }
  }

  lemma NextIsNew(w: World)
    requires Tidy(w)
    ensures w.s.nextRegistration !in w.registering && w.s.nextRegistration !in w.s.registrations
  {
  }

  lemma OneBegun(w: World, op: Op, w': World, n: nat)
    requires n !in w.registering && w'.registering.Keys == w.registering.Keys + {n}
    requires forall k :: k in w.registering ==> w'.registering[k] == w.registering[k]
    requires Begins(w, op, w'.registering[n].rec.bufferId) && w'.deregistering == w.deregistering
    requires w'.s == w.s.(nextRegistration := w'.s.nextRegistration)
    ensures Framed(w, op, w')
  {
    hide Enters, IndexKept, Begins, DomainsKept;
    DomainsFrom(w.s, w'.s);
    IndexSame(w, op, w');
  }

  lemma CallFramed(w: World, op: Op)
    requires Proper(op) && (op.CallRegister? || op.CheckDeregister? || op.CallDeregister?)
    ensures Framed(w, op, Step(w, op))
  {
    hide RegisterBuffer, Enters, IndexKept, Begins, DeregisterBackend, DomainsKept;
    DomainsFrom(w.s, Step(w, op).s);
    IndexSame(w, op, Step(w, op));
  }

  lemma CommitFramed(w: World, id: nat)
    ensures Framed(w, CommitRegister(id), CommitRegisterStep(w, id))
  {
    hide CommittedRecord, AccountCommit, Passes;
    DomainsFrom(w.s, CommitRegisterStep(w, id).s);
  }

  /** A register call in one step enters a record and its index entry, or changes nothing. */
  lemma RegisterEnds(w: World, d: BufferDescriptor, backend: nat, domain: nat, env: Envelope)
    requires Sized(d)
    ensures var (w', n) := (RegisterCall(w, d, backend, domain, env), w.s.nextRegistration);
            if !Passes(w, d, backend, domain, env) then w' == w else
              && w'.s.registrations.Keys == w.s.registrations.Keys + {n}
              && (forall k :: k in w.s.registrations && k != n ==> w'.s.registrations[k] == w.s.registrations[k])
              && w'.s.registrations[n].lifecycle.ACTIVE? && w'.s.registrations[n].bufferId == d.id
              && w'.s.registrations[n].bufferGeneration == d.generation && w'.s.registrations[n].domainId == domain
              && w'.s.activeFor == w.s.activeFor[d.id := n]
              && w'.s.domains == w.s.domains && w'.s.buffers == w.s.buffers
              && w'.registering == w.registering && w'.deregistering == w.deregistering
  {
    hide RegisterMiss, CanRegister, GrantFor, AccountCommit;
    if Passes(w, d, backend, domain, env) {
      CheckedFirst(w.s, w.b, d, backend, domain, env);
    }
  }

  lemma RegisteringFramed(w: World, d: BufferDescriptor, backend: nat, domain: nat, env: Envelope)
    requires Sized(d)
    ensures Framed(w, Registering(d, backend, domain, env), RegisterCall(w, d, backend, domain, env))
  {
    hide RegisterCall, Passes, DomainsKept, Frees;
    DomainsSame(w.s);
    RegisterEnds(w, d, backend, domain, env);
    DomainsFrom(w.s, RegisterCall(w, d, backend, domain, env).s);
  }

  lemma EnteredIsActive(w: World, op: Op, id: nat)
    requires Proper(op) && Enters(w, op, id)
    ensures id in Step(w, op).s.registrations && Step(w, op).s.registrations[id].lifecycle.ACTIVE?
  {
    hide RegisterMiss, RegisterCall, AccountCommit;
    if op.Registering? {
      RegisterEnds(w, op.d, op.backend, op.domain, op.env);
    }
  }

  lemma EndedFramed(w: World, op: Op, id: nat, w': World)
    requires (op.CommitDeregister? || op.Deregistering?) && op.id == id
    requires w'.registering == w.registering && w'.deregistering.Keys <= w.deregistering.Keys
    requires forall k :: k in w'.deregistering ==> w'.deregistering[k] == w.deregistering[k]
    requires w'.s == w.s || w'.s == DeregisterFail(w.s, id) || w'.s == DeregisterCommit(w.s, id)
    ensures Framed(w, op, w')
  {
    hide AccountInvalidate, DomainsKept;
    DomainsFrom(w.s, w'.s);
  }

  lemma MarkedSameEnd(s: State, id: nat)
    requires MayDeregister(s, id)
    ensures DeregisterFail(DeregisterCheck(s, id), id) == DeregisterFail(s, id)
    ensures var (t, t') := (DeregisterCommit(DeregisterCheck(s, id), id), DeregisterCommit(s, id)); t == t'
  {
    hide AccountInvalidate;
    MarkedCharge(s.acct, s.registrations[id]);
    assert DeregisterCheck(s, id).registrations - {id} == s.registrations - {id};
  }

  lemma MarkedCharge(a: Accounting, rec: RegistrationRecord)
    ensures AccountInvalidate(a, rec.(lifecycle := DEREGISTERING)) == AccountInvalidate(a, rec)
  {
  }

  /** All that a deregister call or a piece of one can do to the state. */
  lemma DeregisterOutcome(w: World, op: Op)
    requires Proper(op) && (op.Deregistering? || op.CheckDeregister? || op.CallDeregister? || op.CommitDeregister?)
    ensures var s' := Step(w, op).s;
            || s' == w.s || s' == DeregisterCommit(w.s, op.id) || s' == DeregisterFail(w.s, op.id)
            || (op.CheckDeregister? && MayDeregister(w.s, op.id) && s' == DeregisterCheck(w.s, op.id))
  {
    hide DeregisterCommit, DeregisterFail, Release;
    if op.Deregistering? && MayDeregister(w.s, op.id) {
      MarkedSameEnd(w.s, op.id);
    }
  }

  lemma DeregistersFramed(w: World, op: Op)
    requires Proper(op) && (op.CommitDeregister? || op.Deregistering?)
    ensures Framed(w, op, Step(w, op))
  {
    hide DeregisterCommit, DeregisterFail, Release, Framed;
    if op.Deregistering? && MayDeregister(w.s, op.id) {
      MarkedSameEnd(w.s, op.id);
    }
    EndedFramed(w, op, op.id, Step(w, op));
  }

  lemma StepFramed(w: World, op: Op)
    requires Tidy(w) && Proper(op) && !op.Recovering?
    ensures Framed(w, op, Step(w, op))
  {
    hide Framed, HardRevoke, CommitRegisterStep, RegisterCall, Quiet, Tidy;
    if !Orderly(w, op) {
      DomainsSame(w.s);
      RecordsFramed(w, op, w);
    } else if Quiet(op) {
      QuietFramed(w, op);
    } else {
      Kinds(op);
      match op
      case Revoking(id, order) => RevokingFramed(w, id, order);
      case CommitRegister(id) => CommitFramed(w, id);
      case Registering(d, backend, domain, env) => RegisteringFramed(w, d, backend, domain, env);
      case CheckRegister(_, _, _, _) => CheckFramed(w, op);
      case DropDomain(_, _) => TablesFramed(w, op);
      case NewBuffer(_, _) => TablesFramed(w, op);
      case CommitDeregister(_) => DeregistersFramed(w, op);
      case Deregistering(_) => DeregistersFramed(w, op);
      case CallRegister(_) => CallFramed(w, op);
      case CheckDeregister(_) => CallFramed(w, op);
      case CallDeregister(_) => CallFramed(w, op);
      case Leasing(_, _, _) => StatusFramed(w, op);
      case Returning(_) => StatusFramed(w, op);
      case SoftRevoking(_) => StatusFramed(w, op);
      case Rotating(_) => StatusFramed(w, op);
    }
  }

  lemma Kinds(op: Op)
    ensures Quiet(op) || op.Recovering? || op.DropDomain? || op.NewBuffer? || op.Leasing? || op.Returning? || op.Revoking?
            || op.SoftRevoking? || op.Rotating? || op.Registering? || op.Deregistering? || op.CheckRegister?
            || op.CallRegister? || op.CommitRegister? || op.CheckDeregister? || op.CallDeregister? || op.CommitDeregister?
  {
  }
}
