/**
 * The counters of events along a run: bytes read and written, atomic operations, failed and
 * stale accesses, reuse hits and misses, restarts, revocations and deregistrations are what
 * the answers and effects of the run's steps add up to, recoveries included.
 */
module Tallies {
  import opened Records
  import opened Checks
  import opened BackendModel
  import opened Runtime
  import opened Recovery
  import opened Worlds
  import opened StepFrames
  import opened Tables
  import opened Decisions
  import opened Admission

  datatype Events = Events(
    readBytes: nat, writtenBytes: nat, atomics: nat, failed: nat, stale: nat, hits: nat, misses: nat,
    restarts: nat, revocations: nat, deregistrations: nat)

  const NOTHING: Events := Events(0, 0, 0, 0, 0, 0, 0, 0, 0, 0)

  function Plus(a: Events, b: Events): Events {
    Events(a.readBytes + b.readBytes, a.writtenBytes + b.writtenBytes, a.atomics + b.atomics, a.failed + b.failed,
           a.stale + b.stale, a.hits + b.hits, a.misses + b.misses, a.restarts + b.restarts,
           a.revocations + b.revocations, a.deregistrations + b.deregistrations)
  }

  /** What the counters say has happened. */
  function Noted(a: Accounting): Events {
    Events(a.remoteReadBytes, a.remoteWriteBytes, a.atomicOperations, a.failedAccessAttempts, a.staleAccessRejections,
           a.reuseHits, a.reuseMisses, a.participantRestarts, a.revocations, a.deregistrations)
  }

  // ---- what a step amounts to ---------------------------------------------------------------------

  const STALE_ANSWERS: set<AccessOutcome> :=
    {REJECT_STALE_EPOCH, REJECT_STALE_BOOT, REJECT_STALE_BUFFER, REJECT_STALE_REGISTRATION, REJECT_STALE_KEY}

  /** The registration is found and fresh, and the caller's authority is the first thing wrong. */
  predicate Unauthorized(s: State, q: Request) {
    && q.registration in s.registrations && s.registrations[q.registration].lifecycle !in Withdrawn()
    && s.registrations[q.registration].freshness == VALID && !Current(s.authority, q.authority)
  }

  function AccessEvents(s: State, b: Backend, q: Request): Events {
    var o := Answer(Conditions(s, b, q));
    if Unauthorized(s, q) then NOTHING
    else if o == ALLOW then
      match q.kind
      case READ => NOTHING.(readBytes := q.length)
      case WRITE => NOTHING.(writtenBytes := q.length)
      case ATOMIC_COMPARE_SWAP => NOTHING.(atomics := 1)
    else NOTHING.(failed := 1, stale := if o in STALE_ANSWERS then 1 else 0)
  }

  function ReuseEvents(s: State, d: BufferDescriptor, backend: nat, domain: nat, env: Envelope): Events {
    if !Current(s.authority, env) || !HasCandidate(s, d.id) then NOTHING
    else if First(ReuseChecks(s, d, backend, domain, env)) == None then NOTHING.(hits := 1)
    else NOTHING.(misses := 1)
  }

  ghost function Happens(w: World, op: Op): Events
    requires Proper(op)
  {
    match op
    case Accessing(q) => AccessEvents(w.s, w.b, q)
    case Reusing(d, backend, domain, env) => ReuseEvents(w.s, d, backend, domain, env)
    case ParticipantRestart => NOTHING.(restarts := 1)
    case Revoking(id, _) =>
      if Orderly(w, op) && id in w.s.registrations && w.s.registrations[id].lifecycle in {ACTIVE, REGISTERED}
      then NOTHING.(revocations := 1) else NOTHING
    case SoftRevoking(id) =>
      if && id in w.s.registrations && w.s.registrations[id].lifecycle in {ACTIVE, REGISTERED}
         && w.s.registrations[id].leaseCount == 0
      then NOTHING.(revocations := 1) else NOTHING
    case _ => NOTHING.(deregistrations := |w.s.registrations.Keys - Step(w, op).s.registrations.Keys|)
  }

  // ---- the steps ------------------------------------------------------------------------------------

  /** The event counters moved by `e`. */
  predicate Moved(s: State, s': State, e: Events) {
    Noted(s'.acct) == Plus(Noted(s.acct), e)
  }

  lemma SameMoved(s: State, s': State)
    requires s'.acct == s.acct
    ensures Moved(s, s', NOTHING)
  {
  }

  lemma AccessMoves(s: State, b: Backend, q: Request)
    requires Ranged(q)
    ensures Moved(s, AccessCounted(s, b, q), AccessEvents(s, b, q))
  {
    hide Access, ValidateAuthority, Current, Conditions;
    AccessTable(s, b, q);
    AuthorityExact(s.authority, q.authority);
  }

  lemma ReuseMoves(s: State, d: BufferDescriptor, backend: nat, domain: nat, env: Envelope)
    ensures Moved(s, ReuseCounted(s, Reuse(s, d, backend, domain, env)), ReuseEvents(s, d, backend, domain, env))
  {
    hide ValidateAuthority, Current, ReuseChecks, ReuseMissReason;
    ReuseTable(s, d, backend, domain, env);
    AuthorityExact(s.authority, env);
    if HasCandidate(s, d.id) {
      OwnReasons(d, s.registrations[s.activeFor[d.id]], backend, domain, env);
    }
  }

  lemma OwnReasons(d: BufferDescriptor, cand: RegistrationRecord, backend: nat, domain: nat, env: Envelope)
    ensures var miss := ReuseMissReason(d, cand, backend, domain, env);
            miss.Some? ==> !miss.value.REUSE_AUTHORITY? && !miss.value.NO_CANDIDATE?
  {
    hide Superset;
  }

  /** A step that erases no record and moves no event counter. */
  lemma Uneventful(w: World, op: Op, w': World)
    requires Proper(op) && w' == Step(w, op)
    requires !op.Accessing? && !op.Reusing? && !op.ParticipantRestart? && !op.Revoking? && !op.SoftRevoking?
    requires Noted(w'.s.acct) == Noted(w.s.acct) && w.s.registrations.Keys <= w'.s.registrations.Keys
    ensures Moved(w.s, w'.s, Happens(w, op))
  {
    hide Step;
    assert w.s.registrations.Keys - w'.s.registrations.Keys == {};
  }

  lemma QuietMoves(w: World, op: Op)
    requires Proper(op) && (op.SetTo? || op.NextEpoch? || op.Attach? || op.NewDomain? || op.Calling?)
    ensures Moved(w.s, Step(w, op).s, Happens(w, op))
  {
    hide Apply, Happens, Moved;
    Uneventful(w, op, Step(w, op));
  }

  lemma DomainNotes(s: State, d: nat, order: seq<nat>)
    ensures Noted(DestroyDomain(s, d, order).acct) == Noted(s.acct)
    ensures DestroyDomain(s, d, order).registrations.Keys == s.registrations.Keys
  {
    hide InvalidateAll, Decrement;
    InvalidateAllFrame(s, order, DomainDestroyed(d));
  }

  lemma BufferNotes(s: State, d: BufferDescriptor, order: seq<nat>)
    ensures Noted(CreateBuffer(s, d, order).acct) == Noted(s.acct)
    ensures CreateBuffer(s, d, order).registrations.Keys == s.registrations.Keys
  {
    hide InvalidateAll, Decrement;
    var s0 := if d.id != 0 then s else s.(nextBuffer := s.nextBuffer + 1);
    InvalidateAllFrame(s0, order, Reallocated(BufferKey(s, d)));
  }

  lemma TablesMove(w: World, op: Op)
    requires Proper(op) && (op.DropDomain? || op.NewBuffer?)
    ensures Moved(w.s, Step(w, op).s, Happens(w, op))
  {
    hide DestroyDomain, CreateBuffer, Enumerates, Happens, Moved, Noted;
    match op {
      case DropDomain(d, order) => DomainNotes(w.s, d, order);
      case NewBuffer(d, order) => BufferNotes(w.s, d, order);
    }
    Uneventful(w, op, Step(w, op));
  }

  lemma RecoveringMoves(w: World, op: Op)
    requires op.Recovering?
    ensures Moved(w.s, Step(w, op).s, Happens(w, op))
  {
    hide Recover, RecoverBuffers, RecoverDomains, RecoverRegistrations, Happens, Moved;
    RecoverFrame(w.s, op.p);
    forall id | id in w.s.registrations ensures id in Recover(w.s, op.p).registrations {
      RecoverRegistrationsAt(w.s, op.p.registrations, id);
    }
    Uneventful(w, op, Step(w, op));
  }

  lemma StatusMoves(w: World, op: Op)
    requires Proper(op) && (op.Leasing? || op.Returning? || op.Rotating?)
    ensures Moved(w.s, Step(w, op).s, Happens(w, op))
  {
    hide LeaseMissReason, GrantedLease, RotatedRecord, RotateKey, Happens, Moved;
    match op {
      case Leasing(id, env, needed) =>
        if LeaseMissReason(w.s, id, env, needed).None? {
          CanLease(w.s, id, env, needed);
        }
      case _ =>
    }
    Uneventful(w, op, Step(w, op));
  }

  lemma CallsMove(w: World, op: Op)
    requires Proper(op) && (op.Registering? || op.CheckRegister? || op.CallRegister? || op.CommitRegister?)
    ensures Moved(w.s, Step(w, op).s, Happens(w, op))
  {
    hide RegisterMiss, RegisterBuffer, BegunRecord, CommittedRecord, Happens, Moved;
    Uneventful(w, op, Step(w, op));
  }

  lemma HardRevokeNotes(s: State, id: nat, order: seq<nat>)
    ensures Moved(s, HardRevoke(s, id, order), if Revocable(s, id) then NOTHING.(revocations := 1) else NOTHING)
  {
    hide RevokeLeases, RevokedRecord;
    if Revocable(s, id) {
      RevokeLeasesFrame(s.(registrations := s.registrations[id := RevokedRecord(s.registrations[id])]), order, id);
    }
  }

  lemma RevokingMoves(w: World, id: nat, order: seq<nat>)
    requires Orderly(w, Revoking(id, order))
    ensures Moved(w.s, HardRevoke(w.s, id, order), Happens(w, Revoking(id, order)))
  {
    hide HardRevoke, Enumerates, Step, Moved;
    HardRevokeNotes(w.s, id, order);
  }

  lemma SoftRevokingMoves(w: World, id: nat)
    ensures Moved(w.s, SoftRevoke(w.s, id), Happens(w, SoftRevoking(id)))
  {
    hide Step;
  }

  /** A deregistration is counted exactly when a record goes. */
  lemma DeregistersMove(w: World, op: Op)
    requires Proper(op) && (op.Deregistering? || op.CheckDeregister? || op.CallDeregister? || op.CommitDeregister?)
    ensures Moved(w.s, Step(w, op).s, Happens(w, op))
  {
    hide DeregisterCommit, DeregisterFail, Happens, Moved, Step;
    DeregisterOutcome(w, op);
    EndMoves(w.s, op.id);
    var w' := Step(w, op);
    if w'.s == DeregisterCommit(w.s, op.id) && op.id in w.s.registrations {
      OneGone(w, op, w');
    } else {
      Uneventful(w, op, w');
    }
  }

  lemma EndMoves(s: State, id: nat)
    ensures id in s.registrations ==>
              && DeregisterCommit(s, id).registrations == s.registrations - {id}
              && Moved(s, DeregisterCommit(s, id), NOTHING.(deregistrations := 1))
    ensures id !in s.registrations ==> DeregisterCommit(s, id) == s
    ensures DeregisterFail(s, id).acct == s.acct && DeregisterFail(s, id).registrations.Keys == s.registrations.Keys
  {
    hide Decrement;
  }

  lemma OneGone(w: World, op: Op, w': World)
    requires Proper(op) && (op.Deregistering? || op.CheckDeregister? || op.CallDeregister? || op.CommitDeregister?)
    requires w' == Step(w, op) && op.id in w.s.registrations && w'.s.registrations == w.s.registrations - {op.id}
    requires Moved(w.s, w'.s, NOTHING.(deregistrations := 1))
    ensures Moved(w.s, w'.s, Happens(w, op))
  {
    hide Step, Moved;
    WithoutOne(w.s.registrations, op.id);
  }

  lemma WithoutOne(regs: map<nat, RegistrationRecord>, id: nat)
    requires id in regs
    ensures |regs.Keys - (regs - {id}).Keys| == 1
  {
    assert regs.Keys - (regs - {id}).Keys == {id};
  }

  /** Every step moves the event counters by what it amounts to. */
  lemma StepMovesCounters(w: World, op: Op)
    requires Proper(op)
    ensures Moved(w.s, Step(w, op).s, Happens(w, op))
  {
    hide Moved, Happens, Orderly, AccessCounted, ReuseCounted, Reuse, HardRevoke, SoftRevoke;
    if !Orderly(w, op) {
      OutOfOrder(w, op);
    } else {
      match op {
        case Accessing(q) =>
          AccessMoves(w.s, w.b, q);
          HappensAccess(w, q);
        case Reusing(d, backend, domain, env) =>
          ReuseMoves(w.s, d, backend, domain, env);
          HappensReuse(w, d, backend, domain, env);
        case ParticipantRestart => RestartMoves(w);
        case Revoking(id, order) => RevokingMoves(w, id, order);
        case SoftRevoking(id) => SoftRevokingMoves(w, id);
        case _ => OthersMove(w, op);
      }
    }
  }

  lemma OthersMove(w: World, op: Op)
    requires Proper(op) && !op.Accessing? && !op.Reusing? && !op.ParticipantRestart? && !op.Revoking? && !op.SoftRevoking?
    ensures Moved(w.s, Step(w, op).s, Happens(w, op))
  {
    hide Moved, Happens, Step;
    if op.DropDomain? || op.NewBuffer? {
      TablesMove(w, op);
    } else if op.Recovering? {
      RecoveringMoves(w, op);
    } else if op.Leasing? || op.Returning? || op.Rotating? {
      StatusMoves(w, op);
    } else if op.Registering? || op.CheckRegister? || op.CallRegister? || op.CommitRegister? {
      CallsMove(w, op);
    } else if op.SetTo? || op.NextEpoch? || op.Attach? || op.NewDomain? || op.Calling? {
      QuietMoves(w, op);
    } else {
      DeregistersMove(w, op);
    }
  }

  lemma OutOfOrder(w: World, op: Op)
    requires Proper(op) && !Orderly(w, op)
    ensures Moved(w.s, Step(w, op).s, Happens(w, op))
  {
    hide Step, Enumerates;
    Unordered(w, op);
    SameMoved(w.s, w.s);
    assert w.s.registrations.Keys - w.s.registrations.Keys == {};
  }

  lemma HappensAccess(w: World, q: Request)
    requires Ranged(q)
    ensures Happens(w, Accessing(q)) == AccessEvents(w.s, w.b, q)
  {
    hide AccessEvents;
  }

  lemma HappensReuse(w: World, d: BufferDescriptor, backend: nat, domain: nat, env: Envelope)
    requires Sized(d)
    ensures Happens(w, Reusing(d, backend, domain, env)) == ReuseEvents(w.s, d, backend, domain, env)
  {
    hide ReuseEvents;
  }

  lemma RestartMoves(w: World)
    ensures Moved(w.s, NoteRestart(w.s), Happens(w, ParticipantRestart))
  {
  }

  // ---- whole runs ---------------------------------------------------------------------------------------

  ghost function Sum(w: World, ops: seq<Op>): Events
    requires AllProper(ops)
    decreases |ops|
  {
    if ops == [] then NOTHING else Plus(Happens(w, ops[0]), Sum(Step(w, ops[0]), ops[1..]))
  }

  lemma {:induction false} RunMovesCounters(w: World, ops: seq<Op>)
    requires AllProper(ops)
    ensures Moved(w.s, Run(w, ops).s, Sum(w, ops))
    decreases |ops|
  {
    hide Step, Noted, Happens;
    if ops != [] {
      StepMovesCounters(w, ops[0]);
      RunMovesCounters(Step(w, ops[0]), ops[1..]);
    }
  }

  /** So the counters of any run from the start are the sums over its steps. */
  lemma CountersAreSums(seed: nat, ops: seq<Op>)
    requires AllProper(ops)
    ensures Noted(Run(Start(seed), ops).s.acct) == Sum(Start(seed), ops)
  {
    hide Run, Sum;
    RunMovesCounters(Start(seed), ops);
  }
}
