/**
 * Single flight in interleavings: when the index from buffers to registrations names every
 * active registration although calls are taken apart, for single steps and for whole runs.
 */
module Flights {
  import opened Records
  import opened Checks
  import opened BackendModel
  import opened Runtime
  import opened Worlds
  import opened Evolution
  import opened Safety
  import opened StepFrames
  import opened Interleavings
  import opened Revocation

  /** A granted register call is committed over an active registration of its buffer. */
  predicate CommitsOver(w: World, op: Op) {
    op.CommitRegister? && ReadyToCommit(w, op.id) && !Unregistered(w.s, w.registering[op.id].rec.bufferId)
  }

  // ---- single steps -------------------------------------------------------------------------------------

  /** An active registration after a step that entered no record was active before, on the same buffer. */
  lemma ActiveBefore(w: World, op: Op, id: nat)
    requires Tidy(w) && Proper(op) && StepsTo(w, Step(w, op))
    requires id in w.s.registrations && id in Step(w, op).s.registrations
    requires Step(w, op).s.registrations[id].lifecycle.ACTIVE?
    ensures w.s.registrations[id].lifecycle.ACTIVE?
    ensures Step(w, op).s.registrations[id].bufferId == w.s.registrations[id].bufferId
  {
    hide Step, Path;
    assert Moves(w.s.registrations[id], Step(w, op).s.registrations[id]);
  }

  lemma OtherSteps(w: World, op: Op)
    requires Tidy(w) && SingleFlighted(w.s) && Proper(op) && !op.Recovering?
    requires StepsTo(w, Step(w, op)) && Framed(w, op, Step(w, op)) && Tidy(Step(w, op))
    requires forall id :: !Enters(w, op, id)
    requires forall b :: !Takes(w, op, b)
    ensures SingleFlighted(Step(w, op).s)
  {
    hide Step, StepsTo, Moves, CallsKept, DomainsKept, Enters, Takes;
    var w' := Step(w, op);
    forall id | id in w'.s.registrations && w'.s.registrations[id].lifecycle.ACTIVE?
      ensures Indexed(w'.s, id, w'.s.registrations[id])
    {
      ActiveBefore(w, op, id);
      assert Indexed(w.s, id, w.s.registrations[id]);
      NotFreed(w, op, id);
    }
  }

  /** A revocation frees the slot of the registration it ends, and of no other. */
  lemma NotFreed(w: World, op: Op, id: nat)
    requires Tidy(w) && SingleFlighted(w.s) && Proper(op) && id in w.s.registrations && id in Step(w, op).s.registrations
    requires Indexed(w.s, id, w.s.registrations[id])
    requires Step(w, op).s.registrations[id].lifecycle.ACTIVE? || (op.Revoking? ==> op.id != id)
    ensures !Frees(w, op, w.s.registrations[id].bufferId)
  {
    hide Step, Orderly;
    if Frees(w, op, w.s.registrations[id].bufferId) {
      assert Indexed(w.s, op.id, w.s.registrations[op.id]);
      RevokedIsNotActive(w, op);
    }
  }

  lemma RevokedIsNotActive(w: World, op: Op)
    requires op.Revoking? && Orderly(w, op) && Revocable(w.s, op.id)
    ensures op.id in Step(w, op).s.registrations && !Step(w, op).s.registrations[op.id].lifecycle.ACTIVE?
  {
    hide RevokeLeases, Enumerates;
    var r := RevokedRecord(w.s.registrations[op.id]);
    RevokeLeasesFrame(w.s.(registrations := w.s.registrations[op.id := r]), op.order, op.id);
  }

  lemma RegisteringFlight(w: World, d: BufferDescriptor, backend: nat, domain: nat, env: Envelope)
    requires Tidy(w) && SingleFlighted(w.s) && Sized(d)
    ensures SingleFlighted(RegisterCall(w, d, backend, domain, env).s)
  {
    hide RegisterCall, RegisterMiss;
    var w' := RegisterCall(w, d, backend, domain, env);
    RegisterEnds(w, d, backend, domain, env);
    if Passes(w, d, backend, domain, env) {
      CheckFacts(w.s, w.b, d, backend, domain, env);
      RegisteringMoves(w, d, backend, domain, env);
      forall id | id in w'.s.registrations && w'.s.registrations[id].lifecycle.ACTIVE?
        ensures Indexed(w'.s, id, w'.s.registrations[id])
      {
        if id != w.s.nextRegistration {
          assert Indexed(w.s, id, w.s.registrations[id]);
        }
      }
    }
  }

  /** A step keeps single flight exactly when it does not commit over an active registration. */
  lemma StepFlight(w: World, op: Op)
    requires Tidy(w) && SingleFlighted(w.s) && Proper(op) && !op.Recovering?
    ensures SingleFlighted(Step(w, op).s) <==> !CommitsOver(w, op)
  {
    hide Tidy, SingleFlighted, StepsTo, Framed, CommitRegisterStep, RegisterCall;
    if op.CommitRegister? && ReadyToCommit(w, op.id) {
      CommitKeepsSingleFlight(w, op.id);
    } else if op.Registering? {
      RegisteringFlight(w, op.d, op.backend, op.domain, op.env);
    } else {
      StepMoves(w, op);
      StepFramed(w, op);
      NothingEntered(w, op);
      OtherSteps(w, op);
    }
  }

  lemma NothingEntered(w: World, op: Op)
    requires !op.Registering? && !(op.CommitRegister? && ReadyToCommit(w, op.id))
    ensures (forall id :: !Enters(w, op, id)) && (forall b :: !Takes(w, op, b))
  {
  }

  // ---- whole runs --------------------------------------------------------------------------------------------

  ghost predicate FlightsThroughout(w: World, ops: seq<Op>)
    requires AllProper(ops)
    decreases |ops|
  {
    SingleFlighted(w.s) && (ops == [] || FlightsThroughout(Step(w, ops[0]), ops[1..]))
  }

  ghost predicate NeverCommitsOver(w: World, ops: seq<Op>)
    requires AllProper(ops)
    decreases |ops|
  {
    ops == [] || (!CommitsOver(w, ops[0]) && NeverCommitsOver(Step(w, ops[0]), ops[1..]))
  }

  /** A recover-free interleaving is single-flighted throughout exactly when no commit in it goes over an active registration. */
  lemma {:induction false} RunFlight(w: World, ops: seq<Op>)
    requires Tidy(w) && SingleFlighted(w.s) && AllProper(ops) && RecoverFree(ops)
    ensures FlightsThroughout(w, ops) <==> NeverCommitsOver(w, ops)
    decreases |ops|
  {
    hide Step, Tidy, SingleFlighted, StepsTo, CommitsOver;
    if ops != [] {
      StepMoves(w, ops[0]);
      StepFlight(w, ops[0]);
      if SingleFlighted(Step(w, ops[0]).s) {
        RunFlight(Step(w, ops[0]), ops[1..]);
      } else {
        Grounded(Step(w, ops[0]), ops[1..]);
      }
    }
  }

  lemma Grounded(w: World, ops: seq<Op>)
    requires AllProper(ops) && !SingleFlighted(w.s)
    ensures !FlightsThroughout(w, ops)
  {
  }

  // ---- what a caller can arrange ------------------------------------------------------------------------------

  /** A register call passes its check while another one for the same buffer is in flight. */
  ghost predicate Overlaps(w: World, op: Op) {
    && ((op.CheckRegister? && Passes(w, op.d, op.backend, op.domain, op.env))
        || (op.Registering? && Passes(w, op.d, op.backend, op.domain, op.env)))
    && exists n :: n in w.registering && w.registering[n].rec.bufferId == op.d.id
  }

  /** Calls in flight are for different buffers, none of which the index names. */
  ghost predicate Exclusive(w: World) {
    && (forall n :: n in w.registering ==> w.registering[n].rec.bufferId !in w.s.activeFor)
    && (forall n, m :: n in w.registering && m in w.registering && n != m ==>
          w.registering[n].rec.bufferId != w.registering[m].rec.bufferId)
  }

  lemma ExclusiveCommits(w: World, op: Op)
    requires SingleFlighted(w.s) && Exclusive(w)
    ensures !CommitsOver(w, op)
  {
  }

  /** Steps that neither begin a call nor take an index entry. */
  lemma PlainExclusive(w: World, op: Op, w': World)
    requires Exclusive(w) && CallsKept(w, op, w') && IndexKept(w, op, w')
    requires forall b :: !Takes(w, op, b) && !Begins(w, op, b)
    ensures Exclusive(w')
  {
    hide Takes, Begins, Frees;
  }

  lemma BegunExclusive(w: World, d: BufferDescriptor, backend: nat, domain: nat, env: Envelope)
    requires Tidy(w) && Exclusive(w) && Passes(w, d, backend, domain, env)
    requires !Overlaps(w, CheckRegister(d, backend, domain, env))
    ensures Exclusive(CheckRegisterStep(w, d, backend, domain, env))
  {
    hide Tidy, RegisterMiss, BegunRecord;
    NextIsNew(w);
    CheckFacts(w.s, w.b, d, backend, domain, env);
  }

  lemma CommittedExclusive(w: World, id: nat)
    requires Exclusive(w) && ReadyToCommit(w, id)
    ensures Exclusive(CommitRegisterStep(w, id))
  {
    hide AccountCommit, CommittedRecord;
  }

  lemma RegisteredExclusive(w: World, d: BufferDescriptor, backend: nat, domain: nat, env: Envelope)
    requires Exclusive(w) && Passes(w, d, backend, domain, env)
    requires !Overlaps(w, Registering(d, backend, domain, env))
    ensures Exclusive(RegisterCall(w, d, backend, domain, env))
  {
    hide RegisterCall, RegisterMiss;
    RegisterEnds(w, d, backend, domain, env);
  }

  lemma StepExclusive(w: World, op: Op)
    requires Tidy(w) && Exclusive(w) && Proper(op) && !op.Recovering? && !Overlaps(w, op)
    ensures Exclusive(Step(w, op))
  {
    hide Tidy, Exclusive, RegisterMiss, CheckRegisterStep, CommitRegisterStep, RegisterCall, Overlaps;
    if op.CheckRegister? && Passes(w, op.d, op.backend, op.domain, op.env) {
      BegunExclusive(w, op.d, op.backend, op.domain, op.env);
    } else if op.CommitRegister? && ReadyToCommit(w, op.id) {
      CommittedExclusive(w, op.id);
    } else if op.Registering? && Passes(w, op.d, op.backend, op.domain, op.env) {
      RegisteredExclusive(w, op.d, op.backend, op.domain, op.env);
    } else {
      PlainStep(w, op);
    }
  }

  lemma PlainStep(w: World, op: Op)
    requires Tidy(w) && Exclusive(w) && Proper(op) && !op.Recovering? && forall b :: !Takes(w, op, b) && !Begins(w, op, b)
    ensures Exclusive(Step(w, op))
  {
    hide Tidy, Exclusive, Step, Takes, Begins, IndexKept, CallsKept;
    StepFramed(w, op);
    PlainExclusive(w, op, Step(w, op));
  }

  /** No register call of the run passes its check while another one for its buffer is in flight. */
  ghost predicate NeverOverlaps(w: World, ops: seq<Op>)
    requires AllProper(ops)
    decreases |ops|
  {
    ops == [] || (!Overlaps(w, ops[0]) && NeverOverlaps(Step(w, ops[0]), ops[1..]))
  }

  lemma {:induction false} RunExclusive(w: World, ops: seq<Op>)
    requires Tidy(w) && SingleFlighted(w.s) && Exclusive(w) && AllProper(ops) && RecoverFree(ops) && NeverOverlaps(w, ops)
    ensures NeverCommitsOver(w, ops) && SingleFlighted(Run(w, ops).s) && Exclusive(Run(w, ops))
    decreases |ops|
  {
    hide Step, Tidy, SingleFlighted, StepsTo, CommitsOver, Exclusive, Overlaps;
    if ops != [] {
      StepMoves(w, ops[0]);
      ExclusiveCommits(w, ops[0]);
      StepFlight(w, ops[0]);
      StepExclusive(w, ops[0]);
      RunExclusive(Step(w, ops[0]), ops[1..]);
    }
  }

  /** Without overlapping register calls an interleaving is single-flighted throughout. */
  lemma FlightWithoutOverlap(seed: nat, ops: seq<Op>)
    requires AllProper(ops) && RecoverFree(ops) && NeverOverlaps(Start(seed), ops)
    ensures FlightsThroughout(Start(seed), ops)
  {
    hide Run, Tidy, NeverOverlaps, NeverCommitsOver, FlightsThroughout;
    StartTidy(seed);
    RunExclusive(Start(seed), ops);
    RunFlight(Start(seed), ops);
  }

  /** Whole operations never overlap. */
  lemma {:induction false} WholeNeverOverlaps(w: World, ops: seq<Op>)
    requires AllProper(ops) && Whole(ops) && RecoverFree(ops) && w.registering == map[]
    ensures NeverOverlaps(w, ops)
    decreases |ops|
  {
    hide Step, RegisterMiss;
    if ops != [] {
      StaysWhole(w, ops[0]);
      WholeNeverOverlaps(Step(w, ops[0]), ops[1..]);
    }
  }

  lemma StaysWhole(w: World, op: Op)
    requires Proper(op) && AtomicOp(op) && w.registering == map[]
    ensures Step(w, op).registering == map[]
  {
    hide RegisterCheck, RegisterBuffer, Apply, Access, Reuse, DeregisterBackend, RotateRegistration;
  }

  /**
   * And any overlap can break it: if a second call passes the check while one for the same
   * buffer is in flight, there is a continuation that ends with two active registrations.
   */
  lemma OverlapBreaks(w: World, n: nat, d: BufferDescriptor, backend: nat, domain: nat, env: Envelope)
    requires Tidy(w) && Passes(w, d, backend, domain, env)
    requires n in w.registering && w.registering[n].rec.bufferId == d.id && Sized(w.registering[n].d)
    requires w.registering[n].grant.Some? || CanRegister(w.b.profile, w.registering[n].d).None?
    ensures exists ops :: AllProper(ops) && RecoverFree(ops) && !SingleFlighted(Run(w, ops).s)
  {
    hide RegisterMiss, Run, SingleFlighted, CommitRegisterStep, CheckRegisterStep, CallRegisterStep, Tidy;
    var m := w.s.nextRegistration;
    NextIsNew(w);
    TicketNamed(w, n);
    var w1 := CheckRegisterStep(w, d, backend, domain, env);
    var w2 := CallRegisterStep(w1, m);
    CheckThenCall(w, d, backend, domain, env);
    var w3 := CallRegisterStep(w2, n);
    CallGrants(w, w2, n);
    OthersWait(w2, n, m);
    TwoCommits(w3, n, m, d.id);
    Continued(w, d, backend, domain, env, n, m);
  }

  lemma Continued(w: World, d: BufferDescriptor, backend: nat, domain: nat, env: Envelope, n: nat, m: nat)
    requires Sized(d)
    ensures exists ops :: AllProper(ops) && RecoverFree(ops)
              && Run(w, ops) == CommitRegisterStep(
                   CommitRegisterStep(
                     CallRegisterStep(CallRegisterStep(CheckRegisterStep(w, d, backend, domain, env), m), n), n), m)
  {
    hide Run, CommitRegisterStep, CheckRegisterStep, CallRegisterStep;
    FiveSteps(w, CheckRegister(d, backend, domain, env), CallRegister(m), CallRegister(n), CommitRegister(n), CommitRegister(m));
  }

  lemma TicketNamed(w: World, n: nat)
    requires Tidy(w) && n in w.registering
    ensures w.registering[n].rec.id == n < w.s.nextRegistration
  {
  }

  /** The pending call is granted now, if it was not before. */
  lemma CallGrants(w: World, w2: World, n: nat)
    requires n in w.registering && n in w2.registering && w2.registering[n] == w.registering[n]
    requires Sized(w.registering[n].d) && w2.b.profile == w.b.profile
    requires w.registering[n].grant.Some? || CanRegister(w.b.profile, w.registering[n].d).None?
    ensures var w3 := CallRegisterStep(w2, n);
            ReadyToCommit(w3, n) && w3.registering[n].rec == w.registering[n].rec
  {
    hide CanRegister, GrantFor;
  }

  lemma OthersWait(w: World, n: nat, m: nat)
    requires n != m && m in w.registering
    ensures var w' := CallRegisterStep(w, n); m in w'.registering && w'.registering[m] == w.registering[m]
  {
    hide CanRegister, GrantFor;
  }

  lemma TwoCommits(w: World, n: nat, m: nat, buffer: nat)
    requires n != m && ReadyToCommit(w, n) && ReadyToCommit(w, m)
    requires w.registering[n].rec.id == n && w.registering[m].rec.id == m
    requires w.registering[n].rec.bufferId == buffer == w.registering[m].rec.bufferId
    ensures !SingleFlighted(CommitRegisterStep(CommitRegisterStep(w, n), m).s)
  {
    hide AccountCommit;
    var s' := CommitRegisterStep(CommitRegisterStep(w, n), m).s;
    assert s'.registrations[n].lifecycle.ACTIVE? && s'.activeFor[buffer] == m;
  }

  lemma FiveSteps(w: World, a: Op, b: Op, c: Op, d: Op, e: Op)
    requires Proper(a) && Proper(b) && Proper(c) && Proper(d) && Proper(e)
    requires !a.Recovering? && !b.Recovering? && !c.Recovering? && !d.Recovering? && !e.Recovering?
    ensures exists ops :: AllProper(ops) && RecoverFree(ops) && Run(w, ops) == Step(Step(Step(Step(Step(w, a), b), c), d), e)
  {
    hide Step;
    var w2 := Step(Step(w, a), b);
    var w4 := Step(Step(w2, c), d);
    RunFirst(w4, e, []);
    RunFirst(Step(w2, c), d, [e]);
    RunFirst(w2, c, [d] + [e]);
    RunFirst(Step(w, a), b, [c] + ([d] + [e]));
    RunFirst(w, a, [b] + ([c] + ([d] + [e])));
    var ops := [a] + ([b] + ([c] + ([d] + [e])));
    assert [e] + [] == [e];
    assert Run(w, ops) == Step(w4, e);
  }

  // ---- the slot of a registration that is being revoked ------------------------------------------------------------

  /** The registration is draining and the index still names it. */
  predicate Stuck(w: World, id: nat) {
    Draining(w.s, id) && Indexed(w.s, id, w.s.registrations[id])
  }

  lemma StepStuck(w: World, op: Op, id: nat)
    requires Tidy(w) && SingleFlighted(w.s) && Exclusive(w) && Stuck(w, id) && Proper(op) && !op.Recovering?
    ensures Stuck(Step(w, op), id)
  {
    hide Step, Tidy, StepsTo, SingleFlighted, DomainsKept, CallsKept, Enters, Takes, Begins;
    var w' := Step(w, op);
    var b := w.s.registrations[id].bufferId;
    StepDrains(w, op, id);
    StepMoves(w, op);
    StepFramed(w, op);
    SameBuffer(w, w', id);
    NotTaken(w, op, b);
    StuckNotFreed(w, op, id);
  }

  lemma SameBuffer(w: World, w': World, id: nat)
    requires Tidy(w) && StepsTo(w, w') && id in w.s.registrations && id in w'.s.registrations
    ensures w'.s.registrations[id].bufferId == w.s.registrations[id].bufferId
    ensures id < w.s.nextRegistration <= w'.s.nextRegistration
  {
    hide Path;
    assert Moves(w.s.registrations[id], w'.s.registrations[id]);
  }

  lemma NotTaken(w: World, op: Op, b: nat)
    requires Exclusive(w) && b in w.s.activeFor && Proper(op)
    ensures !Takes(w, op, b)
  {
    hide CanRegister, ValidateRange, ValidateAuthority;
  }

  lemma StuckNotFreed(w: World, op: Op, id: nat)
    requires Tidy(w) && SingleFlighted(w.s) && Stuck(w, id)
    ensures !Frees(w, op, w.s.registrations[id].bufferId)
  {
  }

  /** Nothing is wrong with the call except, perhaps, that the buffer is taken. */
  predicate OtherwiseFine(s: State, d: BufferDescriptor, backend: nat, domain: nat, env: Envelope)
    requires Sized(d)
  {
    && Current(s.authority, env) && HasBackend(s, backend)
    && domain in s.domains && s.domains[domain].state.DOMAIN_ACTIVE? && ValidateRange(d).None?
    && d.id in s.buffers && s.buffers[d.id].descriptor.generation == d.generation
  }

  /** The call is refused, and if nothing else is wrong with it, because the buffer is taken. */
  predicate Blocked(w: World, d: BufferDescriptor, backend: nat, domain: nat, env: Envelope)
    requires Sized(d)
  {
    var miss := RegisterMiss(w.s, w.b, d, backend, domain, env);
    miss.Some? && (OtherwiseFine(w.s, d, backend, domain, env) ==> miss == Some(REGISTRATION_IN_FLIGHT))
  }

  /**
   * Once leases have held up a soft revocation, in every recover-free interleaving without
   * overlapping register calls, whole operations among them, the index keeps naming the
   * registration: every register call for its buffer is refused.
   */
  lemma {:induction false} StuckForever(w: World, ops: seq<Op>, id: nat, d: BufferDescriptor, backend: nat, domain: nat, env: Envelope)
    requires Tidy(w) && SingleFlighted(w.s) && Exclusive(w) && Stuck(w, id) && Sized(d)
    requires AllProper(ops) && RecoverFree(ops) && NeverOverlaps(w, ops) && d.id == w.s.registrations[id].bufferId
    ensures var w' := Run(w, ops);
            Stuck(w', id) && Blocked(w', d, backend, domain, env)
    decreases |ops|
  {
    hide Step, Tidy, StepsTo, SingleFlighted, Exclusive, Overlaps, CommitsOver, Blocked, Stuck;
    if ops == [] {
      StuckRefuses(w, id, d, backend, domain, env);
    } else {
      var w1 := Step(w, ops[0]);
      StepMoves(w, ops[0]);
      ExclusiveCommits(w, ops[0]);
      StepFlight(w, ops[0]);
      StepExclusive(w, ops[0]);
      StepStuck(w, ops[0], id);
      StuckBuffer(w, w1, id);
      StuckForever(w1, ops[1..], id, d, backend, domain, env);
    }
  }

  lemma StuckBuffer(w: World, w': World, id: nat)
    requires Tidy(w) && StepsTo(w, w') && Stuck(w, id) && Stuck(w', id)
    ensures id in w'.s.registrations && w'.s.registrations[id].bufferId == w.s.registrations[id].bufferId
  {
    hide Tidy, StepsTo;
    SameBuffer(w, w', id);
  }

  lemma StuckRefuses(w: World, id: nat, d: BufferDescriptor, backend: nat, domain: nat, env: Envelope)
    requires Stuck(w, id) && Sized(d) && d.id == w.s.registrations[id].bufferId
    ensures Blocked(w, d, backend, domain, env)
  {
    hide CanRegister, ValidateRange, ValidateAuthority, Current;
    AuthorityExact(w.s.authority, env);
  }

  /** A soft revocation with leases outstanding leads there, and whole operations stay there. */
  lemma SoftRevocationBlocks(seed: nat, before: seq<Op>, id: nat, after: seq<Op>,
                             d: BufferDescriptor, backend: nat, domain: nat, env: Envelope)
    requires AllProper(before) && Whole(before) && RecoverFree(before)
    requires AllProper(after) && Whole(after) && RecoverFree(after) && Sized(d)
    requires var s := Run(Start(seed), before).s;
             Revocable(s, id) && s.registrations[id].leaseCount > 0 && d.id == s.registrations[id].bufferId
    ensures var w := Run(Step(Run(Start(seed), before), SoftRevoking(id)), after);
            Blocked(w, d, backend, domain, env)
  {
    hide Run, Tidy, Exclusive, SingleFlighted, NeverOverlaps, Blocked;
    var w := Run(Start(seed), before);
    StartTidy(seed);
    WholeNeverOverlaps(Start(seed), before);
    RunEvolves(Start(seed), before);
    StartSingle(seed);
    RunExclusive(Start(seed), before);
    RunWhole(Start(seed), before);
    var w1 := Step(w, SoftRevoking(id));
    StepMoves(w, SoftRevoking(id));
    StepFlight(w, SoftRevoking(id));
    NoOverlapHere(w, id);
    StepExclusive(w, SoftRevoking(id));
    StaysWhole(w, SoftRevoking(id));
    SoftSticks(w, id);
    WholeNeverOverlaps(w1, after);
    StuckForever(w1, after, id, d, backend, domain, env);
  }

  lemma StartSingle(seed: nat)
    ensures SingleFlighted(Start(seed).s) && Exclusive(Start(seed))
  {
  }

  lemma NoOverlapHere(w: World, id: nat)
    ensures !Overlaps(w, SoftRevoking(id)) && !CommitsOver(w, SoftRevoking(id))
  {
  }

  lemma {:induction false} RunWhole(w: World, ops: seq<Op>)
    requires AllProper(ops) && Whole(ops) && w.registering == map[]
    ensures Run(w, ops).registering == map[]
    decreases |ops|
  {
    hide Step;
    if ops != [] {
      StaysWhole(w, ops[0]);
      RunWhole(Step(w, ops[0]), ops[1..]);
    }
  }

  lemma SoftSticks(w: World, id: nat)
    requires Tidy(w) && SingleFlighted(w.s) && Revocable(w.s, id) && w.s.registrations[id].leaseCount > 0
    ensures var w' := Step(w, SoftRevoking(id));
            Stuck(w', id) && w'.s.registrations[id].bufferId == w.s.registrations[id].bufferId
  {
    assert Indexed(w.s, id, w.s.registrations[id]);
  }
}
