/**
 * When an allowed registration is in an active domain and at its buffer's current
 * generation, although calls are taken apart. Two kinds of step break this: a commit that
 * finds its domain or buffer changed, and the destruction of a domain or reallocation of a
 * buffer under a registration that is marked for deregistration but not yet released.
 */
module Placement {
  import opened Records
  import opened Checks
  import opened Words
  import opened BackendModel
  import opened Runtime
  import opened Worlds
  import opened Evolution
  import opened Safety
  import opened SplitAccess
  import opened StepFrames

  /** Valid and marked for deregistration, the backend call still to come. */
  predicate Marked(w: World, id: nat) {
    && id in w.s.registrations && w.s.registrations[id].lifecycle.DEREGISTERING? && w.s.registrations[id].freshness == VALID
    && id in w.deregistering && w.deregistering[id].Checked?
  }

  /** The registrations that can still be allowed: the active ones and the marked ones. */
  predicate Standing(w: World, id: nat) {
    || (id in w.s.registrations && w.s.registrations[id].freshness == VALID && w.s.registrations[id].lifecycle.ACTIVE?)
    || Marked(w, id)
  }

  ghost predicate AllPlaced(w: World) {
    forall id :: id in w.s.registrations && Standing(w, id) ==> Placed(w.s, w.s.registrations[id])
  }

  /**
   * The steps that displace a standing registration, by what can be seen before the step:
   * a granted register call whose domain or buffer generation is no longer what it checked;
   * a domain or buffer taken away from a marked registration.
   */
  ghost predicate Displaces(w: World, op: Op) {
    match op
    case CommitRegister(id) => ReadyToCommit(w, id) && !Placed(w.s, w.registering[id].rec)
    case DropDomain(d, _) =>
      Orderly(w, op) && d in w.s.domains && exists id :: Marked(w, id) && w.s.registrations[id].domainId == d
    case NewBuffer(b, _) =>
      Orderly(w, op) && !CreateRefused(w.s, b) && BufferKey(w.s, b) in w.s.buffers
      && exists id :: Marked(w, id) && w.s.registrations[id].bufferId == BufferKey(w.s, b)
    case _ => false
  }

  // ---- what stands after a step stood before ----------------------------------------------------------

  lemma RecordStood(s: State, b: Backend, r: RegistrationRecord, r': RegistrationRecord)
    requires Lawful(s, b, r) && Moves(r, r') && r'.freshness == VALID
    requires r'.lifecycle.ACTIVE? || r'.lifecycle.DEREGISTERING?
    ensures r.freshness == VALID && SameIdentity(r, r')
    ensures r.lifecycle.ACTIVE? || (r.lifecycle.DEREGISTERING? && r'.lifecycle.DEREGISTERING?)
  {
    hide SameIdentity, Path, Extent, Issued;
  }

  lemma StoodBefore(w: World, op: Op, id: nat)
    requires Tidy(w) && Kept(w) && Proper(op) && !op.Recovering?
    requires Standing(Step(w, op), id) && id in w.s.registrations
    requires StepsTo(w, Step(w, op)) && Framed(w, op, Step(w, op))
    ensures Standing(w, id) && SameIdentity(w.s.registrations[id], Step(w, op).s.registrations[id])
    ensures id in Step(w, op).s.registrations
  {
    hide Step, Moves, SameIdentity, Lawful, TicketLawful, EndingLawful, Inverse, DomainsKept, IndexKept, Enters;
    var w' := Step(w, op);
    RecordStood(w.s, w.b, w.s.registrations[id], w'.s.registrations[id]);
  }

  lemma StaysPlaced(s: State, s': State, rec: RegistrationRecord, r: RegistrationRecord)
    requires Placed(s, rec) && SameIdentity(rec, r) && s'.buffers == s.buffers && DomainsKept(s, s')
    ensures Placed(s', r)
  {
  }

  // ---- the steps one by one -----------------------------------------------------------------------------

  /** Steps that touch neither domains nor buffers, and enter no record. */
  lemma OrdinaryStep(w: World, op: Op)
    requires Tidy(w) && Kept(w) && AllPlaced(w) && Proper(op) && !op.Recovering?
    requires StepsTo(w, Step(w, op)) && Framed(w, op, Step(w, op))
    requires !op.DropDomain? && !op.NewBuffer? && forall id :: !Enters(w, op, id)
    ensures AllPlaced(Step(w, op))
  {
    hide Step, Tidy, Kept, Standing, StepsTo, Enters, IndexKept, CallsKept, DomainsKept;
    var w' := Step(w, op);
    forall id | id in w'.s.registrations && Standing(w', id) ensures Placed(w'.s, w'.s.registrations[id]) {
      StoodBefore(w, op, id);
      StaysPlaced(w.s, w'.s, w.s.registrations[id], w'.s.registrations[id]);
    }
  }

  lemma CommitStep(w: World, id: nat)
    requires Tidy(w) && Kept(w) && AllPlaced(w) && ReadyToCommit(w, id)
    ensures AllPlaced(CommitRegisterStep(w, id)) <==> Placed(w.s, w.registering[id].rec)
  {
    hide AccountCommit, Lawful, EndingLawful, TicketLawful, Inverse;
    var w' := CommitRegisterStep(w, id);
    assert Standing(w', id);
    forall k | k in w.s.registrations ensures Standing(w', k) <==> Standing(w, k) {
    }
  }

  lemma RegisteringStep(w: World, d: BufferDescriptor, backend: nat, domain: nat, env: Envelope)
    requires Tidy(w) && AllPlaced(w) && Sized(d)
    ensures AllPlaced(RegisterCall(w, d, backend, domain, env))
  {
    hide RegisterCall, RegisterMiss;
    var w' := RegisterCall(w, d, backend, domain, env);
    RegisterEnds(w, d, backend, domain, env);
    if Passes(w, d, backend, domain, env) {
      CheckFacts(w.s, w.b, d, backend, domain, env);
      CheckedPlace(w.s, w.b, d, backend, domain, env);
      forall k | k in w'.s.registrations && Standing(w', k) ensures Placed(w'.s, w'.s.registrations[k]) {
        if k != w.s.nextRegistration {
          assert Standing(w, k);
        }
      }
    }
  }

  lemma CheckedPlace(s: State, b: Backend, d: BufferDescriptor, backend: nat, domain: nat, env: Envelope)
    requires Sized(d) && RegisterMiss(s, b, d, backend, domain, env).None?
    ensures domain in s.domains && s.domains[domain].state.DOMAIN_ACTIVE?
    ensures d.id in s.buffers && s.buffers[d.id].descriptor.generation == d.generation
  {
    hide CanRegister, ValidateRange, ValidateAuthority;
  }

  /** What stands after a bulk invalidation was not hit by it; what is marked never is. */
  lemma BulkStanding(w: World, w': World, order: seq<nat>, c: Cause, id: nat)
    requires w'.s.registrations == InvalidateAll(w.s, order, c).registrations && w'.deregistering == w.deregistering
    requires Enumerates(order, w.s.registrations) && id in w.s.registrations
    ensures id in w'.s.registrations
    ensures Standing(w', id) ==>
      w'.s.registrations[id] == w.s.registrations[id] && Standing(w, id) && !Matches(w.s.registrations[id], c)
    ensures Marked(w, id) ==> Standing(w', id) && w'.s.registrations[id] == w.s.registrations[id]
  {
    hide InvalidateAll;
    InvalidateAllAt(w.s, order, c, id);
  }

  lemma DropDomainStep(w: World, d: nat, order: seq<nat>)
    requires AllPlaced(w) && Enumerates(order, w.s.registrations) && d in w.s.domains
    ensures AllPlaced(w.(s := DestroyDomain(w.s, d, order)))
       <==> !exists id :: Marked(w, id) && w.s.registrations[id].domainId == d
  {
    hide InvalidateAll, Decrement, Standing, Enumerates;
    var w' := w.(s := DestroyDomain(w.s, d, order));
    InvalidateAllFrame(w.s, order, DomainDestroyed(d));
    if id :| Marked(w, id) && w.s.registrations[id].domainId == d {
      BulkStanding(w, w', order, DomainDestroyed(d), id);
      assert !Placed(w'.s, w'.s.registrations[id]);
    } else {
      forall id | id in w'.s.registrations && Standing(w', id) ensures Placed(w'.s, w'.s.registrations[id]) {
        BulkStanding(w, w', order, DomainDestroyed(d), id);
        NotHit(w, id, DomainDestroyed(d));
      }
    }
  }

  /** A standing registration that a cause does not match is elsewhere, unless it is marked. */
  lemma NotHit(w: World, id: nat, c: Cause)
    requires id in w.s.registrations && Standing(w, id) && !Matches(w.s.registrations[id], c)
    ensures Marked(w, id) || match c
                             case DomainDestroyed(d) => w.s.registrations[id].domainId != d
                             case Reallocated(b) => w.s.registrations[id].bufferId != b
  {
  }

  lemma ReallocationStep(w: World, b: BufferDescriptor, order: seq<nat>)
    requires AllPlaced(w) && Enumerates(order, w.s.registrations)
    requires !CreateRefused(w.s, b) && BufferKey(w.s, b) in w.s.buffers
    ensures AllPlaced(w.(s := CreateBuffer(w.s, b, order)))
       <==> !exists id :: Marked(w, id) && w.s.registrations[id].bufferId == BufferKey(w.s, b)
  {
    hide InvalidateAll, Decrement, Standing, Enumerates;
    var w' := w.(s := CreateBuffer(w.s, b, order));
    var key := BufferKey(w.s, b);
    var s0 := if b.id != 0 then w.s else w.s.(nextBuffer := w.s.nextBuffer + 1);
    InvalidateIgnores(w.s, s0, order, Reallocated(key));
    InvalidateAllFrame(w.s, order, Reallocated(key));
    if id :| Marked(w, id) && w.s.registrations[id].bufferId == key {
      MarkedStands(w, id);
      BulkStanding(w, w', order, Reallocated(key), id);
      assert !Placed(w'.s, w'.s.registrations[id]);
    } else {
      forall id | id in w'.s.registrations && Standing(w', id) ensures Placed(w'.s, w'.s.registrations[id]) {
        BulkStanding(w, w', order, Reallocated(key), id);
        NotHit(w, id, Reallocated(key));
      }
    }
  }

  lemma MarkedStands(w: World, id: nat)
    requires Marked(w, id)
    ensures Standing(w, id) && id in w.s.registrations
  {
  }

  lemma FreshBufferStep(w: World, b: BufferDescriptor, order: seq<nat>)
    requires AllPlaced(w) && (CreateRefused(w.s, b) || BufferKey(w.s, b) !in w.s.buffers)
    ensures AllPlaced(w.(s := CreateBuffer(w.s, b, order)))
  {
    hide InvalidateAll, Decrement;
    var w' := w.(s := CreateBuffer(w.s, b, order));
    assert w'.s.registrations == w.s.registrations;
    forall id | id in w'.s.registrations && Standing(w', id) ensures Placed(w'.s, w'.s.registrations[id]) {
      assert Standing(w, id);
    }
  }

  /** A step keeps every standing registration placed exactly when it does not displace one. */
  lemma StepPlacement(w: World, op: Op)
    requires Tidy(w) && Kept(w) && AllPlaced(w) && Proper(op) && !op.Recovering?
    requires Step(w, op).b.nextNumber <= SEQUENCE_LIMIT
    ensures AllPlaced(Step(w, op)) <==> !Displaces(w, op)
  {
    hide Tidy, Kept, AllPlaced, StepsTo, Framed, CommitRegisterStep, RegisterCall, DestroyDomain, CreateBuffer, CreateRefused;
    hide Marked, Placed;
    if Orderly(w, op) && op.DropDomain? && op.domain in w.s.domains {
      DropDomainStep(w, op.domain, op.order);
    } else if Orderly(w, op) && op.NewBuffer? {
      if !CreateRefused(w.s, op.d) && BufferKey(w.s, op.d) in w.s.buffers {
        ReallocationStep(w, op.d, op.order);
      } else {
        FreshBufferStep(w, op.d, op.order);
      }
    } else if op.CommitRegister? && ReadyToCommit(w, op.id) {
      CommitStep(w, op.id);
    } else if op.Registering? {
      RegisteringStep(w, op.d, op.backend, op.domain, op.env);
    } else {
      StepRest(w, op);
    }
  }

  lemma StepRest(w: World, op: Op)
    requires Tidy(w) && Kept(w) && AllPlaced(w) && Proper(op) && !op.Recovering?
    requires Step(w, op).b.nextNumber <= SEQUENCE_LIMIT
    requires !(Orderly(w, op) && op.DropDomain? && op.domain in w.s.domains) && !(Orderly(w, op) && op.NewBuffer?)
    requires !(op.CommitRegister? && ReadyToCommit(w, op.id)) && !op.Registering?
    ensures AllPlaced(Step(w, op)) && !Displaces(w, op)
  {
    hide Tidy, Kept, AllPlaced, StepsTo, Framed, Step, Marked, Placed;
    if op.DropDomain? || op.NewBuffer? {
      NothingHappens(w, op);
    } else {
      StepMoves(w, op);
      StepKept(w, op);
      StepFramed(w, op);
      OrdinaryStep(w, op);
    }
  }

  lemma NothingHappens(w: World, op: Op)
    requires Proper(op) && !(Orderly(w, op) && op.NewBuffer?)
    requires op.NewBuffer? || (op.DropDomain? && !(Orderly(w, op) && op.domain in w.s.domains))
    ensures Step(w, op) == w
  {
    hide Enumerates, InvalidateAll;
  }

  // ---- runs ------------------------------------------------------------------------------------------------

  /** Every state along the run has its standing registrations placed. */
  ghost predicate PlacedThroughout(w: World, ops: seq<Op>)
    requires AllProper(ops)
    decreases |ops|
  {
    AllPlaced(w) && (ops == [] || PlacedThroughout(Step(w, ops[0]), ops[1..]))
  }

  /** No step of the run displaces a standing registration. */
  ghost predicate Undisplaced(w: World, ops: seq<Op>)
    requires AllProper(ops)
    decreases |ops|
  {
    ops == [] || (!Displaces(w, ops[0]) && Undisplaced(Step(w, ops[0]), ops[1..]))
  }

  lemma {:induction false} RunPlacement(w: World, ops: seq<Op>)
    requires Tidy(w) && Kept(w) && AllPlaced(w) && AllProper(ops) && RecoverFree(ops)
    requires Run(w, ops).b.nextNumber <= SEQUENCE_LIMIT
    ensures PlacedThroughout(w, ops) <==> Undisplaced(w, ops)
    decreases |ops|
  {
    hide Step, Tidy, Kept, AllPlaced, StepsTo, Displaces;
    if ops != [] {
      var w' := Step(w, ops[0]);
      NumberGrowsOnRuns(w', ops[1..]);
      StepMoves(w, ops[0]);
      StepKept(w, ops[0]);
      StepPlacement(w, ops[0]);
      if AllPlaced(w') {
        RunPlacement(w', ops[1..]);
      } else {
        NotThroughout(w', ops[1..]);
      }
    }
  }

  lemma NotThroughout(w: World, ops: seq<Op>)
    requires AllProper(ops) && !AllPlaced(w)
    ensures !PlacedThroughout(w, ops)
  {
  }

  /** Every interleaving from the start, recover-free, keeps placement throughout exactly when no step displaces. */
  lemma PlacementExact(seed: nat, ops: seq<Op>)
    requires AllProper(ops) && RecoverFree(ops) && Run(Start(seed), ops).b.nextNumber <= SEQUENCE_LIMIT
    ensures PlacedThroughout(Start(seed), ops) <==> Undisplaced(Start(seed), ops)
  {
    hide Run, Tidy, Kept, PlacedThroughout, Undisplaced;
    StartTidy(seed);
    StartKept(seed);
    RunPlacement(Start(seed), ops);
  }

  lemma {:induction false} PlacedAtTheEnd(w: World, ops: seq<Op>)
    requires AllProper(ops) && PlacedThroughout(w, ops)
    ensures AllPlaced(Run(w, ops))
    decreases |ops|
  {
    hide Step, AllPlaced;
    if ops != [] {
      PlacedAtTheEnd(Step(w, ops[0]), ops[1..]);
    }
  }

  /** Along such runs an allowed request is right in every respect, placement included. */
  lemma AllowPlaced(seed: nat, ops: seq<Op>, q: Request)
    requires AllProper(ops) && RecoverFree(ops) && Ranged(q) && Undisplaced(Start(seed), ops)
    requires var w := Run(Start(seed), ops); w.b.nextNumber <= SEQUENCE_LIMIT && Access(w.s, w.b, q) == ALLOW
    ensures var w := Run(Start(seed), ops);
            EntitledMeanwhile(w, q) && Placed(w.s, w.s.registrations[q.registration])
  {
    hide Run, Access, Undisplaced, PlacedThroughout;
    var w := Run(Start(seed), ops);
    AllowInterleaved(seed, ops, q);
    PlacementExact(seed, ops);
    PlacedAtTheEnd(Start(seed), ops);
    AllowedStands(w, q);
  }

  lemma AllowedStands(w: World, q: Request)
    requires EntitledMeanwhile(w, q)
    ensures Standing(w, q.registration)
  {
    hide Superset, Has, Current, Supports;
  }

  // ---- each displacement can be seen in an allowed request ---------------------------------------------------

  /** A marked registration outlives its domain: what was allowed stays allowed, the domain being destroyed. */
  lemma MarkedOutlivesDomain(w: World, q: Request, order: seq<nat>)
    requires Ranged(q) && Marked(w, q.registration) && Access(w.s, w.b, q) == ALLOW
    requires w.s.registrations[q.registration].domainId in w.s.domains && Enumerates(order, w.s.registrations)
    ensures var rec := w.s.registrations[q.registration];
            var w' := Step(w, DropDomain(rec.domainId, order));
            && Access(w'.s, w'.b, q) == ALLOW && q.registration in w'.s.registrations
            && w'.s.registrations[q.registration] == rec
            && rec.domainId in w'.s.domains && w'.s.domains[rec.domainId].state.DESTROYED?
  {
    hide InvalidateAll, ValidateAuthority, QueryRemoteAccess, GrantOutcome, Enumerates, Decrement;
    var d := w.s.registrations[q.registration].domainId;
    InvalidateAllFrame(w.s, order, DomainDestroyed(d));
    InvalidateAllAt(w.s, order, DomainDestroyed(d), q.registration);
  }

  /** And it outlives its buffer's generation. */
  lemma MarkedOutlivesBuffer(w: World, q: Request, b: BufferDescriptor, order: seq<nat>)
    requires Ranged(q) && Marked(w, q.registration) && Access(w.s, w.b, q) == ALLOW && Sized(b)
    requires Enumerates(order, w.s.registrations) && Placed(w.s, w.s.registrations[q.registration])
    requires b.id == w.s.registrations[q.registration].bufferId != 0
    requires w.s.registrations[q.registration].bufferGeneration < b.generation
    ensures var rec := w.s.registrations[q.registration];
            var w' := Step(w, NewBuffer(b, order));
            && Access(w'.s, w'.b, q) == ALLOW && q.registration in w'.s.registrations
            && w'.s.registrations[q.registration] == rec
            && b.id in w'.s.buffers && rec.bufferGeneration < w'.s.buffers[b.id].descriptor.generation
  {
    hide InvalidateAll, ValidateAuthority, QueryRemoteAccess, GrantOutcome, Enumerates, Decrement;
    InvalidateAllFrame(w.s, order, Reallocated(b.id));
    InvalidateAllAt(w.s, order, Reallocated(b.id), q.registration);
  }
}
