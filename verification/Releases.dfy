/**
 * Charges along a run: which records have been released, that no decrement is ever refused,
 * and that the counters close at zero.
 */
module Releases {
  import opened Records
  import opened Checks
  import opened BackendModel
  import opened Runtime
  import opened Worlds
  import opened Evolution
  import opened StepFrames
  import opened Charges

  // ---- the reason text says whether the charge is gone --------------------------------------------------

  /** The bulk invalidation the step carries out, if it does. */
  ghost function BulkCause(w: World, op: Op): Option<Cause> {
    match op
    case DropDomain(d, order) => if Orderly(w, op) && d in w.s.domains then Some(DomainDestroyed(d)) else None
    case NewBuffer(d, order) =>
      var key := BufferKey(w.s, d);
      if Orderly(w, op) && !CreateRefused(w.s, d) && key in w.s.buffers then Some(Reallocated(key)) else None
    case _ => None
  }

  /** The records whose charge the step releases and leaves in the table. */
  ghost predicate Releases(w: World, op: Op, id: nat) {
    && BulkCause(w, op).Some? && id in w.s.registrations
    && Matches(w.s.registrations[id], BulkCause(w, op).value)
  }

  /** `Charged` changes with a release and with nothing else; a record is charged when it is entered. */
  ghost predicate ChargeFollows(w: World, op: Op, w': World, id: nat) {
    id in w'.s.registrations ==>
      && (Charged(w'.s.registrations[id]) <==>
            (id in w.s.registrations ==> Charged(w.s.registrations[id])) && !Releases(w, op, id))
      && (Releases(w, op, id) ==> !Live(w'.s.registrations[id].lifecycle))
  }

  /** What is live is charged. */
  ghost predicate LiveCharged(w: World) {
    forall id :: id in w.s.registrations && Live(w.s.registrations[id].lifecycle) ==> Charged(w.s.registrations[id])
  }

  lemma BulkFollows(w: World, op: Op, order: seq<nat>, c: Cause, w': World, id: nat)
    requires BulkCause(w, op) == Some(c) && Enumerates(order, w.s.registrations)
    requires w'.s.registrations == InvalidateAll(w.s, order, c).registrations
    ensures ChargeFollows(w, op, w', id)
  {
    hide InvalidateAll, Matches, Charged, BulkCause, Invalidated;
    InvalidateAllEffect(w.s, order, c);
    if id in w.s.registrations {
      InvalidatedReleased(w.s.registrations[id], c);
    }
  }

  lemma SameFollows(w: World, op: Op, w': World, id: nat)
    requires w'.s.registrations == w.s.registrations && BulkCause(w, op).None?
    ensures ChargeFollows(w, op, w', id)
  {
    hide Charged, BulkCause;
  }

  lemma DropDomainFollows(w: World, d: nat, order: seq<nat>, id: nat)
    requires Orderly(w, DropDomain(d, order))
    ensures ChargeFollows(w, DropDomain(d, order), w.(s := DestroyDomain(w.s, d, order)), id)
  {
    hide InvalidateAll, ChargeFollows, Enumerates, Decrement;
    var (op, w') := (DropDomain(d, order), w.(s := DestroyDomain(w.s, d, order)));
    if d in w.s.domains {
      BulkFollows(w, op, order, DomainDestroyed(d), w', id);
    } else {
      SameFollows(w, op, w', id);
    }
  }

  lemma NewBufferFollows(w: World, d: BufferDescriptor, order: seq<nat>, id: nat)
    requires Orderly(w, NewBuffer(d, order))
    ensures ChargeFollows(w, NewBuffer(d, order), w.(s := CreateBuffer(w.s, d, order)), id)
  {
    hide InvalidateAll, ChargeFollows, Enumerates, Decrement;
    var (op, w') := (NewBuffer(d, order), w.(s := CreateBuffer(w.s, d, order)));
    var key := BufferKey(w.s, d);
    if !CreateRefused(w.s, d) && key in w.s.buffers {
      var s0 := if d.id != 0 then w.s else w.s.(nextBuffer := w.s.nextBuffer + 1);
      InvalidateIgnores(w.s, s0, order, Reallocated(key));
      BulkFollows(w, op, order, Reallocated(key), w', id);
    } else {
      SameFollows(w, op, w', id);
    }
  }

  /** The step changes one record at most, and not whether it is charged. */
  lemma OneFollows(w: World, op: Op, w': World, k: nat, id: nat)
    requires BulkCause(w, op).None? && w'.s.registrations.Keys == w.s.registrations.Keys
    requires forall j :: j in w.s.registrations && j != k ==> w'.s.registrations[j] == w.s.registrations[j]
    requires k in w.s.registrations ==> (Charged(w'.s.registrations[k]) <==> Charged(w.s.registrations[k]))
    ensures ChargeFollows(w, op, w', id)
  {
    hide Charged, BulkCause;
  }

  lemma LeasingFollows(w: World, k: nat, env: Envelope, needed: Mask, id: nat)
    ensures ChargeFollows(w, Leasing(k, env, needed), w.(s := AcquireLease(w.s, k, env, needed)), id)
  {
    hide LeaseMissReason, GrantedLease, ChargeFollows;
    if LeaseMissReason(w.s, k, env, needed).None? {
      CanLease(w.s, k, env, needed);
    }
    OneFollows(w, Leasing(k, env, needed), w.(s := AcquireLease(w.s, k, env, needed)), k, id);
  }

  lemma ReturningFollows(w: World, lease: nat, id: nat)
    ensures ChargeFollows(w, Returning(lease), w.(s := ReleaseLease(w.s, lease)), id)
  {
    hide ChargeFollows;
    var k := if Releasable(w.s, lease) then w.s.leases[lease].registration else 0;
    OneFollows(w, Returning(lease), w.(s := ReleaseLease(w.s, lease)), k, id);
  }

  lemma RotatingFollows(w: World, k: nat, id: nat)
    ensures ChargeFollows(w, Rotating(k), Step(w, Rotating(k)), id)
  {
    hide RotateKey, ChargeFollows;
    OneFollows(w, Rotating(k), Step(w, Rotating(k)), k, id);
  }

  /** Revocation writes its text only over that of a live record, which is charged. */
  lemma RevokingFollows(w: World, k: nat, order: seq<nat>, id: nat)
    requires LiveCharged(w) && Orderly(w, Revoking(k, order))
    ensures ChargeFollows(w, Revoking(k, order), w.(s := HardRevoke(w.s, k, order)), id)
  {
    hide RevokeLeases, ChargeFollows, Charged;
    if Revocable(w.s, k) {
      var r := RevokedRecord(w.s.registrations[k]);
      RevokeLeasesFrame(w.s.(registrations := w.s.registrations[k := r]), order, k);
      ReasonsDiffer(r);
    }
    OneFollows(w, Revoking(k, order), w.(s := HardRevoke(w.s, k, order)), k, id);
  }

  lemma SoftRevokingFollows(w: World, k: nat, id: nat)
    requires LiveCharged(w)
    ensures ChargeFollows(w, SoftRevoking(k), w.(s := SoftRevoke(w.s, k)), id)
  {
    hide ChargeFollows, Charged;
    if Revocable(w.s, k) {
      ReasonsDiffer(SoftRevoke(w.s, k).registrations[k]);
    }
    OneFollows(w, SoftRevoking(k), w.(s := SoftRevoke(w.s, k)), k, id);
  }

  lemma RecordsFollow(w: World, op: Op, id: nat)
    requires LiveCharged(w) && Proper(op) && Orderly(w, op)
    requires op.Leasing? || op.Returning? || op.Revoking? || op.SoftRevoking? || op.Rotating?
    ensures ChargeFollows(w, op, Step(w, op), id)
  {
    hide ChargeFollows, LiveCharged, HardRevoke, SoftRevoke, AcquireLease, ReleaseLease, RotateRegistration, Orderly;
    match op
    case Revoking(k, order) => RevokingFollows(w, k, order, id);
    case SoftRevoking(k) => SoftRevokingFollows(w, k, id);
    case Leasing(k, env, needed) => LeasingFollows(w, k, env, needed, id);
    case Returning(lease) => ReturningFollows(w, lease, id);
    case Rotating(k) => RotatingFollows(w, k, id);
  }

  lemma QuietFollows(w: World, op: Op, id: nat)
    requires Proper(op) && (Quiet(op) || !Orderly(w, op))
    ensures ChargeFollows(w, op, Step(w, op), id)
  {
    hide Step, ChargeFollows, Orderly;
    if Orderly(w, op) {
      QuietFrame(w, op);
    } else {
      Unordered(w, op);
    }
    SameFollows(w, op, Step(w, op), id);
  }

  lemma EntersFollows(w: World, op: Op, w': World, n: nat, id: nat)
    requires BulkCause(w, op).None? && n !in w.s.registrations
    requires n in w'.s.registrations && Charged(w'.s.registrations[n])
    requires w'.s.registrations == w.s.registrations[n := w'.s.registrations[n]]
    ensures ChargeFollows(w, op, w', id)
  {
    hide Charged, BulkCause;
  }

  lemma CallsFollow(w: World, op: Op, id: nat)
    requires Tidy(w) && Proper(op) && (op.Registering? || op.CheckRegister? || op.CallRegister? || op.CommitRegister?)
    ensures ChargeFollows(w, op, Step(w, op), id)
  {
    hide RegisterMiss, RegisterCall, RegisterBuffer, AccountCommit, Stored, BegunRecord, ChargeFollows, Charged;
    var w' := Step(w, op);
    if op.Registering? && Passes(w, op.d, op.backend, op.domain, op.env) {
      RegisterEnds(w, op.d, op.backend, op.domain, op.env);
      EnteredCharged(w, op.d, op.backend, op.domain, op.env);
      EntersFollows(w, op, w', w.s.nextRegistration, id);
    } else if op.CommitRegister? && ReadyToCommit(w, op.id) {
      ReasonsDiffer(CommittedRecord(w.s, w.registering[op.id].rec, w.registering[op.id].grant.value));
      EntersFollows(w, op, w', op.id, id);
    } else {
      if op.Registering? {
        RegisterEnds(w, op.d, op.backend, op.domain, op.env);
      }
      SameFollows(w, op, w', id);
    }
  }

  lemma EnteredCharged(w: World, d: BufferDescriptor, backend: nat, domain: nat, env: Envelope)
    requires Tidy(w) && Sized(d) && Passes(w, d, backend, domain, env)
    ensures var regs := RegisterCall(w, d, backend, domain, env).s.registrations;
            w.s.nextRegistration !in w.s.registrations && w.s.nextRegistration in regs && Charged(regs[w.s.nextRegistration])
  {
    hide RegisterMiss, CanRegister, GrantFor, AccountCommit, Charged, Stored;
    CheckedFirst(w.s, w.b, d, backend, domain, env);
    ReasonsDiffer(RegisterCall(w, d, backend, domain, env).s.registrations[w.s.nextRegistration]);
  }

  /** Marking, failing and erasing leave the texts of the records. */
  lemma DeregistersFollow(w: World, op: Op, id: nat)
    requires Proper(op) && (op.CheckDeregister? || op.Deregistering? || op.CallDeregister? || op.CommitDeregister?)
    ensures ChargeFollows(w, op, Step(w, op), id)
  {
    hide DeregisterCommit, DeregisterFail, ChargeFollows, Step;
    DeregisterOutcome(w, op);
    EndingFollows(w, op, Step(w, op), id);
  }

  lemma EndingFollows(w: World, op: Op, w': World, id: nat)
    requires op.CheckDeregister? || op.Deregistering? || op.CallDeregister? || op.CommitDeregister?
    requires || w'.s == w.s || w'.s == DeregisterCommit(w.s, op.id) || w'.s == DeregisterFail(w.s, op.id)
             || (MayDeregister(w.s, op.id) && w'.s == DeregisterCheck(w.s, op.id))
    ensures ChargeFollows(w, op, w', id)
  {
    hide AccountInvalidate;
  }

  lemma StepFollows(w: World, op: Op, id: nat)
    requires Tidy(w) && LiveCharged(w) && Proper(op) && !op.Recovering?
    ensures ChargeFollows(w, op, Step(w, op), id)
  {
    hide ChargeFollows, Step, Tidy, LiveCharged, Orderly, Quiet, DestroyDomain, CreateBuffer;
    Kinds(op);
    if Quiet(op) || !Orderly(w, op) {
      QuietFollows(w, op, id);
    } else if op.DropDomain? || op.NewBuffer? {
      TablesFollow(w, op, id);
    } else if op.Leasing? || op.Returning? || op.Revoking? || op.SoftRevoking? || op.Rotating? {
      RecordsFollow(w, op, id);
    } else if op.Registering? || op.CheckRegister? || op.CallRegister? || op.CommitRegister? {
      CallsFollow(w, op, id);
    } else {
      DeregistersFollow(w, op, id);
    }
  }

  lemma TablesFollow(w: World, op: Op, id: nat)
    requires Proper(op) && Orderly(w, op) && (op.DropDomain? || op.NewBuffer?)
    ensures ChargeFollows(w, op, Step(w, op), id)
  {
    hide ChargeFollows, DestroyDomain, CreateBuffer, Orderly;
    match op
    case DropDomain(d, order) => DropDomainFollows(w, d, order, id);
    case NewBuffer(d, order) => NewBufferFollows(w, d, order, id);
  }

  lemma StepLiveCharged(w: World, op: Op)
    requires Tidy(w) && LiveCharged(w) && Proper(op) && !op.Recovering?
    ensures LiveCharged(Step(w, op))
  {
    hide Step, Charged, Releases, Path;
    StepMoves(w, op);
    forall id | id in Step(w, op).s.registrations && Live(Step(w, op).s.registrations[id].lifecycle)
      ensures Charged(Step(w, op).s.registrations[id])
    {
      StepFollows(w, op, id);
    }
  }

  /** A step of the run releases the charge of `id`. */
  ghost predicate ReleasedBy(w: World, ops: seq<Op>, id: nat)
    requires AllProper(ops)
    decreases |ops|
  {
    ops != [] && (Releases(w, ops[0], id) || ReleasedBy(Step(w, ops[0]), ops[1..], id))
  }

  lemma {:induction false} RunFollows(w: World, ops: seq<Op>, id: nat)
    requires Tidy(w) && LiveCharged(w) && AllProper(ops) && RecoverFree(ops)
    requires id in Run(w, ops).s.registrations
    ensures Charged(Run(w, ops).s.registrations[id]) <==>
              (id in w.s.registrations ==> Charged(w.s.registrations[id])) && !ReleasedBy(w, ops, id)
    decreases |ops|
  {
    hide Step, Charged, BulkCause, Matches, LiveCharged;
    if ops != [] {
      var w' := Step(w, ops[0]);
      StepMoves(w, ops[0]);
      StepFollows(w, ops[0], id);
      StepLiveCharged(w, ops[0]);
      RunFollows(w', ops[1..], id);
      if id in w.s.registrations && id !in w'.s.registrations {
        RunEvolves(w', ops[1..]);
        assert false;
      }
    }
  }

  /** From the start, in every recover-free interleaving: the text tells exactly who has been released. */
  lemma ChargedExactly(seed: nat, ops: seq<Op>, id: nat)
    requires AllProper(ops) && RecoverFree(ops) && id in Run(Start(seed), ops).s.registrations
    ensures Charged(Run(Start(seed), ops).s.registrations[id]) <==> !ReleasedBy(Start(seed), ops, id)
  {
    hide Run, Charged, ReleasedBy;
    StartTidy(seed);
    RunFollows(Start(seed), ops, id);
  }

  // ---- no decrement is refused ------------------------------------------------------------------------------

  /** Each of the five decrements is carried out in full. */
  predicate Exact(a: Accounting, rec: RegistrationRecord) {
    var a' := AccountInvalidate(a, rec);
    && a'.activeRegistrations + 1 == a.activeRegistrations && a'.localKeys + 1 == a.localKeys
    && a'.remoteKeys + 1 == a.remoteKeys && a'.registeredBytes + rec.length == a.registeredBytes
    && a'.pinnedBytes + (if rec.domain.HOST_PINNED? then rec.length else 0) == a.pinnedBytes
  }

  lemma ChargedIsExact(regs: map<nat, RegistrationRecord>, a: Accounting, id: nat)
    requires Balanced(regs, a) && id in regs && Charged(regs[id])
    ensures Exact(a, regs[id])
  {
    hide Balanced, Charged;
    CoveredByCounters(regs, a, id);
  }

  /** Every release on the way through the table is exact. */
  ghost predicate BulkExact(s: State, order: seq<nat>, c: Cause) {
    forall i :: 0 <= i < |order| ==>
      var t := InvalidateAll(s, order[..i], c);
      order[i] in t.registrations && Matches(t.registrations[order[i]], c) ==>
        Exact(t.acct, Invalidated(t.registrations[order[i]], c))
  }

  lemma BulkIsExact(s: State, order: seq<nat>, c: Cause)
    requires TablePaid(s) && forall k :: k in s.registrations ==> !s.registrations[k].lifecycle.REGISTERING?
    ensures BulkExact(s, order, c)
  {
    hide InvalidateAll, Balanced, Charged, Exact, AccountInvalidate;
    forall i | 0 <= i < |order|
      ensures var t := InvalidateAll(s, order[..i], c);
              order[i] in t.registrations && Matches(t.registrations[order[i]], c) ==>
                Exact(t.acct, Invalidated(t.registrations[order[i]], c))
    {
      var t := InvalidateAll(s, order[..i], c);
      InvalidateAllPaid(s, order[..i], c);
      if order[i] in t.registrations && Matches(t.registrations[order[i]], c) {
        ChargedIsExact(t.registrations, t.acct, order[i]);
        SameWeights(t.acct, t.registrations[order[i]], Invalidated(t.registrations[order[i]], c));
      }
    }
  }

  lemma SameWeights(a: Accounting, rec: RegistrationRecord, r: RegistrationRecord)
    requires Exact(a, rec) && r.length == rec.length && r.domain == rec.domain
    ensures Exact(a, r)
  {
  }

  /** Every release of a charge in the step is exact. */
  ghost predicate StepExact(w: World, op: Op)
    requires Proper(op)
  {
    match op
    case DropDomain(d, order) => BulkCause(w, op).Some? ==> BulkExact(w.s, order, BulkCause(w, op).value)
    case NewBuffer(d, order) =>
      BulkCause(w, op).Some? ==>
        BulkExact(if d.id != 0 then w.s else w.s.(nextBuffer := w.s.nextBuffer + 1), order, BulkCause(w, op).value)
    case CommitDeregister(id) =>
      id in w.deregistering && w.deregistering[id] == Called(true) && id in w.s.registrations ==>
        Exact(w.s.acct, w.s.registrations[id])
    case Deregistering(id) =>
      MayDeregister(w.s, id)
      && DeregisterBackend(w.s, w.b, w.s.registrations[id].backend, w.s.registrations[id].handle).Some? ==>
        Exact(w.s.acct, w.s.registrations[id])
    case _ => true
  }

  lemma StepIsExact(w: World, op: Op)
    requires Tidy(w) && Paid(w) && Proper(op) && !ErasesReleased(w, op)
    ensures StepExact(w, op)
  {
    hide BulkExact, Balanced, Charged, Exact, InvalidateAll, Enumerates, Release;
    match op
    case DropDomain(d, order) =>
      BulkIsExact(w.s, order, DomainDestroyed(d));
    case NewBuffer(d, order) =>
      BulkIsExact(if d.id != 0 then w.s else w.s.(nextBuffer := w.s.nextBuffer + 1), order, Reallocated(BufferKey(w.s, d)));
    case CommitDeregister(id) =>
      if id in w.s.registrations && Charged(w.s.registrations[id]) {
        ChargedIsExact(w.s.registrations, w.s.acct, id);
      }
    case Deregistering(id) =>
      if id in w.s.registrations && Charged(w.s.registrations[id]) {
        ChargedIsExact(w.s.registrations, w.s.acct, id);
      }
    case _ =>
  }

  ghost predicate ExactThroughout(w: World, ops: seq<Op>)
    requires AllProper(ops)
    decreases |ops|
  {
    ops == [] || (StepExact(w, ops[0]) && ExactThroughout(Step(w, ops[0]), ops[1..]))
  }

  lemma {:induction false} RunExact(w: World, ops: seq<Op>)
    requires Tidy(w) && Paid(w) && AllProper(ops) && RecoverFree(ops) && ErasesOnlyCharged(w, ops)
    ensures ExactThroughout(w, ops)
    decreases |ops|
  {
    hide Step, Tidy, Paid, StepsTo, ErasesReleased, StepExact;
    if ops != [] {
      StepMoves(w, ops[0]);
      StepPaid(w, ops[0]);
      StepIsExact(w, ops[0]);
      RunExact(Step(w, ops[0]), ops[1..]);
    }
  }

  /** In every run that erases no released record, no decrement of these counters is refused. */
  lemma NothingRefused(seed: nat, ops: seq<Op>)
    requires AllProper(ops) && RecoverFree(ops) && ErasesOnlyCharged(Start(seed), ops)
    ensures ExactThroughout(Start(seed), ops)
  {
    hide Tidy, Paid, ErasesOnlyCharged, ExactThroughout;
    StartTidy(seed);
    StartPaid(seed);
    RunExact(Start(seed), ops);
  }

  // ---- closing at zero -----------------------------------------------------------------------------------------

  /**
   * Such a run ends with the five counters at zero exactly when each registration still in
   * the table has been released by a reallocation or with its domain.
   */
  lemma RunCloses(seed: nat, ops: seq<Op>)
    requires AllProper(ops) && RecoverFree(ops) && ErasesOnlyCharged(Start(seed), ops)
    ensures var s := Run(Start(seed), ops).s;
            (s.acct.activeRegistrations == s.acct.localKeys == s.acct.remoteKeys == s.acct.registeredBytes
             == s.acct.pinnedBytes == 0)
            <==> forall id :: id in s.registrations ==> ReleasedBy(Start(seed), ops, id)
  {
    hide Run, Charged, ReleasedBy, Balanced, ErasesOnlyCharged;
    var s := Run(Start(seed), ops).s;
    ChargeConservation(seed, ops);
    forall id | id in s.registrations ensures Charged(s.registrations[id]) <==> !ReleasedBy(Start(seed), ops, id) {
      ChargedExactly(seed, ops, id);
    }
    if forall id :: id in s.registrations ==> !Charged(s.registrations[id]) {
      ClosesToZero(s.registrations, s.acct);
    } else {
      var id :| id in s.registrations && Charged(s.registrations[id]);
      CoveredByCounters(s.registrations, s.acct, id);
    }
  }
}
