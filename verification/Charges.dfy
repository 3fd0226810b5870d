/**
 * Charge conservation: what the counters of registrations, keys and bytes have to do with
 * the table. A registration is charged when it is committed and released once: when its
 * buffer is reallocated, when its domain is destroyed, or when it is deregistered.
 */
module Charges {
  import opened Records
  import opened Checks
  import opened Words
  import opened BackendModel
  import opened Runtime
  import opened Worlds
  import opened Evolution
  import opened Totals
  import Leases

  /**
   * Neither reallocation nor the destruction of its domain has released this record's charge.
   * The two texts are written together with the release and only then, and no other text is
   * written over them: `Releases.ChargedExactly` compares this with the releases of the run.
   */
  predicate Charged(rec: RegistrationRecord) {
    rec.reason != DOMAIN_REASON && rec.reason != REALLOCATION_REASON
  }

  function One(): RegistrationRecord -> nat {
    (rec: RegistrationRecord) => if Charged(rec) then 1 else 0
  }

  function ChargedBytes(): RegistrationRecord -> nat {
    (rec: RegistrationRecord) => if Charged(rec) then rec.length else 0
  }

  function PinnedBytes(): RegistrationRecord -> nat {
    (rec: RegistrationRecord) => if Charged(rec) && rec.domain.HOST_PINNED? then rec.length else 0
  }

  /** The counters are the counts and sums over the charged records of the table. */
  ghost predicate Balanced(regs: map<nat, RegistrationRecord>, a: Accounting) {
    && a.activeRegistrations == a.localKeys == a.remoteKeys == Total(regs, One())
    && a.registeredBytes == Total(regs, ChargedBytes()) && a.pinnedBytes == Total(regs, PinnedBytes())
  }

  /** The counters balance, and whatever is live is charged. */
  ghost predicate TablePaid(s: State) {
    && Balanced(s.registrations, s.acct)
    && forall id :: id in s.registrations && Live(s.registrations[id].lifecycle) ==> Charged(s.registrations[id])
  }

  ghost predicate Paid(w: World) {
    TablePaid(w.s)
  }

  lemma ReasonsDiffer(rec: RegistrationRecord)
    ensures rec.reason == [] || rec.reason == HARD_REASON || rec.reason == SOFT_REASON ==> Charged(rec)
    ensures |DOMAIN_REASON| == 27 && |REALLOCATION_REASON| == 39
  {
    assert |HARD_REASON| == 11 && |SOFT_REASON| == 11;
  }

  /** The counters a charge touches are the same. */
  predicate SameCounters(a: Accounting, a': Accounting) {
    && a'.activeRegistrations == a.activeRegistrations && a'.localKeys == a.localKeys && a'.remoteKeys == a.remoteKeys
    && a'.registeredBytes == a.registeredBytes && a'.pinnedBytes == a.pinnedBytes
  }

  predicate SameCharge(rec: RegistrationRecord, r: RegistrationRecord) {
    (Charged(rec) <==> Charged(r)) && r.length == rec.length && r.domain == rec.domain
  }

  // ---- the table changes, and the counters with it ----------------------------------------------------

  lemma PutBalanced(regs: map<nat, RegistrationRecord>, a: Accounting, id: nat, r: RegistrationRecord)
    requires Balanced(regs, a) && id in regs && SameCharge(regs[id], r)
    ensures Balanced(regs[id := r], a)
  {
    Put(regs, One(), id, r);
    Put(regs, ChargedBytes(), id, r);
    Put(regs, PinnedBytes(), id, r);
  }

  lemma CommitBalanced(regs: map<nat, RegistrationRecord>, a: Accounting, id: nat, r: RegistrationRecord)
    requires Balanced(regs, a) && id !in regs && Charged(r)
    ensures Balanced(regs[id := r], AccountCommit(a, r))
  {
    Put(regs, One(), id, r);
    Put(regs, ChargedBytes(), id, r);
    Put(regs, PinnedBytes(), id, r);
  }

  /** The weights of a charged record are within the counters: no decrement is refused. */
  lemma CoveredByCounters(regs: map<nat, RegistrationRecord>, a: Accounting, id: nat)
    requires Balanced(regs, a) && id in regs && Charged(regs[id])
    ensures 1 <= a.activeRegistrations && 1 <= a.localKeys && 1 <= a.remoteKeys && regs[id].length <= a.registeredBytes
    ensures regs[id].domain.HOST_PINNED? ==> regs[id].length <= a.pinnedBytes
  {
    AtLeast(regs, One(), id);
    AtLeast(regs, ChargedBytes(), id);
    AtLeast(regs, PinnedBytes(), id);
  }

  lemma ReleaseBalanced(regs: map<nat, RegistrationRecord>, a: Accounting, id: nat, r: RegistrationRecord)
    requires Balanced(regs, a) && id in regs && Charged(regs[id]) && !Charged(r)
    requires r.length == regs[id].length && r.domain == regs[id].domain
    ensures Balanced(regs[id := r], AccountInvalidate(a, r))
  {
    CoveredByCounters(regs, a, id);
    Put(regs, One(), id, r);
    Put(regs, ChargedBytes(), id, r);
    Put(regs, PinnedBytes(), id, r);
  }

  lemma EraseBalanced(regs: map<nat, RegistrationRecord>, a: Accounting, id: nat)
    requires Balanced(regs, a) && id in regs && Charged(regs[id])
    ensures Balanced(regs - {id}, AccountInvalidate(a, regs[id]))
  {
    CoveredByCounters(regs, a, id);
    Split(regs, One(), id);
    Split(regs, ChargedBytes(), id);
    Split(regs, PinnedBytes(), id);
  }

  /**
   * Deregistering a record that was released before takes its charge a second time. The
   * counters stay right exactly when nothing charged is left, for then every decrement is
   * refused.
   */
  lemma SecondRelease(regs: map<nat, RegistrationRecord>, a: Accounting, id: nat)
    requires Balanced(regs, a) && id in regs && !Charged(regs[id])
    ensures Balanced(regs - {id}, AccountInvalidate(a, regs[id])) <==> forall k :: k in regs ==> !Charged(regs[k])
  {
    Split(regs, One(), id);
    Split(regs, ChargedBytes(), id);
    Split(regs, PinnedBytes(), id);
    Nothing(regs, One());
    if forall k :: k in regs ==> !Charged(regs[k]) {
      forall k | k in regs ensures One()(regs[k]) == 0 && ChargedBytes()(regs[k]) == 0 && PinnedBytes()(regs[k]) == 0 {
      }
      Nothing(regs, ChargedBytes());
      Nothing(regs, PinnedBytes());
    } else {
      var k :| k in regs && Charged(regs[k]);
      assert One()(regs[k]) == 1;
    }
  }

  /** Once every charge has been released the counters are at zero. */
  lemma ClosesToZero(regs: map<nat, RegistrationRecord>, a: Accounting)
    requires Balanced(regs, a) && forall k :: k in regs ==> !Charged(regs[k])
    ensures a.activeRegistrations == a.localKeys == a.remoteKeys == a.registeredBytes == a.pinnedBytes == 0
  {
    forall k | k in regs ensures One()(regs[k]) == 0 && ChargedBytes()(regs[k]) == 0 && PinnedBytes()(regs[k]) == 0 {
    }
    Nothing(regs, One());
    Nothing(regs, ChargedBytes());
    Nothing(regs, PinnedBytes());
  }

  // ---- bulk invalidation ---------------------------------------------------------------------------------

  lemma InvalidatedReleased(rec: RegistrationRecord, c: Cause)
    ensures !Charged(Invalidated(rec, c)) && Invalidated(rec, c).length == rec.length
    ensures Invalidated(rec, c).domain == rec.domain && !Live(Invalidated(rec, c).lifecycle)
  {
  }

  lemma InvalidatePaid(s: State, id: nat, c: Cause)
    requires TablePaid(s) && forall k :: k in s.registrations ==> !s.registrations[k].lifecycle.REGISTERING?
    ensures TablePaid(Invalidate(s, id, c))
    ensures forall k :: k in Invalidate(s, id, c).registrations ==> !Invalidate(s, id, c).registrations[k].lifecycle.REGISTERING?
  {
    hide Balanced, Charged, AccountInvalidate;
    if id in s.registrations && Matches(s.registrations[id], c) {
      InvalidatedReleased(s.registrations[id], c);
      ReleaseBalanced(s.registrations, s.acct, id, Invalidated(s.registrations[id], c));
    }
  }

  lemma {:induction false} InvalidateAllPaid(s: State, order: seq<nat>, c: Cause)
    requires TablePaid(s) && forall k :: k in s.registrations ==> !s.registrations[k].lifecycle.REGISTERING?
    ensures TablePaid(InvalidateAll(s, order, c))
    ensures forall k :: k in InvalidateAll(s, order, c).registrations ==>
              !InvalidateAll(s, order, c).registrations[k].lifecycle.REGISTERING?
  {
    hide TablePaid, Invalidate;
    if order != [] {
      InvalidateAllPaid(s, order[..|order| - 1], c);
      InvalidatePaid(InvalidateAll(s, order[..|order| - 1], c), order[|order| - 1], c);
    }
  }

  lemma SamePaid(w: World, w': World)
    requires Paid(w) && w'.s.registrations == w.s.registrations && SameCounters(w.s.acct, w'.s.acct)
    ensures Paid(w')
  {
  }

  lemma OnePaid(w: World, w': World, id: nat, r: RegistrationRecord)
    requires Paid(w) && id in w.s.registrations && SameCharge(w.s.registrations[id], r)
    requires Live(r.lifecycle) ==> Live(w.s.registrations[id].lifecycle)
    requires w'.s.registrations == w.s.registrations[id := r] && SameCounters(w.s.acct, w'.s.acct)
    ensures Paid(w')
  {
    hide Charged;
    PutBalanced(w.s.registrations, w.s.acct, id, r);
  }

  lemma DropDomainPaid(w: World, d: nat, order: seq<nat>)
    requires Tidy(w) && Paid(w)
    ensures Paid(w.(s := DestroyDomain(w.s, d, order)))
  {
    hide InvalidateAll, Balanced, Charged, Decrement;
    if d in w.s.domains {
      InvalidateAllPaid(w.s, order, DomainDestroyed(d));
      BalancedRest(InvalidateAll(w.s, order, DomainDestroyed(d)), DestroyDomain(w.s, d, order));
    }
  }

  /** The other counters play no part. */
  lemma BalancedRest(s: State, s': State)
    requires TablePaid(s) && s'.registrations == s.registrations && SameCounters(s.acct, s'.acct)
    ensures TablePaid(s')
  {
  }

  lemma NewBufferPaid(w: World, d: BufferDescriptor, order: seq<nat>)
    requires Tidy(w) && Paid(w)
    ensures Paid(w.(s := CreateBuffer(w.s, d, order)))
  {
    hide InvalidateAll, Balanced, Charged, Decrement;
    var key := BufferKey(w.s, d);
    var s0 := if d.id != 0 then w.s else w.s.(nextBuffer := w.s.nextBuffer + 1);
    if !CreateRefused(w.s, d) && key in w.s.buffers {
      InvalidateAllPaid(s0, order, Reallocated(key));
      BalancedRest(InvalidateAll(s0, order, Reallocated(key)), CreateBuffer(w.s, d, order));
    } else {
      BalancedRest(w.s, CreateBuffer(w.s, d, order));
    }
  }

  // ---- single records ----------------------------------------------------------------------------------------

  lemma LeasingPaid(w: World, id: nat, env: Envelope, needed: Mask)
    requires Paid(w)
    ensures Paid(w.(s := AcquireLease(w.s, id, env, needed)))
  {
    hide Paid, ValidateAuthority, Superset;
    var w' := w.(s := AcquireLease(w.s, id, env, needed));
    if LeaseMissReason(w.s, id, env, needed).None? {
      OnePaid(w, w', id, w'.s.registrations[id]);
    }
  }

  lemma ReturningPaid(w: World, lease: nat)
    requires Paid(w)
    ensures Paid(w.(s := ReleaseLease(w.s, lease)))
  {
    hide Paid;
    var w' := w.(s := ReleaseLease(w.s, lease));
    if w'.s.registrations == w.s.registrations {
      SamePaid(w, w');
    } else {
      var id := w.s.leases[lease].registration;
      OnePaid(w, w', id, w'.s.registrations[id]);
    }
  }

  lemma RevokingPaid(w: World, id: nat, order: seq<nat>)
    requires Paid(w)
    ensures Paid(w.(s := HardRevoke(w.s, id, order)))
  {
    hide RevokeLeases, Balanced;
    var w' := w.(s := HardRevoke(w.s, id, order));
    if Revocable(w.s, id) {
      var r := RevokedRecord(w.s.registrations[id]);
      RevokeLeasesFrame(w.s.(registrations := w.s.registrations[id := r]), order, id);
      ReasonsDiffer(r);
      OnePaid(w, w', id, r);
    }
  }

  lemma SoftRevokingPaid(w: World, id: nat)
    requires Paid(w)
    ensures Paid(w.(s := SoftRevoke(w.s, id)))
  {
    hide Balanced;
    var w' := w.(s := SoftRevoke(w.s, id));
    if Revocable(w.s, id) {
      ReasonsDiffer(w'.s.registrations[id]);
      OnePaid(w, w', id, w'.s.registrations[id]);
    }
  }

  lemma RotatingPaid(w: World, id: nat)
    requires Paid(w)
    ensures var (s', b') := RotateRegistration(w.s, w.b, id); Paid(w.(s := s', b := b'))
  {
    hide Paid, Xor64;
    if Revocable(w.s, id) {
      var (s', b') := RotateRegistration(w.s, w.b, id);
      OnePaid(w, w.(s := s', b := b'), id, RotatedRecord(w.s.registrations[id]));
    }
  }

  lemma CommitRegisterPaid(w: World, id: nat)
    requires Tidy(w) && Paid(w)
    ensures Paid(CommitRegisterStep(w, id))
  {
    hide Balanced, AccountCommit;
    if id in w.registering && w.registering[id].grant.Some? {
      var r := CommittedRecord(w.s, w.registering[id].rec, w.registering[id].grant.value);
      ReasonsDiffer(r);
      CommitBalanced(w.s.registrations, w.s.acct, id, r);
    }
  }

  lemma CheckDeregisterPaid(w: World, id: nat)
    requires Paid(w)
    ensures Paid(CheckDeregisterStep(w, id))
  {
    hide Paid;
    var w' := CheckDeregisterStep(w, id);
    if MayDeregister(w.s, id) && id !in w.deregistering {
      OnePaid(w, w', id, w'.s.registrations[id]);
    }
  }

  /** The step erases a record whose charge is gone already. */
  ghost predicate ErasesReleased(w: World, op: Op)
    requires Proper(op)
  {
    match op
    case CommitDeregister(id) =>
      id in w.deregistering && w.deregistering[id] == Called(true) && id in w.s.registrations && !Charged(w.s.registrations[id])
    case Deregistering(id) =>
      && MayDeregister(w.s, id) && !Charged(w.s.registrations[id])
      && DeregisterBackend(w.s, w.b, w.s.registrations[id].backend, w.s.registrations[id].handle).Some?
    case _ => false
  }

  lemma CommitDeregisterPaid(w: World, id: nat)
    requires Tidy(w) && Paid(w) && !ErasesReleased(w, CommitDeregister(id))
    ensures Paid(CommitDeregisterStep(w, id))
  {
    hide Balanced, Charged, AccountInvalidate, Rank;
    var w' := CommitDeregisterStep(w, id);
    if id in w.deregistering && w.deregistering[id].Called? {
      if w.deregistering[id].ok {
        EraseBalanced(w.s.registrations, w.s.acct, id);
        BalancedDespite(w.s.registrations - {id}, AccountInvalidate(w.s.acct, w.s.registrations[id]));
      } else {
        FailureKeepsCharge(w.s.registrations[id]);
        OnePaid(w, w', id, w'.s.registrations[id]);
      }
    }
  }

  lemma BalancedDespite(regs: map<nat, RegistrationRecord>, a: Accounting)
    requires Balanced(regs, a)
    ensures Balanced(regs, a.(deregistrations := a.deregistrations + 1))
  {
  }

  lemma FailureKeepsCharge(rec: RegistrationRecord)
    ensures SameCharge(rec, rec.(lifecycle := FAILED))
  {
  }

  // ---- whole calls, steps, runs --------------------------------------------------------------------------------

  lemma RegisteringPaid(w: World, d: BufferDescriptor, backend: nat, domain: nat, env: Envelope)
    requires Tidy(w) && Paid(w) && Sized(d)
    ensures Paid(RegisterCall(w, d, backend, domain, env))
  {
    hide Paid, RegisterCall, CallRegisterStep, CommitRegisterStep, CheckRegisterStep, StepsTo;
    var id := w.s.nextRegistration;
    assert id !in w.registering;
    RegisterInPieces(w, d, backend, domain, env);
    var w1 := CheckRegisterStep(w, d, backend, domain, env);
    CheckKeepsTables(w, d, backend, domain, env);
    SamePaid(w, w1);
    CheckRegisterMoves(w, d, backend, domain, env);
    CallRegisterMoves(w1, id);
    Leases.BackendOnly(w1, id);
    SamePaid(w1, CallRegisterStep(w1, id));
    CommitRegisterPaid(CallRegisterStep(w1, id), id);
  }

  lemma CheckKeepsTables(w: World, d: BufferDescriptor, backend: nat, domain: nat, env: Envelope)
    requires Sized(d)
    ensures var w1 := CheckRegisterStep(w, d, backend, domain, env);
            w1.s.registrations == w.s.registrations && w1.s.acct == w.s.acct
  {
    hide RegisterMiss, BegunRecord;
  }

  lemma DeregisteringPaid(w: World, id: nat)
    requires Tidy(w) && Paid(w) && !ErasesReleased(w, Deregistering(id))
    ensures Paid(DeregisterCall(w, id))
  {
    hide Paid, StepsTo, DeregisterCall, CommitDeregisterStep, CallDeregisterStep, CheckDeregisterStep, ErasesReleased;
    if MayDeregister(w.s, id) {
      assert id !in w.deregistering;
      DeregisterInPieces(w, id);
      var w1 := CheckDeregisterStep(w, id);
      var w2 := CallDeregisterStep(w1, id);
      CheckDeregisterPaid(w, id);
      CheckDeregisterMoves(w, id);
      CallDeregisterMoves(w1, id);
      Leases.BackendOnly(w1, id);
      SamePaid(w1, w2);
      SameErasure(w, id);
      CommitDeregisterPaid(w2, id);
    } else {
      NothingDone(w, id);
    }
  }

  lemma NothingDone(w: World, id: nat)
    requires !MayDeregister(w.s, id)
    ensures DeregisterCall(w, id) == w
  {
  }

  /** The last piece erases a released record only if the whole call does. */
  lemma SameErasure(w: World, id: nat)
    requires MayDeregister(w.s, id) && id !in w.deregistering && !ErasesReleased(w, Deregistering(id))
    ensures !ErasesReleased(CallDeregisterStep(CheckDeregisterStep(w, id), id), CommitDeregister(id))
  {
    hide Charged, Release;
    CheckKeepsCharge(w.s.registrations[id]);
  }

  lemma CheckKeepsCharge(rec: RegistrationRecord)
    ensures SameCharge(rec, rec.(lifecycle := DEREGISTERING))
  {
  }

  lemma QuietPaid(w: World, op: Op)
    requires Paid(w) && Proper(op) && Quiet(op)
    ensures Paid(Step(w, op))
  {
    hide Paid, Step;
    QuietFrame(w, op);
    SamePaid(w, Step(w, op));
  }

  lemma PiecePaid(w: World, op: Op)
    requires Paid(w) && Proper(op) && (op.CheckRegister? || op.CallRegister? || op.CallDeregister?)
    ensures Paid(Step(w, op))
  {
    hide Paid, RegisterMiss, BegunRecord, CanRegister, GrantFor, DeregisterBackend;
    SamePaid(w, Step(w, op));
  }

  lemma StepPaid(w: World, op: Op)
    requires Tidy(w) && Paid(w) && Proper(op) && !op.Recovering? && !ErasesReleased(w, op)
    ensures Paid(Step(w, op))
  {
    hide Tidy, Paid, DestroyDomain, CreateBuffer, AcquireLease, ReleaseLease, HardRevoke, SoftRevoke;
    hide RegisterCall, DeregisterCall, CheckRegisterStep, CallRegisterStep, CommitRegisterStep;
    hide CheckDeregisterStep, CallDeregisterStep, CommitDeregisterStep, RotateRegistration, ErasesReleased;
    if Orderly(w, op) {
      if Quiet(op) {
        QuietPaid(w, op);
      } else {
        match op
        case DropDomain(d, order) => DropDomainPaid(w, d, order);
        case NewBuffer(d, order) => NewBufferPaid(w, d, order);
        case Leasing(id, env, needed) => LeasingPaid(w, id, env, needed);
        case Returning(lease) => ReturningPaid(w, lease);
        case Revoking(id, order) => RevokingPaid(w, id, order);
        case SoftRevoking(id) => SoftRevokingPaid(w, id);
        case Rotating(id) => RotatingPaid(w, id);
        case Registering(d, backend, domain, env) => RegisteringPaid(w, d, backend, domain, env);
        case Deregistering(id) => DeregisteringPaid(w, id);
        case CommitRegister(id) => CommitRegisterPaid(w, id);
        case CheckDeregister(id) => CheckDeregisterPaid(w, id);
        case CommitDeregister(id) => CommitDeregisterPaid(w, id);
        case _ => PiecePaid(w, op);
      }
    }
  }

  /** A run that never erases a record released before. */
  ghost predicate ErasesOnlyCharged(w: World, ops: seq<Op>)
    requires AllProper(ops)
    decreases |ops|
  {
    ops == [] || (!ErasesReleased(w, ops[0]) && ErasesOnlyCharged(Step(w, ops[0]), ops[1..]))
  }

  lemma {:induction false} RunPaid(w: World, ops: seq<Op>)
    requires Tidy(w) && Paid(w) && AllProper(ops) && RecoverFree(ops) && ErasesOnlyCharged(w, ops)
    ensures Paid(Run(w, ops))
    decreases |ops|
  {
    hide Step, Tidy, Paid, StepsTo, ErasesReleased;
    if ops != [] {
      StepMoves(w, ops[0]);
      StepPaid(w, ops[0]);
      RunPaid(Step(w, ops[0]), ops[1..]);
    }
  }

  /** Along every such run the counters are the counts and sums over the records still charged. */
  lemma ChargeConservation(seed: nat, ops: seq<Op>)
    requires AllProper(ops) && RecoverFree(ops) && ErasesOnlyCharged(Start(seed), ops)
    ensures var s := Run(Start(seed), ops).s; Balanced(s.registrations, s.acct)
  {
    hide Run, Tidy, Balanced, ErasesOnlyCharged;
    StartTidy(seed);
    StartPaid(seed);
    RunPaid(Start(seed), ops);
  }

  lemma StartPaid(seed: nat)
    ensures Paid(Start(seed))
  {
  }

  /** One more deregistration at the end of such a run keeps the counters right exactly when it is not a second release. */
  lemma SecondReleaseBreaks(w: World, id: nat)
    requires Tidy(w) && Paid(w) && id in w.deregistering && w.deregistering[id] == Called(true)
    ensures var s' := CommitDeregisterStep(w, id).s;
            Balanced(s'.registrations, s'.acct) <==>
              Charged(w.s.registrations[id]) || forall k :: k in w.s.registrations ==> !Charged(w.s.registrations[k])
  {
    hide Balanced, Charged, AccountInvalidate;
    var regs, a := w.s.registrations, w.s.acct;
    var a' := AccountInvalidate(a, regs[id]);
    if Charged(regs[id]) {
      EraseBalanced(regs, a, id);
    } else {
      SecondRelease(regs, a, id);
    }
    BalancedRestBack(regs - {id}, a', a'.(deregistrations := a'.deregistrations + 1));
  }

  lemma BalancedRestBack(regs: map<nat, RegistrationRecord>, a: Accounting, a': Accounting)
    requires SameCounters(a, a')
    ensures Balanced(regs, a) <==> Balanced(regs, a')
  {
  }
}
