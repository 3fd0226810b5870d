/**
 * The terms of a lease: every lease in the table was granted by a lease call of the run, to
 * that caller and for those rights, and is covered by what its registration was granted.
 */
module Terms {
  import opened Records
  import opened Checks
  import opened BackendModel
  import opened Runtime
  import opened Recovery
  import opened Worlds
  import opened Evolution
  import opened StepFrames
  import opened Admission

  /** Only the state of a lease ever changes. */
  predicate SameTerms(ls: Lease, ls': Lease) {
    ls' == ls.(state := ls'.state)
  }

  /** The step grants `ls`. */
  predicate Grants(w: World, op: Op, ls: Lease) {
    op.Leasing? && Leasable(w.s, op.id, op.env, op.needed) && LeaseOn(ls, op.id, w.s.registrations[op.id], op.env, op.needed)
  }

  /** Leases keep their terms; a new one has been granted. */
  ghost predicate TermsKept(w: World, op: Op, w': World) {
    forall l :: l in w'.s.leases ==>
      if l in w.s.leases then SameTerms(w.s.leases[l], w'.s.leases[l]) else Grants(w, op, w'.s.leases[l])
  }

  lemma FewerKept(w: World, op: Op, w': World)
    requires forall l :: l in w'.s.leases ==> l in w.s.leases && w'.s.leases[l] == w.s.leases[l]
    ensures TermsKept(w, op, w')
  {
  }

  lemma TablesKeep(w: World, op: Op)
    requires Proper(op) && (op.DropDomain? || op.NewBuffer? || op.Recovering?)
    ensures TermsKept(w, op, Step(w, op)) && Step(w, op).s.nextLease == w.s.nextLease
  {
    hide InvalidateAll, Recover, Enumerates, Decrement, TermsKept, RecoverBuffers, RecoverDomains, RecoverRegistrations;
    match op {
      case DropDomain(d, order) => InvalidateAllFrame(w.s, order, DomainDestroyed(d));
      case NewBuffer(d, order) =>
        var s0 := if d.id != 0 then w.s else w.s.(nextBuffer := w.s.nextBuffer + 1);
        InvalidateAllFrame(s0, order, Reallocated(BufferKey(w.s, d)));
      case Recovering(p) => RecoverFrame(w.s, p);
    }
    FewerKept(w, op, Step(w, op));
  }

  lemma CallsKeep(w: World, op: Op)
    requires Proper(op) && (op.Registering? || op.CheckRegister? || op.CallRegister? || op.CommitRegister?)
    ensures TermsKept(w, op, Step(w, op)) && Step(w, op).s.nextLease == w.s.nextLease
  {
    hide RegisterMiss, RegisterBuffer, BegunRecord, CommittedRecord, AccountCommit, TermsKept;
    FewerKept(w, op, Step(w, op));
  }

  lemma DeregistersKeep(w: World, op: Op)
    requires Proper(op) && (op.Deregistering? || op.CheckDeregister? || op.CallDeregister? || op.CommitDeregister?)
    ensures TermsKept(w, op, Step(w, op)) && Step(w, op).s.nextLease == w.s.nextLease
  {
    hide DeregisterCommit, DeregisterFail, TermsKept, Step;
    DeregisterOutcome(w, op);
    EndedKeeps(w.s, op.id);
    FewerKept(w, op, Step(w, op));
  }

  lemma EndedKeeps(s: State, id: nat)
    ensures DeregisterFail(s, id).leases == s.leases && DeregisterFail(s, id).nextLease == s.nextLease
    ensures forall l :: l in DeregisterCommit(s, id).leases ==> l in s.leases && DeregisterCommit(s, id).leases[l] == s.leases[l]
    ensures DeregisterCommit(s, id).nextLease == s.nextLease
  {
    hide AccountInvalidate;
  }

  lemma StatusKeeps(w: World, op: Op)
    requires Proper(op) && (op.SoftRevoking? || op.Rotating?)
    ensures TermsKept(w, op, Step(w, op)) && Step(w, op).s.nextLease == w.s.nextLease
  {
    hide RotatedRecord, RotateKey, TermsKept;
    FewerKept(w, op, Step(w, op));
  }

  lemma QuietKeeps(w: World, op: Op)
    requires Proper(op) && (Quiet(op) || !Orderly(w, op))
    ensures TermsKept(w, op, Step(w, op)) && Step(w, op).s.nextLease == w.s.nextLease
  {
    hide Step, Orderly, TermsKept;
    if Orderly(w, op) {
      QuietFrame(w, op);
    } else {
      Unordered(w, op);
    }
    FewerKept(w, op, Step(w, op));
  }

  lemma LeasingKeeps(w: World, id: nat, env: Envelope, needed: Mask)
    requires w.s.nextLease !in w.s.leases
    ensures TermsKept(w, Leasing(id, env, needed), w.(s := AcquireLease(w.s, id, env, needed)))
  {
    hide AcquireLease, LeaseMissReason, Leasable, LeaseOn;
    LeaseExact(w.s, id, env, needed);
  }

  lemma RevokingKeeps(w: World, id: nat, order: seq<nat>)
    ensures TermsKept(w, Revoking(id, order), w.(s := HardRevoke(w.s, id, order)))
    ensures HardRevoke(w.s, id, order).nextLease == w.s.nextLease
  {
    hide RevokeLeases;
    if Revocable(w.s, id) {
      var s1 := w.s.(registrations := w.s.registrations[id := RevokedRecord(w.s.registrations[id])]);
      RevokeLeasesFrame(s1, order, id);
      RevokeLeasesEffect(s1, order, id);
    }
  }

  lemma ReturningKeeps(w: World, lease: nat)
    ensures TermsKept(w, Returning(lease), w.(s := ReleaseLease(w.s, lease))) && ReleaseLease(w.s, lease).nextLease == w.s.nextLease
  {
  }

  /** Lease identities are given out in order. */
  ghost predicate Counted(w: World) {
    forall l :: l in w.s.leases ==> l < w.s.nextLease
  }

  lemma StepTerms(w: World, op: Op)
    requires Proper(op) && Counted(w)
    ensures TermsKept(w, op, Step(w, op))
    ensures Step(w, op).s.nextLease == w.s.nextLease + if op.Leasing? && Leasable(w.s, op.id, op.env, op.needed) then 1 else 0
  {
    hide TermsKept, Orderly, Quiet, AcquireLease, ReleaseLease, HardRevoke, Leasable, DestroyDomain, CreateBuffer, SoftRevoke;
    hide RegisterCall, DeregisterCall, CheckRegisterStep, CallRegisterStep, CommitRegisterStep, Recover;
    hide CheckDeregisterStep, CallDeregisterStep, CommitDeregisterStep, RotateRegistration;
    Kinds(op);
    if Quiet(op) || !Orderly(w, op) {
      LeasingOrderly(w, op);
      QuietKeeps(w, op);
    } else if op.Leasing? {
      NextLeaseNew(w);
      LeasingKeeps(w, op.id, op.env, op.needed);
      LeaseExact(w.s, op.id, op.env, op.needed);
    } else if op.Returning? {
      ReturningKeeps(w, op.lease);
    } else if op.Revoking? {
      RevokingKeeps(w, op.id, op.order);
    } else if op.DropDomain? || op.NewBuffer? || op.Recovering? {
      TablesKeep(w, op);
    } else if op.Registering? || op.CheckRegister? || op.CallRegister? || op.CommitRegister? {
      CallsKeep(w, op);
    } else if op.SoftRevoking? || op.Rotating? {
      StatusKeeps(w, op);
    } else {
      DeregistersKeep(w, op);
    }
  }

  lemma LeasingOrderly(w: World, op: Op)
    requires Quiet(op) || !Orderly(w, op)
    ensures !op.Leasing?
  {
  }

  lemma NextLeaseNew(w: World)
    requires Counted(w)
    ensures w.s.nextLease !in w.s.leases
  {
  }

  lemma StaysCounted(w: World, op: Op)
    requires Proper(op) && Counted(w)
    ensures Counted(Step(w, op))
  {
    hide Step, Leasable, LeaseOn, SameTerms;
    StepTerms(w, op);
    if op.Leasing? && Leasable(w.s, op.id, op.env, op.needed) {
      LeasingIs(w, op.id, op.env, op.needed);
      LeaseExact(w.s, op.id, op.env, op.needed);
    }
  }

  lemma LeasingIs(w: World, id: nat, env: Envelope, needed: Mask)
    ensures Step(w, Leasing(id, env, needed)) == w.(s := AcquireLease(w.s, id, env, needed))
  {
    hide AcquireLease;
  }

  // ---- whole runs --------------------------------------------------------------------------------------

  /** A step of the run grants `ls`. */
  ghost predicate GrantedBy(w: World, ops: seq<Op>, ls: Lease)
    requires AllProper(ops)
    decreases |ops|
  {
    ops != [] && (Grants(w, ops[0], ls) || GrantedBy(Step(w, ops[0]), ops[1..], ls))
  }

  /** `Grants` looks at the terms only. */
  lemma SameGrant(w: World, op: Op, ls: Lease, ls': Lease)
    requires Grants(w, op, ls) && SameTerms(ls, ls')
    ensures Grants(w, op, ls')
  {
    hide Leasable;
  }

  lemma {:induction false} RunTerms(w: World, ops: seq<Op>, l: nat)
    requires AllProper(ops) && Counted(w) && l in Run(w, ops).s.leases
    ensures var ls := Run(w, ops).s.leases[l];
            (l in w.s.leases && SameTerms(w.s.leases[l], ls)) || GrantedBy(w, ops, ls)
    decreases |ops|
  {
    hide Step, Grants, SameTerms, Counted;
    if ops == [] {
      TermsReflexive(w.s.leases[l]);
    } else {
      var w1 := Step(w, ops[0]);
      var ls := Run(w, ops).s.leases[l];
      StepTerms(w, ops[0]);
      StaysCounted(w, ops[0]);
      RunTerms(w1, ops[1..], l);
      if l in w1.s.leases && SameTerms(w1.s.leases[l], ls) {
        if l in w.s.leases {
          TermsCompose(w.s.leases[l], w1.s.leases[l], ls);
        } else {
          SameGrant(w, ops[0], w1.s.leases[l], ls);
        }
      }
    }
  }

  lemma TermsReflexive(ls: Lease)
    ensures SameTerms(ls, ls)
  {
  }

  lemma TermsCompose(a: Lease, b: Lease, c: Lease)
    requires SameTerms(a, b) && SameTerms(b, c)
    ensures SameTerms(a, c)
  {
  }

  /** From the start, in every run: each lease was granted by a lease call, on its terms. */
  lemma EveryLeaseGranted(seed: nat, ops: seq<Op>, l: nat)
    requires AllProper(ops) && l in Run(Start(seed), ops).s.leases
    ensures GrantedBy(Start(seed), ops, Run(Start(seed), ops).s.leases[l])
  {
    hide Run, GrantedBy;
    RunTerms(Start(seed), ops, l);
  }

  // ---- covered by the registration -----------------------------------------------------------------------

  /** What the lease allows was granted to its registration, of which it names the generations and the domain. */
  predicate Covers(rec: RegistrationRecord, ls: Lease) {
    && Superset(rec.grantedAccess, ls.access) && ls.registrationGeneration == rec.registrationGeneration
    && ls.bufferGeneration == rec.bufferGeneration && ls.domain == rec.domainId
  }

  ghost predicate AllCovered(w: World) {
    && Counted(w)
    && forall l :: l in w.s.leases && w.s.leases[l].registration in w.s.registrations ==>
         Covers(w.s.registrations[w.s.leases[l].registration], w.s.leases[l])
  }

  lemma CoversStill(rec: RegistrationRecord, r: RegistrationRecord, ls: Lease, ls': Lease)
    requires Covers(rec, ls) && SameIdentity(rec, r) && SameTerms(ls, ls')
    ensures Covers(r, ls')
  {
    hide Superset;
  }

  lemma GrantCovers(w: World, op: Op, ls: Lease)
    requires Grants(w, op, ls)
    ensures ls.registration in w.s.registrations && Covers(w.s.registrations[ls.registration], ls)
  {
    hide Superset, Current;
  }

  /** A lease names a registration that is in the table, or one that is gone for good. */
  ghost predicate Named(w: World) {
    forall l :: l in w.s.leases ==> w.s.leases[l].registration < w.s.nextRegistration && w.s.leases[l].registration !in w.registering
  }

  lemma StepCovered(w: World, op: Op)
    requires Tidy(w) && AllCovered(w) && Named(w) && Proper(op) && !op.Recovering?
    ensures AllCovered(Step(w, op)) && Named(Step(w, op))
  {
    hide Step, Tidy, Covers, SameIdentity, SameTerms, Grants, NoFresher, Together, Path, CommittedFrom, Counted;
    var w' := Step(w, op);
    StepMoves(w, op);
    StepTerms(w, op);
    StaysCounted(w, op);
    forall l | l in w'.s.leases
      ensures w'.s.leases[l].registration < w'.s.nextRegistration && w'.s.leases[l].registration !in w'.registering
      ensures w'.s.leases[l].registration in w'.s.registrations ==>
                Covers(w'.s.registrations[w'.s.leases[l].registration], w'.s.leases[l])
    {
      var ls := w'.s.leases[l];
      if l !in w.s.leases {
        GrantCovers(w, op, ls);
        TermsReflexive(ls);
        NamedGrant(w, ls.registration);
        if ls.registration in w'.s.registrations {
          CoversStill(w.s.registrations[ls.registration], w'.s.registrations[ls.registration], ls, ls);
        }
      } else {
        SameRegistration(w.s.leases[l], ls);
        if ls.registration in w'.s.registrations {
          CoversStill(w.s.registrations[ls.registration], w'.s.registrations[ls.registration], w.s.leases[l], ls);
        }
      }
    }
  }

  lemma SameRegistration(ls: Lease, ls': Lease)
    requires SameTerms(ls, ls')
    ensures ls'.registration == ls.registration
  {
  }

  lemma NamedGrant(w: World, id: nat)
    requires Tidy(w) && id in w.s.registrations
    ensures id < w.s.nextRegistration && id !in w.registering
  {
  }

  lemma {:induction false} RunCovered(w: World, ops: seq<Op>)
    requires Tidy(w) && AllCovered(w) && Named(w) && AllProper(ops) && RecoverFree(ops)
    ensures AllCovered(Run(w, ops))
    decreases |ops|
  {
    hide Step, Tidy, AllCovered, Named, StepsTo;
    if ops != [] {
      StepMoves(w, ops[0]);
      StepCovered(w, ops[0]);
      RunCovered(Step(w, ops[0]), ops[1..]);
    }
  }

  /** In every recover-free interleaving a stored lease goes no further than its registration was granted. */
  lemma LeasesCovered(seed: nat, ops: seq<Op>, l: nat)
    requires AllProper(ops) && RecoverFree(ops) && l in Run(Start(seed), ops).s.leases
    ensures var s := Run(Start(seed), ops).s;
            s.leases[l].registration in s.registrations ==> Covers(s.registrations[s.leases[l].registration], s.leases[l])
  {
    hide Run, Covers, Tidy;
    StartTidy(seed);
    RunCovered(Start(seed), ops);
  }
}
