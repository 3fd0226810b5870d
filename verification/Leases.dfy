/**
 * Lease conservation in every interleaving without recovery: a record's lease count is
 * the number of its leases not yet released, whatever is revoked or taken apart.
 */
module Leases {
  import opened Records
  import opened Checks
  import opened Words
  import opened BackendModel
  import opened Runtime
  import opened Worlds
  import opened Evolution
  import opened Totals

  /** One for each lease on `id` that is not released, be it active or revoked. */
  function Outstanding(id: nat): Lease -> nat {
    (ls: Lease) => if ls.registration == id && !ls.state.RELEASED? then 1 else 0
  }

  /** One for each active lease. */
  function Counted(): Lease -> nat {
    (ls: Lease) => if ls.state.LEASE_ACTIVE? then 1 else 0
  }

  /** The record's count is the number of its outstanding leases. */
  ghost predicate Exact(s: State, id: nat)
    requires id in s.registrations
  {
    s.registrations[id].leaseCount == Total(s.leases, Outstanding(id))
  }

  ghost predicate Conserved(w: World) {
    && (forall l :: l in w.s.leases ==> l < w.s.nextLease && w.s.leases[l].registration in w.s.registrations)
    && (forall id :: id in w.s.registrations ==> Exact(w.s, id))
    && (forall id :: id in w.deregistering ==> id in w.s.registrations && w.s.registrations[id].leaseCount == 0)
  }

  // ---- steps that leave leases alone ------------------------------------------------------------

  /** Every record kept its lease count; identities may have been added without leases. */
  lemma CountsKept(w: World, w': World)
    requires Conserved(w) && w'.s.leases == w.s.leases && w'.s.nextLease == w.s.nextLease
    requires forall id :: id in w.s.registrations ==>
               id in w'.s.registrations && w'.s.registrations[id].leaseCount == w.s.registrations[id].leaseCount
    requires forall id :: id in w'.s.registrations && id !in w.s.registrations ==> w'.s.registrations[id].leaseCount == 0
    requires forall id :: id in w'.deregistering ==> id in w'.s.registrations && w'.s.registrations[id].leaseCount == 0
    ensures Conserved(w')
  {
    forall id | id in w'.s.registrations && id !in w.s.registrations ensures Total(w.s.leases, Outstanding(id)) == 0 {
      Nothing(w.s.leases, Outstanding(id));
    }
  }

  lemma BulkConserves(w: World, w': World, order: seq<nat>, c: Cause)
    requires Conserved(w) && w'.s.leases == w.s.leases && w'.s.nextLease == w.s.nextLease
    requires w'.deregistering == w.deregistering
    requires w'.s.registrations == InvalidateAll(w.s, order, c).registrations
    ensures Conserved(w')
  {
    hide InvalidateAll, Matches;
    InvalidateAllEffect(w.s, order, c);
    CountsKept(w, w');
  }

  lemma DropDomainConserves(w: World, d: nat, order: seq<nat>)
    requires Conserved(w)
    ensures Conserved(w.(s := DestroyDomain(w.s, d, order)))
  {
    hide InvalidateAll, Conserved;
    if d in w.s.domains {
      InvalidateAllFrame(w.s, order, DomainDestroyed(d));
      BulkConserves(w, w.(s := DestroyDomain(w.s, d, order)), order, DomainDestroyed(d));
    }
  }

  lemma NewBufferConserves(w: World, d: BufferDescriptor, order: seq<nat>)
    requires Conserved(w)
    ensures Conserved(w.(s := CreateBuffer(w.s, d, order)))
  {
    hide InvalidateAll, Decrement, Conserved;
    var w' := w.(s := CreateBuffer(w.s, d, order));
    var key := BufferKey(w.s, d);
    if !CreateRefused(w.s, d) && key in w.s.buffers {
      var s0 := if d.id != 0 then w.s else w.s.(nextBuffer := w.s.nextBuffer + 1);
      InvalidateIgnores(w.s, s0, order, Reallocated(key));
      InvalidateAllFrame(w.s, order, Reallocated(key));
      BulkConserves(w, w', order, Reallocated(key));
    } else {
      SameTables(w, w');
    }
  }

  lemma SameTables(w: World, w': World)
    requires Conserved(w) && w'.s.leases == w.s.leases && w'.s.nextLease == w.s.nextLease
    requires w'.s.registrations == w.s.registrations && w'.deregistering == w.deregistering
    ensures Conserved(w')
  {
  }

  // ---- the steps that matter -----------------------------------------------------------------------

  lemma LeasingConserves(w: World, id: nat, env: Envelope, needed: Mask)
    requires Tidy(w) && Conserved(w)
    ensures Conserved(w.(s := AcquireLease(w.s, id, env, needed)))
  {
    hide ValidateAuthority, Superset, Exact;
    var s' := AcquireLease(w.s, id, env, needed);
    if LeaseMissReason(w.s, id, env, needed).None? {
      forall k | k in s'.registrations ensures Exact(s', k) {
        LeasingExact(w.s, id, env, needed, k);
      }
    }
  }

  lemma LeasingExact(s: State, id: nat, env: Envelope, needed: Mask, k: nat)
    requires id in s.registrations && k in s.registrations && Exact(s, k) && s.nextLease !in s.leases
    requires LeaseMissReason(s, id, env, needed).None?
    ensures Exact(AcquireLease(s, id, env, needed), k)
  {
    hide LeaseMissReason;
    Put(s.leases, Outstanding(k), s.nextLease, GrantedLease(s, id, env, needed));
  }

  /** The lease count is positive whenever a lease can be released: the guard is never needed. */
  lemma NoUnderflow(w: World, lease: nat)
    requires Conserved(w) && Releasable(w.s, lease)
    ensures var id := w.s.leases[lease].registration; id in w.s.registrations && w.s.registrations[id].leaseCount > 0
  {
    var id := w.s.leases[lease].registration;
    AtLeast(w.s.leases, Outstanding(id), lease);
  }

  lemma ReturningConserves(w: World, lease: nat)
    requires Conserved(w)
    ensures Conserved(w.(s := ReleaseLease(w.s, lease)))
  {
    hide Exact, Outstanding;
    var s' := ReleaseLease(w.s, lease);
    if Releasable(w.s, lease) {
      NoUnderflow(w, lease);
      forall k | k in s'.registrations ensures Exact(s', k) {
        ReturningExact(w.s, lease, k);
      }
    }
  }

  lemma ReturningExact(s: State, lease: nat, k: nat)
    requires Releasable(s, lease) && k in s.registrations && Exact(s, k)
    requires var id := s.leases[lease].registration; id in s.registrations && s.registrations[id].leaseCount > 0
    ensures Exact(ReleaseLease(s, lease), k)
  {
    Put(s.leases, Outstanding(k), lease, s.leases[lease].(state := RELEASED));
  }

  /** Revoked leases still count: hard revocation leaves every lease count as it was. */
  lemma RevokingConserves(w: World, id: nat, order: seq<nat>)
    requires Conserved(w)
    ensures Conserved(w.(s := HardRevoke(w.s, id, order)))
  {
    hide RevokeLeases, Exact, RevokedLease;
    var s' := HardRevoke(w.s, id, order);
    if Revocable(w.s, id) {
      var r := RevokedRecord(w.s.registrations[id]);
      RevokeLeasesEffect(w.s.(registrations := w.s.registrations[id := r]), order, id);
      forall l | l in s'.leases ensures s'.leases[l].registration == w.s.leases[l].registration {
        RevokedCounts(w.s.leases[l], id, 0);
      }
      forall k | k in s'.registrations ensures Exact(s', k) {
        RevokingExact(w.s, s', id, order, k);
      }
    }
  }

  lemma RevokedCounts(ls: Lease, id: nat, k: nat)
    ensures RevokedLease(ls, id).registration == ls.registration
    ensures Outstanding(k)(RevokedLease(ls, id)) == Outstanding(k)(ls)
  {
  }

  lemma RevokingExact(s: State, s': State, id: nat, order: seq<nat>, k: nat)
    requires k in s.registrations && k in s'.registrations && Exact(s, k)
    requires s'.registrations[k].leaseCount == s.registrations[k].leaseCount && s'.leases.Keys == s.leases.Keys
    requires forall l :: l in s.leases ==> s'.leases[l] == if l in order then RevokedLease(s.leases[l], id) else s.leases[l]
    ensures Exact(s', k)
  {
    hide RevokedLease;
    forall l | l in s.leases ensures Outstanding(k)(s'.leases[l]) == Outstanding(k)(s.leases[l]) {
      RevokedCounts(s.leases[l], id, k);
    }
    Same(s.leases, s'.leases, Outstanding(k));
  }

  lemma SoftRevokingConserves(w: World, id: nat)
    requires Conserved(w)
    ensures Conserved(w.(s := SoftRevoke(w.s, id)))
  {
    hide Conserved;
    OneCountKept(w, w.(s := SoftRevoke(w.s, id)), id);
  }

  lemma RotatingConserves(w: World, id: nat)
    requires Conserved(w)
    ensures var (s', b') := RotateRegistration(w.s, w.b, id); Conserved(w.(s := s', b := b'))
  {
    hide Conserved, Xor64;
    var (s', b') := RotateRegistration(w.s, w.b, id);
    OneCountKept(w, w.(s := s', b := b'), id);
  }

  lemma OneCountKept(w: World, w': World, id: nat)
    requires Conserved(w) && w'.s.leases == w.s.leases && w'.s.nextLease == w.s.nextLease
    requires w'.deregistering == w.deregistering
    requires w'.s.registrations == w.s.registrations ||
             (id in w.s.registrations && exists r :: w'.s.registrations == w.s.registrations[id := r]
                                                 && r.leaseCount == w.s.registrations[id].leaseCount)
    ensures Conserved(w')
  {
    CountsKept(w, w');
  }

  /** Only released leases are ever erased with their registration. */
  lemma ErasedAreReleased(w: World, id: nat)
    requires Conserved(w) && id in w.s.registrations && w.s.registrations[id].leaseCount == 0
    ensures forall l :: l in LeasesOf(w.s.leases, id) ==> w.s.leases[l].state.RELEASED?
  {
    Nothing(w.s.leases, Outstanding(id));
    forall l | l in LeasesOf(w.s.leases, id) ensures w.s.leases[l].state.RELEASED? {
      assert Outstanding(id)(w.s.leases[l]) == 0;
    }
  }

  lemma CommitConserves(w: World, w': World, id: nat)
    requires Tidy(w) && Conserved(w) && id in w.s.registrations && w.s.registrations[id].leaseCount == 0
    requires w'.s.registrations == w.s.registrations - {id}
    requires w'.s.leases == w.s.leases - LeasesOf(w.s.leases, id) && w'.s.nextLease == w.s.nextLease
    requires w'.deregistering == w.deregistering - {id}
    ensures Conserved(w')
  {
    hide Exact;
    ErasedAreReleased(w, id);
    forall k | k in w'.s.registrations ensures Exact(w'.s, k) {
      CommitExact(w.s, w'.s, id, k);
    }
  }

  lemma CommitExact(s: State, s': State, id: nat, k: nat)
    requires k in s.registrations && k in s'.registrations && Exact(s, k)
    requires s'.registrations[k] == s.registrations[k] && s'.leases == s.leases - LeasesOf(s.leases, id)
    requires forall l :: l in LeasesOf(s.leases, id) ==> s.leases[l].state.RELEASED?
    ensures Exact(s', k)
  {
    Drop(s.leases, Outstanding(k), LeasesOf(s.leases, id));
  }

  lemma CheckRegisterConserves(w: World, d: BufferDescriptor, backend: nat, domain: nat, env: Envelope)
    requires Conserved(w) && Sized(d)
    ensures Conserved(CheckRegisterStep(w, d, backend, domain, env))
  {
    hide Conserved, RegisterMiss, BegunRecord;
    SameTables(w, CheckRegisterStep(w, d, backend, domain, env));
  }

  lemma CallRegisterConserves(w: World, id: nat)
    requires Conserved(w)
    ensures Conserved(CallRegisterStep(w, id))
  {
    hide Conserved, CanRegister, GrantFor;
    SameTables(w, CallRegisterStep(w, id));
  }

  lemma CommitRegisterConserves(w: World, id: nat)
    requires Tidy(w) && Conserved(w)
    ensures Conserved(CommitRegisterStep(w, id))
  {
    hide Exact, AccountCommit;
    var w' := CommitRegisterStep(w, id);
    if id in w.registering && w.registering[id].grant.Some? {
      assert w'.s.registrations == w.s.registrations[id := w'.s.registrations[id]];
      CountsKept(w, w');
    }
  }

  /** The whole call is its pieces. */
  lemma RegisteringConserves(w: World, d: BufferDescriptor, backend: nat, domain: nat, env: Envelope)
    requires Tidy(w) && Conserved(w) && Sized(d)
    ensures Conserved(RegisterCall(w, d, backend, domain, env))
  {
    hide Conserved, RegisterCall, CheckRegisterStep, CallRegisterStep, CommitRegisterStep, StepsTo;
    var id := w.s.nextRegistration;
    assert id !in w.registering;
    RegisterInPieces(w, d, backend, domain, env);
    var w1 := CheckRegisterStep(w, d, backend, domain, env);
    CheckRegisterConserves(w, d, backend, domain, env);
    CheckRegisterMoves(w, d, backend, domain, env);
    CallRegisterConserves(w1, id);
    CallRegisterMoves(w1, id);
    CommitRegisterConserves(CallRegisterStep(w1, id), id);
  }

  lemma DeregisteringConserves(w: World, id: nat)
    requires Tidy(w) && Conserved(w)
    ensures Conserved(DeregisterCall(w, id))
  {
    hide Conserved, CheckDeregisterStep, CallDeregisterStep, CommitDeregisterStep, StepsTo, DeregisterBackend, DeregisterCommit;
    if MayDeregister(w.s, id) {
      assert id !in w.deregistering;
      DeregisterInPieces(w, id);
      var w1 := CheckDeregisterStep(w, id);
      CheckDeregisterConserves(w, id);
      CheckDeregisterMoves(w, id);
      CallDeregisterConserves(w1, id);
      CallDeregisterMoves(w1, id);
      CommitDeregisterConserves(CallDeregisterStep(w1, id), id);
    }
  }

  lemma CheckDeregisterConserves(w: World, id: nat)
    requires Tidy(w) && Conserved(w)
    ensures Conserved(CheckDeregisterStep(w, id))
  {
    hide Exact;
    CountsKept(w, CheckDeregisterStep(w, id));
  }

  lemma CallDeregisterConserves(w: World, id: nat)
    requires Conserved(w)
    ensures Conserved(CallDeregisterStep(w, id))
  {
    hide Exact;
    CountsKept(w, CallDeregisterStep(w, id));
  }

  lemma CommitDeregisterConserves(w: World, id: nat)
    requires Tidy(w) && Conserved(w)
    ensures Conserved(CommitDeregisterStep(w, id))
  {
    hide Exact, AccountInvalidate;
    var w' := CommitDeregisterStep(w, id);
    if id !in w.deregistering || w.deregistering[id].Checked? {
    } else if w.deregistering[id].ok {
      CommitConserves(w, w', id);
    } else {
      CountsKept(w, w');
    }
  }

  lemma PlainConserves(w: World, op: Op)
    requires Conserved(w) && Proper(op) && Quiet(op)
    ensures Conserved(Step(w, op))
  {
    hide Conserved, Step;
    QuietFrame(w, op);
    SameTables(w, Step(w, op));
  }

  lemma StepConserves(w: World, op: Op)
    requires Tidy(w) && Conserved(w) && Proper(op) && !op.Recovering?
    ensures Conserved(Step(w, op))
  {
    hide Tidy, Conserved, DestroyDomain, CreateBuffer, AcquireLease, ReleaseLease, HardRevoke, SoftRevoke;
    hide RegisterCall, DeregisterCall, CheckRegisterStep, CallRegisterStep, CommitRegisterStep;
    hide CheckDeregisterStep, CallDeregisterStep, CommitDeregisterStep, RotateRegistration;
    if Orderly(w, op) {
      if Quiet(op) {
        PlainConserves(w, op);
      } else {
        match op
        case DropDomain(d, order) => DropDomainConserves(w, d, order);
        case NewBuffer(d, order) => NewBufferConserves(w, d, order);
        case Leasing(id, env, needed) => LeasingConserves(w, id, env, needed);
        case Returning(lease) => ReturningConserves(w, lease);
        case Revoking(id, order) => RevokingConserves(w, id, order);
        case SoftRevoking(id) => SoftRevokingConserves(w, id);
        case Rotating(id) => RotatingConserves(w, id);
        case Deregistering(id) => DeregisteringConserves(w, id);
        case CheckDeregister(id) => CheckDeregisterConserves(w, id);
        case CallDeregister(id) => CallDeregisterConserves(w, id);
        case CommitDeregister(id) => CommitDeregisterConserves(w, id);
        case Registering(d, backend, domain, env) => RegisteringConserves(w, d, backend, domain, env);
        case CheckRegister(d, backend, domain, env) => CheckRegisterConserves(w, d, backend, domain, env);
        case CallRegister(id) => CallRegisterConserves(w, id);
        case CommitRegister(id) => CommitRegisterConserves(w, id);
      }
    }
  }

  lemma {:induction false} RunConserves(w: World, ops: seq<Op>)
    requires Tidy(w) && Conserved(w) && AllProper(ops) && RecoverFree(ops)
    ensures Tidy(Run(w, ops)) && Conserved(Run(w, ops))
    decreases |ops|
  {
    hide Step, Tidy, Conserved, StepsTo;
    if ops != [] {
      StepMoves(w, ops[0]);
      StepConserves(w, ops[0]);
      RunConserves(Step(w, ops[0]), ops[1..]);
    }
  }

  /** In every recover-free interleaving: counts are exact, no release underflows, only released leases are erased. */
  lemma LeaseConservation(seed: nat, ops: seq<Op>, id: nat, lease: nat)
    requires AllProper(ops) && RecoverFree(ops)
    ensures var w := Run(Start(seed), ops);
            && (id in w.s.registrations ==> w.s.registrations[id].leaseCount == Total(w.s.leases, Outstanding(id)))
            && (Releasable(w.s, lease) ==>
                  w.s.leases[lease].registration in w.s.registrations
                  && w.s.registrations[w.s.leases[lease].registration].leaseCount > 0)
            && (id in w.deregistering ==> forall l :: l in LeasesOf(w.s.leases, id) ==> w.s.leases[l].state.RELEASED?)
  {
    hide Run, Tidy;
    var w := Run(Start(seed), ops);
    StartTidy(seed);
    RunConserves(Start(seed), ops);
    if Releasable(w.s, lease) {
      NoUnderflow(w, lease);
    }
    if id in w.deregistering {
      ErasedAreReleased(w, id);
    }
  }

  // ---- the counter of active leases ------------------------------------------------------------------

  /** Never more counted than there are. */
  ghost predicate Bounded(s: State) {
    s.acct.activeLeases <= Total(s.leases, Counted())
  }

  ghost predicate LeasesBalance(s: State) {
    s.acct.activeLeases == Total(s.leases, Counted())
  }

  lemma LeasingCounts(s: State, id: nat, env: Envelope, needed: Mask)
    requires s.nextLease !in s.leases
    ensures Bounded(s) ==> Bounded(AcquireLease(s, id, env, needed))
    ensures LeasesBalance(s) ==> LeasesBalance(AcquireLease(s, id, env, needed))
  {
    hide LeaseMissReason;
    if LeaseMissReason(s, id, env, needed).None? {
      CanLease(s, id, env, needed);
      Put(s.leases, Counted(), s.nextLease, GrantedLease(s, id, env, needed));
    }
  }

  /**
   * A release keeps the counter at most the number of active leases. It keeps it equal
   * exactly when the lease was active, or no lease is: a revoked lease was counted down
   * once already, and its release takes the count of another lease.
   */
  lemma ReturningCounts(s: State, lease: nat)
    requires Bounded(s)
    ensures Bounded(ReleaseLease(s, lease))
    ensures LeasesBalance(s) ==>
              (LeasesBalance(ReleaseLease(s, lease)) <==>
                 Releasable(s, lease) ==> s.leases[lease].state.LEASE_ACTIVE? || Total(s.leases, Counted()) == 0)
  {
    if Releasable(s, lease) {
      Put(s.leases, Counted(), lease, s.leases[lease].(state := RELEASED));
      AtLeast(s.leases, Counted(), lease);
    }
  }

  lemma {:induction false} RevokeLeasesCounts(s: State, order: seq<nat>, id: nat)
    ensures Bounded(s) ==> Bounded(RevokeLeases(s, order, id))
    ensures LeasesBalance(s) ==> LeasesBalance(RevokeLeases(s, order, id))
  {
    if order != [] {
      var s1, l := RevokeLeases(s, order[..|order| - 1], id), order[|order| - 1];
      RevokeLeasesCounts(s, order[..|order| - 1], id);
      if l in s1.leases {
        Put(s1.leases, Counted(), l, s1.leases[l].(state := LEASE_REVOKED));
      }
    }
  }

  lemma RevokingCounts(s: State, id: nat, order: seq<nat>)
    ensures Bounded(s) ==> Bounded(HardRevoke(s, id, order))
    ensures LeasesBalance(s) ==> LeasesBalance(HardRevoke(s, id, order))
  {
    hide RevokeLeases, Total;
    if Revocable(s, id) {
      var r := RevokedRecord(s.registrations[id]);
      RevokeLeasesCounts(s.(registrations := s.registrations[id := r]), order, id);
    }
  }

  lemma CommitCounts(w: World, id: nat)
    requires Conserved(w) && id in w.s.registrations && w.s.registrations[id].leaseCount == 0
    ensures Bounded(w.s) ==> Bounded(DeregisterCommit(w.s, id))
    ensures LeasesBalance(w.s) ==> LeasesBalance(DeregisterCommit(w.s, id))
  {
    ErasedAreReleased(w, id);
    Drop(w.s.leases, Counted(), LeasesOf(w.s.leases, id));
  }

  /** Neither the leases nor their counter is touched. */
  predicate LeasesAside(s: State, s': State) {
    s'.leases == s.leases && s'.acct.activeLeases == s.acct.activeLeases
  }

  lemma AsideCounts(s: State, s': State)
    requires LeasesAside(s, s')
    ensures Bounded(s) ==> Bounded(s')
    ensures LeasesBalance(s) ==> LeasesBalance(s')
  {
  }

  lemma DropDomainAside(s: State, d: nat, order: seq<nat>)
    ensures LeasesAside(s, DestroyDomain(s, d, order))
  {
    hide InvalidateAll, Decrement;
    InvalidateAllFrame(s, order, DomainDestroyed(d));
  }

  lemma NewBufferAside(s: State, b: BufferDescriptor, order: seq<nat>)
    ensures LeasesAside(s, CreateBuffer(s, b, order))
  {
    hide InvalidateAll, Decrement;
    var s0 := if b.id != 0 then s else s.(nextBuffer := s.nextBuffer + 1);
    InvalidateAllFrame(s0, order, Reallocated(BufferKey(s, b)));
  }

  lemma StatusAside(w: World, id: nat)
    ensures LeasesAside(w.s, SoftRevoke(w.s, id)) && LeasesAside(w.s, RotateRegistration(w.s, w.b, id).0)
  {
    hide RotatedRecord, RotateKey;
  }

  lemma FailAside(s: State, id: nat)
    ensures LeasesAside(s, DeregisterFail(s, id))
  {
  }

  lemma CommitDeregisteringCounts(w: World, id: nat)
    requires Conserved(w)
    ensures Bounded(w.s) ==> Bounded(CommitDeregisterStep(w, id).s)
    ensures LeasesBalance(w.s) ==> LeasesBalance(CommitDeregisterStep(w, id).s)
  {
    hide Bounded, LeasesBalance, Exact, DeregisterCommit, DeregisterFail;
    if id in w.deregistering && w.deregistering[id].Called? {
      if w.deregistering[id].ok {
        CommitCounts(w, id);
      } else {
        FailAside(w.s, id);
        AsideCounts(w.s, DeregisterFail(w.s, id));
      }
    }
  }

  lemma DeregisteringCounts(w: World, id: nat)
    requires Tidy(w) && Conserved(w)
    ensures Bounded(w.s) ==> Bounded(DeregisterCall(w, id).s)
    ensures LeasesBalance(w.s) ==> LeasesBalance(DeregisterCall(w, id).s)
  {
    hide Conserved, CallDeregisterStep, CommitDeregisterStep, StepsTo, DeregisterBackend, DeregisterCommit;
    hide Bounded, LeasesBalance;
    if MayDeregister(w.s, id) {
      assert id !in w.deregistering;
      DeregisterInPieces(w, id);
      var w1 := CheckDeregisterStep(w, id);
      CheckDeregisterConserves(w, id);
      CheckDeregisterMoves(w, id);
      CallDeregisterConserves(w1, id);
      AsideCounts(w.s, w1.s);
      BackendOnly(w1, id);
      CommitDeregisteringCounts(CallDeregisterStep(w1, id), id);
    }
  }

  lemma PiecesAside(w: World, id: nat)
    ensures LeasesAside(w.s, CheckDeregisterStep(w, id).s) && LeasesAside(w.s, CallDeregisterStep(w, id).s)
  {
  }

  lemma BackendOnly(w: World, id: nat)
    ensures CallDeregisterStep(w, id).s == w.s && CallRegisterStep(w, id).s == w.s
  {
  }

  lemma CallsAside(w: World, op: Op)
    requires Proper(op) && (op.CheckRegister? || op.CallRegister? || op.CommitRegister? || op.Registering?)
    ensures LeasesAside(w.s, Step(w, op).s)
  {
    hide RegisterMiss, CanRegister, GrantFor, BegunRecord, CommittedRecord;
  }

  lemma QuietAside(w: World, op: Op)
    requires Proper(op) && Quiet(op)
    ensures LeasesAside(w.s, Step(w, op).s)
  {
    hide Step;
    QuietFrame(w, op);
  }

  /** The release of a revoked lease while another lease is active. */
  ghost predicate ReturnsRevoked(w: World, op: Op) {
    op.Returning? && Releasable(w.s, op.lease) && !w.s.leases[op.lease].state.LEASE_ACTIVE?
    && Total(w.s.leases, Counted()) > 0
  }

  lemma StepCounts(w: World, op: Op)
    requires Tidy(w) && Conserved(w) && Proper(op) && !op.Recovering? && Bounded(w.s)
    ensures Bounded(Step(w, op).s)
    ensures LeasesBalance(w.s) ==> (LeasesBalance(Step(w, op).s) <==> !ReturnsRevoked(w, op))
  {
    hide Tidy, Bounded, LeasesBalance, DestroyDomain, CreateBuffer, AcquireLease, ReleaseLease, HardRevoke, SoftRevoke;
    hide RotateRegistration, RegisterCall, CheckRegisterStep, CallRegisterStep, CommitRegisterStep, DeregisterCommit;
    hide Total, Exact, LeasesAside;
    hide CheckDeregisterStep, CallDeregisterStep, CommitDeregisterStep, DeregisterCall;
    if Orderly(w, op) {
      if Quiet(op) {
        QuietAside(w, op);
        AsideCounts(w.s, Step(w, op).s);
      } else {
        match op
        case DropDomain(d, order) => DropDomainAside(w.s, d, order);
        case NewBuffer(d, order) => NewBufferAside(w.s, d, order);
        case Leasing(id, env, needed) => LeasingCounts(w.s, id, env, needed);
        case Returning(lease) => ReturningCounts(w.s, lease);
        case Revoking(id, order) => RevokingCounts(w.s, id, order);
        case SoftRevoking(id) => StatusAside(w, id);
        case Rotating(id) => StatusAside(w, id);
        case Deregistering(id) => DeregisteringCounts(w, id);
        case CheckDeregister(id) => PiecesAside(w, id);
        case CallDeregister(id) => PiecesAside(w, id);
        case CommitDeregister(id) => CommitDeregisteringCounts(w, id);
        case _ => CallsAside(w, op);
      }
    }
    if LeasesAside(w.s, Step(w, op).s) {
      AsideCounts(w.s, Step(w, op).s);
    }
  }

  /** A run along which no revoked lease is returned while another is active. */
  ghost predicate ReturnsOnlyActive(w: World, ops: seq<Op>)
    requires AllProper(ops)
    decreases |ops|
  {
    ops == [] || (!ReturnsRevoked(w, ops[0]) && ReturnsOnlyActive(Step(w, ops[0]), ops[1..]))
  }

  lemma {:induction false} RunCounts(w: World, ops: seq<Op>)
    requires Tidy(w) && Conserved(w) && AllProper(ops) && RecoverFree(ops) && Bounded(w.s)
    ensures Bounded(Run(w, ops).s)
    ensures LeasesBalance(w.s) && ReturnsOnlyActive(w, ops) ==> LeasesBalance(Run(w, ops).s)
    decreases |ops|
  {
    hide Step, Tidy, Conserved, StepsTo, Bounded, LeasesBalance, ReturnsRevoked;
    if ops != [] {
      StepMoves(w, ops[0]);
      StepConserves(w, ops[0]);
      StepCounts(w, ops[0]);
      RunCounts(Step(w, ops[0]), ops[1..]);
    }
  }

  /** The counter never exceeds the active leases, and equals them in runs that return only active leases. */
  lemma ActiveLeaseCounter(seed: nat, ops: seq<Op>)
    requires AllProper(ops) && RecoverFree(ops)
    ensures var s := Run(Start(seed), ops).s; s.acct.activeLeases <= Total(s.leases, Counted())
    ensures ReturnsOnlyActive(Start(seed), ops) ==>
              var s := Run(Start(seed), ops).s; s.acct.activeLeases == Total(s.leases, Counted())
  {
    hide Run, Tidy;
    StartTidy(seed);
    RunCounts(Start(seed), ops);
  }
}
