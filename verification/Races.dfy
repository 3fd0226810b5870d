/** Reachable states in which each of the claimed failures shows. */
module Races {
  import opened Records
  import opened Checks
  import opened Words
  import opened BackendModel
  import opened Runtime
  import opened Worlds
  import opened Evolution
  import opened StepFrames
  import opened Interleavings
  import opened Placement
  import opened Examples
  import opened Totals
  import opened Synthetic
  import Leases
  import Charges
  import Revocation

  // ---- allowed in the wrong place ----------------------------------------------------------------------

  /** The registration is marked for deregistration. */
  ghost function MarkedWorld(seed: nat): World {
    Step(Registered(seed), CheckDeregister(1))
  }

  lemma MarkedIs(seed: nat)
    ensures var w := MarkedWorld(seed);
            && w == Registered(seed).(
                      s := Registered(seed).s.(registrations := map[1 := FirstRecord(seed).(lifecycle := DEREGISTERING)]),
                      deregistering := map[1 := DeregisterTicket.Checked(SYNTHETIC_ID, FirstRecord(seed).handle)])
            && Reachable(seed, w) && Marked(w, 1) && Access(w.s, w.b, READING) == ALLOW
  {
    hide FirstRecord, FirstGrant, AccountCommit, Access, Reachable, Registered, Step;
    RegisteredIs(seed);
    FirstFacts(seed);
    CheckDeregisterIs(Registered(seed), 1);
    ReachesStep(seed, Registered(seed), CheckDeregister(1));
    ReadAllowed(MarkedWorld(seed).s, MarkedWorld(seed).b);
  }

  lemma CheckDeregisterIs(w: World, id: nat)
    requires MayDeregister(w.s, id) && id !in w.deregistering
    ensures var rec := w.s.registrations[id];
            Step(w, CheckDeregister(id)) ==
            w.(s := w.s.(registrations := w.s.registrations[id := rec.(lifecycle := DEREGISTERING)]),
               deregistering := w.deregistering[id := DeregisterTicket.Checked(rec.backend, rec.handle)])
  {
  }

  lemma OnlyOne(m: map<nat, RegistrationRecord>)
    requires m.Keys == {1}
    ensures Enumerates([1], m)
  {
  }

  /** Allowed in a destroyed domain: marked, then the domain is destroyed. */
  lemma AllowedInDestroyedDomain(seed: nat)
    ensures var w := Step(MarkedWorld(seed), DropDomain(1, [1]));
            && Reachable(seed, w) && Access(w.s, w.b, READING) == ALLOW
            && 1 in w.s.registrations && w.s.registrations[1].domainId == 1
            && 1 in w.s.domains && w.s.domains[1].state.DESTROYED?
  {
    hide FirstRecord, FirstGrant, AccountCommit, Access, Reachable, Step, Marked, MarkedWorld, Registered;
    var w := MarkedWorld(seed);
    MarkedIs(seed);
    RegisteredIs(seed);
    FirstFacts(seed);
    OnlyOne(w.s.registrations);
    ReachesStep(seed, w, DropDomain(1, [1]));
    MarkedOutlivesDomain(w, READING, [1]);
  }

  /** Allowed at a superseded generation: marked, then the buffer is reallocated. */
  lemma AllowedAtOldGeneration(seed: nat)
    ensures var w := Step(MarkedWorld(seed), NewBuffer(Page(7, 2), [1]));
            && Reachable(seed, w) && Access(w.s, w.b, READING) == ALLOW
            && 1 in w.s.registrations && w.s.registrations[1].bufferId == 7
            && 7 in w.s.buffers && w.s.registrations[1].bufferGeneration < w.s.buffers[7].descriptor.generation
  {
    hide FirstRecord, FirstGrant, AccountCommit, Access, Reachable, Step, Marked, MarkedWorld, Registered;
    var w := MarkedWorld(seed);
    MarkedIs(seed);
    RegisteredIs(seed);
    FirstFacts(seed);
    OnlyOne(w.s.registrations);
    ReachesStep(seed, w, NewBuffer(Page(7, 2), [1]));
    MarkedOutlivesBuffer(w, READING, Page(7, 2), [1]);
  }

  // ---- a commit into a destroyed domain -------------------------------------------------------------------

  /** The first registration checked and granted, but not committed. */
  ghost function WaitingWorld(seed: nat): World {
    Step(Step(Ready(seed), CheckRegister(Page(7, 1), SYNTHETIC_ID, 1, CALLER)), CallRegister(1))
  }

  function FirstBegun(seed: nat): RegistrationRecord {
    BegunRecord(ReadyState(), Fresh(seed), Page(7, 1), SYNTHETIC_ID, 1, CALLER)
  }

  lemma WaitingIs(seed: nat)
    ensures var w := WaitingWorld(seed);
            && w == World(ReadyState().(nextRegistration := 2), RegisteredBackend(seed),
                          map[1 := RegisterTicket(FirstBegun(seed), Page(7, 1), Some(FirstGrant(seed)))], map[])
            && Reachable(seed, w)
  {
    hide Passes, Reachable, Ready, Step, FirstBegun, FirstGrant;
    ReadyIs(seed);
    CheckCanPass(seed);
    var w0 := Ready(seed);
    var check := CheckRegister(Page(7, 1), SYNTHETIC_ID, 1, CALLER);
    var w1 := Step(w0, check);
    CheckIs(w0, Page(7, 1), SYNTHETIC_ID, 1, CALLER);
    FirstBegunIs(seed);
    CallIs(w1, 1, seed);
    ReachesStep(seed, w0, check);
    ReachesStep(seed, w1, CallRegister(1));
  }

  lemma FirstBegunIs(seed: nat)
    ensures BegunRecord(ReadyState(), Fresh(seed), Page(7, 1), SYNTHETIC_ID, 1, CALLER) == FirstBegun(seed)
    ensures FirstBegun(seed).id == 1
  {
  }

  lemma CheckIs(w: World, d: BufferDescriptor, backend: nat, domain: nat, env: Envelope)
    requires Passes(w, d, backend, domain, env)
    ensures var rec := BegunRecord(w.s, w.b, d, backend, domain, env);
            Step(w, CheckRegister(d, backend, domain, env)) ==
            w.(s := w.s.(nextRegistration := w.s.nextRegistration + 1),
               registering := w.registering[rec.id := RegisterTicket(rec, d, None)])
  {
    hide RegisterMiss, BegunRecord;
  }

  lemma CallIs(w: World, id: nat, seed: nat)
    requires id in w.registering && w.registering[id].grant.None? && w.registering[id].d == Page(7, 1) && w.b == Fresh(seed)
    ensures Step(w, CallRegister(id))
         == w.(b := RegisteredBackend(seed),
               registering := w.registering[id := w.registering[id].(grant := Some(FirstGrant(seed)))])
  {
    hide CanRegister, GrantFor;
    PageSupported(7, 1);
  }

  ghost function LateWorld(seed: nat): World {
    Step(Step(WaitingWorld(seed), DropDomain(1, [])), CommitRegister(1))
  }

  /** The domain is destroyed while a call waits for its second lock: the registration is allowed all the same. */
  lemma CommittedIntoDestroyedDomain(seed: nat)
    ensures var w := LateWorld(seed);
            && Reachable(seed, w) && Access(w.s, w.b, READING) == ALLOW
            && 1 in w.s.registrations && w.s.registrations[1].lifecycle.ACTIVE? && w.s.registrations[1].domainId == 1
            && 1 in w.s.domains && w.s.domains[1].state.DESTROYED?
  {
    hide FirstGrant, FirstBegun, FirstRecord, AccountCommit, Access, Reachable, WaitingWorld, Step, RegisteredBackend;
    WaitingIs(seed);
    FirstFacts(seed);
    HeldByBackend(seed);
    LateIs(WaitingWorld(seed), seed);
    var w := WaitingWorld(seed);
    ReachesStep(seed, w, DropDomain(1, []));
    ReachesStep(seed, Step(w, DropDomain(1, [])), CommitRegister(1));
    ReadAllowed(LateWorld(seed).s, LateWorld(seed).b);
  }

  lemma LateIs(w: World, seed: nat)
    requires w.s == ReadyState().(nextRegistration := 2)
    requires w.registering == map[1 := RegisterTicket(FirstBegun(seed), Page(7, 1), Some(FirstGrant(seed)))]
    ensures var w' := Step(Step(w, DropDomain(1, [])), CommitRegister(1));
            && w'.s.registrations == map[1 := FirstRecord(seed)] && w'.s.authority == RIGHTFUL && w'.s.attached
            && 1 in w'.s.domains && w'.s.domains[1].state.DESTROYED? && w'.b == w.b
  {
    hide FirstGrant, FirstBegun, FirstRecord, AccountCommit, CommittedRecord, InvalidateAll;
    LateRecord(seed);
    assert Enumerates([], w.s.registrations);
    InvalidateAllFrame(w.s, [], DomainDestroyed(1));
  }

  lemma LateRecord(seed: nat)
    ensures forall s: State :: s.authority == RIGHTFUL ==>
              CommittedRecord(s, FirstBegun(seed), FirstGrant(seed)) == FirstRecord(seed)
    ensures FirstBegun(seed).id == 1 && FirstBegun(seed).bufferId == 7
  {
    hide GrantFor;
  }

  // ---- two active registrations ------------------------------------------------------------------------------

  lemma CheckCanPass(seed: nat)
    ensures Reachable(seed, Ready(seed)) && Passes(Ready(seed), Page(7, 1), SYNTHETIC_ID, 1, CALLER)
  {
    hide CanRegister, ValidateRange, Reachable;
    ReadyIs(seed);
    PageSupported(7, 1);
  }

  /** Two overlapping calls for the page, committed one after the other. */
  ghost function RaceWorld(seed: nat): World {
    var check := CheckRegister(Page(7, 1), SYNTHETIC_ID, 1, CALLER);
    var w := Step(Step(Ready(seed), check), CallRegister(1));
    Step(Step(Step(Step(w, check), CallRegister(2)), CommitRegister(1)), CommitRegister(2))
  }

  lemma RaceReached(seed: nat)
    ensures Reachable(seed, RaceWorld(seed)) && BothActive(RaceWorld(seed).s, 1, 2, 7)
  {
    hide RegisterMiss, Reachable, Race, RaceWorld, BothActive, Ready;
    CheckCanPass(seed);
    ReadyIs(seed);
    TwoActive(Ready(seed), Page(7, 1), SYNTHETIC_ID, 1, CALLER);
    RaceIs(seed);
    RaceSteps(seed);
  }

  lemma RaceIs(seed: nat)
    requires Ready(seed).s.nextRegistration == 1
    ensures RaceWorld(seed).s == Race(Ready(seed), Page(7, 1), SYNTHETIC_ID, 1, CALLER)
  {
    hide CheckRegisterStep, CallRegisterStep, CommitRegisterStep, Ready;
  }

  lemma RaceSteps(seed: nat)
    ensures Reachable(seed, RaceWorld(seed))
  {
    hide Reachable, Step, Ready;
    var check := CheckRegister(Page(7, 1), SYNTHETIC_ID, 1, CALLER);
    ReadyIs(seed);
    var w1 := Step(Ready(seed), check);
    var w2 := Step(w1, CallRegister(1));
    var w3 := Step(w2, check);
    var w4 := Step(w3, CallRegister(2));
    var w5 := Step(w4, CommitRegister(1));
    ReachesStep(seed, Ready(seed), check);
    ReachesStep(seed, w1, CallRegister(1));
    ReachesStep(seed, w2, check);
    ReachesStep(seed, w3, CallRegister(2));
    ReachesStep(seed, w4, CommitRegister(1));
    ReachesStep(seed, w5, CommitRegister(2));
  }

  // ---- a soft revocation held up -----------------------------------------------------------------------------

  ghost function LeasedWorld(seed: nat): World {
    Step(Registered(seed), Leasing(1, CALLER, 0))
  }

  function FirstLease(seed: nat): Lease {
    Lease(1, 1, 1, 1, 1, 1, 1, 1, 0, LEASE_ACTIVE, SYNTHETIC)
  }

  lemma LeasedIs(seed: nat)
    ensures var (w, s) := (LeasedWorld(seed), Registered(seed).s);
            && w == Registered(seed).(
                      s := s.(registrations := map[1 := FirstRecord(seed).(leaseCount := 1)], leases := map[1 := FirstLease(seed)],
                              nextLease := 2, acct := s.acct.(activeLeases := 1)))
            && Reachable(seed, w)
  {
    hide FirstRecord, FirstGrant, Reachable, Registered, AccountCommit, Step, RegisteredBackend;
    RegisteredIs(seed);
    FirstFacts(seed);
    LeaseFacts(seed);
    LeasingIs(Registered(seed), seed);
    ReachesStep(seed, Registered(seed), Leasing(1, CALLER, 0));
  }

  lemma LeasingIs(w: World, seed: nat)
    requires w.s.authority == RIGHTFUL && w.s.registrations == map[1 := FirstRecord(seed)] && w.s.leases == map[] && w.s.nextLease == 1
    ensures var s := w.s;
            Step(w, Leasing(1, CALLER, 0)) ==
            w.(s := s.(registrations := map[1 := FirstRecord(seed).(leaseCount := 1)], leases := map[1 := FirstLease(seed)],
                       nextLease := 2, acct := s.acct.(activeLeases := s.acct.activeLeases + 1)))
  {
    hide FirstRecord, FirstGrant;
    FirstFacts(seed);
    LeaseFacts(seed);
    assert Superset(REMOTE_READ, 0);
  }

  lemma LeaseFacts(seed: nat)
    ensures FirstRecord(seed).registrationGeneration == 1 && FirstRecord(seed).provenance == SYNTHETIC
    ensures AccountCommit(ReadyState().acct, FirstRecord(seed)).activeLeases == 0
  {
    hide GrantFor;
  }

  /** A soft revocation with a lease outstanding: from here on it never completes. */
  lemma DrainingReached(seed: nat)
    ensures var w := Step(LeasedWorld(seed), SoftRevoking(1));
            Reachable(seed, w) && Revocation.Draining(w.s, 1)
  {
    hide FirstRecord, FirstGrant, AccountCommit, Reachable;
    LeasedIs(seed);
    FirstFacts(seed);
    RegisteredIs(seed);
    ReachesStep(seed, LeasedWorld(seed), SoftRevoking(1));
  }

  // ---- a lease counted down twice -----------------------------------------------------------------------------

  /** What a register call that passes leaves behind. */
  lemma RegisteringIs(w: World, d: BufferDescriptor, backend: nat, domain: nat, env: Envelope)
    requires Passes(w, d, backend, domain, env)
    ensures var (w', n) := (Step(w, Registering(d, backend, domain, env)), w.s.nextRegistration);
            && n in w'.s.registrations
            && (var r := w'.s.registrations[n];
               && w'.s == w.s.(nextRegistration := n + 1, registrations := w.s.registrations[n := r],
                               activeFor := w.s.activeFor[d.id := n], acct := AccountCommit(w.s.acct, r))
               && r.lifecycle.ACTIVE? && r.freshness == VALID && r.bufferId == d.id && r.reason == [] && r.leaseCount == 0
               && r.grantedAccess == d.requestedAccess)
            && w'.b.entries.Keys >= w.b.entries.Keys && w'.registering == w.registering && w'.deregistering == w.deregistering
  {
    hide RegisterMiss, CanRegister, AccountCommit, Region, HandleOf, RemoteKeyId, LocalKeyId, Xor64;
    CheckedFirst(w.s, w.b, d, backend, domain, env);
  }

  ghost function RevokedWorld(seed: nat): World {
    Step(LeasedWorld(seed), Revoking(1, [1]))
  }

  lemma OneHardRevoked(s: State, rec: RegistrationRecord, ls: Lease)
    requires s.registrations == map[1 := rec] && rec.lifecycle.ACTIVE? && rec.bufferId == 7 && s.activeFor == map[7 := 1]
    requires s.leases == map[1 := ls] && ls.registration == 1 && ls.state.LEASE_ACTIVE? && s.acct.activeLeases == 1
    ensures HardRevoke(s, 1, [1])
         == s.(registrations := map[1 := RevokedRecord(rec)], leases := map[1 := ls.(state := LEASE_REVOKED)],
               activeFor := map[], acct := s.acct.(activeLeases := 0, revocations := s.acct.revocations + 1))
    ensures Enumerates([1], s.leases)
  {
    hide RevokedRecord, RevokeLeases;
    OneRevoked(s.(registrations := map[1 := RevokedRecord(rec)]), ls);
    assert s.activeFor - {7} == map[];
    assert s.registrations[1 := RevokedRecord(rec)] == map[1 := RevokedRecord(rec)];
    assert Decrement(1, 1) == 0;
  }

  lemma RevokedIs(seed: nat)
    ensures var (w, s) := (RevokedWorld(seed), LeasedWorld(seed).s);
            && w.s == s.(registrations := map[1 := RevokedRecord(FirstRecord(seed).(leaseCount := 1))],
                         leases := map[1 := FirstLease(seed).(state := LEASE_REVOKED)], activeFor := map[],
                         acct := s.acct.(activeLeases := 0, revocations := s.acct.revocations + 1))
            && w == LeasedWorld(seed).(s := w.s) && Reachable(seed, w)
  {
    hide FirstRecord, AccountCommit, Reachable, LeasedWorld, Registered, RevokedRecord, RegisteredBackend, HardRevoke, Enumerates;
    LeasedIs(seed);
    RegisteredIs(seed);
    FirstFacts(seed);
    OneHardRevoked(LeasedWorld(seed).s, FirstRecord(seed).(leaseCount := 1), FirstLease(seed));
    ReachesStep(seed, LeasedWorld(seed), Revoking(1, [1]));
  }

  lemma OneRevoked(s: State, ls: Lease)
    requires s.leases == map[1 := ls] && ls.registration == 1 && ls.state.LEASE_ACTIVE?
    ensures RevokeLeases(s, [1], 1)
         == s.(leases := map[1 := ls.(state := LEASE_REVOKED)], acct := s.acct.(activeLeases := Decrement(s.acct.activeLeases, 1)))
  {
    assert [1][..0] == [];
    assert RevokeLeases(s, [], 1) == s;
  }

  /** Registered and leased again, then the revoked lease is returned. */
  ghost function ReturnedWorld(seed: nat): World {
    Step(Step(Step(RevokedWorld(seed), Registering(Page(7, 1), SYNTHETIC_ID, 1, CALLER)), Leasing(2, CALLER, 0)), Returning(1))
  }

  /** The counter says no lease is active, and one is. */
  lemma LeaseCountedTwice(seed: nat)
    ensures var w := ReturnedWorld(seed);
            && Reachable(seed, w) && w.s.acct.activeLeases == 0
            && 2 in w.s.leases && w.s.leases[2].state.LEASE_ACTIVE? && !Leases.LeasesBalance(w.s)
  {
    hide FirstRecord, AccountCommit, Reachable, LeasedWorld, RevokedWorld, Registered, RegisteredBackend, RevokedRecord, Total;
    RevokedIs(seed);
    LeasedIs(seed);
    RegisteredIs(seed);
    var w1 := RevokedWorld(seed);
    HeldByBackend(seed);
    AgainPasses(w1, seed);
    RegisteringIs(w1, Page(7, 1), SYNTHETIC_ID, 1, CALLER);
    CommitKeepsLeases(w1.s.acct, Step(w1, Registering(Page(7, 1), SYNTHETIC_ID, 1, CALLER)).s.registrations[2]);
    ReachesStep(seed, w1, Registering(Page(7, 1), SYNTHETIC_ID, 1, CALLER));
    var w2 := Step(w1, Registering(Page(7, 1), SYNTHETIC_ID, 1, CALLER));
    ReachesStep(seed, w2, Leasing(2, CALLER, 0));
    ReachesStep(seed, Step(w2, Leasing(2, CALLER, 0)), Returning(1));
    ReturnedCounts(w2);
  }

  lemma AgainPasses(w: World, seed: nat)
    requires w.s.authority == RIGHTFUL && w.s.attached && w.s.domains == DOMAINS && 7 !in w.s.activeFor
    requires w.s.buffers == map[7 := BufferEntry(Page(7, 1), false)] && w.b.profile == DEFAULT_PROFILE
    ensures Passes(w, Page(7, 1), SYNTHETIC_ID, 1, CALLER)
  {
    hide CanRegister, ValidateRange;
    PageSupported(7, 1);
  }

  lemma CommitKeepsLeases(a: Accounting, r: RegistrationRecord)
    ensures AccountCommit(a, r).activeLeases == a.activeLeases
  {
  }

  lemma ReturnedCounts(w: World)
    requires w.s.authority == RIGHTFUL && 2 in w.s.registrations && w.s.registrations[2].lifecycle.ACTIVE?
    requires w.s.registrations[2].freshness == VALID && w.s.registrations[2].grantedAccess == REMOTE_READ
    requires w.s.leases.Keys == {1} && w.s.leases[1].state.LEASE_REVOKED? && w.s.leases[1].registration == 1
    requires w.s.nextLease == 2 && w.s.acct.activeLeases == 0
    ensures var w' := Step(Step(w, Leasing(2, CALLER, 0)), Returning(1));
            && w'.s.acct.activeLeases == 0 && 2 in w'.s.leases && w'.s.leases[2].state.LEASE_ACTIVE? && !Leases.LeasesBalance(w'.s)
  {
    assert Superset(REMOTE_READ, 0);
    var w' := Step(Step(w, Leasing(2, CALLER, 0)), Returning(1));
    AtLeast(w'.s.leases, Leases.Counted(), 2);
  }

  // ---- a charge released twice ------------------------------------------------------------------------------------

  ghost function TwoPages(seed: nat): World {
    Step(Step(Registered(seed), NewBuffer(Page(8, 1), [1])), Registering(Page(8, 1), SYNTHETIC_ID, 1, CALLER))
  }

  /** The first page is reallocated, and its registration deregistered afterwards. */
  ghost function ReleasedTwice(seed: nat): World {
    Step(Step(TwoPages(seed), NewBuffer(Page(7, 2), [1, 2])), Deregistering(1))
  }

  lemma TwoPagesFacts(seed: nat)
    ensures var w := TwoPages(seed);
            && Reachable(seed, w) && w.s.registrations.Keys == {1, 2} && w.s.registrations[1] == FirstRecord(seed)
            && w.s.registrations[2].lifecycle.ACTIVE? && w.s.registrations[2].bufferId == 8 && w.s.registrations[2].reason == []
            && w.s.acct.activeRegistrations == 2 && FirstRecord(seed).handle in w.b.entries && w.s.attached
            && 7 in w.s.buffers && w.s.buffers[7].descriptor == Page(7, 1)
  {
    hide FirstRecord, AccountCommit, Reachable, Registered, RegisteredBackend, Step;
    RegisteredIs(seed);
    FirstFacts(seed);
    HeldByBackend(seed);
    SecondPage(seed);
    var w1 := Step(Registered(seed), NewBuffer(Page(8, 1), [1]));
    SecondPasses(w1);
    RegisteringIs(w1, Page(8, 1), SYNTHETIC_ID, 1, CALLER);
    CommitCharges(w1.s.acct, TwoPages(seed).s.registrations[2]);
    ReachesStep(seed, w1, Registering(Page(8, 1), SYNTHETIC_ID, 1, CALLER));
  }

  lemma SecondPage(seed: nat)
    ensures var (w, w1) := (Registered(seed), Step(Registered(seed), NewBuffer(Page(8, 1), [1])));
            && w1 == w.(s := w.s.(buffers := w.s.buffers[8 := BufferEntry(Page(8, 1), false)], acct := w1.s.acct))
            && w1.s.acct.activeRegistrations == 1 && Reachable(seed, w1)
  {
    hide FirstRecord, AccountCommit, Registered, RegisteredBackend, InvalidateAll, Reachable;
    RegisteredIs(seed);
    CommitCharges(ReadyState().acct, FirstRecord(seed));
    ReachesStep(seed, Registered(seed), NewBuffer(Page(8, 1), [1]));
    OnlyOne(Registered(seed).s.registrations);
  }

  lemma HeldByBackend(seed: nat)
    ensures var (b, h) := (RegisteredBackend(seed), FirstRecord(seed).handle);
            && h in b.entries && b.entries[h] == Entry(FirstGrant(seed), 1, false, false)
            && b.profile == DEFAULT_PROFILE && b.generation == 1
  {
    hide GrantFor;
  }

  lemma SecondPasses(w: World)
    requires w.s.authority == RIGHTFUL && w.s.attached && w.s.domains == DOMAINS && 8 !in w.s.activeFor
    requires 8 in w.s.buffers && w.s.buffers[8].descriptor == Page(8, 1) && w.b.profile == DEFAULT_PROFILE
    ensures Passes(w, Page(8, 1), SYNTHETIC_ID, 1, CALLER)
  {
    hide CanRegister, ValidateRange;
    PageSupported(8, 1);
  }

  lemma CommitCharges(a: Accounting, r: RegistrationRecord)
    ensures AccountCommit(a, r).activeRegistrations == a.activeRegistrations + 1
  {
  }

  /** The counter says no registration is charged, and one is. */
  lemma ChargeReleasedTwice(seed: nat)
    ensures var w := ReleasedTwice(seed);
            && Reachable(seed, w) && w.s.acct.activeRegistrations == 0
            && 2 in w.s.registrations && w.s.registrations[2].lifecycle.ACTIVE? && Charges.Charged(w.s.registrations[2])
            && !Charges.Balanced(w.s.registrations, w.s.acct)
  {
    hide FirstRecord, AccountCommit, Reachable, TwoPages, Total, Step, Invalidated, AccountInvalidate;
    var w := TwoPages(seed);
    TwoPagesFacts(seed);
    FirstFacts(seed);
    Reallocated7(w);
    var w1 := Step(w, NewBuffer(Page(7, 2), [1, 2]));
    ReachesStep(seed, w, NewBuffer(Page(7, 2), [1, 2]));
    ReachesStep(seed, w1, Deregistering(1));
    StaleKeeps(FirstRecord(seed));
    DeregisteredAnyway(w1);
    AtLeast(ReleasedTwice(seed).s.registrations, Charges.One(), 2);
    Charges.ReasonsDiffer(w.s.registrations[2]);
  }

  lemma StaleKeeps(rec: RegistrationRecord)
    ensures var r := Invalidated(rec, Reallocated(7));
            r.lifecycle.STALE? && r.leaseCount == rec.leaseCount && r.backend == rec.backend && r.handle == rec.handle
  {
  }

  lemma Reallocated7(w: World)
    requires w.s.registrations.Keys == {1, 2} && w.s.registrations[1].lifecycle.ACTIVE? && w.s.registrations[1].bufferId == 7
    requires w.s.registrations[2].bufferId == 8 && w.s.acct.activeRegistrations == 2
    requires 7 in w.s.buffers && w.s.buffers[7].descriptor == Page(7, 1)
    ensures var w' := Step(w, NewBuffer(Page(7, 2), [1, 2]));
            && w'.s.registrations == w.s.registrations[1 := Invalidated(w.s.registrations[1], Reallocated(7))]
            && w'.s.acct.activeRegistrations == 1 && w'.s.attached == w.s.attached && w'.b == w.b
  {
    hide InvalidateAll, Invalidated;
    assert Enumerates([1, 2], w.s.registrations);
    StaleFirst(w.s, Page(7, 2));
    InvalidateAllFrame(w.s, [1, 2], Reallocated(7));
  }

  lemma StaleFirst(s: State, d: BufferDescriptor)
    requires s.registrations.Keys == {1, 2} && s.registrations[1].lifecycle.ACTIVE? && s.registrations[1].bufferId == 7
    requires s.registrations[2].bufferId == 8 && s.acct.activeRegistrations == 2
    ensures var s' := InvalidateAll(s, [1, 2], Reallocated(7));
            && s'.registrations == s.registrations[1 := Invalidated(s.registrations[1], Reallocated(7))]
            && s'.acct.activeRegistrations == 1
  {
    hide Invalidated;
    assert [1, 2][..1] == [1] && [1][..0] == [];
    var s1 := Invalidate(s, 1, Reallocated(7));
    assert InvalidateAll(s, [], Reallocated(7)) == s;
    assert InvalidateAll(s, [1], Reallocated(7)) == s1;
    assert InvalidateAll(s, [1, 2], Reallocated(7)) == Invalidate(s1, 2, Reallocated(7));
  }

  lemma DeregisteredAnyway(w: World)
    requires w.s.registrations.Keys == {1, 2} && w.s.registrations[1].lifecycle.STALE? && w.s.registrations[1].leaseCount == 0
    requires w.s.registrations[1].backend == SYNTHETIC_ID && w.s.attached && w.s.registrations[1].handle in w.b.entries
    requires w.s.acct.activeRegistrations == 1
    ensures var w' := Step(w, Deregistering(1));
            w'.s.acct.activeRegistrations == 0 && w'.s.registrations == map[2 := w.s.registrations[2]]
  {
  }

  // ---- a simulated read of nothing ---------------------------------------------------------------------------

  /** The registered page, read remotely at offset and length zero, divides by zero. */
  lemma DivisionReached(seed: nat)
    ensures var (w, h) := (Registered(seed), FirstGrant(seed).handle);
            Reachable(seed, w) && Smallest(w.b, h, 1) && SimulationOf(w.b, h, READ, 0, 0) == DividesByZero
  {
    hide Reachable, FirstRecord, FirstGrant, AccountCommit, SimulationOf, Registered;
    RegisteredIs(seed);
    FirstFacts(seed);
    var h := FirstGrant(seed).handle;
    assert Selectable(Registered(seed).b, h, 1) && Registered(seed).b.profile.remoteRead;
    assert Has(REMOTE_READ, REMOTE_READ);
    DividesExactly(Registered(seed).b, h, 1, READ, 0, 0);
  }
}
