/**
 * The races that taking the calls apart makes possible. Between the check of a register
 * call and its commit other calls run, and the commit looks at nothing again; a
 * registration marked for deregistration is judged as before until its backend call.
 */
module Interleavings {
  import opened Records
  import opened Checks
  import opened BackendModel
  import opened Runtime
  import opened Worlds
  import opened Evolution
  import opened Safety
  import opened StepFrames

  /** The index names every active registration. */
  predicate SingleFlighted(s: State) {
    forall id :: id in s.registrations && s.registrations[id].lifecycle.ACTIVE? ==> Indexed(s, id, s.registrations[id])
  }

  /** No registration of this buffer is active. */
  predicate Unregistered(s: State, buffer: nat) {
    forall id :: id in s.registrations && s.registrations[id].bufferId == buffer ==> !s.registrations[id].lifecycle.ACTIVE?
  }

  /** A commit keeps single flight exactly when no other call has registered the buffer meanwhile. */
  lemma CommitKeepsSingleFlight(w: World, id: nat)
    requires Tidy(w) && SingleFlighted(w.s) && ReadyToCommit(w, id)
    ensures SingleFlighted(CommitRegisterStep(w, id).s) <==> Unregistered(w.s, w.registering[id].rec.bufferId)
  {
    hide AccountCommit;
    var rec := w.registering[id].rec;
    var s' := CommitRegisterStep(w, id).s;
    assert s'.registrations[id].bufferId == rec.bufferId && s'.registrations[id].lifecycle.ACTIVE?;
    if SingleFlighted(s') {
      forall k | k in w.s.registrations && w.s.registrations[k].bufferId == rec.bufferId
        ensures !w.s.registrations[k].lifecycle.ACTIVE?
      {
        assert s'.registrations[k] == w.s.registrations[k];
      }
    }
  }

  // ---- the races -----------------------------------------------------------------------------------

  /** A register call that has been checked and granted, about to take its second lock. */
  ghost predicate Waiting(w: World, id: nat, d: BufferDescriptor, domain: nat) {
    && ReadyToCommit(w, id) && w.registering[id].rec.id == id && w.registering[id].rec.bufferId == d.id && w.registering[id].rec.domainId == domain
    && w.registering[id].rec.bufferGeneration == d.generation
  }

  lemma CheckThenCall(w: World, d: BufferDescriptor, backend: nat, domain: nat, env: Envelope)
    requires Sized(d) && RegisterMiss(w.s, w.b, d, backend, domain, env).None?
    ensures var n := w.s.nextRegistration;
            var w' := CallRegisterStep(CheckRegisterStep(w, d, backend, domain, env), n);
            && Waiting(w', n, d, domain) && w'.s == w.s.(nextRegistration := n + 1) && w'.b.profile == w.b.profile
            && w'.b.generation == w.b.generation
            && (forall k :: k in w.registering && k != n ==> k in w'.registering && w'.registering[k] == w.registering[k])
            && RegisterMiss(w'.s, w'.b, d, backend, domain, env).None?
  {
    hide CanRegister, GrantFor, ValidateRange;
    CheckFacts(w.s, w.b, d, backend, domain, env);
  }

  /** Two register calls for the same buffer, both checked and granted before either commits. */
  function Race(w: World, d: BufferDescriptor, backend: nat, domain: nat, env: Envelope): State
    requires Sized(d)
  {
    var n := w.s.nextRegistration;
    var w1 := CallRegisterStep(CheckRegisterStep(w, d, backend, domain, env), n);
    var w2 := CallRegisterStep(CheckRegisterStep(w1, d, backend, domain, env), n + 1);
    CommitRegisterStep(CommitRegisterStep(w2, n), n + 1).s
  }

  predicate BothActive(s: State, n: nat, m: nat, buffer: nat) {
    && n in s.registrations && m in s.registrations
    && s.registrations[n].lifecycle.ACTIVE? && s.registrations[m].lifecycle.ACTIVE?
    && s.registrations[n].bufferId == s.registrations[m].bufferId == buffer
  }

  /** The race ends with two active registrations of one buffer, of which the index names one. */
  lemma TwoActive(w: World, d: BufferDescriptor, backend: nat, domain: nat, env: Envelope)
    requires Sized(d) && RegisterMiss(w.s, w.b, d, backend, domain, env).None?
    ensures BothActive(Race(w, d, backend, domain, env), w.s.nextRegistration, w.s.nextRegistration + 1, d.id)
    ensures !SingleFlighted(Race(w, d, backend, domain, env))
  {
    hide CheckRegisterStep, CallRegisterStep, CommitRegisterStep, RegisterMiss, SingleFlighted;
    var n := w.s.nextRegistration;
    var w1 := CallRegisterStep(CheckRegisterStep(w, d, backend, domain, env), n);
    CheckThenCall(w, d, backend, domain, env);
    var w2 := CallRegisterStep(CheckRegisterStep(w1, d, backend, domain, env), n + 1);
    CheckThenCall(w1, d, backend, domain, env);
    BothCommit(w2, n, n + 1, d, domain);
  }

  lemma BothCommit(w: World, n: nat, m: nat, d: BufferDescriptor, domain: nat)
    requires n != m && Waiting(w, n, d, domain) && Waiting(w, m, d, domain)
    ensures var s' := CommitRegisterStep(CommitRegisterStep(w, n), m).s;
            BothActive(s', n, m, d.id) && !SingleFlighted(s')
  {
    hide AccountCommit;
  }

  /** The domain is destroyed while the call waits: the registration becomes active in a destroyed domain. */
  lemma ActiveInDestroyedDomain(w: World, id: nat, d: BufferDescriptor, domain: nat, order: seq<nat>)
    requires Tidy(w) && Waiting(w, id, d, domain) && domain in w.s.domains && Enumerates(order, w.s.registrations)
    ensures var s' := Step(Step(w, DropDomain(domain, order)), CommitRegister(id)).s;
            && id in s'.registrations && s'.registrations[id].lifecycle.ACTIVE? && s'.registrations[id].freshness == VALID
            && s'.domains[s'.registrations[id].domainId].state.DESTROYED?
  {
    hide InvalidateAll, AccountCommit, Enumerates;
    InvalidateAllFrame(w.s, order, DomainDestroyed(domain));
  }

  /** The buffer is reallocated while the call waits: the registration becomes active at a superseded generation. */
  lemma ActiveAtOldGeneration(w: World, id: nat, d: BufferDescriptor, domain: nat, d': BufferDescriptor, order: seq<nat>)
    requires Tidy(w) && Waiting(w, id, d, domain) && d.id in w.s.buffers && Enumerates(order, w.s.registrations)
    requires w.s.buffers[d.id].descriptor.generation == d.generation < d'.generation && d'.id == d.id != 0 && Sized(d')
    ensures var s' := Step(Step(w, NewBuffer(d', order)), CommitRegister(id)).s;
            && id in s'.registrations && s'.registrations[id].lifecycle.ACTIVE? && s'.registrations[id].freshness == VALID
            && s'.registrations[id].bufferGeneration < s'.buffers[d.id].descriptor.generation
  {
    hide InvalidateAll, AccountCommit, Enumerates, Decrement;
    InvalidateAllFrame(w.s, order, Reallocated(d.id));
  }

  /**
   * A registration marked for deregistration keeps its freshness and its backend entry, and
   * the lifecycle test lets it pass: until the backend call, requests are judged as before.
   */
  lemma MarkedIsStillAllowed(w: World, id: nat, q: Request)
    requires MayDeregister(w.s, id) && w.s.registrations[id].lifecycle.ACTIVE? && id !in w.deregistering
    requires Ranged(q) && q.registration == id
    ensures var w' := CheckDeregisterStep(w, id);
            && w'.s.registrations[id].lifecycle.DEREGISTERING?
            && Access(w'.s, w'.b, q) == Access(w.s, w.b, q)
  {
    hide ValidateAuthority, QueryRemoteAccess, StatusOutcome, CurrencyOutcome, GrantOutcome;
    MarkedSame(w.s, DeregisterCheck(w.s, id), w.b, w.s.registrations[id], q);
  }

  lemma MarkedSame(s: State, s': State, b: Backend, rec: RegistrationRecord, q: Request)
    requires Ranged(q) && rec.lifecycle.ACTIVE? && s'.attached == s.attached
    ensures var r := rec.(lifecycle := DEREGISTERING);
            && StatusOutcome(r) == StatusOutcome(rec) && CurrencyOutcome(s', b, r, q) == CurrencyOutcome(s, b, rec, q)
            && GrantOutcome(b, r, q) == GrantOutcome(b, rec, q)
  {
    hide Superset, Has, RangeInside;
  }
}
