/**
 * Runs from the start that reach what the other modules speak of: an allowed request, each
 * of the races, and each way in which a counter or a saved blob goes wrong. They hold for
 * every seed of the backend.
 */
module Examples {
  import opened Records
  import opened Checks
  import opened Words
  import opened BackendModel
  import opened Runtime
  import opened Worlds

  const RIGHTFUL: AuthoritySnapshot := AuthoritySnapshot(1, 1, 1, 1, 1, 1, 1, 1, 1, 1, 1, 1, SYNTHETIC)
  const CALLER: Envelope := Envelope(1, 1, 1, 1, 1, 1, 1)

  /** One pinned page, to be read remotely. */
  function Page(id: nat, generation: nat): BufferDescriptor {
    BufferDescriptor(id, generation, HOST_PINNED, 4096, VIRTUAL, 4096, 4096, 4096, 1, 1, 1, 1, 0, NONE, REMOTE_READ,
                     ANY, TRANSACTIONAL, SYNTHETIC, VALID, 0)
  }

  const READING: Request := Request(1, 0, 64, READ, REMOTE_READ, 0, 0, 0, CALLER, 0, 0, 0)

  /** Some recover-free run from the start ends in `w`. */
  ghost predicate Reachable(seed: nat, w: World) {
    exists ops :: AllProper(ops) && RecoverFree(ops) && Run(Start(seed), ops) == w
  }

  lemma {:induction false} RunThen(w: World, ops: seq<Op>, op: Op)
    requires AllProper(ops) && Proper(op)
    ensures AllProper(ops + [op]) && Run(w, ops + [op]) == Step(Run(w, ops), op)
    decreases |ops|
  {
    hide Step;
    if ops == [] {
      assert [] + [op] == [op] + [];
      RunFirst(w, op, []);
    } else {
      assert ops + [op] == [ops[0]] + (ops[1..] + [op]);
      RunThen(Step(w, ops[0]), ops[1..], op);
      RunFirst(w, ops[0], ops[1..] + [op]);
    }
  }

  lemma ReachesStart(seed: nat)
    ensures Reachable(seed, Start(seed))
  {
    assert Run(Start(seed), []) == Start(seed);
  }

  lemma ReachesStep(seed: nat, w: World, op: Op)
    requires Reachable(seed, w) && Proper(op) && !op.Recovering?
    ensures Reachable(seed, Step(w, op))
  {
    hide Step, Run;
    var ops :| AllProper(ops) && RecoverFree(ops) && Run(Start(seed), ops) == w;
    RunThen(Start(seed), ops, op);
  }

  // ---- a registered page ----------------------------------------------------------------------------

  /** Authority set, backend attached, domain 1 created, page 7 created. */
  ghost function Ready(seed: nat): World {
    Step(Step(Step(Step(Start(seed), SetTo(RIGHTFUL)), Attach), NewDomain(1, 1)), NewBuffer(Page(7, 1), []))
  }

  const DOMAINS: map<nat, DomainEntry> := map[1 := DomainEntry(UNKNOWN_DOMAIN, DOMAIN_ACTIVE, 1, 1, 1)]

  function ReadyState(): State {
    State(RIGHTFUL, true, DOMAINS, map[7 := BufferEntry(Page(7, 1), false)], map[], map[], map[],
          CLEAN.(logicalBuffers := 1, liveBufferBytes := 4096, protectionDomains := 1), 1, 1, 2, 1)
  }

  lemma ReadyIs(seed: nat)
    ensures Ready(seed) == World(ReadyState(), Fresh(seed), map[], map[]) && Reachable(seed, Ready(seed))
  {
    hide InvalidateAll, Reachable;
    var w0 := Start(seed);
    var w1 := Step(w0, SetTo(RIGHTFUL));
    var w2 := Step(w1, Attach);
    var w3 := Step(w2, NewDomain(1, 1));
    ReachesStart(seed);
    ReachesStep(seed, w0, SetTo(RIGHTFUL));
    ReachesStep(seed, w1, Attach);
    ReachesStep(seed, w2, NewDomain(1, 1));
    ReachesStep(seed, w3, NewBuffer(Page(7, 1), []));
    assert Enumerates([], w3.s.registrations);
  }

  /** A page passes the default backend's checks. */
  lemma PageSupported(id: nat, generation: nat)
    ensures CanRegister(DEFAULT_PROFILE, Page(id, generation)).None? && ValidateRange(Page(id, generation)).None?
  {
    assert CapabilitiesOf(DEFAULT_PROFILE).supportedDomains[1] == HOST_PINNED;
    assert !Has(REMOTE_READ, REMOTE_WRITE) && !Has(REMOTE_READ, REMOTE_ATOMIC);
  }

  ghost function Registered(seed: nat): World {
    Step(Ready(seed), Registering(Page(7, 1), SYNTHETIC_ID, 1, CALLER))
  }

  /** The grant of the first registration of a page. */
  function FirstGrant(seed: nat): Grant {
    GrantFor(Fresh(seed), Page(7, 1))
  }

  function FirstRecord(seed: nat): RegistrationRecord {
    CommittedRecord(ReadyState(), BegunRecord(ReadyState(), Fresh(seed), Page(7, 1), SYNTHETIC_ID, 1, CALLER), FirstGrant(seed))
  }

  function RegisteredBackend(seed: nat): Backend {
    var g := FirstGrant(seed);
    Fresh(seed).(nextNumber := 2, entries := map[g.handle := Entry(g, 1, false, false)], regionHandle := map[g.region := g.handle])
  }

  lemma RegisteredIs(seed: nat)
    ensures var w := Registered(seed);
            && w == World(ReadyState().(nextRegistration := 2, registrations := map[1 := FirstRecord(seed)], activeFor := map[7 := 1],
                                        acct := AccountCommit(ReadyState().acct, FirstRecord(seed))),
                          RegisteredBackend(seed), map[], map[])
            && Reachable(seed, w)
  {
    hide CanRegister, ValidateRange, GrantFor, AccountCommit, Reachable;
    ReadyIs(seed);
    PageSupported(7, 1);
    ReachesStep(seed, Ready(seed), Registering(Page(7, 1), SYNTHETIC_ID, 1, CALLER));
  }

  /** What the examples use of the record. */
  lemma FirstFacts(seed: nat)
    ensures var r := FirstRecord(seed);
            && r.id == 1 && r.bufferId == 7 && r.bufferGeneration == 1 && r.domainId == 1 && r.lifecycle == ACTIVE
            && r.freshness == VALID && r.backend == SYNTHETIC_ID && r.backendGeneration == 1 && r.leaseCount == 0
            && r.reason == [] && r.grantedAccess == REMOTE_READ && r.length == 4096 && r.descriptor == Page(7, 1)
            && !r.remoteKey.revoked && r.remoteKey.keyGeneration == 1 && r.transport == 0
            && r.handle == FirstGrant(seed).handle != []
    ensures FirstGrant(seed).access == REMOTE_READ && FirstGrant(seed).length == 4096 && FirstGrant(seed).keyGeneration == 1
  {
    hide Region, RemoteKeyId, LocalKeyId, Xor64;
  }

  // ---- an allowed request ---------------------------------------------------------------------------

  /** A reading request on a record like the first one, with its entry, is allowed. */
  lemma ReadAllowed(s: State, b: Backend)
    requires 1 in s.registrations && s.attached && s.authority == RIGHTFUL && b.generation == 1 && b.profile.remoteRead
    requires var r := s.registrations[1];
             && (r.lifecycle.ACTIVE? || r.lifecycle.DEREGISTERING?) && r.freshness == VALID && r.backend == SYNTHETIC_ID
             && r.backendGeneration == 1 && r.grantedAccess == REMOTE_READ && r.descriptor.byteLength == 4096
             && !r.remoteKey.revoked && r.handle in b.entries
             && b.entries[r.handle].keyGeneration == r.remoteKey.keyGeneration && !b.entries[r.handle].revoked
             && !b.entries[r.handle].revalidate && b.entries[r.handle].grant.access == REMOTE_READ
             && b.entries[r.handle].grant.length == 4096
    ensures Access(s, b, READING) == ALLOW
  {
    assert Superset(REMOTE_READ, REMOTE_READ) && Has(REMOTE_READ, REMOTE_READ);
  }

  /** Five ordinary calls lead to a state that allows a request. */
  lemma AllowReached(seed: nat)
    ensures Reachable(seed, Registered(seed)) && Ranged(READING)
    ensures Access(Registered(seed).s, Registered(seed).b, READING) == ALLOW
  {
    hide FirstRecord, FirstGrant, AccountCommit, Access, Reachable;
    RegisteredIs(seed);
    FirstFacts(seed);
    ReadAllowed(Registered(seed).s, Registered(seed).b);
  }
}
