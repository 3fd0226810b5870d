/** What the runtime answers after a few ordinary calls from the start, for every seed of the backend. */
module Answers {
  import opened Records
  import opened Checks
  import opened Words
  import opened BackendModel
  import opened Runtime
  import opened Worlds
  import opened StepFrames
  import opened Admission
  import opened Rotation
  import opened Domains
  import opened Examples
  import opened Totals

  /** Registering the page once more as a reuse hits its registration, unless the page got the one region without a key identity. */
  lemma ReuseReached(seed: nat)
    ensures var w := Registered(seed);
            Reachable(seed, w) && Reuse(w.s, Page(7, 1), SYNTHETIC_ID, 1, CALLER) ==
              if FirstGrant(seed).region == KEYLESS then Err(KEY_ABSENT) else Ok(1)
  {
    hide Reachable, Reuse, FirstRecord, AccountCommit, RegisterMiss, Step, Region;
    ReadyIs(seed);
    RegisteredIs(seed);
    PagePasses(seed);
    RegistersExact(Ready(seed).s, Ready(seed).b, Page(7, 1), SYNTHETIC_ID, 1, CALLER);
    RegisterThenReuse(Ready(seed), Page(7, 1), SYNTHETIC_ID, 1, CALLER);
    FirstRegion(seed);
  }

  lemma FirstRegion(seed: nat)
    ensures FirstGrant(seed).region == Region(Fresh(seed).seed, Fresh(seed).nextNumber)
  {
    hide Region, RemoteKeyId, LocalKeyId, Xor64, HandleOf;
  }

  lemma PagePasses(seed: nat)
    ensures Passes(Ready(seed), Page(7, 1), SYNTHETIC_ID, 1, CALLER)
  {
    hide CanRegister, ValidateRange, Reachable;
    ReadyIs(seed);
    PageSupported(7, 1);
  }

  /** At most one seed is that unlucky. */
  lemma OneUnluckySeed(a: nat, b: nat)
    requires a < b < 0x1_0000_0000_0000_0000
    ensures FirstGrant(a).region != KEYLESS || FirstGrant(b).region != KEYLESS
  {
    hide Xor64, Shl64;
    FirstRegion(a);
    FirstRegion(b);
    var shifted := Shl64(1, 7);
    XorInjective(a, b, shifted);
    XorInjective(Xor64(a, shifted), Xor64(b, shifted), GOLDEN);
  }

  /** The page was registered for reading: a lease for reading is granted, one for writing is not. */
  lemma WriteLeaseRefused(seed: nat)
    ensures var s := Registered(seed).s;
            && AcquireLease(s, 1, CALLER, REMOTE_WRITE) == s
            && LeaseMissReason(s, 1, CALLER, REMOTE_WRITE) == Some(LEASE_RIGHTS)
            && LeaseMissReason(s, 1, CALLER, REMOTE_READ) == None
  {
    hide FirstRecord, AccountCommit, Reachable;
    RegisteredIs(seed);
    FirstFacts(seed);
    assert !Superset(REMOTE_READ, REMOTE_WRITE) && Superset(REMOTE_READ, REMOTE_READ);
  }

  /** A request that expects the next key generation is stale, and counted as stale. */
  lemma StaleKeyAnswered(seed: nat)
    ensures var (w, q) := (Registered(seed), READING.(expectedKeyGeneration := 2));
            && Access(w.s, w.b, q) == REJECT_STALE_KEY
            && w.s.acct.staleAccessRejections == 0 && AccessCounted(w.s, w.b, q).acct.staleAccessRejections == 1
  {
    hide FirstRecord, Reachable, RegisteredBackend, QueryRemoteAccess;
    RegisteredIs(seed);
    FirstFacts(seed);
    FirstBackend(seed);
  }

  lemma FirstBackend(seed: nat)
    ensures RegisteredBackend(seed).generation == 1
  {
  }

  /** After a rotation the old key generation is stale and the new one allowed. */
  lemma RotatedAnswered(seed: nat)
    ensures var (w, w') := (Registered(seed), Step(Registered(seed), Rotating(1)));
            && Reachable(seed, w') && Access(w.s, w.b, READING.(expectedKeyGeneration := 1)) == ALLOW
            && Access(w'.s, w'.b, READING.(expectedKeyGeneration := 1)) == REJECT_STALE_KEY
            && Access(w'.s, w'.b, READING.(expectedKeyGeneration := 2)) == ALLOW
  {
    hide FirstRecord, FirstGrant, AccountCommit, Reachable, Step, Registered, Access;
    var (w, q) := (Registered(seed), READING.(expectedKeyGeneration := 1));
    RegisteredIs(seed);
    FirstFacts(seed);
    AllowReached(seed);
    ExpectingIt(w.s, w.b);
    FirstEntry(seed);
    RotatedKeyIsStale(w, 1, q);
    RotationJudgesAlike(w, 1, q);
    ReachesStep(seed, w, Rotating(1));
    assert q.(expectedKeyGeneration := 2) == READING.(expectedKeyGeneration := 2);
  }

  /** Stating the right key generation makes no difference. */
  lemma ExpectingIt(s: State, b: Backend)
    requires 1 in s.registrations && s.registrations[1].remoteKey.keyGeneration == 1 && Access(s, b, READING) == ALLOW
    ensures Access(s, b, READING.(expectedKeyGeneration := 1)) == ALLOW
  {
    hide ValidateAuthority, QueryRemoteAccess, StatusOutcome, Has, Superset;
  }

  lemma FirstEntry(seed: nat)
    ensures var (b, h) := (RegisteredBackend(seed), FirstGrant(seed).handle);
            h in b.entries && b.entries[h].keyGeneration == 1 && !b.entries[h].revalidate
  {
    hide FirstGrant;
  }

  ghost function TwoDomains(seed: nat): World {
    Step(Step(Start(seed), NewDomain(1, 1)), NewDomain(1, 1))
  }

  lemma DropEmpty(w: World, d: nat)
    requires w.s.registrations == map[] && d in w.s.domains
    ensures var (e, n) := (w.s.domains[d], w.s.acct.protectionDomains);
            Orderly(w, DropDomain(d, [])) &&
            Step(w, DropDomain(d, [])) ==
            w.(s := w.s.(domains := w.s.domains[d := e.(state := DESTROYED, generation := e.generation + 1)],
                         acct := w.s.acct.(protectionDomains := if n > 0 then n - 1 else 0)))
  {
    assert Enumerates([], w.s.registrations);
  }

  lemma TwoDomainsIs(seed: nat)
    ensures var w := TwoDomains(seed);
            && Reachable(seed, w) && w.s.registrations == map[] && w.s.acct.protectionDomains == 2
            && 1 in w.s.domains && 2 in w.s.domains && w.s.domains[2].state == DOMAIN_ACTIVE
  {
    hide Reachable;
    ReachesStart(seed);
    ReachesStep(seed, Start(seed), NewDomain(1, 1));
    ReachesStep(seed, Step(Start(seed), NewDomain(1, 1)), NewDomain(1, 1));
  }

  /** Two domains; destroying the first one twice leaves the counter at zero and the second one active. */
  lemma DestroyedTwice(seed: nat)
    ensures var w := Step(Step(TwoDomains(seed), DropDomain(1, [])), DropDomain(1, []));
            && Reachable(seed, w) && w.s.acct.protectionDomains == 0
            && 2 in w.s.domains && w.s.domains[2].state == DOMAIN_ACTIVE && !CountsActive(w.s)
  {
    hide Reachable, Step, TwoDomains, Orderly;
    var w0 := TwoDomains(seed);
    var w1 := Step(w0, DropDomain(1, []));
    TwoDomainsIs(seed);
    DropEmpty(w0, 1);
    DropEmpty(w1, 1);
    ReachesStep(seed, w0, DropDomain(1, []));
    ReachesStep(seed, w1, DropDomain(1, []));
    AtLeast(Step(w1, DropDomain(1, [])).s.domains, ActiveDomain(), 2);
  }
}
