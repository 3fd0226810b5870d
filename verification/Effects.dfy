/**
 * What the operations that end something do to the tables, entry by entry: revocation, the
 * loss of a domain, the reallocation of a buffer, deregistration, and a new epoch or boot.
 */
module Effects {
  import opened Records
  import opened Checks
  import opened BackendModel
  import opened Runtime
  import opened Worlds
  import opened Evolution
  import opened StepFrames
  import opened Rotation

  const USABLE: set<Lifecycle> := {ACTIVE, REGISTERED}

  /** Nothing but the registrations, the leases, the index, the counters and the given extras differs. */
  predicate TablesOnly(s: State, s': State) {
    s' == s.(registrations := s'.registrations, leases := s'.leases, activeFor := s'.activeFor, acct := s'.acct)
  }

  // ---- revocation -----------------------------------------------------------------------------------

  /** The registration as a revocation leaves it. */
  predicate Ended(r: RegistrationRecord, r': RegistrationRecord, lifecycle: Lifecycle, reason: Text) {
    r' == r.(lifecycle := lifecycle, freshness := FRESH_STALE, reason := reason, remoteKey := r'.remoteKey)
  }

  /** A hard revocation ends the registration and its key, frees its buffer's slot and revokes its active leases. */
  lemma HardRevokeExact(w: World, id: nat, order: seq<nat>)
    requires Orderly(w, Revoking(id, order))
    ensures var (s, s') := (w.s, Step(w, Revoking(id, order)).s);
            if !(id in s.registrations && s.registrations[id].lifecycle in USABLE) then s' == s else
              && id in s'.registrations && s'.registrations == s.registrations[id := s'.registrations[id]]
              && Ended(s.registrations[id], s'.registrations[id], REVOKED, Ascii("hard revoke"))
              && s'.registrations[id].remoteKey ==
                 s.registrations[id].remoteKey.(keyGeneration := s.registrations[id].remoteKey.keyGeneration + 1, revoked := true)
              && s'.activeFor == s.activeFor - {s.registrations[id].bufferId}
              && s'.leases.Keys == s.leases.Keys
              && (forall l :: l in s.leases ==>
                    s'.leases[l] == if s.leases[l].registration == id && s.leases[l].state == LEASE_ACTIVE
                                    then s.leases[l].(state := LEASE_REVOKED) else s.leases[l])
              && TablesOnly(s, s')
  {
    hide RevokeLeases;
    if Revocable(w.s, id) {
      var s1 := w.s.(registrations := w.s.registrations[id := RevokedRecord(w.s.registrations[id])]);
      RevokeLeasesEffect(s1, order, id);
    }
  }

  /** A soft revocation ends the registration too, at once without leases, else pending, and leaves key, leases and index. */
  lemma SoftRevokeExact(w: World, id: nat)
    ensures var (s, s') := (w.s, Step(w, SoftRevoking(id)).s);
            if !(id in s.registrations && s.registrations[id].lifecycle in USABLE) then s' == s else
              && id in s'.registrations && s'.registrations == s.registrations[id := s'.registrations[id]]
              && Ended(s.registrations[id], s'.registrations[id], if s.registrations[id].leaseCount == 0 then REVOKED else REVOKING,
                       Ascii("soft revoke"))
              && s'.registrations[id].remoteKey == s.registrations[id].remoteKey
              && s'.leases == s.leases && s'.activeFor == s.activeFor && TablesOnly(s, s')
  {
  }

  /** After a hard revocation the key generation before it has passed for good. */
  lemma RevocationPasses(w: World, id: nat, order: seq<nat>, ops: seq<Op>)
    requires Tidy(w) && Revocable(w.s, id) && Orderly(w, Revoking(id, order)) && AllProper(ops) && RecoverFree(ops)
    ensures KeyPassed(Run(Step(w, Revoking(id, order)), ops), id, KeyGeneration(w, id))
  {
    hide Run, Step, Enumerates;
    var w1 := Step(w, Revoking(id, order));
    StepMoves(w, Revoking(id, order));
    HardRevokeExact(w, id, order);
    RevokedPassed(w, id, w1);
    RunEvolves(w1, ops);
    PassedStays(w1, Run(w1, ops), id, KeyGeneration(w, id));
  }

  lemma RevokedPassed(w: World, id: nat, w1: World)
    requires Tidy(w) && Tidy(w1) && id in w.s.registrations && id in w1.s.registrations
    requires KeyGeneration(w1, id) > KeyGeneration(w, id)
    ensures KeyPassed(w1, id, KeyGeneration(w, id))
  {
  }

  // ---- domains and buffers ------------------------------------------------------------------------------

  /** The records that `hit` describes are ended, the others stay; only the counters change with them. */
  ghost predicate EndsThose(s: State, s': State, hit: RegistrationRecord -> bool, lifecycle: Lifecycle, reason: Text) {
    && s'.registrations.Keys == s.registrations.Keys && s'.leases == s.leases && s'.activeFor == s.activeFor
    && forall id :: id in s.registrations ==>
         s'.registrations[id] == if hit(s.registrations[id])
                                 then s.registrations[id].(lifecycle := lifecycle, freshness := FRESH_STALE, reason := reason)
                                 else s.registrations[id]
  }

  /** The live registrations of a domain. */
  function OfDomain(d: nat): RegistrationRecord -> bool {
    (r: RegistrationRecord) => r.domainId == d && r.lifecycle in USABLE
  }

  /** The registrations of a known buffer that are or are becoming live. */
  function OfBuffer(s: State, key: nat): RegistrationRecord -> bool {
    (r: RegistrationRecord) => key in s.buffers && r.bufferId == key && r.lifecycle in USABLE + {REGISTERING}
  }

  lemma DropDomainExact(w: World, d: nat, order: seq<nat>)
    requires Orderly(w, DropDomain(d, order))
    ensures var (s, s') := (w.s, Step(w, DropDomain(d, order)).s);
            if d !in s.domains then s' == s else
              && EndsThose(s, s', OfDomain(d), REVOKED, Ascii("protection domain destroyed"))
              && s'.domains == s.domains[d := s.domains[d].(state := DESTROYED, generation := s.domains[d].generation + 1)]
              && s'.buffers == s.buffers
  {
    hide InvalidateAll, Decrement;
    if d in w.s.domains {
      InvalidateAllEffect(w.s, order, DomainDestroyed(d));
    }
  }

  /** The identity a buffer is filed under: its own, or the next free number. */
  function FiledUnder(s: State, d: BufferDescriptor): nat {
    if d.id == 0 then s.nextBuffer else d.id
  }

  /**
   * A duplicate or lower generation is refused. A higher one is a reallocation: every registration
   * of the buffer that is or was becoming live is stale. A new identity is entered.
   */
  lemma NewBufferExact(w: World, d: BufferDescriptor, order: seq<nat>)
    requires Sized(d) && Orderly(w, NewBuffer(d, order))
    ensures var (s, s', key) := (w.s, Step(w, NewBuffer(d, order)).s, FiledUnder(w.s, d));
            && s'.nextBuffer == s.nextBuffer + (if d.id == 0 then 1 else 0) && s'.domains == s.domains
            && (if key in s.buffers && d.generation <= s.buffers[key].descriptor.generation then
                  s'.buffers == s.buffers && s'.registrations == s.registrations && s'.acct == s.acct
                else
                  && s'.buffers == s.buffers[key := BufferEntry(d, false)]
                  && EndsThose(s, s', OfBuffer(s, key), STALE, Ascii("memory reallocated under new generation")))
  {
    hide CreateBuffer, Enumerates, EndsThose, OfBuffer;
    CreatesExactly(w.s, d, order);
  }

  lemma CreatesExactly(s: State, d: BufferDescriptor, order: seq<nat>)
    requires Enumerates(order, s.registrations)
    ensures var (s', key) := (CreateBuffer(s, d, order), FiledUnder(s, d));
            && s'.nextBuffer == s.nextBuffer + (if d.id == 0 then 1 else 0) && s'.domains == s.domains
            && (if key in s.buffers && d.generation <= s.buffers[key].descriptor.generation then
                  s'.buffers == s.buffers && s'.registrations == s.registrations && s'.acct == s.acct
                else
                  && s'.buffers == s.buffers[key := BufferEntry(d, false)]
                  && EndsThose(s, s', OfBuffer(s, key), STALE, Ascii("memory reallocated under new generation")))
  {
    hide InvalidateAll, EndsThose, Enumerates, OfBuffer, CreateBuffer;
    var (s', key) := (CreateBuffer(s, d, order), FiledUnder(s, d));
    var s0 := if d.id != 0 then s else s.(nextBuffer := s.nextBuffer + 1);
    CreatesTables(s, s0, d, order);
    if key !in s.buffers {
      NobodyEnds(s, s', key);
    } else if d.generation > s.buffers[key].descriptor.generation {
      BufferEnds(s, s0, s', order, key);
    }
  }

  lemma CreatesTables(s: State, s0: State, d: BufferDescriptor, order: seq<nat>)
    requires s0 == if d.id != 0 then s else s.(nextBuffer := s.nextBuffer + 1)
    ensures var (s', key) := (CreateBuffer(s, d, order), FiledUnder(s, d));
            && s'.nextBuffer == s0.nextBuffer && s'.domains == s.domains && s'.leases == s.leases && s'.activeFor == s.activeFor
            && if key in s.buffers && d.generation <= s.buffers[key].descriptor.generation then s' == s0 else
                 && s'.buffers == s.buffers[key := BufferEntry(d, false)]
                 && s'.registrations ==
                    if key in s.buffers then InvalidateAll(s0, order, Reallocated(key)).registrations else s.registrations
  {
    hide InvalidateAll, Decrement;
    InvalidateAllFrame(s0, order, Reallocated(FiledUnder(s, d)));
  }

  lemma NobodyEnds(s: State, s': State, key: nat)
    requires s'.registrations == s.registrations && s'.leases == s.leases && s'.activeFor == s.activeFor && key !in s.buffers
    ensures EndsThose(s, s', OfBuffer(s, key), STALE, Ascii("memory reallocated under new generation"))
  {
  }

  lemma BufferEnds(s: State, s0: State, s': State, order: seq<nat>, key: nat)
    requires s0 == s.(nextBuffer := s0.nextBuffer) && key in s.buffers && Enumerates(order, s.registrations)
    requires s'.registrations == InvalidateAll(s0, order, Reallocated(key)).registrations
    requires s'.leases == s.leases && s'.activeFor == s.activeFor
    ensures EndsThose(s, s', OfBuffer(s, key), STALE, Ascii("memory reallocated under new generation"))
  {
    hide InvalidateAll;
    InvalidateAllEffect(s0, order, Reallocated(key));
  }

  // ---- deregistration -----------------------------------------------------------------------------------

  /** A registration without leases that is not already being taken down. */
  predicate Deregisters(s: State, id: nat) {
    && id in s.registrations && s.registrations[id].leaseCount == 0
    && s.registrations[id].lifecycle in {ACTIVE, REGISTERED, REVOKED, STALE, REVALIDATION_REQUIRED}
  }

  /** The backend of the record is attached. */
  predicate Behind(s: State, rec: RegistrationRecord) {
    s.attached && rec.backend == SYNTHETIC_ID
  }

  /** Refused, failed because the backend does not know the handle, or taken out of every table of both. */
  lemma DeregisterExact(w: World, id: nat)
    ensures var w' := Step(w, Deregistering(id));
            if !Deregisters(w.s, id) then w' == w else
              var rec := w.s.registrations[id];
              if Behind(w.s, rec) && rec.handle !in w.b.entries then
                w' == w.(s := w.s.(registrations := w.s.registrations[id := rec.(lifecycle := FAILED)]))
              else
                && w'.s.registrations == w.s.registrations - {id}
                && w'.s.activeFor == (map k | k in w.s.activeFor && w.s.activeFor[k] != id :: w.s.activeFor[k])
                && w'.s.leases == (map l | l in w.s.leases && w.s.leases[l].registration != id :: w.s.leases[l])
                && TablesOnly(w.s, w'.s) && w'.registering == w.registering && w'.deregistering == w.deregistering
                && (if Behind(w.s, rec)
                    then w'.b == w.b.(entries := w.b.entries - {rec.handle},
                                      regionHandle := w.b.regionHandle - {w.b.entries[rec.handle].grant.region})
                    else w'.b == w.b)
  {
    hide AccountInvalidate;
    if MayDeregister(w.s, id) {
      MarkedSameEnd(w.s, id);
      assert DeregisterCheck(w.s, id).registrations - {id} == w.s.registrations - {id};
    }
  }

  // ---- authority ----------------------------------------------------------------------------------------

  /** A new epoch turns away every caller of the old one, and admits those who state it. */
  lemma EpochFence(w: World, env: Envelope)
    requires Current(w.s.authority, env)
    ensures var snap := Step(w, NextEpoch).s.authority;
            ValidateAuthority(snap, env) == REJECT_STALE_EPOCH && Current(snap, env.(epoch := env.epoch + 1))
  {
  }

  /** A participant's restart: a new epoch and a new boot, both to be stated. */
  lemma RestartFence(w: World, env: Envelope)
    requires Current(w.s.authority, env)
    ensures var snap := Step(w, ParticipantRestart).s.authority;
            && ValidateAuthority(snap, env) == REJECT_STALE_EPOCH
            && ValidateAuthority(snap, env.(epoch := env.epoch + 1)) == REJECT_STALE_BOOT
            && Current(snap, env.(epoch := env.epoch + 1, workerBoot := env.workerBoot + 1))
  {
  }

  /** And no registration of an earlier boot can be reused under it. */
  lemma RestartForbidsReuse(w: World, id: nat, d: BufferDescriptor, backend: nat, domain: nat, env: Envelope)
    requires id in w.s.registrations && w.s.registrations[id].id == id && w.s.registrations[id].boot <= w.s.authority.workerBoot
    requires forall k :: k in w.s.registrations ==> w.s.registrations[k].id == k
    ensures Reuse(Step(w, ParticipantRestart).s, d, backend, domain, env) != Ok(id)
  {
    hide Superset;
  }
}
