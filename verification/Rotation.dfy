/**
 * Rotating a key: the generation moves on by one in runtime and backend together, what was
 * judged under the old generation is judged the same under the new one, and the old one is
 * refused for good. A hard revocation moves the key on as well.
 */
module Rotation {
  import opened Records
  import opened Checks
  import opened Words
  import opened BackendModel
  import opened Runtime
  import opened Worlds
  import opened Evolution
  import opened Safety
  import opened TwoLayers

  function KeyGeneration(w: World, id: nat): nat
    requires id in w.s.registrations
  {
    w.s.registrations[id].remoteKey.keyGeneration
  }

  /** Everything of a registration but its remote key's generation, opaque value and revocation. */
  predicate SameBesidesKey(r: RegistrationRecord, r': RegistrationRecord) {
    r' == r.(remoteKey := r.remoteKey.(keyGeneration := r'.remoteKey.keyGeneration, opaqueValue := r'.remoteKey.opaqueValue,
                                       revoked := r'.remoteKey.revoked))
  }

  /** The key generation moves on by exactly one, in the record and in the backend's entry; a record that is not live is left alone. */
  lemma RotationExact(w: World, id: nat)
    ensures var w' := Step(w, Rotating(id));
            if !(id in w.s.registrations && w.s.registrations[id].lifecycle in {ACTIVE, REGISTERED}) then w' == w else
              && id in w'.s.registrations && KeyGeneration(w', id) == KeyGeneration(w, id) + 1
              && !w'.s.registrations[id].remoteKey.revoked && SameBesidesKey(w.s.registrations[id], w'.s.registrations[id])
              && w'.s == w.s.(registrations := w.s.registrations[id := w'.s.registrations[id]])
              && w'.registering == w.registering && w'.deregistering == w.deregistering
    ensures var (w', h) := (Step(w, Rotating(id)), if id in w.s.registrations then w.s.registrations[id].handle else []);
            if Revocable(w.s, id) && HasBackend(w.s, w.s.registrations[id].backend) && h != [] && h in w.b.entries then
              && h in w'.b.entries && w'.b == w.b.(entries := w.b.entries[h := w'.b.entries[h]])
              && w'.b.entries[h].keyGeneration == w'.b.entries[h].grant.keyGeneration == KeyGeneration(w, id) + 1
              && !w'.b.entries[h].revalidate
              && w'.b.entries[h] == w.b.entries[h].(keyGeneration := KeyGeneration(w, id) + 1, revalidate := false,
                                                    grant := w.b.entries[h].grant.(keyGeneration := KeyGeneration(w, id) + 1))
            else w'.b == w.b
  {
    hide Xor64;
  }

  /** The opaque value is changed by one fixed mask. */
  lemma RotationMasks(w: World, id: nat)
    requires Revocable(w.s, id)
    ensures var w' := Step(w, Rotating(id));
            id in w'.s.registrations
            && w'.s.registrations[id].remoteKey.opaqueValue == Xor64(w.s.registrations[id].remoteKey.opaqueValue, 0x0101_0101_0101_0101)
  {
    hide Xor64;
  }

  /** Whatever is interleaved after a rotation, the generation before it has passed. */
  lemma RotationPasses(w: World, id: nat, ops: seq<Op>)
    requires Tidy(w) && Revocable(w.s, id) && AllProper(ops) && RecoverFree(ops)
    ensures KeyPassed(Run(Step(w, Rotating(id)), ops), id, KeyGeneration(w, id))
    ensures forall q :: Ranged(q) && q.registration == id && q.expectedKeyGeneration == KeyGeneration(w, id) != 0
                    ==> Access(Run(Step(w, Rotating(id)), ops).s, Run(Step(w, Rotating(id)), ops).b, q) != ALLOW
  {
    hide Run, Access, Step;
    var w1 := Step(w, Rotating(id));
    StepMoves(w, Rotating(id));
    RotationExact(w, id);
    NotInFlight(w, id);
    if KeyGeneration(w, id) != 0 {
      PassedKeyRefused(w1, ops, id, KeyGeneration(w, id));
    } else {
      RunEvolves(w1, ops);
      PassedStays(w1, Run(w1, ops), id, KeyGeneration(w, id));
    }
  }

  lemma NotInFlight(w: World, id: nat)
    requires Tidy(w) && id in w.s.registrations
    ensures id !in w.registering && id < w.s.nextRegistration
  {
  }

  lemma PassedStays(w: World, w': World, id: nat, k: nat)
    requires Tidy(w) && KeyPassed(w, id, k) && Evolves(w, w')
    ensures KeyPassed(w', id, k)
  {
  }

  /** The backend, if it knows the handle, holds the key at the record's generation. */
  predicate InStep(w: World, id: nat)
    requires id in w.s.registrations
  {
    var rec := w.s.registrations[id];
    && !rec.remoteKey.revoked && rec.handle != []
    && (rec.handle in w.b.entries ==> w.b.entries[rec.handle].keyGeneration == rec.remoteKey.keyGeneration
                                      && !w.b.entries[rec.handle].revalidate)
  }

  /** A request that expects the new generation is judged as one that expected the old generation was. */
  lemma RotationJudgesAlike(w: World, id: nat, q: Request)
    requires Revocable(w.s, id) && InStep(w, id) && Ranged(q) && q.registration == id
    requires q.expectedKeyGeneration == KeyGeneration(w, id) != 0
    ensures var w' := Step(w, Rotating(id));
            Access(w'.s, w'.b, q.(expectedKeyGeneration := KeyGeneration(w, id) + 1)) == Access(w.s, w.b, q)
  {
    hide Step, ValidateAuthority, StatusOutcome, CurrencyOutcome, GrantOutcome, QueryRemoteAccess;
    RotationExact(w, id);
    var w' := Step(w, Rotating(id));
    var (r, r') := (w.s.registrations[id], w'.s.registrations[id]);
    var q' := q.(expectedKeyGeneration := KeyGeneration(w, id) + 1);
    OwnAlike(w.s, w.b, r, q, w'.s, w'.b, r', q');
    if HasBackend(w.s, r.backend) {
      EntryAlike(w, id, w', q.kind, q.offset, q.length);
    } else {
      WithoutBackend(w.s, w.b, r, q);
    }
  }

  lemma OwnAlike(s: State, b: Backend, r: RegistrationRecord, q: Request, s': State, b': Backend, r': RegistrationRecord, q': Request)
    requires SameBesidesKey(r, r') && s'.attached == s.attached && b'.generation == b.generation && b'.profile == b.profile
    requires Ranged(q) && q' == q.(expectedKeyGeneration := r'.remoteKey.keyGeneration)
    requires q.expectedKeyGeneration == r.remoteKey.keyGeneration && !r.remoteKey.revoked && !r'.remoteKey.revoked
    ensures StatusOutcome(r') == StatusOutcome(r) && CurrencyOutcome(s', b', r', q') == CurrencyOutcome(s, b, r, q)
    ensures GrantOutcome(b', r', q') == GrantOutcome(b, r, q)
  {
    hide Has, Superset, RangeInside;
  }

  lemma WithoutBackend(s: State, b: Backend, rec: RegistrationRecord, q: Request)
    requires !HasBackend(s, rec.backend)
    ensures CurrencyOutcome(s, b, rec, q) != ALLOW
  {
  }

  lemma EntryAlike(w: World, id: nat, w': World, kind: OperationKind, offset: nat, length: nat)
    requires Revocable(w.s, id) && InStep(w, id) && w' == Step(w, Rotating(id)) && HasBackend(w.s, w.s.registrations[id].backend)
    ensures var (r, k) := (w.s.registrations[id], KeyGeneration(w, id));
            QueryRemoteAccess(w'.b, r.handle, k + 1, kind, offset, length) == QueryRemoteAccess(w.b, r.handle, k, kind, offset, length)
  {
    hide Step, Has, Supports;
    RotationExact(w, id);
  }

  /** And one that still expects the old generation is stale, if it was allowed before. */
  lemma RotatedKeyIsStale(w: World, id: nat, q: Request)
    requires Revocable(w.s, id) && Ranged(q) && q.registration == id
    requires q.expectedKeyGeneration == KeyGeneration(w, id) != 0 && Access(w.s, w.b, q) == ALLOW
    ensures var w' := Step(w, Rotating(id));
            Access(w'.s, w'.b, q) == REJECT_STALE_KEY
            && AccessCounted(w'.s, w'.b, q).acct.staleAccessRejections == w'.s.acct.staleAccessRejections + 1
  {
    hide Step, ValidateAuthority, Has, Superset, RangeInside, GrantOutcome, QueryRemoteAccess;
    RotationExact(w, id);
  }

  /** The world after a transport rollover, as the backend alone goes through it. */
  function RolledOver(w: World): World {
    w.(b := RolloverTransport(w.b))
  }

  /** After a transport rollover every key must be rotated; once it is, what was allowed is allowed again. */
  lemma RotationRestores(w: World, id: nat, q: Request)
    requires Ranged(q) && q.registration == id && q.expectedKeyGeneration == 0 && Revocable(w.s, id)
    requires Joined(w) && Access(w.s, w.b, q) == ALLOW
    ensures Refuses(RolledOver(w), q) && !Refuses(Step(RolledOver(w), Rotating(id)), q)
  {
    hide Step, ValidateAuthority, Has, Superset, RangeInside, Joined, Supports;
    RolloverIs(w);
    RotationExact(RolledOver(w), id);
    HandleGiven(w, id);
  }

  predicate Refuses(w: World, q: Request)
    requires Ranged(q)
  {
    Access(w.s, w.b, q) != ALLOW
  }

  /** That is what the step does. */
  lemma RolloverIs(w: World)
    ensures Step(w, Calling(DoRolloverTransport)) == RolledOver(w)
  {
  }

  lemma HandleGiven(w: World, id: nat)
    requires Joined(w) && Revocable(w.s, id)
    ensures w.s.registrations[id].handle != []
  {
    hide Inverse, Issued, OwnHandles, Linked, Indexed, Placed;
    assert RecordSound(w.s, w.b, id, w.s.registrations[id]);
  }
}
