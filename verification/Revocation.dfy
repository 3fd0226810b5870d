/**
 * What revocation achieves over whole runs: a hard revocation is final, a soft one that
 * meets outstanding leases never completes; and the index from buffers to registrations
 * never points at nothing.
 */
module Revocation {
  import opened Records
  import opened Checks
  import opened Words
  import opened BackendModel
  import opened Runtime
  import opened Recovery
  import opened Worlds
  import opened Evolution

  // ---- hard revocation ----------------------------------------------------------------------------

  /**
   * After a hard revocation the buffer's slot is free at once, and whatever is interleaved
   * afterwards, the identity is never usable again and its key has moved on for good.
   */
  lemma HardRevocationIsFinal(w: World, id: nat, order: seq<nat>, ops: seq<Op>)
    requires Tidy(w) && Revocable(w.s, id) && AllProper(ops) && RecoverFree(ops)
    ensures var w1, k := w.(s := HardRevoke(w.s, id, order)), w.s.registrations[id].remoteKey.keyGeneration;
            && w.s.registrations[id].bufferId !in w1.s.activeFor
            && Unusable(Run(w1, ops), id) && KeyPassed(Run(w1, ops), id, k)
  {
    hide Tidy, Run, Unusable, RevokeLeases;
    var r := RevokedRecord(w.s.registrations[id]);
    var w1 := w.(s := HardRevoke(w.s, id, order));
    RevokeLeasesFrame(w.s.(registrations := w.s.registrations[id := r]), order, id);
    RevokingStep(w, id, order);
    NotInFlight(w, id);
    StaleStaysStale(w1, ops, id);
    RunEvolves(w1, ops);
    PassedStays(w1, Run(w1, ops), id, w.s.registrations[id].remoteKey.keyGeneration);
  }

  lemma NotInFlight(w: World, id: nat)
    requires Tidy(w) && id in w.s.registrations
    ensures id < w.s.nextRegistration && id !in w.registering
  {
  }

  lemma PassedStays(w: World, w': World, id: nat, k: nat)
    requires Tidy(w) && Evolves(w, w') && KeyPassed(w, id, k)
    ensures KeyPassed(w', id, k)
  {
  }

  // ---- soft revocation ------------------------------------------------------------------------------

  /** The registration is being revoked, with its leases outstanding. */
  predicate Draining(s: State, id: nat) {
    id in s.registrations && s.registrations[id].lifecycle.REVOKING?
  }

  lemma SameDraining(s: State, s': State, id: nat)
    requires Draining(s, id) && s'.registrations == s.registrations
    ensures Draining(s', id)
  {
  }

  lemma BulkDrains(s: State, order: seq<nat>, c: Cause, id: nat)
    requires Draining(s, id)
    ensures Draining(InvalidateAll(s, order, c), id)
  {
    InvalidateAllAt(s, order, c, id);
  }

  lemma TablesDrain(w: World, op: Op, id: nat)
    requires Proper(op) && Orderly(w, op) && Draining(w.s, id) && (op.DropDomain? || op.NewBuffer?)
    ensures Draining(Step(w, op).s, id)
  {
    hide InvalidateAll, Enumerates, Decrement, Draining;
    match op
    case DropDomain(d, order) =>
      BulkDrains(w.s, order, DomainDestroyed(d), id);
      if d in w.s.domains {
        SameDraining(InvalidateAll(w.s, order, DomainDestroyed(d)), Step(w, op).s, id);
      }
    case NewBuffer(d, order) =>
      var key := BufferKey(w.s, d);
      var s0 := if d.id != 0 then w.s else w.s.(nextBuffer := w.s.nextBuffer + 1);
      SameDraining(w.s, s0, id);
      BulkDrains(s0, order, Reallocated(key), id);
      if !CreateRefused(w.s, d) && key in w.s.buffers {
        SameDraining(InvalidateAll(s0, order, Reallocated(key)), Step(w, op).s, id);
      } else {
        SameDraining(w.s, Step(w, op).s, id);
      }
  }

  /** Returning the last lease does not move the registration on. */
  lemma RecordsDrain(w: World, op: Op, id: nat)
    requires Proper(op) && Draining(w.s, id)
    requires op.Leasing? || op.Returning? || op.SoftRevoking? || op.Rotating?
    ensures Draining(Step(w, op).s, id)
  {
    hide ValidateAuthority, Superset, GrantedLease, RotateKey, Xor64;
  }

  lemma RevokingDrains(w: World, k: nat, order: seq<nat>, id: nat)
    requires Draining(w.s, id)
    ensures Draining(HardRevoke(w.s, k, order), id)
  {
    hide RevokeLeases;
    if Revocable(w.s, k) {
      var r := RevokedRecord(w.s.registrations[k]);
      RevokeLeasesFrame(w.s.(registrations := w.s.registrations[k := r]), order, k);
    }
  }

  lemma CallsDrain(w: World, op: Op, id: nat)
    requires Tidy(w) && Proper(op) && Draining(w.s, id)
    requires op.CheckRegister? || op.CallRegister? || op.CommitRegister? || op.Registering?
    ensures Draining(Step(w, op).s, id)
  {
    hide RegisterMiss, CanRegister, GrantFor, AccountCommit, Tidy;
    ApartFromCalls(w, id);
  }

  /** No call in flight concerns a registration that is being revoked. */
  lemma ApartFromCalls(w: World, id: nat)
    requires Tidy(w) && Draining(w.s, id)
    ensures id < w.s.nextRegistration && id !in w.deregistering
    ensures forall k :: k in w.registering ==> w.registering[k].rec.id != id
  {
  }

  /** Deregistration refuses it, and never reaches it. */
  lemma DeregistersDrain(w: World, op: Op, id: nat)
    requires Tidy(w) && Proper(op) && Draining(w.s, id)
    requires op.CheckDeregister? || op.CallDeregister? || op.CommitDeregister? || op.Deregistering?
    ensures Draining(Step(w, op).s, id)
  {
    hide AccountInvalidate, Release, DeregisterCall, Tidy;
    ApartFromCalls(w, id);
    if op.Deregistering? {
      DeregisterEnds(w, op.id);
    }
  }

  lemma StepDrains(w: World, op: Op, id: nat)
    requires Tidy(w) && Proper(op) && !op.Recovering? && Draining(w.s, id)
    ensures Draining(Step(w, op).s, id)
  {
    hide Tidy, Draining, Step, HardRevoke;
    if !Orderly(w, op) {
      Unordered(w, op);
    } else if Quiet(op) {
      QuietFrame(w, op);
      SameDraining(w.s, Step(w, op).s, id);
    } else if op.DropDomain? || op.NewBuffer? {
      TablesDrain(w, op, id);
    } else if op.Revoking? {
      RevokingDrains(w, op.id, op.order, id);
      RevokingIs(w, op);
    } else if op.Leasing? || op.Returning? || op.SoftRevoking? || op.Rotating? {
      RecordsDrain(w, op, id);
    } else if op.CheckRegister? || op.CallRegister? || op.CommitRegister? || op.Registering? {
      CallsDrain(w, op, id);
    } else {
      DeregistersDrain(w, op, id);
    }
  }

  lemma RevokingIs(w: World, op: Op)
    requires op.Revoking? && Orderly(w, op)
    ensures Step(w, op) == w.(s := HardRevoke(w.s, op.id, op.order))
  {
  }

  /**
   * A registration softly revoked while leases are outstanding stays REVOKING in every
   * recover-free run: no release of a lease, no second revocation, no deregistration, no
   * reallocation and no destruction of its domain moves it on.
   */
  lemma {:induction false} RevokingForever(w: World, ops: seq<Op>, id: nat)
    requires Tidy(w) && AllProper(ops) && RecoverFree(ops) && Draining(w.s, id)
    ensures Draining(Run(w, ops).s, id)
    decreases |ops|
  {
    hide Step, Tidy, StepsTo, Draining;
    if ops != [] {
      StepMoves(w, ops[0]);
      StepDrains(w, ops[0], id);
      RevokingForever(Step(w, ops[0]), ops[1..], id);
    }
  }

  /** A soft revocation gets there exactly when leases are outstanding. */
  lemma SoftRevocationDrains(s: State, id: nat)
    requires Revocable(s, id)
    ensures Draining(SoftRevoke(s, id), id) <==> s.registrations[id].leaseCount > 0
    ensures SoftRevoke(s, id).registrations[id].freshness == FRESH_STALE
    ensures SoftRevoke(s, id).activeFor == s.activeFor
  {
  }

  // ---- the index -----------------------------------------------------------------------------------------

  /** Every entry of the index names a registration in the table. */
  predicate IndexLive(s: State) {
    forall k :: k in s.activeFor ==> s.activeFor[k] in s.registrations
  }

  lemma GrowingKeepsIndex(s: State, s': State)
    requires IndexLive(s) && s.registrations.Keys <= s'.registrations.Keys
    requires forall k :: k in s'.activeFor ==> k in s.activeFor && s'.activeFor[k] == s.activeFor[k]
    ensures IndexLive(s')
  {
  }

  lemma TablesIndex(w: World, op: Op)
    requires Proper(op) && IndexLive(w.s) && (op.DropDomain? || op.NewBuffer?)
    ensures IndexLive(Step(w, op).s)
  {
    hide InvalidateAll, Enumerates, Decrement, IndexLive;
    match op {
      case DropDomain(d, order) => InvalidateAllFrame(w.s, order, DomainDestroyed(d));
      case NewBuffer(d, order) =>
        InvalidateAllFrame(w.s, order, Reallocated(BufferKey(w.s, d)));
        InvalidateAllFrame(w.s.(nextBuffer := w.s.nextBuffer + 1), order, Reallocated(BufferKey(w.s, d)));
    }
    GrowingKeepsIndex(w.s, Step(w, op).s);
  }

  lemma RecordsIndex(w: World, op: Op)
    requires Proper(op) && IndexLive(w.s)
    requires op.Leasing? || op.Returning? || op.SoftRevoking? || op.Rotating?
    ensures IndexLive(Step(w, op).s)
  {
    hide ValidateAuthority, Superset, GrantedLease, RotateKey, RotatedRecord, IndexLive;
    GrowingKeepsIndex(w.s, Step(w, op).s);
  }

  lemma RevokingIndex(s: State, k: nat, order: seq<nat>)
    requires IndexLive(s)
    ensures IndexLive(HardRevoke(s, k, order))
  {
    hide RevokeLeases, IndexLive;
    if Revocable(s, k) {
      var r := RevokedRecord(s.registrations[k]);
      RevokeLeasesFrame(s.(registrations := s.registrations[k := r]), order, k);
    }
    GrowingKeepsIndex(s, HardRevoke(s, k, order));
  }

  lemma CallsIndex(w: World, op: Op)
    requires Proper(op) && IndexLive(w.s)
    requires op.CheckRegister? || op.CallRegister? || op.CommitRegister? || op.Registering?
    ensures IndexLive(Step(w, op).s)
  {
    hide RegisterMiss, CanRegister, GrantFor, AccountCommit, CommittedRecord, BegunRecord;
  }

  /** Deregistration takes the record and whatever names it. */
  lemma EndsIndex(s: State, id: nat)
    requires IndexLive(s)
    ensures IndexLive(DeregisterCommit(s, id)) && IndexLive(DeregisterFail(s, id))
    ensures MayDeregister(s, id) ==> IndexLive(DeregisterCheck(s, id))
  {
    hide AccountInvalidate;
  }

  lemma DeregistersIndex(w: World, op: Op)
    requires Proper(op) && IndexLive(w.s)
    requires op.CheckDeregister? || op.CallDeregister? || op.CommitDeregister? || op.Deregistering?
    ensures IndexLive(Step(w, op).s)
  {
    hide DeregisterCommit, DeregisterFail, DeregisterCheck, Release, IndexLive;
    EndsIndex(w.s, op.id);
    if MayDeregister(w.s, op.id) {
      EndsIndex(DeregisterCheck(w.s, op.id), op.id);
    }
  }

  lemma RecoveringIndex(s: State, p: PersistableState)
    requires IndexLive(s)
    ensures IndexLive(Recover(s, p))
  {
    hide Recover, RecoverBuffers, RecoverDomains, RecoverRegistrations, IndexLive;
    RecoverFrame(s, p);
    forall id | id in s.registrations ensures id in Recover(s, p).registrations {
      RecoverRegistrationsAt(s, p.registrations, id);
    }
    GrowingKeepsIndex(s, Recover(s, p));
  }

  lemma StepIndex(w: World, op: Op)
    requires Proper(op) && IndexLive(w.s)
    ensures IndexLive(Step(w, op).s)
  {
    hide IndexLive, Step, HardRevoke, Recover;
    if !Orderly(w, op) {
      Unordered(w, op);
    } else if Quiet(op) {
      QuietFrame(w, op);
      GrowingKeepsIndex(w.s, Step(w, op).s);
    } else if op.DropDomain? || op.NewBuffer? {
      TablesIndex(w, op);
    } else if op.Revoking? {
      RevokingIndex(w.s, op.id, op.order);
      RevokingIs(w, op);
    } else if op.Recovering? {
      RecoveringIndex(w.s, op.p);
      RecoveringIs(w, op);
    } else if op.Leasing? || op.Returning? || op.SoftRevoking? || op.Rotating? {
      RecordsIndex(w, op);
    } else if op.CheckRegister? || op.CallRegister? || op.CommitRegister? || op.Registering? {
      CallsIndex(w, op);
    } else {
      DeregistersIndex(w, op);
    }
  }

  lemma RecoveringIs(w: World, op: Op)
    requires op.Recovering?
    ensures Step(w, op) == w.(s := Recover(w.s, op.p))
  {
    hide Recover;
  }

  lemma {:induction false} RunIndex(w: World, ops: seq<Op>)
    requires AllProper(ops) && IndexLive(w.s)
    ensures IndexLive(Run(w, ops).s)
    decreases |ops|
  {
    hide Step, IndexLive;
    if ops != [] {
      StepIndex(w, ops[0]);
      RunIndex(Step(w, ops[0]), ops[1..]);
    }
  }

  /** In every run, interleaved and recovering as it may be, a buffer the index knows has its registration in the table. */
  lemma IndexNeverDangles(seed: nat, ops: seq<Op>, buffer: nat)
    requires AllProper(ops)
    ensures var s := Run(Start(seed), ops).s; buffer in s.activeFor ==> s.activeFor[buffer] in s.registrations
  {
    hide Run;
    RunIndex(Start(seed), ops);
  }
}
