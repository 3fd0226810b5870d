/**
 * The lifecycle table with recovery in it. In every run, steps of `recover` and calls taken
 * apart included, a step takes a registration along the table of can_transition unless it
 * does one of three things, each of which shows before the step.
 */
module Lifecycles {
  import opened Records
  import opened Checks
  import opened BackendModel
  import opened Runtime
  import opened Recovery
  import opened Worlds
  import opened Evolution
  import opened StepFrames

  /** The lifecycles a record in the table has, recovered records included. */
  predicate Tabled(l: Lifecycle) {
    Stored(l) || l.REVALIDATION_REQUIRED?
  }

  ghost predicate AllTabled(regs: map<nat, RegistrationRecord>) {
    forall id :: id in regs ==> Tabled(regs[id].lifecycle)
  }

  /** The lifecycle stays, or takes one or two edges of the table. */
  ghost predicate Follows(from: Lifecycle, to: Lifecycle) {
    from == to || Path(from, to)
  }

  predicate Includes(p: PersistableState, id: nat) {
    exists i :: 0 <= i < |p.registrations| && p.registrations[i].id == id
  }

  /**
   * A recovered record is marked for deregistration, a recovered record no longer awaiting
   * revalidation is overwritten by a new one, or a record that is neither active nor stale is
   * overwritten by a recovered one.
   */
  ghost predicate LeavesTable(w: World, op: Op, id: nat)
    requires id in w.s.registrations
  {
    var l := w.s.registrations[id].lifecycle;
    match op
    case CheckDeregister(k) =>
      k == id && id !in w.deregistering && MayDeregister(w.s, id) && l.REVALIDATION_REQUIRED?
    case Recovering(p) => Includes(p, id) && !(l.ACTIVE? || l.STALE? || l.REVALIDATION_REQUIRED?)
    case _ => Enters(w, op, id) && !(l.ACTIVE? || l.REVALIDATION_REQUIRED?)
  }

  // ---- the table ------------------------------------------------------------------------------------------

  lemma Onwards(l: Lifecycle)
    requires Tabled(l)
    ensures Follows(l, FAILED)
    ensures Follows(ACTIVE, REVOKED) && Follows(ACTIVE, REVOKING) && Follows(ACTIVE, STALE)
    ensures Deregisterable(l) ==> (Follows(l, DEREGISTERING) <==> !l.REVALIDATION_REQUIRED?)
  {
    assert CanTransition(ACTIVE, REVOKING) && CanTransition(REVOKING, REVOKED);
    assert CanTransition(DEREGISTERING, FAILED) && CanTransition(REGISTERING, FAILED);
    assert l.ACTIVE? || l.REVOKED? || l.STALE? ==> CanTransition(l, DEREGISTERING);
    assert l.REVALIDATION_REQUIRED? ==> CanTransition(l, REGISTERING);
  }

  lemma Back(l: Lifecycle)
    requires Tabled(l)
    ensures Follows(l, ACTIVE) <==> l.ACTIVE? || l.REVALIDATION_REQUIRED?
    ensures Follows(l, REVALIDATION_REQUIRED) <==> l.ACTIVE? || l.STALE? || l.REVALIDATION_REQUIRED?
  {
    assert CanTransition(REVALIDATION_REQUIRED, REGISTERING) && CanTransition(REGISTERING, ACTIVE);
    Successors(l);
  }

  /** Which states the table leads to at all. */
  lemma Successors(l: Lifecycle)
    requires Tabled(l)
    ensures forall to :: CanTransition(l, to) ==>
              to.REVOKING? || to.REVOKED? || to.DEREGISTERING? || to.DEREGISTERED? || to.STALE? || to.REVALIDATION_REQUIRED?
              || to.FAILED? || to.UNREGISTERED? || to.REGISTERING?
    ensures forall to :: CanTransition(l, to) && to.STALE? ==> l.ACTIVE?
    ensures forall to :: CanTransition(l, to) && to.REVALIDATION_REQUIRED? ==> l.ACTIVE? || l.STALE?
    ensures forall to :: CanTransition(l, to) && to.REGISTERING? ==> l.REVALIDATION_REQUIRED?
  {
  }

  // ---- where each step leaves the lifecycle ------------------------------------------------------------------

  /** Revocation and invalidation: only a live record changes. */
  predicate Loses(l: Lifecycle, l': Lifecycle) {
    l' == l || ((Live(l) || l.REGISTERING?) && (l'.REVOKED? || l'.STALE? || l'.REVOKING?))
  }

  ghost predicate LosesAt(s: State, s': State, id: nat) {
    id in s'.registrations ==> id in s.registrations && Loses(s.registrations[id].lifecycle, s'.registrations[id].lifecycle)
  }

  lemma SameLoses(s: State, s': State, id: nat)
    requires s'.registrations == s.registrations
    ensures LosesAt(s, s', id)
  {
  }

  lemma BulkLoses(s: State, order: seq<nat>, c: Cause, id: nat)
    ensures LosesAt(s, InvalidateAll(s, order, c), id)
  {
    hide InvalidateAll;
    InvalidateAllFrame(s, order, c);
    if id in s.registrations {
      InvalidateAllAt(s, order, c, id);
    }
  }

  lemma LosesFrom(s: State, t: State, t': State, s': State, id: nat)
    requires LosesAt(t, t', id) && t.registrations == s.registrations && s'.registrations == t'.registrations
    ensures LosesAt(s, s', id)
  {
  }

  lemma DropLoses(s: State, d: nat, order: seq<nat>, id: nat)
    ensures LosesAt(s, DestroyDomain(s, d, order), id)
  {
    hide InvalidateAll, LosesAt, Decrement;
    var t := InvalidateAll(s, order, DomainDestroyed(d));
    SameLoses(s, s, id);
    BulkLoses(s, order, DomainDestroyed(d), id);
    LosesFrom(s, s, if d in s.domains then t else s, DestroyDomain(s, d, order), id);
  }

  lemma ReallocationLoses(s: State, d: BufferDescriptor, order: seq<nat>, id: nat)
    ensures LosesAt(s, CreateBuffer(s, d, order), id)
  {
    hide InvalidateAll, LosesAt, Decrement;
    var c := Reallocated(BufferKey(s, d));
    var s0 := if d.id != 0 then s else s.(nextBuffer := s.nextBuffer + 1);
    BulkLoses(s0, order, c, id);
    SameLoses(s0, s0, id);
    var t := if !CreateRefused(s, d) && BufferKey(s, d) in s.buffers then InvalidateAll(s0, order, c) else s0;
    LosesFrom(s, s0, t, CreateBuffer(s, d, order), id);
  }

  lemma TablesLose(w: World, op: Op, id: nat)
    requires Proper(op) && Orderly(w, op) && (op.DropDomain? || op.NewBuffer?)
    ensures LosesAt(w.s, Step(w, op).s, id)
  {
    hide DestroyDomain, CreateBuffer, Orderly, LosesAt;
    match op
    case DropDomain(d, order) => DropLoses(w.s, d, order, id);
    case NewBuffer(d, order) => ReallocationLoses(w.s, d, order, id);
  }

  lemma RecordsLose(w: World, op: Op, id: nat)
    requires Proper(op) && (op.Leasing? || op.Returning? || op.Revoking? || op.SoftRevoking? || op.Rotating?)
    ensures LosesAt(w.s, Step(w, op).s, id)
  {
    hide RevokeLeases, ValidateAuthority, Superset, GrantedLease, RotateKey, Enumerates;
    match op
    case Revoking(k, order) =>
      if Revocable(w.s, k) {
        var r := RevokedRecord(w.s.registrations[k]);
        RevokeLeasesFrame(w.s.(registrations := w.s.registrations[k := r]), order, k);
      }
    case _ =>
  }

  lemma QuietLoses(w: World, op: Op, id: nat)
    requires Proper(op) && (Quiet(op) || !Orderly(w, op))
    ensures LosesAt(w.s, Step(w, op).s, id)
  {
    hide Step, LosesAt, Orderly;
    if Orderly(w, op) {
      QuietFrame(w, op);
    } else {
      Unordered(w, op);
    }
    SameLoses(w.s, Step(w, op).s, id);
  }

  predicate Plain(op: Op) {
    op.DropDomain? || op.NewBuffer? || op.Leasing? || op.Returning? || op.Revoking? || op.SoftRevoking? || op.Rotating?
  }

  lemma PlainLoses(w: World, op: Op, id: nat)
    requires Proper(op) && (Quiet(op) || !Orderly(w, op) || Plain(op))
    ensures LosesAt(w.s, Step(w, op).s, id)
  {
    hide Step, LosesAt, Orderly;
    if Quiet(op) || !Orderly(w, op) {
      QuietLoses(w, op, id);
    } else if op.DropDomain? || op.NewBuffer? {
      TablesLose(w, op, id);
    } else {
      RecordsLose(w, op, id);
    }
  }

  lemma CallsEnter(w: World, op: Op, id: nat)
    requires Proper(op) && (op.Registering? || op.CheckRegister? || op.CallRegister? || op.CommitRegister?)
    requires id in Step(w, op).s.registrations
    ensures if Enters(w, op, id) then Step(w, op).s.registrations[id].lifecycle == ACTIVE
            else id in w.s.registrations && Step(w, op).s.registrations[id] == w.s.registrations[id]
  {
    hide RegisterMiss, RegisterCall, RegisterBuffer, CommittedRecord, AccountCommit;
    if Enters(w, op, id) {
      EnteredIsActive(w, op, id);
    } else if op.Registering? {
      RegisterEnds(w, op.d, op.backend, op.domain, op.env);
    }
  }

  /** The record stays, disappears or ends FAILED. */
  ghost predicate EndsAt(s: State, s': State, id: nat) {
    id in s'.registrations ==>
      id in s.registrations && s'.registrations[id].lifecycle in {s.registrations[id].lifecycle, FAILED}
  }

  lemma EndingEnds(s: State, k: nat, id: nat)
    ensures EndsAt(s, s, id) && EndsAt(s, DeregisterCommit(s, k), id) && EndsAt(s, DeregisterFail(s, k), id)
  {
    hide AccountInvalidate;
  }

  lemma DeregistersEnd(w: World, op: Op, id: nat)
    requires Proper(op) && (op.Deregistering? || op.CallDeregister? || op.CommitDeregister?)
    ensures EndsAt(w.s, Step(w, op).s, id)
  {
    hide DeregisterCommit, DeregisterFail, EndsAt, Step;
    EndingEnds(w.s, op.id, id);
    DeregisterOutcome(w, op);
  }

  lemma CheckMarks(w: World, k: nat, id: nat)
    requires id in Step(w, CheckDeregister(k)).s.registrations
    ensures id in w.s.registrations
    ensures Step(w, CheckDeregister(k)).s.registrations[id].lifecycle ==
            if k == id && id !in w.deregistering && MayDeregister(w.s, id) then DEREGISTERING
            else w.s.registrations[id].lifecycle
  {
  }

  lemma RecoveryParks(w: World, p: PersistableState, id: nat)
    requires id in Step(w, Recovering(p)).s.registrations
    ensures if Includes(p, id) then Step(w, Recovering(p)).s.registrations[id].lifecycle == REVALIDATION_REQUIRED
            else id in w.s.registrations && Step(w, Recovering(p)).s.registrations[id] == w.s.registrations[id]
  {
    hide Recover, RecoverBuffers, RecoverDomains, RecoverRegistrations;
    RecoverFrame(w.s, p);
    RecoverRegistrationsAt(w.s, p.registrations, id);
    assert Includes(p, id) <==> exists r :: r in p.registrations && r.id == id;
  }

  // ---- the theorem ---------------------------------------------------------------------------------------------

  /** A step follows the table exactly when it does none of the three things, and the table keeps its lifecycles. */
  lemma FollowsExactly(w: World, op: Op, id: nat)
    requires Proper(op) && AllTabled(w.s.registrations)
    requires id in w.s.registrations && id in Step(w, op).s.registrations
    ensures Follows(w.s.registrations[id].lifecycle, Step(w, op).s.registrations[id].lifecycle) <==> !LeavesTable(w, op, id)
  {
    hide Step, Follows, Orderly, Quiet, Enters, LosesAt, MayDeregister, Includes;
    var l := w.s.registrations[id].lifecycle;
    Back(l);
    Stays(l);
    if op.Recovering? {
      RecoveryParks(w, op.p, id);
    } else if op.Registering? || op.CheckRegister? || op.CallRegister? || op.CommitRegister? {
      CallsEnter(w, op, id);
    } else if op.CheckDeregister? {
      MarkFollows(w, op.id, id);
    } else {
      Onwards(l);
      AfterStep(w, op, id);
      NeitherEnters(w, op, id);
    }
  }

  lemma Stays(l: Lifecycle)
    ensures Follows(l, l)
  {
  }

  lemma MarkFollows(w: World, k: nat, id: nat)
    requires AllTabled(w.s.registrations) && id in w.s.registrations && id in Step(w, CheckDeregister(k)).s.registrations
    ensures Follows(w.s.registrations[id].lifecycle, Step(w, CheckDeregister(k)).s.registrations[id].lifecycle)
       <==> !LeavesTable(w, CheckDeregister(k), id)
  {
    hide Step, Follows;
    Stays(w.s.registrations[id].lifecycle);
    Onwards(w.s.registrations[id].lifecycle);
    CheckMarks(w, k, id);
  }

  lemma NeitherEnters(w: World, op: Op, id: nat)
    requires !op.Registering? && !op.CommitRegister?
    ensures !Enters(w, op, id)
  {
  }

  /** The lifecycle a step can leave behind, calls and recovery apart. */
  lemma AfterStep(w: World, op: Op, id: nat)
    requires Proper(op) && id in Step(w, op).s.registrations
    requires id in w.s.registrations ==> Tabled(w.s.registrations[id].lifecycle)
    ensures Tabled(Step(w, op).s.registrations[id].lifecycle)
    ensures !op.Recovering? && !op.Registering? && !op.CommitRegister? && !op.CheckDeregister? ==>
              id in w.s.registrations
              && (var (l, l') := (w.s.registrations[id].lifecycle, Step(w, op).s.registrations[id].lifecycle);
                  l' == l || l'.FAILED? || (l.ACTIVE? && (l'.REVOKED? || l'.STALE? || l'.REVOKING?)))
  {
    hide Step, Orderly, Enters, Quiet;
    Kinds(op);
    if Quiet(op) || !Orderly(w, op) || Plain(op) {
      PlainLoses(w, op, id);
    } else if op.Recovering? {
      RecoveryParks(w, op.p, id);
    } else if op.Registering? || op.CheckRegister? || op.CallRegister? || op.CommitRegister? {
      CallsEnter(w, op, id);
      if op.CheckRegister? || op.CallRegister? {
        CallsAlone(w, op, id);
      }
    } else if op.CheckDeregister? {
      CheckMarks(w, op.id, id);
    } else {
      DeregistersEnd(w, op, id);
    }
  }

  lemma CallsAlone(w: World, op: Op, id: nat)
    requires op.CheckRegister? || op.CallRegister?
    ensures !Enters(w, op, id)
  {
  }

  lemma {:induction false} RunKeeps(w: World, ops: seq<Op>)
    requires AllProper(ops) && AllTabled(w.s.registrations)
    ensures AllTabled(Run(w, ops).s.registrations)
    decreases |ops|
  {
    hide Step, Tabled;
    if ops != [] {
      forall id | id in Step(w, ops[0]).s.registrations ensures Tabled(Step(w, ops[0]).s.registrations[id].lifecycle) {
        AfterStep(w, ops[0], id);
      }
      RunKeeps(Step(w, ops[0]), ops[1..]);
    }
  }

  /** So in every reachable state, recoveries included. */
  lemma LifecycleExact(seed: nat, ops: seq<Op>, op: Op, id: nat)
    requires AllProper(ops) && Proper(op)
    requires var w := Run(Start(seed), ops); id in w.s.registrations && id in Step(w, op).s.registrations
    ensures var w := Run(Start(seed), ops);
            Follows(w.s.registrations[id].lifecycle, Step(w, op).s.registrations[id].lifecycle) <==> !LeavesTable(w, op, id)
  {
    hide Step, Run, Follows, LeavesTable;
    assert AllTabled(Start(seed).s.registrations);
    RunKeeps(Start(seed), ops);
    FollowsExactly(Run(Start(seed), ops), op, id);
  }

  /** Recovering and then deregistering leaves the table, at the first of the two locks. */
  lemma RecoveredLeavesTable(seed: nat, p: PersistableState, id: nat)
    requires Includes(p, id) && forall r :: r in p.registrations ==> r.leaseCount == 0
    ensures var w := Step(Start(seed), Recovering(p));
            var w' := Step(w, CheckDeregister(id));
            && id in w.s.registrations && id in w'.s.registrations && LeavesTable(w, CheckDeregister(id), id)
            && !Follows(w.s.registrations[id].lifecycle, w'.s.registrations[id].lifecycle)
  {
    hide Step, Follows, LeavesTable, MayDeregister;
    var w := Step(Start(seed), Recovering(p));
    RecoveredMay(seed, p, id);
    MarkedThere(w, id);
  }

  lemma MarkedThere(w: World, id: nat)
    requires MayDeregister(w.s, id) && id !in w.deregistering && w.s.registrations[id].lifecycle.REVALIDATION_REQUIRED?
    ensures var (op, regs) := (CheckDeregister(id), Step(w, CheckDeregister(id)).s.registrations);
            id in w.s.registrations && id in regs && LeavesTable(w, op, id) && !Follows(w.s.registrations[id].lifecycle, regs[id].lifecycle)
  {
    hide Follows;
    Onwards(REVALIDATION_REQUIRED);
  }

  lemma RecoveredMay(seed: nat, p: PersistableState, id: nat)
    requires Includes(p, id) && forall r :: r in p.registrations ==> r.leaseCount == 0
    ensures var w := Step(Start(seed), Recovering(p));
            MayDeregister(w.s, id) && w.s.registrations[id].lifecycle.REVALIDATION_REQUIRED? && id !in w.deregistering
  {
    hide Recover, RecoverBuffers, RecoverDomains, RecoverRegistrations;
    assert exists r :: r in p.registrations && r.id == id;
    RecoverFrame(Start(seed).s, p);
    RecoverRegistrationsAt(Start(seed).s, p.registrations, id);
  }
}
