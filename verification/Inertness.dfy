/**
 * What becomes of recovered registrations: none is usable, and one is replaced exactly when
 * a new registration is entered under its identity, which can happen exactly to those whose
 * identity the runtime has not given out yet.
 */
module Inertness {
  import opened Records
  import opened Checks
  import opened BackendModel
  import opened Runtime
  import opened Recovery
  import opened Worlds
  import opened Evolution
  import opened StepFrames
  import opened Examples

  // ---- nothing recovered is usable -------------------------------------------------------------------------

  /** The registration awaits revalidation, or the attempt to deregister it is under way or has failed. */
  predicate Inert(rec: RegistrationRecord) {
    && rec.freshness == FRESH_REVALIDATION_REQUIRED
    && (rec.lifecycle.REVALIDATION_REQUIRED? || rec.lifecycle.DEREGISTERING? || rec.lifecycle.FAILED?)
  }

  lemma RecoveredIsInert(s: State, p: PersistableState, i: nat)
    requires i < |p.registrations|
    ensures var s' := Recover(s, p);
            p.registrations[i].id in s'.registrations && Inert(s'.registrations[p.registrations[i].id])
  {
    hide Recover, RecoverBuffers, RecoverDomains, RecoverRegistrations;
    var id := p.registrations[i].id;
    RecoverFrame(s, p);
    RecoverRegistrationsAt(s, p.registrations, id);
    assert p.registrations[i] in p.registrations;
  }

  /** No access, no lease, no reuse, no revocation and no rotation. */
  lemma InertIsUnusable(s: State, b: Backend, id: nat, q: Request, env: Envelope, needed: Mask, d: BufferDescriptor, backend: nat, domain: nat)
    requires id in s.registrations && Inert(s.registrations[id]) && Ranged(q)
    ensures q.registration == id ==> Access(s, b, q) != ALLOW
    ensures AcquireLease(s, id, env, needed) == s
    ensures d.id in s.activeFor && s.activeFor[d.id] == id ==> Reuse(s, d, backend, domain, env).Err?
    ensures RotateRegistration(s, b, id) == (s, b) && SoftRevoke(s, id) == s
    ensures forall order :: HardRevoke(s, id, order) == s
  {
    hide ValidateAuthority, Superset, Has, QueryRemoteAccess, RangeInside;
  }

  predicate InertAt(s: State, id: nat) {
    id in s.registrations ==> Inert(s.registrations[id])
  }

  lemma BulkInert(s: State, s': State, order: seq<nat>, c: Cause, id: nat)
    requires InertAt(s, id) && s'.registrations == InvalidateAll(s, order, c).registrations
    ensures InertAt(s', id)
  {
    hide InvalidateAll;
    InvalidateAllFrame(s, order, c);
    if id in s.registrations {
      InvalidateAllAt(s, order, c, id);
    }
  }

  lemma BulkStepInert(w: World, op: Op, id: nat)
    requires Proper(op) && InertAt(w.s, id) && (op.DropDomain? || op.NewBuffer?)
    ensures InertAt(Step(w, op).s, id)
  {
    hide InvalidateAll, Enumerates, Decrement, InertAt;
    match op
    case DropDomain(d, order) =>
      InvalidateAllFrame(w.s, order, DomainDestroyed(d));
      BulkInert(w.s, InvalidateAll(w.s, order, DomainDestroyed(d)), order, DomainDestroyed(d), id);
      SameInert(InvalidateAll(w.s, order, DomainDestroyed(d)), Step(w, op).s, id);
      SameInert(w.s, Step(w, op).s, id);
    case NewBuffer(d, order) =>
      var key := BufferKey(w.s, d);
      var s0 := if d.id != 0 then w.s else w.s.(nextBuffer := w.s.nextBuffer + 1);
      SameInert(w.s, s0, id);
      InvalidateAllFrame(s0, order, Reallocated(key));
      BulkInert(s0, InvalidateAll(s0, order, Reallocated(key)), order, Reallocated(key), id);
      SameInert(InvalidateAll(s0, order, Reallocated(key)), Step(w, op).s, id);
      SameInert(w.s, Step(w, op).s, id);
  }

  lemma SameInert(s: State, s': State, id: nat)
    ensures s'.registrations == s.registrations && InertAt(s, id) ==> InertAt(s', id)
  {
  }

  lemma RecordsInert(w: World, op: Op, id: nat)
    requires Proper(op) && InertAt(w.s, id)
    requires op.Leasing? || op.Returning? || op.Revoking? || op.SoftRevoking? || op.Rotating?
    ensures InertAt(Step(w, op).s, id)
  {
    hide RevokeLeases, ValidateAuthority, Superset, GrantedLease, RotatedRecord, RotateKey, Enumerates;
    match op
    case Revoking(k, order) =>
      if Revocable(w.s, k) {
        var r := RevokedRecord(w.s.registrations[k]);
        RevokeLeasesFrame(w.s.(registrations := w.s.registrations[k := r]), order, k);
      }
    case _ =>
  }

  lemma CallsInert(w: World, op: Op, id: nat)
    requires Proper(op) && InertAt(w.s, id) && !Enters(w, op, id)
    requires op.Registering? || op.CheckRegister? || op.CallRegister? || op.CommitRegister?
    ensures InertAt(Step(w, op).s, id)
  {
    hide RegisterMiss, CanRegister, GrantFor, AccountCommit;
  }

  lemma DeregistersInert(w: World, op: Op, id: nat)
    requires Proper(op) && InertAt(w.s, id)
    requires op.Deregistering? || op.CheckDeregister? || op.CallDeregister? || op.CommitDeregister?
    ensures InertAt(Step(w, op).s, id)
  {
    hide DeregisterCommit, DeregisterFail, Release, InertAt;
    var marked := if op.Deregistering? && MayDeregister(w.s, op.id) then DeregisterCheck(w.s, op.id) else w.s;
    MarkedInert(w.s, op.id, id);
    EndsInert(w.s, op.id, id);
    EndsInert(marked, op.id, id);
  }

  lemma MarkedInert(s: State, k: nat, id: nat)
    requires InertAt(s, id)
    ensures MayDeregister(s, k) ==> InertAt(DeregisterCheck(s, k), id)
  {
  }

  lemma EndsInert(s: State, k: nat, id: nat)
    requires InertAt(s, id)
    ensures InertAt(DeregisterCommit(s, k), id) && InertAt(DeregisterFail(s, k), id)
  {
    hide AccountInvalidate;
  }

  /** Until a new registration is committed under the same identity, a recovered one stays inert or disappears. */
  lemma StaysInert(w: World, op: Op, id: nat)
    requires Proper(op) && InertAt(w.s, id) && !Enters(w, op, id)
    ensures InertAt(Step(w, op).s, id)
  {
    hide InertAt, Step, Enters, Recover;
    if !Orderly(w, op) {
      Unordered(w, op);
    } else if Quiet(op) {
      QuietFrame(w, op);
      SameInert(w.s, Step(w, op).s, id);
    } else if op.DropDomain? || op.NewBuffer? {
      BulkStepInert(w, op, id);
    } else if op.Leasing? || op.Returning? || op.Revoking? || op.SoftRevoking? || op.Rotating? {
      RecordsInert(w, op, id);
    } else if op.Registering? || op.CheckRegister? || op.CallRegister? || op.CommitRegister? {
      CallsInert(w, op, id);
    } else if op.Recovering? {
      RecoveringInert(w, op.p, id);
    } else {
      DeregistersInert(w, op, id);
    }
  }

  lemma RecoveringInert(w: World, p: PersistableState, id: nat)
    requires InertAt(w.s, id)
    ensures InertAt(Step(w, Recovering(p)).s, id)
  {
    hide Recover, RecoverBuffers, RecoverDomains, RecoverRegistrations;
    RecoverFrame(w.s, p);
    RecoverRegistrationsAt(w.s, p.registrations, id);
  }

  /** An inert registration stops being inert exactly when another is entered under its identity; it is then active. */
  lemma InertExact(w: World, op: Op, id: nat)
    requires OwnIdentities(w) && Proper(op) && id in w.s.registrations && Inert(w.s.registrations[id])
    ensures InertAt(Step(w, op).s, id) <==> !Enters(w, op, id)
    ensures Enters(w, op, id) ==> id in Step(w, op).s.registrations && Step(w, op).s.registrations[id].lifecycle.ACTIVE?
  {
    hide Step, RegisterMiss, InertAt, OwnIdentities;
    if Enters(w, op, id) {
      EnteredIsActive(w, op, id);
      ActiveNotInert(Step(w, op).s, id);
    } else {
      InertHere(w.s, id);
      StaysInert(w, op, id);
    }
  }

  lemma InertHere(s: State, id: nat)
    ensures id in s.registrations && Inert(s.registrations[id]) ==> InertAt(s, id)
  {
  }

  lemma ActiveNotInert(s: State, id: nat)
    requires id in s.registrations && s.registrations[id].lifecycle.ACTIVE?
    ensures !InertAt(s, id)
  {
  }

  // ---- identities already given out ------------------------------------------------------------------------

  /** Register calls in flight carry identities that have been given out, each its own. */
  ghost predicate OwnIdentities(w: World) {
    forall n :: n in w.registering ==> w.registering[n].rec.id == n < w.s.nextRegistration
  }

  /** The identity has been given out, and no call in flight will use it. */
  ghost predicate Settled(w: World, id: nat) {
    id < w.s.nextRegistration && id !in w.registering
  }

  ghost predicate Numbered(w: World, w': World) {
    && w.s.nextRegistration <= w'.s.nextRegistration
    && (forall n :: n in w'.registering ==> (n in w.registering && w'.registering[n].rec == w.registering[n].rec)
                                            || (w'.registering[n].rec.id == n && w.s.nextRegistration <= n < w'.s.nextRegistration))
  }

  lemma SameNumbers(w: World, w': World)
    requires w'.registering == w.registering && w'.s.nextRegistration == w.s.nextRegistration
    ensures Numbered(w, w')
  {
  }

  lemma TablesNumbered(w: World, op: Op)
    requires Proper(op) && (op.DropDomain? || op.NewBuffer? || op.Revoking? || op.Recovering?)
    ensures Numbered(w, Step(w, op))
  {
    hide InvalidateAll, RevokeLeases, Recover, Enumerates, Decrement, RecoverBuffers, RecoverDomains, RecoverRegistrations, CreateBuffer;
    match op {
      case DropDomain(d, order) => InvalidateAllFrame(w.s, order, DomainDestroyed(d));
      case NewBuffer(d, order) => NewBufferFrame(w.s, d, order);
      case Revoking(id, order) =>
        if Revocable(w.s, id) {
          var r := RevokedRecord(w.s.registrations[id]);
          RevokeLeasesFrame(w.s.(registrations := w.s.registrations[id := r]), order, id);
        }
      case Recovering(p) => RecoverFrame(w.s, p);
    }
    SameNumbers(w, Step(w, op));
  }

  lemma RecordsNumbered(w: World, op: Op)
    requires Proper(op) && (op.Leasing? || op.Returning? || op.SoftRevoking? || op.Rotating?)
    ensures Numbered(w, Step(w, op))
  {
    hide LeaseMissReason, GrantedLease, RotateKey, RotatedRecord, Numbered;
    match op {
      case Leasing(id, env, needed) =>
        if LeaseMissReason(w.s, id, env, needed).None? {
          CanLease(w.s, id, env, needed);
        }
      case _ =>
    }
    SameNumbers(w, Step(w, op));
  }

  lemma DeregistersNumbered(w: World, op: Op)
    requires Proper(op) && (op.CheckDeregister? || op.CallDeregister? || op.CommitDeregister? || op.Deregistering?)
    ensures Numbered(w, Step(w, op))
  {
    hide AccountInvalidate, Release, Numbered;
    SameNumbers(w, Step(w, op));
  }

  lemma CallsNumbered(w: World, op: Op)
    requires Proper(op) && (op.CallRegister? || op.CommitRegister?)
    ensures Numbered(w, Step(w, op))
  {
    hide RegisterBuffer, CommittedRecord, AccountCommit;
  }

  lemma ChecksNumbered(w: World, op: Op)
    requires Proper(op) && (op.CheckRegister? || op.Registering?)
    ensures Numbered(w, Step(w, op))
  {
    hide RegisterMiss, RegisterBuffer, BegunRecord, CommittedRecord, AccountCommit;
    if Passes(w, op.d, op.backend, op.domain, op.env) {
      CheckedFirst(w.s, w.b, op.d, op.backend, op.domain, op.env);
    }
  }

  lemma StepNumbered(w: World, op: Op)
    requires Proper(op)
    ensures Numbered(w, Step(w, op))
  {
    hide Numbered, Step;
    Kinds(op);
    if Quiet(op) {
      QuietFrame(w, op);
      SameNumbers(w, Step(w, op));
    } else if op.DropDomain? || op.NewBuffer? || op.Revoking? || op.Recovering? {
      TablesNumbered(w, op);
    } else if op.Leasing? || op.Returning? || op.SoftRevoking? || op.Rotating? {
      RecordsNumbered(w, op);
    } else if op.CallRegister? || op.CommitRegister? {
      CallsNumbered(w, op);
    } else if op.CheckRegister? || op.Registering? {
      ChecksNumbered(w, op);
    } else {
      DeregistersNumbered(w, op);
    }
  }

  /** A settled identity is entered by no step. */
  lemma SettledIsNotEntered(w: World, op: Op, id: nat)
    requires OwnIdentities(w) && Settled(w, id)
    ensures !Enters(w, op, id)
  {
  }

  /** In every run, further recoveries included, a settled recovered registration stays inert or disappears. */
  lemma {:induction false} SettledStaysInert(w: World, ops: seq<Op>, id: nat)
    requires AllProper(ops) && OwnIdentities(w) && Settled(w, id) && InertAt(w.s, id)
    ensures InertAt(Run(w, ops).s, id) && Settled(Run(w, ops), id)
    decreases |ops|
  {
    hide Step, InertAt;
    if ops != [] {
      SettledIsNotEntered(w, ops[0], id);
      StaysInert(w, ops[0], id);
      StepNumbered(w, ops[0]);
      SettledStaysInert(Step(w, ops[0]), ops[1..], id);
    }
  }

  // ---- identities still to come ---------------------------------------------------------------------------

  /** The check passes, and passing it again and again gives out one identity after the other. */
  lemma {:induction false} CountsUpTo(w: World, id: nat, d: BufferDescriptor, backend: nat, domain: nat, env: Envelope)
    requires Passes(w, d, backend, domain, env) && id >= w.s.nextRegistration
    ensures exists ops :: AllProper(ops) && RecoverFree(ops)
              && id in Run(w, ops).s.registrations && Run(w, ops).s.registrations[id].lifecycle.ACTIVE?
    decreases id - w.s.nextRegistration
  {
    hide RegisterMiss, Run, Step;
    var check := CheckRegister(d, backend, domain, env);
    if id == w.s.nextRegistration {
      var enter := Registering(d, backend, domain, env);
      EnteredIsActive(w, enter, id);
      RunFirst(w, enter, []);
      assert Run(w, [enter] + []) == Step(w, enter) by { RunNothing(Step(w, enter)); }
    } else {
      CheckAgain(w, d, backend, domain, env);
      CountsUpTo(Step(w, check), id, d, backend, domain, env);
      var ops :| AllProper(ops) && RecoverFree(ops) && id in Run(Step(w, check), ops).s.registrations
                 && Run(Step(w, check), ops).s.registrations[id].lifecycle.ACTIVE?;
      RunFirst(w, check, ops);
      assert Run(w, [check] + ops) == Run(Step(w, check), ops);
    }
  }

  lemma RunNothing(w: World)
    ensures Run(w, []) == w
  {
  }

  lemma CheckAgain(w: World, d: BufferDescriptor, backend: nat, domain: nat, env: Envelope)
    requires Passes(w, d, backend, domain, env)
    ensures var w' := Step(w, CheckRegister(d, backend, domain, env));
            Passes(w', d, backend, domain, env) && w'.s.nextRegistration == w.s.nextRegistration + 1
  {
    hide CanRegister, ValidateRange, ValidateAuthority, BegunRecord;
  }

  // ---- a passing check can be arranged in any state -----------------------------------------------------------

  /** A number above all of a set. */
  ghost function Above(a: set<nat>): (n: nat)
    ensures n > 0 && forall k :: k in a ==> k < n
  {
    if a == {} then 1 else
      var x :| x in a;
      var n := Above(a - {x});
      assert forall k :: k in a ==> k == x || k in a - {x};
      n + x
  }

  lemma {:induction false} SomeOrder<V>(m: map<nat, V>)
    ensures exists order :: Enumerates(order, m)
    decreases |m|
  {
    if m == map[] {
      assert Enumerates([], m);
    } else {
      var k :| k in m;
      SomeOrder(m - {k});
      var order :| Enumerates(order, m - {k});
      EnumeratesMore(order, m, k);
    }
  }

  lemma EnumeratesMore<V>(order: seq<nat>, m: map<nat, V>, k: nat)
    requires k in m && Enumerates(order, m - {k})
    ensures Enumerates(order + [k], m)
  {
    assert k !in order;
    assert forall i :: 0 <= i < |order| ==> (order + [k])[i] == order[i] && order[i] in order;
  }

  /** The world as five ordinary calls leave it: authority, backend, profile, a new domain and a new page. */
  ghost function Prepared(w: World, page: nat, order: seq<nat>): World {
    Step(Step(Step(Step(Step(w, SetTo(RIGHTFUL)), Attach), Calling(DoConfigure(DEFAULT_PROFILE))), NewDomain(1, 1)),
         NewBuffer(Page(page, 1), order))
  }

  lemma PreparedPasses(w: World, page: nat, order: seq<nat>)
    requires page != 0 && page !in w.s.buffers && page !in w.s.activeFor && Enumerates(order, w.s.registrations)
    ensures var w' := Prepared(w, page, order);
            && Passes(w', Page(page, 1), SYNTHETIC_ID, w.s.nextDomain, CALLER)
            && w'.s.nextRegistration == w.s.nextRegistration
  {
    hide CanRegister, ValidateRange, InvalidateAll, Enumerates;
    PageSupported(page, 1);
  }

  /** From any state, a run gives out identities up to `id` and enters a registration under it. */
  lemma ReachesAnyIdentity(w: World, id: nat)
    requires id >= w.s.nextRegistration
    ensures exists ops :: AllProper(ops) && RecoverFree(ops)
              && id in Run(w, ops).s.registrations && Run(w, ops).s.registrations[id].lifecycle.ACTIVE?
  {
    hide Run, Step, Enumerates, Prepared;
    var page := Above(w.s.buffers.Keys + w.s.activeFor.Keys);
    assert page !in w.s.buffers.Keys + w.s.activeFor.Keys;
    SomeOrder(w.s.registrations);
    var order :| Enumerates(order, w.s.registrations);
    assert page !in w.s.buffers && page !in w.s.activeFor;
    PreparedPasses(w, page, order);
    var w' := Prepared(w, page, order);
    CountsUpTo(w', id, Page(page, 1), SYNTHETIC_ID, w.s.nextDomain, CALLER);
    var ops :| AllProper(ops) && RecoverFree(ops)
               && id in Run(w', ops).s.registrations && Run(w', ops).s.registrations[id].lifecycle.ACTIVE?;
    PreparedFirst(w, page, order, ops);
  }

  lemma PreparedFirst(w: World, page: nat, order: seq<nat>, ops: seq<Op>)
    requires AllProper(ops) && RecoverFree(ops)
    ensures exists all :: AllProper(all) && RecoverFree(all) && Run(w, all) == Run(Prepared(w, page, order), ops)
  {
    hide Run, Step;
    var a, b, c: Op, d, e := SetTo(RIGHTFUL), Attach, Calling(DoConfigure(DEFAULT_PROFILE)), NewDomain(1, 1), NewBuffer(Page(page, 1), order);
    var w1 := Step(w, a);
    var w2 := Step(w1, b);
    var w3 := Step(w2, c);
    var w4 := Step(w3, d);
    RunFirst(w4, e, ops);
    RunFirst(w3, d, [e] + ops);
    RunFirst(w2, c, [d] + ([e] + ops));
    RunFirst(w1, b, [c] + ([d] + ([e] + ops)));
    RunFirst(w, a, [b] + ([c] + ([d] + ([e] + ops))));
    var all := [a] + ([b] + ([c] + ([d] + ([e] + ops))));
    assert Run(w, all) == Run(Prepared(w, page, order), ops);
  }

  /**
   * Some run replaces a recovered registration by an active one exactly when its identity
   * has not been given out yet, which can be told from the identity counter.
   */
  lemma OverwrittenExactly(w: World, id: nat)
    requires OwnIdentities(w) && id !in w.registering && id in w.s.registrations && Inert(w.s.registrations[id])
    ensures (exists ops :: AllProper(ops) && id in Run(w, ops).s.registrations && Run(w, ops).s.registrations[id].lifecycle.ACTIVE?)
       <==> id >= w.s.nextRegistration
  {
    hide Run, OwnIdentities, Inert;
    if id >= w.s.nextRegistration {
      ReachesAnyIdentity(w, id);
    } else if ops :| AllProper(ops) && id in Run(w, ops).s.registrations && Run(w, ops).s.registrations[id].lifecycle.ACTIVE? {
      InertHere(w.s, id);
      SettledStaysInert(w, ops, id);
      ActiveNotInert(Run(w, ops).s, id);
    }
  }

  lemma {:induction false} RunOwns(w: World, ops: seq<Op>)
    requires AllProper(ops) && OwnIdentities(w)
    ensures OwnIdentities(Run(w, ops))
    decreases |ops|
  {
    hide Step;
    if ops != [] {
      StepNumbered(w, ops[0]);
      RunOwns(Step(w, ops[0]), ops[1..]);
    }
  }

  /** So right after any recovery, in any run: the recovered identities still to come are the ones at risk. */
  lemma RecoveredAtRisk(seed: nat, ops: seq<Op>, p: PersistableState, i: nat)
    requires AllProper(ops) && i < |p.registrations|
    requires p.registrations[i].id !in Run(Start(seed), ops).registering
    ensures var w := Step(Run(Start(seed), ops), Recovering(p));
            var id := p.registrations[i].id;
            (exists more :: AllProper(more) && id in Run(w, more).s.registrations && Run(w, more).s.registrations[id].lifecycle.ACTIVE?)
            <==> id >= Run(Start(seed), ops).s.nextRegistration
  {
    hide Run, Step, OwnIdentities, Inert;
    var w0 := Run(Start(seed), ops);
    var w := Step(w0, Recovering(p));
    StartOwns(seed);
    RunOwns(Start(seed), ops);
    RecoveryFrames(w0, p, i);
    RunOwnsStep(w0, Recovering(p));
    OverwrittenExactly(w, p.registrations[i].id);
  }

  lemma StartOwns(seed: nat)
    ensures OwnIdentities(Start(seed))
  {
  }

  lemma RunOwnsStep(w: World, op: Op)
    requires OwnIdentities(w) && Proper(op)
    ensures OwnIdentities(Step(w, op))
  {
    hide Step;
    StepNumbered(w, op);
  }

  lemma RecoveryFrames(w: World, p: PersistableState, i: nat)
    requires i < |p.registrations|
    ensures var (w', id) := (Step(w, Recovering(p)), p.registrations[i].id);
            && w'.registering == w.registering && w'.s.nextRegistration == w.s.nextRegistration
            && id in w'.s.registrations && Inert(w'.s.registrations[id])
  {
    hide Recover, RecoverBuffers, RecoverDomains, RecoverRegistrations;
    RecoverFrame(w.s, p);
    RecoveredIsInert(w.s, p, i);
  }
}
