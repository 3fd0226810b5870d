/**
 * The runtime together with its backend as a transition system. A register or
 * deregister call is either one atomic step or is taken apart where the lock is
 * released: check, backend call, commit, with any other steps in between.
 */
module Worlds {
  import opened Records
  import opened Checks
  import opened BackendModel
  import opened Runtime
  import opened Recovery

  /** A register call whose check has passed; the backend call has granted something or is still to come. */
  datatype RegisterTicket = RegisterTicket(rec: RegistrationRecord, d: BufferDescriptor, grant: Option<Grant>)

  /** A deregister call between its two locks. */
  datatype DeregisterTicket = Checked(backend: nat, handle: Text) | Called(ok: bool)

  datatype World = World(
    s: State,
    b: Backend,
    registering: map<nat, RegisterTicket>,
    deregistering: map<nat, DeregisterTicket>)

  datatype Op =
    | SetTo(snap: AuthoritySnapshot)
    | NextEpoch
    | ParticipantRestart
    | Attach
    | NewDomain(node: nat, process: nat)
    | DropDomain(domain: nat, order: seq<nat>)
    | NewBuffer(d: BufferDescriptor, order: seq<nat>)
    | Reusing(d: BufferDescriptor, backend: nat, domain: nat, env: Envelope)
    | Leasing(id: nat, env: Envelope, needed: Mask)
    | Returning(lease: nat)
    | Accessing(q: Request)
    | Revoking(id: nat, order: seq<nat>)
    | SoftRevoking(id: nat)
    | Rotating(id: nat)
    | Registering(d: BufferDescriptor, backend: nat, domain: nat, env: Envelope)
    | Deregistering(id: nat)
    | CheckRegister(d: BufferDescriptor, backend: nat, domain: nat, env: Envelope)
    | CallRegister(id: nat)
    | CommitRegister(id: nat)
    | CheckDeregister(id: nat)
    | CallDeregister(id: nat)
    | CommitDeregister(id: nat)
    | Recovering(p: PersistableState)
    | Calling(c: Call)

  /** Arguments within the widths of their C++ types. */
  predicate Proper(op: Op) {
    match op
    case NewBuffer(d, _) => Sized(d)
    case Reusing(d, _, _, _) => Sized(d)
    case Registering(d, _, _, _) => Sized(d)
    case CheckRegister(d, _, _, _) => Sized(d)
    case Accessing(q) => Ranged(q)
    case Calling(c) => Admissible(c)
    case _ => true
  }

  // ---- the two calls in one step ---------------------------------------------------------------

  function RegisterCall(w: World, d: BufferDescriptor, backend: nat, domain: nat, env: Envelope): World
    requires Sized(d)
  {
    match RegisterCheck(w.s, w.b, d, backend, domain, env)
    case Err(_) => w
    case Ok((s1, rec)) =>
      match RegisterBuffer(w.b, d)
      case Err(_) => w.(s := s1)
      case Ok((b1, g)) => w.(s := RegisterCommit(s1, rec, g), b := b1)
  }

  function DeregisterCall(w: World, id: nat): World {
    if !MayDeregister(w.s, id) then w else
      var rec := w.s.registrations[id];
      var s1 := DeregisterCheck(w.s, id);
      match DeregisterBackend(s1, w.b, rec.backend, rec.handle)
      case None => w.(s := DeregisterFail(s1, id))
      case Some(b1) => w.(s := DeregisterCommit(s1, id), b := b1)
  }

  /** The three ways a deregister call can end. */
  lemma DeregisterEnds(w: World, id: nat)
    ensures var (w', regs) := (DeregisterCall(w, id), w.s.registrations);
            if !MayDeregister(w.s, id) then w' == w
            else if id in w'.s.registrations then
              w' == w.(s := w.s.(registrations := regs[id := regs[id].(lifecycle := FAILED)]))
              && Release(w.b, regs[id].handle).None?
            else
              && w'.s.registrations == regs - {id} && w'.s.attached == w.s.attached
              && (w'.b == w.b || Release(w.b, regs[id].handle) == Some(w'.b))
  {
    hide AccountInvalidate, Release;
    if MayDeregister(w.s, id) {
      var s1 := DeregisterCheck(w.s, id);
      assert s1.registrations - {id} == w.s.registrations - {id};
    }
  }

  // ---- the pieces ---------------------------------------------------------------------------------

  function CheckRegisterStep(w: World, d: BufferDescriptor, backend: nat, domain: nat, env: Envelope): World
    requires Sized(d)
  {
    match RegisterCheck(w.s, w.b, d, backend, domain, env)
    case Err(_) => w
    case Ok((s1, rec)) => w.(s := s1, registering := w.registering[rec.id := RegisterTicket(rec, d, None)])
  }

  function CallRegisterStep(w: World, id: nat): World {
    if id !in w.registering || w.registering[id].grant.Some? || !Sized(w.registering[id].d) then w else
      var t := w.registering[id];
      match RegisterBuffer(w.b, t.d)
      case Err(_) => w.(registering := w.registering - {id})
      case Ok((b1, g)) => w.(b := b1, registering := w.registering[id := t.(grant := Some(g))])
  }

  function CommitRegisterStep(w: World, id: nat): World {
    if id !in w.registering || w.registering[id].grant.None? then w else
      var t := w.registering[id];
      w.(s := RegisterCommit(w.s, t.rec, t.grant.value), registering := w.registering - {id})
  }

  function CheckDeregisterStep(w: World, id: nat): World {
    if !MayDeregister(w.s, id) || id in w.deregistering then w else
      var rec := w.s.registrations[id];
      w.(s := DeregisterCheck(w.s, id),
         deregistering := w.deregistering[id := DeregisterTicket.Checked(rec.backend, rec.handle)])
  }

  function CallDeregisterStep(w: World, id: nat): World {
    if id !in w.deregistering || w.deregistering[id].Called? then w else
      var t := w.deregistering[id];
      match DeregisterBackend(w.s, w.b, t.backend, t.handle)
      case None => w.(deregistering := w.deregistering[id := Called(false)])
      case Some(b1) => w.(b := b1, deregistering := w.deregistering[id := Called(true)])
  }

  function CommitDeregisterStep(w: World, id: nat): World {
    if id !in w.deregistering || w.deregistering[id].Checked? then w else
      w.(s := if w.deregistering[id].ok then DeregisterCommit(w.s, id) else DeregisterFail(w.s, id),
         deregistering := w.deregistering - {id})
  }

  // ---- steps and runs ----------------------------------------------------------------------------------

  /** A loop over a table visits each of its entries once. */
  ghost predicate Orderly(w: World, op: Op) {
    match op
    case DropDomain(_, order) => Enumerates(order, w.s.registrations)
    case NewBuffer(_, order) => Enumerates(order, w.s.registrations)
    case Revoking(_, order) => Enumerates(order, w.s.leases)
    case _ => true
  }

  ghost function Step(w: World, op: Op): World
    requires Proper(op)
  {
    if !Orderly(w, op) then w else
    match op
    case SetTo(snap) => w.(s := SetAuthority(w.s, snap))
    case NextEpoch => w.(s := AdvanceEpoch(w.s))
    case ParticipantRestart => w.(s := NoteRestart(w.s))
    case Attach => w.(s := AddBackend(w.s))
    case NewDomain(node, process) => w.(s := CreateDomain(w.s, node, process))
    case DropDomain(domain, order) => w.(s := DestroyDomain(w.s, domain, order))
    case NewBuffer(d, order) => w.(s := CreateBuffer(w.s, d, order))
    case Reusing(d, backend, domain, env) => w.(s := ReuseCounted(w.s, Reuse(w.s, d, backend, domain, env)))
    case Leasing(id, env, needed) => w.(s := AcquireLease(w.s, id, env, needed))
    case Returning(lease) => w.(s := ReleaseLease(w.s, lease))
    case Accessing(q) => w.(s := AccessCounted(w.s, w.b, q))
    case Revoking(id, order) => w.(s := HardRevoke(w.s, id, order))
    case SoftRevoking(id) => w.(s := SoftRevoke(w.s, id))
    case Rotating(id) => w.(s := RotateRegistration(w.s, w.b, id).0, b := RotateRegistration(w.s, w.b, id).1)
    case Registering(d, backend, domain, env) => RegisterCall(w, d, backend, domain, env)
    case Deregistering(id) => DeregisterCall(w, id)
    case CheckRegister(d, backend, domain, env) => CheckRegisterStep(w, d, backend, domain, env)
    case CallRegister(id) => CallRegisterStep(w, id)
    case CommitRegister(id) => CommitRegisterStep(w, id)
    case CheckDeregister(id) => CheckDeregisterStep(w, id)
    case CallDeregister(id) => CallDeregisterStep(w, id)
    case CommitDeregister(id) => CommitDeregisterStep(w, id)
    case Recovering(p) => w.(s := Recover(w.s, p))
    case Calling(c) => w.(b := Apply(w.b, c))
  }

  /** A step whose loop is given no order of its table is none. */
  lemma Unordered(w: World, op: Op)
    requires Proper(op) && !Orderly(w, op)
    ensures Step(w, op) == w
  {
  }

  predicate AllProper(ops: seq<Op>) {
    forall op :: op in ops ==> Proper(op)
  }

  ghost function Run(w: World, ops: seq<Op>): World
    requires AllProper(ops)
    decreases |ops|
  {
    if ops == [] then w else Run(Step(w, ops[0]), ops[1..])
  }

  lemma RunFirst(w: World, op: Op, ops: seq<Op>)
    requires Proper(op) && AllProper(ops)
    ensures AllProper([op] + ops) && Run(w, [op] + ops) == Run(Step(w, op), ops)
  {
    hide Step;
    assert ([op] + ops)[1..] == ops;
  }

  function Start(seed: nat): World {
    World(Empty, Fresh(seed), map[], map[])
  }

  /** Runs without recovery, in which register and deregister may be interleaved with anything. */
  predicate RecoverFree(ops: seq<Op>) {
    forall op :: op in ops ==> !op.Recovering?
  }

  /** Runs in which no call is taken apart. */
  predicate AtomicOp(op: Op) {
    !(op.CheckRegister? || op.CallRegister? || op.CommitRegister?
      || op.CheckDeregister? || op.CallDeregister? || op.CommitDeregister?)
  }

  // ---- the atomic calls are the pieces run without interruption -----------------------------------------

  lemma RegisterInPieces(w: World, d: BufferDescriptor, backend: nat, domain: nat, env: Envelope)
    requires Sized(d) && w.s.nextRegistration !in w.registering
    ensures RegisterCall(w, d, backend, domain, env)
         == CommitRegisterStep(
              CallRegisterStep(CheckRegisterStep(w, d, backend, domain, env), w.s.nextRegistration),
              w.s.nextRegistration)
  {
    hide RegisterBuffer, CanRegister, ValidateRange, CommittedRecord, AccountCommit;
    match RegisterCheck(w.s, w.b, d, backend, domain, env)
    case Err(_) =>
    case Ok((s1, rec)) =>
      var t := RegisterTicket(rec, d, None);
      match RegisterBuffer(w.b, d)
      case Err(_) =>
        PutThenTaken(w.registering, rec.id, t, t);
      case Ok((_, g)) =>
        PutThenTaken(w.registering, rec.id, t, t.(grant := Some(g)));
  }

  lemma PutThenTaken<T>(m: map<nat, T>, k: nat, t: T, t': T)
    requires k !in m
    ensures m[k := t][k := t'] == m[k := t']
    ensures m[k := t] - {k} == m && m[k := t'] - {k} == m
  {
  }

  lemma DeregisterInPieces(w: World, id: nat)
    requires id !in w.deregistering
    ensures DeregisterCall(w, id) == CommitDeregisterStep(CallDeregisterStep(CheckDeregisterStep(w, id), id), id)
  {
    hide DeregisterCommit, DeregisterFail, DeregisterBackend;
    if MayDeregister(w.s, id) {
      var rec := w.s.registrations[id];
      var t := DeregisterTicket.Checked(rec.backend, rec.handle);
      PutThenTaken(w.deregistering, id, t, Called(true));
      PutThenTaken(w.deregistering, id, t, Called(false));
    }
  }
}
