/**
 * The counter of protection domains: it is the number of active domains except after two
 * kinds of steps, the destruction of a domain already destroyed and the creation of one
 * under the identity of a recovered domain.
 */
module Domains {
  import opened Records
  import opened BackendModel
  import opened Runtime
  import opened Recovery
  import opened Worlds
  import opened Evolution
  import opened StepFrames
  import opened Totals

  function ActiveDomain(): DomainEntry -> nat {
    (e: DomainEntry) => if e.state.DOMAIN_ACTIVE? then 1 else 0
  }

  ghost predicate CountsActive(s: State) {
    s.acct.protectionDomains == Total(s.domains, ActiveDomain())
  }

  /** A domain that is not active is destroyed while the counter is above zero, or a new domain takes the place of an active one. */
  ghost predicate Miscounts(w: World, op: Op) {
    match op
    case DropDomain(d, _) =>
      Orderly(w, op) && d in w.s.domains && !w.s.domains[d].state.DOMAIN_ACTIVE? && w.s.acct.protectionDomains > 0
    case NewDomain(_, _) => w.s.nextDomain in w.s.domains && w.s.domains[w.s.nextDomain].state.DOMAIN_ACTIVE?
    case _ => false
  }

  predicate DomainsAside(s: State, s': State) {
    s'.domains == s.domains && s'.acct.protectionDomains == s.acct.protectionDomains
  }

  // ---- steps that leave domains alone ---------------------------------------------------------------

  lemma AccessAside(s: State, b: Backend, q: Request)
    requires Ranged(q)
    ensures DomainsAside(s, AccessCounted(s, b, q))
  {
    hide Access, Uncounted;
  }

  lemma ReuseAside(s: State, res: Result<nat, ReuseMiss>)
    ensures DomainsAside(s, ReuseCounted(s, res))
  {
  }

  lemma QuietAside(w: World, op: Op)
    requires Proper(op) && Quiet(op) && !op.NewDomain?
    ensures DomainsAside(w.s, Step(w, op).s)
  {
    hide Apply, AccessCounted, ReuseCounted, Reuse;
    match op
    case Accessing(q) => AccessAside(w.s, w.b, q);
    case Reusing(d, backend, domain, env) => ReuseAside(w.s, Reuse(w.s, d, backend, domain, env));
    case _ =>
  }

  lemma BufferAside(s: State, d: BufferDescriptor, order: seq<nat>)
    ensures DomainsAside(s, CreateBuffer(s, d, order))
  {
    hide InvalidateAll, Decrement;
    var s0 := if d.id != 0 then s else s.(nextBuffer := s.nextBuffer + 1);
    InvalidateAllFrame(s0, order, Reallocated(BufferKey(s, d)));
  }

  lemma StatusAside(w: World, op: Op)
    requires Proper(op) && (op.Leasing? || op.Returning? || op.SoftRevoking? || op.Rotating?)
    ensures DomainsAside(w.s, Step(w, op).s)
  {
    hide LeaseMissReason, GrantedLease, RotatedRecord, RotateKey;
    match op
    case Leasing(id, env, needed) =>
      if LeaseMissReason(w.s, id, env, needed).None? {
        CanLease(w.s, id, env, needed);
      }
    case _ =>
  }

  lemma RevokingAside(s: State, id: nat, order: seq<nat>)
    ensures DomainsAside(s, HardRevoke(s, id, order))
  {
    hide RevokeLeases;
    if Revocable(s, id) {
      RevokeLeasesFrame(s.(registrations := s.registrations[id := RevokedRecord(s.registrations[id])]), order, id);
    }
  }

  lemma CallsAside(w: World, op: Op)
    requires Proper(op) && (op.Registering? || op.CheckRegister? || op.CallRegister? || op.CommitRegister?)
    ensures DomainsAside(w.s, Step(w, op).s)
  {
    hide RegisterMiss, RegisterBuffer, BegunRecord, CommittedRecord;
  }

  lemma DeregistersAside(w: World, op: Op)
    requires Proper(op) && (op.Deregistering? || op.CheckDeregister? || op.CallDeregister? || op.CommitDeregister?)
    ensures DomainsAside(w.s, Step(w, op).s)
  {
    hide DeregisterCommit, DeregisterFail, Step;
    DeregisterOutcome(w, op);
    EndingAside(w.s, op.id);
  }

  lemma EndingAside(s: State, id: nat)
    ensures DomainsAside(s, DeregisterCommit(s, id)) && DomainsAside(s, DeregisterFail(s, id))
  {
    hide Decrement;
  }

  lemma OthersAside(w: World, op: Op)
    requires Proper(op) && !op.DropDomain? && !op.NewDomain? && !op.Recovering?
    ensures DomainsAside(w.s, Step(w, op).s)
  {
    hide DomainsAside, Quiet, CreateBuffer, HardRevoke;
    Kinds(op);
    if !Orderly(w, op) {
      SameAside(w.s);
    } else if Quiet(op) {
      QuietAside(w, op);
    } else if op.NewBuffer? {
      BufferAside(w.s, op.d, op.order);
    } else if op.Revoking? {
      RevokingAside(w.s, op.id, op.order);
    } else if op.Leasing? || op.Returning? || op.SoftRevoking? || op.Rotating? {
      StatusAside(w, op);
    } else if op.Registering? || op.CheckRegister? || op.CallRegister? || op.CommitRegister? {
      CallsAside(w, op);
    } else {
      DeregistersAside(w, op);
    }
  }

  lemma SameAside(s: State)
    ensures DomainsAside(s, s)
  {
  }

  // ---- steps on domains -----------------------------------------------------------------------------------

  lemma DropDomainCounts(w: World, d: nat, order: seq<nat>)
    requires Orderly(w, DropDomain(d, order)) && CountsActive(w.s)
    ensures CountsActive(DestroyDomain(w.s, d, order)) <==> !Miscounts(w, DropDomain(d, order))
  {
    hide InvalidateAll, Enumerates, Total;
    if d in w.s.domains {
      InvalidateAllFrame(w.s, order, DomainDestroyed(d));
      var e := w.s.domains[d];
      Put(w.s.domains, ActiveDomain(), d, e.(state := DESTROYED, generation := e.generation + 1));
      AtLeast(w.s.domains, ActiveDomain(), d);
    }
  }

  lemma NewDomainCounts(w: World, node: nat, process: nat)
    requires CountsActive(w.s)
    ensures CountsActive(CreateDomain(w.s, node, process)) <==> !Miscounts(w, NewDomain(node, process))
  {
    hide Total;
    Put(w.s.domains, ActiveDomain(), w.s.nextDomain, DomainEntry(UNKNOWN_DOMAIN, DOMAIN_ACTIVE, 1, node, process));
  }

  lemma {:induction false} RecoverDomainsCounts(s: State, ds: seq<nat>)
    requires CountsActive(s)
    ensures CountsActive(RecoverDomains(s, ds))
  {
    hide Total;
    if ds != [] {
      RecoverDomainsCounts(s, ds[..|ds| - 1]);
      var s1 := RecoverDomains(s, ds[..|ds| - 1]);
      Put(s1.domains, ActiveDomain(), ds[|ds| - 1], DomainEntry(UNKNOWN_DOMAIN, DOMAIN_ACTIVE, 1, 0, 0));
    }
  }

  lemma RecoveringCounts(s: State, p: PersistableState)
    requires CountsActive(s)
    ensures CountsActive(Recover(s, p))
  {
    hide Recover, RecoverBuffers, RecoverDomains, RecoverRegistrations, Total;
    RecoverFrame(s, p);
    RecoverDomainsCounts(s, p.domains);
  }

  /** A step keeps the counter at the number of active domains exactly when it is not of those kinds. */
  lemma StepCounts(w: World, op: Op)
    requires Proper(op) && CountsActive(w.s)
    ensures CountsActive(Step(w, op).s) <==> !Miscounts(w, op)
  {
    hide DestroyDomain, CreateDomain, Recover, Total;
    if op.DropDomain? {
      if Orderly(w, op) {
        DropDomainCounts(w, op.domain, op.order);
      }
    } else if op.NewDomain? {
      NewDomainCounts(w, op.node, op.process);
    } else if op.Recovering? {
      RecoveringCounts(w.s, op.p);
    } else {
      Elsewhere(w, op);
    }
  }

  lemma Elsewhere(w: World, op: Op)
    requires Proper(op) && !op.DropDomain? && !op.NewDomain? && !op.Recovering? && CountsActive(w.s)
    ensures CountsActive(Step(w, op).s) && !Miscounts(w, op)
  {
    hide Step;
    OthersAside(w, op);
  }

  ghost predicate CountsThroughout(w: World, ops: seq<Op>)
    requires AllProper(ops)
    decreases |ops|
  {
    CountsActive(w.s) && (ops == [] || CountsThroughout(Step(w, ops[0]), ops[1..]))
  }

  ghost predicate NeverMiscounts(w: World, ops: seq<Op>)
    requires AllProper(ops)
    decreases |ops|
  {
    ops == [] || (!Miscounts(w, ops[0]) && NeverMiscounts(Step(w, ops[0]), ops[1..]))
  }

  lemma {:induction false} RunCounts(w: World, ops: seq<Op>)
    requires AllProper(ops) && CountsActive(w.s)
    ensures CountsThroughout(w, ops) <==> NeverMiscounts(w, ops)
    decreases |ops|
  {
    hide Step, CountsActive, Miscounts;
    if ops != [] {
      StepCounts(w, ops[0]);
      if CountsActive(Step(w, ops[0]).s) {
        RunCounts(Step(w, ops[0]), ops[1..]);
      } else {
        CountLost(Step(w, ops[0]), ops[1..]);
      }
    }
  }

  lemma CountLost(w: World, ops: seq<Op>)
    requires AllProper(ops) && !CountsActive(w.s)
    ensures !CountsThroughout(w, ops)
  {
  }

  /** In every run, recoveries included, the counter is right throughout exactly when no step miscounts. */
  lemma DomainConservation(seed: nat, ops: seq<Op>)
    requires AllProper(ops)
    ensures CountsThroughout(Start(seed), ops) <==> NeverMiscounts(Start(seed), ops)
  {
    hide CountsThroughout, NeverMiscounts;
    RunCounts(Start(seed), ops);
  }
}
