/**
 * What a saved state says, and what becomes of it: counters, authority and the history of
 * reasons are the runtime's own, and a fresh runtime that recovers them has the authority
 * and every registration back, each with just its backend material and its currency gone.
 */
module Restoration {
  import opened Records
  import opened BackendModel
  import opened Runtime
  import opened Recovery
  import opened Persistence
  import opened Worlds
  import opened Bridge

  // ---- what is saved ----------------------------------------------------------------------------------

  /** The registrations that carry the reason `t`. */
  function WithReason(s: State, t: Text): set<nat> {
    set id | id in s.registrations && s.registrations[id].reason == t
  }

  function VisitedWith(s: State, order: seq<nat>, t: Text): set<nat> {
    set id | id in order && id in s.registrations && s.registrations[id].reason == t
  }

  lemma {:induction false} ReasonsCounted(s: State, order: seq<nat>, t: Text)
    requires (forall id :: id in order ==> id in s.registrations) && t != []
    requires forall i, j :: 0 <= i < j < |order| ==> order[i] != order[j]
    ensures multiset(Reasons(s, order))[t] == |VisitedWith(s, order, t)| && [] !in Reasons(s, order)
  {
    hide VisitedWith;
    if order == [] {
      NoneVisited(s, t);
    } else {
      var front, last := order[..|order| - 1], order[|order| - 1];
      assert last !in front && order == front + [last];
      ReasonsCounted(s, front, t);
      OneMoreVisited(s, front, last, t);
      OneMoreReason(Reasons(s, front), s.registrations[last].reason, t);
    }
  }

  lemma OneMoreReason(ts: seq<Text>, r: Text, t: Text)
    requires t != [] && [] !in ts
    ensures var us := ts + if r == [] then [] else [r];
            [] !in us && multiset(us)[t] == multiset(ts)[t] + if r == t then 1 else 0
  {
    assert multiset(ts + [r]) == multiset(ts) + multiset([r]);
    assert ts + [] == ts;
  }

  lemma NoneVisited(s: State, t: Text)
    ensures VisitedWith(s, [], t) == {}
  {
  }

  lemma OneMoreVisited(s: State, front: seq<nat>, last: nat, t: Text)
    requires last in s.registrations && last !in front
    ensures |VisitedWith(s, front + [last], t)|
         == |VisitedWith(s, front, t)| + if s.registrations[last].reason == t then 1 else 0
  {
    if s.registrations[last].reason == t {
      assert VisitedWith(s, front + [last], t) == VisitedWith(s, front, t) + {last};
    } else {
      assert VisitedWith(s, front + [last], t) == VisitedWith(s, front, t);
    }
  }

  /** A registration as it is written: its backend material is left out and it awaits revalidation. */
  function Detached(rec: RegistrationRecord): RegistrationRecord {
    rec.(handle := [], regionId := 0, lifecycle := REVALIDATION_REQUIRED, freshness := FRESH_REVALIDATION_REQUIRED,
         localKey := rec.localKey.(opaqueValue := 0), remoteKey := rec.remoteKey.(opaqueValue := 0))
  }

  /** The counters, the authority, each key and each reason are written as the runtime has them. */
  lemma SavedIsOwn(s: State, b: Backend, o: Orders)
    requires Visits(o, s)
    ensures (forall id :: id in o.buffers ==> id in s.buffers) && (forall id :: id in o.registrations ==> id in s.registrations)
    ensures var p := Saved(s, b, o);
            && p.formatVersion == 1 && p.accounting == s.acct && p.authority == s.authority
            && p.policyGeneration == s.authority.policyGeneration
            && |p.registrations| == |p.remoteKeys| == |p.localKeys| == |o.registrations|
            && (forall i :: 0 <= i < |o.registrations| ==>
                  && p.registrations[i] == Detached(s.registrations[o.registrations[i]])
                  && p.remoteKeys[i] == s.registrations[o.registrations[i]].remoteKey
                  && p.localKeys[i] == s.registrations[o.registrations[i]].localKey)
            && [] !in p.revocations
            && (forall t: Text :: t != [] ==> multiset(p.revocations)[t] == |WithReason(s, t)|)
            && |p.backends| == (if s.attached then 1 else 0)
            && (s.attached ==> p.backends[0].id == SYNTHETIC_ID && p.backends[0].name == Ascii("synthetic-rdma")
                               && p.backends[0].provenance == SYNTHETIC && p.backends[0].state == READY
                               && p.backends[0].generation == b.generation && p.backends[0].capabilities == CapabilitiesOf(b.profile))
  {
    hide CapabilitiesOf, Reasons;
    SavedOrders(s, o);
    ReasonsCounted(s, o.registrations, Ascii("any"));
    forall t: Text | t != [] ensures multiset(Reasons(s, o.registrations))[t] == |WithReason(s, t)| {
      ReasonsCounted(s, o.registrations, t);
      assert VisitedWith(s, o.registrations, t) == WithReason(s, t);
    }
  }

  // ---- what is recovered --------------------------------------------------------------------------------

  /** A registration with its backend material and its currency gone, its key revoked. */
  function Bare(rec: RegistrationRecord): RegistrationRecord {
    rec.(lifecycle := REVALIDATION_REQUIRED, freshness := FRESH_REVALIDATION_REQUIRED, handle := [], regionId := 0,
         policyGeneration := 0, localKey := rec.localKey.(opaqueValue := 0),
         remoteKey := rec.remoteKey.(opaqueValue := 0, revoked := true))
  }

  lemma SavedRecord(s: State, b: Backend, o: Orders, i: nat)
    requires Visits(o, s) && i < |o.registrations|
    ensures (forall id :: id in o.buffers ==> id in s.buffers) && (forall id :: id in o.registrations ==> id in s.registrations)
    ensures var rs := Canonical(Saved(s, b, o)).registrations;
            |rs| == |o.registrations| && Parked(rs[i]) == Bare(s.registrations[o.registrations[i]])
            && rs[i].id == s.registrations[o.registrations[i]].id
  {
    hide Reasons, Summaries;
    SavedOrders(s, o);
  }

  /** A runtime without registrations recovers authority and records as they were, but for what is never carried. */
  lemma RecoveredRecords(s: State, b: Backend, o: Orders, s0: State, id: nat)
    requires Visits(o, s) && Keyed(s) && s0.registrations == map[] && id in s.registrations
    ensures var s' := Recover(s0, Canonical(Saved(s, b, o)));
            && s'.authority == s.authority.(provenance := UNKNOWN_PROVENANCE)
            && id in s'.registrations && s'.registrations[id] == Bare(s.registrations[id])
            && s'.leases == s0.leases && s'.activeFor == s0.activeFor && s'.nextRegistration == s0.nextRegistration
  {
    hide Recover, RecoverBuffers, RecoverDomains, RecoverRegistrations, Saved, Canonical, Parked, Bare;
    var p := Canonical(Saved(s, b, o));
    RecoverFrame(s0, p);
    CanonicalAuthority(s, b, o);
    RecoverRegistrationsAt(s0, p.registrations, id);
    var i :| 0 <= i < |o.registrations| && o.registrations[i] == id;
    SavedRecord(s, b, o, i);
    assert p.registrations[i] in p.registrations;
    OwnKey(s, id);
    forall r | r in p.registrations && r.id == id ensures Parked(r) == Bare(s.registrations[id]) {
      var j :| 0 <= j < |p.registrations| && p.registrations[j] == r;
      SavedRecord(s, b, o, j);
      OwnKey(s, o.registrations[j]);
    }
  }

  lemma OwnKey(s: State, id: nat)
    requires Keyed(s) && id in s.registrations
    ensures s.registrations[id].id == id
  {
  }

  lemma CanonicalAuthority(s: State, b: Backend, o: Orders)
    requires Visits(o, s)
    ensures (forall id :: id in o.buffers ==> id in s.buffers) && (forall id :: id in o.registrations ==> id in s.registrations)
    ensures Canonical(Saved(s, b, o)).authority == s.authority.(provenance := UNKNOWN_PROVENANCE)
  {
    SavedOrders(s, o);
  }

  /** Every domain comes back active, one destroyed before as well. */
  lemma DomainsComeBackActive(s: State, b: Backend, o: Orders, s0: State, d: nat)
    requires Visits(o, s) && s0.domains == map[]
    ensures (forall id :: id in o.buffers ==> id in s.buffers) && (forall id :: id in o.registrations ==> id in s.registrations)
    ensures var s' := Recover(s0, Canonical(Saved(s, b, o)));
            d in s'.domains <==> d in s.domains
    ensures var s' := Recover(s0, Canonical(Saved(s, b, o)));
            d in s'.domains ==> s'.domains[d].state == DOMAIN_ACTIVE
  {
    hide Recover, RecoverBuffers, RecoverDomains, RecoverRegistrations, Saved, Canonical;
    var p := Canonical(Saved(s, b, o));
    SavedOrders(s, o);
    RecoverFrame(s0, p);
    CanonicalTables(s, b, o);
    RecoverDomainsAt(s0, p.domains, d);
  }

  /** So from any reachable state, through the bytes of the blob. */
  lemma ReachableRestores(seed: nat, ops: seq<Op>, o: Orders, s0: State, id: nat)
    requires AllProper(ops) && (forall op :: op in ops ==> Accepted(op))
    requires var w := Run(Start(seed), ops);
             Visits(o, w.s) && Small(w.s) && Wide(Saved(w.s, w.b, o))
    requires s0.registrations == map[] && id in Run(Start(seed), ops).s.registrations
    ensures var w := Run(Start(seed), ops);
            Accept(Blob(Saved(w.s, w.b, o))).Ok? ==>
              var s' := Recover(s0, Accept(Blob(Saved(w.s, w.b, o))).value);
              && s'.authority == w.s.authority.(provenance := UNKNOWN_PROVENANCE)
              && id in s'.registrations && s'.registrations[id] == Bare(w.s.registrations[id])
  {
    hide Run, Visits, Small, Saved, Wide, Accept, Blob, Canonical, Accepted, Readable, Recover, Bare;
    var w := Run(Start(seed), ops);
    ReachableSaves(seed, ops, o);
    SavedOrders(w.s, o);
    RunKeyed(Start(seed), ops);
    RecoveredRecords(w.s, w.b, o, s0, id);
  }
}
