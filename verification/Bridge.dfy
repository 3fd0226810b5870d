/**
 * From a running runtime to a saved blob and back: what a runtime saves parses, a fresh
 * runtime recovers the same identities from it, and nothing recovered is usable.
 */
module Bridge {
  import opened Records
  import opened Checks
  import opened Words
  import opened BackendModel
  import opened RecordFormats
  import opened Persistence
  import opened Runtime
  import opened Recovery
  import opened Worlds
  import opened Evolution

  // ---- what is saved parses -----------------------------------------------------------------------

  predicate KeyedRecord(id: nat, rec: RegistrationRecord) {
    rec.id == id && rec.registrationGeneration != 0
  }

  /** A buffer's descriptor carries the identity the buffer is filed under, or none. */
  predicate KeyedBuffers(s: State) {
    forall k :: k in s.buffers ==> s.buffers[k].descriptor.id == k || s.buffers[k].descriptor.id == 0
  }

  predicate Keyed(s: State) {
    KeyedBuffers(s) && forall id :: id in s.registrations ==> KeyedRecord(id, s.registrations[id])
  }

  /** No buffer has generation zero, and at most one lacks an identity. */
  predicate Readable(s: State) {
    && (forall k :: k in s.buffers ==> s.buffers[k].descriptor.generation != 0)
    && (forall i, j :: i in s.buffers && j in s.buffers && s.buffers[i].descriptor.id == 0 == s.buffers[j].descriptor.id
          ==> i == j)
  }

  /** The tables and the texts in them are within what the parser is willing to read. */
  predicate Small(s: State) {
    && |s.buffers| <= MAX_COUNT && |s.registrations| <= MAX_COUNT && |s.domains| <= MAX_COUNT
    && forall id :: id in s.registrations ==> |s.registrations[id].reason| <= MAX_COUNT
  }

  function Members(order: seq<nat>): set<nat> {
    set k | k in order
  }

  lemma {:induction false} DistinctCount(order: seq<nat>)
    requires forall i, j :: 0 <= i < j < |order| ==> order[i] != order[j]
    ensures |Members(order)| == |order|
  {
    if order == [] {
      assert Members(order) == {};
    } else {
      var front, last := order[..|order| - 1], order[|order| - 1];
      DistinctCount(front);
      LastMember(front, last);
      assert order == front + [last];
      assert last !in Members(front);
    }
  }

  lemma LastMember(front: seq<nat>, last: nat)
    ensures Members(front + [last]) == Members(front) + {last}
  {
  }

  lemma Enumerated<V>(order: seq<nat>, m: map<nat, V>)
    requires Enumerates(order, m)
    ensures |order| == |m|
  {
    DistinctCount(order);
    assert Members(order) == m.Keys;
  }

  lemma {:induction false} ReasonsBound(s: State, order: seq<nat>)
    requires (forall id :: id in order ==> id in s.registrations) && Small(s)
    ensures |Reasons(s, order)| <= |order|
    ensures forall i :: 0 <= i < |Reasons(s, order)| ==> |Reasons(s, order)[i]| <= MAX_COUNT
  {
    if order != [] {
      ReasonsBound(s, order[..|order| - 1]);
    }
  }

  lemma SavedInBounds(s: State, b: Backend, o: Orders)
    requires Visits(o, s) && Small(s)
    ensures InBounds(Saved(s, b, o))
  {
    hide Enumerates, Logical, Reasons, Summaries;
    Enumerated(o.buffers, s.buffers);
    Enumerated(o.registrations, s.registrations);
    Enumerated(o.domains, s.domains);
    Ordered(o.buffers, s.buffers);
    Ordered(o.registrations, s.registrations);
    ReasonsBound(s, o.registrations);
    SummariesBound(s, b);
    var p := Saved(s, b, o);
    forall i | 0 <= i < |p.registrations| ensures RegistrationBounded(p.registrations[i]) {
      LogicalFacts(s.registrations[o.registrations[i]]);
      assert o.registrations[i] in s.registrations;
    }
  }

  lemma Ordered<V>(order: seq<nat>, m: map<nat, V>)
    requires Enumerates(order, m)
    ensures forall k :: k in order <==> k in m
    ensures forall i, j :: 0 <= i < j < |order| ==> order[i] != order[j]
  {
  }

  lemma LogicalFacts(rec: RegistrationRecord)
    ensures var l := Logical(rec);
            && l.handle == [] && l.reason == rec.reason && l.id == rec.id
            && l.registrationGeneration == rec.registrationGeneration
  {
  }

  lemma SummariesBound(s: State, b: Backend)
    ensures |Summaries(s, b)| <= 1
    ensures forall i :: 0 <= i < |Summaries(s, b)| ==> BackendInfoBounded(Summaries(s, b)[i])
  {
    assert |BACKEND_NAME| == 14;
  }

  lemma SavedIntegral(s: State, b: Backend, o: Orders)
    requires Visits(o, s) && Keyed(s)
    ensures Integral(Saved(s, b, o)) <==> Readable(s)
  {
    hide Enumerates, Logical, Reasons, Summaries;
    Ordered(o.buffers, s.buffers);
    Ordered(o.registrations, s.registrations);
    Ordered(o.domains, s.domains);
    var p := Saved(s, b, o);
    forall i | 0 <= i < |p.registrations|
      ensures RegistrationIds(p.registrations)[i] == o.registrations[i] && p.registrations[i].registrationGeneration != 0
    {
      LogicalFacts(s.registrations[o.registrations[i]]);
      assert o.registrations[i] in s.registrations;
    }
    BuffersIntegral(s, o.buffers, p.buffers);
  }

  lemma BuffersIntegral(s: State, order: seq<nat>, ds: seq<BufferDescriptor>)
    requires Enumerates(order, s.buffers) && KeyedBuffers(s) && ds == DescriptorsIn(s.buffers, order)
    ensures Distinct(BufferIds(ds)) && (forall i :: 0 <= i < |ds| ==> ds[i].generation != 0) <==> Readable(s)
  {
    if Readable(s) {
      forall i | 0 <= i < |ds| ensures order[i] in s.buffers && ds[i] == s.buffers[order[i]].descriptor {
        assert order[i] in order;
      }
    }
    if Distinct(BufferIds(ds)) && forall i :: 0 <= i < |ds| ==> ds[i].generation != 0 {
      forall k | k in s.buffers ensures s.buffers[k].descriptor.generation != 0 {
        var x :| 0 <= x < |order| && order[x] == k;
        assert ds[x] == s.buffers[k].descriptor;
      }
      forall i, j | i in s.buffers && j in s.buffers && s.buffers[i].descriptor.id == 0 == s.buffers[j].descriptor.id
        ensures i == j
      {
        var x :| 0 <= x < |order| && order[x] == i;
        var y :| 0 <= y < |order| && order[y] == j;
        assert BufferIds(ds)[x] == 0 && BufferIds(ds)[y] == 0;
      }
    }
  }

  /** What a runtime saves is accepted exactly when its buffers are readable, and is then read back as it was saved. */
  lemma SavedParses(s: State, b: Backend, o: Orders)
    requires Visits(o, s) && Keyed(s) && Small(s) && Wide(Saved(s, b, o))
    ensures Accept(Blob(Saved(s, b, o))).Ok? <==> Readable(s)
    ensures Readable(s) ==> Accept(Blob(Saved(s, b, o))) == Ok(Canonical(Saved(s, b, o)))
  {
    hide Visits, Saved, Wide, Accept, Blob, InBounds, Integral, Canonical, Readable;
    SavedOrders(s, o);
    SavedInBounds(s, b, o);
    SavedIntegral(s, b, o);
    BlobRoundTrip(Saved(s, b, o));
  }

  lemma SavedOrders(s: State, o: Orders)
    requires Visits(o, s)
    ensures forall id :: id in o.buffers ==> id in s.buffers
    ensures forall id :: id in o.registrations ==> id in s.registrations
  {
  }

  // ---- a fresh runtime recovers the same identities ----------------------------------------------------

  /**
   * Domains and registrations come back under their identities always; buffers do, each
   * with its descriptor, exactly when every one of them carries its own identity.
   */
  lemma RecoveredIdentities(s: State, b: Backend, o: Orders, s0: State)
    requires Visits(o, s) && Keyed(s) && s0.buffers == map[] && s0.domains == map[] && s0.registrations == map[]
    ensures var s' := Recover(s0, Canonical(Saved(s, b, o)));
            && s'.domains.Keys == s.domains.Keys && s'.registrations.Keys == s.registrations.Keys
            && (s'.buffers.Keys == s.buffers.Keys <==> forall k :: k in s.buffers ==> s.buffers[k].descriptor.id == k)
            && (s'.buffers.Keys == s.buffers.Keys ==>
                  forall k :: k in s.buffers ==> s'.buffers[k].descriptor == s.buffers[k].descriptor)
  {
    hide Recover, RecoverBuffers, RecoverDomains, RecoverRegistrations, Logical, Reasons, Summaries, Parked, Canonical;
    var p := Canonical(Saved(s, b, o));
    RecoverFrame(s0, p);
    CanonicalTables(s, b, o);
    var m := Recover(s0, p).buffers;
    forall k ensures k in m <==> Carries(s, k)
      ensures k in m ==> CameFrom(s, m[k].descriptor) && m[k].descriptor.id == k
    {
      RecoverBuffersAt(s0, p.buffers, k);
      SavedBuffers(s, o, k);
    }
    SameIdentities(s, Recover(s0, p));
    forall k ensures k in Recover(s0, p).domains <==> k in s.domains {
      RecoverDomainsAt(s0, p.domains, k);
    }
    forall k ensures k in Recover(s0, p).registrations <==> k in s.registrations {
      RecoverRegistrationsAt(s0, p.registrations, k);
      SavedRegistrations(s, b, o, k);
    }
  }

  lemma CanonicalTables(s: State, b: Backend, o: Orders)
    requires Visits(o, s)
    ensures Canonical(Saved(s, b, o)).buffers == DescriptorsIn(s.buffers, o.buffers)
    ensures Canonical(Saved(s, b, o)).domains == o.domains
  {
  }

  /** Some buffer's descriptor carries the identity `id`. */
  ghost predicate Carries(s: State, id: nat) {
    exists i :: i in s.buffers && s.buffers[i].descriptor.id == id
  }

  ghost predicate CameFrom(s: State, d: BufferDescriptor) {
    exists i :: i in s.buffers && s.buffers[i].descriptor == d
  }

  /** The identities buffers are filed under are those they carry exactly when each carries its own. */
  lemma SameIdentities(s: State, s': State)
    requires KeyedBuffers(s)
    requires forall k :: k in s'.buffers <==> Carries(s, k)
    requires forall k :: k in s'.buffers ==> CameFrom(s, s'.buffers[k].descriptor) && s'.buffers[k].descriptor.id == k
    ensures s'.buffers.Keys == s.buffers.Keys <==> forall k :: k in s.buffers ==> s.buffers[k].descriptor.id == k
    ensures s'.buffers.Keys == s.buffers.Keys ==>
              forall k :: k in s.buffers ==> s'.buffers[k].descriptor == s.buffers[k].descriptor
  {
    hide Carries, CameFrom;
    if s'.buffers.Keys == s.buffers.Keys {
      forall k | k in s.buffers ensures s.buffers[k].descriptor.id == k {
        assert k in s'.buffers;
        OwnIdentity(s, k);
      }
      forall k | k in s.buffers ensures s'.buffers[k].descriptor == s.buffers[k].descriptor {
        assert k in s'.buffers;
        OwnDescriptor(s, s'.buffers[k].descriptor);
      }
    } else if forall k :: k in s.buffers ==> s.buffers[k].descriptor.id == k {
      forall k ensures k in s'.buffers <==> k in s.buffers {
        FiledAsCarried(s, k);
      }
    }
  }

  lemma OwnIdentity(s: State, k: nat)
    requires KeyedBuffers(s) && k in s.buffers && Carries(s, k)
    ensures s.buffers[k].descriptor.id == k
  {
  }

  lemma OwnDescriptor(s: State, d: BufferDescriptor)
    requires CameFrom(s, d) && forall k :: k in s.buffers ==> s.buffers[k].descriptor.id == k
    ensures d.id in s.buffers && s.buffers[d.id].descriptor == d
  {
  }

  lemma FiledAsCarried(s: State, k: nat)
    requires forall i :: i in s.buffers ==> s.buffers[i].descriptor.id == i
    ensures Carries(s, k) <==> k in s.buffers
  {
    if k in s.buffers {
      assert s.buffers[k].descriptor.id == k;
    }
  }

  lemma SavedBuffers(s: State, o: Orders, k: nat)
    requires Visits(o, s)
    ensures var ds := DescriptorsIn(s.buffers, o.buffers);
            && ((exists d :: d in ds && d.id == k) <==> Carries(s, k))
            && (forall d :: d in ds ==> CameFrom(s, d))
  {
    var ds := DescriptorsIn(s.buffers, o.buffers);
    forall d | d in ds ensures CameFrom(s, d) {
      var x :| 0 <= x < |ds| && ds[x] == d;
      assert o.buffers[x] in s.buffers;
    }
    if i :| i in s.buffers && s.buffers[i].descriptor.id == k {
      var x :| 0 <= x < |o.buffers| && o.buffers[x] == i;
      assert ds[x] in ds && ds[x].id == k;
    }
  }

  lemma SavedRegistrations(s: State, b: Backend, o: Orders, k: nat)
    requires Visits(o, s) && Keyed(s)
    ensures var rs := Canonical(Saved(s, b, o)).registrations;
            k in s.registrations <==> exists r :: r in rs && r.id == k
  {
    hide Logical, Reasons, Summaries;
    var rs := Canonical(Saved(s, b, o)).registrations;
    assert |rs| == |o.registrations|;
    forall i | 0 <= i < |rs| ensures rs[i].id == o.registrations[i] && o.registrations[i] in s.registrations {
      LogicalFacts(s.registrations[o.registrations[i]]);
      assert o.registrations[i] in s.registrations;
    }
    if k in s.registrations {
      var i :| 0 <= i < |o.registrations| && o.registrations[i] == k;
      assert rs[i] in rs;
    }
  }

  // ---- recovering again ---------------------------------------------------------------------------------

  /** Recovering the same blob a second time changes nothing at all. */
  lemma RecoverTwice(s: State, p: PersistableState)
    requires Distinct(RegistrationIds(p.registrations))
    ensures Recover(Recover(s, p), p) == Recover(s, p)
  {
    hide RecoverBuffers, RecoverDomains, RecoverRegistrations, Recover;
    var s' := Recover(s, p);
    RecoverFrame(s, p);
    RecoverFrame(s', p);
    forall d | d in p.buffers ensures d.id in s'.buffers {
      RecoverBuffersAt(s, p.buffers, d.id);
    }
    forall d | d in p.domains ensures d in s'.domains {
      RecoverDomainsAt(s, p.domains, d);
    }
    forall i | 0 <= i < |p.registrations|
      ensures p.registrations[i].id in s'.registrations && s'.registrations[p.registrations[i].id] == Parked(p.registrations[i])
    {
      ListedOnce(s, p.registrations, i);
    }
    BuffersKnown(s', p.buffers);
    DomainsKnown(s', p.domains);
    RegistrationsKnown(s', p.registrations);
  }

  lemma ListedOnce(s: State, rs: seq<RegistrationRecord>, i: nat)
    requires Distinct(RegistrationIds(rs)) && i < |rs|
    ensures var m := RecoverRegistrations(s, rs).registrations; rs[i].id in m && m[rs[i].id] == Parked(rs[i])
  {
    hide Parked, RecoverRegistrations;
    RecoverRegistrationsAt(s, rs, rs[i].id);
    assert rs[i] in rs;
    var r :| r in rs && r.id == rs[i].id && RecoverRegistrations(s, rs).registrations[rs[i].id] == Parked(r);
    var j :| 0 <= j < |rs| && rs[j] == r;
    assert RegistrationIds(rs)[i] == rs[i].id && RegistrationIds(rs)[j] == rs[j].id;
  }

  lemma {:induction false} BuffersKnown(s: State, ds: seq<BufferDescriptor>)
    requires forall d :: d in ds ==> d.id in s.buffers
    ensures RecoverBuffers(s, ds) == s
  {
    if ds != [] {
      BuffersKnown(s, ds[..|ds| - 1]);
    }
  }

  lemma {:induction false} DomainsKnown(s: State, ds: seq<nat>)
    requires forall d :: d in ds ==> d in s.domains
    ensures RecoverDomains(s, ds) == s
  {
    if ds != [] {
      DomainsKnown(s, ds[..|ds| - 1]);
    }
  }

  lemma {:induction false} RegistrationsKnown(s: State, rs: seq<RegistrationRecord>)
    requires forall i :: 0 <= i < |rs| ==> rs[i].id in s.registrations && s.registrations[rs[i].id] == Parked(rs[i])
    ensures RecoverRegistrations(s, rs) == s
  {
    hide Parked;
    if rs != [] {
      var front, last := rs[..|rs| - 1], rs[|rs| - 1];
      assert forall i :: 0 <= i < |front| ==> front[i] == rs[i];
      RegistrationsKnown(s, front);
      assert s.registrations[last.id := Parked(last)] == s.registrations;
    }
  }

  // ---- every reachable runtime can be saved -------------------------------------------------------------------

  ghost predicate KeyedWorld(w: World) {
    && KeyedBuffers(w.s)
    && (forall id :: id in w.s.registrations ==> KeyedRecord(id, w.s.registrations[id]))
    && (forall id :: id in w.registering ==> KeyedRecord(id, w.registering[id].rec))
  }

  /** What is recovered had been accepted by the parser. */
  predicate Accepted(op: Op) {
    op.Recovering? ==> Integral(op.p)
  }

  lemma InvalidatedKeyed(s: State, order: seq<nat>, c: Cause, id: nat)
    requires id in s.registrations && KeyedRecord(id, s.registrations[id])
    ensures id in InvalidateAll(s, order, c).registrations && KeyedRecord(id, InvalidateAll(s, order, c).registrations[id])
  {
    InvalidateAllAt(s, order, c, id);
  }

  lemma BulkKeyed(w: World, w': World, order: seq<nat>, c: Cause)
    requires KeyedWorld(w) && KeyedBuffers(w'.s) && w'.registering == w.registering
    requires w'.s.registrations == InvalidateAll(w.s, order, c).registrations
    ensures KeyedWorld(w')
  {
    hide InvalidateAll, KeyedRecord, KeyedBuffers;
    InvalidateAllFrame(w.s, order, c);
    forall id | id in w'.s.registrations ensures KeyedRecord(id, w'.s.registrations[id]) {
      InvalidatedKeyed(w.s, order, c, id);
    }
  }

  lemma DropDomainKeyed(w: World, d: nat, order: seq<nat>)
    requires KeyedWorld(w)
    ensures KeyedWorld(w.(s := DestroyDomain(w.s, d, order)))
  {
    hide InvalidateAll, Decrement, KeyedRecord, KeyedBuffers;
    if d in w.s.domains {
      InvalidateAllFrame(w.s, order, DomainDestroyed(d));
      BuffersOnly(w.s, DestroyDomain(w.s, d, order));
      BulkKeyed(w, w.(s := DestroyDomain(w.s, d, order)), order, DomainDestroyed(d));
    }
  }

  lemma NewBufferKeyed(w: World, d: BufferDescriptor, order: seq<nat>)
    requires KeyedWorld(w)
    ensures KeyedWorld(w.(s := CreateBuffer(w.s, d, order)))
  {
    hide InvalidateAll, Decrement, KeyedRecord;
    var w' := w.(s := CreateBuffer(w.s, d, order));
    var key := BufferKey(w.s, d);
    var s0 := if d.id != 0 then w.s else w.s.(nextBuffer := w.s.nextBuffer + 1);
    InvalidateIgnores(w.s, s0, order, Reallocated(key));
    InvalidateAllFrame(w.s, order, Reallocated(key));
    if w'.s.registrations != w.s.registrations {
      BulkKeyed(w, w', order, Reallocated(key));
    }
  }

  lemma RevokingKeyed(w: World, k: nat, order: seq<nat>)
    requires KeyedWorld(w)
    ensures KeyedWorld(w.(s := HardRevoke(w.s, k, order)))
  {
    hide RevokeLeases, KeyedBuffers;
    if Revocable(w.s, k) {
      var r := RevokedRecord(w.s.registrations[k]);
      RevokeLeasesFrame(w.s.(registrations := w.s.registrations[k := r]), order, k);
      BuffersOnly(w.s, HardRevoke(w.s, k, order));
    }
  }

  lemma LeasesKeyed(w: World, id: nat, env: Envelope, needed: Mask, lease: nat)
    requires KeyedWorld(w)
    ensures KeyedWorld(w.(s := AcquireLease(w.s, id, env, needed)))
    ensures KeyedWorld(w.(s := ReleaseLease(w.s, lease)))
  {
    hide ValidateAuthority, Superset, GrantedLease, KeyedBuffers;
    BuffersOnly(w.s, AcquireLease(w.s, id, env, needed));
    BuffersOnly(w.s, ReleaseLease(w.s, lease));
  }

  lemma StatusKeyed(w: World, id: nat)
    requires KeyedWorld(w)
    ensures KeyedWorld(w.(s := SoftRevoke(w.s, id)))
    ensures KeyedWorld(w.(s := RotateRegistration(w.s, w.b, id).0))
  {
    hide Xor64, RotateKey, KeyedBuffers;
    BuffersOnly(w.s, SoftRevoke(w.s, id));
    BuffersOnly(w.s, RotateRegistration(w.s, w.b, id).0);
  }

  lemma RecordsKeyed(w: World, op: Op)
    requires KeyedWorld(w) && Proper(op) && Orderly(w, op)
    requires op.Leasing? || op.Returning? || op.Revoking? || op.SoftRevoking? || op.Rotating?
    ensures KeyedWorld(Step(w, op))
  {
    hide KeyedWorld, HardRevoke, AcquireLease, ReleaseLease, SoftRevoke, RotateRegistration;
    match op {
      case Leasing(id, env, needed) => LeasesKeyed(w, id, env, needed, 0);
      case Returning(lease) => LeasesKeyed(w, 0, Envelope(0, 0, 0, 0, 0, 0, 0), 0, lease);
      case Revoking(id, order) => RevokingKeyed(w, id, order);
      case SoftRevoking(id) => StatusKeyed(w, id);
      case Rotating(id) => StatusKeyed(w, id);
    }
    StateOnly(w, Step(w, op));
  }

  lemma BuffersOnly(s: State, s': State)
    requires KeyedBuffers(s) && s'.buffers == s.buffers
    ensures KeyedBuffers(s')
  {
  }

  lemma RegisteringKeyed(w: World, d: BufferDescriptor, backend: nat, domain: nat, env: Envelope)
    requires KeyedWorld(w) && Sized(d)
    ensures KeyedWorld(RegisterCall(w, d, backend, domain, env))
  {
    hide RegisterMiss, CanRegister, GrantFor, AccountCommit, KeyedBuffers;
    BuffersOnly(w.s, RegisterCall(w, d, backend, domain, env).s);
  }

  lemma CallsKeyed(w: World, op: Op)
    requires KeyedWorld(w) && Proper(op)
    requires op.Registering? || op.CheckRegister? || op.CallRegister? || op.CommitRegister?
    ensures KeyedWorld(Step(w, op))
  {
    hide RegisterMiss, CanRegister, GrantFor, AccountCommit, KeyedBuffers, RegisterCall;
    if op.Registering? {
      RegisteringKeyed(w, op.d, op.backend, op.domain, op.env);
    } else {
      BuffersOnly(w.s, Step(w, op).s);
    }
  }

  lemma DeregistersKeyed(w: World, op: Op)
    requires KeyedWorld(w) && Proper(op)
    requires op.Deregistering? || op.CheckDeregister? || op.CallDeregister? || op.CommitDeregister?
    ensures KeyedWorld(Step(w, op))
  {
    hide DeregisterCommit, DeregisterFail, Release, KeyedWorld;
    var marked := if op.Deregistering? && MayDeregister(w.s, op.id) then DeregisterCheck(w.s, op.id) else w.s;
    MarkedKeyed(w, op.id);
    EndsKeyed(w, op.id);
    EndsKeyed(w.(s := marked), op.id);
    StateOnly(w, Step(w, op));
  }

  lemma MarkedKeyed(w: World, k: nat)
    requires KeyedWorld(w)
    ensures MayDeregister(w.s, k) ==> KeyedWorld(w.(s := DeregisterCheck(w.s, k)))
  {
  }

  lemma EndsKeyed(w: World, k: nat)
    requires KeyedWorld(w)
    ensures KeyedWorld(w.(s := DeregisterCommit(w.s, k))) && KeyedWorld(w.(s := DeregisterFail(w.s, k)))
  {
    hide AccountInvalidate;
  }

  lemma StateOnly(w: World, w': World)
    requires w'.registering == w.registering && KeyedWorld(w.(s := w'.s))
    ensures KeyedWorld(w')
  {
  }

  lemma RecoveringKeyed(w: World, p: PersistableState)
    requires KeyedWorld(w) && Integral(p)
    ensures KeyedWorld(Step(w, Recovering(p)))
  {
    hide Recover, RecoverBuffers, RecoverDomains, RecoverRegistrations;
    var s' := Recover(w.s, p);
    RecoverFrame(w.s, p);
    forall k | k in s'.buffers ensures s'.buffers[k].descriptor.id == k || s'.buffers[k].descriptor.id == 0 {
      RecoverBuffersAt(w.s, p.buffers, k);
    }
    forall id | id in s'.registrations ensures KeyedRecord(id, s'.registrations[id]) {
      RecoverRegistrationsAt(w.s, p.registrations, id);
    }
  }

  lemma StepKeyed(w: World, op: Op)
    requires KeyedWorld(w) && Proper(op) && Accepted(op)
    ensures KeyedWorld(Step(w, op))
  {
    hide KeyedWorld, Step, Recover, Accepted;
    if !Orderly(w, op) {
      Unordered(w, op);
    } else if Quiet(op) {
      QuietFrame(w, op);
      SameKeyed(w, Step(w, op));
    } else if op.DropDomain? || op.NewBuffer? {
      TablesKeyed(w, op);
    } else if op.Leasing? || op.Returning? || op.Revoking? || op.SoftRevoking? || op.Rotating? {
      RecordsKeyed(w, op);
    } else if op.Registering? || op.CheckRegister? || op.CallRegister? || op.CommitRegister? {
      CallsKeyed(w, op);
    } else if op.Recovering? {
      AcceptedRecovery(op);
      RecoveringKeyed(w, op.p);
    } else {
      DeregistersKeyed(w, op);
    }
  }

  lemma TablesKeyed(w: World, op: Op)
    requires KeyedWorld(w) && Proper(op) && Accepted(op) && Orderly(w, op) && (op.DropDomain? || op.NewBuffer?)
    ensures KeyedWorld(Step(w, op))
  {
    hide KeyedWorld, DestroyDomain, CreateBuffer;
    match op
    case DropDomain(d, order) => DropDomainKeyed(w, d, order);
    case NewBuffer(d, order) => NewBufferKeyed(w, d, order);
  }

  lemma AcceptedRecovery(op: Op)
    requires Accepted(op) && op.Recovering?
    ensures Integral(op.p)
  {
  }

  lemma SameKeyed(w: World, w': World)
    requires KeyedWorld(w) && w'.s.buffers == w.s.buffers && w'.s.registrations == w.s.registrations
    requires w'.registering == w.registering
    ensures KeyedWorld(w')
  {
  }

  lemma {:induction false} RunKeyed(w: World, ops: seq<Op>)
    requires KeyedWorld(w) && AllProper(ops) && forall op :: op in ops ==> Accepted(op)
    ensures KeyedWorld(Run(w, ops))
    decreases |ops|
  {
    hide Step, KeyedWorld, Accepted;
    if ops != [] {
      StepKeyed(w, ops[0]);
      RunKeyed(Step(w, ops[0]), ops[1..]);
    }
  }

  /**
   * Whatever a runtime has been through, calls in flight and recoveries included, while its
   * tables are small enough: the blob it saves is accepted exactly when no buffer was
   * created at generation zero and at most one without an identity.
   */
  lemma ReachableSaves(seed: nat, ops: seq<Op>, o: Orders)
    requires AllProper(ops) && (forall op :: op in ops ==> Accepted(op))
    requires var w := Run(Start(seed), ops);
             Visits(o, w.s) && Small(w.s) && Wide(Saved(w.s, w.b, o))
    ensures var w := Run(Start(seed), ops);
            && (Accept(Blob(Saved(w.s, w.b, o))).Ok? <==> Readable(w.s))
            && (Readable(w.s) ==> Accept(Blob(Saved(w.s, w.b, o))) == Ok(Canonical(Saved(w.s, w.b, o))))
  {
    hide Run, Visits, Small, Saved, Wide, Accept, Blob, Canonical, Accepted, Readable;
    var w := Run(Start(seed), ops);
    RunKeyed(Start(seed), ops);
    SavedOrders(w.s, o);
    SavedParses(w.s, w.b, o);
  }

  /** And if it is, a fresh runtime recovers all its identities exactly when every buffer carries its own. */
  lemma ReachableRecovers(seed: nat, ops: seq<Op>, o: Orders, s0: State)
    requires AllProper(ops) && (forall op :: op in ops ==> Accepted(op))
    requires var w := Run(Start(seed), ops);
             Visits(o, w.s) && Small(w.s) && Wide(Saved(w.s, w.b, o))
    requires s0.buffers == map[] && s0.domains == map[] && s0.registrations == map[]
    ensures var w := Run(Start(seed), ops);
            Accept(Blob(Saved(w.s, w.b, o))).Ok? ==>
              var s' := Recover(s0, Accept(Blob(Saved(w.s, w.b, o))).value);
              && s'.domains.Keys == w.s.domains.Keys && s'.registrations.Keys == w.s.registrations.Keys
              && (s'.buffers.Keys == w.s.buffers.Keys <==> forall k :: k in w.s.buffers ==> w.s.buffers[k].descriptor.id == k)
  {
    hide Run, Visits, Small, Saved, Wide, Accept, Blob, Canonical, Accepted, Readable, Recover;
    var w := Run(Start(seed), ops);
    ReachableSaves(seed, ops, o);
    SavedOrders(w.s, o);
    RunKeyed(Start(seed), ops);
    RecoveredIdentities(w.s, w.b, o, s0);
  }
}
