/**
 * save and recover of src/registry.cpp, with the blob as a value: the state that is
 * written, and what a runtime makes of a state that was read.
 */
module Recovery {
  import opened Records
  import opened BackendModel
  import opened Runtime
  import opened Persistence

  // ---- save -------------------------------------------------------------------------------

  /** A record as it is saved: without its backend material, to be revalidated. */
  function Logical(rec: RegistrationRecord): RegistrationRecord {
    rec.(handle := [], regionId := 0, localKey := rec.localKey.(opaqueValue := 0),
         remoteKey := rec.remoteKey.(opaqueValue := 0),
         lifecycle := REVALIDATION_REQUIRED, freshness := FRESH_REVALIDATION_REQUIRED)
  }

  const BACKEND_NAME: Text := Ascii("synthetic-rdma")

  function Summaries(s: State, b: Backend): seq<BackendInfo> {
    if s.attached
    then [BackendInfo(SYNTHETIC_ID, BACKEND_NAME, [], SYNTHETIC, READY, b.generation, 0, 0, CapabilitiesOf(b.profile))]
    else []
  }

  /** The iteration orders of the three tables that are saved. */
  datatype Orders = Orders(buffers: seq<nat>, registrations: seq<nat>, domains: seq<nat>)

  ghost predicate Visits(o: Orders, s: State) {
    && Enumerates(o.buffers, s.buffers) && Enumerates(o.registrations, s.registrations) && Enumerates(o.domains, s.domains)
  }

  function Reasons(s: State, order: seq<nat>): seq<Text>
    requires forall id :: id in order ==> id in s.registrations
  {
    if order == [] then [] else
      var last := s.registrations[order[|order| - 1]].reason;
      Reasons(s, order[..|order| - 1]) + if last == [] then [] else [last]
  }

  function DescriptorsIn(m: map<nat, BufferEntry>, order: seq<nat>): seq<BufferDescriptor>
    requires forall id :: id in order ==> id in m
  {
    seq(|order|, i requires 0 <= i < |order| => m[order[i]].descriptor)
  }

  function RecordsIn(m: map<nat, RegistrationRecord>, order: seq<nat>): seq<RegistrationRecord>
    requires forall id :: id in order ==> id in m
  {
    seq(|order|, i requires 0 <= i < |order| => Logical(m[order[i]]))
  }

  function RemoteKeysIn(m: map<nat, RegistrationRecord>, order: seq<nat>): seq<RemoteKey>
    requires forall id :: id in order ==> id in m
  {
    seq(|order|, i requires 0 <= i < |order| => m[order[i]].remoteKey)
  }

  function LocalKeysIn(m: map<nat, RegistrationRecord>, order: seq<nat>): seq<LocalKey>
    requires forall id :: id in order ==> id in m
  {
    seq(|order|, i requires 0 <= i < |order| => m[order[i]].localKey)
  }

  function Saved(s: State, b: Backend, o: Orders): PersistableState
    requires forall id :: id in o.buffers ==> id in s.buffers
    requires forall id :: id in o.registrations ==> id in s.registrations
  {
    PersistableState(
      FORMAT_VERSION, DescriptorsIn(s.buffers, o.buffers), RecordsIn(s.registrations, o.registrations), o.domains,
      RemoteKeysIn(s.registrations, o.registrations), LocalKeysIn(s.registrations, o.registrations),
      Reasons(s, o.registrations), s.acct, Summaries(s, b), s.authority, s.authority.policyGeneration)
  }

  // ---- recover ------------------------------------------------------------------------------

  function RecoverBuffer(s: State, d: BufferDescriptor): State {
    if d.id in s.buffers then s else
      s.(buffers := s.buffers[d.id := BufferEntry(d, false)],
         acct := s.acct.(logicalBuffers := s.acct.logicalBuffers + 1,
                         liveBufferBytes := s.acct.liveBufferBytes + d.byteLength))
  }

  function RecoverDomain(s: State, d: nat): State {
    if d in s.domains then s else
      s.(domains := s.domains[d := DomainEntry(UNKNOWN_DOMAIN, DOMAIN_ACTIVE, 1, 0, 0)],
         acct := s.acct.(protectionDomains := s.acct.protectionDomains + 1))
  }

  /** A recovered record is not live: its key is revoked and its handle gone. */
  function Parked(rec: RegistrationRecord): RegistrationRecord {
    rec.(lifecycle := REVALIDATION_REQUIRED, freshness := FRESH_REVALIDATION_REQUIRED,
         remoteKey := rec.remoteKey.(revoked := true, opaqueValue := 0),
         localKey := rec.localKey.(opaqueValue := 0), handle := [], regionId := 0)
  }

  /** An existing record under the same identity is replaced. */
  function RecoverRegistration(s: State, rec: RegistrationRecord): State {
    s.(registrations := s.registrations[rec.id := Parked(rec)])
  }

  function RecoverBuffers(s: State, ds: seq<BufferDescriptor>): State {
    if ds == [] then s else RecoverBuffer(RecoverBuffers(s, ds[..|ds| - 1]), ds[|ds| - 1])
  }

  function RecoverDomains(s: State, ds: seq<nat>): State {
    if ds == [] then s else RecoverDomain(RecoverDomains(s, ds[..|ds| - 1]), ds[|ds| - 1])
  }

  function RecoverRegistrations(s: State, rs: seq<RegistrationRecord>): State {
    if rs == [] then s else RecoverRegistration(RecoverRegistrations(s, rs[..|rs| - 1]), rs[|rs| - 1])
  }

  function Recover(s: State, p: PersistableState): State {
    RecoverRegistrations(RecoverDomains(RecoverBuffers(s, p.buffers), p.domains), p.registrations).(authority := p.authority)
  }

  // ---- what the loops amount to ------------------------------------------------------------------

  lemma {:induction false} RecoverBuffersFrame(s: State, ds: seq<BufferDescriptor>)
    ensures var s' := RecoverBuffers(s, ds);
            s' == s.(buffers := s'.buffers, acct := s.acct.(logicalBuffers := s'.acct.logicalBuffers,
                                                            liveBufferBytes := s'.acct.liveBufferBytes))
  {
    if ds != [] {
      RecoverBuffersFrame(s, ds[..|ds| - 1]);
    }
  }

  /** A buffer already known is kept as it is; others are added from the list. */
  lemma {:induction false} RecoverBuffersAt(s: State, ds: seq<BufferDescriptor>, id: nat)
    ensures var m := RecoverBuffers(s, ds).buffers;
            && (id in s.buffers ==> id in m && m[id] == s.buffers[id])
            && (id in m && id !in s.buffers ==> m[id].descriptor in ds && m[id].descriptor.id == id)
            && (id in m <==> id in s.buffers || exists d :: d in ds && d.id == id)
  {
    if ds != [] {
      var front, last := ds[..|ds| - 1], ds[|ds| - 1];
      RecoverBuffersAt(s, front, id);
      assert ds == front + [last];
      assert forall d :: d in ds <==> d in front || d == last;
    }
  }

  lemma {:induction false} RecoverDomainsFrame(s: State, ds: seq<nat>)
    ensures var s' := RecoverDomains(s, ds);
            s' == s.(domains := s'.domains, acct := s.acct.(protectionDomains := s'.acct.protectionDomains))
  {
    if ds != [] {
      RecoverDomainsFrame(s, ds[..|ds| - 1]);
    }
  }

  lemma {:induction false} RecoverDomainsAt(s: State, ds: seq<nat>, d: nat)
    ensures var m := RecoverDomains(s, ds).domains;
            && (d in m <==> d in s.domains || d in ds)
            && (d in s.domains ==> m[d] == s.domains[d])
            && (d in m && d !in s.domains ==> m[d].state.DOMAIN_ACTIVE?)
  {
    if ds != [] {
      var front, last := ds[..|ds| - 1], ds[|ds| - 1];
      RecoverDomainsAt(s, front, d);
      assert ds == front + [last];
    }
  }

  lemma {:induction false} RecoverRegistrationsFrame(s: State, rs: seq<RegistrationRecord>)
    ensures var s' := RecoverRegistrations(s, rs); s' == s.(registrations := s'.registrations)
  {
    if rs != [] {
      RecoverRegistrationsFrame(s, rs[..|rs| - 1]);
    }
  }

  /** A listed identity ends up parked, whatever was filed under it before; others are untouched. */
  lemma {:induction false} RecoverRegistrationsAt(s: State, rs: seq<RegistrationRecord>, id: nat)
    ensures var m := RecoverRegistrations(s, rs).registrations;
            && (id in m <==> id in s.registrations || exists r :: r in rs && r.id == id)
            && (id in m ==> (id in s.registrations && m[id] == s.registrations[id] && !exists r :: r in rs && r.id == id)
                            || exists r :: r in rs && r.id == id && m[id] == Parked(r))
  {
    hide Parked;
    if rs != [] {
      var front, last := rs[..|rs| - 1], rs[|rs| - 1];
      RecoverRegistrationsAt(s, front, id);
      assert rs == front + [last];
      assert forall r :: r in rs <==> r in front || r == last;
    }
  }

  /** Recovering touches the tables of buffers, domains and registrations, the counters that follow them, and the authority. */
  lemma RecoverFrame(s: State, p: PersistableState)
    ensures var s' := Recover(s, p);
            s' == s.(buffers := RecoverBuffers(s, p.buffers).buffers, domains := RecoverDomains(s, p.domains).domains,
                     registrations := RecoverRegistrations(s, p.registrations).registrations, authority := p.authority,
                     acct := s.acct.(logicalBuffers := RecoverBuffers(s, p.buffers).acct.logicalBuffers,
                                     liveBufferBytes := RecoverBuffers(s, p.buffers).acct.liveBufferBytes,
                                     protectionDomains := RecoverDomains(s, p.domains).acct.protectionDomains))
  {
    hide RecoverBuffers, RecoverDomains, RecoverRegistrations;
    var s1 := RecoverBuffers(s, p.buffers);
    var s2 := RecoverDomains(s1, p.domains);
    RecoverBuffersFrame(s, p.buffers);
    RecoverDomainsFrame(s, p.domains);
    RecoverDomainsFrame(s1, p.domains);
    RecoverRegistrationsFrame(s, p.registrations);
    RecoverRegistrationsFrame(s2, p.registrations);
    DomainsAlone(s, s1, p.domains);
    RegistrationsAlone(s, s2, p.registrations);
  }

  lemma {:induction false} DomainsAlone(s: State, t: State, ds: seq<nat>)
    requires s.domains == t.domains && s.acct.protectionDomains == t.acct.protectionDomains
    ensures RecoverDomains(s, ds).domains == RecoverDomains(t, ds).domains
    ensures RecoverDomains(s, ds).acct.protectionDomains == RecoverDomains(t, ds).acct.protectionDomains
  {
    if ds != [] {
      DomainsAlone(s, t, ds[..|ds| - 1]);
    }
  }

  lemma {:induction false} RegistrationsAlone(s: State, t: State, rs: seq<RegistrationRecord>)
    requires s.registrations == t.registrations
    ensures RecoverRegistrations(s, rs).registrations == RecoverRegistrations(t, rs).registrations
  {
    if rs != [] {
      RegistrationsAlone(s, t, rs[..|rs| - 1]);
    }
  }
}
