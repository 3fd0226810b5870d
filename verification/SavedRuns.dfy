/** Runs whose saved blobs are refused, and a runtime that recovers what it saved itself. */
module SavedRuns {
  import opened Records
  import opened BackendModel
  import opened Layouts
  import opened RecordFormats
  import opened Persistence
  import opened Runtime
  import opened Recovery
  import opened Worlds
  import opened Bridge
  import opened Inertness
  import opened Examples

  // ---- pages fit the widths of the format ---------------------------------------------------------------

  lemma PageWide(id: nat, generation: nat)
    requires id < 10 && generation < 10
    ensures RepresentableRow(DescriptorLayout, DescriptorRow(Page(id, generation)))
  {
    hide RepresentableRow, MaskByte;
    var d := Page(id, generation);
    PageParts(d);
    RepresentableConcat(MemoryFields, HolderFields, MemoryRow(d), HolderRow(d));
    RepresentableConcat(MemoryFields + HolderFields, TermFields, MemoryRow(d) + HolderRow(d), TermRow(d));
  }

  lemma PageParts(d: BufferDescriptor)
    requires d == Page(d.id, d.generation) && d.id < 10 && d.generation < 10
    ensures RepresentableRow(MemoryFields, MemoryRow(d)) && RepresentableRow(HolderFields, HolderRow(d))
    ensures RepresentableRow(TermFields, TermRow(d))
  {
    hide MaskByte;
  }

  /** A state with nothing but a few pages. */
  function PagesOnly(ds: seq<BufferDescriptor>, bytes: nat): PersistableState {
    PersistableState(FORMAT_VERSION, ds, [], [], [], [], [], CLEAN.(logicalBuffers := |ds|, liveBufferBytes := bytes), [], NO_AUTHORITY, 0)
  }

  lemma PagesWide(ds: seq<BufferDescriptor>, bytes: nat)
    requires |ds| < 10 && bytes < 100000
    requires forall i :: 0 <= i < |ds| ==> ds[i] == Page(ds[i].id, ds[i].generation) && ds[i].id < 10 && ds[i].generation < 10
    ensures Wide(PagesOnly(ds, bytes))
  {
    hide DescriptorRow, RepresentableRow;
    var p := PagesOnly(ds, bytes);
    HeadWide(p);
    CountersWide(p.accounting);
    forall i | 0 <= i < |ds| ensures RepresentableRow(DescriptorLayout, BufferRows(ds)[i].values) {
      PageWide(ds[i].id, ds[i].generation);
    }
    assert RepresentableRows(DescriptorLayout, BufferRows(ds));
    NoRows(RegistrationLayout);
    NoRows([Word64]);
    NoRows(RemoteKeyLayout);
    NoRows(LocalKeyLayout);
    NoRows(ReasonLayout);
    NoRows(BackendInfoLayout);
  }

  lemma NoRows(item: Layout)
    ensures Representable(List(MAX_COUNT, item), L([]))
  {
  }

  lemma HeadWide(p: PersistableState)
    requires p.authority == NO_AUTHORITY && p.policyGeneration == 0
    ensures RepresentableRow(HeadLayout, HeadRow(p))
  {
    RepresentableConcat([Word64], AuthorityLayout, [W(0)], AuthorityRow(NO_AUTHORITY));
  }

  lemma CountersWide(a: Accounting)
    requires a == CLEAN.(logicalBuffers := a.logicalBuffers, liveBufferBytes := a.liveBufferBytes)
    requires a.logicalBuffers < 10 && a.liveBufferBytes < 100000
    ensures RepresentableRow(AccountingLayout, AccountingRow(a))
  {
  }

  // ---- refused blobs ---------------------------------------------------------------------------------------

  /** Two buffers created without an identity. */
  ghost function TwoAnonymous(seed: nat): World {
    Step(Step(Start(seed), NewBuffer(Page(0, 1), [])), NewBuffer(Page(0, 1), []))
  }

  lemma TwoAnonymousIs(seed: nat)
    ensures var w := TwoAnonymous(seed);
            && w.s == Empty.(buffers := map[1 := BufferEntry(Page(0, 1), false), 2 := BufferEntry(Page(0, 1), false)],
                             acct := CLEAN.(logicalBuffers := 2, liveBufferBytes := 8192), nextBuffer := 3)
            && Reachable(seed, w)
  {
    hide Reachable, InvalidateAll;
    var w0 := Start(seed);
    assert Enumerates([], w0.s.registrations);
    ReachesStart(seed);
    ReachesStep(seed, w0, NewBuffer(Page(0, 1), []));
    ReachesStep(seed, Step(w0, NewBuffer(Page(0, 1), [])), NewBuffer(Page(0, 1), []));
  }

  /** The blob such a runtime saves cannot be read back. */
  lemma AnonymousRefused(seed: nat)
    ensures var (w, o) := (TwoAnonymous(seed), Orders([1, 2], [], []));
            && Reachable(seed, w) && Visits(o, w.s) && !Readable(w.s)
            && Accept(Blob(Saved(w.s, w.b, o))).Err?
  {
    hide Reachable, Accept, Blob, TwoAnonymous, Wide;
    TwoAnonymousIs(seed);
    var (w, o) := (TwoAnonymous(seed), Orders([1, 2], [], []));
    var ds := [Page(0, 1), Page(0, 1)];
    SavedPages(w.s, w.b, o, ds, 8192);
    PagesWide(ds, 8192);
    assert w.s.buffers[1].descriptor.id == 0 == w.s.buffers[2].descriptor.id;
    SavedParses(w.s, w.b, o);
  }

  lemma SavedPages(s: State, b: Backend, o: Orders, ds: seq<BufferDescriptor>, bytes: nat)
    requires s.registrations == map[] && s.domains == map[] && !s.attached && s.authority == NO_AUTHORITY
    requires o.registrations == [] && o.domains == [] && |o.buffers| == |ds|
    requires forall i :: 0 <= i < |ds| ==> o.buffers[i] in s.buffers && s.buffers[o.buffers[i]].descriptor == ds[i]
    requires s.acct == CLEAN.(logicalBuffers := |ds|, liveBufferBytes := bytes)
    ensures (forall id :: id in o.buffers ==> id in s.buffers) && Saved(s, b, o) == PagesOnly(ds, bytes)
  {
  }

  /** A buffer created at generation zero. */
  ghost function ZeroGeneration(seed: nat): World {
    Step(Start(seed), NewBuffer(Page(7, 0), []))
  }

  lemma ZeroGenerationRefused(seed: nat)
    ensures var (w, o) := (ZeroGeneration(seed), Orders([7], [], []));
            && Reachable(seed, w) && Visits(o, w.s) && !Readable(w.s)
            && Accept(Blob(Saved(w.s, w.b, o))).Err?
  {
    hide Reachable, Accept, Blob, Wide, InvalidateAll;
    var (w, o) := (ZeroGeneration(seed), Orders([7], [], []));
    assert Enumerates([], Start(seed).s.registrations);
    ReachesStart(seed);
    ReachesStep(seed, Start(seed), NewBuffer(Page(7, 0), []));
    assert w.s.buffers == map[7 := BufferEntry(Page(7, 0), false)];
    SavedPages(w.s, w.b, o, [Page(7, 0)], 4096);
    PagesWide([Page(7, 0)], 4096);
    SavedParses(w.s, w.b, o);
  }

  /** One buffer without an identity is read back, but under identity zero. */
  lemma OneAnonymousMoves(seed: nat, s0: State)
    requires s0.buffers == map[] && s0.domains == map[] && s0.registrations == map[]
    ensures var (w, o) := (Step(Start(seed), NewBuffer(Page(0, 1), [])), Orders([1], [], []));
            && Reachable(seed, w) && Visits(o, w.s)
            && Accept(Blob(Saved(w.s, w.b, o))) == Ok(Canonical(Saved(w.s, w.b, o)))
            && w.s.buffers.Keys == {1} && Recover(s0, Canonical(Saved(w.s, w.b, o))).buffers.Keys != {1}
  {
    hide Reachable, Accept, Blob, Wide, InvalidateAll, Recover, Canonical;
    var (w, o) := (Step(Start(seed), NewBuffer(Page(0, 1), [])), Orders([1], [], []));
    assert Enumerates([], Start(seed).s.registrations);
    ReachesStart(seed);
    ReachesStep(seed, Start(seed), NewBuffer(Page(0, 1), []));
    assert w.s.buffers == map[1 := BufferEntry(Page(0, 1), false)];
    SavedPages(w.s, w.b, o, [Page(0, 1)], 4096);
    PagesWide([Page(0, 1)], 4096);
    SavedParses(w.s, w.b, o);
    RecoveredIdentities(w.s, w.b, o, s0);
  }

  // ---- recovering one's own registrations ---------------------------------------------------------------------

  /** A fresh runtime that recovers what another saved after its first registration may see that record replaced. */
  lemma OwnRegistrationAtRisk(seed: nat)
    ensures var (v, o) := (Registered(seed), Orders([7], [1], [1]));
            && Reachable(seed, v) && Visits(o, v.s) && Keyed(v.s) && Readable(v.s)
            && (var w := Step(Start(seed), Recovering(Canonical(Saved(v.s, v.b, o))));
                && 1 in w.s.registrations && Inert(w.s.registrations[1])
                && exists more :: AllProper(more) && 1 in Run(w, more).s.registrations
                                  && Run(w, more).s.registrations[1].lifecycle.ACTIVE?)
  {
    hide Reachable, Registered, FirstRecord, FirstGrant, AccountCommit, RegisteredBackend, Run, Step, Logical, Reasons, Summaries, Inert;
    RegisteredIs(seed);
    FirstFacts(seed);
    FirstGeneration(seed);
    var (v, o) := (Registered(seed), Orders([7], [1], [1]));
    var p := Canonical(Saved(v.s, v.b, o));
    LogicalFacts(FirstRecord(seed));
    assert |p.registrations| == 1 && p.registrations[0].id == 1;
    RunNothing(Start(seed));
    RecoveryFrames(Start(seed), p, 0);
    RecoveredAtRisk(seed, [], p, 0);
  }

  lemma FirstGeneration(seed: nat)
    ensures FirstRecord(seed).registrationGeneration == 1
  {
    hide GrantFor;
  }
}
