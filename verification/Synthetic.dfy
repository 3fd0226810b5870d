/**
 * The synthetic backend as an object: its tables and generations are updated in place
 * by each call. `Value` is the backend of the model the methods are specified by.
 */
module Synthetic {
  import opened Records
  import opened Checks
  import opened Words
  import opened BackendModel

  /** Lexicographic order, as std::string compares. */
  predicate Before(a: Text, b: Text) {
    if b == [] then false
    else if a == [] then true
    else a[0] < b[0] || (a[0] == b[0] && Before(a[1..], b[1..]))
  }

  lemma {:induction false} BeforeTotal(a: Text, b: Text)
    ensures a == b || Before(a, b) || Before(b, a)
    ensures !(Before(a, b) && Before(b, a)) && !Before(a, a)
  {
    if a != [] && b != [] {
      BeforeTotal(a[1..], b[1..]);
      BeforeTotal(a[1..], a[1..]);
      if a[0] == b[0] && a[1..] == b[1..] {
        assert a == [a[0]] + a[1..] && b == [b[0]] + b[1..];
      }
    } else if a != [] {
      BeforeTotal(a[1..], a[1..]);
    }
  }

  lemma {:induction false} BeforeTransitive(a: Text, b: Text, c: Text)
    requires Before(a, b) && Before(b, c)
    ensures Before(a, c)
  {
    if a != [] && a[0] == b[0] && b[0] == c[0] {
      BeforeTransitive(a[1..], b[1..], c[1..]);
    }
  }

  class SyntheticBackend {
    var generation: nat
    var transportGeneration: nat
    var nicGeneration: nat
    const seed: nat
    var nextNumber: nat
    var profile: Profile
    var entries: map<Text, Entry>
    var regionHandle: map<nat, Text>

    function Value(): Backend
      reads this
    {
      Backend(generation, transportGeneration, nicGeneration, seed, nextNumber, profile, entries, regionHandle)
    }

    constructor (seed: nat)
      ensures Value() == Fresh(seed)
    {
      this.seed := seed;
      generation, transportGeneration, nicGeneration, nextNumber := 1, 1, 1, 1;
      profile := DEFAULT_PROFILE;
      entries, regionHandle := map[], map[];
    }

    method Configure(p: Profile)
      modifies this`profile
      ensures Value() == old(Value()).(profile := p)
    {
      profile := p;
    }

    /** The loop of domain_supported over the advertised domains. */
    method SupportsDomain(d: MemoryDomain) returns (ok: bool)
      ensures ok == DomainSupported(profile, d)
    {
      hide CapabilitiesOf;
      var listed := CapabilitiesOf(profile).supportedDomains;
      for i := 0 to |listed|
        invariant d !in listed[..i]
      {
        if listed[i] == d {
          return true;
        }
      }
      assert listed[..|listed|] == listed;
      ok := false;
    }

    method WhyNot(d: BufferDescriptor) returns (reason: Option<CannotRegister>)
      requires Sized(d)
      ensures reason == CanRegister(profile, d)
    {
      hide Has, DomainSupported;
      var supported := SupportsDomain(d.domain);
      if !supported {
        return Some(DOMAIN_UNSUPPORTED);
      }
      var range := ValidateRange(d);
      if range.Some? {
        return Some(BAD_RANGE(range.value));
      }
      var required := profile.requiredAlignment;
      if required != 0 && d.alignment != 0 && (d.alignment % required != 0 || required % d.alignment != 0) {
        return Some(ALIGNMENT_INCOMPATIBLE);
      }
      var wantsRead := Has(d.requestedAccess, REMOTE_READ);
      var wantsWrite := Has(d.requestedAccess, REMOTE_WRITE);
      var wantsAtomic := Has(d.requestedAccess, REMOTE_ATOMIC);
      if wantsRead && !profile.remoteRead {
        return Some(REMOTE_READ_UNSUPPORTED);
      }
      if wantsWrite && !profile.remoteWrite {
        return Some(REMOTE_WRITE_UNSUPPORTED);
      }
      if wantsAtomic && !profile.atomic {
        return Some(REMOTE_ATOMIC_UNSUPPORTED);
      }
      if (wantsRead || wantsWrite || wantsAtomic) && d.domain.CUDA_DEVICE? && !profile.cudaDevice {
        return Some(CUDA_DEVICE_UNSUPPORTED);
      }
      reason := None;
    }

    method Register(d: BufferDescriptor) returns (res: Result<Grant, CannotRegister>)
      requires Sized(d)
      modifies this
      ensures match RegisterBuffer(old(Value()), d)
              case Err(reason) => res == Err(reason) && Value() == old(Value())
              case Ok((b, g)) => res == Ok(g) && Value() == b
    {
      hide CanRegister, Region, HandleOf, RemoteKeyId, LocalKeyId, Xor64;
      var reason := WhyNot(d);
      if reason.Some? {
        return Err(reason.value);
      }
      var region := Region(seed, nextNumber);
      nextNumber := nextNumber + 1;
      var handle := HandleOf(region);
      var g := Grant(region, handle, d.address, d.byteLength, d.requestedAccess, RemoteKeyId(region),
                     LocalKeyId(region), 1, Xor64(region, OPAQUE_MASK));
      entries := entries[handle := Entry(g, 1, false, false)];
      regionHandle := regionHandle[region := handle];
      res := Ok(g);
    }

    /** deregister_buffer, and abort_registration, which does the same. */
    method Deregister(handle: Text) returns (ok: bool)
      modifies this
      ensures ok == Release(old(Value()), handle).Some?
      ensures Value() == if ok then Release(old(Value()), handle).value else old(Value())
    {
      if handle !in entries {
        return false;
      }
      regionHandle := regionHandle - {entries[handle].grant.region};
      entries := entries - {handle};
      ok := true;
    }

    method Query(handle: Text, keyGeneration: nat, kind: OperationKind, offset: nat, length: nat)
      returns (outcome: AccessOutcome)
      ensures outcome == QueryRemoteAccess(Value(), handle, keyGeneration, kind, offset, length)
    {
      hide Has;
      if handle !in entries {
        return REJECT_NOT_REGISTERED;
      }
      var e := entries[handle];
      if e.revalidate {
        return REJECT_STALE_REGISTRATION;
      }
      if e.revoked {
        return REJECT_REVOKED;
      }
      if keyGeneration != e.keyGeneration {
        return REJECT_STALE_KEY;
      }
      if offset > e.grant.length || length > e.grant.length - offset {
        return REJECT_RANGE;
      }
      match kind {
        case WRITE =>
          if !profile.remoteWrite {
            return REJECT_UNKNOWN_CAPABILITY;
          }
          if !Has(e.grant.access, REMOTE_WRITE) {
            return REJECT_PERMISSION;
          }
        case READ =>
          if !profile.remoteRead {
            return REJECT_UNKNOWN_CAPABILITY;
          }
          if !Has(e.grant.access, REMOTE_READ) {
            return REJECT_PERMISSION;
          }
        case ATOMIC_COMPARE_SWAP =>
          if !profile.atomic {
            return REJECT_UNKNOWN_CAPABILITY;
          }
          if !Has(e.grant.access, REMOTE_ATOMIC) {
            return REJECT_PERMISSION;
          }
      }
      outcome := ALLOW;
    }

    method RevalidateHandle(handle: Text) returns (outcome: AccessOutcome)
      modifies this
      ensures Value() == Revalidate(old(Value()), handle)
      ensures outcome == if handle in old(entries) then ALLOW else REJECT_NOT_REGISTERED
    {
      if handle !in entries {
        return REJECT_NOT_REGISTERED;
      }
      entries := entries[handle := entries[handle].(revalidate := false)];
      outcome := ALLOW;
    }

    method Rotate(handle: Text, newGeneration: nat) returns (ok: bool)
      modifies this
      ensures Value() == RotateKey(old(Value()), handle, newGeneration)
      ensures ok == (handle in old(entries))
    {
      if handle !in entries {
        return false;
      }
      var e := entries[handle];
      entries := entries[handle := e.(keyGeneration := newGeneration,
                                      grant := e.grant.(keyGeneration := newGeneration), revalidate := false)];
      ok := true;
    }

    method RolloverBackendGeneration()
      modifies this
      ensures Value() == RolloverBackend(old(Value()))
    {
      generation := generation + 1;
    }

    method RolloverNicGeneration()
      modifies this
      ensures Value() == RolloverNic(old(Value()))
    {
      nicGeneration := nicGeneration + 1;
    }

    /** The loop over the live entries, in whatever order the table gives them. */
    method RolloverTransportGeneration()
      modifies this
      ensures Value() == RolloverTransport(old(Value()))
    {
      transportGeneration := transportGeneration + 1;
      var todo := entries.Keys;
      while todo != {}
        invariant todo <= entries.Keys == old(entries).Keys
        invariant forall h :: h in entries ==>
          entries[h] == if h in todo then old(entries)[h]
                        else old(entries)[h].(revalidate := true, keyGeneration := old(entries)[h].keyGeneration + 1)
        invariant Value() == old(Value()).(transportGeneration := old(transportGeneration) + 1, entries := entries)
        decreases |todo|
      {
        var h :| h in todo;
        var e := entries[h];
        entries := entries[h := e.(revalidate := true, keyGeneration := e.keyGeneration + 1)];
        todo := todo - {h};
      }
    }

    method SimulateRestart()
      modifies this
      ensures Value() == BackendModel.Restart(old(Value()))
    {
      entries, regionHandle := map[], map[];
      generation, transportGeneration, nicGeneration := generation + 1, transportGeneration + 1, nicGeneration + 1;
    }

    /**
     * simulate_remote's selection: whatever order the table is scanned in, the result is
     * the smallest handle among the live entries at the given key generation.
     */
    method SelectHandle(keyGeneration: nat) returns (best: Option<Text>)
      ensures best.None? ==> forall h :: !Selectable(Value(), h, keyGeneration)
      ensures best.Some? ==>
        && Selectable(Value(), best.value, keyGeneration)
        && forall h :: Selectable(Value(), h, keyGeneration) && h != best.value ==> Before(best.value, h)
    {
      best := None;
      var todo := entries.Keys;
      while todo != {}
        invariant todo <= entries.Keys
        invariant best.None? ==> forall h :: Selectable(Value(), h, keyGeneration) ==> h in todo
        invariant best.Some? ==>
          && Selectable(Value(), best.value, keyGeneration) && best.value !in todo
          && forall h :: Selectable(Value(), h, keyGeneration) && h !in todo && h != best.value ==> Before(best.value, h)
        decreases |todo|
      {
        var h :| h in todo;
        todo := todo - {h};
        if Selectable(Value(), h, keyGeneration) {
          if best.None? {
            best := Some(h);
          } else {
            BeforeTotal(h, best.value);
            if Before(h, best.value) {
              forall k | Selectable(Value(), k, keyGeneration) && k !in todo && k != h ensures Before(h, k) {
                if k != best.value {
                  BeforeTransitive(h, best.value, k);
                }
              }
              best := Some(h);
            }
          }
        }
      }
    }

    /**
     * The selected entry is asked under the key material it was granted with; the delta of an
     * allowed operation is reduced modulo its length, whatever that is.
     */
    method SimulateRemote(kind: OperationKind, offset: nat, length: nat, keyGeneration: nat) returns (r: Simulation)
      ensures (forall h :: !Selectable(Value(), h, keyGeneration)) ==> r == Simulated(REJECT_STALE_KEY, 0)
      ensures forall h :: Smallest(Value(), h, keyGeneration) ==> r == SimulationOf(Value(), h, kind, offset, length)
    {
      hide QueryRemoteAccess, XorShift64, Xor64, Shl64;
      var best := SelectHandle(keyGeneration);
      if best.None? {
        return Simulated(REJECT_STALE_KEY, 0);
      }
      var e := entries[best.value];
      var outcome := Query(best.value, e.grant.keyGeneration, kind, offset, length);
      if outcome == ALLOW {
        var state := Xor64(Xor64(seed, e.grant.region), Shl64(offset, 3));
        r := if length == 0 then DividesByZero else Simulated(ALLOW, XorShift64(state) % length);
      } else {
        r := Simulated(outcome, 0);
      }
      forall h | Smallest(Value(), h, keyGeneration) ensures h == best.value {
        BeforeTotal(h, best.value);
      }
    }
  }

  // ---- simulated access ------------------------------------------------------------------------------

  /** What simulate_remote returns: the outcome and the result delta, unless it divides by zero. */
  datatype Simulation = Simulated(outcome: AccessOutcome, delta: nat) | DividesByZero

  /** An entry simulate_remote may select. */
  predicate Selectable(b: Backend, h: Text, keyGeneration: nat) {
    h in b.entries && !b.entries[h].revoked && !b.entries[h].revalidate && b.entries[h].keyGeneration == keyGeneration
  }

  /** The entry it selects. */
  ghost predicate Smallest(b: Backend, h: Text, keyGeneration: nat) {
    && Selectable(b, h, keyGeneration)
    && forall k :: Selectable(b, k, keyGeneration) && k != h ==> Before(h, k)
  }

  function SimulationOf(b: Backend, h: Text, kind: OperationKind, offset: nat, length: nat): Simulation
    requires h in b.entries
  {
    var g := b.entries[h].grant;
    var outcome := QueryRemoteAccess(b, h, g.keyGeneration, kind, offset, length);
    if outcome != ALLOW then Simulated(outcome, 0)
    else if length == 0 then DividesByZero
    else Simulated(ALLOW, XorShift64(Xor64(Xor64(b.seed, g.region), Shl64(offset, 3))) % length)
  }

  /**
   * The simulation divides by zero exactly for a request of length zero, at an offset within
   * the region, of a kind supported and granted, under the key generation first granted.
   */
  lemma DividesExactly(b: Backend, h: Text, keyGeneration: nat, kind: OperationKind, offset: nat, length: nat)
    requires Selectable(b, h, keyGeneration)
    ensures var (g, r) := (b.entries[h].grant, SimulationOf(b, h, kind, offset, length));
            && (r == DividesByZero <==>
                  length == 0 && keyGeneration == g.keyGeneration && offset <= g.length
                  && Supports(b.profile, kind) && Has(g.access, RightFor(kind)))
            && (r.Simulated? ==> if r.outcome == ALLOW then r.delta < length && offset + length <= g.length else r.delta == 0)
  {
    hide XorShift64, Xor64, Shl64, Has, Supports;
  }

  /**
   * A transport rollover moves only the entry's own generation. After it, revalidating
   * the handle is not enough: the granted key stays behind until the key is rotated.
   */
  lemma RevalidationIsNotEnough(b: Backend, h: Text, kind: OperationKind, offset: nat, length: nat)
    requires h in b.entries && b.entries[h].grant.keyGeneration <= b.entries[h].keyGeneration
    ensures var b' := Revalidate(RolloverTransport(b), h);
            QueryRemoteAccess(b', h, b'.entries[h].grant.keyGeneration, kind, offset, length)
              == if b.entries[h].revoked then REJECT_REVOKED else REJECT_STALE_KEY
  {
  }
}
