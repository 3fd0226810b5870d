/**
 * Buffer conservation in every run, recovery and interleavings included: the counters
 * follow the table of buffers, and a buffer's generation only rises.
 */
module Buffers {
  import opened Records
  import opened Checks
  import opened BackendModel
  import opened Runtime
  import opened Recovery
  import opened Worlds
  import opened Evolution
  import opened Totals

  function Length(): BufferEntry -> nat {
    (e: BufferEntry) => e.descriptor.byteLength
  }

  ghost predicate Follow(buffers: map<nat, BufferEntry>, count: nat, bytes: nat) {
    count == |buffers| && bytes == Total(buffers, Length())
  }

  ghost predicate Tracked(s: State) {
    Follow(s.buffers, s.acct.logicalBuffers, s.acct.liveBufferBytes)
  }

  /** No buffer is forgotten and none goes back a generation. */
  predicate Rises(s: State, s': State) {
    forall k :: k in s.buffers ==>
      k in s'.buffers && s.buffers[k].descriptor.generation <= s'.buffers[k].descriptor.generation
  }

  predicate BuffersAside(s: State, s': State) {
    && s'.buffers == s.buffers && s'.acct.logicalBuffers == s.acct.logicalBuffers
    && s'.acct.liveBufferBytes == s.acct.liveBufferBytes
  }

  lemma AsideTracked(s: State, s': State)
    requires Tracked(s) && BuffersAside(s, s')
    ensures Tracked(s') && Rises(s, s')
  {
  }

  // ---- the two operations that touch buffers -----------------------------------------------------

  lemma Added(buffers: map<nat, BufferEntry>, count: nat, bytes: nat, key: nat, e: BufferEntry)
    requires Follow(buffers, count, bytes) && key !in buffers
    ensures Follow(buffers[key := e], count + 1, bytes + e.descriptor.byteLength)
  {
    Put(buffers, Length(), key, e);
  }

  /** A reallocation adjusts the live bytes by the difference; a shrinking one is never refused. */
  lemma Replaced(buffers: map<nat, BufferEntry>, count: nat, bytes: nat, key: nat, e: BufferEntry)
    requires Follow(buffers, count, bytes) && key in buffers
    ensures var (was, now) := (buffers[key].descriptor.byteLength, e.descriptor.byteLength);
            && (was > now ==> was - now <= bytes)
            && Follow(buffers[key := e], count, if now >= was then bytes + (now - was) else Decrement(bytes, was - now))
  {
    Put(buffers, Length(), key, e);
    AtLeast(buffers, Length(), key);
    assert |buffers[key := e]| == |buffers| by {
      assert buffers[key := e].Keys == buffers.Keys;
    }
  }

  /** Creating a buffer is refused unless the identity is new or the generation is higher than before. */
  lemma NewBufferTracked(s: State, d: BufferDescriptor, order: seq<nat>)
    requires Tracked(s)
    ensures Tracked(CreateBuffer(s, d, order))
    ensures CreateBuffer(s, d, order).buffers
         == if CreateRefused(s, d) then s.buffers else s.buffers[BufferKey(s, d) := BufferEntry(d, false)]
  {
    hide InvalidateAll, Follow, Decrement;
    var key := BufferKey(s, d);
    var s0 := if d.id != 0 then s else s.(nextBuffer := s.nextBuffer + 1);
    InvalidateAllFrame(s0, order, Reallocated(key));
    if !CreateRefused(s, d) {
      if key in s.buffers {
        Replaced(s.buffers, s.acct.logicalBuffers, s.acct.liveBufferBytes, key, BufferEntry(d, false));
      } else {
        Added(s.buffers, s.acct.logicalBuffers, s.acct.liveBufferBytes, key, BufferEntry(d, false));
      }
    }
  }

  lemma NewBufferRises(s: State, d: BufferDescriptor, order: seq<nat>)
    requires Tracked(s)
    ensures Rises(s, CreateBuffer(s, d, order))
  {
    hide CreateBuffer, Tracked;
    NewBufferTracked(s, d, order);
  }

  lemma {:induction false} RecoverBuffersTracked(s: State, ds: seq<BufferDescriptor>)
    requires Tracked(s)
    ensures Tracked(RecoverBuffers(s, ds)) && Rises(s, RecoverBuffers(s, ds))
  {
    hide Follow;
    if ds != [] {
      var s1, d := RecoverBuffers(s, ds[..|ds| - 1]), ds[|ds| - 1];
      RecoverBuffersTracked(s, ds[..|ds| - 1]);
      if d.id !in s1.buffers {
        Added(s1.buffers, s1.acct.logicalBuffers, s1.acct.liveBufferBytes, d.id, BufferEntry(d, false));
      }
    }
  }

  lemma RecoveringTracked(s: State, p: PersistableState)
    requires Tracked(s)
    ensures Tracked(Recover(s, p)) && Rises(s, Recover(s, p))
  {
    hide Recover, RecoverBuffers, RecoverDomains, RecoverRegistrations, Total;
    RecoverFrame(s, p);
    RecoverBuffersTracked(s, p.buffers);
    RecoverBuffersFrame(s, p.buffers);
  }

  // ---- all others -----------------------------------------------------------------------------------

  lemma RecordsAside(w: World, op: Op)
    requires Proper(op) && Orderly(w, op)
    requires op.DropDomain? || op.Leasing? || op.Returning? || op.Revoking? || op.SoftRevoking? || op.Rotating?
    ensures BuffersAside(w.s, Step(w, op).s)
  {
    hide InvalidateAll, RevokeLeases, LeaseMissReason, GrantedLease, RotatedRecord, RotateKey, Enumerates;
    match op
    case DropDomain(d, order) =>
      InvalidateAllFrame(w.s, order, DomainDestroyed(d));
    case Revoking(id, order) =>
      if Revocable(w.s, id) {
        var r := RevokedRecord(w.s.registrations[id]);
        RevokeLeasesFrame(w.s.(registrations := w.s.registrations[id := r]), order, id);
      }
    case Leasing(id, env, needed) => LeasingAside(w.s, id, env, needed);
    case _ =>
  }

  lemma LeasingAside(s: State, id: nat, env: Envelope, needed: Mask)
    ensures BuffersAside(s, AcquireLease(s, id, env, needed))
  {
  }

  lemma CallsAside(w: World, op: Op)
    requires Proper(op)
    requires op.Registering? || op.CheckRegister? || op.CallRegister? || op.CommitRegister?
    ensures BuffersAside(w.s, Step(w, op).s)
  {
    hide RegisterMiss, CanRegister, GrantFor, BegunRecord, CommittedRecord, RegisterCall;
    if op.Registering? {
      RegisteringAside(w, op.d, op.backend, op.domain, op.env);
    }
  }

  lemma RegisteringAside(w: World, d: BufferDescriptor, backend: nat, domain: nat, env: Envelope)
    requires Sized(d)
    ensures BuffersAside(w.s, RegisterCall(w, d, backend, domain, env).s)
  {
    hide RegisterMiss, CanRegister, GrantFor, BegunRecord, CommittedRecord;
  }

  lemma DeregistersAside(w: World, op: Op)
    requires Proper(op)
    requires op.Deregistering? || op.CheckDeregister? || op.CallDeregister? || op.CommitDeregister?
    ensures BuffersAside(w.s, Step(w, op).s)
  {
    hide DeregisterCommit, DeregisterFail, Release;
    forall id, s ensures BuffersAside(s, DeregisterCommit(s, id)) && BuffersAside(s, DeregisterFail(s, id)) {
      EndsAside(s, id);
    }
  }

  lemma EndsAside(s: State, id: nat)
    ensures BuffersAside(s, DeregisterCommit(s, id)) && BuffersAside(s, DeregisterFail(s, id))
  {
    hide Decrement;
  }

  lemma StepTracked(w: World, op: Op)
    requires Proper(op) && Tracked(w.s)
    ensures Tracked(Step(w, op).s) && Rises(w.s, Step(w, op).s)
  {
    hide Tracked, Rises, DestroyDomain, CreateBuffer, AcquireLease, ReleaseLease, HardRevoke, SoftRevoke, Recover;
    hide RegisterCall, DeregisterCall, CheckRegisterStep, CallRegisterStep, CommitRegisterStep;
    hide CheckDeregisterStep, CallDeregisterStep, CommitDeregisterStep, RotateRegistration, BuffersAside;
    var s' := Step(w, op).s;
    if !Orderly(w, op) {
      NothingAside(w.s);
      AsideTracked(w.s, s');
    } else if Quiet(op) {
      QuietAside(w, op);
      AsideTracked(w.s, s');
    } else if op.NewBuffer? {
      NewBufferTracked(w.s, op.d, op.order);
      NewBufferRises(w.s, op.d, op.order);
    } else if op.Recovering? {
      RecoveringTracked(w.s, op.p);
    } else if op.DropDomain? || op.Leasing? || op.Returning? || op.Revoking? || op.SoftRevoking? || op.Rotating? {
      RecordsAside(w, op);
      AsideTracked(w.s, s');
    } else {
      if op.Deregistering? || op.CheckDeregister? || op.CallDeregister? || op.CommitDeregister? {
        DeregistersAside(w, op);
      } else {
        CallsAside(w, op);
      }
      AsideTracked(w.s, s');
    }
  }

  lemma NothingAside(s: State)
    ensures BuffersAside(s, s)
  {
  }

  lemma QuietAside(w: World, op: Op)
    requires Proper(op) && Quiet(op)
    ensures BuffersAside(w.s, Step(w, op).s)
  {
    hide Step;
    QuietFrame(w, op);
  }

  lemma {:induction false} RunTracked(w: World, ops: seq<Op>)
    requires AllProper(ops) && Tracked(w.s)
    ensures Tracked(Run(w, ops).s) && Rises(w.s, Run(w, ops).s)
    decreases |ops|
  {
    hide Step, Tracked;
    if ops != [] {
      StepTracked(w, ops[0]);
      RunTracked(Step(w, ops[0]), ops[1..]);
    }
  }

  /** In every reachable state the counters are the number of buffers and the sum of their lengths. */
  lemma BufferConservation(seed: nat, ops: seq<Op>)
    requires AllProper(ops)
    ensures var s := Run(Start(seed), ops).s;
            s.acct.logicalBuffers == |s.buffers| && s.acct.liveBufferBytes == Total(s.buffers, Length())
  {
    hide Run;
    assert Tracked(Start(seed).s);
    RunTracked(Start(seed), ops);
  }
}
