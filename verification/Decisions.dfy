/**
 * Which answer a request gets. validate_remote_access is given once more as a flat list of
 * conditions on the record, the request and the backend's entry, each with the outcome of
 * its failure; the answer is that of the first condition that fails.
 */
module Decisions {
  import opened Records
  import opened Checks
  import opened BackendModel
  import opened Runtime
  import opened Tables

  /** Two identities are given on both sides and agree. */
  predicate Same(a: nat, b: nat) {
    a != 0 && a == b
  }

  /** The caller states no value, or the right one. */
  predicate Asks(stated: nat, actual: nat) {
    stated == 0 || stated == actual
  }

  /** One side states no generation, or both the same. */
  predicate Agree(a: nat, b: nat) {
    a == 0 || b == 0 || a == b
  }

  /** What the table answers; without a failing condition, ALLOW. */
  function Answer(cs: seq<Check<AccessOutcome>>): AccessOutcome {
    match First(cs)
    case None => ALLOW
    case Some(o) => o
  }

  function Withdrawn(): set<Lifecycle> {
    {REVOKED, DEREGISTERED, STALE, REVOKING}
  }

  function AuthorityChecks(snap: AuthoritySnapshot, env: Envelope): seq<Check<AccessOutcome>> {
    [Check(Same(env.epoch, snap.epoch), REJECT_STALE_EPOCH),
     Check(Same(env.workerBoot, snap.workerBoot), REJECT_STALE_BOOT),
     Check(&& Same(env.owner, snap.owner) && Same(env.node, snap.node)
           && Agree(env.ownerGeneration, snap.ownerGeneration) && Agree(env.workerGeneration, snap.workerGeneration),
           REJECT_PERMISSION)]
  }

  function RecordChecks(s: State, b: Backend, rec: RegistrationRecord, q: Request): seq<Check<AccessOutcome>> {
    [Check(Asks(q.expectedRegistrationGeneration, rec.registrationGeneration), REJECT_STALE_REGISTRATION),
     Check(Asks(q.expectedBufferGeneration, rec.bufferGeneration), REJECT_STALE_BUFFER),
     Check(Asks(q.expectedKeyGeneration, rec.remoteKey.keyGeneration) && !rec.remoteKey.revoked, REJECT_STALE_KEY),
     Check(Asks(q.backend, rec.backend) && s.attached && rec.backend == SYNTHETIC_ID && b.generation == rec.backendGeneration,
           REJECT_BACKEND),
     Check(Asks(q.transport, rec.transport), REJECT_TRANSPORT),
     Check(Asks(q.domain, rec.domainId), REJECT_DOMAIN),
     Check(Superset(rec.grantedAccess, q.requiredRights) && Has(rec.grantedAccess, RightFor(q.kind)), REJECT_PERMISSION),
     Check(q.kind == ATOMIC_COMPARE_SWAP && Has(q.requiredRights, REMOTE_ATOMIC) ==> b.profile.atomic,
           REJECT_UNKNOWN_CAPABILITY),
     Check(q.offset + q.length <= rec.descriptor.byteLength && q.offset + q.length <= MAX64, REJECT_RANGE)]
  }

  function EntryChecks(b: Backend, e: Entry, keyGeneration: nat, kind: OperationKind, offset: nat, length: nat): seq<Check<AccessOutcome>> {
    [Check(!e.revalidate, REJECT_STALE_REGISTRATION),
     Check(!e.revoked, REJECT_REVOKED),
     Check(keyGeneration == e.keyGeneration, REJECT_STALE_KEY),
     Check(offset + length <= e.grant.length, REJECT_RANGE),
     Check(Supports(b.profile, kind), REJECT_UNKNOWN_CAPABILITY),
     Check(Has(e.grant.access, RightFor(kind)), REJECT_PERMISSION)]
  }

  /** The backend's part: the entry, asked under the record's key generation. */
  function BackendChecks(b: Backend, h: Text, keyGeneration: nat, kind: OperationKind, offset: nat, length: nat): seq<Check<AccessOutcome>> {
    [Check(h in b.entries, REJECT_NOT_REGISTERED)]
    + if h in b.entries then EntryChecks(b, b.entries[h], keyGeneration, kind, offset, length) else []
  }

  /** All of it, in order. */
  function Conditions(s: State, b: Backend, q: Request): seq<Check<AccessOutcome>> {
    if q.registration !in s.registrations then [Check(false, REJECT_NOT_REGISTERED)] else
      var rec := s.registrations[q.registration];
      [Check(rec.lifecycle !in Withdrawn(), REJECT_REVOKED), Check(rec.freshness == VALID, REJECT_STALE_REGISTRATION)]
      + AuthorityChecks(s.authority, q.authority) + RecordChecks(s, b, rec, q)
      + BackendChecks(b, rec.handle, rec.remoteKey.keyGeneration, q.kind, q.offset, q.length)
  }

  // ---- the parts -------------------------------------------------------------------------------

  lemma AuthorityTable(snap: AuthoritySnapshot, env: Envelope)
    ensures ValidateAuthority(snap, env) == Answer(AuthorityChecks(snap, env))
  {
    hide First;
    var cs := AuthorityChecks(snap, env);
    if !cs[0].holds {
      FirstAt(cs, 0);
    } else if !cs[1].holds {
      FirstAt(cs, 1);
    } else if !cs[2].holds {
      FirstAt(cs, 2);
    } else {
      FirstNone(cs);
    }
  }

  lemma EntryTable(b: Backend, e: Entry, h: Text, keyGeneration: nat, kind: OperationKind, offset: nat, length: nat)
    requires h in b.entries && b.entries[h] == e
    ensures QueryRemoteAccess(b, h, keyGeneration, kind, offset, length)
         == Answer(EntryChecks(b, e, keyGeneration, kind, offset, length))
  {
    hide First, Has, Supports;
    var cs := EntryChecks(b, e, keyGeneration, kind, offset, length);
    if !cs[0].holds {
      FirstAt(cs, 0);
    } else if !cs[1].holds {
      FirstAt(cs, 1);
    } else if !cs[2].holds {
      FirstAt(cs, 2);
    } else if !cs[3].holds {
      FirstAt(cs, 3);
    } else if !cs[4].holds {
      FirstAt(cs, 4);
    } else if !cs[5].holds {
      FirstAt(cs, 5);
    } else {
      FirstNone(cs);
    }
  }

  lemma BackendTable(b: Backend, h: Text, keyGeneration: nat, kind: OperationKind, offset: nat, length: nat)
    ensures QueryRemoteAccess(b, h, keyGeneration, kind, offset, length)
         == Answer(BackendChecks(b, h, keyGeneration, kind, offset, length))
  {
    hide EntryChecks;
    var known := [Check(h in b.entries, REJECT_NOT_REGISTERED)];
    FirstOne(h in b.entries, REJECT_NOT_REGISTERED);
    if h in b.entries {
      EntryTable(b, b.entries[h], h, keyGeneration, kind, offset, length);
      FirstOfTwo(known, EntryChecks(b, b.entries[h], keyGeneration, kind, offset, length));
    } else {
      assert known + [] == known;
    }
  }

  lemma RecordTable(s: State, b: Backend, rec: RegistrationRecord, q: Request)
    requires Ranged(q)
    ensures Answer(RecordChecks(s, b, rec, q))
         == if CurrencyOutcome(s, b, rec, q) != ALLOW then CurrencyOutcome(s, b, rec, q) else GrantOutcome(b, rec, q)
  {
    hide First, Has, Superset;
    var cs := RecordChecks(s, b, rec, q);
    if !cs[0].holds {
      FirstAt(cs, 0);
    } else if !cs[1].holds {
      FirstAt(cs, 1);
    } else if !cs[2].holds {
      FirstAt(cs, 2);
    } else if !cs[3].holds {
      FirstAt(cs, 3);
    } else if !cs[4].holds {
      FirstAt(cs, 4);
    } else if !cs[5].holds {
      FirstAt(cs, 5);
    } else if !cs[6].holds {
      FirstAt(cs, 6);
    } else if !cs[7].holds {
      FirstAt(cs, 7);
    } else if !cs[8].holds {
      FirstAt(cs, 8);
    } else {
      FirstNone(cs);
    }
  }

  // ---- the answer --------------------------------------------------------------------------------

  /** Every answer, with the precedence of the conditions. */
  lemma AccessTable(s: State, b: Backend, q: Request)
    requires Ranged(q)
    ensures Access(s, b, q) == Answer(Conditions(s, b, q))
  {
    hide First, AuthorityChecks, RecordChecks, BackendChecks, CurrencyOutcome, GrantOutcome, QueryRemoteAccess, ValidateAuthority;
    if q.registration !in s.registrations {
      FirstOne(false, REJECT_NOT_REGISTERED);
    } else {
      var rec := s.registrations[q.registration];
      var status := [Check(rec.lifecycle !in Withdrawn(), REJECT_REVOKED), Check(rec.freshness == VALID, REJECT_STALE_REGISTRATION)];
      var own := RecordChecks(s, b, rec, q);
      StatusTable(rec, status);
      AuthorityTable(s.authority, q.authority);
      RecordTable(s, b, rec, q);
      BackendTable(b, rec.handle, rec.remoteKey.keyGeneration, q.kind, q.offset, q.length);
      NoneAllows(s, b, rec, q);
      OnlyRejects(status);
      OnlyRejects(AuthorityChecks(s.authority, q.authority));
      OnlyRejects(own);
      FirstOfTwo(status + AuthorityChecks(s.authority, q.authority) + own, BackendChecks(b, rec.handle, rec.remoteKey.keyGeneration, q.kind, q.offset, q.length));
      FirstOfTwo(status + AuthorityChecks(s.authority, q.authority), own);
      FirstOfTwo(status, AuthorityChecks(s.authority, q.authority));
    }
  }

  lemma StatusTable(rec: RegistrationRecord, status: seq<Check<AccessOutcome>>)
    requires status == [Check(rec.lifecycle !in Withdrawn(), REJECT_REVOKED), Check(rec.freshness == VALID, REJECT_STALE_REGISTRATION)]
    ensures Answer(status) == StatusOutcome(rec)
  {
    FirstOfTwo([status[0]], [status[1]]);
    assert [status[0]] + [status[1]] == status;
  }

  lemma NoneAllows(s: State, b: Backend, rec: RegistrationRecord, q: Request)
    ensures forall c :: c in AuthorityChecks(s.authority, q.authority) || c in RecordChecks(s, b, rec, q) ==> c.otherwise != ALLOW
  {
  }

  lemma OnlyRejects(cs: seq<Check<AccessOutcome>>)
    requires forall c :: c in cs ==> c.otherwise != ALLOW
    ensures Answer(cs) == ALLOW <==> First(cs) == None
  {
    FirstExact(cs, ALLOW);
  }

  /** So an outcome is given exactly when the first condition that fails carries it. */
  lemma AccessExact(s: State, b: Backend, q: Request, o: AccessOutcome)
    requires Ranged(q) && o != ALLOW
    ensures var cs := Conditions(s, b, q);
            Access(s, b, q) == o <==> exists i: nat :: FailsAt(cs, i) && cs[i].otherwise == o
  {
    hide Access, Conditions;
    AccessTable(s, b, q);
    FirstExact(Conditions(s, b, q), o);
  }
}
