/**
 * The comparisons every operation is guarded by: authority currentness, buffer
 * ranges, access rights and the lifecycle table.
 */
module Checks {
  import opened Bytes
  import opened Records

  const MAX64: nat := WORD_LIMIT - 1

  // ---- access rights (include/rdmabuffer/enums.hpp) ---------------------------------

  const REMOTE_READ: Mask := 0x04
  const REMOTE_WRITE: Mask := 0x08
  const REMOTE_ATOMIC: Mask := 0x10

  predicate Superset(granted: Mask, requested: Mask) {
    granted & requested == requested
  }

  predicate Has(mask: Mask, right: Mask) {
    mask & right != 0
  }

  /** A mask covers another exactly when it has every right the other has. */
  lemma SupersetExact(granted: Mask, requested: Mask)
    ensures Superset(granted, requested) <==> forall right: Mask :: Has(requested, right) ==> Has(granted, right)
  {
    if Superset(granted, requested) {
      forall right: Mask | Has(requested, right) ensures Has(granted, right) {
        Covered(granted, requested, right);
      }
    } else {
      var lacking := requested & (granted ^ 0xFF);
      Lacking(granted, requested);
      assert Has(requested, lacking) && !Has(granted, lacking);
    }
  }

  lemma Covered(granted: Mask, requested: Mask, right: Mask)
    requires granted & requested == requested && requested & right != 0
    ensures granted & right != 0
  {
  }

  lemma Lacking(granted: Mask, requested: Mask)
    requires granted & requested != requested
    ensures requested & (requested & (granted ^ 0xFF)) != 0 && granted & (requested & (granted ^ 0xFF)) == 0
  {
  }

  function RightFor(kind: OperationKind): Mask {
    match kind
    case WRITE => REMOTE_WRITE
    case READ => REMOTE_READ
    case ATOMIC_COMPARE_SWAP => REMOTE_ATOMIC
  }

  // ---- authority ------------------------------------------------------------------------

  datatype AccessOutcome =
    | ALLOW | REJECT_STALE_EPOCH | REJECT_STALE_BOOT | REJECT_STALE_BUFFER | REJECT_STALE_REGISTRATION
    | REJECT_STALE_KEY | REJECT_RANGE | REJECT_PERMISSION | REJECT_DOMAIN | REJECT_BACKEND | REJECT_TRANSPORT
    | REJECT_REVOKED | REJECT_DEREGISTERED | REJECT_UNKNOWN_CAPABILITY | REJECT_NOT_REGISTERED | REJECT_LEASE

  /** The identities a caller claims to act under; zero is an absent identity. */
  datatype Envelope = Envelope(
    epoch: nat,
    workerBoot: nat,
    owner: nat,
    ownerGeneration: nat,
    workerGeneration: nat,
    node: nat,
    process: nat)

  function ValidateAuthority(snap: AuthoritySnapshot, env: Envelope): AccessOutcome {
    if env.epoch == 0 || snap.epoch == 0 || env.epoch != snap.epoch then REJECT_STALE_EPOCH
    else if env.workerBoot == 0 || snap.workerBoot == 0 || env.workerBoot != snap.workerBoot then REJECT_STALE_BOOT
    else if env.owner == 0 || snap.owner == 0 || env.owner != snap.owner then REJECT_PERMISSION
    else if env.ownerGeneration != 0 && snap.ownerGeneration != 0 && env.ownerGeneration != snap.ownerGeneration
    then REJECT_PERMISSION
    else if env.workerGeneration != 0 && snap.workerGeneration != 0 && env.workerGeneration != snap.workerGeneration
    then REJECT_PERMISSION
    else if env.node == 0 || snap.node == 0 || env.node != snap.node then REJECT_PERMISSION
    else ALLOW
  }

  /** The caller acts for the current epoch, boot, owner and node, all of them present. */
  predicate Current(snap: AuthoritySnapshot, env: Envelope) {
    && env.epoch == snap.epoch != 0 && env.workerBoot == snap.workerBoot != 0
    && env.owner == snap.owner != 0 && env.node == snap.node != 0
    && (env.ownerGeneration == 0 || snap.ownerGeneration == 0 || env.ownerGeneration == snap.ownerGeneration)
    && (env.workerGeneration == 0 || snap.workerGeneration == 0 || env.workerGeneration == snap.workerGeneration)
  }

  lemma AuthorityExact(snap: AuthoritySnapshot, env: Envelope)
    ensures ValidateAuthority(snap, env) == ALLOW <==> Current(snap, env)
  {
  }

  // ---- ranges --------------------------------------------------------------------------

  datatype RangeError = ZERO_LENGTH | NULL_OR_INVALID_POINTER | ZERO_ALIGNMENT | MISALIGNED_BASE | OVERFLOW

  /** `a + b` unless it leaves 64 bits, compared as the code compares it. */
  function CheckedAdd(a: nat, b: nat): (r: Option<nat>)
    requires a <= MAX64 && b <= MAX64
    ensures r == if a + b < WORD_LIMIT then Some(a + b) else None
  {
    if a > MAX64 - b then None else Some(a + b)
  }

  predicate Sized(d: BufferDescriptor) {
    d.address <= MAX64 && d.byteLength <= MAX64
  }

  function ValidateRange(d: BufferDescriptor): (r: Option<RangeError>)
    requires Sized(d)
    ensures r.None? ==> 0 < d.byteLength && d.address + d.byteLength < WORD_LIMIT
    ensures r.None? ==> d.alignment != 0 && d.address % d.alignment == 0
  {
    if d.byteLength == 0 then Some(ZERO_LENGTH)
    else if d.address == 0 && !d.domain.SYNTHETIC_REMOTE_CAPABLE? && !d.domain.FILE_BACKED?
    then Some(NULL_OR_INVALID_POINTER)
    else if d.alignment == 0 then Some(ZERO_ALIGNMENT)
    else if d.address % d.alignment != 0 then Some(MISALIGNED_BASE)
    else if CheckedAdd(d.address, d.byteLength).None? then Some(OVERFLOW)
    else None
  }

  predicate RangeInside(d: BufferDescriptor, offset: nat, length: nat)
    requires offset <= MAX64 && length <= MAX64
  {
    if offset > d.byteLength then false else
      match CheckedAdd(offset, length)
      case None => false
      case Some(end) => end <= d.byteLength
  }

  lemma RangeInsideExact(d: BufferDescriptor, offset: nat, length: nat)
    requires offset <= MAX64 && length <= MAX64 && Sized(d)
    ensures RangeInside(d, offset, length) <==> offset + length <= d.byteLength
  {
  }

  // ---- lifecycle (include/rdmabuffer/registration.hpp) ------------------------------------

  predicate CanTransition(from: Lifecycle, to: Lifecycle) {
    match from
    case UNREGISTERED => to.REGISTERING?
    case REGISTERING => to.REGISTERED? || to.ACTIVE? || to.FAILED? || to.UNREGISTERED?
    case REGISTERED => to.ACTIVE? || to.DEREGISTERING? || to.REVOKING? || to.STALE? || to.REVALIDATION_REQUIRED?
    case ACTIVE => to.REVOKING? || to.DEREGISTERING? || to.STALE? || to.REVALIDATION_REQUIRED?
    case REVOKING => to.REVOKED? || to.DEREGISTERING? || to.DEREGISTERED? || to.FAILED?
    case REVOKED => to.DEREGISTERING? || to.DEREGISTERED?
    case DEREGISTERING => to.DEREGISTERED? || to.FAILED?
    case DEREGISTERED => false
    case FAILED => to.UNREGISTERED? || to.DEREGISTERED?
    case STALE => to.REVALIDATION_REQUIRED? || to.DEREGISTERING? || to.DEREGISTERED?
    case REVALIDATION_REQUIRED => to.REGISTERING? || to.DEREGISTERED?
  }

  /** Reached by one edge of the table, or by two. */
  ghost predicate Path(from: Lifecycle, to: Lifecycle) {
    CanTransition(from, to) || exists via: Lifecycle :: CanTransition(from, via) && CanTransition(via, to)
  }

  function Rank(l: Lifecycle): nat {
    match l
    case ACTIVE => 5
    case REGISTERED => 5
    case REVOKING => 4
    case REVOKED => 3
    case STALE => 3
    case REVALIDATION_REQUIRED => 3
    case DEREGISTERING => 2
    case FAILED => 1
    case _ => 0
  }

  /** The states in which a registration may be leased, reused, revoked or rotated. */
  predicate Live(l: Lifecycle) {
    l.ACTIVE? || l.REGISTERED?
  }

  predicate Deregisterable(l: Lifecycle) {
    l.ACTIVE? || l.REGISTERED? || l.REVOKED? || l.STALE? || l.REVALIDATION_REQUIRED?
  }
}
