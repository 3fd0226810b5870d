/** The value types of the runtime: enumerations, descriptors, keys, records, counters. */
module Records {
  import opened Bytes

  datatype Option<+T> = None | Some(value: T) {
    predicate IsFailure() {
      None?
    }

    function PropagateFailure<U>(): Option<U>
      requires None?
    {
      None
    }

    function Extract(): T
      requires Some?
    {
      value
    }
  }

  datatype Result<+T, +E> = Ok(value: T) | Err(error: E) {
    predicate IsFailure() {
      Err?
    }

    function PropagateFailure<U>(): Result<U, E>
      requires Err?
    {
      Err(error)
    }

    function Extract(): T
      requires Ok?
    {
      value
    }
  }

  type Text = seq<byte>

  function Ascii(s: string): (t: Text)
    ensures |t| == |s|
  {
    seq(|s|, i requires 0 <= i < |s| => (s[i] as int) % 256)
  }

  type Mask = bv8

  // ---- enumerations, each with its one-byte code (include/rdmabuffer/enums.hpp) ----

  datatype MemoryDomain =
    | HOST_PAGEABLE | HOST_PINNED | CUDA_DEVICE | CUDA_MANAGED | SHARED_MEMORY | FILE_BACKED
    | SYNTHETIC_REMOTE_CAPABLE | UNKNOWN_DOMAIN

  datatype PointerKind = VIRTUAL | DEVICE | SHARED | FILE | SYNTHETIC_POINTER | UNKNOWN_POINTER

  datatype Lifecycle =
    | UNREGISTERED | REGISTERING | REGISTERED | ACTIVE | REVOKING | REVOKED | DEREGISTERING
    | DEREGISTERED | FAILED | STALE | REVALIDATION_REQUIRED

  datatype Freshness = VALID | FRESH_REVALIDATION_REQUIRED | FRESH_STALE | FRESH_UNKNOWN

  datatype TransportClass =
    | INFINIBAND_CLASS | ROCE_CLASS | IWARP_CLASS | WINDOWS_ND_CLASS | LIBFABRIC_CLASS | VERBS_CLASS
    | TCP_REFERENCE | SYNTHETIC_TRANSPORT | UNKNOWN_TRANSPORT

  datatype Provenance = REAL | SYNTHETIC | UNKNOWN_PROVENANCE

  datatype RegistrationMode = PIN_ONLY | REMOTE_ACCESS | ANY

  datatype LifetimePolicy = TRANSACTIONAL | PERSISTENT | EPHEMERAL

  datatype TransferDirection = NONE | SEND | RECEIVE | BIDIRECTIONAL

  datatype CapabilityState = SUPPORTED | NOT_SUPPORTED | UNKNOWN_CAPABILITY

  datatype BackendState = READY | DISCOVERING | BACKEND_FAILED | BACKEND_DESTROYED

  datatype OperationKind = READ | WRITE | ATOMIC_COMPARE_SWAP

  function DomainOf(b: byte): MemoryDomain {
    match b
    case 0 => HOST_PAGEABLE
    case 1 => HOST_PINNED
    case 2 => CUDA_DEVICE
    case 3 => CUDA_MANAGED
    case 4 => SHARED_MEMORY
    case 5 => FILE_BACKED
    case 6 => SYNTHETIC_REMOTE_CAPABLE
    case _ => UNKNOWN_DOMAIN
  }

  function DomainCode(d: MemoryDomain): (b: byte)
    ensures b <= 7 && DomainOf(b) == d
  {
    match d
    case HOST_PAGEABLE => 0
    case HOST_PINNED => 1
    case CUDA_DEVICE => 2
    case CUDA_MANAGED => 3
    case SHARED_MEMORY => 4
    case FILE_BACKED => 5
    case SYNTHETIC_REMOTE_CAPABLE => 6
    case UNKNOWN_DOMAIN => 7
  }

  function PointerOf(b: byte): PointerKind {
    match b
    case 0 => VIRTUAL
    case 1 => DEVICE
    case 2 => SHARED
    case 3 => FILE
    case 4 => SYNTHETIC_POINTER
    case _ => UNKNOWN_POINTER
  }

  function PointerCode(k: PointerKind): (b: byte)
    ensures b <= 5 && PointerOf(b) == k
  {
    match k
    case VIRTUAL => 0
    case DEVICE => 1
    case SHARED => 2
    case FILE => 3
    case SYNTHETIC_POINTER => 4
    case UNKNOWN_POINTER => 5
  }

  function LifecycleOf(b: byte): Lifecycle {
    match b
    case 0 => UNREGISTERED
    case 1 => REGISTERING
    case 2 => REGISTERED
    case 3 => ACTIVE
    case 4 => REVOKING
    case 5 => REVOKED
    case 6 => DEREGISTERING
    case 7 => DEREGISTERED
    case 8 => FAILED
    case 9 => STALE
    case _ => REVALIDATION_REQUIRED
  }

  function LifecycleCode(l: Lifecycle): (b: byte)
    ensures b <= 10 && LifecycleOf(b) == l
  {
    match l
    case UNREGISTERED => 0
    case REGISTERING => 1
    case REGISTERED => 2
    case ACTIVE => 3
    case REVOKING => 4
    case REVOKED => 5
    case DEREGISTERING => 6
    case DEREGISTERED => 7
    case FAILED => 8
    case STALE => 9
    case REVALIDATION_REQUIRED => 10
  }

  function FreshnessOf(b: byte): Freshness {
    match b
    case 0 => VALID
    case 1 => FRESH_REVALIDATION_REQUIRED
    case 2 => FRESH_STALE
    case _ => FRESH_UNKNOWN
  }

  function FreshnessCode(f: Freshness): (b: byte)
    ensures b <= 3 && FreshnessOf(b) == f
  {
    match f
    case VALID => 0
    case FRESH_REVALIDATION_REQUIRED => 1
    case FRESH_STALE => 2
    case FRESH_UNKNOWN => 3
  }

  function TransportOf(b: byte): TransportClass {
    match b
    case 0 => INFINIBAND_CLASS
    case 1 => ROCE_CLASS
    case 2 => IWARP_CLASS
    case 3 => WINDOWS_ND_CLASS
    case 4 => LIBFABRIC_CLASS
    case 5 => VERBS_CLASS
    case 6 => TCP_REFERENCE
    case 7 => SYNTHETIC_TRANSPORT
    case _ => UNKNOWN_TRANSPORT
  }

  function TransportCode(t: TransportClass): (b: byte)
    ensures b <= 8 && TransportOf(b) == t
  {
    match t
    case INFINIBAND_CLASS => 0
    case ROCE_CLASS => 1
    case IWARP_CLASS => 2
    case WINDOWS_ND_CLASS => 3
    case LIBFABRIC_CLASS => 4
    case VERBS_CLASS => 5
    case TCP_REFERENCE => 6
    case SYNTHETIC_TRANSPORT => 7
    case UNKNOWN_TRANSPORT => 8
  }

  /** Out-of-range bytes read as UNKNOWN, as the backend snapshot decoder clamps them. */
  function ProvenanceOf(b: byte): Provenance {
    match b
    case 0 => REAL
    case 1 => SYNTHETIC
    case _ => UNKNOWN_PROVENANCE
  }

  function ProvenanceCode(p: Provenance): (b: byte)
    ensures b <= 2 && ProvenanceOf(b) == p
  {
    match p
    case REAL => 0
    case SYNTHETIC => 1
    case UNKNOWN_PROVENANCE => 2
  }

  function ModeOf(b: byte): RegistrationMode {
    match b
    case 0 => PIN_ONLY
    case 1 => REMOTE_ACCESS
    case _ => ANY
  }

  function ModeCode(m: RegistrationMode): (b: byte)
    ensures b <= 2 && ModeOf(b) == m
  {
    match m
    case PIN_ONLY => 0
    case REMOTE_ACCESS => 1
    case ANY => 2
  }

  function LifetimeOf(b: byte): LifetimePolicy {
    match b
    case 0 => TRANSACTIONAL
    case 1 => PERSISTENT
    case _ => EPHEMERAL
  }

  function LifetimeCode(l: LifetimePolicy): (b: byte)
    ensures b <= 2 && LifetimeOf(b) == l
  {
    match l
    case TRANSACTIONAL => 0
    case PERSISTENT => 1
    case EPHEMERAL => 2
  }

  function DirectionOf(b: byte): TransferDirection {
    match b
    case 0 => NONE
    case 1 => SEND
    case 2 => RECEIVE
    case _ => BIDIRECTIONAL
  }

  function DirectionCode(d: TransferDirection): (b: byte)
    ensures b <= 3 && DirectionOf(b) == d
  {
    match d
    case NONE => 0
    case SEND => 1
    case RECEIVE => 2
    case BIDIRECTIONAL => 3
  }

  /** Out-of-range bytes read as UNKNOWN, as the backend snapshot decoder clamps them. */
  function CapabilityOf(b: byte): CapabilityState {
    match b
    case 0 => SUPPORTED
    case 1 => NOT_SUPPORTED
    case _ => UNKNOWN_CAPABILITY
  }

  function CapabilityCode(c: CapabilityState): (b: byte)
    ensures b <= 2 && CapabilityOf(b) == c
  {
    match c
    case SUPPORTED => 0
    case NOT_SUPPORTED => 1
    case UNKNOWN_CAPABILITY => 2
  }

  function BackendStateOf(b: byte): BackendState {
    match b
    case 0 => READY
    case 1 => DISCOVERING
    case 2 => BACKEND_FAILED
    case _ => BACKEND_DESTROYED
  }

  function BackendStateCode(s: BackendState): (b: byte)
    ensures b <= 3 && BackendStateOf(b) == s
  {
    match s
    case READY => 0
    case DISCOVERING => 1
    case BACKEND_FAILED => 2
    case BACKEND_DESTROYED => 3
  }

  // ---- records --------------------------------------------------------------

  datatype BufferDescriptor = BufferDescriptor(
    id: nat,
    generation: nat,
    domain: MemoryDomain,
    address: nat,
    pointer: PointerKind,
    byteLength: nat,
    alignment: nat,
    pageSize: nat,
    owner: nat,
    process: nat,
    worker: nat,
    node: nat,
    device: nat,
    direction: TransferDirection,
    requestedAccess: Mask,
    mode: RegistrationMode,
    lifetime: LifetimePolicy,
    provenance: Provenance,
    freshness: Freshness,
    policyGeneration: nat)

  datatype RemoteKey = RemoteKey(
    id: nat,
    registration: nat,
    registrationGeneration: nat,
    keyGeneration: nat,
    bufferGeneration: nat,
    boot: nat,
    process: nat,
    backend: nat,
    transport: TransportClass,
    access: Mask,
    start: nat,
    length: nat,
    opaqueValue: nat,
    revoked: bool,
    provenance: Provenance)

  datatype LocalKey = LocalKey(
    id: nat,
    registration: nat,
    registrationGeneration: nat,
    boot: nat,
    backend: nat,
    transport: TransportClass,
    access: Mask,
    opaqueValue: nat,
    provenance: Provenance)

  datatype RegistrationRecord = RegistrationRecord(
    id: nat,
    bufferId: nat,
    bufferGeneration: nat,
    registrationGeneration: nat,
    backend: nat,
    backendGeneration: nat,
    transport: nat,
    nic: nat,
    domain: MemoryDomain,
    transportClass: TransportClass,
    grantedAccess: Mask,
    start: nat,
    length: nat,
    pageAlignment: nat,
    owner: nat,
    process: nat,
    worker: nat,
    boot: nat,
    epoch: nat,
    device: nat,
    domainId: nat,
    timestamp: nat,
    provenance: Provenance,
    freshness: Freshness,
    lifecycle: Lifecycle,
    leaseCount: nat,
    refCount: nat,
    regionId: nat,
    handle: Text,
    reason: Text,
    descriptor: BufferDescriptor,
    remoteKey: RemoteKey,
    localKey: LocalKey,
    policyGeneration: nat)

  datatype Capabilities = Capabilities(
    supportedDomains: seq<MemoryDomain>,
    maxRegistrationLength: nat,
    requiredAlignment: nat,
    remoteRead: CapabilityState,
    remoteWrite: CapabilityState,
    remoteAtomic: CapabilityState,
    hostPinned: CapabilityState,
    pageable: CapabilityState,
    cudaDevice: CapabilityState,
    cudaManaged: CapabilityState,
    onDemandPaging: CapabilityState,
    oneSided: CapabilityState,
    multiprocess: CapabilityState,
    multinode: CapabilityState,
    keyRotation: CapabilityState,
    revocation: CapabilityState,
    provenance: Provenance)

  datatype BackendInfo = BackendInfo(
    id: nat,
    name: Text,
    description: Text,
    provenance: Provenance,
    state: BackendState,
    generation: nat,
    protDomainCount: nat,
    registrationCount: nat,
    capabilities: Capabilities)

  datatype Accounting = Accounting(
    logicalBuffers: nat,
    liveBufferBytes: nat,
    pinnedBytes: nat,
    registeredBytes: nat,
    activeRegistrations: nat,
    activeLeases: nat,
    protectionDomains: nat,
    localKeys: nat,
    remoteKeys: nat,
    remoteReadBytes: nat,
    remoteWriteBytes: nat,
    atomicOperations: nat,
    failedAccessAttempts: nat,
    staleAccessRejections: nat,
    revocations: nat,
    deregistrations: nat,
    reuseHits: nat,
    reuseMisses: nat,
    participantRestarts: nat)

  datatype AuthoritySnapshot = AuthoritySnapshot(
    epoch: nat,
    workerBoot: nat,
    worker: nat,
    owner: nat,
    ownerGeneration: nat,
    workerGeneration: nat,
    policyGeneration: nat,
    backendGeneration: nat,
    transportGeneration: nat,
    nicGeneration: nat,
    node: nat,
    process: nat,
    provenance: Provenance)

  datatype PersistableState = PersistableState(
    formatVersion: nat,
    buffers: seq<BufferDescriptor>,
    registrations: seq<RegistrationRecord>,
    domains: seq<nat>,
    remoteKeys: seq<RemoteKey>,
    localKeys: seq<LocalKey>,
    revocations: seq<Text>,
    accounting: Accounting,
    backends: seq<BackendInfo>,
    authority: AuthoritySnapshot,
    policyGeneration: nat)

  /** An access mask as the byte that carries it, and back. */
  function MaskByte(m: Mask): byte {
    Number(m)
  }

  function MaskOf(b: byte): Mask {
    Octet(b)
  }
}
