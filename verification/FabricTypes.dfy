/** Identities, enumerations and records of the fabric engine.

    Identities and generations are natural numbers, 0 being the invalid sentinel; doubles are
    reals.  Only the fields the engine reads are kept: text used for inspection is not. */
module FabricTypes {

  datatype Option<+T> = None | Some(value: T)

  type ResourceId = nat
  type NodeId = nat
  type CompositionId = nat
  type ReservationId = nat
  type PolicyId = nat
  type Generation = nat
  type Epoch = nat

  datatype ResourceClass =
    | UnknownClass | Compute | Accelerator | HostMemory | ExpandedMemory | Storage | NetworkEndpoint
    | FabricEndpoint | Dpu | Nic | ServiceEndpoint | ControlProcess | OtherRegistered

  datatype CapabilityKind =
    | UnknownKind | CudaExecution | RocmExecution | CpuExecution | HostMemoryAccess | ExpandedMemoryAccess
    | PersistentStorage | DirectNetworkAccess | RdmaCapable | GpuDirectCapable | CoherentMemoryAccess
    | NonCoherentMemoryAccess | SpecificIsa | ArchGeneration | DataFormatCompat | PageSizeSupport
    | AddressWidth | DmaCapable | StorageProtocol | NetworkProtocol | ComputePrecision | AtomicSemantics
    | RetryCapable | DrainSupport

  datatype CapabilityState = Supported | Unsupported | CapabilityUnknown | CapabilityRevalidation

  datatype Health = HealthUnknown | Healthy | Degraded | Offline
  datatype Readiness = ReadinessUnknown | Ready | NotReady
  datatype Reachability = ReachabilityUnknown | Reachable | Unreachable
  datatype EvidenceState = Fresh | Stale | EvidenceRevalidation | ProvenanceUnknown

  datatype Lifecycle =
    | Requested | Discovering | Evaluated | Planned | Reserving | Reserved | Revalidating | Committed | Active
    | DegradedComposition | Draining | RecompositionRequired | RevalidationRequired | Fenced | FailedComposition
    | Released | Retired

  datatype ReservationState = NoState | Provisional | CommittedHold | ReleasedHold | RolledBack

  datatype Outcome = Success | Rejected | Partial | Aborted | OutcomeUnknown | FailedOutcome

  datatype Reason =
    | ResourceOffline | ResourceDegraded | ResourceUnreachable | StaleEvidence | CapabilityIsUnknown
    | CompatibilityMismatch | PathUnavailable | PathStale | BandwidthInsufficient | LatencyLimitExceeded
    | FailureDomainConflict | PolicyDenied | WrongGeneration | WrongEpoch | NoValidComposition
    | ReservationConflict | Overcommit | CapacityNegative | InvalidStateTransition

  // ---- resources and nodes -----------------------------------------------------

  /** The capacity dimensions a class demand can name. */
  datatype Dimension =
    | ComputeUnits | AcceleratorMemory | HostMemoryBytes | ExpandedMemoryBytes | StorageBytes | NetworkBandwidth

  datatype Capacity = Capacity(computeUnits: real, acceleratorMemory: real, hostMemory: real,
                               expandedMemory: real, storage: real, networkBandwidth: real)

  datatype Capability = Capability(kind: CapabilityKind, state: CapabilityState, generation: Generation, detail: string)

  datatype Compatibility = Compatibility(generation: Generation)

  datatype Evidence = Evidence(generation: Generation, state: EvidenceState, maxAgeMs: nat,
                               provenance: string, owner: string, durable: bool)
  {
    predicate IsCurrent()
    {
      state != Stale && state != EvidenceRevalidation && maxAgeMs != 0
    }
  }

  datatype Resource = Resource(
    id: ResourceId, generation: Generation, cls: ResourceClass, node: NodeId,
    capabilities: seq<Capability>, compatibility: seq<Compatibility>, capacity: Capacity,
    health: Health, readiness: Readiness, reachability: Reachability, domain: string, evidence: Evidence)

  datatype Node = Node(id: NodeId, generation: Generation, workerBoot: nat)

  datatype PathEvidence = PathEvidence(from: NodeId, to: NodeId, generation: Generation, available: bool,
                                       bandwidth: real, latency: real, verified: bool, evidence: Evidence)

  // ---- requests ----------------------------------------------------------------

  datatype Topology = NoTopology | Colocate | Spread | DistinctFailureDomains | MaxSharedRisk

  datatype Request = Request(
    computeUnits: nat, acceleratorCount: nat, architectures: seq<string>, acceleratorMemory: real,
    hostMemory: real, expandedMemory: real, storage: real, networkEndpoints: nat,
    minBandwidth: real, maxLatency: real, mandatory: set<ResourceClass>,
    requireCoherence: bool, ignoreReachability: bool,
    topology: Topology, maxSharedRisk: nat, policyGeneration: Generation)

  // ---- plans, compositions, reservations ---------------------------------------

  datatype EdgeKind =
    | ReachabilityEdge | LatencyBound | BandwidthBound | CompatibilityEdge
    | ProtocolEdge | LocalityEdge | FreshnessEdge | GenerationEdge

  datatype Edge = Edge(from: ResourceId, to: ResourceId, kind: EdgeKind, minBandwidth: real, maxLatency: real)

  datatype Graph = Graph(vertices: seq<ResourceId>, edges: seq<Edge>)

  /** The generations a composition is bound to; entry i of `resources` binds vertex i. */
  datatype Authority = Authority(
    epoch: Epoch, policy: Generation, composition: Generation,
    resources: seq<Generation>, evidence: seq<Generation>, capabilities: seq<Generation>,
    compatibility: seq<Generation>, nodes: seq<Generation>, workerBoots: seq<nat>)

  datatype Plan = Plan(id: CompositionId, generation: Generation, graph: Graph, request: Request,
                       rank: real, authority: Authority, lifecycle: Lifecycle, paths: seq<PathEvidence>)

  datatype Composition = Composition(
    id: CompositionId, generation: Generation, resourceSet: nat, graph: Graph, request: Request,
    authority: Authority, lifecycle: Lifecycle, rank: real, reservation: ReservationId,
    paths: seq<PathEvidence>, outcome: Outcome)

  datatype Item = Item(resource: ResourceId, state: ReservationState, amount: real)

  datatype Reservation = Reservation(id: ReservationId, composition: CompositionId, items: seq<Item>,
                                     state: ReservationState)

  // ---- the registry ------------------------------------------------------------

  /** What planning and validation read: the resource, node and path tables. */
  datatype Registry = Registry(resources: map<ResourceId, Resource>, nodes: map<NodeId, Node>,
                               paths: map<(NodeId, NodeId), PathEvidence>)

  /** Every resource is filed under its own id. */
  ghost predicate WellKeyed(resources: map<ResourceId, Resource>)
  {
    forall k :: k in resources ==> resources[k].id == k
  }
}
