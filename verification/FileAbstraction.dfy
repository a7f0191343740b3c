/** How the engine's records stand in the file: from every stored record to the fields the engine
    decides by.  `number` says which real a 64-bit double pattern denotes. */
module FileAbstraction {
  import opened Bytes
  import opened FabricTypes
  import opened Records
  import opened FileRecords
  import opened FileStates
  import E = Engine

  type Doubles = u64 -> real

  // ---- codes -------------------------------------------------------------------

  const CLASSES: seq<ResourceClass> :=
    [UnknownClass, Compute, Accelerator, HostMemory, ExpandedMemory, Storage, NetworkEndpoint,
     FabricEndpoint, Dpu, Nic, ServiceEndpoint, ControlProcess, OtherRegistered]

  const KINDS: seq<CapabilityKind> :=
    [UnknownKind, CudaExecution, RocmExecution, CpuExecution, HostMemoryAccess, ExpandedMemoryAccess,
     PersistentStorage, DirectNetworkAccess, RdmaCapable, GpuDirectCapable, CoherentMemoryAccess,
     NonCoherentMemoryAccess, SpecificIsa, ArchGeneration, DataFormatCompat, PageSizeSupport,
     AddressWidth, DmaCapable, StorageProtocol, NetworkProtocol, ComputePrecision, AtomicSemantics,
     RetryCapable, DrainSupport]

  const LIFECYCLES: seq<Lifecycle> :=
    [Requested, Requested, Discovering, Evaluated, Planned, Reserving, Reserved, Revalidating, Committed, Active,
     DegradedComposition, Draining, RecompositionRequired, RevalidationRequired, Fenced, FailedComposition,
     Released, Retired]

  const EDGE_KINDS: seq<EdgeKind> :=
    [ReachabilityEdge, ReachabilityEdge, LatencyBound, BandwidthBound, CompatibilityEdge,
     ProtocolEdge, LocalityEdge, FreshnessEdge, GenerationEdge]

  function Entry<T>(table: seq<T>, code: u32): T
    requires table != []
  {
    if code < |table| then table[code] else table[0]
  }

  function HealthIn(code: u32): Health
  {
    if code == 1 then Healthy else if code == 2 then Degraded else if code == 3 then Offline else HealthUnknown
  }

  function ReadinessIn(code: u32): Readiness
  {
    if code == 1 then Ready else if code == 2 then NotReady else ReadinessUnknown
  }

  function ReachabilityIn(code: u32): Reachability
  {
    if code == 1 then Reachable else if code == 2 then Unreachable else ReachabilityUnknown
  }

  function EvidenceStateIn(code: u32): EvidenceState
  {
    if code == 1 then Fresh else if code == 2 then Stale else if code == 3 then EvidenceRevalidation
      else ProvenanceUnknown
  }

  function CapabilityStateIn(code: u32): CapabilityState
  {
    if code == 1 then Supported else if code == 2 then Unsupported
    else if code == 4 then CapabilityRevalidation else CapabilityUnknown
  }

  function OutcomeIn(code: u32): Outcome
  {
    if code == 1 then Success else if code == 2 then Rejected else if code == 3 then Partial
    else if code == 4 then Aborted else if code == 6 then FailedOutcome else OutcomeUnknown
  }

  // ---- records -----------------------------------------------------------------

  function CharIn(b: byte): char { b as char }

  function TextIn(t: text): string { MapSeq(CharIn, t) }

  function EvidenceIn(e: WireEvidence): Evidence
  {
    Evidence(e.generation, EvidenceStateIn(e.state), e.maxAge, TextIn(e.provenance), TextIn(e.owner), e.durable)
  }

  function CapabilityIn(c: WireCapability): Capability
  {
    Capability(Entry(KINDS, c.kind), CapabilityStateIn(c.state), c.generation, TextIn(c.detail))
  }

  function CompatibilityIn(c: WireCompatibility): Compatibility { Compatibility(c.generation) }

  function CapacityIn(number: Doubles, c: WireCapacity): Capacity
  {
    Capacity(number(c.computeUnits), number(c.acceleratorMemory), number(c.hostMemory), number(c.expandedMemory),
             number(c.storage), number(c.bandwidth))
  }

  function ResourceIn(number: Doubles, r: WireResource): Resource
  {
    Resource(r.id, r.generation, Entry(CLASSES, r.cls), r.node, MapSeq(CapabilityIn, r.capabilities),
             MapSeq(CompatibilityIn, r.compatibility), CapacityIn(number, r.capacity), HealthIn(r.health),
             ReadinessIn(r.readiness), ReachabilityIn(r.reachability), TextIn(r.domain.name), EvidenceIn(r.evidence))
  }

  function NodeIn(n: WireNode): Node { Node(n.id, n.generation, n.boot) }

  function PathIn(number: Doubles, p: WirePath): PathEvidence
  {
    PathEvidence(p.requirement.from, p.requirement.to, p.generation, p.measure.available, number(p.measure.bandwidth),
                 number(p.measure.latency), p.measure.verified, EvidenceIn(p.evidence))
  }

  function EdgeIn(number: Doubles, e: WireEdge): Edge
  {
    Edge(e.from, e.to, Entry(EDGE_KINDS, e.kind), number(e.minBandwidth), number(e.maxLatency))
  }

  function GraphIn(number: Doubles, g: WireGraph): Graph
  {
    Graph(g.vertices, MapSeq((e: WireEdge) => EdgeIn(number, e), g.edges))
  }

  function AuthorityIn(a: WireAuthority): Authority
  {
    Authority(a.epoch, a.policy, a.composition, a.bound.resources, a.evidence, a.bound.capabilities,
              a.bound.compatibility, a.bound.nodes, a.bound.workerBoots)
  }

  function RequestIn(number: Doubles, q: WireRequest): Request
  {
    Request(q.computeUnits, q.acceleratorCount, MapSeq(TextIn, q.architectures), number(q.acceleratorMemory),
            number(q.hostMemory), number(q.expandedMemory), number(q.storage), q.networkEndpoints,
            number(q.minBandwidth), number(q.maxLatency), set c | c in q.mandatory :: Entry(CLASSES, c),
            q.coherence, q.ignoreReachability, q.topology, q.maxSharedRisk, q.policyGeneration)
  }

  function CompositionIn(number: Doubles, c: WireComposition): Composition
  {
    Composition(c.id, c.generation, c.resourceSet, GraphIn(number, c.graph), RequestIn(number, c.request),
                AuthorityIn(c.authority), Entry(LIFECYCLES, c.lifecycle), number(c.rank), c.reservation,
                MapSeq((p: WirePath) => PathIn(number, p), c.paths), OutcomeIn(c.outcome))
  }

  /** A later entry replaces an earlier one with the same id. */
  function PoliciesIn(ps: seq<WirePolicy>): map<PolicyId, Generation>
  {
    if ps == [] then map[] else PoliciesIn(ps[..|ps| - 1])[ps[|ps| - 1].id := ps[|ps| - 1].generation]
  }

  function DurableIn(number: Doubles, w: WireDurable): E.Durable
  {
    E.Durable(w.epoch, MapSeq(NodeIn, w.nodes), MapSeq((r: WireResource) => ResourceIn(number, r), w.resources),
              PoliciesIn(w.policies), MapSeq((c: WireComposition) => CompositionIn(number, c), w.compositions))
  }

  // ---- load --------------------------------------------------------------------

  /** Load from a file: refused without effect, or the tables rebuilt from what it holds. */
  function LoadFrom(number: Doubles, s: E.State, data: seq<byte>): (E.State, bool)
  {
    match StateOf(data)
    case None => (s, false)
    case Some(w) => (E.Load(s, DurableIn(number, w)), true)
  }

  // ---- what the file leaves out ------------------------------------------------

  /** The engine's request without its reachability override and its placement constraint. */
  function Forgotten(c: Composition): Composition
  {
    c.(request := c.request.(ignoreReachability := false, topology := NoTopology, maxSharedRisk := 0))
  }

  lemma ForgetCommutes(number: Doubles, c: WireComposition)
    ensures CompositionIn(number, ForgetComposition(c)) == Forgotten(CompositionIn(number, c))
  {
  }

  lemma ForgetDurableCommutes(number: Doubles, w: WireDurable)
    ensures DurableIn(number, ForgetDurable(w)) ==
              DurableIn(number, w).(comps := MapSeq(Forgotten, DurableIn(number, w).comps))
  {
    var d, d' := DurableIn(number, w), DurableIn(number, ForgetDurable(w));
    assert d'.nodes == d.nodes;
    assert d'.resources == d.resources;
    assert d'.comps == MapSeq(Forgotten, d.comps) by {
      forall i | 0 <= i < |w.compositions| ensures d'.comps[i] == Forgotten(d.comps[i]) {
        ForgetCommutes(number, w.compositions[i]);
      }
    }
  }
}
