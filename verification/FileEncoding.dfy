/** Every encodable engine state has stored records: from the engine's tables to the file.

    Encodable means what the C++ types enforce: ids, generations and counts below 2^64 or 2^32, strings
    of bytes, and amounts that some 64-bit double pattern denotes. */
module FileEncoding {
  import opened Bytes
  import opened FabricTypes
  import opened Layouts
  import opened Records
  import opened FileRecords
  import opened FileStates
  import opened FileAbstraction
  import opened FileRestart
  import E = Engine

  // ---- codes -------------------------------------------------------------------

  function ClassCode(x: ResourceClass): (c: u32)
    ensures Entry(CLASSES, c) == x
    ensures 1 <= c <= 12 <==> x != UnknownClass
  {
    match x
    case UnknownClass => 0
    case Compute => 1
    case Accelerator => 2
    case HostMemory => 3
    case ExpandedMemory => 4
    case Storage => 5
    case NetworkEndpoint => 6
    case FabricEndpoint => 7
    case Dpu => 8
    case Nic => 9
    case ServiceEndpoint => 10
    case ControlProcess => 11
    case OtherRegistered => 12
  }

  function KindCode(x: CapabilityKind): (c: u32)
    ensures Entry(KINDS, c) == x
    ensures 1 <= c <= 23 <==> x != UnknownKind
  {
    match x
    case UnknownKind => 0
    case CudaExecution => 1
    case RocmExecution => 2
    case CpuExecution => 3
    case HostMemoryAccess => 4
    case ExpandedMemoryAccess => 5
    case PersistentStorage => 6
    case DirectNetworkAccess => 7
    case RdmaCapable => 8
    case GpuDirectCapable => 9
    case CoherentMemoryAccess => 10
    case NonCoherentMemoryAccess => 11
    case SpecificIsa => 12
    case ArchGeneration => 13
    case DataFormatCompat => 14
    case PageSizeSupport => 15
    case AddressWidth => 16
    case DmaCapable => 17
    case StorageProtocol => 18
    case NetworkProtocol => 19
    case ComputePrecision => 20
    case AtomicSemantics => 21
    case RetryCapable => 22
    case DrainSupport => 23
  }

  function LifecycleCode(x: Lifecycle): (c: u32)
    ensures Entry(LIFECYCLES, c) == x
    ensures 1 <= c <= 17
  {
    match x
    case Requested => 1
    case Discovering => 2
    case Evaluated => 3
    case Planned => 4
    case Reserving => 5
    case Reserved => 6
    case Revalidating => 7
    case Committed => 8
    case Active => 9
    case DegradedComposition => 10
    case Draining => 11
    case RecompositionRequired => 12
    case RevalidationRequired => 13
    case Fenced => 14
    case FailedComposition => 15
    case Released => 16
    case Retired => 17
  }

  function EdgeKindCode(x: EdgeKind): (c: u32)
    ensures Entry(EDGE_KINDS, c) == x
    ensures 1 <= c <= 8
  {
    match x
    case ReachabilityEdge => 1
    case LatencyBound => 2
    case BandwidthBound => 3
    case CompatibilityEdge => 4
    case ProtocolEdge => 5
    case LocalityEdge => 6
    case FreshnessEdge => 7
    case GenerationEdge => 8
  }

  function HealthCode(x: Health): (c: u32)
    ensures HealthIn(c) == x
    ensures 1 <= c <= 3 <==> x != HealthUnknown
  {
    match x
    case HealthUnknown => 0
    case Healthy => 1
    case Degraded => 2
    case Offline => 3
  }

  function ReadinessCode(x: Readiness): (c: u32)
    ensures ReadinessIn(c) == x
    ensures 1 <= c <= 2 <==> x != ReadinessUnknown
  {
    match x
    case ReadinessUnknown => 0
    case Ready => 1
    case NotReady => 2
  }

  function ReachabilityCode(x: Reachability): (c: u32)
    ensures ReachabilityIn(c) == x
    ensures 1 <= c <= 2 <==> x != ReachabilityUnknown
  {
    match x
    case ReachabilityUnknown => 0
    case Reachable => 1
    case Unreachable => 2
  }

  function EvidenceStateCode(x: EvidenceState): (c: u32)
    ensures EvidenceStateIn(c) == x
    ensures 1 <= c <= 4
  {
    match x
    case Fresh => 1
    case Stale => 2
    case EvidenceRevalidation => 3
    case ProvenanceUnknown => 4
  }

  function CapabilityStateCode(x: CapabilityState): (c: u32)
    ensures CapabilityStateIn(c) == x
    ensures 1 <= c <= 4
  {
    match x
    case Supported => 1
    case Unsupported => 2
    case CapabilityUnknown => 3
    case CapabilityRevalidation => 4
  }

  function OutcomeCode(x: Outcome): (c: u32)
    ensures OutcomeIn(c) == x
    ensures 1 <= c <= 6
  {
    match x
    case Success => 1
    case Rejected => 2
    case Partial => 3
    case Aborted => 4
    case OutcomeUnknown => 5
    case FailedOutcome => 6
  }

  // ---- amounts and strings -----------------------------------------------------

  ghost predicate Represented(number: Doubles, x: real) { exists u: u64 :: number(u) == x }

  ghost function BitsOf(number: Doubles, x: real): (u: u64)
    requires Represented(number, x)
    ensures number(u) == x
  {
    var u: u64 :| number(u) == x; u
  }

  predicate Encodable(s: string) { |s| <= MAX_LEN && forall i :: 0 <= i < |s| ==> s[i] as int < 256 }

  function BytesOf(s: string): (t: text)
    requires Encodable(s)
    ensures TextIn(t) == s && |t| <= MAX_LEN
  {
    seq(|s|, i requires 0 <= i < |s| => s[i] as int)
  }

  // ---- records -----------------------------------------------------------------

  predicate EvidenceEncodable(e: Evidence)
  {
    e.generation < TWO_64 && e.maxAgeMs < TWO_64 && Encodable(e.provenance) && Encodable(e.owner)
  }

  function EvidenceOut(e: Evidence): (w: WireEvidence)
    requires EvidenceEncodable(e)
    ensures EvidenceIn(w) == e && EvidenceFits(w)
  {
    WireEvidence(0, e.generation, 1, EvidenceStateCode(e.state), 0, e.maxAgeMs, 0, BytesOf(e.provenance),
      BytesOf(e.owner), e.durable)
  }

  predicate CapabilityEncodable(c: Capability) { c.generation < TWO_64 && Encodable(c.detail) }

  function CapabilityOut(c: Capability): (w: WireCapability)
    requires CapabilityEncodable(c)
    ensures CapabilityIn(w) == c && CapabilityFits(w)
  {
    WireCapability(KindCode(c.kind), CapabilityStateCode(c.state), c.generation, 0, BytesOf(c.detail))
  }

  function CapabilitiesOut(cs: seq<Capability>): (ws: seq<WireCapability>)
    requires forall i :: 0 <= i < |cs| ==> CapabilityEncodable(cs[i])
    ensures MapSeq(CapabilityIn, ws) == cs && Every(CapabilityFits, ws)
  {
    seq(|cs|, i requires 0 <= i < |cs| => CapabilityOut(cs[i]))
  }

  function CompatibilitiesOut(cs: seq<Compatibility>): (ws: seq<WireCompatibility>)
    requires forall i :: 0 <= i < |cs| ==> cs[i].generation < TWO_64
    ensures MapSeq(CompatibilityIn, ws) == cs && Every(CompatibilityFits, ws) && Every(PinsSized, ws)
  {
    seq(|cs|, i requires 0 <= i < |cs| => WireCompatibility(0, cs[i].generation, []))
  }

  ghost predicate CapacityEncodable(number: Doubles, c: Capacity)
  {
    && Represented(number, c.computeUnits) && Represented(number, c.acceleratorMemory) &&
         Represented(number, c.hostMemory)
    && Represented(number, c.expandedMemory) && Represented(number, c.storage) &&
         Represented(number, c.networkBandwidth)
  }

  ghost function CapacityOut(number: Doubles, c: Capacity): (w: WireCapacity)
    requires CapacityEncodable(number, c)
    ensures CapacityIn(number, w) == c && w.extra == []
  {
    WireCapacity(BitsOf(number, c.computeUnits), BitsOf(number, c.acceleratorMemory), BitsOf(number, c.hostMemory),
                 BitsOf(number, c.expandedMemory), BitsOf(number, c.storage), BitsOf(number, c.networkBandwidth), 0, [])
  }

  ghost predicate ResourceEncodable(number: Doubles, r: Resource)
  {
    && r.id < TWO_64 && r.generation < TWO_64 && r.node < TWO_64 && Encodable(r.domain)
    && CapacityEncodable(number, r.capacity) && EvidenceEncodable(r.evidence)
    && |r.capabilities| < TWO_32 && (forall i :: 0 <= i < |r.capabilities| ==> CapabilityEncodable(r.capabilities[i]))
    && |r.compatibility| < TWO_32 && (forall i :: 0 <= i < |r.compatibility| ==> r.compatibility[i].generation < TWO_64)
  }

  ghost function ResourceOut(number: Doubles, r: Resource): (w: WireResource)
    requires ResourceEncodable(number, r)
    ensures ResourceIn(number, w) == r && ResourceSized(w) && ResourceFits(w) && ExtraBounded(w)
  {
    WireResource(r.id, r.generation, ClassCode(r.cls), r.node, [], [], false, HealthCode(r.health),
                 ReadinessCode(r.readiness), ReachabilityCode(r.reachability), CapacityOut(number, r.capacity),
                 WireLocality([], []), WireDomain(0, 1, BytesOf(r.domain), false, []), EvidenceOut(r.evidence),
                 CapabilitiesOut(r.capabilities), CompatibilitiesOut(r.compatibility))
  }

  predicate NodeEncodable(n: Node) { n.id < TWO_64 && n.generation < TWO_64 && n.workerBoot < TWO_64 }

  function NodeOut(n: Node): (w: WireNode)
    requires NodeEncodable(n)
    ensures NodeIn(w) == n && NodeSized(w) && NodeFits(w)
  {
    WireNode(n.id, n.generation, [], [], 1, [], WireDomain(0, 1, [], false, []), WireLocality([], []), 1, 1, [],
             n.workerBoot, 0, 1, false)
  }

  predicate Words64(xs: seq<nat>) { |xs| < TWO_32 && forall i :: 0 <= i < |xs| ==> xs[i] < TWO_64 }

  function WordsOut(xs: seq<nat>): (ws: seq<u64>)
    requires Words64(xs)
    ensures ws == xs
  {
    seq(|xs|, i requires 0 <= i < |xs| => xs[i])
  }

  ghost predicate EdgeEncodable(number: Doubles, e: Edge)
  {
    e.from < TWO_64 && e.to < TWO_64 && Represented(number, e.minBandwidth) && Represented(number, e.maxLatency)
  }

  ghost function EdgeOut(number: Doubles, e: Edge): (w: WireEdge)
    requires EdgeEncodable(number, e)
    ensures EdgeIn(number, w) == e && EdgeFits(w)
  {
    WireEdge(e.from, e.to, EdgeKindCode(e.kind), true, BitsOf(number, e.minBandwidth),
      BitsOf(number, e.maxLatency), [], [])
  }

  ghost predicate GraphEncodable(number: Doubles, g: Graph)
  {
    Words64(g.vertices) && |g.edges| < TWO_32 && forall i :: 0 <= i < |g.edges| ==> EdgeEncodable(number, g.edges[i])
  }

  ghost function GraphOut(number: Doubles, g: Graph): (w: WireGraph)
    requires GraphEncodable(number, g)
    ensures GraphIn(number, w) == g && GraphSized(w) && EdgesFit(w)
  {
    var edges := seq(|g.edges|, i requires 0 <= i < |g.edges| => EdgeOut(number, g.edges[i]));
    assert MapSeq((e: WireEdge) => EdgeIn(number, e), edges) == g.edges;
    WireGraph(WordsOut(g.vertices), edges)
  }

  predicate AuthorityEncodable(a: Authority)
  {
    && a.epoch < TWO_64 && a.policy < TWO_64 && a.composition < TWO_64
    && Words64(a.resources) && Words64(a.evidence) && Words64(a.capabilities)
    && Words64(a.compatibility) && Words64(a.nodes) && Words64(a.workerBoots)
  }

  function AuthorityOut(a: Authority): (w: WireAuthority)
    requires AuthorityEncodable(a)
    ensures AuthorityIn(w) == a && AuthorityWithin(w, TWO_32 - 1)
  {
    WireAuthority(a.epoch, WireBound(WordsOut(a.workerBoots), WordsOut(a.nodes), WordsOut(a.resources), [],
                                     WordsOut(a.capabilities), WordsOut(a.compatibility)),
                  a.policy, WordsOut(a.evidence), [], a.composition)
  }

  /** The codes of a set of classes, in some order. */
  ghost function ClassCodes(s: set<ResourceClass>): (cs: seq<u32>)
    ensures |cs| == |s| && (set c | c in cs :: Entry(CLASSES, c)) == s
  {
    if s == {} then [] else
      var x :| x in s;
      var front := ClassCodes(s - {x});
      var cs := front + [ClassCode(x)];
      assert forall c :: c in cs <==> c in front || c == ClassCode(x);
      cs
  }

  ghost predicate RequestEncodable(number: Doubles, q: Request)
  {
    && q.computeUnits < TWO_64 && q.acceleratorCount < TWO_32 && q.networkEndpoints < TWO_32 && q.maxSharedRisk < TWO_32
    && q.policyGeneration < TWO_64 && |q.mandatory| < TWO_32
    && |q.architectures| < TWO_32 && (forall i :: 0 <= i < |q.architectures| ==> Encodable(q.architectures[i]))
    && Represented(number, q.acceleratorMemory) && Represented(number, q.hostMemory) &&
         Represented(number, q.expandedMemory)
    && Represented(number, q.storage) && Represented(number, q.minBandwidth) && Represented(number, q.maxLatency)
  }

  ghost function RequestOut(number: Doubles, q: Request): (w: WireRequest)
    requires RequestEncodable(number, q)
    ensures RequestIn(number, w) == q && RequestSized(w) && RequestFits(w)
  {
    var architectures := seq(|q.architectures|, i requires 0 <= i < |q.architectures| => BytesOf(q.architectures[i]));
    assert MapSeq(TextIn, architectures) == q.architectures;
    WireRequest(q.computeUnits, q.acceleratorCount, architectures, BitsOf(number, q.acceleratorMemory),
                BitsOf(number, q.hostMemory), BitsOf(number, q.expandedMemory), BitsOf(number, q.storage),
                  q.networkEndpoints,
                BitsOf(number, q.minBandwidth), BitsOf(number, q.maxLatency), ClassCodes(q.mandatory), [], false,
                q.requireCoherence, false, false, false, 0, 0, q.policyGeneration, 0, 0,
                  q.ignoreReachability, q.topology,
                q.maxSharedRisk, [], [])
  }

  ghost predicate PathEncodable(number: Doubles, p: PathEvidence)
  {
    && p.from < TWO_64 && p.to < TWO_64 && p.generation < TWO_64 && EvidenceEncodable(p.evidence)
    && Represented(number, p.bandwidth) && Represented(number, p.latency)
  }

  ghost function PathOut(number: Doubles, p: PathEvidence): (w: WirePath)
    requires PathEncodable(number, p)
    ensures PathIn(number, w) == p && PathFits(w)
  {
    WirePath(0, p.generation, WireRequirement(p.from, p.to, 0, 0, true, false, []),
             WireMeasure(p.available, BitsOf(number, p.bandwidth), BitsOf(number, p.latency), p.verified, [], []),
             EvidenceOut(p.evidence))
  }

  ghost predicate CompositionEncodable(number: Doubles, c: Composition)
  {
    && c.id < TWO_64 && c.generation < TWO_64 && c.resourceSet < TWO_64 && c.reservation < TWO_64 &&
         Represented(number, c.rank)
    && GraphEncodable(number, c.graph) && RequestEncodable(number, c.request) && AuthorityEncodable(c.authority)
    && |c.paths| < TWO_32 && (forall i :: 0 <= i < |c.paths| ==> PathEncodable(number, c.paths[i]))
  }

  ghost function CompositionOut(number: Doubles, c: Composition): (w: WireComposition)
    requires CompositionEncodable(number, c)
    ensures CompositionIn(number, w) == c && CompositionSized(w) && CompositionFits(w)
  {
    var paths := seq(|c.paths|, i requires 0 <= i < |c.paths| => PathOut(number, c.paths[i]));
    assert MapSeq((p: WirePath) => PathIn(number, p), paths) == c.paths;
    WireComposition(c.id, c.generation, c.resourceSet, 1, [], RequestOut(number, c.request), GraphOut(number, c.graph),
                    AuthorityOut(c.authority), LifecycleCode(c.lifecycle), c.reservation, OutcomeCode(c.outcome),
                    BitsOf(number, c.rank), paths, [], [])
  }

  ghost function PoliciesOut(m: map<PolicyId, Generation>): (ps: seq<WirePolicy>)
    requires forall k :: k in m ==> k < TWO_64 && m[k] < TWO_64
    ensures |ps| == |m| && PoliciesIn(ps) == m
    decreases |m|
  {
    if m == map[] then [] else
      var k :| k in m;
      var front := PoliciesOut(m - {k});
      var ps := front + [WirePolicy(k, m[k])];
      assert ps[..|front|] == front;
      assert PoliciesIn(ps) == (m - {k})[k := m[k]] == m;
      ps
  }

  /** What the C++ types enforce of the durable tables. */
  ghost predicate DurableEncodable(number: Doubles, d: E.Durable)
  {
    && d.epoch < TWO_64
    && |d.nodes| < TWO_32 && (forall i :: 0 <= i < |d.nodes| ==> NodeEncodable(d.nodes[i]))
    && |d.resources| < TWO_32 && (forall i :: 0 <= i < |d.resources| ==> ResourceEncodable(number, d.resources[i]))
    && |d.policies| < TWO_32 && (forall k :: k in d.policies ==> k < TWO_64 && d.policies[k] < TWO_64)
    && |d.comps| < TWO_32 && (forall i :: 0 <= i < |d.comps| ==> CompositionEncodable(number, d.comps[i]))
  }

  ghost function DurableOut(number: Doubles, d: E.Durable): (w: WireDurable)
    requires DurableEncodable(number, d)
    ensures DurableIn(number, w) == d && DurableSized(w) && DurableWritable(w)
  {
    var nodes := seq(|d.nodes|, i requires 0 <= i < |d.nodes| => NodeOut(d.nodes[i]));
    var resources := seq(|d.resources|, i requires 0 <= i < |d.resources| => ResourceOut(number, d.resources[i]));
    var comps := seq(|d.comps|, i requires 0 <= i < |d.comps| => CompositionOut(number, d.comps[i]));
    assert MapSeq(NodeIn, nodes) == d.nodes;
    assert MapSeq((r: WireResource) => ResourceIn(number, r), resources) == d.resources;
    assert MapSeq((c: WireComposition) => CompositionIn(number, c), comps) == d.comps;
    WireDurable(d.epoch, nodes, resources, PoliciesOut(d.policies), comps)
  }

  /** Every engine state whose tables are encodable has stored records, so Save can write it and
      `FileRoundTrip` applies. */
  lemma EncodableIsStored(number: Doubles, s: E.State, d: E.Durable)
    requires E.Saved(s, d) && DurableEncodable(number, d)
    ensures Stores(number, s, DurableOut(number, d))
  {
  }
}
