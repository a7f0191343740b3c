/** Requests, compositions and whole durable states in the file, and the round trip of a saved state. */
module FileStates {
  import opened Bytes
  import opened FabricTypes
  import opened Layouts
  import opened WireCodec
  import opened Records
  import opened Persistence
  import opened FileRecords

  // ---- requests ----------------------------------------------------------------

  /** The last five fields are not written: the reachability override, the placement constraint with
      its risk bound and its allowed domain types, and the extra numeric constraints. */
  datatype WireRequest = WireRequest(
    computeUnits: u64, acceleratorCount: u32, architectures: seq<text>,
    acceleratorMemory: u64, hostMemory: u64, expandedMemory: u64, storage: u64,
    networkEndpoints: u32, minBandwidth: u64, maxLatency: u64, mandatory: seq<u32>, optional: seq<u32>,
    directPath: bool, coherence: bool, persistent: bool, isolation: bool, staging: bool,
    compatibility: u64, policy: u64, policyGeneration: u64, consumer: u64, consumerGeneration: u64,
    ignoreReachability: bool, topology: Topology, maxSharedRisk: u32, allowedTypes: seq<u32>, constraints: seq<WireTag>)

  const COUNTS_LAYOUT: Layout := Then(U64, U32)
  const MEMORY_LAYOUT: Layout := Then(U64, Then(U64, Then(U64, U64)))
  const NETWORK_LAYOUT: Layout := Then(U32, Then(U64, U64))
  const CLASSES_LAYOUT: Layout := List(Enum(12))
  const OPTIONS_LAYOUT: Layout := Then(Flag, Then(Flag, Then(Flag, Then(Flag, Flag))))
  const PARTIES_LAYOUT: Layout := Then(U64, Then(U64, Then(U64, Then(U64, U64))))
  const SIZE_LAYOUT: Layout := Then(COUNTS_LAYOUT, Then(List(Str), Then(MEMORY_LAYOUT, NETWORK_LAYOUT)))
  const WISHES_LAYOUT: Layout := Then(CLASSES_LAYOUT, Then(CLASSES_LAYOUT, Then(OPTIONS_LAYOUT, PARTIES_LAYOUT)))
  const REQUEST_LAYOUT: Layout := Then(SIZE_LAYOUT, WISHES_LAYOUT)

  function TextValue(t: text): Value { Text(t) }
  function TextOf(v: Value): Option<text> { if v.Text? then Some(v.t) else None }
  predicate TextFits(t: text) { |t| <= MAX_LEN }

  function CodeValue(c: u32): Value { Num(c) }
  function CodeOf(v: Value): Option<u32> { if v.Num? && v.n < TWO_32 then Some(v.n) else None }
  predicate ClassInTable(c: u32) { 1 <= c <= 12 }

  function CountsValue(q: WireRequest): Value { Pair(Num(q.computeUnits), Num(q.acceleratorCount)) }

  function MemoryValue(q: WireRequest): Value
  {
    Pair(Num(q.acceleratorMemory), Pair(Num(q.hostMemory), Pair(Num(q.expandedMemory), Num(q.storage))))
  }

  function NetworkValue(q: WireRequest): Value
  {
    Pair(Num(q.networkEndpoints), Pair(Num(q.minBandwidth), Num(q.maxLatency)))
  }

  function OptionsValue(q: WireRequest): Value
  {
    Pair(Bit(q.directPath), Pair(Bit(q.coherence), Pair(Bit(q.persistent), Pair(Bit(q.isolation), Bit(q.staging)))))
  }

  function PartiesValue(q: WireRequest): Value
  {
    Pair(Num(q.compatibility), Pair(Num(q.policy), Pair(Num(q.policyGeneration),
    Pair(Num(q.consumer), Num(q.consumerGeneration)))))
  }

  function SizeValue(q: WireRequest): Value
  {
    Pair(CountsValue(q), Pair(ListValue(TextValue, q.architectures), Pair(MemoryValue(q), NetworkValue(q))))
  }

  function WishesValue(q: WireRequest): Value
  {
    Pair(ListValue(CodeValue, q.mandatory),
      Pair(ListValue(CodeValue, q.optional), Pair(OptionsValue(q), PartiesValue(q))))
  }

  function RequestValue(q: WireRequest): Value { Pair(SizeValue(q), WishesValue(q)) }

  /** The fields that are not written come back as their defaults. */
  function RequestOf(v: Value): Option<WireRequest>
  {
    match v
    case Pair(Pair(Pair(Num(a), Num(b)),
      Pair(c, Pair(Pair(Num(d), Pair(Num(e), Pair(Num(f), Num(g)))), Pair(Num(h), Pair(Num(i), Num(j)))))),
              Pair(k, Pair(l, Pair(Pair(Num(m), Pair(Num(n), Pair(Num(o), Pair(Num(p), Num(q))))),
                                   Pair(Num(r), Pair(Num(s), Pair(Num(t), Pair(Num(u), Num(w))))))))) =>
      var c', k', l' := ListOf(TextOf, c), ListOf(CodeOf, k), ListOf(CodeOf, l);
      if a < TWO_64 && b < TWO_32 && d < TWO_64 && e < TWO_64 && f < TWO_64 && g < TWO_64 && h < TWO_32 &&
        i < TWO_64 && j < TWO_64 &&
         r < TWO_64 && s < TWO_64 && t < TWO_64 && u < TWO_64 && w < TWO_64 && c'.Some? && k'.Some? && l'.Some?
      then Some(WireRequest(a, b, c'.value, d, e, f, g, h, i, j, k'.value, l'.value, m != 0, n != 0, o != 0,
        p != 0, q != 0,
                            r, s, t, u, w, false, NoTopology, 0, [], []))
      else None
    case _ => None
  }

  /** The request without what the file leaves out. */
  function ForgetRequest(q: WireRequest): WireRequest
  {
    q.(ignoreReachability := false, topology := NoTopology, maxSharedRisk := 0, allowedTypes := [], constraints := [])
  }

  predicate RequestSized(q: WireRequest)
  {
    |q.architectures| < TWO_32 && |q.mandatory| < TWO_32 && |q.optional| < TWO_32
  }

  predicate RequestFits(q: WireRequest) { Every(TextFits, q.architectures) }

  predicate RequestInTables(q: WireRequest)
  {
    && |q.architectures| <= MAX_COUNT
    && |q.mandatory| <= MAX_COUNT && Every(ClassInTable, q.mandatory)
    && |q.optional| <= MAX_COUNT && Every(ClassInTable, q.optional)
  }

  lemma TextsCoded(ts: seq<text>)
    requires |ts| < TWO_32
    ensures ListPart(Str, TextValue, TextFits, Anything, ts).Ok() &&
        ListOf(TextOf, ListValue(TextValue, ts)) == Some(ts)
  {
    ListCoded(Str, TextValue, TextFits, Anything, ts);
    ListComesBack(TextValue, TextOf, ts);
  }

  function ClassesPart(cs: seq<u32>): Part { ListPart(Enum(12), CodeValue, Anything, ClassInTable, cs) }

  lemma ClassesCoded(cs: seq<u32>)
    requires |cs| < TWO_32
    ensures ClassesPart(cs).Ok() && ListOf(CodeOf, ListValue(CodeValue, cs)) == Some(cs)
  {
    ListCoded(Enum(12), CodeValue, Anything, ClassInTable, cs);
    ListComesBack(CodeValue, CodeOf, cs);
  }

  lemma NumbersCoded(q: WireRequest)
    ensures Part(COUNTS_LAYOUT, CountsValue(q), true, true).Ok()
    ensures Part(MEMORY_LAYOUT, MemoryValue(q), true, true).Ok()
    ensures Part(NETWORK_LAYOUT, NetworkValue(q), true, true).Ok()
  {
    Pow256Words();
  }

  function BitPart(b: bool): Part { Part(Flag, Bit(b), true, true) }

  lemma BitCoded(b: bool)
    ensures BitPart(b).Ok()
  {
  }

  lemma OptionsCoded(q: WireRequest)
    ensures Part(OPTIONS_LAYOUT, OptionsValue(q), true, true).Ok()
  {
    BitCoded(q.directPath);
    BitCoded(q.coherence);
    BitCoded(q.persistent);
    BitCoded(q.isolation);
    BitCoded(q.staging);
    JoinFive(BitPart(q.directPath), BitPart(q.coherence), BitPart(q.persistent), BitPart(q.isolation),
      BitPart(q.staging));
  }

  lemma PartiesCoded(q: WireRequest)
    ensures Part(PARTIES_LAYOUT, PartiesValue(q), true, true).Ok()
  {
    Pow256Words();
  }

  function SizePart(q: WireRequest): Part
  {
    Part(SIZE_LAYOUT, SizeValue(q), RequestFits(q), |q.architectures| <= MAX_COUNT)
  }

  lemma SizeCoded(q: WireRequest)
    requires RequestSized(q)
    ensures SizePart(q).Ok()
  {
    var texts := ListPart(Str, TextValue, TextFits, Anything, q.architectures);
    var counts, memory := Part(COUNTS_LAYOUT, CountsValue(q), true, true),
      Part(MEMORY_LAYOUT, MemoryValue(q), true, true);
    var network := Part(NETWORK_LAYOUT, NetworkValue(q), true, true);
    NumbersCoded(q);
    TextsCoded(q.architectures);
    JoinFour(counts, texts, memory, network);
    assert counts.And(texts.And(memory.And(network))) == SizePart(q);
  }

  function WishesPart(q: WireRequest): Part
  {
    Part(WISHES_LAYOUT, WishesValue(q), true,
         (|q.mandatory| <= MAX_COUNT && Every(ClassInTable, q.mandatory)) && |q.optional| <= MAX_COUNT &&
           Every(ClassInTable, q.optional))
  }

  lemma WishesCoded(q: WireRequest)
    requires RequestSized(q)
    ensures WishesPart(q).Ok()
  {
    var options, parties := Part(OPTIONS_LAYOUT, OptionsValue(q), true, true),
      Part(PARTIES_LAYOUT, PartiesValue(q), true, true);
    var mandatory, optional := ClassesPart(q.mandatory), ClassesPart(q.optional);
    OptionsCoded(q);
    PartiesCoded(q);
    ClassesCoded(q.mandatory);
    ClassesCoded(q.optional);
    JoinFour(mandatory, optional, options, parties);
    assert mandatory.And(optional.And(options.And(parties))) == WishesPart(q);
  }

  function RequestPart(q: WireRequest): Part
  {
    Part(REQUEST_LAYOUT, RequestValue(q), RequestFits(q), RequestInTables(q))
  }

  lemma RequestCoded(q: WireRequest)
    requires RequestSized(q)
    ensures RequestPart(q).Ok()
  {
    SizeCoded(q);
    WishesCoded(q);
    JoinTwo(SizePart(q), WishesPart(q));
    assert SizePart(q).And(WishesPart(q)) == RequestPart(q);
  }

  lemma RequestReturns(q: WireRequest)
    requires RequestSized(q)
    ensures RequestOf(RequestValue(q)) == Some(ForgetRequest(q))
  {
    ListComesBack(TextValue, TextOf, q.architectures);
    ListComesBack(CodeValue, CodeOf, q.mandatory);
    ListComesBack(CodeValue, CodeOf, q.optional);
  }

  /** A saved request reads back without its reachability override, its whole placement constraint and
      its extra constraints; so it reads back as itself exactly when it had none of them. */
  lemma SavedRequestForgets(q: WireRequest)
    requires RequestSized(q) && RequestFits(q) && RequestInTables(q)
    ensures Shaped(REQUEST_LAYOUT, RequestValue(q))
    ensures Lossless(REQUEST_LAYOUT, RequestValue(q), RequestOf, ForgetRequest(q))
    ensures ForgetRequest(q) == q <==>
              && !q.ignoreReachability && q.topology == NoTopology && q.maxSharedRisk == 0
              && q.allowedTypes == [] && q.constraints == []
  {
    RequestCoded(q);
    RequestReturns(q);
    LosslessOrRefused(REQUEST_LAYOUT, RequestValue(q), RequestOf, ForgetRequest(q));
  }

  // ---- compositions ------------------------------------------------------------

  datatype WireFactor = WireFactor(name: text, weight: u64, value: u64, detail: text)

  /** The ranking factors and the explanation are not written. */
  datatype WireComposition = WireComposition(
    id: u64, generation: u64, resourceSet: u64, setGeneration: u64, nodes: seq<u64>, request: WireRequest,
    graph: WireGraph, authority: WireAuthority, lifecycle: u32, reservation: u64, outcome: u32, rank: u64,
    paths: seq<WirePath>, factors: seq<WireFactor>, explanation: text)

  const KEYS_LAYOUT: Layout := Then(U64, Then(U64, Then(U64, U64)))
  const PHASE_LAYOUT: Layout := Then(Enum(17), Then(U64, Then(Enum(6), U64)))
  const SUBJECT_LAYOUT: Layout := Then(KEYS_LAYOUT, Then(WORDS, REQUEST_LAYOUT))
  const OBJECT_LAYOUT: Layout := Then(GRAPH_LAYOUT, Then(AUTHORITY_LAYOUT, Then(PHASE_LAYOUT, List(PATH_LAYOUT))))
  const COMPOSITION_LAYOUT: Layout := Then(SUBJECT_LAYOUT, OBJECT_LAYOUT)

  function KeysValue(c: WireComposition): Value
  {
    Pair(Num(c.id), Pair(Num(c.generation), Pair(Num(c.resourceSet), Num(c.setGeneration))))
  }

  function PhaseValue(c: WireComposition): Value
  {
    Pair(Num(c.lifecycle), Pair(Num(c.reservation), Pair(Num(c.outcome), Num(c.rank))))
  }

  function SubjectValue(c: WireComposition): Value
  {
    Pair(KeysValue(c), Pair(WordsValue(c.nodes), RequestValue(c.request)))
  }

  function ObjectValue(c: WireComposition): Value
  {
    Pair(GraphValue(c.graph), Pair(AuthorityValue(c.authority), Pair(PhaseValue(c), ListValue(PathValue, c.paths))))
  }

  function CompositionValue(c: WireComposition): Value { Pair(SubjectValue(c), ObjectValue(c)) }

  function CompositionOf(v: Value): Option<WireComposition>
  {
    match v
    case Pair(Pair(Pair(Num(a), Pair(Num(b), Pair(Num(c), Num(d)))), Pair(e, f)),
              Pair(g, Pair(h, Pair(Pair(Num(i), Pair(Num(j), Pair(Num(k), Num(l)))), m)))) =>
      var e', f', g', h', m' := WordsOf(e), RequestOf(f), GraphOf(g), AuthorityOf(h), ListOf(PathOf, m);
      if a < TWO_64 && b < TWO_64 && c < TWO_64 && d < TWO_64 && i < TWO_32 && j < TWO_64 && k < TWO_32 && l < TWO_64 &&
         e'.Some? && f'.Some? && g'.Some? && h'.Some? && m'.Some?
      then Some(WireComposition(a, b, c, d, e'.value, f'.value, g'.value, h'.value, i, j, k, l, m'.value, [], []))
      else None
    case _ => None
  }

  function ForgetComposition(c: WireComposition): WireComposition
  {
    c.(request := ForgetRequest(c.request), factors := [], explanation := [])
  }

  predicate GraphSized(g: WireGraph) { |g.vertices| < TWO_32 && |g.edges| < TWO_32 }

  predicate CompositionSized(c: WireComposition)
  {
    && |c.nodes| < TWO_32 && RequestSized(c.request) && GraphSized(c.graph) && AuthorityWithin(c.authority, TWO_32 - 1)
    && |c.paths| < TWO_32
  }

  predicate EdgesFit(g: WireGraph) { forall e :: e in g.edges ==> EdgeFits(e) }

  predicate CompositionFits(c: WireComposition)
  {
    RequestFits(c.request) && EdgesFit(c.graph) && Every(PathFits, c.paths)
  }

  predicate PhaseInTables(c: WireComposition) { 1 <= c.lifecycle <= 17 && 1 <= c.outcome <= 6 }

  predicate PathInTables(p: WirePath) { EvidenceInTables(p.evidence) }

  predicate CompositionInTables(c: WireComposition)
  {
    && |c.nodes| <= MAX_COUNT && RequestInTables(c.request) && GraphInBounds(c.graph) &&
         AuthorityWithin(c.authority, MAX_COUNT)
    && PhaseInTables(c) && |c.paths| <= MAX_COUNT && Every(PathInTables, c.paths)
  }

  function GraphPart(g: WireGraph): Part { Part(GRAPH_LAYOUT, GraphValue(g), EdgesFit(g), GraphInBounds(g)) }

  predicate EdgesInBounds(es: seq<WireEdge>) { |es| <= MAX_COUNT && forall e :: e in es ==> 1 <= e.kind <= 8 }

  function EdgesPart(g: WireGraph): Part
  {
    Part(List(EDGE_LAYOUT), Items(Collect(EdgeValue, g.edges)), EdgesFit(g), EdgesInBounds(g.edges))
  }

  lemma EdgesCoded(g: WireGraph)
    requires GraphSized(g)
    ensures EdgesPart(g).Ok()
  {
    EdgesFacts(g.edges);
  }

  lemma GraphCoded(g: WireGraph)
    requires GraphSized(g)
    ensures GraphPart(g).Ok()
  {
    var vertices := Part(WORDS, WordsValue(g.vertices), true, |g.vertices| <= MAX_COUNT);
    WordsCoded(g.vertices);
    EdgesCoded(g);
    JoinTwo(vertices, EdgesPart(g));
    assert vertices.And(EdgesPart(g)) == GraphPart(g);
  }

  lemma GraphReturns(g: WireGraph)
    requires GraphSized(g)
    ensures GraphOf(GraphValue(g)) == Some(g)
  {
    WordsCoded(g.vertices);
    EdgesFacts(g.edges);
  }

  function AuthorityPart(a: WireAuthority): Part
  {
    Part(AUTHORITY_LAYOUT, AuthorityValue(a), true, AuthorityWithin(a, MAX_COUNT))
  }

  lemma AuthorityCoded(a: WireAuthority)
    requires AuthorityWithin(a, TWO_32 - 1)
    ensures AuthorityPart(a).Ok()
  {
    AuthorityFacts(a);
  }

  function PathsPart(ps: seq<WirePath>): Part { ListPart(PATH_LAYOUT, PathValue, PathFits, PathInTables, ps) }

  lemma PathsCoded(ps: seq<WirePath>)
    requires |ps| < TWO_32
    ensures PathsPart(ps).Ok()
  {
    forall p | p in ps ensures Coded(PATH_LAYOUT, PathValue(p), PathFits(p), PathInTables(p)) { PathFacts(p); }
    ListCoded(PATH_LAYOUT, PathValue, PathFits, PathInTables, ps);
  }

  lemma PathsReturn(ps: seq<WirePath>)
    ensures ListOf(PathOf, ListValue(PathValue, ps)) == Some(ps)
  {
    forall p | p in ps ensures PathOf(PathValue(p)) == Some(p) { PathReturns(p); }
    ListComesBack(PathValue, PathOf, ps);
  }

  lemma KeysCoded(c: WireComposition)
    ensures Part(KEYS_LAYOUT, KeysValue(c), true, true).Ok()
  {
    Pow256Words();
  }

  lemma PhaseCoded(c: WireComposition)
    ensures Part(PHASE_LAYOUT, PhaseValue(c), true, PhaseInTables(c)).Ok()
  {
    Pow256Words();
  }

  function SubjectPart(c: WireComposition): Part
  {
    Part(KEYS_LAYOUT, KeysValue(c), true, true).And(
      Part(WORDS, WordsValue(c.nodes), true, |c.nodes| <= MAX_COUNT).And(RequestPart(c.request)))
  }

  lemma SubjectCoded(c: WireComposition)
    requires CompositionSized(c)
    ensures SubjectPart(c).Ok()
  {
    KeysCoded(c);
    WordsCoded(c.nodes);
    RequestCoded(c.request);
    var nodes := Part(WORDS, WordsValue(c.nodes), true, |c.nodes| <= MAX_COUNT);
    JoinTwo(nodes, RequestPart(c.request));
    JoinTwo(Part(KEYS_LAYOUT, KeysValue(c), true, true), nodes.And(RequestPart(c.request)));
  }

  function ObjectPart(c: WireComposition): Part
  {
    GraphPart(c.graph).And(AuthorityPart(c.authority).And(
      Part(PHASE_LAYOUT, PhaseValue(c), true, PhaseInTables(c)).And(PathsPart(c.paths))))
  }

  lemma ObjectCoded(c: WireComposition)
    requires CompositionSized(c)
    ensures ObjectPart(c).Ok()
  {
    GraphCoded(c.graph);
    AuthorityCoded(c.authority);
    PhaseCoded(c);
    PathsCoded(c.paths);
    JoinFour(GraphPart(c.graph), AuthorityPart(c.authority), Part(PHASE_LAYOUT, PhaseValue(c), true, PhaseInTables(c)),
      PathsPart(c.paths));
  }

  function CompositionPart(c: WireComposition): Part
  {
    Part(COMPOSITION_LAYOUT, CompositionValue(c), CompositionFits(c), CompositionInTables(c))
  }

  lemma CompositionCoded(c: WireComposition)
    requires CompositionSized(c)
    ensures CompositionPart(c).Ok()
  {
    SubjectCoded(c);
    ObjectCoded(c);
    JoinTwo(SubjectPart(c), ObjectPart(c));
    assert SubjectPart(c).And(ObjectPart(c)) == CompositionPart(c);
  }

  lemma CompositionReturns(c: WireComposition)
    requires CompositionSized(c)
    ensures CompositionOf(CompositionValue(c)) == Some(ForgetComposition(c))
  {
    WordsCoded(c.nodes);
    RequestReturns(c.request);
    GraphReturns(c.graph);
    AuthorityReturns(c.authority);
    PathsReturn(c.paths);
  }

  // ---- durable states ----------------------------------------------------------

  datatype WirePolicy = WirePolicy(id: u64, generation: u64)

  datatype WireDurable = WireDurable(epoch: u64, nodes: seq<WireNode>, resources: seq<WireResource>,
                                     policies: seq<WirePolicy>, compositions: seq<WireComposition>)

  const POLICY_LAYOUT: Layout := Then(U64, U64)
  const TABLES_LAYOUT: Layout :=
    Then(List(NODE_LAYOUT), Then(List(RESOURCE_LAYOUT), Then(List(POLICY_LAYOUT), List(COMPOSITION_LAYOUT))))
  const DURABLE_LAYOUT: Layout := Then(U64, TABLES_LAYOUT)

  function PolicyValue(p: WirePolicy): Value { Pair(Num(p.id), Num(p.generation)) }

  function PolicyOf(v: Value): Option<WirePolicy>
  {
    match v
    case Pair(Num(a), Num(b)) => if a < TWO_64 && b < TWO_64 then Some(WirePolicy(a, b)) else None
    case _ => None
  }

  function TablesValue(w: WireDurable): Value
  {
    Pair(ListValue(NodeValue, w.nodes), Pair(ListValue(ResourceValue, w.resources),
    Pair(ListValue(PolicyValue, w.policies), ListValue(CompositionValue, w.compositions))))
  }

  function DurableValue(w: WireDurable): Value { Pair(Num(w.epoch), TablesValue(w)) }

  function DurableOf(v: Value): Option<WireDurable>
  {
    match v
    case Pair(Num(a), Pair(b, Pair(c, Pair(d, e)))) =>
      var b', c', d', e' := ListOf(NodeOf, b), ListOf(ResourceOf, c), ListOf(PolicyOf, d), ListOf(CompositionOf, e);
      if a < TWO_64 && b'.Some? && c'.Some? && d'.Some? && e'.Some?
      then Some(WireDurable(a, b'.value, c'.value, d'.value, e'.value)) else None
    case _ => None
  }

  function ForgetDurable(w: WireDurable): WireDurable
  {
    w.(nodes := MapSeq(ForgetNode, w.nodes), resources := MapSeq(ForgetResource, w.resources),
       compositions := MapSeq(ForgetComposition, w.compositions))
  }

  predicate DurableSized(w: WireDurable)
  {
    && |w.nodes| < TWO_32 && Every(NodeSized, w.nodes)
    && |w.resources| < TWO_32 && Every(ResourceSized, w.resources)
    && |w.policies| < TWO_32
    && |w.compositions| < TWO_32 && Every(CompositionSized, w.compositions)
  }

  predicate DurableFits(w: WireDurable)
  {
    Every(NodeFits, w.nodes) && Every(ResourceFits, w.resources) && Every(CompositionFits, w.compositions)
  }

  /** Every enumeration is in its table and every list within the bound. */
  predicate DurableInTables(w: WireDurable)
  {
    && |w.nodes| <= MAX_COUNT && Every(NodeInTables, w.nodes)
    && |w.resources| <= MAX_COUNT && Every(ResourceInTables, w.resources)
    && |w.policies| <= MAX_COUNT
    && |w.compositions| <= MAX_COUNT && Every(CompositionInTables, w.compositions)
  }

  function NodesPart(ns: seq<WireNode>): Part { ListPart(NODE_LAYOUT, NodeValue, NodeFits, NodeInTables, ns) }

  lemma NodesCoded(ns: seq<WireNode>)
    requires |ns| < TWO_32 && Every(NodeSized, ns)
    ensures NodesPart(ns).Ok() && ListOf(NodeOf, ListValue(NodeValue, ns)) == Some(MapSeq(ForgetNode, ns))
  {
    forall n | n in ns
      ensures Coded(NODE_LAYOUT, NodeValue(n), NodeFits(n), NodeInTables(n)) &&
          NodeOf(NodeValue(n)) == Some(ForgetNode(n))
    {
      NodeCoded(n);
      NodeReturns(n);
    }
    ListCoded(NODE_LAYOUT, NodeValue, NodeFits, NodeInTables, ns);
    ListReturns(NodeValue, NodeOf, ForgetNode, ns);
  }

  function ResourcesPart(rs: seq<WireResource>): Part
  {
    ListPart(RESOURCE_LAYOUT, ResourceValue, ResourceFits, ResourceInTables, rs)
  }

  lemma ResourcesCoded(rs: seq<WireResource>)
    requires |rs| < TWO_32 && Every(ResourceSized, rs)
    ensures ResourcesPart(rs).Ok() &&
        ListOf(ResourceOf, ListValue(ResourceValue, rs)) == Some(MapSeq(ForgetResource, rs))
  {
    forall r | r in rs
      ensures Coded(RESOURCE_LAYOUT, ResourceValue(r), ResourceFits(r), ResourceInTables(r))
      ensures ResourceOf(ResourceValue(r)) == Some(ForgetResource(r))
    {
      ResourceCoded(r);
      ResourceReturns(r);
    }
    ListCoded(RESOURCE_LAYOUT, ResourceValue, ResourceFits, ResourceInTables, rs);
    ListReturns(ResourceValue, ResourceOf, ForgetResource, rs);
  }

  function PoliciesPart(ps: seq<WirePolicy>): Part { ListPart(POLICY_LAYOUT, PolicyValue, Anything, Anything, ps) }

  lemma PoliciesCoded(ps: seq<WirePolicy>)
    requires |ps| < TWO_32
    ensures PoliciesPart(ps).Ok() && ListOf(PolicyOf, ListValue(PolicyValue, ps)) == Some(ps)
  {
    Pow256Words();
    ListCoded(POLICY_LAYOUT, PolicyValue, Anything, Anything, ps);
    ListComesBack(PolicyValue, PolicyOf, ps);
  }

  function CompositionsPart(cs: seq<WireComposition>): Part
  {
    ListPart(COMPOSITION_LAYOUT, CompositionValue, CompositionFits, CompositionInTables, cs)
  }

  lemma CompositionsCoded(cs: seq<WireComposition>)
    requires |cs| < TWO_32 && Every(CompositionSized, cs)
    ensures CompositionsPart(cs).Ok()
    ensures ListOf(CompositionOf, ListValue(CompositionValue, cs)) == Some(MapSeq(ForgetComposition, cs))
  {
    forall c | c in cs
      ensures Coded(COMPOSITION_LAYOUT, CompositionValue(c), CompositionFits(c), CompositionInTables(c))
      ensures CompositionOf(CompositionValue(c)) == Some(ForgetComposition(c))
    {
      CompositionCoded(c);
      CompositionReturns(c);
    }
    ListCoded(COMPOSITION_LAYOUT, CompositionValue, CompositionFits, CompositionInTables, cs);
    ListReturns(CompositionValue, CompositionOf, ForgetComposition, cs);
  }

  function DurablePart(w: WireDurable): Part
  {
    Part(DURABLE_LAYOUT, DurableValue(w), DurableFits(w), DurableInTables(w))
  }

  lemma DurableCoded(w: WireDurable)
    requires DurableSized(w)
    ensures DurablePart(w).Ok()
  {
    var epoch := Part(U64, Num(w.epoch), true, true);
    var nodes, resources := NodesPart(w.nodes), ResourcesPart(w.resources);
    var policies, compositions := PoliciesPart(w.policies), CompositionsPart(w.compositions);
    WordPart(w.epoch);
    NodesCoded(w.nodes);
    ResourcesCoded(w.resources);
    PoliciesCoded(w.policies);
    CompositionsCoded(w.compositions);
    JoinFive(epoch, nodes, resources, policies, compositions);
    assert epoch.And(nodes.And(resources.And(policies.And(compositions)))) == DurablePart(w);
  }

  lemma DurableReturns(w: WireDurable)
    requires DurableSized(w)
    ensures DurableOf(DurableValue(w)) == Some(ForgetDurable(w))
  {
    TablesReturn(w);
  }

  lemma TablesReturn(w: WireDurable)
    requires DurableSized(w)
    ensures ListOf(NodeOf, ListValue(NodeValue, w.nodes)) == Some(MapSeq(ForgetNode, w.nodes))
    ensures ListOf(ResourceOf, ListValue(ResourceValue, w.resources)) == Some(MapSeq(ForgetResource, w.resources))
    ensures ListOf(PolicyOf, ListValue(PolicyValue, w.policies)) == Some(w.policies)
    ensures ListOf(CompositionOf, ListValue(CompositionValue, w.compositions)) ==
        Some(MapSeq(ForgetComposition, w.compositions))
  {
    NodesCoded(w.nodes);
    ResourcesCoded(w.resources);
    PoliciesCoded(w.policies);
    CompositionsCoded(w.compositions);
  }

  // ---- save and load -----------------------------------------------------------

  /** The bytes of a saved state. */
  ghost function StateImage(w: WireDurable): seq<byte>
    requires DurableSized(w)
  {
    DurableCoded(w);
    FileImage(DURABLE_LAYOUT, DurableValue(w))
  }

  /** The state a file holds, or None if it is refused. */
  function StateOf(data: seq<byte>): Option<WireDurable>
  {
    match LoadFile(DURABLE_LAYOUT, data)
    case None => None
    case Some(v) => DurableOf(v)
  }

  /** A saved state loads back up to the fields the file leaves out, if and only if every enumeration
      is in its table and every list within the bound; otherwise the file is refused. */
  lemma SavedStateLoads(w: WireDurable)
    requires DurableSized(w) && DurableFits(w)
    ensures StateOf(StateImage(w)) == if DurableInTables(w) then Some(ForgetDurable(w)) else None
  {
    DurableCoded(w);
    DurableReturns(w);
    SavedFileLoads(DURABLE_LAYOUT, DurableValue(w));
  }

  /** Changing any one byte of a saved file makes Load refuse it. */
  lemma ChangedStateRefused(w: WireDurable, i: nat, b: byte)
    requires DurableSized(w) && i < |StateImage(w)| && StateImage(w)[i] != b
    ensures StateOf(StateImage(w)[i := b]).None?
  {
    DurableCoded(w);
    ChecksumReadsBack(FileBody(DURABLE_LAYOUT, DurableValue(w)));
    OneByteChangeRejected(DURABLE_LAYOUT, StateImage(w), i, b);
  }

  predicate ExtraBounded(r: WireResource) { |r.capacity.extra| <= MAX_COUNT }

  /** The writer throws on a string that is too long, and on a capacity table over the bound. */
  predicate DurableWritable(w: WireDurable) { DurableFits(w) && Every(ExtraBounded, w.resources) }

  /** Save: the bytes to be written, or nothing when the writer throws. */
  method SaveState(w: WireDurable) returns (image: Option<seq<byte>>)
    requires DurableSized(w)
    ensures image == if DurableWritable(w) then Some(StateImage(w)) else None
  {
    DurableCoded(w);
    if !Every(ExtraBounded, w.resources) { return None; }
    image := SaveBytes(DURABLE_LAYOUT, DurableValue(w));
  }

  /** Load: the state in the file, or nothing when any check fails. */
  method LoadState(data: seq<byte>) returns (w: Option<WireDurable>)
    ensures w == StateOf(data)
  {
    var v := LoadBytes(DURABLE_LAYOUT, data);
    w := if v.None? then None else DurableOf(v.value);
  }
}
