/** The bytes of every record of the wire and of the durable-state file, written out in the order in which
    they go into the buffer: what any other implementation has to produce. */
module RecordBytes {
  import opened Bytes
  import opened FabricTypes
  import opened Layouts
  import opened Records
  import opened FileRecords
  import opened FileStates
  import opened Persistence

  /** `v` is a value of the layout and these are its bytes. */
  ghost predicate Writes(l: Layout, v: Value, b: seq<byte>) { Shaped(l, v) && Put(l, v) == b }

  // ---- primitives --------------------------------------------------------------

  function Word(x: u64): seq<byte> { Le(8, x) }
  function Half(x: u32): seq<byte> { Le(4, x) }
  function Count(n: nat): seq<byte> { Le(4, n) }
  function Bool(b: bool): seq<byte> { [if b then 1 else 0] }
  function Chars(t: text): seq<byte> { Count(|t|) + t }

  /** The elements one after the other. */
  function All<T>(bytes: T -> seq<byte>, xs: seq<T>): seq<byte>
  {
    if xs == [] then [] else bytes(xs[0]) + All(bytes, xs[1..])
  }

  /** A count and that many elements. */
  function Listed<T>(bytes: T -> seq<byte>, xs: seq<T>): seq<byte> { Count(|xs|) + All(bytes, xs) }

  /** One part of a record: its layout, its value and its bytes. */
  datatype Piece = Piece(l: Layout, v: Value, b: seq<byte>)
  {
    ghost predicate Ok() { Writes(l, v, b) }

    function And(q: Piece): Piece { Piece(Then(l, q.l), Pair(v, q.v), b + q.b) }
  }

  lemma Two(p: Piece, q: Piece)
    requires p.Ok() && q.Ok()
    ensures p.And(q).Ok()
  {
  }

  lemma Three(p: Piece, q: Piece, r: Piece)
    requires p.Ok() && q.Ok() && r.Ok()
    ensures p.And(q.And(r)).Ok()
  {
    Two(q, r);
    Two(p, q.And(r));
  }

  lemma Four(p: Piece, q: Piece, r: Piece, s: Piece)
    requires p.Ok() && q.Ok() && r.Ok() && s.Ok()
    ensures p.And(q.And(r.And(s))).Ok()
  {
    Three(q, r, s);
    Two(p, q.And(r.And(s)));
  }

  lemma Five(p: Piece, q: Piece, r: Piece, s: Piece, u: Piece)
    requires p.Ok() && q.Ok() && r.Ok() && s.Ok() && u.Ok()
    ensures p.And(q.And(r.And(s.And(u)))).Ok()
  {
    Four(q, r, s, u);
    Two(p, q.And(r.And(s.And(u))));
  }

  lemma Six(p: Piece, q: Piece, r: Piece, s: Piece, u: Piece, w: Piece)
    requires p.Ok() && q.Ok() && r.Ok() && s.Ok() && u.Ok() && w.Ok()
    ensures p.And(q.And(r.And(s.And(u.And(w))))).Ok()
  {
    Five(q, r, s, u, w);
    Two(p, q.And(r.And(s.And(u.And(w)))));
  }

  lemma WordWrites(x: u64)
    ensures Piece(U64, Num(x), Word(x)).Ok()
  {
    Pow256Words();
  }

  lemma {:induction false} AllWrites<T(!new)>(e: Layout, value: T -> Value, bytes: T -> seq<byte>, xs: seq<T>)
    requires forall x :: x in xs ==> Writes(e, value(x), bytes(x))
    ensures AllShaped(e, Collect(value, xs)) && PutAll(e, Collect(value, xs)) == All(bytes, xs)
  {
    forall i | 0 <= i < |xs| ensures Shaped(e, value(xs[i])) { assert xs[i] in xs; }
    if xs != [] {
      AllWrites(e, value, bytes, xs[1..]);
      assert Collect(value, xs)[1..] == Collect(value, xs[1..]);
      assert xs[0] in xs;
    }
  }

  lemma ListWrites<T(!new)>(e: Layout, value: T -> Value, bytes: T -> seq<byte>, xs: seq<T>)
    requires |xs| < TWO_32 && forall x :: x in xs ==> Writes(e, value(x), bytes(x))
    ensures Writes(List(e), Items(Collect(value, xs)), Listed(bytes, xs))
  {
    AllWrites(e, value, bytes, xs);
  }

  function WordsPiece(xs: seq<u64>): Piece { Piece(WORDS, WordsValue(xs), Listed(Word, xs)) }

  lemma WordsWrite(xs: seq<u64>)
    requires |xs| < TWO_32
    ensures WordsPiece(xs).Ok()
  {
    Pow256Words();
    ListWrites(U64, WordValue, Word, xs);
  }

  /** Strings of up to 32768 bytes and lists of up to 1048576 elements, in writing and in reading. */
  lemma Limits(t: text, xs: seq<u64>)
    requires |xs| < TWO_32
    ensures TextsFit(Str, Value.Text(t)) <==> |t| <= 32768
    ensures Readable(Str, Value.Text(t)) <==> |t| <= 32768
    ensures Shaped(WORDS, WordsValue(xs)) && (Readable(WORDS, WordsValue(xs)) <==> |xs| <= 1048576)
  {
    WordsFacts(xs);
  }

  // ---- evidence and paths ------------------------------------------------------

  function StampBytes(e: WireEvidence): seq<byte>
  {
    Word(e.id) + (Word(e.generation) + (Half(e.source) + Half(e.state)))
  }

  function OriginBytes(e: WireEvidence): seq<byte>
  {
    Word(e.timestamp) + (Word(e.maxAge) + (Word(e.confidence) +
      (Chars(e.provenance) + (Chars(e.owner) + Bool(e.durable)))))
  }

  function EvidenceBytes(e: WireEvidence): seq<byte> { StampBytes(e) + OriginBytes(e) }

  lemma EvidenceWrites(e: WireEvidence)
    ensures Writes(EVIDENCE_LAYOUT, EvidenceValue(e), EvidenceBytes(e))
  {
    StampFacts(e);
    OriginFacts(e);
    Two(Piece(STAMP_LAYOUT, StampValue(e), StampBytes(e)), Piece(ORIGIN_LAYOUT, OriginValue(e), OriginBytes(e)));
  }

  function RequirementBytes(q: WireRequirement): seq<byte>
  {
    Word(q.from) + (Word(q.to) + (Word(q.minBandwidth) + (Word(q.maxLatency) +
      (Bool(q.required) + (Bool(q.direct) + Chars(q.protocol))))))
  }

  function MeasureBytes(m: WireMeasure): seq<byte>
  {
    Bool(m.available) + (Word(m.bandwidth) + (Word(m.latency) +
      (Bool(m.verified) + (Chars(m.provider) + Chars(m.source)))))
  }

  function ClaimBytes(p: WirePath): seq<byte>
  {
    Word(p.id) + (Word(p.generation) + RequirementBytes(p.requirement))
  }

  function PathBytes(p: WirePath): seq<byte>
  {
    ClaimBytes(p) + (MeasureBytes(p.measure) + EvidenceBytes(p.evidence))
  }

  lemma RequirementWrites(q: WireRequirement)
    ensures Writes(REQUIREMENT_LAYOUT, RequirementValue(q), RequirementBytes(q))
  {
    RequirementFacts(q);
  }

  lemma ClaimWrites(p: WirePath)
    ensures Writes(CLAIM_LAYOUT, ClaimValue(p), ClaimBytes(p))
  {
    WordWrites(p.id);
    WordWrites(p.generation);
    RequirementWrites(p.requirement);
    Three(Piece(U64, Num(p.id), Word(p.id)), Piece(U64, Num(p.generation), Word(p.generation)),
          Piece(REQUIREMENT_LAYOUT, RequirementValue(p.requirement), RequirementBytes(p.requirement)));
  }

  lemma PathWrites(p: WirePath)
    ensures Writes(PATH_LAYOUT, PathValue(p), PathBytes(p))
  {
    ClaimWrites(p);
    MeasureWrites(p.measure);
    EvidenceWrites(p.evidence);
    Three(Piece(CLAIM_LAYOUT, ClaimValue(p), ClaimBytes(p)),
          Piece(MEASURE_LAYOUT, MeasureValue(p.measure), MeasureBytes(p.measure)),
          Piece(EVIDENCE_LAYOUT, EvidenceValue(p.evidence), EvidenceBytes(p.evidence)));
  }

  lemma MeasureWrites(m: WireMeasure)
    ensures Writes(MEASURE_LAYOUT, MeasureValue(m), MeasureBytes(m))
  {
    MeasureFacts(m);
  }

  // ---- graphs, authorities, reservations ----------------------------------------

  function EdgeBytes(e: WireEdge): seq<byte>
  {
    Word(e.from) + (Word(e.to) + (Half(e.kind) + (Bool(e.required) + (Word(e.minBandwidth) + (Word(e.maxLatency) +
      (Chars(e.protocol) + Chars(e.facet)))))))
  }

  function GraphBytes(g: WireGraph): seq<byte> { Listed(Word, g.vertices) + Listed(EdgeBytes, g.edges) }

  lemma EdgeWrites(e: WireEdge)
    ensures Writes(EDGE_LAYOUT, EdgeValue(e), EdgeBytes(e))
  {
    EdgeFacts(e);
  }

  lemma GraphWrites(g: WireGraph)
    requires GraphSized(g)
    ensures Writes(GRAPH_LAYOUT, GraphValue(g), GraphBytes(g))
  {
    WordsWrite(g.vertices);
    forall e | e in g.edges ensures Writes(EDGE_LAYOUT, EdgeValue(e), EdgeBytes(e)) { EdgeWrites(e); }
    ListWrites(EDGE_LAYOUT, EdgeValue, EdgeBytes, g.edges);
    Two(WordsPiece(g.vertices),
      Piece(List(EDGE_LAYOUT), Items(Collect(EdgeValue, g.edges)), Listed(EdgeBytes, g.edges)));
  }

  function BoundBytes(b: WireBound): seq<byte>
  {
    Listed(Word, b.workerBoots) + (Listed(Word, b.nodes) + (Listed(Word, b.resources) + (Listed(Word, b.paths) +
      (Listed(Word, b.capabilities) + Listed(Word, b.compatibility)))))
  }

  function AuthorityBytes(a: WireAuthority): seq<byte>
  {
    Word(a.epoch) + (BoundBytes(a.bound) + (Word(a.policy) +
      (Listed(Word, a.evidence) + (Listed(Word, a.reservations) + Word(a.composition)))))
  }

  lemma BoundWrites(b: WireBound)
    requires BoundWithin(b, TWO_32 - 1)
    ensures Writes(BOUND_LAYOUT, BoundValue(b), BoundBytes(b))
  {
    WordsWrite(b.workerBoots); WordsWrite(b.nodes); WordsWrite(b.resources);
    WordsWrite(b.paths); WordsWrite(b.capabilities); WordsWrite(b.compatibility);
    Six(WordsPiece(b.workerBoots), WordsPiece(b.nodes), WordsPiece(b.resources), WordsPiece(b.paths),
        WordsPiece(b.capabilities), WordsPiece(b.compatibility));
  }

  lemma AuthorityWrites(a: WireAuthority)
    requires AuthorityWithin(a, TWO_32 - 1)
    ensures Writes(AUTHORITY_LAYOUT, AuthorityValue(a), AuthorityBytes(a))
  {
    WordWrites(a.epoch); WordWrites(a.policy); WordWrites(a.composition);
    BoundWrites(a.bound);
    WordsWrite(a.evidence); WordsWrite(a.reservations);
    Six(Piece(U64, Num(a.epoch), Word(a.epoch)), Piece(BOUND_LAYOUT, BoundValue(a.bound), BoundBytes(a.bound)),
        Piece(U64, Num(a.policy), Word(a.policy)), WordsPiece(a.evidence), WordsPiece(a.reservations),
        Piece(U64, Num(a.composition), Word(a.composition)));
  }

  function ItemBytes(i: WireItem): seq<byte> { Word(i.resource) + (Half(i.state) + Word(i.amount)) }

  function ReservationBytes(r: WireReservation): seq<byte>
  {
    Word(r.id) + (Word(r.generation) + (Word(r.composition) + (Listed(ItemBytes, r.items) + Half(r.state))))
  }

  lemma ReservationWrites(r: WireReservation)
    requires |r.items| < TWO_32
    ensures Writes(RESERVATION_LAYOUT, ReservationValue(r), ReservationBytes(r))
  {
    Pow256Words();
    ListWrites(ITEM_LAYOUT, ItemValue, ItemBytes, r.items);
    Five(Piece(U64, Num(r.id), Word(r.id)), Piece(U64, Num(r.generation), Word(r.generation)),
         Piece(U64, Num(r.composition), Word(r.composition)),
         Piece(List(ITEM_LAYOUT), Items(Collect(ItemValue, r.items)), Listed(ItemBytes, r.items)),
         Piece(Enum(4), Num(r.state), Half(r.state)));
  }

  // ---- nodes -------------------------------------------------------------------

  function TagBytes(t: WireTag): seq<byte> { Chars(t.name) + Word(t.amount) }

  function LocalityBytes(l: WireLocality): seq<byte> { Listed(Word, l.coords) + Listed(TagBytes, l.tags) }

  function DomainBytes(d: WireDomain): seq<byte>
  {
    Word(d.id) + (Half(d.kind) + (Chars(d.name) + Bool(d.synthetic)))
  }

  function TagsPiece(ts: seq<WireTag>): Piece { Piece(TAGS_LAYOUT, ListValue(TagValue, ts), Listed(TagBytes, ts)) }

  lemma TagsWrite(ts: seq<WireTag>)
    requires |ts| < TWO_32
    ensures TagsPiece(ts).Ok()
  {
    Pow256Words();
    ListWrites(TAG_LAYOUT, TagValue, TagBytes, ts);
  }

  function LocalityPiece(l: WireLocality): Piece { Piece(LOCALITY_LAYOUT, LocalityValue(l), LocalityBytes(l)) }

  lemma LocalityWrites(l: WireLocality)
    requires LocalityWithin(l, TWO_32 - 1)
    ensures LocalityPiece(l).Ok()
  {
    WordsWrite(l.coords);
    TagsWrite(l.tags);
    Two(WordsPiece(l.coords), TagsPiece(l.tags));
  }

  function DomainPiece(d: WireDomain): Piece { Piece(DOMAIN_LAYOUT, DomainValue(d), DomainBytes(d)) }

  lemma DomainWrites(d: WireDomain)
    ensures DomainPiece(d).Ok()
  {
    DomainCoded(d);
  }

  function NodeHeadBytes(n: WireNode): seq<byte>
  {
    Word(n.id) + (Word(n.generation) + (Chars(n.hostname) + (Chars(n.provider) + Half(n.backend))))
  }

  function NodeStatusBytes(n: WireNode): seq<byte> { Half(n.reachability) + (Half(n.health) + Chars(n.owner)) }

  function NodeTailBytes(n: WireNode): seq<byte>
  {
    Word(n.boot) + (Word(n.freshness) + (Half(n.lifecycle) + Bool(n.synthetic)))
  }

  function NodeRestBytes(n: WireNode): seq<byte> { NodeStatusBytes(n) + NodeTailBytes(n) }

  function NodeBytes(n: WireNode): seq<byte>
  {
    NodeHeadBytes(n) + (Listed(Word, n.inventory) +
      (DomainBytes(n.domain) + (LocalityBytes(n.locality) + NodeRestBytes(n))))
  }

  lemma NodeHeadWrites(n: WireNode)
    ensures Writes(NODE_HEAD_LAYOUT, NodeHeadValue(n), NodeHeadBytes(n))
  {
    NodeHeadCoded(n);
  }

  lemma NodeStatusWrites(n: WireNode)
    ensures Writes(NODE_STATUS_LAYOUT, NodeStatusValue(n), NodeStatusBytes(n))
    ensures Writes(NODE_TAIL_LAYOUT, NodeTailValue(n), NodeTailBytes(n))
  {
    NodeStatusCoded(n);
    NodeTailCoded(n);
  }

  lemma NodeRestWrites(n: WireNode)
    ensures Writes(NODE_REST_LAYOUT, NodeRestValue(n), NodeRestBytes(n))
  {
    NodeStatusWrites(n);
    Two(Piece(NODE_STATUS_LAYOUT, NodeStatusValue(n), NodeStatusBytes(n)),
        Piece(NODE_TAIL_LAYOUT, NodeTailValue(n), NodeTailBytes(n)));
  }

  lemma NodeWrites(n: WireNode)
    requires NodeSized(n)
    ensures Writes(NODE_LAYOUT, NodeValue(n), NodeBytes(n))
  {
    NodeHeadWrites(n);
    NodeRestWrites(n);
    WordsWrite(n.inventory);
    DomainWrites(n.domain);
    LocalityWrites(n.locality);
    Five(Piece(NODE_HEAD_LAYOUT, NodeHeadValue(n), NodeHeadBytes(n)), WordsPiece(n.inventory), DomainPiece(n.domain),
         LocalityPiece(n.locality), Piece(NODE_REST_LAYOUT, NodeRestValue(n), NodeRestBytes(n)));
  }

  // ---- resources ---------------------------------------------------------------

  function CapabilityBytes(c: WireCapability): seq<byte>
  {
    Half(c.kind) + (Half(c.state) + (Word(c.generation) + (Word(c.evidence) + Chars(c.detail))))
  }

  function PinBytes(p: WirePin): seq<byte> { Chars(p.name) + (Chars(p.value) + Word(p.generation)) }

  function CompatibilityBytes(c: WireCompatibility): seq<byte>
  {
    Word(c.id) + (Word(c.generation) + Listed(PinBytes, c.pins))
  }

  lemma CompatibilityWrites(c: WireCompatibility)
    requires |c.pins| < TWO_32
    ensures Writes(COMPATIBILITY_LAYOUT, CompatibilityValue(c), CompatibilityBytes(c))
  {
    Pow256Words();
    ListWrites(PIN_LAYOUT, PinValue, PinBytes, c.pins);
    Three(Piece(U64, Num(c.id), Word(c.id)), Piece(U64, Num(c.generation), Word(c.generation)),
          Piece(List(PIN_LAYOUT), ListValue(PinValue, c.pins), Listed(PinBytes, c.pins)));
  }

  function CapacityBytes(c: WireCapacity): seq<byte>
  {
    QuantitiesBytes(c) + Listed(TagBytes, c.extra)
  }

  function QuantitiesBytes(c: WireCapacity): seq<byte>
  {
    Word(c.computeUnits) + (Word(c.acceleratorMemory) + (Word(c.hostMemory) + (Word(c.expandedMemory) +
      (Word(c.storage) + (Word(c.bandwidth) + Word(c.latency))))))
  }

  lemma QuantitiesWrite(c: WireCapacity)
    ensures Writes(QUANTITIES_LAYOUT, QuantitiesValue(c), QuantitiesBytes(c))
  {
    QuantitiesCoded(c);
  }

  lemma CapacityWrites(c: WireCapacity)
    requires |c.extra| < TWO_32
    ensures Writes(CAPACITY_LAYOUT, CapacityValue(c), CapacityBytes(c))
  {
    QuantitiesWrite(c);
    TagsWrite(c.extra);
    Two(Piece(QUANTITIES_LAYOUT, QuantitiesValue(c), QuantitiesBytes(c)), TagsPiece(c.extra));
  }

  function WhoBytes(r: WireResource): seq<byte>
  {
    (Word(r.id) + (Word(r.generation) + (Half(r.cls) + Word(r.node)))) +
    (Chars(r.provider) + (Chars(r.owner) + Bool(r.synthetic)))
  }

  function StateBytes(r: WireResource): seq<byte>
  {
    StatusBytes(r) + CapacityBytes(r.capacity)
  }

  function StatusBytes(r: WireResource): seq<byte> { Half(r.health) + (Half(r.readiness) + Half(r.reachability)) }

  lemma StatusWrites(r: WireResource)
    ensures Writes(STATUS_LAYOUT, StatusValue(r), StatusBytes(r))
  {
    StatusCoded(r);
  }

  function PlaceBytes(r: WireResource): seq<byte> { LocalityBytes(r.locality) + DomainBytes(r.domain) }

  function ClaimsBytes(r: WireResource): seq<byte>
  {
    EvidenceBytes(r.evidence) + (Listed(CapabilityBytes, r.capabilities) + Listed(CompatibilityBytes, r.compatibility))
  }

  function ResourceBytes(r: WireResource): seq<byte>
  {
    WhoBytes(r) + (StateBytes(r) + (PlaceBytes(r) + ClaimsBytes(r)))
  }

  lemma WhoWrites(r: WireResource)
    ensures Writes(WHO_LAYOUT, WhoValue(r), WhoBytes(r))
  {
    IdCoded(r);
    OwnerCoded(r);
  }

  lemma StateWrites(r: WireResource)
    requires |r.capacity.extra| < TWO_32
    ensures Writes(STATE_LAYOUT, StateValue(r), StateBytes(r))
  {
    StatusWrites(r);
    CapacityWrites(r.capacity);
    Two(Piece(STATUS_LAYOUT, StatusValue(r), StatusBytes(r)),
        Piece(CAPACITY_LAYOUT, CapacityValue(r.capacity), CapacityBytes(r.capacity)));
  }

  lemma CapabilitiesWrite(cs: seq<WireCapability>)
    requires |cs| < TWO_32
    ensures Writes(List(CAPABILITY_LAYOUT), ListValue(CapabilityValue, cs), Listed(CapabilityBytes, cs))
  {
    forall c | c in cs ensures Writes(CAPABILITY_LAYOUT, CapabilityValue(c), CapabilityBytes(c)) {
      CapabilityCoded(c);
    }
    ListWrites(CAPABILITY_LAYOUT, CapabilityValue, CapabilityBytes, cs);
  }

  lemma CompatibilitiesWrite(cs: seq<WireCompatibility>)
    requires |cs| < TWO_32 && Every(PinsSized, cs)
    ensures Writes(List(COMPATIBILITY_LAYOUT), ListValue(CompatibilityValue, cs), Listed(CompatibilityBytes, cs))
  {
    forall c | c in cs ensures Writes(COMPATIBILITY_LAYOUT, CompatibilityValue(c), CompatibilityBytes(c)) {
      CompatibilityWrites(c);
    }
    ListWrites(COMPATIBILITY_LAYOUT, CompatibilityValue, CompatibilityBytes, cs);
  }

  lemma ClaimsWrite(r: WireResource)
    requires ResourceSized(r)
    ensures Writes(CLAIMS_LAYOUT, ClaimsValue(r), ClaimsBytes(r))
  {
    EvidenceWrites(r.evidence);
    CapabilitiesWrite(r.capabilities);
    CompatibilitiesWrite(r.compatibility);
    Three(Piece(EVIDENCE_LAYOUT, EvidenceValue(r.evidence), EvidenceBytes(r.evidence)),
          Piece(List(CAPABILITY_LAYOUT), ListValue(CapabilityValue, r.capabilities),
                Listed(CapabilityBytes, r.capabilities)),
          Piece(List(COMPATIBILITY_LAYOUT), ListValue(CompatibilityValue, r.compatibility),
                Listed(CompatibilityBytes, r.compatibility)));
  }

  lemma PlaceWrites(r: WireResource)
    requires LocalityWithin(r.locality, TWO_32 - 1)
    ensures Writes(PLACE_LAYOUT, PlaceValue(r), PlaceBytes(r))
  {
    LocalityWrites(r.locality);
    DomainWrites(r.domain);
    Two(LocalityPiece(r.locality), DomainPiece(r.domain));
  }

  lemma ResourceWrites(r: WireResource)
    requires ResourceSized(r)
    ensures Writes(RESOURCE_LAYOUT, ResourceValue(r), ResourceBytes(r))
  {
    WhoWrites(r);
    StateWrites(r);
    PlaceWrites(r);
    ClaimsWrite(r);
    Four(Piece(WHO_LAYOUT, WhoValue(r), WhoBytes(r)), Piece(STATE_LAYOUT, StateValue(r), StateBytes(r)),
         Piece(PLACE_LAYOUT, PlaceValue(r), PlaceBytes(r)), Piece(CLAIMS_LAYOUT, ClaimsValue(r), ClaimsBytes(r)));
  }

  // ---- requests and compositions -------------------------------------------------

  function CountsBytes(q: WireRequest): seq<byte> { Word(q.computeUnits) + Half(q.acceleratorCount) }

  function MemoryBytes(q: WireRequest): seq<byte>
  {
    Word(q.acceleratorMemory) + (Word(q.hostMemory) + (Word(q.expandedMemory) + Word(q.storage)))
  }

  function NetworkBytes(q: WireRequest): seq<byte>
  {
    Half(q.networkEndpoints) + (Word(q.minBandwidth) + Word(q.maxLatency))
  }

  function OptionsBytes(q: WireRequest): seq<byte>
  {
    Bool(q.directPath) + (Bool(q.coherence) + (Bool(q.persistent) + (Bool(q.isolation) + Bool(q.staging))))
  }

  function PartiesBytes(q: WireRequest): seq<byte>
  {
    Word(q.compatibility) + (Word(q.policy) + (Word(q.policyGeneration) +
      (Word(q.consumer) + Word(q.consumerGeneration))))
  }

  function SizeBytes(q: WireRequest): seq<byte>
  {
    CountsBytes(q) + (Listed(Chars, q.architectures) + (MemoryBytes(q) + NetworkBytes(q)))
  }

  function WishesBytes(q: WireRequest): seq<byte>
  {
    Listed(Half, q.mandatory) + (Listed(Half, q.optional) + (OptionsBytes(q) + PartiesBytes(q)))
  }

  function RequestBytes(q: WireRequest): seq<byte> { SizeBytes(q) + WishesBytes(q) }

  lemma NumbersWrite(q: WireRequest)
    ensures Writes(COUNTS_LAYOUT, CountsValue(q), CountsBytes(q))
    ensures Writes(MEMORY_LAYOUT, MemoryValue(q), MemoryBytes(q))
    ensures Writes(NETWORK_LAYOUT, NetworkValue(q), NetworkBytes(q))
  {
    NumbersCoded(q);
  }

  lemma SizeWrites(q: WireRequest)
    requires RequestSized(q)
    ensures Writes(SIZE_LAYOUT, SizeValue(q), SizeBytes(q))
  {
    NumbersWrite(q);
    ListWrites(Str, TextValue, Chars, q.architectures);
    Four(Piece(COUNTS_LAYOUT, CountsValue(q), CountsBytes(q)),
         Piece(List(Str), ListValue(TextValue, q.architectures), Listed(Chars, q.architectures)),
         Piece(MEMORY_LAYOUT, MemoryValue(q), MemoryBytes(q)), Piece(NETWORK_LAYOUT, NetworkValue(q), NetworkBytes(q)));
  }

  lemma OptionsWrite(q: WireRequest)
    ensures Writes(OPTIONS_LAYOUT, OptionsValue(q), OptionsBytes(q))
    ensures Writes(PARTIES_LAYOUT, PartiesValue(q), PartiesBytes(q))
  {
    OptionsCoded(q);
    PartiesCoded(q);
  }

  function ClassesPiece(cs: seq<u32>): Piece { Piece(CLASSES_LAYOUT, ListValue(CodeValue, cs), Listed(Half, cs)) }

  lemma ClassesWrite(cs: seq<u32>)
    requires |cs| < TWO_32
    ensures ClassesPiece(cs).Ok()
  {
    ListWrites(Enum(12), CodeValue, Half, cs);
  }

  lemma WishesWrite(q: WireRequest)
    requires RequestSized(q)
    ensures Writes(WISHES_LAYOUT, WishesValue(q), WishesBytes(q))
  {
    OptionsWrite(q);
    ClassesWrite(q.mandatory);
    ClassesWrite(q.optional);
    Four(ClassesPiece(q.mandatory), ClassesPiece(q.optional), Piece(OPTIONS_LAYOUT, OptionsValue(q), OptionsBytes(q)),
         Piece(PARTIES_LAYOUT, PartiesValue(q), PartiesBytes(q)));
  }

  lemma RequestWrites(q: WireRequest)
    requires RequestSized(q)
    ensures Writes(REQUEST_LAYOUT, RequestValue(q), RequestBytes(q))
  {
    SizeWrites(q);
    WishesWrite(q);
    Two(Piece(SIZE_LAYOUT, SizeValue(q), SizeBytes(q)), Piece(WISHES_LAYOUT, WishesValue(q), WishesBytes(q)));
  }

  function KeysBytes(c: WireComposition): seq<byte>
  {
    Word(c.id) + (Word(c.generation) + (Word(c.resourceSet) + Word(c.setGeneration)))
  }

  function PhaseBytes(c: WireComposition): seq<byte>
  {
    Half(c.lifecycle) + (Word(c.reservation) + (Half(c.outcome) + Word(c.rank)))
  }

  function SubjectBytes(c: WireComposition): seq<byte>
  {
    KeysBytes(c) + (Listed(Word, c.nodes) + RequestBytes(c.request))
  }

  function ObjectBytes(c: WireComposition): seq<byte>
  {
    GraphBytes(c.graph) + (AuthorityBytes(c.authority) + (PhaseBytes(c) + Listed(PathBytes, c.paths)))
  }

  function CompositionBytes(c: WireComposition): seq<byte> { SubjectBytes(c) + ObjectBytes(c) }

  lemma KeysWrite(c: WireComposition)
    ensures Writes(KEYS_LAYOUT, KeysValue(c), KeysBytes(c))
    ensures Writes(PHASE_LAYOUT, PhaseValue(c), PhaseBytes(c))
  {
    KeysCoded(c);
    PhaseCoded(c);
  }

  lemma SubjectWrites(c: WireComposition)
    requires CompositionSized(c)
    ensures Writes(SUBJECT_LAYOUT, SubjectValue(c), SubjectBytes(c))
  {
    KeysWrite(c);
    WordsWrite(c.nodes);
    RequestWrites(c.request);
    Three(Piece(KEYS_LAYOUT, KeysValue(c), KeysBytes(c)), WordsPiece(c.nodes),
          Piece(REQUEST_LAYOUT, RequestValue(c.request), RequestBytes(c.request)));
  }

  lemma PathsWrite(ps: seq<WirePath>)
    requires |ps| < TWO_32
    ensures Writes(List(PATH_LAYOUT), ListValue(PathValue, ps), Listed(PathBytes, ps))
  {
    forall p | p in ps ensures Writes(PATH_LAYOUT, PathValue(p), PathBytes(p)) { PathWrites(p); }
    ListWrites(PATH_LAYOUT, PathValue, PathBytes, ps);
  }

  lemma ObjectWrites(c: WireComposition)
    requires CompositionSized(c)
    ensures Writes(OBJECT_LAYOUT, ObjectValue(c), ObjectBytes(c))
  {
    GraphWrites(c.graph);
    AuthorityWrites(c.authority);
    KeysWrite(c);
    PathsWrite(c.paths);
    Four(Piece(GRAPH_LAYOUT, GraphValue(c.graph), GraphBytes(c.graph)),
         Piece(AUTHORITY_LAYOUT, AuthorityValue(c.authority), AuthorityBytes(c.authority)),
         Piece(PHASE_LAYOUT, PhaseValue(c), PhaseBytes(c)),
         Piece(List(PATH_LAYOUT), ListValue(PathValue, c.paths), Listed(PathBytes, c.paths)));
  }

  lemma CompositionWrites(c: WireComposition)
    requires CompositionSized(c)
    ensures Writes(COMPOSITION_LAYOUT, CompositionValue(c), CompositionBytes(c))
  {
    SubjectWrites(c);
    ObjectWrites(c);
    Two(Piece(SUBJECT_LAYOUT, SubjectValue(c), SubjectBytes(c)), Piece(OBJECT_LAYOUT, ObjectValue(c), ObjectBytes(c)));
  }

  // ---- the file ----------------------------------------------------------------

  function PolicyBytes(p: WirePolicy): seq<byte> { Word(p.id) + Word(p.generation) }

  /** The file before its checksum: magic and version, the epoch, nodes, resources, policies, compositions. */
  function FileBytes(w: WireDurable): seq<byte>
  {
    Half(0x4641_4244) + Half(1) + DurableBytes(w)
  }

  function DurableBytes(w: WireDurable): seq<byte>
  {
    Word(w.epoch) + (Listed(NodeBytes, w.nodes) + (Listed(ResourceBytes, w.resources) +
      (Listed(PolicyBytes, w.policies) + Listed(CompositionBytes, w.compositions))))
  }

  function NodesPiece(ns: seq<WireNode>): Piece
  {
    Piece(List(NODE_LAYOUT), ListValue(NodeValue, ns), Listed(NodeBytes, ns))
  }

  lemma NodesWrite(ns: seq<WireNode>)
    requires |ns| < TWO_32 && Every(NodeSized, ns)
    ensures NodesPiece(ns).Ok()
  {
    forall n | n in ns ensures Writes(NODE_LAYOUT, NodeValue(n), NodeBytes(n)) { NodeWrites(n); }
    ListWrites(NODE_LAYOUT, NodeValue, NodeBytes, ns);
  }

  function ResourcesPiece(rs: seq<WireResource>): Piece
  {
    Piece(List(RESOURCE_LAYOUT), ListValue(ResourceValue, rs), Listed(ResourceBytes, rs))
  }

  lemma ResourcesWrite(rs: seq<WireResource>)
    requires |rs| < TWO_32 && Every(ResourceSized, rs)
    ensures ResourcesPiece(rs).Ok()
  {
    forall r | r in rs ensures Writes(RESOURCE_LAYOUT, ResourceValue(r), ResourceBytes(r)) { ResourceWrites(r); }
    ListWrites(RESOURCE_LAYOUT, ResourceValue, ResourceBytes, rs);
  }

  function PoliciesPiece(ps: seq<WirePolicy>): Piece
  {
    Piece(List(POLICY_LAYOUT), ListValue(PolicyValue, ps), Listed(PolicyBytes, ps))
  }

  lemma PoliciesWrite(ps: seq<WirePolicy>)
    requires |ps| < TWO_32
    ensures PoliciesPiece(ps).Ok()
  {
    Pow256Words();
    ListWrites(POLICY_LAYOUT, PolicyValue, PolicyBytes, ps);
  }

  function CompositionsPiece(cs: seq<WireComposition>): Piece
  {
    Piece(List(COMPOSITION_LAYOUT), ListValue(CompositionValue, cs), Listed(CompositionBytes, cs))
  }

  lemma CompositionsWrite(cs: seq<WireComposition>)
    requires |cs| < TWO_32 && Every(CompositionSized, cs)
    ensures CompositionsPiece(cs).Ok()
  {
    forall c | c in cs ensures Writes(COMPOSITION_LAYOUT, CompositionValue(c), CompositionBytes(c)) {
      CompositionWrites(c);
    }
    ListWrites(COMPOSITION_LAYOUT, CompositionValue, CompositionBytes, cs);
  }

  lemma TablesWrite(w: WireDurable)
    requires NodesPiece(w.nodes).Ok() && ResourcesPiece(w.resources).Ok()
    requires PoliciesPiece(w.policies).Ok() && CompositionsPiece(w.compositions).Ok()
    ensures Writes(DURABLE_LAYOUT, DurableValue(w), DurableBytes(w))
  {
    WordWrites(w.epoch);
    Five(Piece(U64, Num(w.epoch), Word(w.epoch)), NodesPiece(w.nodes), ResourcesPiece(w.resources),
         PoliciesPiece(w.policies), CompositionsPiece(w.compositions));
  }

  lemma DurableWrites(w: WireDurable)
    requires DurableSized(w)
    ensures Writes(DURABLE_LAYOUT, DurableValue(w), DurableBytes(w))
  {
    NodesWrite(w.nodes);
    ResourcesWrite(w.resources);
    PoliciesWrite(w.policies);
    CompositionsWrite(w.compositions);
    TablesWrite(w);
  }

  /** The whole file: those bytes, and the checksum over all of them. */
  lemma StateImageBytes(w: WireDurable)
    requires DurableSized(w)
    ensures StateImage(w) == FileBytes(w) + Word(Fnv(FileBytes(w)))
  {
    DurableWrites(w);
  }
}
