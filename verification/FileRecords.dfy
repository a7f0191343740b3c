/** The records of the durable-state file, with every field the engine's own structures have: what is
    written, what is left out, and when a saved state can be read back. */
module FileRecords {
  import opened Bytes
  import opened FabricTypes
  import opened Layouts
  import opened WireCodec
  import opened Records
  import opened Persistence

  // ---- what is known about a coded record --------------------------------------

  /** `v` is a value of the layout; it can be written when `fits`, and read back when `good` besides. */
  ghost predicate Coded(l: Layout, v: Value, fits: bool, good: bool)
  {
    && Shaped(l, v)
    && (TextsFit(l, v) <==> fits)
    && (Readable(l, v) <==> fits && good)
  }

  /** One part of a record: its layout and value, whether it fits and whether it is good. */
  datatype Part = Part(l: Layout, v: Value, fits: bool, good: bool)
  {
    ghost predicate Ok() { Coded(l, v, fits, good) }

    function And(q: Part): Part { Part(Then(l, q.l), Pair(v, q.v), fits && q.fits, good && q.good) }
  }

  lemma JoinTwo(p: Part, q: Part)
    requires p.Ok() && q.Ok()
    ensures p.And(q).Ok()
  {
  }

  lemma JoinFour(p: Part, q: Part, r: Part, s: Part)
    requires p.Ok() && q.Ok() && r.Ok() && s.Ok()
    ensures p.And(q.And(r.And(s))).Ok()
  {
    JoinTwo(r, s);
    JoinTwo(q, r.And(s));
    JoinTwo(p, q.And(r.And(s)));
  }

  lemma JoinFive(p: Part, q: Part, r: Part, s: Part, t: Part)
    requires p.Ok() && q.Ok() && r.Ok() && s.Ok() && t.Ok()
    ensures p.And(q.And(r.And(s.And(t)))).Ok()
  {
    JoinFour(q, r, s, t);
    JoinTwo(p, q.And(r.And(s.And(t))));
  }

  function MapSeq<T, U>(f: T -> U, xs: seq<T>): (ys: seq<U>)
    ensures |ys| == |xs| && forall i :: 0 <= i < |xs| ==> ys[i] == f(xs[i])
  {
    seq(|xs|, i requires 0 <= i < |xs| => f(xs[i]))
  }

  function ListValue<T>(value: T -> Value, xs: seq<T>): Value { Items(Collect(value, xs)) }

  function ListOf<T>(of: Value -> Option<T>, v: Value): Option<seq<T>> { if v.Items? then Convert(of, v.vs) else None }

  lemma ElementsCoded(e: Layout, vs: seq<Value>, fits: seq<bool>, good: seq<bool>)
    requires |vs| == |fits| == |good| < TWO_32
    requires forall i :: 0 <= i < |vs| ==> Coded(e, vs[i], fits[i], good[i])
    ensures Coded(List(e), Items(vs), forall i :: 0 <= i < |vs| ==> fits[i],
                  |vs| <= MAX_COUNT && forall i :: 0 <= i < |vs| ==> good[i])
  {
    FittingElements(e, vs, fits, good);
    ReadableElements(e, vs, fits, good);
    ListMeans(e, vs);
  }

  lemma ListMeans(e: Layout, vs: seq<Value>)
    requires AllShaped(e, vs) && |vs| < TWO_32
    ensures Shaped(List(e), Items(vs))
    ensures TextsFit(List(e), Items(vs)) <==> AllFit(e, vs)
    ensures Readable(List(e), Items(vs)) <==> |vs| <= MAX_COUNT && AllReadable(e, vs)
  {
  }

  lemma FittingElements(e: Layout, vs: seq<Value>, fits: seq<bool>, good: seq<bool>)
    requires |vs| == |fits| == |good| && forall i :: 0 <= i < |vs| ==> Coded(e, vs[i], fits[i], good[i])
    ensures AllShaped(e, vs) && (AllFit(e, vs) <==> forall i :: 0 <= i < |vs| ==> fits[i])
  {
    forall i | 0 <= i < |vs| ensures Shaped(e, vs[i]) && (TextsFit(e, vs[i]) <==> fits[i]) {
      assert Coded(e, vs[i], fits[i], good[i]);
    }
  }

  lemma ReadableElements(e: Layout, vs: seq<Value>, fits: seq<bool>, good: seq<bool>)
    requires |vs| == |fits| == |good| && AllShaped(e, vs)
    requires forall i :: 0 <= i < |vs| ==> Coded(e, vs[i], fits[i], good[i])
    ensures AllReadable(e, vs) <==> (forall i :: 0 <= i < |vs| ==> fits[i]) && forall i :: 0 <= i < |vs| ==> good[i]
  {
    forall i | 0 <= i < |vs| ensures Readable(e, vs[i]) <==> fits[i] && good[i] {
      assert Coded(e, vs[i], fits[i], good[i]);
    }
  }

  predicate Anything<T>(x: T) { true }

  predicate Every<T>(p: T -> bool, xs: seq<T>) { forall i :: 0 <= i < |xs| ==> p(xs[i]) }

  function ListPart<T>(e: Layout, value: T -> Value, fits: T -> bool, good: T -> bool, xs: seq<T>): Part
  {
    Part(List(e), ListValue(value, xs), Every(fits, xs), |xs| <= MAX_COUNT && Every(good, xs))
  }

  lemma ListCoded<T(!new)>(e: Layout, value: T -> Value, fits: T -> bool, good: T -> bool, xs: seq<T>)
    requires |xs| < TWO_32
    requires forall x :: x in xs ==> Coded(e, value(x), fits(x), good(x))
    ensures ListPart(e, value, fits, good, xs).Ok()
  {
    var vs, fs, gs := Collect(value, xs), MapSeq(fits, xs), MapSeq(good, xs);
    forall i | 0 <= i < |xs| ensures Coded(e, vs[i], fs[i], gs[i]) { assert xs[i] in xs; }
    ElementsCoded(e, vs, fs, gs);
    assert Every(fits, xs) <==> forall i :: 0 <= i < |xs| ==> fs[i];
    assert Every(good, xs) <==> forall i :: 0 <= i < |xs| ==> gs[i];
  }

  lemma ListReturns<T(!new)>(value: T -> Value, of: Value -> Option<T>, back: T -> T, xs: seq<T>)
    requires forall x :: x in xs ==> of(value(x)) == Some(back(x))
    ensures ListOf(of, ListValue(value, xs)) == Some(MapSeq(back, xs))
  {
    var vs := Collect(value, xs);
    assert forall i :: 0 <= i < |xs| ==> xs[i] in xs && of(vs[i]) == Some(back(xs[i]));
    assert Convert(of, vs).value == MapSeq(back, xs);
  }

  lemma ListComesBack<T(!new)>(value: T -> Value, of: Value -> Option<T>, xs: seq<T>)
    requires forall x :: x in xs ==> of(value(x)) == Some(x)
    ensures ListOf(of, ListValue(value, xs)) == Some(xs)
  {
    var vs := Collect(value, xs);
    assert forall i :: 0 <= i < |xs| ==> xs[i] in xs && of(vs[i]) == Some(xs[i]);
    assert Convert(of, vs).value == xs;
  }

  lemma WordsCoded(xs: seq<u64>)
    requires |xs| < TWO_32
    ensures Coded(WORDS, WordsValue(xs), true, |xs| <= MAX_COUNT) && WordsOf(WordsValue(xs)) == Some(xs)
  {
    WordsFacts(xs);
  }

  // ---- locality and failure domains --------------------------------------------

  datatype WireTag = WireTag(name: text, amount: u64)

  datatype WireLocality = WireLocality(coords: seq<u64>, tags: seq<WireTag>)

  /** The coordinates of a domain are not written. */
  datatype WireDomain = WireDomain(id: u64, kind: u32, name: text, synthetic: bool, coords: seq<WireTag>)

  const TAG_LAYOUT: Layout := Then(Str, U64)
  const TAGS_LAYOUT: Layout := List(TAG_LAYOUT)
  const LOCALITY_LAYOUT: Layout := Then(WORDS, TAGS_LAYOUT)
  const DOMAIN_LAYOUT: Layout := Then(U64, Then(Enum(9), Then(Str, Flag)))

  function TagValue(t: WireTag): Value { Pair(Text(t.name), Num(t.amount)) }

  function TagOf(v: Value): Option<WireTag>
  {
    match v
    case Pair(Text(a), Num(b)) => if b < TWO_64 then Some(WireTag(a, b)) else None
    case _ => None
  }

  predicate TagFits(t: WireTag) { |t.name| <= MAX_LEN }
  predicate TagsFit(ts: seq<WireTag>) { Every(TagFits, ts) }

  lemma TagCoded(t: WireTag)
    ensures Coded(TAG_LAYOUT, TagValue(t), TagFits(t), true)
  {
    Pow256Words();
  }

  function TagsPart(ts: seq<WireTag>): Part
  {
    Part(TAGS_LAYOUT, ListValue(TagValue, ts), TagsFit(ts), |ts| <= MAX_COUNT)
  }

  lemma TagsCoded(ts: seq<WireTag>)
    requires |ts| < TWO_32
    ensures TagsPart(ts).Ok()
    ensures ListOf(TagOf, ListValue(TagValue, ts)) == Some(ts)
  {
    forall t | t in ts ensures Coded(TAG_LAYOUT, TagValue(t), TagFits(t), true) { TagCoded(t); }
    ListCoded(TAG_LAYOUT, TagValue, TagFits, Anything, ts);
    assert ListPart(TAG_LAYOUT, TagValue, TagFits, Anything, ts) == TagsPart(ts);
    ListComesBack(TagValue, TagOf, ts);
  }

  function LocalityValue(l: WireLocality): Value { Pair(WordsValue(l.coords), ListValue(TagValue, l.tags)) }

  function LocalityOf(v: Value): Option<WireLocality>
  {
    match v
    case Pair(a, b) =>
      var a', b' := WordsOf(a), ListOf(TagOf, b);
      if a'.Some? && b'.Some? then Some(WireLocality(a'.value, b'.value)) else None
    case _ => None
  }

  predicate LocalityWithin(l: WireLocality, n: nat) { |l.coords| <= n && |l.tags| <= n }

  function LocalityPart(l: WireLocality): Part
  {
    Part(LOCALITY_LAYOUT, LocalityValue(l), TagsFit(l.tags), LocalityWithin(l, MAX_COUNT))
  }

  lemma LocalityCoded(l: WireLocality)
    requires LocalityWithin(l, TWO_32 - 1)
    ensures LocalityPart(l).Ok()
    ensures LocalityOf(LocalityValue(l)) == Some(l)
  {
    WordsCoded(l.coords);
    TagsCoded(l.tags);
    JoinTwo(Part(WORDS, WordsValue(l.coords), true, |l.coords| <= MAX_COUNT), TagsPart(l.tags));
  }

  function DomainValue(d: WireDomain): Value
  {
    Pair(Num(d.id), Pair(Num(d.kind), Pair(Text(d.name), Bit(d.synthetic))))
  }

  function DomainOf(v: Value): Option<WireDomain>
  {
    match v
    case Pair(Num(a), Pair(Num(b), Pair(Text(c), Num(d)))) =>
      if a < TWO_64 && b < TWO_32 then Some(WireDomain(a, b, c, d != 0, [])) else None
    case _ => None
  }

  function ForgetDomain(d: WireDomain): WireDomain { d.(coords := []) }

  predicate DomainFits(d: WireDomain) { |d.name| <= MAX_LEN }
  predicate DomainInTables(d: WireDomain) { 1 <= d.kind <= 9 }

  function DomainPart(d: WireDomain): Part { Part(DOMAIN_LAYOUT, DomainValue(d), DomainFits(d), DomainInTables(d)) }

  lemma DomainCoded(d: WireDomain)
    ensures DomainPart(d).Ok()
    ensures DomainOf(DomainValue(d)) == Some(ForgetDomain(d))
  {
    Pow256Words();
  }

  // ---- nodes -------------------------------------------------------------------

  datatype WireNode = WireNode(
    id: u64, generation: u64, hostname: text, provider: text, backend: u32, inventory: seq<u64>,
    domain: WireDomain, locality: WireLocality, reachability: u32, health: u32, owner: text,
    boot: u64, freshness: u64, lifecycle: u32, synthetic: bool)

  const NODE_HEAD_LAYOUT: Layout := Then(U64, Then(U64, Then(Str, Then(Str, Enum(3)))))
  const NODE_STATUS_LAYOUT: Layout := Then(Enum(2), Then(Enum(3), Str))
  const NODE_TAIL_LAYOUT: Layout := Then(U64, Then(U64, Then(Enum(4), Flag)))
  const NODE_REST_LAYOUT: Layout := Then(NODE_STATUS_LAYOUT, NODE_TAIL_LAYOUT)
  const NODE_LAYOUT: Layout :=
    Then(NODE_HEAD_LAYOUT, Then(WORDS, Then(DOMAIN_LAYOUT, Then(LOCALITY_LAYOUT, NODE_REST_LAYOUT))))

  function NodeHeadValue(n: WireNode): Value
  {
    Pair(Num(n.id), Pair(Num(n.generation), Pair(Text(n.hostname), Pair(Text(n.provider), Num(n.backend)))))
  }

  function NodeStatusValue(n: WireNode): Value { Pair(Num(n.reachability), Pair(Num(n.health), Text(n.owner))) }

  function NodeTailValue(n: WireNode): Value
  {
    Pair(Num(n.boot), Pair(Num(n.freshness), Pair(Num(n.lifecycle), Bit(n.synthetic))))
  }

  function NodeRestValue(n: WireNode): Value { Pair(NodeStatusValue(n), NodeTailValue(n)) }

  function NodeValue(n: WireNode): Value
  {
    Pair(NodeHeadValue(n), Pair(WordsValue(n.inventory), Pair(DomainValue(n.domain),
    Pair(LocalityValue(n.locality), NodeRestValue(n)))))
  }

  function NodeOf(v: Value): Option<WireNode>
  {
    match v
    case Pair(Pair(Num(a), Pair(Num(b), Pair(Text(c), Pair(Text(d), Num(e))))), Pair(i, Pair(f, Pair(l,
         Pair(Pair(Num(g), Pair(Num(h), Text(o))), Pair(Num(p), Pair(Num(q), Pair(Num(r), Num(s))))))))) =>
      var i', f', l' := WordsOf(i), DomainOf(f), LocalityOf(l);
      if a < TWO_64 && b < TWO_64 && e < TWO_32 && g < TWO_32 && h < TWO_32 && p < TWO_64 && q < TWO_64 && r < TWO_32 &&
         i'.Some? && f'.Some? && l'.Some?
      then Some(WireNode(a, b, c, d, e, i'.value, f'.value, l'.value, g, h, o, p, q, r, s != 0)) else None
    case _ => None
  }

  function ForgetNode(n: WireNode): WireNode { n.(domain := ForgetDomain(n.domain)) }

  predicate NodeSized(n: WireNode) { |n.inventory| < TWO_32 && LocalityWithin(n.locality, TWO_32 - 1) }

  predicate NodeHeadFits(n: WireNode) { |n.hostname| <= MAX_LEN && |n.provider| <= MAX_LEN }

  predicate NodeFits(n: WireNode)
  {
    NodeHeadFits(n) && DomainFits(n.domain) && TagsFit(n.locality.tags) && |n.owner| <= MAX_LEN
  }

  predicate NodeStatusInTables(n: WireNode) { 1 <= n.reachability <= 2 && 1 <= n.health <= 3 }

  predicate NodeInTables(n: WireNode)
  {
    && 1 <= n.backend <= 3 && |n.inventory| <= MAX_COUNT && DomainInTables(n.domain)
    && LocalityWithin(n.locality, MAX_COUNT) && NodeStatusInTables(n) && 1 <= n.lifecycle <= 4
  }

  lemma NodeHeadCoded(n: WireNode)
    ensures Coded(NODE_HEAD_LAYOUT, NodeHeadValue(n), NodeHeadFits(n), 1 <= n.backend <= 3)
  {
    Pow256Words();
  }

  lemma NodeRestCoded(n: WireNode)
    ensures Coded(NODE_REST_LAYOUT, NodeRestValue(n), |n.owner| <= MAX_LEN, NodeStatusInTables(n) &&
        1 <= n.lifecycle <= 4)
  {
    NodeStatusCoded(n);
    NodeTailCoded(n);
    JoinTwo(Part(NODE_STATUS_LAYOUT, NodeStatusValue(n), |n.owner| <= MAX_LEN, NodeStatusInTables(n)),
            Part(NODE_TAIL_LAYOUT, NodeTailValue(n), true, 1 <= n.lifecycle <= 4));
  }

  lemma NodeStatusCoded(n: WireNode)
    ensures Coded(NODE_STATUS_LAYOUT, NodeStatusValue(n), |n.owner| <= MAX_LEN, NodeStatusInTables(n))
  {
  }

  lemma NodeTailCoded(n: WireNode)
    ensures Coded(NODE_TAIL_LAYOUT, NodeTailValue(n), true, 1 <= n.lifecycle <= 4)
  {
    Pow256Words();
  }

  function NodePart(n: WireNode): Part { Part(NODE_LAYOUT, NodeValue(n), NodeFits(n), NodeInTables(n)) }

  lemma NodeCoded(n: WireNode)
    requires NodeSized(n)
    ensures NodePart(n).Ok()
  {
    NodeHeadCoded(n);
    WordsCoded(n.inventory);
    DomainCoded(n.domain);
    LocalityCoded(n.locality);
    NodeRestCoded(n);
    var head := Part(NODE_HEAD_LAYOUT, NodeHeadValue(n), NodeHeadFits(n), 1 <= n.backend <= 3);
    var inventory := Part(WORDS, WordsValue(n.inventory), true, |n.inventory| <= MAX_COUNT);
    var rest := Part(NODE_REST_LAYOUT, NodeRestValue(n), |n.owner| <= MAX_LEN, NodeStatusInTables(n) &&
      1 <= n.lifecycle <= 4);
    JoinFive(head, inventory, DomainPart(n.domain), LocalityPart(n.locality), rest);
    assert head.And(inventory.And(DomainPart(n.domain).And(LocalityPart(n.locality).And(rest)))) == NodePart(n);
  }

  lemma NodeReturns(n: WireNode)
    requires NodeSized(n)
    ensures NodeOf(NodeValue(n)) == Some(ForgetNode(n))
  {
    WordsCoded(n.inventory);
    DomainCoded(n.domain);
    LocalityCoded(n.locality);
  }

  // ---- resources ---------------------------------------------------------------

  datatype WireCapability = WireCapability(kind: u32, state: u32, generation: u64, evidence: u64, detail: text)

  datatype WirePin = WirePin(name: text, value: text, generation: u64)

  datatype WireCompatibility = WireCompatibility(id: u64, generation: u64, pins: seq<WirePin>)

  datatype WireCapacity = WireCapacity(computeUnits: u64, acceleratorMemory: u64, hostMemory: u64, expandedMemory: u64,
                                       storage: u64, bandwidth: u64, latency: u64, extra: seq<WireTag>)

  datatype WireResource = WireResource(
    id: u64, generation: u64, cls: u32, node: u64, provider: text, owner: text, synthetic: bool,
    health: u32, readiness: u32, reachability: u32, capacity: WireCapacity, locality: WireLocality,
    domain: WireDomain, evidence: WireEvidence, capabilities: seq<WireCapability>,
      compatibility: seq<WireCompatibility>)

  const CAPABILITY_LAYOUT: Layout := Then(Enum(23), Then(Enum(4), Then(U64, Then(U64, Str))))
  const PIN_LAYOUT: Layout := Then(Str, Then(Str, U64))
  const COMPATIBILITY_LAYOUT: Layout := Then(U64, Then(U64, List(PIN_LAYOUT)))
  const QUANTITIES_LAYOUT: Layout := Then(U64, Then(U64, Then(U64, Then(U64, Then(U64, Then(U64, U64))))))
  const CAPACITY_LAYOUT: Layout := Then(QUANTITIES_LAYOUT, TAGS_LAYOUT)
  const ID_LAYOUT: Layout := Then(U64, Then(U64, Then(Enum(12), U64)))
  const OWNER_LAYOUT: Layout := Then(Str, Then(Str, Flag))
  const STATUS_LAYOUT: Layout := Then(Enum(3), Then(Enum(2), Enum(2)))
  const WHO_LAYOUT: Layout := Then(ID_LAYOUT, OWNER_LAYOUT)
  const STATE_LAYOUT: Layout := Then(STATUS_LAYOUT, CAPACITY_LAYOUT)
  const PLACE_LAYOUT: Layout := Then(LOCALITY_LAYOUT, DOMAIN_LAYOUT)
  const CLAIMS_LAYOUT: Layout := Then(EVIDENCE_LAYOUT, Then(List(CAPABILITY_LAYOUT), List(COMPATIBILITY_LAYOUT)))
  const RESOURCE_LAYOUT: Layout := Then(WHO_LAYOUT, Then(STATE_LAYOUT, Then(PLACE_LAYOUT, CLAIMS_LAYOUT)))

  // Capabilities.

  function CapabilityValue(c: WireCapability): Value
  {
    Pair(Num(c.kind), Pair(Num(c.state), Pair(Num(c.generation), Pair(Num(c.evidence), Text(c.detail)))))
  }

  function CapabilityOf(v: Value): Option<WireCapability>
  {
    match v
    case Pair(Num(a), Pair(Num(b), Pair(Num(c), Pair(Num(d), Text(e))))) =>
      if a < TWO_32 && b < TWO_32 && c < TWO_64 && d < TWO_64 then Some(WireCapability(a, b, c, d, e)) else None
    case _ => None
  }

  predicate CapabilityFits(c: WireCapability) { |c.detail| <= MAX_LEN }
  predicate CapabilityInTables(c: WireCapability) { 1 <= c.kind <= 23 && 1 <= c.state <= 4 }

  lemma CapabilityCoded(c: WireCapability)
    ensures Coded(CAPABILITY_LAYOUT, CapabilityValue(c), CapabilityFits(c), CapabilityInTables(c))
    ensures CapabilityOf(CapabilityValue(c)) == Some(c)
  {
    Pow256Words();
  }

  function CapabilitiesPart(cs: seq<WireCapability>): Part
  {
    ListPart(CAPABILITY_LAYOUT, CapabilityValue, CapabilityFits, CapabilityInTables, cs)
  }

  lemma CapabilitiesCoded(cs: seq<WireCapability>)
    requires |cs| < TWO_32
    ensures CapabilitiesPart(cs).Ok() && ListOf(CapabilityOf, ListValue(CapabilityValue, cs)) == Some(cs)
  {
    forall c | c in cs
      ensures Coded(CAPABILITY_LAYOUT, CapabilityValue(c), CapabilityFits(c), CapabilityInTables(c))
      ensures CapabilityOf(CapabilityValue(c)) == Some(c)
    {
      CapabilityCoded(c);
    }
    ListCoded(CAPABILITY_LAYOUT, CapabilityValue, CapabilityFits, CapabilityInTables, cs);
    ListComesBack(CapabilityValue, CapabilityOf, cs);
  }

  // Compatibility.

  function PinValue(p: WirePin): Value { Pair(Text(p.name), Pair(Text(p.value), Num(p.generation))) }

  function PinOf(v: Value): Option<WirePin>
  {
    match v
    case Pair(Text(a), Pair(Text(b), Num(c))) => if c < TWO_64 then Some(WirePin(a, b, c)) else None
    case _ => None
  }

  predicate PinFits(p: WirePin) { |p.name| <= MAX_LEN && |p.value| <= MAX_LEN }

  lemma PinCoded(p: WirePin)
    ensures Coded(PIN_LAYOUT, PinValue(p), PinFits(p), true) && PinOf(PinValue(p)) == Some(p)
  {
    Pow256Words();
  }

  function PinsPart(ps: seq<WirePin>): Part { ListPart(PIN_LAYOUT, PinValue, PinFits, Anything, ps) }

  lemma PinsCoded(ps: seq<WirePin>)
    requires |ps| < TWO_32
    ensures PinsPart(ps).Ok() && ListOf(PinOf, ListValue(PinValue, ps)) == Some(ps)
  {
    forall p | p in ps ensures Coded(PIN_LAYOUT, PinValue(p), PinFits(p), true) &&
      PinOf(PinValue(p)) == Some(p) { PinCoded(p); }
    ListCoded(PIN_LAYOUT, PinValue, PinFits, Anything, ps);
    ListComesBack(PinValue, PinOf, ps);
  }

  function CompatibilityValue(c: WireCompatibility): Value
  {
    Pair(Num(c.id), Pair(Num(c.generation), ListValue(PinValue, c.pins)))
  }

  function CompatibilityOf(v: Value): Option<WireCompatibility>
  {
    match v
    case Pair(Num(a), Pair(Num(b), c)) =>
      var pins := ListOf(PinOf, c);
      if a < TWO_64 && b < TWO_64 && pins.Some? then Some(WireCompatibility(a, b, pins.value)) else None
    case _ => None
  }

  predicate CompatibilityFits(c: WireCompatibility) { Every(PinFits, c.pins) }
  predicate CompatibilityInTables(c: WireCompatibility) { |c.pins| <= MAX_COUNT }

  lemma WordPart(x: u64)
    ensures Part(U64, Num(x), true, true).Ok()
  {
    Pow256Words();
  }

  lemma CompatibilityCoded(c: WireCompatibility)
    requires |c.pins| < TWO_32
    ensures Coded(COMPATIBILITY_LAYOUT, CompatibilityValue(c), CompatibilityFits(c), CompatibilityInTables(c))
    ensures CompatibilityOf(CompatibilityValue(c)) == Some(c)
  {
    var id, generation := Part(U64, Num(c.id), true, true), Part(U64, Num(c.generation), true, true);
    PinsCoded(c.pins);
    WordPart(c.id);
    WordPart(c.generation);
    JoinTwo(generation, PinsPart(c.pins));
    JoinTwo(id, generation.And(PinsPart(c.pins)));
    assert id.And(generation.And(PinsPart(c.pins))) ==
           Part(COMPATIBILITY_LAYOUT, CompatibilityValue(c), CompatibilityFits(c), CompatibilityInTables(c));
  }

  predicate PinsSized(c: WireCompatibility) { |c.pins| < TWO_32 }

  function CompatibilitiesPart(cs: seq<WireCompatibility>): Part
  {
    ListPart(COMPATIBILITY_LAYOUT, CompatibilityValue, CompatibilityFits, CompatibilityInTables, cs)
  }

  lemma CompatibilitiesCoded(cs: seq<WireCompatibility>)
    requires |cs| < TWO_32 && Every(PinsSized, cs)
    ensures CompatibilitiesPart(cs).Ok() && ListOf(CompatibilityOf, ListValue(CompatibilityValue, cs)) == Some(cs)
  {
    forall c | c in cs
      ensures Coded(COMPATIBILITY_LAYOUT, CompatibilityValue(c), CompatibilityFits(c), CompatibilityInTables(c))
      ensures CompatibilityOf(CompatibilityValue(c)) == Some(c)
    {
      CompatibilityCoded(c);
    }
    ListCoded(COMPATIBILITY_LAYOUT, CompatibilityValue, CompatibilityFits, CompatibilityInTables, cs);
    ListComesBack(CompatibilityValue, CompatibilityOf, cs);
  }

  // Capacity.

  function QuantitiesValue(c: WireCapacity): Value
  {
    Pair(Num(c.computeUnits), Pair(Num(c.acceleratorMemory), Pair(Num(c.hostMemory), Pair(Num(c.expandedMemory),
    Pair(Num(c.storage), Pair(Num(c.bandwidth), Num(c.latency)))))))
  }

  function CapacityValue(c: WireCapacity): Value { Pair(QuantitiesValue(c), ListValue(TagValue, c.extra)) }

  function CapacityOf(v: Value): Option<WireCapacity>
  {
    match v
    case Pair(Pair(Num(a), Pair(Num(b), Pair(Num(c), Pair(Num(d), Pair(Num(e), Pair(Num(f), Num(g))))))), h) =>
      var extra := ListOf(TagOf, h);
      if a < TWO_64 && b < TWO_64 && c < TWO_64 && d < TWO_64 && e < TWO_64 && f < TWO_64 && g < TWO_64 && extra.Some?
      then Some(WireCapacity(a, b, c, d, e, f, g, extra.value)) else None
    case _ => None
  }

  function CapacityPart(c: WireCapacity): Part
  {
    Part(CAPACITY_LAYOUT, CapacityValue(c), TagsFit(c.extra), |c.extra| <= MAX_COUNT)
  }

  lemma QuantitiesCoded(c: WireCapacity)
    ensures Part(QUANTITIES_LAYOUT, QuantitiesValue(c), true, true).Ok()
  {
    Pow256Words();
  }

  lemma CapacityCoded(c: WireCapacity)
    requires |c.extra| < TWO_32
    ensures CapacityPart(c).Ok() && CapacityOf(CapacityValue(c)) == Some(c)
  {
    QuantitiesCoded(c);
    TagsCoded(c.extra);
    JoinTwo(Part(QUANTITIES_LAYOUT, QuantitiesValue(c), true, true), TagsPart(c.extra));
  }

  // The resource.

  function IdValue(r: WireResource): Value { Pair(Num(r.id), Pair(Num(r.generation), Pair(Num(r.cls), Num(r.node)))) }
  function OwnerValue(r: WireResource): Value { Pair(Text(r.provider), Pair(Text(r.owner), Bit(r.synthetic))) }
  function StatusValue(r: WireResource): Value { Pair(Num(r.health), Pair(Num(r.readiness), Num(r.reachability))) }

  function WhoValue(r: WireResource): Value { Pair(IdValue(r), OwnerValue(r)) }
  function StateValue(r: WireResource): Value { Pair(StatusValue(r), CapacityValue(r.capacity)) }
  function PlaceValue(r: WireResource): Value { Pair(LocalityValue(r.locality), DomainValue(r.domain)) }

  function ClaimsValue(r: WireResource): Value
  {
    Pair(EvidenceValue(r.evidence),
         Pair(ListValue(CapabilityValue, r.capabilities), ListValue(CompatibilityValue, r.compatibility)))
  }

  function ResourceValue(r: WireResource): Value
  {
    Pair(WhoValue(r), Pair(StateValue(r), Pair(PlaceValue(r), ClaimsValue(r))))
  }

  function ResourceOf(v: Value): Option<WireResource>
  {
    match v
    case Pair(Pair(Pair(Num(a), Pair(Num(b), Pair(Num(c), Num(d)))), Pair(Text(e), Pair(Text(f), Num(g)))),
         Pair(Pair(Pair(Num(h), Pair(Num(i), Num(j))), k), Pair(Pair(l, m), Pair(n, Pair(o, p))))) =>
      var k', l', m', n' := CapacityOf(k), LocalityOf(l), DomainOf(m), EvidenceOf(n);
      var o', p' := ListOf(CapabilityOf, o), ListOf(CompatibilityOf, p);
      if a < TWO_64 && b < TWO_64 && c < TWO_32 && d < TWO_64 && h < TWO_32 && i < TWO_32 && j < TWO_32 &&
         k'.Some? && l'.Some? && m'.Some? && n'.Some? && o'.Some? && p'.Some?
      then Some(WireResource(a, b, c, d, e, f, g != 0, h, i, j, k'.value, l'.value, m'.value, n'.value,
        o'.value, p'.value))
      else None
    case _ => None
  }

  function ForgetResource(r: WireResource): WireResource { r.(domain := ForgetDomain(r.domain)) }

  predicate ResourceSized(r: WireResource)
  {
    && |r.capacity.extra| < TWO_32 && LocalityWithin(r.locality, TWO_32 - 1)
    && |r.capabilities| < TWO_32 && |r.compatibility| < TWO_32 && Every(PinsSized, r.compatibility)
  }

  predicate OwnerFits(r: WireResource) { |r.provider| <= MAX_LEN && |r.owner| <= MAX_LEN }

  predicate ResourceFits(r: WireResource)
  {
    && OwnerFits(r) && TagsFit(r.capacity.extra) && TagsFit(r.locality.tags) && DomainFits(r.domain) &&
         EvidenceFits(r.evidence)
    && Every(CapabilityFits, r.capabilities) && Every(CompatibilityFits, r.compatibility)
  }

  predicate StatusInTables(r: WireResource)
  {
    1 <= r.health <= 3 && 1 <= r.readiness <= 2 && 1 <= r.reachability <= 2
  }

  predicate ResourceInTables(r: WireResource)
  {
    && 1 <= r.cls <= 12 && StatusInTables(r) && |r.capacity.extra| <= MAX_COUNT && LocalityWithin(r.locality, MAX_COUNT)
    && DomainInTables(r.domain) && EvidenceInTables(r.evidence)
    && |r.capabilities| <= MAX_COUNT && Every(CapabilityInTables, r.capabilities)
    && |r.compatibility| <= MAX_COUNT && Every(CompatibilityInTables, r.compatibility)
  }

  function ResourcePart(r: WireResource): Part
  {
    Part(RESOURCE_LAYOUT, ResourceValue(r), ResourceFits(r), ResourceInTables(r))
  }

  function WhoPart(r: WireResource): Part { Part(WHO_LAYOUT, WhoValue(r), OwnerFits(r), 1 <= r.cls <= 12) }

  lemma IdCoded(r: WireResource)
    ensures Part(ID_LAYOUT, IdValue(r), true, 1 <= r.cls <= 12).Ok()
  {
    Pow256Words();
  }

  lemma OwnerCoded(r: WireResource)
    ensures Part(OWNER_LAYOUT, OwnerValue(r), OwnerFits(r), true).Ok()
  {
  }

  lemma WhoCoded(r: WireResource)
    ensures WhoPart(r).Ok()
  {
    IdCoded(r);
    OwnerCoded(r);
    JoinTwo(Part(ID_LAYOUT, IdValue(r), true, 1 <= r.cls <= 12), Part(OWNER_LAYOUT, OwnerValue(r), OwnerFits(r), true));
  }

  function StatePart(r: WireResource): Part
  {
    Part(STATE_LAYOUT, StateValue(r), TagsFit(r.capacity.extra), StatusInTables(r) && |r.capacity.extra| <= MAX_COUNT)
  }

  lemma StatusCoded(r: WireResource)
    ensures Part(STATUS_LAYOUT, StatusValue(r), true, StatusInTables(r)).Ok()
  {
  }

  lemma StateCoded(r: WireResource)
    requires ResourceSized(r)
    ensures StatePart(r).Ok()
  {
    StatusCoded(r);
    CapacityCoded(r.capacity);
    JoinTwo(Part(STATUS_LAYOUT, StatusValue(r), true, StatusInTables(r)), CapacityPart(r.capacity));
  }

  function EvidencePart(e: WireEvidence): Part
  {
    Part(EVIDENCE_LAYOUT, EvidenceValue(e), EvidenceFits(e), EvidenceInTables(e))
  }

  lemma EvidenceCoded(e: WireEvidence)
    ensures EvidencePart(e).Ok()
  {
    EvidenceFacts(e);
  }

  function ClaimsPart(r: WireResource): Part
  {
    EvidencePart(r.evidence).And(CapabilitiesPart(r.capabilities).And(CompatibilitiesPart(r.compatibility)))
  }

  lemma ClaimsCoded(r: WireResource)
    requires ResourceSized(r)
    ensures ClaimsPart(r).Ok()
  {
    EvidenceCoded(r.evidence);
    CapabilitiesCoded(r.capabilities);
    CompatibilitiesCoded(r.compatibility);
    JoinTwo(CapabilitiesPart(r.capabilities), CompatibilitiesPart(r.compatibility));
    JoinTwo(EvidencePart(r.evidence), CapabilitiesPart(r.capabilities).And(CompatibilitiesPart(r.compatibility)));
  }

  lemma ResourceCoded(r: WireResource)
    requires ResourceSized(r)
    ensures ResourcePart(r).Ok()
  {
    WhoCoded(r);
    StateCoded(r);
    LocalityCoded(r.locality);
    DomainCoded(r.domain);
    ClaimsCoded(r);
    var place := LocalityPart(r.locality).And(DomainPart(r.domain));
    JoinTwo(LocalityPart(r.locality), DomainPart(r.domain));
    JoinFour(WhoPart(r), StatePart(r), place, ClaimsPart(r));
    assert WhoPart(r).And(StatePart(r).And(place.And(ClaimsPart(r)))) == ResourcePart(r);
  }

  lemma PartsReturn(r: WireResource)
    requires ResourceSized(r)
    ensures CapacityOf(CapacityValue(r.capacity)) == Some(r.capacity)
    ensures LocalityOf(LocalityValue(r.locality)) == Some(r.locality)
    ensures DomainOf(DomainValue(r.domain)) == Some(ForgetDomain(r.domain))
    ensures ListOf(CapabilityOf, ListValue(CapabilityValue, r.capabilities)) == Some(r.capabilities)
    ensures ListOf(CompatibilityOf, ListValue(CompatibilityValue, r.compatibility)) == Some(r.compatibility)
  {
    CapacityCoded(r.capacity);
    LocalityCoded(r.locality);
    DomainCoded(r.domain);
    CapabilitiesCoded(r.capabilities);
    CompatibilitiesCoded(r.compatibility);
  }

  lemma ResourceReturns(r: WireResource)
    requires ResourceSized(r)
    ensures ResourceOf(ResourceValue(r)) == Some(ForgetResource(r))
  {
    PartsReturn(r);
    EvidenceReturns(r.evidence);
  }
}
