/** The records of the wire codec: their fields, their layouts, and the round trip of each.

    Identities, generations, timestamps and doubles are 64-bit words, enumerations 32-bit codes. */
module Records {
  import opened Bytes
  import opened FabricTypes
  import opened Layouts
  import opened WireCodec

  const U32: Layout := Word(4)
  const U64: Layout := Word(8)
  type text = seq<byte>

  // ---- typed records over layouts ----------------------------------------------

  /** The value of a boolean field. */
  function Bit(b: bool): Value { Num(if b then 1 else 0) }

  function Collect<T>(value: T -> Value, xs: seq<T>): (vs: seq<Value>)
    ensures |vs| == |xs| && forall i :: 0 <= i < |xs| ==> vs[i] == value(xs[i])
  {
    seq(|xs|, i requires 0 <= i < |xs| => value(xs[i]))
  }

  /** Every element as a record, or None if one is not. */
  function Convert<T>(of: Value -> Option<T>, vs: seq<Value>): (r: Option<seq<T>>)
    ensures r.Some? ==> |r.value| == |vs| && forall i :: 0 <= i < |vs| ==> of(vs[i]) == Some(r.value[i])
    ensures r.None? ==> exists i :: 0 <= i < |vs| && of(vs[i]).None?
  {
    if forall i :: 0 <= i < |vs| ==> of(vs[i]).Some?
    then Some(seq(|vs|, i requires 0 <= i < |vs| => of(vs[i]).value)) else None
  }

  lemma ConvertCollect<T(!new)>(value: T -> Value, of: Value -> Option<T>, xs: seq<T>)
    requires forall x: T :: of(value(x)) == Some(x)
    ensures Convert(of, Collect(value, xs)) == Some(xs)
  {
    var vs := Collect(value, xs);
    assert forall i :: 0 <= i < |xs| ==> of(vs[i]) == Some(xs[i]);
    assert Convert(of, vs).value == xs;
  }

  /** Decode a record from the front of a byte string. */
  function Parse<T>(l: Layout, of: Value -> Option<T>, data: seq<byte>): Option<(T, nat)>
  {
    match Get(l, data, 0)
    case None => None
    case Some(x) => match of(x.0) case None => None case Some(t) => Some((t, x.1))
  }

  /** The decoders: read the layout through the sticky reader, then fill the record. */
  method ParseRecord<T>(l: Layout, of: Value -> Option<T>, data: seq<byte>) returns (r: Option<(T, nat)>)
    ensures r == Parse(l, of, data)
  {
    var reader := new WireReader(data);
    var v, valid := Decode(reader, l);
    if !valid || !reader.ok { return None; }
    match of(v)
    case None => return None;
    case Some(t) => return Some((t, reader.pos));
  }

  /** Written and read back with anything behind it, and refused when cut short. */
  ghost predicate Lossless<T(!new)>(l: Layout, v: Value, of: Value -> Option<T>, x: T)
    requires Shaped(l, v)
  {
    && (forall suffix :: Parse(l, of, Put(l, v) + suffix) == Some((x, |Put(l, v)|)))
    && (forall n :: 0 <= n < |Put(l, v)| ==> Parse(l, of, Put(l, v)[..n]).None?)
  }

  ghost predicate Refused<T(!new)>(l: Layout, v: Value, of: Value -> Option<T>)
    requires Shaped(l, v)
  {
    forall suffix :: Parse(l, of, Put(l, v) + suffix).None?
  }

  /** A record whose strings fit is lossless if it is readable and refused if it is not. */
  lemma LosslessOrRefused<T(!new)>(l: Layout, v: Value, of: Value -> Option<T>, x: T)
    requires Shaped(l, v) && TextsFit(l, v) && of(v) == Some(x)
    ensures if Readable(l, v) then Lossless(l, v, of, x) else Refused(l, v, of)
  {
    forall suffix
      ensures Parse(l, of, Put(l, v) + suffix) == if Readable(l, v) then Some((x, |Put(l, v)|)) else None
    {
      SelfDelimiting(l, v, suffix);
    }
    if Readable(l, v) {
      forall n | 0 <= n < |Put(l, v)| ensures Parse(l, of, Put(l, v)[..n]).None? { StrictPrefixRejected(l, v, n); }
    }
  }

  // ---- evidence ----------------------------------------------------------------

  datatype WireEvidence = WireEvidence(id: u64, generation: u64, source: u32, state: u32, timestamp: u64, maxAge: u64,
                                       confidence: u64, provenance: text, owner: text, durable: bool)

  const STAMP_LAYOUT: Layout := Then(U64, Then(U64, Then(Enum(5), Enum(4))))
  const ORIGIN_LAYOUT: Layout := Then(U64, Then(U64, Then(U64, Then(Str, Then(Str, Flag)))))
  const EVIDENCE_LAYOUT: Layout := Then(STAMP_LAYOUT, ORIGIN_LAYOUT)

  function StampValue(e: WireEvidence): Value
  {
    Pair(Num(e.id), Pair(Num(e.generation), Pair(Num(e.source), Num(e.state))))
  }

  function OriginValue(e: WireEvidence): Value
  {
    Pair(Num(e.timestamp),
      Pair(Num(e.maxAge), Pair(Num(e.confidence), Pair(Text(e.provenance), Pair(Text(e.owner), Bit(e.durable))))))
  }

  function EvidenceValue(e: WireEvidence): Value { Pair(StampValue(e), OriginValue(e)) }

  function EvidenceOf(v: Value): Option<WireEvidence>
  {
    match v
    case Pair(Pair(Num(a), Pair(Num(b), Pair(Num(c), Num(d)))),
      Pair(Num(e), Pair(Num(f), Pair(Num(g), Pair(Text(h), Pair(Text(i), Num(j))))))) =>
      if a < TWO_64 && b < TWO_64 && c < TWO_32 && d < TWO_32 && e < TWO_64 && f < TWO_64 && g < TWO_64
      then Some(WireEvidence(a, b, c, d, e, f, g, h, i, j != 0)) else None
    case _ => None
  }

  predicate EvidenceFits(e: WireEvidence) { |e.provenance| <= MAX_LEN && |e.owner| <= MAX_LEN }
  predicate EvidenceInTables(e: WireEvidence) { 1 <= e.source <= 5 && 1 <= e.state <= 4 }

  lemma EvidenceReturns(e: WireEvidence)
    ensures EvidenceOf(EvidenceValue(e)) == Some(e)
  {
  }

  lemma StampFacts(e: WireEvidence)
    ensures Shaped(STAMP_LAYOUT, StampValue(e)) && TextsFit(STAMP_LAYOUT, StampValue(e))
    ensures Readable(STAMP_LAYOUT, StampValue(e)) <==> EvidenceInTables(e)
  {
    Pow256Words();
  }

  lemma OriginFacts(e: WireEvidence)
    ensures Shaped(ORIGIN_LAYOUT, OriginValue(e))
    ensures TextsFit(ORIGIN_LAYOUT, OriginValue(e)) <==> EvidenceFits(e)
    ensures Readable(ORIGIN_LAYOUT, OriginValue(e)) <==> EvidenceFits(e)
  {
    Pow256Words();
  }

  lemma EvidenceFacts(e: WireEvidence)
    ensures Shaped(EVIDENCE_LAYOUT, EvidenceValue(e))
    ensures TextsFit(EVIDENCE_LAYOUT, EvidenceValue(e)) <==> EvidenceFits(e)
    ensures Readable(EVIDENCE_LAYOUT, EvidenceValue(e)) <==> EvidenceFits(e) && EvidenceInTables(e)
  {
    StampFacts(e);
    OriginFacts(e);
  }

  /** Evidence is read back whole exactly when its source and state are in their tables. */
  lemma EvidenceRoundTrip(e: WireEvidence)
    requires EvidenceFits(e)
    ensures Shaped(EVIDENCE_LAYOUT, EvidenceValue(e))
    ensures if EvidenceInTables(e) then Lossless(EVIDENCE_LAYOUT, EvidenceValue(e), EvidenceOf, e)
            else Refused(EVIDENCE_LAYOUT, EvidenceValue(e), EvidenceOf)
  {
    EvidenceFacts(e);
    EvidenceReturns(e);
    LosslessOrRefused(EVIDENCE_LAYOUT, EvidenceValue(e), EvidenceOf, e);
  }

  // ---- paths -------------------------------------------------------------------

  datatype WireRequirement = WireRequirement(from: u64, to: u64, minBandwidth: u64, maxLatency: u64, required: bool,
                                             direct: bool, protocol: text)

  datatype WireMeasure = WireMeasure(available: bool, bandwidth: u64, latency: u64, verified: bool, provider: text,
                                     source: text)

  datatype WirePath = WirePath(id: u64, generation: u64, requirement: WireRequirement, measure: WireMeasure,
                               evidence: WireEvidence)

  const REQUIREMENT_LAYOUT: Layout := Then(U64, Then(U64, Then(U64, Then(U64, Then(Flag, Then(Flag, Str))))))
  const MEASURE_LAYOUT: Layout := Then(Flag, Then(U64, Then(U64, Then(Flag, Then(Str, Str)))))
  const CLAIM_LAYOUT: Layout := Then(U64, Then(U64, REQUIREMENT_LAYOUT))
  const PROOF_LAYOUT: Layout := Then(MEASURE_LAYOUT, EVIDENCE_LAYOUT)
  const PATH_LAYOUT: Layout := Then(CLAIM_LAYOUT, PROOF_LAYOUT)

  function RequirementValue(q: WireRequirement): Value
  {
    Pair(Num(q.from), Pair(Num(q.to),
      Pair(Num(q.minBandwidth), Pair(Num(q.maxLatency), Pair(Bit(q.required), Pair(Bit(q.direct), Text(q.protocol)))))))
  }

  function RequirementOf(v: Value): Option<WireRequirement>
  {
    match v
    case Pair(Num(a), Pair(Num(b), Pair(Num(c), Pair(Num(d), Pair(Num(e), Pair(Num(f), Text(g))))))) =>
      if a < TWO_64 && b < TWO_64 && c < TWO_64 && d < TWO_64
        then Some(WireRequirement(a, b, c, d, e != 0, f != 0, g)) else None
    case _ => None
  }

  function MeasureValue(m: WireMeasure): Value
  {
    Pair(Bit(m.available),
      Pair(Num(m.bandwidth), Pair(Num(m.latency), Pair(Bit(m.verified), Pair(Text(m.provider), Text(m.source))))))
  }

  function MeasureOf(v: Value): Option<WireMeasure>
  {
    match v
    case Pair(Num(a), Pair(Num(b), Pair(Num(c), Pair(Num(d), Pair(Text(e), Text(f)))))) =>
      if b < TWO_64 && c < TWO_64 then Some(WireMeasure(a != 0, b, c, d != 0, e, f)) else None
    case _ => None
  }

  function ClaimValue(p: WirePath): Value { Pair(Num(p.id), Pair(Num(p.generation), RequirementValue(p.requirement))) }

  function ProofValue(p: WirePath): Value { Pair(MeasureValue(p.measure), EvidenceValue(p.evidence)) }

  function PathValue(p: WirePath): Value { Pair(ClaimValue(p), ProofValue(p)) }

  function PathOf(v: Value): Option<WirePath>
  {
    match v
    case Pair(Pair(Num(a), Pair(Num(b), q)), Pair(m, e)) =>
      var q', m', e' := RequirementOf(q), MeasureOf(m), EvidenceOf(e);
      if a < TWO_64 && b < TWO_64 && q'.Some? && m'.Some? && e'.Some?
        then Some(WirePath(a, b, q'.value, m'.value, e'.value)) else None
    case _ => None
  }

  predicate RequirementFits(q: WireRequirement) { |q.protocol| <= MAX_LEN }
  predicate MeasureFits(m: WireMeasure) { |m.provider| <= MAX_LEN && |m.source| <= MAX_LEN }
  predicate PathFits(p: WirePath)
  {
    RequirementFits(p.requirement) && MeasureFits(p.measure) && EvidenceFits(p.evidence)
  }

  lemma RequirementFacts(q: WireRequirement)
    ensures Shaped(REQUIREMENT_LAYOUT, RequirementValue(q)) && RequirementOf(RequirementValue(q)) == Some(q)
    ensures TextsFit(REQUIREMENT_LAYOUT, RequirementValue(q)) <==> RequirementFits(q)
    ensures Readable(REQUIREMENT_LAYOUT, RequirementValue(q)) <==> RequirementFits(q)
  {
    Pow256Words();
  }

  lemma MeasureFacts(m: WireMeasure)
    ensures Shaped(MEASURE_LAYOUT, MeasureValue(m)) && MeasureOf(MeasureValue(m)) == Some(m)
    ensures TextsFit(MEASURE_LAYOUT, MeasureValue(m)) <==> MeasureFits(m)
    ensures Readable(MEASURE_LAYOUT, MeasureValue(m)) <==> MeasureFits(m)
  {
    Pow256Words();
  }

  lemma PathReturns(p: WirePath)
    ensures PathOf(PathValue(p)) == Some(p)
  {
    EvidenceReturns(p.evidence);
  }

  lemma ClaimFacts(p: WirePath)
    ensures Shaped(CLAIM_LAYOUT, ClaimValue(p))
    ensures TextsFit(CLAIM_LAYOUT, ClaimValue(p)) <==> RequirementFits(p.requirement)
    ensures Readable(CLAIM_LAYOUT, ClaimValue(p)) <==> RequirementFits(p.requirement)
  {
    Pow256Words();
    RequirementFacts(p.requirement);
  }

  lemma ProofFacts(p: WirePath)
    ensures Shaped(PROOF_LAYOUT, ProofValue(p))
    ensures TextsFit(PROOF_LAYOUT, ProofValue(p)) <==> MeasureFits(p.measure) && EvidenceFits(p.evidence)
    ensures Readable(PROOF_LAYOUT, ProofValue(p)) <==>
        MeasureFits(p.measure) && EvidenceFits(p.evidence) && EvidenceInTables(p.evidence)
  {
    MeasureFacts(p.measure);
    EvidenceFacts(p.evidence);
  }

  lemma PathFacts(p: WirePath)
    ensures Shaped(PATH_LAYOUT, PathValue(p))
    ensures TextsFit(PATH_LAYOUT, PathValue(p)) <==> PathFits(p)
    ensures Readable(PATH_LAYOUT, PathValue(p)) <==> PathFits(p) && EvidenceInTables(p.evidence)
  {
    ClaimFacts(p);
    ProofFacts(p);
  }

  /** A path is read back whole exactly when its evidence is. */
  lemma PathRoundTrip(p: WirePath)
    requires PathFits(p)
    ensures Shaped(PATH_LAYOUT, PathValue(p))
    ensures if EvidenceInTables(p.evidence) then Lossless(PATH_LAYOUT, PathValue(p), PathOf, p)
            else Refused(PATH_LAYOUT, PathValue(p), PathOf)
  {
    PathFacts(p);
    PathReturns(p);
    LosslessOrRefused(PATH_LAYOUT, PathValue(p), PathOf, p);
  }

  // ---- graphs ------------------------------------------------------------------

  datatype WireEdge = WireEdge(from: u64, to: u64, kind: u32, required: bool, minBandwidth: u64, maxLatency: u64,
                               protocol: text, facet: text)

  datatype WireGraph = WireGraph(vertices: seq<u64>, edges: seq<WireEdge>)

  const EDGE_LAYOUT: Layout := Then(U64, Then(U64, Then(Enum(8), Then(Flag, Then(U64, Then(U64, Then(Str, Str)))))))
  const GRAPH_LAYOUT: Layout := Then(List(U64), List(EDGE_LAYOUT))

  function WordValue(x: u64): Value { Num(x) }

  function WordOf(v: Value): Option<u64> { if v.Num? && v.n < TWO_64 then Some(v.n) else None }

  function EdgeValue(e: WireEdge): Value
  {
    Pair(Num(e.from), Pair(Num(e.to),
      Pair(Num(e.kind), Pair(Bit(e.required), Pair(Num(e.minBandwidth), Pair(Num(e.maxLatency),
    Pair(Text(e.protocol), Text(e.facet))))))))
  }

  function EdgeOf(v: Value): Option<WireEdge>
  {
    match v
    case Pair(Num(a), Pair(Num(b), Pair(Num(c), Pair(Num(d), Pair(Num(e), Pair(Num(f), Pair(Text(g), Text(h)))))))) =>
      if a < TWO_64 && b < TWO_64 && c < TWO_32 && e < TWO_64 && f < TWO_64
        then Some(WireEdge(a, b, c, d != 0, e, f, g, h)) else None
    case _ => None
  }

  function WordsValue(xs: seq<u64>): Value { Items(Collect(WordValue, xs)) }

  function WordsOf(v: Value): Option<seq<u64>> { if v.Items? then Convert(WordOf, v.vs) else None }

  function GraphValue(g: WireGraph): Value { Pair(WordsValue(g.vertices), Items(Collect(EdgeValue, g.edges))) }

  function GraphOf(v: Value): Option<WireGraph>
  {
    match v
    case Pair(a, Items(b)) =>
      var vs, es := WordsOf(a), Convert(EdgeOf, b);
      if vs.Some? && es.Some? then Some(WireGraph(vs.value, es.value)) else None
    case _ => None
  }

  predicate EdgeFits(e: WireEdge) { |e.protocol| <= MAX_LEN && |e.facet| <= MAX_LEN }

  lemma EdgeFacts(e: WireEdge)
    ensures Shaped(EDGE_LAYOUT, EdgeValue(e)) && EdgeOf(EdgeValue(e)) == Some(e)
    ensures TextsFit(EDGE_LAYOUT, EdgeValue(e)) <==> EdgeFits(e)
    ensures Readable(EDGE_LAYOUT, EdgeValue(e)) <==> EdgeFits(e) && 1 <= e.kind <= 8
  {
    Pow256Words();
  }

  lemma WordsFacts(xs: seq<u64>)
    requires |xs| < TWO_32
    ensures Shaped(List(U64), WordsValue(xs)) && WordsOf(WordsValue(xs)) == Some(xs)
    ensures TextsFit(List(U64), WordsValue(xs))
    ensures Readable(List(U64), WordsValue(xs)) <==> |xs| <= MAX_COUNT
  {
    Pow256Words();
    ConvertCollect(WordValue, WordOf, xs);
  }

  lemma EdgesFacts(es: seq<WireEdge>)
    requires |es| < TWO_32
    ensures Shaped(List(EDGE_LAYOUT), Items(Collect(EdgeValue, es))) &&
        Convert(EdgeOf, Collect(EdgeValue, es)) == Some(es)
    ensures TextsFit(List(EDGE_LAYOUT), Items(Collect(EdgeValue, es))) <==> forall e :: e in es ==> EdgeFits(e)
    ensures Readable(List(EDGE_LAYOUT), Items(Collect(EdgeValue, es))) <==>
              |es| <= MAX_COUNT && forall e :: e in es ==> EdgeFits(e) && 1 <= e.kind <= 8
  {
    forall e: WireEdge
      ensures Shaped(EDGE_LAYOUT, EdgeValue(e)) && EdgeOf(EdgeValue(e)) == Some(e)
      ensures TextsFit(EDGE_LAYOUT, EdgeValue(e)) <==> EdgeFits(e)
      ensures Readable(EDGE_LAYOUT, EdgeValue(e)) <==> EdgeFits(e) && 1 <= e.kind <= 8
    {
      EdgeFacts(e);
    }
    ConvertCollect(EdgeValue, EdgeOf, es);
  }

  predicate GraphFits(g: WireGraph)
  {
    |g.vertices| < TWO_32 && |g.edges| < TWO_32 && forall e :: e in g.edges ==> EdgeFits(e)
  }

  predicate GraphInBounds(g: WireGraph)
  {
    |g.vertices| <= MAX_COUNT && |g.edges| <= MAX_COUNT && forall e :: e in g.edges ==> 1 <= e.kind <= 8
  }

  /** A graph is read back whole exactly when its lists are within the bound and its edge kinds in the table. */
  lemma GraphRoundTrip(g: WireGraph)
    requires GraphFits(g)
    ensures Shaped(GRAPH_LAYOUT, GraphValue(g))
    ensures if GraphInBounds(g) then Lossless(GRAPH_LAYOUT, GraphValue(g), GraphOf, g)
            else Refused(GRAPH_LAYOUT, GraphValue(g), GraphOf)
  {
    WordsFacts(g.vertices);
    EdgesFacts(g.edges);
    LosslessOrRefused(GRAPH_LAYOUT, GraphValue(g), GraphOf, g);
  }

  // ---- authority ---------------------------------------------------------------

  /** The generations a composition is bound to, in wire order. */
  datatype WireBound = WireBound(workerBoots: seq<u64>, nodes: seq<u64>, resources: seq<u64>, paths: seq<u64>,
                                 capabilities: seq<u64>, compatibility: seq<u64>)

  datatype WireAuthority = WireAuthority(epoch: u64, bound: WireBound, policy: u64, evidence: seq<u64>,
                                         reservations: seq<u64>, composition: u64)

  const WORDS: Layout := List(U64)
  const BOUND_LAYOUT: Layout := Then(WORDS, Then(WORDS, Then(WORDS, Then(WORDS, Then(WORDS, WORDS)))))
  const AUTHORITY_LAYOUT: Layout := Then(U64, Then(BOUND_LAYOUT, Then(U64, Then(WORDS, Then(WORDS, U64)))))

  function BoundValue(b: WireBound): Value
  {
    Pair(WordsValue(b.workerBoots), Pair(WordsValue(b.nodes), Pair(WordsValue(b.resources), Pair(WordsValue(b.paths),
    Pair(WordsValue(b.capabilities), WordsValue(b.compatibility))))))
  }

  function BoundOf(v: Value): Option<WireBound>
  {
    match v
    case Pair(w, Pair(n, Pair(r, Pair(p, Pair(c, m))))) =>
      var w', n', r', p', c', m' := WordsOf(w), WordsOf(n), WordsOf(r), WordsOf(p), WordsOf(c), WordsOf(m);
      if w'.Some? && n'.Some? && r'.Some? && p'.Some? && c'.Some? && m'.Some?
      then Some(WireBound(w'.value, n'.value, r'.value, p'.value, c'.value, m'.value)) else None
    case _ => None
  }

  function AuthorityValue(a: WireAuthority): Value
  {
    Pair(Num(a.epoch), Pair(BoundValue(a.bound),
      Pair(Num(a.policy), Pair(WordsValue(a.evidence), Pair(WordsValue(a.reservations), Num(a.composition))))))
  }

  function AuthorityOf(v: Value): Option<WireAuthority>
  {
    match v
    case Pair(Num(e), Pair(b, Pair(Num(g), Pair(x, Pair(y, Num(z)))))) =>
      var b', x', y' := BoundOf(b), WordsOf(x), WordsOf(y);
      if e < TWO_64 && g < TWO_64 && z < TWO_64 && b'.Some? && x'.Some? && y'.Some?
      then Some(WireAuthority(e, b'.value, g, x'.value, y'.value, z)) else None
    case _ => None
  }

  predicate BoundWithin(b: WireBound, n: nat)
  {
    |b.workerBoots| <= n && |b.nodes| <= n && |b.resources| <= n && |b.paths| <= n && |b.capabilities| <= n &&
      |b.compatibility| <= n
  }

  /** Every list of the tuple has at most n entries. */
  predicate AuthorityWithin(a: WireAuthority, n: nat)
  {
    BoundWithin(a.bound, n) && |a.evidence| <= n && |a.reservations| <= n
  }

  ghost predicate WordsKnown(v: Value, xs: seq<u64>)
  {
    Shaped(WORDS, v) && TextsFit(WORDS, v) && WordsOf(v) == Some(xs) && (Readable(WORDS, v) <==> |xs| <= MAX_COUNT)
  }

  lemma WordsAreKnown(xs: seq<u64>)
    requires |xs| < TWO_32
    ensures WordsKnown(WordsValue(xs), xs)
  {
    WordsFacts(xs);
  }

  lemma BoundFacts(b: WireBound)
    requires BoundWithin(b, TWO_32 - 1)
    ensures Shaped(BOUND_LAYOUT, BoundValue(b)) && TextsFit(BOUND_LAYOUT, BoundValue(b))
    ensures BoundOf(BoundValue(b)) == Some(b)
    ensures Readable(BOUND_LAYOUT, BoundValue(b)) <==> BoundWithin(b, MAX_COUNT)
  {
    WordsAreKnown(b.workerBoots); WordsAreKnown(b.nodes); WordsAreKnown(b.resources);
    WordsAreKnown(b.paths); WordsAreKnown(b.capabilities); WordsAreKnown(b.compatibility);
  }

  lemma AuthorityReturns(a: WireAuthority)
    requires AuthorityWithin(a, TWO_32 - 1)
    ensures AuthorityOf(AuthorityValue(a)) == Some(a)
  {
    BoundFacts(a.bound);
    WordsAreKnown(a.evidence); WordsAreKnown(a.reservations);
  }

  lemma AuthorityFacts(a: WireAuthority)
    requires AuthorityWithin(a, TWO_32 - 1)
    ensures Shaped(AUTHORITY_LAYOUT, AuthorityValue(a)) && TextsFit(AUTHORITY_LAYOUT, AuthorityValue(a))
    ensures Readable(AUTHORITY_LAYOUT, AuthorityValue(a)) <==> AuthorityWithin(a, MAX_COUNT)
  {
    Pow256Words();
    BoundFacts(a.bound);
    WordsAreKnown(a.evidence); WordsAreKnown(a.reservations);
  }

  /** An authority tuple is read back whole exactly when every list is within the bound. */
  lemma AuthorityRoundTrip(a: WireAuthority)
    requires AuthorityWithin(a, TWO_32 - 1)
    ensures Shaped(AUTHORITY_LAYOUT, AuthorityValue(a))
    ensures if AuthorityWithin(a, MAX_COUNT) then Lossless(AUTHORITY_LAYOUT, AuthorityValue(a), AuthorityOf, a)
            else Refused(AUTHORITY_LAYOUT, AuthorityValue(a), AuthorityOf)
  {
    AuthorityFacts(a);
    AuthorityReturns(a);
    LosslessOrRefused(AUTHORITY_LAYOUT, AuthorityValue(a), AuthorityOf, a);
  }

  // ---- reservations ------------------------------------------------------------

  datatype WireItem = WireItem(resource: u64, state: u32, amount: u64)

  datatype WireReservation = WireReservation(id: u64, generation: u64, composition: u64, items: seq<WireItem>,
                                             state: u32)

  const ITEM_LAYOUT: Layout := Then(U64, Then(Enum(4), U64))
  const RESERVATION_LAYOUT: Layout := Then(U64, Then(U64, Then(U64, Then(List(ITEM_LAYOUT), Enum(4)))))

  function ItemValue(i: WireItem): Value { Pair(Num(i.resource), Pair(Num(i.state), Num(i.amount))) }

  function ItemOf(v: Value): Option<WireItem>
  {
    match v
    case Pair(Num(a), Pair(Num(b), Num(c))) => if a < TWO_64 && b < TWO_32 && c < TWO_64
      then Some(WireItem(a, b, c)) else None
    case _ => None
  }

  function ReservationValue(r: WireReservation): Value
  {
    Pair(Num(r.id), Pair(Num(r.generation),
      Pair(Num(r.composition), Pair(Items(Collect(ItemValue, r.items)), Num(r.state)))))
  }

  function ReservationOf(v: Value): Option<WireReservation>
  {
    match v
    case Pair(Num(a), Pair(Num(b), Pair(Num(c), Pair(Items(d), Num(e))))) =>
      var items := Convert(ItemOf, d);
      if a < TWO_64 && b < TWO_64 && c < TWO_64 && e < TWO_32 && items.Some?
        then Some(WireReservation(a, b, c, items.value, e)) else None
    case _ => None
  }

  lemma ItemsFacts(items: seq<WireItem>)
    requires |items| < TWO_32
    ensures Shaped(List(ITEM_LAYOUT), Items(Collect(ItemValue, items))) &&
        TextsFit(List(ITEM_LAYOUT), Items(Collect(ItemValue, items)))
    ensures Convert(ItemOf, Collect(ItemValue, items)) == Some(items)
    ensures Readable(List(ITEM_LAYOUT), Items(Collect(ItemValue, items))) <==>
              |items| <= MAX_COUNT && forall i :: i in items ==> 1 <= i.state <= 4
  {
    Pow256Words();
    ConvertCollect(ItemValue, ItemOf, items);
  }

  predicate ReservationInBounds(r: WireReservation)
  {
    1 <= r.state <= 4 && |r.items| <= MAX_COUNT && forall i :: i in r.items ==> 1 <= i.state <= 4
  }

  /** A reservation is read back whole exactly when its items are within the bound and all states in the table. */
  lemma ReservationRoundTrip(r: WireReservation)
    requires |r.items| < TWO_32
    ensures Shaped(RESERVATION_LAYOUT, ReservationValue(r))
    ensures if ReservationInBounds(r) then Lossless(RESERVATION_LAYOUT, ReservationValue(r), ReservationOf, r)
            else Refused(RESERVATION_LAYOUT, ReservationValue(r), ReservationOf)
  {
    Pow256Words();
    ItemsFacts(r.items);
    LosslessOrRefused(RESERVATION_LAYOUT, ReservationValue(r), ReservationOf, r);
  }
}
