/** When a stored state can be read back, field by field: what the engine's own tables must satisfy,
    and what the fields it never reads must satisfy besides. */
module FileTables {
  import opened Bytes
  import opened FabricTypes
  import opened Layouts
  import opened Records
  import opened FileRecords
  import opened FileStates
  import opened FileAbstraction
  import E = Engine

  // ---- what the engine knows ---------------------------------------------------

  predicate ResourceKnown(r: Resource)
  {
    && r.cls != UnknownClass && r.health != HealthUnknown
    && r.readiness != ReadinessUnknown && r.reachability != ReachabilityUnknown
    && |r.capabilities| <= MAX_COUNT
    && (forall i :: 0 <= i < |r.capabilities| ==> r.capabilities[i].kind != UnknownKind)
    && |r.compatibility| <= MAX_COUNT
  }

  predicate RequestKnown(q: Request) { |q.architectures| <= MAX_COUNT && UnknownClass !in q.mandatory }

  predicate AuthorityBounded(a: Authority)
  {
    && |a.resources| <= MAX_COUNT && |a.evidence| <= MAX_COUNT && |a.capabilities| <= MAX_COUNT
    && |a.compatibility| <= MAX_COUNT && |a.nodes| <= MAX_COUNT && |a.workerBoots| <= MAX_COUNT
  }

  predicate CompositionKnown(c: Composition)
  {
    && RequestKnown(c.request) && AuthorityBounded(c.authority)
    && |c.graph.vertices| <= MAX_COUNT && |c.graph.edges| <= MAX_COUNT && |c.paths| <= MAX_COUNT
  }

  /** No UNKNOWN in the engine's durable tables, and every list it holds within the bound. */
  predicate DurableKnown(d: E.Durable)
  {
    && |d.nodes| <= MAX_COUNT && |d.resources| <= MAX_COUNT && |d.comps| <= MAX_COUNT
    && (forall i :: 0 <= i < |d.resources| ==> ResourceKnown(d.resources[i]))
    && (forall i :: 0 <= i < |d.comps| ==> CompositionKnown(d.comps[i]))
  }

  // ---- what it never reads -----------------------------------------------------

  /** The state of a claim is always one of four, and so in its table. */
  predicate ClaimKnown(c: WireCapability) { 1 <= c.state <= 4 }

  /** Failure domain type, evidence source and state, claim states; extra quantities, locality and pins. */
  predicate ResourceRestKnown(r: WireResource)
  {
    && |r.capacity.extra| <= MAX_COUNT && LocalityWithin(r.locality, MAX_COUNT)
    && 1 <= r.domain.kind <= 9 && 1 <= r.evidence.source <= 5 && 1 <= r.evidence.state <= 4
    && Every(ClaimKnown, r.capabilities) && Every(CompatibilityInTables, r.compatibility)
  }

  /** The class lists as lists, and the optional classes. */
  predicate RequestRestKnown(q: WireRequest)
  {
    |q.mandatory| <= MAX_COUNT && |q.optional| <= MAX_COUNT && Every(ClassInTable, q.optional)
  }

  /** Nodes, request, edge kinds, lifecycle, outcome, path and reservation generations, path evidence. */
  predicate CompositionRestKnown(c: WireComposition)
  {
    && |c.nodes| <= MAX_COUNT && RequestRestKnown(c.request)
    && (forall e :: e in c.graph.edges ==> 1 <= e.kind <= 8)
    && |c.authority.bound.paths| <= MAX_COUNT && |c.authority.reservations| <= MAX_COUNT
    && 1 <= c.lifecycle <= 17 && 1 <= c.outcome <= 6 && Every(PathInTables, c.paths)
  }

  /** Everything in the stored records that the engine does not decide by: of a node, all but its id,
      generation and worker boot (backend, inventory, failure domain, locality, reachability, health
      and lifecycle); of resources and compositions, the fields above; the policies as a list. */
  predicate RestKnown(w: WireDurable)
  {
    && Every(NodeInTables, w.nodes) && Every(ResourceRestKnown, w.resources)
    && |w.policies| <= MAX_COUNT && Every(CompositionRestKnown, w.compositions)
  }

  // ---- together they decide ----------------------------------------------------

  lemma ClassCodeKnown(c: u32)
    ensures Entry(CLASSES, c) != UnknownClass <==> 1 <= c <= 12
  {
  }

  lemma KindCodeKnown(c: u32)
    ensures Entry(KINDS, c) != UnknownKind <==> 1 <= c <= 23
  {
  }

  lemma ClaimsInTablesIff(cs: seq<WireCapability>)
    ensures Every(CapabilityInTables, cs) <==>
              Every(ClaimKnown, cs) && forall i :: 0 <= i < |cs| ==> MapSeq(CapabilityIn, cs)[i].kind != UnknownKind
  {
    forall i | 0 <= i < |cs|
      ensures CapabilityInTables(cs[i]) <==> ClaimKnown(cs[i]) && MapSeq(CapabilityIn, cs)[i].kind != UnknownKind
    {
      KindCodeKnown(cs[i].kind);
    }
  }

  lemma ResourceInTablesIff(number: Doubles, r: WireResource)
    ensures ResourceInTables(r) <==> ResourceKnown(ResourceIn(number, r)) && ResourceRestKnown(r)
  {
    ClassCodeKnown(r.cls);
    ClaimsInTablesIff(r.capabilities);
  }

  lemma ClassesInTableIff(cs: seq<u32>)
    ensures Every(ClassInTable, cs) <==> UnknownClass !in (set c | c in cs :: Entry(CLASSES, c))
  {
    forall i | 0 <= i < |cs| ensures ClassInTable(cs[i]) <==> Entry(CLASSES, cs[i]) != UnknownClass {
      ClassCodeKnown(cs[i]);
    }
    if !Every(ClassInTable, cs) {
      var i :| 0 <= i < |cs| && !ClassInTable(cs[i]);
      assert cs[i] in cs;
    }
  }

  lemma RequestInTablesIff(number: Doubles, q: WireRequest)
    ensures RequestInTables(q) <==> RequestKnown(RequestIn(number, q)) && RequestRestKnown(q)
  {
    ClassesInTableIff(q.mandatory);
  }

  lemma CompositionInTablesIff(number: Doubles, c: WireComposition)
    ensures CompositionInTables(c) <==> CompositionKnown(CompositionIn(number, c)) && CompositionRestKnown(c)
  {
    RequestInTablesIff(number, c.request);
  }

  /** A stored state is within its tables and bounds if and only if the engine's tables are known and
      every field the engine never reads is. */
  lemma DurableInTablesIff(number: Doubles, w: WireDurable)
    ensures DurableInTables(w) <==> DurableKnown(DurableIn(number, w)) && RestKnown(w)
  {
    var d := DurableIn(number, w);
    forall i | 0 <= i < |w.resources|
      ensures ResourceInTables(w.resources[i]) <==> ResourceKnown(d.resources[i]) && ResourceRestKnown(w.resources[i])
    {
      ResourceInTablesIff(number, w.resources[i]);
    }
    forall i | 0 <= i < |w.compositions|
      ensures CompositionInTables(w.compositions[i]) <==>
              CompositionKnown(d.comps[i]) && CompositionRestKnown(w.compositions[i])
    {
      CompositionInTablesIff(number, w.compositions[i]);
    }
  }
}
