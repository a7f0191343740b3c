/** The amount of accelerator memory in a request: nothing reads it, so it is met for certain exactly when
    none was asked for. */
module AcceleratorMemory {
  import opened FabricTypes
  import opened Eligibility
  import opened PlanGraph
  import opened PlannerTheorems
  import opened RequestMeaning
  import T = RequestTheorems

  /** A listing of a set that fulfils the request, of members with non-negative capacities. */
  ghost predicate Suits(reg: Registry, req: Request, ids: seq<ResourceId>)
  {
    && NoDup(ids) && T.Known(reg.resources, ids) && Fulfils(reg, req, T.Ids(ids))
    && forall id :: id in ids ==> NonNegative(reg.resources[id].capacity)
  }

  /** The accelerator memory of the listed members, added up. */
  ghost function Memory(resources: map<ResourceId, Resource>, ids: seq<ResourceId>): real
    requires T.Known(resources, ids)
  {
    if ids == [] then 0.0
    else Memory(resources, ids[..|ids| - 1]) + resources[ids[|ids| - 1]].capacity.acceleratorMemory
  }

  ghost predicate AlwaysMet(req: Request)
  {
    forall reg, ids :: Suits(reg, req, ids) ==> Memory(reg.resources, ids) >= req.acceleratorMemory
  }

  // ---- taking the memory away ----------------------------------------------------

  function Stripped(r: Resource): Resource { r.(capacity := r.capacity.(acceleratorMemory := 0.0)) }

  function StrippedAll(reg: Registry): Registry
  {
    reg.(resources := map k | k in reg.resources :: Stripped(reg.resources[k]))
  }

  lemma StrippedIsEligible(r: Resource, req: Request)
    ensures Check(Stripped(r), req).Eligible? <==> Check(r, req).Eligible?
  {
    EligibleMeans(r, req);
    EligibleMeans(Stripped(r), req);
  }

  lemma StrippedLinks(reg: Registry, req: Request, a: Resource, b: Resource)
    ensures PairOk(StrippedAll(reg), req, Stripped(a), Stripped(b)) <==> PairOk(reg, req, a, b)
  {
  }

  ghost predicate SameSupply(rs: map<ResourceId, Resource>, rs': map<ResourceId, Resource>, cls: ResourceClass)
  {
    forall id :: id in rs ==> id in rs' && Supply(rs'[id], cls) == Supply(rs[id], cls)
  }

  lemma StrippedOne(rs: map<ResourceId, Resource>, rs': map<ResourceId, Resource>, part: set<ResourceId>,
                    cls: ResourceClass, amount: real)
    requires SameSupply(rs, rs', cls) && One(rs, part, cls, amount)
    ensures One(rs', part, cls, amount)
  {
  }

  lemma StrippedTwo(rs: map<ResourceId, Resource>, rs': map<ResourceId, Resource>, part: set<ResourceId>,
                    cls: ResourceClass, amount: real)
    requires SameSupply(rs, rs', cls) && Two(rs, part, cls, amount)
    ensures Two(rs', part, cls, amount)
  {
    var a, b :| a != b && part == {a, b} && a in rs && b in rs && Supply(rs[a], cls) + Supply(rs[b], cls) >= amount;
    assert Supply(rs'[a], cls) + Supply(rs'[b], cls) >= amount;
  }

  lemma StrippedServes(reg: Registry, req: Request, members: set<ResourceId>, cls: ResourceClass)
    requires Serves(reg.resources, req, members, cls)
    ensures Serves(StrippedAll(reg).resources, req, members, cls)
  {
    var rs, rs', amount := reg.resources, StrippedAll(reg).resources, Amount(req, cls);
    var part := Part(rs, members, cls);
    assert Part(rs', members, cls) == part;
    assert SameSupply(rs, rs', cls);
    if !Counted(cls) {
      if One(rs, part, cls, amount) {
        StrippedOne(rs, rs', part, cls, amount);
      } else {
        StrippedTwo(rs, rs', part, cls, amount);
      }
    }
  }

  lemma StrippedPlaced(reg: Registry, req: Request, members: set<ResourceId>)
    requires (forall id :: id in members ==> id in reg.resources) && Placed(reg.resources, req, members)
    ensures Placed(StrippedAll(reg).resources, req, members)
  {
    var rs, rs' := reg.resources, StrippedAll(reg).resources;
    forall name ensures InDomain(rs', members, name) == InDomain(rs, members, name) {
    }
    assert forall id :: id in members ==> rs'[id].node == rs[id].node && rs'[id].domain == rs[id].domain;
  }

  /** Without any accelerator memory the same members still fulfil the request. */
  lemma StrippedFulfils(reg: Registry, req: Request, members: set<ResourceId>)
    requires Fulfils(reg, req, members)
    ensures Fulfils(StrippedAll(reg), req, members)
  {
    var rs, rs' := reg.resources, StrippedAll(reg).resources;
    forall id | id in members ensures Check(rs'[id], req).Eligible? && rs'[id].cls == rs[id].cls {
      StrippedIsEligible(rs[id], req);
    }
    forall cls | AskedFor(req, cls) ensures Serves(rs', req, members, cls) { StrippedServes(reg, req, members, cls); }
    forall a, b | a in members && b in members && a != b ensures PairOk(StrippedAll(reg), req, rs'[a], rs'[b]) {
      StrippedLinks(reg, req, rs[a], rs[b]);
    }
    StrippedPlaced(reg, req, members);
  }

  lemma StrippedSuits(reg: Registry, req: Request, ids: seq<ResourceId>)
    requires Suits(reg, req, ids)
    ensures Suits(StrippedAll(reg), req, ids)
  {
    StrippedFulfils(reg, req, T.Ids(ids));
  }

  lemma {:induction false} StrippedMemory(reg: Registry, ids: seq<ResourceId>)
    requires T.Known(reg.resources, ids)
    ensures T.Known(StrippedAll(reg).resources, ids) && Memory(StrippedAll(reg).resources, ids) == 0.0
  {
    if ids != [] {
      assert ids[|ids| - 1] in ids;
      StrippedMemory(reg, ids[..|ids| - 1]);
    }
  }

  lemma {:induction false} MemoryNonNegative(resources: map<ResourceId, Resource>, ids: seq<ResourceId>)
    requires T.Known(resources, ids) && forall id :: id in ids ==> NonNegative(resources[id].capacity)
    ensures Memory(resources, ids) >= 0.0
  {
    if ids != [] {
      assert ids[|ids| - 1] in ids;
      MemoryNonNegative(resources, ids[..|ids| - 1]);
    }
  }

  /** For a request that can be fulfilled at all: its accelerator memory is met by everything that fulfils it
      if and only if it asks for none. */
  lemma MemoryMetIff(req: Request, reg: Registry, ids: seq<ResourceId>)
    requires Suits(reg, req, ids)
    ensures AlwaysMet(req) <==> req.acceleratorMemory <= 0.0
  {
    if req.acceleratorMemory <= 0.0 {
      forall reg, ids | Suits(reg, req, ids) ensures Memory(reg.resources, ids) >= req.acceleratorMemory {
        MemoryNonNegative(reg.resources, ids);
      }
    } else {
      StrippedSuits(reg, req, ids);
      StrippedMemory(reg, ids);
    }
  }

  // ---- an input --------------------------------------------------------------------

  const EMPTY_HANDED: Resource :=
    Resource(1, 1, Accelerator, 1, [], [], Capacity(0.0, 0.0, 0.0, 0.0, 0.0, 0.0), Healthy, Ready, Reachable, "",
             Evidence(1, Fresh, 1000, "", "", false))

  const SIXTY_FOUR: Request :=
    Request(0, 1, [], 64.0, 0.0, 0.0, 0.0, 0, 0.0, 0.0, {}, false, false, NoTopology, 0, 1)

  /** One accelerator without any memory fulfils a request for one accelerator with 64 units of it. */
  lemma NoMemoryAccepted()
    ensures var reg := Registry(map[1 := EMPTY_HANDED], map[], map[]);
            Suits(reg, SIXTY_FOUR, [1]) && Memory(reg.resources, [1]) < SIXTY_FOUR.acceleratorMemory
  {
    var reg := Registry(map[1 := EMPTY_HANDED], map[], map[]);
    EligibleMeans(EMPTY_HANDED, SIXTY_FOUR);
    assert forall k :: k in ClassCapabilityKinds(Accelerator) ==> FindCapability(EMPTY_HANDED.capabilities, k).None?;
    assert T.Ids([1]) == {1};
    assert forall cls :: AskedFor(SIXTY_FOUR, cls) <==> cls == Accelerator;
    assert Part(reg.resources, {1}, Accelerator) == {1};
    assert [1][..0] == [];
  }
}
