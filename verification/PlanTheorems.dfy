/** What Compose promises of a plan it hands out. */
module PlanTheorems {
  import opened FabricTypes
  import opened Eligibility
  import opened Candidates
  import opened PlanGraph
  import opened Planner
  import opened PlannerTheorems
  import E = Engine

  /** Entry i of the bound generations is the registered generation of vertex i. */
  ghost predicate BindsVertices(resources: map<ResourceId, Resource>, plan: Plan)
  {
    && |plan.authority.resources| == |plan.graph.vertices|
    && forall i :: 0 <= i < |plan.graph.vertices| ==>
         plan.graph.vertices[i] in resources &&
           plan.authority.resources[i] == resources[plan.graph.vertices[i]].generation
  }

  lemma MembersAreVertices(s: E.State, req: Request, ids: seq<ResourceId>)
    requires WellKeyed(s.resources) && NoDup(ids) && forall id :: id in ids ==> id in s.resources
    ensures E.MakePlan(s, req, ids).graph.vertices == ids
    ensures BindsVertices(s.resources, E.MakePlan(s, req, ids))
  {
    var ms := Lookup(s.resources, ids);
    assert forall i :: 0 <= i < |ids| ==> ids[i] in ids && ms[i].id == ids[i];
    VerticesOfDistinct(ms);
    assert Vertices(ms) == ids;
  }

  /** The plan for a request in a state: numbered and bound to the moment it was made, with sound members. */
  ghost predicate SoundPlan(s: E.State, req: Request, plan: Plan)
  {
    && plan.request == req && plan.lifecycle == Planned && plan.id == plan.generation == s.nextComp
    && plan.authority.epoch == s.epoch && plan.authority.policy == req.policyGeneration
    && SoundMembers(E.RegistryOf(s), req, Mandatory(Demands(req)), plan.graph.vertices)
    && plan.graph == BuildGraph(req, Lookup(s.resources, plan.graph.vertices))
    && plan.rank == RankOf(E.RegistryOf(s), plan.graph.vertices)
    && BindsVertices(s.resources, plan)
  }

  /** Every plan Compose hands out is sound, and handing it out only moves the counter. */
  lemma PlanSoundness(s: E.State, order: seq<ResourceId>, req: Request)
    requires WellKeyed(s.resources) && Enumerates(order, s.resources) && E.Compose(s, order, req).1.Some?
    ensures SoundPlan(s, req, E.Compose(s, order, req).1.value)
    ensures E.Compose(s, order, req).0 == s.(nextComp := s.nextComp + 1)
  {
    ComposeSoundness(E.RegistryOf(s), order, req);
    MembersAreVertices(s, req, SelectMembers(E.RegistryOf(s), order, req).value);
  }

  /** Any two iteration orders of the resource table give the same plan. */
  lemma PlanIndependentOfOrder(s: E.State, order: seq<ResourceId>, order': seq<ResourceId>, req: Request)
    requires WellKeyed(s.resources) && Enumerates(order, s.resources) && Enumerates(order', s.resources)
    ensures E.Compose(s, order, req) == E.Compose(s, order', req)
  {
    ComposeIndependentOfOrder(E.RegistryOf(s), order, order', req);
  }

  /** The path on record between the nodes of an edge's two ends, if they differ. */
  ghost predicate Crosses(reg: Registry, e: Edge, pe: PathEvidence)
  {
    && e.from in reg.resources && e.to in reg.resources
    && var key := (reg.resources[e.from].node, reg.resources[e.to].node);
    key.0 != key.1 && key in reg.paths && reg.paths[key] == pe
  }

  /** A plan carries exactly the recorded paths its edges cross, so that a later update of one of
      them finds the composition. */
  lemma {:induction false} PlanPathsExact(reg: Registry, edges: seq<Edge>, pe: PathEvidence)
    ensures pe in E.PathsOf(reg, edges) <==> exists e :: e in edges && Crosses(reg, e, pe)
  {
    if edges != [] {
      var front, last := edges[..|edges| - 1], edges[|edges| - 1];
      PlanPathsExact(reg, front, pe);
      assert forall e :: e in edges <==> e in front || e == last;
      var mine := E.PathsOf(reg, edges)[|E.PathsOf(reg, front)|..];
      assert E.PathsOf(reg, edges) == E.PathsOf(reg, front) + mine;
      assert pe in mine <==> Crosses(reg, last, pe);
    }
  }

  /** The paths of a plan, at the moment it was composed. */
  lemma PlanPaths(s: E.State, order: seq<ResourceId>, req: Request, pe: PathEvidence)
    requires Enumerates(order, s.resources) && E.Compose(s, order, req).1.Some?
    ensures var plan := E.Compose(s, order, req).1.value;
            pe in plan.paths <==> exists e :: e in plan.graph.edges && Crosses(E.RegistryOf(s), e, pe)
  {
    PlanPathsExact(E.RegistryOf(s), E.Compose(s, order, req).1.value.graph.edges, pe);
  }

  // ---- the edges ---------------------------------------------------------------

  /** What a member of one class needs of a member of another. */
  function Needs(from: ResourceClass, to: ResourceClass): set<EdgeKind>
  {
    if from == Compute && to == Accelerator then {ReachabilityEdge, CompatibilityEdge}
    else if from == Accelerator && (to == HostMemory || to == ExpandedMemory)
      then {ReachabilityEdge, BandwidthBound, LatencyBound}
    else if from == Accelerator && (to == Nic || to == NetworkEndpoint) then {ReachabilityEdge, BandwidthBound}
    else if from == Compute && to == Storage then {ReachabilityEdge, BandwidthBound}
    else {}
  }

  /** The edge is what member `a` needs of member `b`, with the bounds of the request. */
  ghost predicate Relates(req: Request, e: Edge, a: Resource, b: Resource)
  {
    && e.from == a.id && e.to == b.id && a.id != b.id && e.kind in Needs(a.cls, b.cls)
    && e.minBandwidth == req.minBandwidth && e.maxLatency == req.maxLatency
  }

  lemma BundleExact(req: Request, rule: Rule, a: Resource, b: Resource, e: Edge)
    ensures e in Bundle(req, a, b, rule.kinds) <==>
              && e.from == a.id && e.to == b.id && e.kind in rule.kinds
              && e.minBandwidth == req.minBandwidth && e.maxLatency == req.maxLatency
  {
    var es := Bundle(req, a, b, rule.kinds);
    if e in es { var i :| 0 <= i < |es| && es[i] == e; }
    if i :| 0 <= i < |rule.kinds| && rule.kinds[i] == e.kind { assert es[i].kind == e.kind; }
  }

  /** The rules say exactly what the classes need. */
  lemma RulesAreNeeds(a: Resource, b: Resource, k: EdgeKind)
    ensures a.id != b.id && k in Needs(a.cls, b.cls) <==>
              exists rule :: rule in Rules() && Applies(rule, a, b) && k in rule.kinds
  {
    var rs := Rules();
    assert forall rule :: rule in rs <==> rule == rs[0] || rule == rs[1] || rule == rs[2] || rule == rs[3];
    assert forall k :: k in rs[0].kinds <==> k in {ReachabilityEdge, CompatibilityEdge};
    assert forall k :: k in rs[1].kinds <==> k in {ReachabilityEdge, BandwidthBound, LatencyBound};
    assert forall k :: k in rs[2].kinds <==> k in {ReachabilityEdge, BandwidthBound};
    assert forall k :: k in rs[3].kinds <==> k in {ReachabilityEdge, BandwidthBound};
    if a.id != b.id && k in Needs(a.cls, b.cls) {
      assert (Applies(rs[0], a, b) && k in rs[0].kinds) || (Applies(rs[1], a, b) && k in rs[1].kinds) ||
             (Applies(rs[2], a, b) && k in rs[2].kinds) || (Applies(rs[3], a, b) && k in rs[3].kinds);
    }
  }

  lemma {:induction false} AllEdgesExact(req: Request, rules: seq<Rule>, ms: seq<Resource>, e: Edge)
    ensures e in AllEdges(req, rules, ms) <==>
              exists rule, a, b :: RuleGives(req, rule, rules, ms, a, b, e)
  {
    if rules != [] {
      RuleEdgesExact(req, rules[0], ms, ms, e);
      AllEdgesExact(req, rules[1..], ms, e);
      assert forall rule :: rule in rules <==> rule == rules[0] || rule in rules[1..];
      if e in RuleEdges(req, rules[0], ms, ms) {
        var a, b :| a in ms && b in ms && Applies(rules[0], a, b) && e in Bundle(req, a, b, rules[0].kinds);
        assert RuleGives(req, rules[0], rules, ms, a, b, e);
      }
      if rule, a, b :| RuleGives(req, rule, rules[1..], ms, a, b, e) {
        assert RuleGives(req, rule, rules, ms, a, b, e);
      }
      if rule, a, b :| RuleGives(req, rule, rules, ms, a, b, e) {
        assert rule == rules[0] || RuleGives(req, rule, rules[1..], ms, a, b, e);
      }
    }
  }

  ghost predicate RuleGives(req: Request, rule: Rule, rules: seq<Rule>, ms: seq<Resource>, a: Resource, b: Resource,
                            e: Edge)
  {
    rule in rules && a in ms && b in ms && Applies(rule, a, b) && e in Bundle(req, a, b, rule.kinds)
  }

  /** The edges of the graph are exactly what its members need of each other. */
  lemma EdgesAreNeeds(req: Request, ms: seq<Resource>, e: Edge)
    ensures e in BuildGraph(req, ms).edges <==> exists a, b :: a in ms && b in ms && Relates(req, e, a, b)
  {
    AllEdgesExact(req, Rules(), ms, e);
    if rule, a, b :| RuleGives(req, rule, Rules(), ms, a, b, e) {
      BundleExact(req, rule, a, b, e);
      RulesAreNeeds(a, b, e.kind);
      assert Relates(req, e, a, b);
    }
    if a, b :| a in ms && b in ms && Relates(req, e, a, b) {
      RulesAreNeeds(a, b, e.kind);
      var rule :| rule in Rules() && Applies(rule, a, b) && e.kind in rule.kinds;
      BundleExact(req, rule, a, b, e);
      assert RuleGives(req, rule, Rules(), ms, a, b, e);
    }
  }

  // ---- the authority -----------------------------------------------------------

  /** What each vertex contributes, one after the other. */
  ghost function Collected(vs: seq<ResourceId>, f: ResourceId -> seq<nat>): seq<nat>
  {
    if vs == [] then [] else Collected(vs[..|vs| - 1], f) + f(vs[|vs| - 1])
  }

  ghost function ClaimGens(s: E.State): ResourceId -> seq<nat>
  {
    (id: ResourceId) => if id !in s.resources then [] else
      var claims := s.resources[id].capabilities; seq(|claims|, i requires 0 <= i < |claims| => claims[i].generation)
  }

  ghost function PinGens(s: E.State): ResourceId -> seq<nat>
  {
    (id: ResourceId) => if id !in s.resources then [] else
      var pins := s.resources[id].compatibility; seq(|pins|, i requires 0 <= i < |pins| => pins[i].generation)
  }

  ghost function NodeGen(s: E.State): ResourceId -> seq<nat>
  {
    (id: ResourceId) => if id !in s.resources || s.resources[id].node !in s.nodes then [] else
      [s.nodes[s.resources[id].node].generation]
  }

  ghost function Boot(s: E.State): ResourceId -> seq<nat>
  {
    (id: ResourceId) => if id !in s.resources || s.resources[id].node !in s.nodes ||
                           s.nodes[s.resources[id].node].workerBoot == 0 then [] else
      [s.nodes[s.resources[id].node].workerBoot]
  }

  lemma LookupFront(resources: map<ResourceId, Resource>, vs: seq<ResourceId>)
    requires vs != [] && forall id :: id in vs ==> id in resources
    ensures vs[|vs| - 1] in resources && Lookup(resources, vs)[|vs| - 1] == resources[vs[|vs| - 1]]
    ensures Lookup(resources, vs)[..|vs| - 1] == Lookup(resources, vs[..|vs| - 1])
  {
    assert vs[|vs| - 1] in vs;
  }

  lemma {:induction false} ClaimsCollected(s: E.State, vs: seq<ResourceId>)
    requires forall id :: id in vs ==> id in s.resources
    ensures CapabilityGens(Lookup(s.resources, vs)) == Collected(vs, ClaimGens(s))
  {
    if vs != [] {
      ClaimsCollected(s, vs[..|vs| - 1]);
      LookupFront(s.resources, vs);
    }
  }

  lemma {:induction false} PinsCollected(s: E.State, vs: seq<ResourceId>)
    requires forall id :: id in vs ==> id in s.resources
    ensures CompatibilityGens(Lookup(s.resources, vs)) == Collected(vs, PinGens(s))
  {
    if vs != [] {
      PinsCollected(s, vs[..|vs| - 1]);
      LookupFront(s.resources, vs);
    }
  }

  lemma {:induction false} NodesCollected(s: E.State, vs: seq<ResourceId>)
    requires forall id :: id in vs ==> id in s.resources
    ensures NodeGens(Lookup(s.resources, vs), s.nodes) == Collected(vs, NodeGen(s))
  {
    if vs != [] {
      NodesCollected(s, vs[..|vs| - 1]);
      LookupFront(s.resources, vs);
    }
  }

  lemma {:induction false} BootsCollected(s: E.State, vs: seq<ResourceId>)
    requires forall id :: id in vs ==> id in s.resources
    ensures WorkerBoots(Lookup(s.resources, vs), s.nodes) == Collected(vs, Boot(s))
  {
    if vs != [] {
      BootsCollected(s, vs[..|vs| - 1]);
      LookupFront(s.resources, vs);
    }
  }

  /** The authority of a plan: the epoch, the policy generation and its own generation; position by position
      the generation of each vertex and of its evidence; and in vertex order the generations of all claims,
      compatibility pins and known nodes, and the boots of their workers. */
  ghost predicate Binds(s: E.State, req: Request, plan: Plan)
  {
    var a, vs := plan.authority, plan.graph.vertices;
    && a.epoch == s.epoch && a.policy == req.policyGeneration && a.composition == plan.generation
    && BindsVertices(s.resources, plan) && |a.evidence| == |vs|
    && (forall i :: 0 <= i < |vs| ==> a.evidence[i] == s.resources[vs[i]].evidence.generation)
    && a.capabilities == Collected(vs, ClaimGens(s)) && a.compatibility == Collected(vs, PinGens(s))
    && a.nodes == Collected(vs, NodeGen(s)) && a.workerBoots == Collected(vs, Boot(s))
  }

  lemma MembersBind(s: E.State, req: Request, ids: seq<ResourceId>)
    requires WellKeyed(s.resources) && NoDup(ids) && forall id :: id in ids ==> id in s.resources
    ensures Binds(s, req, E.MakePlan(s, req, ids))
  {
    MembersAreVertices(s, req, ids);
    ClaimsCollected(s, ids);
    PinsCollected(s, ids);
    NodesCollected(s, ids);
    BootsCollected(s, ids);
  }

  lemma PlanAuthority(s: E.State, order: seq<ResourceId>, req: Request)
    requires WellKeyed(s.resources) && Enumerates(order, s.resources) && E.Compose(s, order, req).1.Some?
    ensures Binds(s, req, E.Compose(s, order, req).1.value)
  {
    ComposeSoundness(E.RegistryOf(s), order, req);
    MembersBind(s, req, SelectMembers(E.RegistryOf(s), order, req).value);
  }

  /** Two members on one node are always linked, without latency and at 10^12 Mbit/s. */
  lemma LocalLinks(reg: Registry, req: Request, a: Resource, b: Resource)
    requires a.node == b.node
    ensures Linked(reg, a, b) && LatencyOk(reg, req, a, b)
    ensures BandwidthOk(reg, req, a, b) <==> req.minBandwidth <= 1000000000000.0
  {
  }
}
