/** The composition graph of a member list, its validation, the failure-domain check, the
    ranking and the authority tuple. */
module PlanGraph {
  import opened FabricTypes
  import opened Eligibility

  // ---- the graph ---------------------------------------------------------------

  /** Edges run from every member of class `from` to every member of a class in `to`. */
  datatype Rule = Rule(from: ResourceClass, to: set<ResourceClass>, kinds: seq<EdgeKind>)

  function Rules(): seq<Rule>
  {
    [ Rule(Compute, {Accelerator}, [ReachabilityEdge, CompatibilityEdge]),
      Rule(Accelerator, {HostMemory, ExpandedMemory}, [ReachabilityEdge, BandwidthBound, LatencyBound]),
      Rule(Accelerator, {Nic, NetworkEndpoint}, [ReachabilityEdge, BandwidthBound]),
      Rule(Compute, {Storage}, [ReachabilityEdge, BandwidthBound]) ]
  }

  predicate Applies(rule: Rule, a: Resource, b: Resource)
  {
    a.cls == rule.from && b.cls in rule.to && a.id != b.id
  }

  function Bundle(req: Request, a: Resource, b: Resource, kinds: seq<EdgeKind>): (es: seq<Edge>)
    ensures |es| == |kinds|
    ensures forall i :: 0 <= i < |kinds| ==> es[i] == Edge(a.id, b.id, kinds[i], req.minBandwidth, req.maxLatency)
  {
    seq(|kinds|, i requires 0 <= i < |kinds| => Edge(a.id, b.id, kinds[i], req.minBandwidth, req.maxLatency))
  }

  function RowEdges(req: Request, rule: Rule, a: Resource, ms: seq<Resource>): seq<Edge>
  {
    if ms == [] then [] else
      (if Applies(rule, a, ms[0]) then Bundle(req, a, ms[0], rule.kinds) else []) + RowEdges(req, rule, a, ms[1..])
  }

  function RuleEdges(req: Request, rule: Rule, froms: seq<Resource>, ms: seq<Resource>): seq<Edge>
  {
    if froms == [] then [] else RowEdges(req, rule, froms[0], ms) + RuleEdges(req, rule, froms[1..], ms)
  }

  function AllEdges(req: Request, rules: seq<Rule>, ms: seq<Resource>): seq<Edge>
  {
    if rules == [] then [] else RuleEdges(req, rules[0], ms, ms) + AllEdges(req, rules[1..], ms)
  }

  /** Vertices in member order, each id once. */
  function Vertices(ms: seq<Resource>): seq<ResourceId>
  {
    if ms == [] then [] else
      var front := Vertices(ms[..|ms| - 1]);
      var id := ms[|ms| - 1].id;
      if id in front then front else front + [id]
  }

  function BuildGraph(req: Request, ms: seq<Resource>): Graph
  {
    Graph(Vertices(ms), AllEdges(req, Rules(), ms))
  }

  // ---- validation --------------------------------------------------------------

  datatype EdgeVerdict = Ok | Bad(reason: Reason)

  const LOCAL_BANDWIDTH: real := 1000000000000.0

  /** One edge against the path table; a missing endpoint is offline. */
  function CheckEdge(reg: Registry, e: Edge): EdgeVerdict
  {
    if e.from !in reg.resources || e.to !in reg.resources then Bad(ResourceOffline) else
    var a, b := reg.resources[e.from], reg.resources[e.to];
    var local := a.node == b.node;
    var key := (a.node, b.node);
    if !local && (key !in reg.paths || !reg.paths[key].verified || !reg.paths[key].available) then Bad(PathUnavailable)
    else if !local && (reg.paths[key].evidence.state == Stale || !reg.paths[key].evidence.IsCurrent())
      then Bad(PathStale)
    else
      var bandwidth := if local then LOCAL_BANDWIDTH else reg.paths[key].bandwidth;
      var latency := if local then 0.0 else reg.paths[key].latency;
      if e.kind == BandwidthBound && e.minBandwidth > 0.0 && bandwidth < e.minBandwidth then Bad(BandwidthInsufficient)
      else if e.kind == LatencyBound && e.maxLatency > 0.0 && latency > e.maxLatency then Bad(LatencyLimitExceeded)
      else Ok
  }

  /** The first failing edge decides. */
  function ValidateEdges(reg: Registry, edges: seq<Edge>): EdgeVerdict
  {
    if edges == [] then Ok
    else if CheckEdge(reg, edges[0]) != Ok then CheckEdge(reg, edges[0])
    else ValidateEdges(reg, edges[1..])
  }

  // ---- what a valid graph means ------------------------------------------------

  /** Same node, or a verified, available and current path. */
  predicate Linked(reg: Registry, a: Resource, b: Resource)
  {
    a.node == b.node ||
    ((a.node, b.node) in reg.paths &&
     var p := reg.paths[(a.node, b.node)]; p.verified && p.available && p.evidence.IsCurrent())
  }

  predicate BandwidthOk(reg: Registry, req: Request, a: Resource, b: Resource)
    requires Linked(reg, a, b)
  {
    req.minBandwidth <= 0.0 ||
    (if a.node == b.node then LOCAL_BANDWIDTH else reg.paths[(a.node, b.node)].bandwidth) >= req.minBandwidth
  }

  predicate LatencyOk(reg: Registry, req: Request, a: Resource, b: Resource)
    requires Linked(reg, a, b)
  {
    req.maxLatency <= 0.0 || a.node == b.node || reg.paths[(a.node, b.node)].latency <= req.maxLatency
  }

  predicate IsMemory(cls: ResourceClass) { cls == HostMemory || cls == ExpandedMemory }
  predicate IsNetwork(cls: ResourceClass) { cls == Nic || cls == NetworkEndpoint }

  /** The relationships a member pair must satisfy. */
  predicate PairOk(reg: Registry, req: Request, a: Resource, b: Resource)
  {
    && (a.cls == Compute && b.cls == Accelerator ==> Linked(reg, a, b))
    && (a.cls == Accelerator && IsMemory(b.cls) ==>
         Linked(reg, a, b) && BandwidthOk(reg, req, a, b) && LatencyOk(reg, req, a, b))
    && (a.cls == Accelerator && IsNetwork(b.cls) ==> Linked(reg, a, b) && BandwidthOk(reg, req, a, b))
    && (a.cls == Compute && b.cls == Storage ==> Linked(reg, a, b) && BandwidthOk(reg, req, a, b))
  }

  ghost predicate PairwiseOk(reg: Registry, req: Request, ms: seq<Resource>)
  {
    forall a, b :: a in ms && b in ms && a.id != b.id ==> PairOk(reg, req, a, b)
  }

  lemma {:induction false} RowEdgesExact(req: Request, rule: Rule, a: Resource, ms: seq<Resource>, e: Edge)
    ensures e in RowEdges(req, rule, a, ms) <==>
              exists b :: b in ms && Applies(rule, a, b) && e in Bundle(req, a, b, rule.kinds)
  {
    if ms != [] {
      RowEdgesExact(req, rule, a, ms[1..], e);
      assert forall b :: b in ms <==> b == ms[0] || b in ms[1..];
    }
  }

  lemma {:induction false} RuleEdgesExact(req: Request, rule: Rule, froms: seq<Resource>, ms: seq<Resource>, e: Edge)
    ensures e in RuleEdges(req, rule, froms, ms) <==>
              exists a, b :: a in froms && b in ms && Applies(rule, a, b) && e in Bundle(req, a, b, rule.kinds)
  {
    if froms != [] {
      RowEdgesExact(req, rule, froms[0], ms, e);
      RuleEdgesExact(req, rule, froms[1..], ms, e);
      assert forall a :: a in froms <==> a == froms[0] || a in froms[1..];
    }
  }

  lemma {:induction false} ValidateEdgesAll(reg: Registry, edges: seq<Edge>)
    ensures ValidateEdges(reg, edges) == Ok <==> forall e :: e in edges ==> CheckEdge(reg, e) == Ok
  {
    if edges != [] {
      ValidateEdgesAll(reg, edges[1..]);
      assert forall e :: e in edges <==> e == edges[0] || e in edges[1..];
    }
  }

  lemma {:induction false} ValidateAppend(reg: Registry, a: seq<Edge>, b: seq<Edge>)
    ensures ValidateEdges(reg, a + b) == Ok <==> ValidateEdges(reg, a) == Ok && ValidateEdges(reg, b) == Ok
  {
    ValidateEdgesAll(reg, a); ValidateEdgesAll(reg, b); ValidateEdgesAll(reg, a + b);
  }

  ghost predicate BundleOk(reg: Registry, req: Request, rule: Rule, a: Resource, b: Resource)
  {
    forall k :: k in rule.kinds ==> CheckEdge(reg, Edge(a.id, b.id, k, req.minBandwidth, req.maxLatency)) == Ok
  }

  ghost predicate RuleOk(reg: Registry, req: Request, rule: Rule, ms: seq<Resource>)
  {
    forall a, b :: a in ms && b in ms && Applies(rule, a, b) ==> BundleOk(reg, req, rule, a, b)
  }

  lemma RuleValid(reg: Registry, req: Request, rule: Rule, ms: seq<Resource>)
    ensures ValidateEdges(reg, RuleEdges(req, rule, ms, ms)) == Ok <==> RuleOk(reg, req, rule, ms)
  {
    var es := RuleEdges(req, rule, ms, ms);
    ValidateEdgesAll(reg, es);
    if ValidateEdges(reg, es) == Ok {
      forall a, b | a in ms && b in ms && Applies(rule, a, b) ensures BundleOk(reg, req, rule, a, b) {
        forall k | k in rule.kinds ensures CheckEdge(reg, Edge(a.id, b.id, k, req.minBandwidth, req.maxLatency)) == Ok {
          var i :| 0 <= i < |rule.kinds| && rule.kinds[i] == k;
          var e := Bundle(req, a, b, rule.kinds)[i];
          RuleEdgesExact(req, rule, ms, ms, e);
        }
      }
    }
    if RuleOk(reg, req, rule, ms) {
      forall e | e in es ensures CheckEdge(reg, e) == Ok {
        RuleEdgesExact(req, rule, ms, ms, e);
        var a, b :| a in ms && b in ms && Applies(rule, a, b) && e in Bundle(req, a, b, rule.kinds);
        assert BundleOk(reg, req, rule, a, b);
      }
    }
  }

  lemma {:induction false} AllRulesValid(reg: Registry, req: Request, rules: seq<Rule>, ms: seq<Resource>)
    ensures ValidateEdges(reg, AllEdges(req, rules, ms)) == Ok <==> forall rule :: rule in rules ==>
        RuleOk(reg, req, rule, ms)
  {
    if rules != [] {
      RuleValid(reg, req, rules[0], ms);
      ValidateAppend(reg, RuleEdges(req, rules[0], ms, ms), AllEdges(req, rules[1..], ms));
      AllRulesValid(reg, req, rules[1..], ms);
      assert forall rule :: rule in rules <==> rule == rules[0] || rule in rules[1..];
    }
  }

  ghost predicate Registered(reg: Registry, ms: seq<Resource>)
  {
    forall r :: r in ms ==> r.id in reg.resources && reg.resources[r.id] == r
  }

  /** The four bundles of one pair say exactly what the pair must satisfy. */
  lemma RuleKinds()
    ensures var rs := Rules();
            && (forall rule :: rule in rs <==> rule == rs[0] || rule == rs[1] || rule == rs[2] || rule == rs[3])
            && (forall i :: 0 <= i < 4 ==> ReachabilityEdge in rs[i].kinds)
            && (forall i :: 0 <= i < 4 ==> (BandwidthBound in rs[i].kinds <==> i != 0))
            && (forall i :: 0 <= i < 4 ==> (LatencyBound in rs[i].kinds <==> i == 1))
  {
    var rs := Rules();
    assert ReachabilityEdge == rs[0].kinds[0] == rs[1].kinds[0] == rs[2].kinds[0] == rs[3].kinds[0];
    assert BandwidthBound == rs[1].kinds[1] == rs[2].kinds[1] == rs[3].kinds[1];
    assert LatencyBound == rs[1].kinds[2];
  }

  lemma RuleClasses(a: Resource, b: Resource)
    requires a.id != b.id
    ensures var rs := Rules();
            && (Applies(rs[0], a, b) <==> a.cls == Compute && b.cls == Accelerator)
            && (Applies(rs[1], a, b) <==> a.cls == Accelerator && IsMemory(b.cls))
            && (Applies(rs[2], a, b) <==> a.cls == Accelerator && IsNetwork(b.cls))
            && (Applies(rs[3], a, b) <==> a.cls == Compute && b.cls == Storage)
  {
  }

  lemma BundlesArePairOk(reg: Registry, req: Request, a: Resource, b: Resource)
    requires a.id in reg.resources && reg.resources[a.id] == a
    requires b.id in reg.resources && reg.resources[b.id] == b
    requires a.id != b.id
    ensures PairOk(reg, req, a, b) <==>
              forall rule :: rule in Rules() && Applies(rule, a, b) ==> BundleOk(reg, req, rule, a, b)
  {
    var rs := Rules();
    RuleKinds();
    RuleClasses(a, b);
    BundleMeaning(reg, req, rs[0], a, b);
    BundleMeaning(reg, req, rs[1], a, b);
    BundleMeaning(reg, req, rs[2], a, b);
    BundleMeaning(reg, req, rs[3], a, b);
  }

  lemma BundleMeaning(reg: Registry, req: Request, rule: Rule, a: Resource, b: Resource)
    requires a.id in reg.resources && reg.resources[a.id] == a
    requires b.id in reg.resources && reg.resources[b.id] == b
    requires ReachabilityEdge in rule.kinds
    ensures BundleOk(reg, req, rule, a, b) <==>
              && Linked(reg, a, b)
              && (BandwidthBound in rule.kinds ==> BandwidthOk(reg, req, a, b))
              && (LatencyBound in rule.kinds ==> LatencyOk(reg, req, a, b))
  {
    EdgeMeaning(reg, req, a, b);
  }

  lemma EdgeMeaning(reg: Registry, req: Request, a: Resource, b: Resource)
    requires a.id in reg.resources && reg.resources[a.id] == a
    requires b.id in reg.resources && reg.resources[b.id] == b
    ensures forall k ::
              var ok := CheckEdge(reg, Edge(a.id, b.id, k, req.minBandwidth, req.maxLatency)) == Ok;
              ok <==> && Linked(reg, a, b)
                      && (k == BandwidthBound ==> BandwidthOk(reg, req, a, b))
                      && (k == LatencyBound ==> LatencyOk(reg, req, a, b))
  {
  }

  /** The edge-list check is equivalent to the pairwise statement over the members. */
  lemma GraphCheckIsPairwise(reg: Registry, req: Request, ms: seq<Resource>)
    requires Registered(reg, ms)
    ensures ValidateEdges(reg, BuildGraph(req, ms).edges) == Ok <==> PairwiseOk(reg, req, ms)
  {
    AllRulesValid(reg, req, Rules(), ms);
    if PairwiseOk(reg, req, ms) {
      forall rule, a, b | rule in Rules() && a in ms && b in ms && Applies(rule, a, b)
        ensures BundleOk(reg, req, rule, a, b)
      {
        assert PairOk(reg, req, a, b);
        BundlesArePairOk(reg, req, a, b);
      }
    }
    if forall rule :: rule in Rules() ==> RuleOk(reg, req, rule, ms) {
      forall a, b | a in ms && b in ms && a.id != b.id ensures PairOk(reg, req, a, b) {
        BundlesArePairOk(reg, req, a, b);
      }
    }
  }

  lemma {:induction false} VerticesOfDistinct(ms: seq<Resource>)
    requires forall i, j :: 0 <= i < j < |ms| ==> ms[i].id != ms[j].id
    ensures |Vertices(ms)| == |ms| && forall i :: 0 <= i < |ms| ==> Vertices(ms)[i] == ms[i].id
  {
    if ms != [] {
      VerticesOfDistinct(ms[..|ms| - 1]);
      assert forall i :: 0 <= i < |ms| - 1 ==> ms[..|ms| - 1][i] == ms[i];
    }
  }

  // ---- failure domains ---------------------------------------------------------

  function NodesOf(ms: seq<Resource>): set<NodeId> { set r | r in ms :: r.node }

  function DomainsOf(ms: seq<Resource>): set<(NodeId, string)> { set r | r in ms :: (r.node, r.domain) }

  function CountDomain(ms: seq<Resource>, name: string): nat
  {
    if ms == [] then 0 else CountDomain(ms[1..], name) + if ms[0].domain == name then 1 else 0
  }

  /** The largest number of members in one named domain, over the first `n` members' domains. */
  function MaxCount(ms: seq<Resource>, n: nat): nat
    requires n <= |ms|
  {
    if n == 0 then 0 else
      var m, c := MaxCount(ms, n - 1), CountDomain(ms, ms[n - 1].domain);
      if c > m then c else m
  }

  /** The topology check, by the sizes of the key sets. */
  predicate TopologyHolds(ms: seq<Resource>, req: Request)
  {
    match req.topology
    case NoTopology => true
    case DistinctFailureDomains => |DomainsOf(ms)| >= 2
    case MaxSharedRisk => req.maxSharedRisk == 0 || MaxCount(ms, |ms|) <= req.maxSharedRisk
    case Colocate => |NodesOf(ms)| <= 1
    case Spread => |NodesOf(ms)| >= 2
  }

  /** What the constraint asks for. */
  ghost predicate TopologyMeaning(ms: seq<Resource>, req: Request)
  {
    match req.topology
    case NoTopology => true
    case DistinctFailureDomains => exists a, b :: a in ms && b in ms && (a.node, a.domain) != (b.node, b.domain)
    case MaxSharedRisk => req.maxSharedRisk == 0 || forall name :: CountDomain(ms, name) <= req.maxSharedRisk
    case Colocate => forall a, b :: a in ms && b in ms ==> a.node == b.node
    case Spread => exists a, b :: a in ms && b in ms && a.node != b.node
  }

  lemma SizeAtLeastTwo<T>(s: set<T>)
    ensures |s| >= 2 <==> exists x, y :: x in s && y in s && x != y
  {
    if |s| >= 2 {
      var x :| x in s;
      assert |s - {x}| == |s| - 1;
      var y :| y in s - {x};
    }
    if x, y :| x in s && y in s && x != y {
      assert {x, y} <= s;
      SubsetSize({x, y}, s);
    }
  }

  lemma {:induction false} SubsetSize<T>(a: set<T>, b: set<T>)
    requires a <= b
    ensures |a| <= |b|
  {
    if a != {} {
      var x :| x in a;
      SubsetSize(a - {x}, b - {x});
    }
  }

  lemma {:induction false} CountAbsent(ms: seq<Resource>, name: string)
    ensures CountDomain(ms, name) > 0 ==> exists i :: 0 <= i < |ms| && ms[i].domain == name
  {
    if ms != [] { CountAbsent(ms[1..], name); }
  }

  lemma {:induction false} MaxCountIsMax(ms: seq<Resource>, n: nat)
    requires n <= |ms|
    ensures forall i :: 0 <= i < n ==> CountDomain(ms, ms[i].domain) <= MaxCount(ms, n)
    ensures MaxCount(ms, n) == 0 || exists i :: 0 <= i < n && CountDomain(ms, ms[i].domain) == MaxCount(ms, n)
  {
    if n > 0 { MaxCountIsMax(ms, n - 1); }
  }

  /** Counting distinct keys decides the constraint exactly. */
  lemma TopologyCheckIsMeaning(ms: seq<Resource>, req: Request)
    ensures TopologyHolds(ms, req) <==> TopologyMeaning(ms, req)
  {
    match req.topology
    case NoTopology =>
    case DistinctFailureDomains =>
      SizeAtLeastTwo(DomainsOf(ms));
      assert forall r :: r in ms ==> (r.node, r.domain) in DomainsOf(ms);
    case MaxSharedRisk =>
      MaxCountIsMax(ms, |ms|);
      forall name ensures CountDomain(ms, name) <= MaxCount(ms, |ms|) { CountAbsent(ms, name); }
    case Colocate =>
      SizeAtLeastTwo(NodesOf(ms));
      assert forall r :: r in ms ==> r.node in NodesOf(ms);
    case Spread =>
      SizeAtLeastTwo(NodesOf(ms));
      assert forall r :: r in ms ==> r.node in NodesOf(ms);
  }

  // ---- ranking -----------------------------------------------------------------

  function HealthScore(ms: seq<Resource>): real
  {
    if ms == [] then 0.0 else HealthScore(ms[..|ms| - 1]) + if ms[|ms| - 1].health == Healthy then 10.0 else 0.0
  }

  function CapacityScore(ms: seq<Resource>): real
  {
    if ms == [] then 0.0 else
      CapacityScore(ms[..|ms| - 1]) + (ms[|ms| - 1].capacity.computeUnits + ms[|ms| - 1].capacity.hostMemory * 0.000001)
  }

  function Headroom(ms: seq<Resource>): real
  {
    if ms == [] then 0.0 else
      Headroom(ms[..|ms| - 1])
      + (if ms[|ms| - 1].capacity.computeUnits > 0.0 then 1.0 else 0.0)
      + (if ms[|ms| - 1].capacity.storage > 0.0 then 1.0 else 0.0)
  }

  /** Health, capped capacity, distinct nodes and capped headroom, each with weight 1. */
  function Rank(ms: seq<Resource>): real
  {
    HealthScore(ms) + Min(1.0, CapacityScore(ms) * 0.1) + |NodesOf(ms)| as real + Min(1.0, Headroom(ms) * 0.1)
  }

  lemma {:induction false} RankNonNegative(ms: seq<Resource>)
    requires forall r :: r in ms ==> NonNegative(r.capacity)
    ensures HealthScore(ms) >= 0.0 && CapacityScore(ms) >= 0.0 && Headroom(ms) >= 0.0
    ensures Rank(ms) >= 0.0
  {
    if ms != [] {
      var front := ms[..|ms| - 1];
      assert forall r :: r in front ==> r in ms;
      RankNonNegative(front);
      assert ms[|ms| - 1] in ms;
    }
  }

  // ---- authority ---------------------------------------------------------------

  function ResourceGens(ms: seq<Resource>): (g: seq<Generation>)
    ensures |g| == |ms| && forall i :: 0 <= i < |ms| ==> g[i] == ms[i].generation
  {
    seq(|ms|, i requires 0 <= i < |ms| => ms[i].generation)
  }

  function EvidenceGens(ms: seq<Resource>): seq<Generation>
  {
    seq(|ms|, i requires 0 <= i < |ms| => ms[i].evidence.generation)
  }

  function CapabilityGens(ms: seq<Resource>): seq<Generation>
  {
    if ms == [] then [] else
      var caps := ms[|ms| - 1].capabilities;
      CapabilityGens(ms[..|ms| - 1]) + seq(|caps|, i requires 0 <= i < |caps| => caps[i].generation)
  }

  function CompatibilityGens(ms: seq<Resource>): seq<Generation>
  {
    if ms == [] then [] else
      var cs := ms[|ms| - 1].compatibility;
      CompatibilityGens(ms[..|ms| - 1]) + seq(|cs|, i requires 0 <= i < |cs| => cs[i].generation)
  }

  function NodeGens(ms: seq<Resource>, nodes: map<NodeId, Node>): seq<Generation>
  {
    if ms == [] then [] else
      NodeGens(ms[..|ms| - 1], nodes) + if ms[|ms| - 1].node in nodes then [nodes[ms[|ms| - 1].node].generation] else []
  }

  function WorkerBoots(ms: seq<Resource>, nodes: map<NodeId, Node>): seq<nat>
  {
    if ms == [] then [] else
      var n := ms[|ms| - 1].node;
      WorkerBoots(ms[..|ms| - 1], nodes) + if n in nodes && nodes[n].workerBoot != 0 then [nodes[n].workerBoot] else []
  }

  function MakeAuthority(gen: Generation, req: Request, ms: seq<Resource>, nodes: map<NodeId, Node>,
                         epoch: Epoch): Authority
  {
    Authority(epoch, req.policyGeneration, gen, ResourceGens(ms), EvidenceGens(ms), CapabilityGens(ms),
              CompatibilityGens(ms), NodeGens(ms, nodes), WorkerBoots(ms, nodes))
  }
}
