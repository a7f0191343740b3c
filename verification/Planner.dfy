/** The bounded composition planner: candidates per class, capped selections, capped product,
    feasibility, and the first combination of maximal rank.

    `order` is the iteration order of the resource hash map.  Backends are absent, so planning
    reads the path table and leaves it alone. */
module Planner {
  import opened FabricTypes
  import opened Eligibility
  import opened Candidates
  import opened Enumeration
  import opened PlanGraph

  function Lookup(resources: map<ResourceId, Resource>, ids: seq<ResourceId>): (ms: seq<Resource>)
    requires forall id :: id in ids ==> id in resources
    ensures |ms| == |ids| && forall i :: 0 <= i < |ids| ==> ms[i] == resources[ids[i]]
  {
    seq(|ids|, i requires 0 <= i < |ids| => resources[ids[i]])
  }

  predicate Coherent(ms: seq<Resource>, req: Request)
  {
    req.requireCoherence ==> forall r :: r in ms ==> CapabilitySupported(r, CoherentMemoryAccess)
  }

  /** Demand, graph, failure domain and coherence, for one combination. */
  predicate Feasible(reg: Registry, req: Request, ds: seq<Demand>, ids: seq<ResourceId>)
  {
    && (forall id :: id in ids ==> id in reg.resources)
    && var ms := Lookup(reg.resources, ids);
    && (forall d :: d in ds ==> MeetsDemand(OfClass(ms, d.cls), d))
    && ValidateEdges(reg, BuildGraph(req, ms).edges) == Ok
    && TopologyHolds(ms, req)
    && Coherent(ms, req)
  }

  function RankOf(reg: Registry, ids: seq<ResourceId>): real
    requires forall id :: id in ids ==> id in reg.resources
  {
    Rank(Lookup(reg.resources, ids))
  }

  const NO_RANK: real := -1.0

  /** The rank of a combination, if it is feasible. */
  function Score(reg: Registry, req: Request, ds: seq<Demand>, ids: seq<ResourceId>): Option<real>
  {
    if Feasible(reg, req, ds, ids) then Some(RankOf(reg, ids)) else None
  }

  function Scores(reg: Registry, req: Request, ds: seq<Demand>, combos: seq<seq<ResourceId>>): (s: seq<Option<real>>)
    ensures |s| == |combos| && forall i :: 0 <= i < |combos| ==> s[i] == Score(reg, req, ds, combos[i])
  {
    seq(|combos|, i requires 0 <= i < |combos| => Score(reg, req, ds, combos[i]))
  }

  /** Scanning left to right, a feasible combination replaces the best one only if it ranks strictly higher. */
  function ArgMax(s: seq<Option<real>>): (b: Option<nat>)
    ensures b.Some? ==> b.value < |s| && s[b.value].Some?
  {
    if s == [] then None else
      var best := ArgMax(s[..|s| - 1]);
      var last := s[|s| - 1];
      var bar := if best.None? then NO_RANK else s[best.value].value;
      if last.Some? && last.value > bar then Some(|s| - 1) else best
  }

  function PickLists(resources: map<ResourceId, Resource>, order: seq<ResourceId>, req: Request,
                     ds: seq<Demand>): (ps: seq<seq<seq<ResourceId>>>)
    requires forall k :: k in order ==> k in resources
    ensures |ps| == |ds|
    ensures forall i :: 0 <= i < |ds| ==> ps[i] == Picks(Sorted(order, resources, req, ds[i]), ds[i], PICK_CAP)
  {
    seq(|ds|, i requires 0 <= i < |ds| => Picks(Sorted(order, resources, req, ds[i]), ds[i], PICK_CAP))
  }

  function SelectFor(reg: Registry, order: seq<ResourceId>, req: Request,
                     ds: seq<Demand>): (chosen: Option<seq<ResourceId>>)
    requires forall k :: k in order ==> k in reg.resources
    ensures chosen.Some? ==> forall id :: id in chosen.value ==> id in reg.resources
  {
    if ds == [] then None else
      var combos := Product(PickLists(reg.resources, order, req, ds));
      var b := ArgMax(Scores(reg, req, ds, combos));
      if b.None? then None else
        assert Score(reg, req, ds, combos[b.value]).Some?;
        Some(combos[b.value])
  }

  /** The members of the composition, or None when the request is rejected. */
  function SelectMembers(reg: Registry, order: seq<ResourceId>, req: Request): (chosen: Option<seq<ResourceId>>)
    requires forall k :: k in order ==> k in reg.resources
    ensures chosen.Some? ==> forall id :: id in chosen.value ==> id in reg.resources
  {
    SelectFor(reg, order, req, Mandatory(Demands(req)))
  }

  // ---- arg-max -----------------------------------------------------------------

  /** The scan finds the first maximal entry, and nothing only when no entry passes the bar. */
  lemma {:induction false} ArgMaxIsFirstMaximal(s: seq<Option<real>>)
    ensures ArgMax(s).None? ==> forall j :: 0 <= j < |s| && s[j].Some? ==> s[j].value <= NO_RANK
    ensures ArgMax(s).Some? ==> s[ArgMax(s).value].value > NO_RANK
    ensures ArgMax(s).Some? ==> forall j :: 0 <= j < |s| && s[j].Some? ==>
              && s[j].value <= s[ArgMax(s).value].value
              && (j < ArgMax(s).value ==> s[j].value < s[ArgMax(s).value].value)
  {
    if s != [] {
      var front := s[..|s| - 1];
      ArgMaxIsFirstMaximal(front);
      assert forall j :: 0 <= j < |front| ==> front[j] == s[j];
    }
  }

  // ---- what a selection of a class is ------------------------------------------

  /** A choice of candidates for one demand, listed in preference order: as many as the demand
      counts, or one, or two whose capacities add up. */
  ghost predicate SelectionFor(resources: map<ResourceId, Resource>, req: Request, d: Demand, ids: seq<ResourceId>)
  {
    && (forall id :: id in ids ==> id in resources && IsCandidate(resources[id], resources, req, d.cls))
    && (forall i, j :: 0 <= i < j < |ids| ==> Before(resources[ids[i]], resources[ids[j]], d))
    && if !d.amountBased then |ids| == Want(d)
       else |ids| == 1 || (|ids| == 2 && d.amount > 0.0 &&
              CapacityFor(resources[ids[0]], d.dim) + CapacityFor(resources[ids[1]], d.dim) >= d.amount)
  }

  lemma PickIsSelection(resources: map<ResourceId, Resource>, order: seq<ResourceId>, req: Request, d: Demand,
                        c: seq<nat>)
    requires WellKeyed(resources) && Enumerates(order, resources)
    requires var items := Sorted(order, resources, req, d); IsSelection(items, d, c)
    ensures var items := Sorted(order, resources, req, d);
            InRange(c, |items|) && SelectionFor(resources, req, d, Ids(items, c))
  {
    var items := Sorted(order, resources, req, d);
    SortedCandidates(order, resources, req, d);
    SelectionInRange(items, d, c);
    if !d.amountBased { IncreasingFits(c, 0, Width(items)); }
    OrderedIds(resources, req, d, items, c);
  }

  lemma OrderedIds(resources: map<ResourceId, Resource>, req: Request, d: Demand, items: seq<Resource>, c: seq<nat>)
    requires Ascending(items, d) && forall r :: r in items ==> IsCandidate(r, resources, req, d.cls)
    requires InRange(c, |items|) && forall i, j :: 0 <= i < j < |c| ==> c[i] < c[j]
    ensures var ids := Ids(items, c);
            && (forall id :: id in ids ==> id in resources && IsCandidate(resources[id], resources, req, d.cls))
            && (forall i :: 0 <= i < |c| ==> ids[i] in resources && resources[ids[i]] == items[c[i]])
            && (forall i, j :: 0 <= i < j < |c| ==> Before(resources[ids[i]], resources[ids[j]], d))
  {
    var ids := Ids(items, c);
    assert forall i :: 0 <= i < |c| ==> items[c[i]] in items && ids[i] == items[c[i]].id;
  }

  /** Position of a candidate in the sorted list. */
  ghost function Position(items: seq<Resource>, r: Resource): (p: nat)
    requires r in items
    ensures p < |items| && items[p] == r
  {
    var p :| 0 <= p < |items| && items[p] == r; p
  }

  ghost function Positions(resources: map<ResourceId, Resource>, items: seq<Resource>,
                           ids: seq<ResourceId>): (c: seq<nat>)
    requires forall id :: id in ids ==> id in resources && resources[id] in items
    ensures |c| == |ids| && forall i :: 0 <= i < |ids| ==> c[i] < |items| && items[c[i]] == resources[ids[i]]
  {
    seq(|ids|, i requires 0 <= i < |ids| => Position(items, resources[ids[i]]))
  }

  lemma {:induction false} PointwiseIncreasing(c: seq<nat>, lo: nat, hi: nat)
    requires forall i :: 0 <= i < |c| ==> lo <= c[i] < hi
    requires forall i, j :: 0 <= i < j < |c| ==> c[i] < c[j]
    ensures Increasing(c, lo, hi)
    decreases |c|
  {
    if c != [] {
      assert forall i :: 0 <= i < |c| - 1 ==> c[1..][i] == c[i + 1];
      PointwiseIncreasing(c[1..], c[0] + 1, hi);
    }
  }

  lemma PositionsIncrease(resources: map<ResourceId, Resource>, order: seq<ResourceId>, req: Request, d: Demand,
                          ids: seq<ResourceId>)
    requires WellKeyed(resources) && Enumerates(order, resources) && SelectionFor(resources, req, d, ids)
    ensures var items := Sorted(order, resources, req, d);
            && (forall id :: id in ids ==> id in resources && resources[id] in items)
            && var c := Positions(resources, items, ids);
            && Increasing(c, 0, |items|)
            && (forall i, j :: 0 <= i < j < |c| ==> c[i] < c[j])
            && Ids(items, c) == ids
  {
    var items := Sorted(order, resources, req, d);
    SortedCandidates(order, resources, req, d);
    var c := Positions(resources, items, ids);
    forall i, j | 0 <= i < j < |c| ensures c[i] < c[j] {
      assert Before(items[c[i]], items[c[j]], d);
      assert c[j] < c[i] ==> Before(items[c[j]], items[c[i]], d);
    }
    PointwiseIncreasing(c, 0, |items|);
    assert forall i :: 0 <= i < |ids| ==> ids[i] in ids;
  }

  /** With at most TOP_K candidates, every selection is enumerated. */
  lemma SelectionIsEnumerated(resources: map<ResourceId, Resource>, order: seq<ResourceId>, req: Request, d: Demand,
                              ids: seq<ResourceId>)
    requires WellKeyed(resources) && Enumerates(order, resources) && SelectionFor(resources, req, d, ids)
    requires d.amountBased ==> d.count == 0
    requires |Sorted(order, resources, req, d)| <= TOP_K
    ensures exists c :: c in Selections(Sorted(order, resources, req, d), d) && InRange(c,
        |Sorted(order, resources, req, d)|)
              && Ids(Sorted(order, resources, req, d), c) == ids
  {
    var items := Sorted(order, resources, req, d);
    PositionsIncrease(resources, order, req, d, ids);
    var c := Positions(resources, items, ids);
    if !d.amountBased { IncreasingFits(c, 0, |items|); }
    assert ids[0] in ids;
    assert IsSelection(items, d, c);
    SelectionsExact(items, d, c);
    SelectionInRange(items, d, c);
  }
}
