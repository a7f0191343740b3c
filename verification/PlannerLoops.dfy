/** The planner as the engine runs it: group the hash map by class in whatever order it
    iterates, then sort, enumerate, combine and scan. */
module PlannerLoops {
  import opened FabricTypes
  import opened Eligibility
  import opened Candidates
  import opened Enumeration
  import opened PlanGraph
  import opened Planner
  import opened PlannerTheorems

  type Groups = map<ResourceClass, seq<Resource>>

  function Group(groups: Groups, cls: ResourceClass): seq<Resource>
  {
    if cls in groups then groups[cls] else []
  }

  /** Eligible resources by class, visiting the table in an arbitrary order. */
  method GroupByClass(resources: map<ResourceId, Resource>,
                      req: Request) returns (groups: Groups, ghost order: seq<ResourceId>)
    ensures Enumerates(order, resources)
    ensures forall cls :: Group(groups, cls) == Gather(order, resources, req, cls)
  {
    groups, order := map[], [];
    var pending := resources.Keys;
    while pending != {}
      invariant pending <= resources.Keys
      invariant forall k :: k in order <==> k in resources && k !in pending
      invariant forall i, j :: 0 <= i < j < |order| ==> order[i] != order[j]
      invariant forall cls :: Group(groups, cls) == Gather(order, resources, req, cls)
      decreases |pending|
    {
      var k :| k in pending;
      var r := resources[k];
      assert (order + [k])[..|order|] == order;
      if Check(r, req).Eligible? {
        groups := groups[r.cls := Group(groups, r.cls) + [r]];
      }
      order, pending := order + [k], pending - {k};
    }
  }

  lemma {:induction false} MandatoryAppend(ds: seq<Demand>, d: Demand)
    ensures Mandatory(ds + [d]) == Mandatory(ds) + if d.mandatory then [d] else []
  {
    if ds == [] {
      assert ds + [d] == [d] && [d][1..] == [];
    } else {
      MandatoryAppend(ds[1..], d);
      assert (ds + [d])[1..] == ds[1..] + [d];
    }
  }

  lemma {:induction false} MandatoryPrefix(ds: seq<Demand>, n: nat)
    requires n <= |ds|
    ensures Mandatory(ds[..n]) <= Mandatory(ds)
    decreases |ds| - n
  {
    if n == |ds| {
      assert ds[..n] == ds;
    } else {
      MandatoryPrefix(ds, n + 1);
      assert ds[..n + 1] == ds[..n] + [ds[n]];
      MandatoryAppend(ds[..n], ds[n]);
    }
  }

  /** An empty stage leaves no combination at all. */
  lemma {:induction false} ProductEmpty(sels: seq<seq<seq<ResourceId>>>, n: nat)
    requires n <= |sels| && Product(sels[..n]) == []
    ensures Product(sels) == []
    decreases |sels| - n
  {
    if n == |sels| {
      assert sels[..n] == sels;
    } else {
      assert sels[..n + 1][..n] == sels[..n];
      ProductEmpty(sels, n + 1);
    }
  }

  lemma {:induction false} ExpandNothing(combos: seq<seq<ResourceId>>, i: nat)
    requires i <= |combos|
    ensures Expand(combos, [], i) == []
    decreases |combos| - i
  {
    if i < |combos| { ExpandNothing(combos, i + 1); }
  }

  lemma NoPicksNoProduct(sels: seq<seq<seq<ResourceId>>>, i: nat)
    requires i < |sels| && sels[i] == []
    ensures Product(sels) == []
  {
    assert sels[..i + 1][..i] == sels[..i];
    ExpandNothing(Product(sels[..i]), 0);
    ProductEmpty(sels, i + 1);
  }

  lemma PickListsAppend(resources: map<ResourceId, Resource>, order: seq<ResourceId>, req: Request, ds: seq<Demand>,
                        d: Demand)
    requires forall k :: k in order ==> k in resources
    ensures PickLists(resources, order, req, ds + [d]) ==
              PickLists(resources, order, req, ds) + [Picks(Sorted(order, resources, req, d), d, PICK_CAP)]
  {
  }

  /** A mandatory demand without picks empties the product of all the mandatory demands. */
  lemma MissingPicks(resources: map<ResourceId, Resource>, order: seq<ResourceId>, req: Request, demands: seq<Demand>,
                     n: nat)
    requires forall k :: k in order ==> k in resources
    requires n < |demands| && demands[n].mandatory
    requires Picks(Sorted(order, resources, req, demands[n]), demands[n], PICK_CAP) == []
    ensures Mandatory(demands) != [] && Product(PickLists(resources, order, req, Mandatory(demands))) == []
  {
    var before := Mandatory(demands[..n]);
    assert demands[..n + 1] == demands[..n] + [demands[n]];
    MandatoryAppend(demands[..n], demands[n]);
    MandatoryPrefix(demands, n + 1);
    assert Mandatory(demands)[|before|] == demands[n];
    NoPicksNoProduct(PickLists(resources, order, req, Mandatory(demands)), |before|);
  }

  /** The picks of every mandatory class, or None as soon as one class has none. */
  method CollectPicks(resources: map<ResourceId, Resource>, ghost order: seq<ResourceId>, groups: Groups, req: Request,
                      demands: seq<Demand>)
    returns (ds: seq<Demand>, sels: Option<seq<seq<seq<ResourceId>>>>)
    requires forall k :: k in order ==> k in resources
    requires forall cls :: Group(groups, cls) == Gather(order, resources, req, cls)
    ensures sels.Some? ==> ds == Mandatory(demands) && sels.value == PickLists(resources, order, req, ds)
    ensures sels.None? ==>
        Mandatory(demands) != [] && Product(PickLists(resources, order, req, Mandatory(demands))) == []
  {
    var lists := [];
    ds := [];
    for n := 0 to |demands|
      invariant ds == Mandatory(demands[..n])
      invariant lists == PickLists(resources, order, req, ds)
    {
      var d := demands[n];
      assert demands[..n + 1] == demands[..n] + [d];
      MandatoryAppend(demands[..n], d);
      if d.mandatory {
        var items := Sort(Group(groups, d.cls), d);
        var picks := EnumerateSelections(items, d, PICK_CAP);
        if picks == [] {
          MissingPicks(resources, order, req, demands, n);
          return ds, None;
        }
        PickListsAppend(resources, order, req, ds, d);
        lists := lists + [picks];
        ds := ds + [d];
      }
    }
    assert demands[..|demands|] == demands;
    sels := Some(lists);
  }

  /** The bounded product of all classes; it stops at the first empty stage. */
  method CombineAll(sels: seq<seq<seq<ResourceId>>>) returns (combos: seq<seq<ResourceId>>)
    ensures combos == Product(sels)
  {
    combos := [[]];
    for n := 0 to |sels|
      invariant combos == Product(sels[..n])
    {
      assert sels[..n + 1][..n] == sels[..n];
      var next := ExpandBounded(combos, sels[n]);
      if next == [] {
        ProductEmpty(sels, n + 1);
        return [];
      }
      combos := next;
    }
    assert sels[..|sels|] == sels;
  }

  /** The scan that keeps the first combination of strictly higher rank. */
  method PickBest(reg: Registry, req: Request, ds: seq<Demand>,
                  combos: seq<seq<ResourceId>>) returns (best: Option<nat>)
    ensures best == ArgMax(Scores(reg, req, ds, combos))
  {
    ghost var scores := Scores(reg, req, ds, combos);
    best := None;
    var bar := NO_RANK;
    for n := 0 to |combos|
      invariant best == ArgMax(scores[..n])
      invariant bar == BarOf(scores[..n])
    {
      var score := Score(reg, req, ds, combos[n]);
      ArgMaxStep(scores, n);
      if score.Some? && score.value > bar { best, bar := Some(n), score.value; }
    }
    assert scores[..|combos|] == scores;
  }

  ghost function BarOf(s: seq<Option<real>>): real
  {
    if ArgMax(s).None? then NO_RANK else s[ArgMax(s).value].value
  }

  lemma ArgMaxStep(s: seq<Option<real>>, n: nat)
    requires n < |s|
    ensures var better := s[n].Some? && s[n].value > BarOf(s[..n]);
            && ArgMax(s[..n + 1]) == (if better then Some(n) else ArgMax(s[..n]))
            && BarOf(s[..n + 1]) == (if better then s[n].value else BarOf(s[..n]))
  {
    assert s[..n + 1][..n] == s[..n];
  }

  /** Compose: the answer is the same for every iteration order of the table. */
  method ComposeDeterministic(reg: Registry, req: Request) returns (members: Option<seq<ResourceId>>)
    requires WellKeyed(reg.resources)
    ensures members.Some? ==> forall id :: id in members.value ==> id in reg.resources
    ensures forall order :: Enumerates(order, reg.resources) ==> members == SelectMembers(reg, order, req)
  {
    var groups, order := GroupByClass(reg.resources, req);
    var ds, sels := CollectPicks(reg.resources, order, groups, req, Demands(req));
    if sels.None? || sels.value == [] {
      members := None;
    } else {
      var combos := CombineAll(sels.value);
      var best := PickBest(reg, req, ds, combos);
      members := if best.None? then None else Some(combos[best.value]);
    }
    assert members == SelectMembers(reg, order, req);
    forall order' | Enumerates(order', reg.resources) ensures members == SelectMembers(reg, order', req) {
      ComposeIndependentOfOrder(reg, order, order', req);
    }
  }
}
