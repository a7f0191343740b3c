/** Compose against the request's own fields: what every plan supplies, and that below the caps a request
    is accepted exactly when some set of registered resources fulfils it. */
module RequestTheorems {
  import opened FabricTypes
  import opened Eligibility
  import opened Candidates
  import opened Enumeration
  import opened PlanGraph
  import opened Planner
  import opened PlannerTheorems
  import opened PlanTheorems
  import opened RequestMeaning
  import E = Engine

  ghost function Ids(s: seq<ResourceId>): set<ResourceId> { set id | id in s }

  // ---- lists and sets ----------------------------------------------------------

  lemma {:induction false} DistinctSize(s: seq<ResourceId>)
    requires NoDup(s)
    ensures |Ids(s)| == |s|
  {
    if s != [] {
      var front, last := s[..|s| - 1], s[|s| - 1];
      DistinctSize(front);
      assert Ids(s) == Ids(front) + {last} && last !in Ids(front);
    }
  }

  /** Every listed resource is of the class. */
  ghost predicate AllOf(resources: map<ResourceId, Resource>, ids: seq<ResourceId>, cls: ResourceClass)
  {
    forall id :: id in ids ==> id in resources && resources[id].cls == cls
  }

  lemma PicksAreOf(resources: map<ResourceId, Resource>, req: Request, d: Demand, ids: seq<ResourceId>)
    requires SelectionFor(resources, req, d, ids)
    ensures AllOf(resources, ids, d.cls)
  {
  }

  lemma PartAppend(resources: map<ResourceId, Resource>, a: seq<ResourceId>, b: seq<ResourceId>, cls: ResourceClass,
                   of: ResourceClass)
    requires AllOf(resources, b, of)
    ensures Part(resources, Ids(a + b), cls) == Part(resources, Ids(a), cls) + if of == cls then Ids(b) else {}
  {
  }

  /** What the last selection adds to a class. */
  lemma PartOfLast(resources: map<ResourceId, Resource>, req: Request, ds: seq<Demand>, choice: seq<seq<ResourceId>>,
                   cls: ResourceClass)
    requires IsChoice(resources, req, ds, choice) && ds != []
    ensures |choice| == |ds|
    ensures Part(resources, Ids(Flatten(choice)), cls) == Part(resources, Ids(Flatten(choice[..|ds| - 1])), cls) +
              if ds[|ds| - 1].cls == cls then Ids(choice[|ds| - 1]) else {}
  {
    var n := |ds| - 1;
    PicksAreOf(resources, req, ds[n], choice[n]);
    PartAppend(resources, Flatten(choice[..n]), choice[n], cls, ds[n].cls);
  }

  lemma PartOfOthers(resources: map<ResourceId, Resource>, req: Request, ds: seq<Demand>,
                     choice: seq<seq<ResourceId>>, cls: ResourceClass)
    requires IsChoice(resources, req, ds, choice) && DistinctClasses(ds) && forall d :: d in ds ==> d.cls != cls
    ensures Part(resources, Ids(Flatten(choice)), cls) == {}
  {
    ChoiceMembers(resources, req, ds, choice);
  }

  lemma ChoicePrefix(resources: map<ResourceId, Resource>, req: Request, ds: seq<Demand>, choice: seq<seq<ResourceId>>)
    requires IsChoice(resources, req, ds, choice) && DistinctClasses(ds) && ds != []
    ensures var n := |ds| - 1;
            && |choice| == |ds| && IsChoice(resources, req, ds[..n], choice[..n]) && DistinctClasses(ds[..n])
            && (forall d :: d in ds[..n] ==> d.cls != ds[n].cls)
  {
  }

  ghost predicate PartIs(resources: map<ResourceId, Resource>, ds: seq<Demand>, choice: seq<seq<ResourceId>>, i: nat)
    requires i < |ds| == |choice|
  {
    Part(resources, Ids(Flatten(choice)), ds[i].cls) == Ids(choice[i])
  }

  lemma PartStep(resources: map<ResourceId, Resource>, ds: seq<Demand>, choice: seq<seq<ResourceId>>, i: nat)
    requires i < |ds| - 1 && |ds| == |choice| && PartIs(resources, ds[..|ds| - 1], choice[..|ds| - 1], i)
    requires Part(resources, Ids(Flatten(choice)), ds[i].cls) ==
               Part(resources, Ids(Flatten(choice[..|ds| - 1])), ds[i].cls)
    ensures PartIs(resources, ds, choice, i)
  {
  }

  /** The members picked for the demand at position i are the members of its class. */
  lemma {:induction false} PartOfChoice(resources: map<ResourceId, Resource>, req: Request, ds: seq<Demand>,
                                        choice: seq<seq<ResourceId>>, i: nat)
    requires IsChoice(resources, req, ds, choice) && DistinctClasses(ds) && i < |ds|
    ensures PartIs(resources, ds, choice, i)
  {
    var n := |ds| - 1;
    ChoicePrefix(resources, req, ds, choice);
    PartOfLast(resources, req, ds, choice, ds[i].cls);
    if i == n {
      PartOfOthers(resources, req, ds[..n], choice[..n], ds[n].cls);
    } else {
      PartOfChoice(resources, req, ds[..n], choice[..n], i);
      PartStep(resources, ds, choice, i);
    }
  }

  lemma ClassAppend(a: seq<Resource>, b: seq<Resource>, cls: ResourceClass)
    ensures OfClass(a + b, cls) == OfClass(a, cls) + OfClass(b, cls)
    decreases |b|
  {
    if b == [] {
      assert a + b == a;
    } else {
      ClassAppend(a, b[..|b| - 1], cls);
      assert (a + b)[..|a + b| - 1] == a + b[..|b| - 1];
    }
  }

  lemma {:induction false} AllOfClass(ms: seq<Resource>, cls: ResourceClass, all: bool)
    requires forall r :: r in ms ==> (r.cls == cls <==> all)
    ensures OfClass(ms, cls) == if all then ms else []
  {
    if ms != [] {
      var front := ms[..|ms| - 1];
      assert ms[|ms| - 1] in ms && forall r :: r in front ==> r in ms;
      AllOfClass(front, cls, all);
      assert ms == front + [ms[|ms| - 1]];
    }
  }

  ghost predicate Known(resources: map<ResourceId, Resource>, ids: seq<ResourceId>)
  {
    forall id :: id in ids ==> id in resources
  }

  /** None of the listed resources is of the class, or all are. */
  lemma LookupOfClass(resources: map<ResourceId, Resource>, ids: seq<ResourceId>, cls: ResourceClass, all: bool)
    requires Known(resources, ids) && forall id :: id in ids ==> (resources[id].cls == cls <==> all)
    ensures OfClass(Lookup(resources, ids), cls) == if all then Lookup(resources, ids) else []
  {
    var ms := Lookup(resources, ids);
    forall r | r in ms ensures r.cls == cls <==> all {
      var j :| 0 <= j < |ms| && ms[j] == r;
      assert ids[j] in ids;
    }
    AllOfClass(ms, cls, all);
  }

  lemma LookupAppend(resources: map<ResourceId, Resource>, a: seq<ResourceId>, b: seq<ResourceId>, cls: ResourceClass)
    requires Known(resources, a) && Known(resources, b)
    ensures Known(resources, a + b)
    ensures OfClass(Lookup(resources, a + b), cls) ==
              OfClass(Lookup(resources, a), cls) + OfClass(Lookup(resources, b), cls)
  {
    assert Lookup(resources, a + b) == Lookup(resources, a) + Lookup(resources, b);
    ClassAppend(Lookup(resources, a), Lookup(resources, b), cls);
  }

  lemma OtherClasses(resources: map<ResourceId, Resource>, req: Request, ds: seq<Demand>,
                     choice: seq<seq<ResourceId>>, cls: ResourceClass)
    requires IsChoice(resources, req, ds, choice) && DistinctClasses(ds) && forall d :: d in ds ==> d.cls != cls
    ensures Known(resources, Flatten(choice)) && OfClass(Lookup(resources, Flatten(choice)), cls) == []
  {
    ChoiceMembers(resources, req, ds, choice);
    LookupOfClass(resources, Flatten(choice), cls, false);
  }

  /** What one selection contributes to a class. */
  lemma PicksOfClass(resources: map<ResourceId, Resource>, req: Request, d: Demand, ids: seq<ResourceId>,
                     cls: ResourceClass)
    requires SelectionFor(resources, req, d, ids)
    ensures Known(resources, ids)
    ensures OfClass(Lookup(resources, ids), cls) == if d.cls == cls then Lookup(resources, ids) else []
  {
    LookupOfClass(resources, ids, cls, d.cls == cls);
  }

  /** The same for the lists the demand check looks at. */
  ghost predicate Splits(resources: map<ResourceId, Resource>, ds: seq<Demand>, choice: seq<seq<ResourceId>>, i: nat)
    requires i < |ds| == |choice|
  {
    && Known(resources, Flatten(choice)) && Known(resources, choice[i])
    && OfClass(Lookup(resources, Flatten(choice)), ds[i].cls) == Lookup(resources, choice[i])
  }

  lemma SplitsLast(resources: map<ResourceId, Resource>, ds: seq<Demand>, choice: seq<seq<ResourceId>>)
    requires |ds| == |choice| > 0
    requires var n := |ds| - 1;
             && Known(resources, Flatten(choice[..n])) && Known(resources, choice[n])
             && OfClass(Lookup(resources, Flatten(choice[..n])), ds[n].cls) == []
             && OfClass(Lookup(resources, choice[n]), ds[n].cls) == Lookup(resources, choice[n])
    ensures Splits(resources, ds, choice, |ds| - 1)
  {
    LookupAppend(resources, Flatten(choice[..|ds| - 1]), choice[|ds| - 1], ds[|ds| - 1].cls);
  }

  lemma SplitsBefore(resources: map<ResourceId, Resource>, ds: seq<Demand>, choice: seq<seq<ResourceId>>, i: nat)
    requires i < |ds| - 1 && |ds| == |choice| && Splits(resources, ds[..|ds| - 1], choice[..|ds| - 1], i)
    requires Known(resources, choice[|ds| - 1]) && OfClass(Lookup(resources, choice[|ds| - 1]), ds[i].cls) == []
    ensures Splits(resources, ds, choice, i)
  {
    LookupAppend(resources, Flatten(choice[..|ds| - 1]), choice[|ds| - 1], ds[i].cls);
  }

  lemma {:induction false} ClassOfChoice(resources: map<ResourceId, Resource>, req: Request, ds: seq<Demand>,
                                         choice: seq<seq<ResourceId>>, i: nat)
    requires IsChoice(resources, req, ds, choice) && DistinctClasses(ds) && i < |ds|
    ensures Splits(resources, ds, choice, i)
  {
    var n := |ds| - 1;
    ChoicePrefix(resources, req, ds, choice);
    assert SelectionFor(resources, req, ds[n], choice[n]);
    PicksOfClass(resources, req, ds[n], choice[n], ds[i].cls);
    if i == n {
      OtherClasses(resources, req, ds[..n], choice[..n], ds[n].cls);
      SplitsLast(resources, ds, choice);
    } else {
      ClassOfChoice(resources, req, ds[..n], choice[..n], i);
      SplitsBefore(resources, ds, choice, i);
    }
  }

  // ---- one demand --------------------------------------------------------------

  lemma TotalOfOne(r: Resource, dim: Dimension)
    ensures Total([r], dim) == CapacityFor(r, dim)
  {
    assert [r][..0] == [];
  }

  lemma TotalOfTwo(a: Resource, b: Resource, dim: Dimension)
    ensures Total([a, b], dim) == CapacityFor(a, dim) + CapacityFor(b, dim)
  {
    assert [a, b][..1] == [a];
    TotalOfOne(a, dim);
  }

  /** A selection that meets its demand serves the class, and conversely. */
  lemma SelectionServes(resources: map<ResourceId, Resource>, req: Request, d: Demand, ids: seq<ResourceId>,
                        members: set<ResourceId>)
    requires Demanded(req, d) && SelectionFor(resources, req, d, ids) && Part(resources, members, d.cls) == Ids(ids)
    ensures MeetsDemand(Lookup(resources, ids), d) <==> Serves(resources, req, members, d.cls)
  {
    var ms := Lookup(resources, ids);
    SelectionNoDup(resources, req, d, ids);
    DistinctSize(ids);
    if d.amountBased {
      if |ids| == 1 { ServesOne(resources, req, d, ids, members); } else { ServesTwo(resources, req, d, ids, members); }
    }
  }

  lemma ServesOne(resources: map<ResourceId, Resource>, req: Request, d: Demand, ids: seq<ResourceId>,
                  members: set<ResourceId>)
    requires Demanded(req, d) && d.amountBased && |ids| == 1 && ids[0] in resources
    requires Part(resources, members, d.cls) == Ids(ids)
    ensures MeetsDemand(Lookup(resources, ids), d) <==> Serves(resources, req, members, d.cls)
  {
    var ms := Lookup(resources, ids);
    assert ms == [resources[ids[0]]] && Ids(ids) == {ids[0]};
    TotalOfOne(ms[0], d.dim);
    forall a, b | Ids(ids) == {a, b} ensures a == b {
      assert a in {a, b} && b in {a, b};
    }
  }

  lemma ServesTwo(resources: map<ResourceId, Resource>, req: Request, d: Demand, ids: seq<ResourceId>,
                  members: set<ResourceId>)
    requires Demanded(req, d) && d.amountBased && |ids| == 2 && ids[0] != ids[1] && d.amount > 0.0
    requires ids[0] in resources && ids[1] in resources && Part(resources, members, d.cls) == Ids(ids)
    ensures MeetsDemand(Lookup(resources, ids), d) <==> Serves(resources, req, members, d.cls)
  {
    var ms := Lookup(resources, ids);
    assert NoDup(ids);
    assert ms == [resources[ids[0]], resources[ids[1]]] && Ids(ids) == {ids[0], ids[1]};
    TotalOfTwo(ms[0], ms[1], d.dim);
    DistinctSize(ids);
    forall a, b | a != b && Ids(ids) == {a, b} ensures (a == ids[0] && b == ids[1]) || (a == ids[1] && b == ids[0]) {
      assert a in {a, b} && b in {a, b};
    }
  }

  // ---- a feasible choice fulfils the request ------------------------------------

  lemma InLookup(resources: map<ResourceId, Resource>, ids: seq<ResourceId>, id: ResourceId)
    requires Known(resources, ids) && id in ids
    ensures resources[id] in Lookup(resources, ids)
  {
    var i :| 0 <= i < |ids| && ids[i] == id;
    assert Lookup(resources, ids)[i] == resources[id];
  }

  lemma OutOfLookup(resources: map<ResourceId, Resource>, ids: seq<ResourceId>, r: Resource)
    requires WellKeyed(resources) && Known(resources, ids) && r in Lookup(resources, ids)
    ensures r.id in ids && r.id in resources && resources[r.id] == r
  {
    var i :| 0 <= i < |ids| && Lookup(resources, ids)[i] == r;
    assert ids[i] in ids;
  }

  /** Members as a list of records, as a list of ids and as a set. */
  lemma SameMembers(resources: map<ResourceId, Resource>, ids: seq<ResourceId>)
    requires WellKeyed(resources) && Known(resources, ids)
    ensures forall r :: r in Lookup(resources, ids) <==> r.id in Ids(ids) && resources[r.id] == r
  {
    forall r ensures r in Lookup(resources, ids) <==> r.id in Ids(ids) && resources[r.id] == r {
      if r in Lookup(resources, ids) { OutOfLookup(resources, ids, r); }
      if r.id in Ids(ids) && resources[r.id] == r { InLookup(resources, ids, r.id); }
    }
  }

  lemma LinkedAsSet(reg: Registry, req: Request, ids: seq<ResourceId>)
    requires WellKeyed(reg.resources) && Known(reg.resources, ids)
    ensures ValidateEdges(reg, BuildGraph(req, Lookup(reg.resources, ids)).edges) == Ok <==>
              forall a, b :: a in Ids(ids) && b in Ids(ids) && a != b ==>
                PairOk(reg, req, reg.resources[a], reg.resources[b])
  {
    var ms := Lookup(reg.resources, ids);
    SameMembers(reg.resources, ids);
    assert Registered(reg, ms);
    GraphCheckIsPairwise(reg, req, ms);
    if PairwiseOk(reg, req, ms) {
      forall a, b | a in Ids(ids) && b in Ids(ids) && a != b
        ensures PairOk(reg, req, reg.resources[a], reg.resources[b])
      {
        InLookup(reg.resources, ids, a);
        InLookup(reg.resources, ids, b);
      }
    }
  }

  lemma DomainStep(resources: map<ResourceId, Resource>, id: ResourceId, rest: set<ResourceId>, name: string)
    requires id in resources && id !in rest
    ensures |InDomain(resources, rest + {id}, name)| ==
              |InDomain(resources, rest, name)| + if resources[id].domain == name then 1 else 0
  {
    var some := InDomain(resources, rest, name);
    assert InDomain(resources, rest + {id}, name) == if resources[id].domain == name then some + {id} else some;
  }

  lemma {:induction false} DomainCount(resources: map<ResourceId, Resource>, ids: seq<ResourceId>, name: string)
    requires Known(resources, ids) && NoDup(ids)
    ensures CountDomain(Lookup(resources, ids), name) == |InDomain(resources, Ids(ids), name)|
  {
    if ids == [] {
      assert InDomain(resources, Ids(ids), name) == {};
    } else {
      var first, rest := ids[0], ids[1..];
      DomainCount(resources, rest, name);
      assert Lookup(resources, ids)[1..] == Lookup(resources, rest);
      DomainStep(resources, first, Ids(rest), name);
      assert ids == [first] + rest;
      assert Ids(ids) == Ids(rest) + {first};
    }
  }

  lemma PlacedAsSet(resources: map<ResourceId, Resource>, req: Request, ids: seq<ResourceId>)
    requires WellKeyed(resources) && Known(resources, ids) && NoDup(ids)
    ensures TopologyHolds(Lookup(resources, ids), req) <==> Placed(resources, req, Ids(ids))
  {
    var ms := Lookup(resources, ids);
    TopologyCheckIsMeaning(ms, req);
    SameMembers(resources, ids);
    forall id | id in Ids(ids) ensures resources[id] in ms { InLookup(resources, ids, id); }
    forall name ensures CountDomain(ms, name) == |InDomain(resources, Ids(ids), name)| {
      DomainCount(resources, ids, name);
    }
  }

  lemma CoherentAsSet(resources: map<ResourceId, Resource>, req: Request, ids: seq<ResourceId>)
    requires WellKeyed(resources) && Known(resources, ids)
    ensures Coherent(Lookup(resources, ids), req) <==>
              (req.requireCoherence ==>
                 forall id :: id in Ids(ids) ==> CapabilitySupported(resources[id], CoherentMemoryAccess))
  {
    SameMembers(resources, ids);
    forall id | id in Ids(ids) ensures resources[id] in Lookup(resources, ids) { InLookup(resources, ids, id); }
  }

  /** Every demand of the table is met exactly when every class asked for is served. */
  lemma DemandsAsClasses(resources: map<ResourceId, Resource>, req: Request, choice: seq<seq<ResourceId>>)
    requires IsChoice(resources, req, Mandatory(Demands(req)), choice)
    ensures Known(resources, Flatten(choice))
    ensures (forall d :: d in Mandatory(Demands(req)) ==>
               MeetsDemand(OfClass(Lookup(resources, Flatten(choice)), d.cls), d)) <==>
            (forall cls :: AskedFor(req, cls) ==> Serves(resources, req, Ids(Flatten(choice)), cls))
  {
    var ds, ids := Mandatory(Demands(req)), Flatten(choice);
    MandatoryDemandList(req);
    ChoiceMembers(resources, req, ds, choice);
    forall d | d in ds
      ensures MeetsDemand(OfClass(Lookup(resources, ids), d.cls), d) <==> Serves(resources, req, Ids(ids), d.cls)
      ensures AskedFor(req, d.cls)
    {
      DemandAsClass(resources, req, ds, choice, d);
    }
    forall cls | AskedFor(req, cls) ensures exists d :: d in ds && d.cls == cls {
      var d := AskedForIsDemanded(req, cls);
    }
  }

  lemma DemandAsClass(resources: map<ResourceId, Resource>, req: Request, ds: seq<Demand>,
                      choice: seq<seq<ResourceId>>, d: Demand)
    requires ds == Mandatory(Demands(req)) && DemandList(ds) && IsChoice(resources, req, ds, choice) && d in ds
    ensures Known(resources, Flatten(choice)) && AskedFor(req, d.cls)
    ensures MeetsDemand(OfClass(Lookup(resources, Flatten(choice)), d.cls), d) <==>
              Serves(resources, req, Ids(Flatten(choice)), d.cls)
  {
    MandatoryIsDemanded(req, d);
    var i :| 0 <= i < |ds| && ds[i] == d;
    ClassOfChoice(resources, req, ds, choice, i);
    PartOfChoice(resources, req, ds, choice, i);
    SelectionServes(resources, req, d, choice[i], Ids(Flatten(choice)));
  }

  /** The members of a choice are registered, eligible and of classes that were asked for. */
  ghost predicate Eligible(reg: Registry, req: Request, members: set<ResourceId>)
  {
    forall id :: id in members ==>
      id in reg.resources && Check(reg.resources[id], req).Eligible? && AskedFor(req, reg.resources[id].cls)
  }

  lemma ChoiceIsEligible(reg: Registry, req: Request, choice: seq<seq<ResourceId>>)
    requires IsChoice(reg.resources, req, Mandatory(Demands(req)), choice)
    ensures NoDup(Flatten(choice)) && Known(reg.resources, Flatten(choice))
    ensures Eligible(reg, req, Ids(Flatten(choice)))
  {
    var ds, ids := Mandatory(Demands(req)), Flatten(choice);
    MandatoryDemandList(req);
    ChoiceMembers(reg.resources, req, ds, choice);
    forall id | id in Ids(ids) ensures AskedFor(req, reg.resources[id].cls) {
      var d :| d in ds && d.cls == reg.resources[id].cls;
      MandatoryIsDemanded(req, d);
    }
  }

  /** A choice is feasible exactly when its members fulfil the request. */
  lemma FeasibleIsFulfilling(reg: Registry, req: Request, choice: seq<seq<ResourceId>>)
    requires WellKeyed(reg.resources) && IsChoice(reg.resources, req, Mandatory(Demands(req)), choice)
    ensures NoDup(Flatten(choice))
    ensures Feasible(reg, req, Mandatory(Demands(req)), Flatten(choice)) <==>
              Fulfils(reg, req, Ids(Flatten(choice)))
  {
    ChoiceIsEligible(reg, req, choice);
    DemandsAsClasses(reg.resources, req, choice);
    FeasibleAsSet(reg, req, Mandatory(Demands(req)), Flatten(choice));
  }

  lemma FeasibleAsSet(reg: Registry, req: Request, ds: seq<Demand>, ids: seq<ResourceId>)
    requires WellKeyed(reg.resources) && NoDup(ids) && Known(reg.resources, ids) && Eligible(reg, req, Ids(ids))
    requires (forall d :: d in ds ==> MeetsDemand(OfClass(Lookup(reg.resources, ids), d.cls), d)) <==>
             (forall cls :: AskedFor(req, cls) ==> Serves(reg.resources, req, Ids(ids), cls))
    ensures Feasible(reg, req, ds, ids) <==> Fulfils(reg, req, Ids(ids))
  {
    LinkedAsSet(reg, req, ids);
    PlacedAsSet(reg.resources, req, ids);
    CoherentAsSet(reg.resources, req, ids);
  }

  // ---- a fulfilling set is a choice ----------------------------------------------

  /** The ids of the listed resources that are members, in the same order. */
  ghost function Keep(items: seq<Resource>, members: set<ResourceId>): seq<ResourceId>
  {
    if items == [] then [] else
      Keep(items[..|items| - 1], members) +
      if items[|items| - 1].id in members then [items[|items| - 1].id] else []
  }

  lemma {:induction false} KeepMembers(items: seq<Resource>, members: set<ResourceId>, id: ResourceId)
    ensures id in Keep(items, members) <==> id in members && exists r :: r in items && r.id == id
  {
    if items != [] {
      var front, last := items[..|items| - 1], items[|items| - 1];
      KeepMembers(front, members, id);
      assert forall r :: r in items <==> r in front || r == last;
    }
  }

  lemma {:induction false} KeepAscends(resources: map<ResourceId, Resource>, items: seq<Resource>,
                                       members: set<ResourceId>, d: Demand)
    requires Ascending(items, d) && forall r :: r in items ==> r.id in resources && resources[r.id] == r
    ensures var ids := Keep(items, members);
            Known(resources, ids) &&
            forall i, j :: 0 <= i < j < |ids| ==> Before(resources[ids[i]], resources[ids[j]], d)
  {
    if items != [] {
      var front, last := items[..|items| - 1], items[|items| - 1];
      KeepAscends(resources, front, members, d);
      var ids := Keep(front, members);
      assert last in items;
      forall i | 0 <= i < |ids| ensures Before(resources[ids[i]], last, d) {
        KeepMembers(front, members, ids[i]);
        var r :| r in front && r.id == ids[i];
        assert r in items;
        var k :| 0 <= k < |front| && front[k] == r;
        assert items[k] == r;
      }
    }
  }

  /** The members of a class, in the planner's order of preference. */
  ghost function PickOf(resources: map<ResourceId, Resource>, order: seq<ResourceId>, req: Request,
                        members: set<ResourceId>, d: Demand): seq<ResourceId>
    requires forall k :: k in order ==> k in resources
  {
    Keep(Sorted(order, resources, req, d), members)
  }

  lemma PickIsPart(resources: map<ResourceId, Resource>, order: seq<ResourceId>, req: Request, members: set<ResourceId>,
                   d: Demand)
    requires WellKeyed(resources) && Enumerates(order, resources)
    requires forall id :: id in members ==> id in resources && Check(resources[id], req).Eligible?
    ensures Ids(PickOf(resources, order, req, members, d)) == Part(resources, members, d.cls)
    ensures Known(resources, PickOf(resources, order, req, members, d))
    ensures var ids := PickOf(resources, order, req, members, d);
            forall i, j :: 0 <= i < j < |ids| ==> Before(resources[ids[i]], resources[ids[j]], d)
  {
    var items := Sorted(order, resources, req, d);
    SortedCandidates(order, resources, req, d);
    KeepAscends(resources, items, members, d);
    forall id ensures id in PickOf(resources, order, req, members, d) <==> id in Part(resources, members, d.cls) {
      KeepMembers(items, members, id);
      if id in Part(resources, members, d.cls) { assert IsCandidate(resources[id], resources, req, d.cls); }
    }
  }

  /** The members of a class that is served are a selection for its demand. */
  lemma PickIsSelectionFor(resources: map<ResourceId, Resource>, order: seq<ResourceId>, req: Request,
                           members: set<ResourceId>, d: Demand)
    requires WellKeyed(resources) && Enumerates(order, resources) && Demanded(req, d)
    requires forall id :: id in members ==> id in resources && Check(resources[id], req).Eligible?
    requires Serves(resources, req, members, d.cls)
    ensures SelectionFor(resources, req, d, PickOf(resources, order, req, members, d))
  {
    var ids, part := PickOf(resources, order, req, members, d), Part(resources, members, d.cls);
    PickIsPart(resources, order, req, members, d);
    forall id | id in ids ensures IsCandidate(resources[id], resources, req, d.cls) {
      assert id in part;
    }
    forall i, j | 0 <= i < j < |ids| ensures ids[i] != ids[j] {
      assert Before(resources[ids[i]], resources[ids[j]], d);
    }
    DistinctSize(ids);
    if d.amountBased { ServedSize(resources, ids, d, Amount(req, d.cls)); }
  }

  lemma ServedSize(resources: map<ResourceId, Resource>, ids: seq<ResourceId>, d: Demand, amount: real)
    requires Known(resources, ids) && NoDup(ids) && (forall r :: CapacityFor(r, d.dim) == Supply(r, d.cls))
    requires One(resources, Ids(ids), d.cls, amount) || Two(resources, Ids(ids), d.cls, amount)
    ensures |ids| == 1 ||
            (|ids| == 2 && CapacityFor(resources[ids[0]], d.dim) + CapacityFor(resources[ids[1]], d.dim) >= amount)
    ensures |ids| == 2 ==> !One(resources, Ids(ids), d.cls, amount)
  {
    DistinctSize(ids);
    if One(resources, Ids(ids), d.cls, amount) {
      var a :| Ids(ids) == {a};
    } else {
      var a, b :| a != b && Ids(ids) == {a, b} && a in resources && b in resources &&
        Supply(resources[a], d.cls) + Supply(resources[b], d.cls) >= amount;
      assert |{a, b}| == 2;
      assert ids[0] in Ids(ids) && ids[1] in Ids(ids);
    }
  }

  ghost function ChoiceOf(resources: map<ResourceId, Resource>, order: seq<ResourceId>, req: Request,
                          members: set<ResourceId>, ds: seq<Demand>): (choice: seq<seq<ResourceId>>)
    requires forall k :: k in order ==> k in resources
    ensures |choice| == |ds|
    ensures forall i :: 0 <= i < |ds| ==> choice[i] == PickOf(resources, order, req, members, ds[i])
  {
    seq(|ds|, i requires 0 <= i < |ds| => PickOf(resources, order, req, members, ds[i]))
  }

  lemma {:induction false} FlattenMembers(choice: seq<seq<ResourceId>>, id: ResourceId)
    ensures id in Flatten(choice) <==> exists i :: 0 <= i < |choice| && id in choice[i]
  {
    if choice != [] {
      var n := |choice| - 1;
      FlattenMembers(choice[..n], id);
      if i :| 0 <= i < n && id in choice[..n][i] { assert id in choice[i]; }
      if i :| 0 <= i < |choice| && id in choice[i] { assert i == n || id in choice[..n][i]; }
    }
  }

  /** Every set that fulfils the request is the set of members of some choice. */
  lemma FulfillingIsChoice(reg: Registry, order: seq<ResourceId>, req: Request, members: set<ResourceId>)
    returns (choice: seq<seq<ResourceId>>)
    requires WellKeyed(reg.resources) && Enumerates(order, reg.resources) && Fulfils(reg, req, members)
    ensures IsChoice(reg.resources, req, Mandatory(Demands(req)), choice) && Ids(Flatten(choice)) == members
  {
    var ds := Mandatory(Demands(req));
    choice := ChoiceOf(reg.resources, order, req, members, ds);
    forall i | 0 <= i < |ds| ensures SelectionFor(reg.resources, req, ds[i], choice[i]) {
      assert ds[i] in ds;
      MandatoryIsDemanded(req, ds[i]);
      PickIsSelectionFor(reg.resources, order, req, members, ds[i]);
    }
    forall id ensures id in Flatten(choice) <==> id in members {
      MembersOfChoice(reg, order, req, members, choice, id);
    }
  }

  lemma MembersOfChoice(reg: Registry, order: seq<ResourceId>, req: Request, members: set<ResourceId>,
                        choice: seq<seq<ResourceId>>, id: ResourceId)
    requires WellKeyed(reg.resources) && Enumerates(order, reg.resources) && Fulfils(reg, req, members)
    requires choice == ChoiceOf(reg.resources, order, req, members, Mandatory(Demands(req)))
    ensures id in Flatten(choice) <==> id in members
  {
    var ds := Mandatory(Demands(req));
    FlattenMembers(choice, id);
    forall i | 0 <= i < |ds| ensures Ids(choice[i]) == Part(reg.resources, members, ds[i].cls) {
      PickIsPart(reg.resources, order, req, members, ds[i]);
    }
    if i :| 0 <= i < |choice| && id in choice[i] { assert id in Ids(choice[i]); }
    if id in members {
      var d := AskedForIsDemanded(req, reg.resources[id].cls);
      var i :| 0 <= i < |ds| && ds[i] == d;
      assert id in Ids(choice[i]);
    }
  }

  // ---- Compose ---------------------------------------------------------------------

  /** Whatever the caps: the members of a plan are distinct and fulfil the request. */
  lemma ComposeFulfils(reg: Registry, order: seq<ResourceId>, req: Request)
    requires WellKeyed(reg.resources) && Enumerates(order, reg.resources) && SelectMembers(reg, order, req).Some?
    ensures NoDup(SelectMembers(reg, order, req).value)
    ensures Fulfils(reg, req, Ids(SelectMembers(reg, order, req).value))
  {
    var ds, ids := Mandatory(Demands(req)), SelectMembers(reg, order, req).value;
    SelectedIsScored(reg, order, req, ds);
    var choice := CombosAreChoices(reg.resources, order, req, ds, ids);
    FeasibleIsFulfilling(reg, req, choice);
  }

  /** A listing of the members that ranks no higher than the answer. */
  ghost predicate Outranked(reg: Registry, members: set<ResourceId>, listed: seq<ResourceId>, ids: seq<ResourceId>)
  {
    && NoDup(listed) && Ids(listed) == members && Known(reg.resources, listed) && Known(reg.resources, ids)
    && RankOf(reg, listed) <= RankOf(reg, ids)
  }

  lemma AskedMeansDemands(req: Request)
    ensures Mandatory(Demands(req)) != [] <==> exists cls :: AskedFor(req, cls)
  {
    var ds := Mandatory(Demands(req));
    if ds != [] { MandatoryIsDemanded(req, ds[0]); }
    if cls :| AskedFor(req, cls) { var d := AskedForIsDemanded(req, cls); }
  }

  /** Below the caps, with non-negative capacities: a request is accepted exactly when it asks for
      something and some set of registered resources fulfils it; no such set ranks above the answer. */
  lemma ComposeAcceptsIff(reg: Registry, order: seq<ResourceId>, req: Request)
    requires WellKeyed(reg.resources) && Enumerates(order, reg.resources)
    requires NoCapHit(reg.resources, order, req, Mandatory(Demands(req)))
    requires forall k :: k in reg.resources ==> NonNegative(reg.resources[k].capacity)
    ensures SelectMembers(reg, order, req).Some? <==>
              (exists cls :: AskedFor(req, cls)) && exists members :: Fulfils(reg, req, members)
    ensures SelectMembers(reg, order, req).Some? ==>
              forall members :: Fulfils(reg, req, members) ==>
                exists listed :: Outranked(reg, members, listed, SelectMembers(reg, order, req).value)
  {
    var ds := Mandatory(Demands(req));
    ComposeCompleteAndOptimal(reg, order, req);
    AskedMeansDemands(req);
    if SelectMembers(reg, order, req).Some? { ComposeFulfils(reg, order, req); }
    forall members | Fulfils(reg, req, members)
      ensures exists choice :: FeasibleChoice(reg, req, ds, choice) && Ids(Flatten(choice)) == members &&
                NoDup(Flatten(choice))
    {
      var choice := FulfillingIsChoice(reg, order, req, members);
      FeasibleIsFulfilling(reg, req, choice);
      assert FeasibleChoice(reg, req, ds, choice);
    }
    if SelectMembers(reg, order, req).Some? {
      forall members | Fulfils(reg, req, members)
        ensures exists listed :: Outranked(reg, members, listed, SelectMembers(reg, order, req).value)
      {
        var choice :| FeasibleChoice(reg, req, ds, choice) && Ids(Flatten(choice)) == members &&
          NoDup(Flatten(choice));
        assert Outranked(reg, members, Flatten(choice), SelectMembers(reg, order, req).value);
      }
    }
  }

  // ---- what a plan supplies --------------------------------------------------------

  /** The capacities of the listed members of a class, added up in the class's own dimension. */
  ghost function Supplied(resources: map<ResourceId, Resource>, ids: seq<ResourceId>, cls: ResourceClass): real
    requires Known(resources, ids)
  {
    if ids == [] then 0.0 else
      var last := ids[|ids| - 1];
      Supplied(resources, ids[..|ids| - 1], cls) + if resources[last].cls == cls
        then Supply(resources[last], cls) else 0.0
  }

  lemma {:induction false} SuppliedIsTotal(resources: map<ResourceId, Resource>, ids: seq<ResourceId>, d: Demand)
    requires Known(resources, ids) && forall r :: CapacityFor(r, d.dim) == Supply(r, d.cls)
    ensures Supplied(resources, ids, d.cls) == Total(OfClass(Lookup(resources, ids), d.cls), d.dim)
  {
    if ids != [] {
      var front, last := ids[..|ids| - 1], ids[|ids| - 1];
      SuppliedIsTotal(resources, front, d);
      assert Lookup(resources, ids)[..|ids| - 1] == Lookup(resources, front);
      var some := OfClass(Lookup(resources, front), d.cls);
      if resources[last].cls == d.cls { assert (some + [resources[last]])[..|some|] == some; }
    }
  }

  lemma {:induction false} NothingSupplied(resources: map<ResourceId, Resource>, ids: seq<ResourceId>,
                                           cls: ResourceClass)
    requires Known(resources, ids) && forall id :: id in ids ==> resources[id].cls != cls
    ensures Supplied(resources, ids, cls) == 0.0
  {
    if ids != [] {
      assert ids[|ids| - 1] in ids;
      NothingSupplied(resources, ids[..|ids| - 1], cls);
    }
  }

  lemma EnoughSupplied(reg: Registry, req: Request, ids: seq<ResourceId>, cls: ResourceClass)
    requires Measured(cls) && Feasible(reg, req, Mandatory(Demands(req)), ids) && Fulfils(reg, req, Ids(ids))
    ensures Supplied(reg.resources, ids, cls) >= Amount(req, cls)
  {
    if AskedFor(req, cls) {
      var d := AskedForIsDemanded(req, cls);
      MandatoryIsDemanded(req, d);
      SuppliedIsTotal(reg.resources, ids, d);
    } else {
      forall id | id in ids ensures reg.resources[id].cls != cls { assert id in Ids(ids); }
      NothingSupplied(reg.resources, ids, cls);
    }
  }

  /** What every plan supplies, in the request's own fields. */
  ghost predicate Supplies(resources: map<ResourceId, Resource>, req: Request, ids: seq<ResourceId>)
  {
    && Known(resources, ids) && NoDup(ids)
    && Supplied(resources, ids, Compute) >= req.computeUnits as real
    && Supplied(resources, ids, HostMemory) >= req.hostMemory
    && Supplied(resources, ids, ExpandedMemory) >= req.expandedMemory
    && Supplied(resources, ids, Storage) >= req.storage
    && |Part(resources, Ids(ids), Accelerator)| >= req.acceleratorCount
    && |Part(resources, Ids(ids), NetworkEndpoint)| >= req.networkEndpoints
    && (forall cls :: cls in req.mandatory && (Measured(cls) || Counted(cls)) ==> Part(resources, Ids(ids), cls) != {})
    && (forall cls :: !AskedFor(req, cls) ==> Part(resources, Ids(ids), cls) == {})
  }

  lemma FulfilledIsSupplied(reg: Registry, req: Request, ids: seq<ResourceId>)
    requires NoDup(ids) && Feasible(reg, req, Mandatory(Demands(req)), ids) && Fulfils(reg, req, Ids(ids))
    ensures Supplies(reg.resources, req, ids)
  {
    EnoughSupplied(reg, req, ids, Compute);
    EnoughSupplied(reg, req, ids, HostMemory);
    EnoughSupplied(reg, req, ids, ExpandedMemory);
    EnoughSupplied(reg, req, ids, Storage);
    CountsSupplied(reg, req, Ids(ids));
    forall cls | cls in req.mandatory && (Measured(cls) || Counted(cls))
      ensures Part(reg.resources, Ids(ids), cls) != {} {
      assert Serves(reg.resources, req, Ids(ids), cls);
      ServedIsThere(reg.resources, req, Ids(ids), cls);
    }
  }

  lemma CountsSupplied(reg: Registry, req: Request, members: set<ResourceId>)
    requires Fulfils(reg, req, members)
    ensures |Part(reg.resources, members, Accelerator)| >= req.acceleratorCount
    ensures |Part(reg.resources, members, NetworkEndpoint)| >= req.networkEndpoints
  {
    if req.acceleratorCount > 0 { assert AskedFor(req, Accelerator); }
    if req.networkEndpoints > 0 { assert AskedFor(req, NetworkEndpoint); }
  }

  lemma ServedIsThere(resources: map<ResourceId, Resource>, req: Request, members: set<ResourceId>, cls: ResourceClass)
    requires (Measured(cls) || Counted(cls)) && Serves(resources, req, members, cls)
    ensures Part(resources, members, cls) != {}
  {
    var part := Part(resources, members, cls);
    if a :| part == {a} { assert a in part; }
    if a, b :| part == {a, b} { assert a in part; }
  }

  /** Every plan of Compose: its vertices fulfil the request and supply what it asks for, field by field. */
  lemma PlanSupplies(s: E.State, order: seq<ResourceId>, req: Request)
    requires WellKeyed(s.resources) && Enumerates(order, s.resources) && E.Compose(s, order, req).1.Some?
    ensures var plan := E.Compose(s, order, req).1.value;
            Fulfils(E.RegistryOf(s), req, Ids(plan.graph.vertices)) && Supplies(s.resources, req, plan.graph.vertices)
  {
    var reg := E.RegistryOf(s);
    var ids := SelectMembers(reg, order, req).value;
    ComposeFulfils(reg, order, req);
    SelectedIsScored(reg, order, req, Mandatory(Demands(req)));
    FulfilledIsSupplied(reg, req, ids);
    MembersAreVertices(s, req, ids);
  }
}
