/** The candidates of one class, in the order the planner tries them.

    The resource table is a hash map, so its iteration order is arbitrary: `order` is any
    enumeration of its keys.  Sorting by a strict total order makes the result independent
    of that order. */
module Candidates {
  import opened FabricTypes
  import opened Eligibility

  ghost predicate Enumerates(order: seq<ResourceId>, resources: map<ResourceId, Resource>)
  {
    && (forall k :: k in order <==> k in resources)
    && (forall i, j :: 0 <= i < j < |order| ==> order[i] != order[j])
  }

  /** Eligible resources of a class, in iteration order. */
  function Gather(order: seq<ResourceId>, resources: map<ResourceId, Resource>, req: Request,
                  cls: ResourceClass): seq<Resource>
    requires forall k :: k in order ==> k in resources
  {
    if order == [] then [] else
      var front := Gather(order[..|order| - 1], resources, req, cls);
      var r := resources[order[|order| - 1]];
      if Check(r, req).Eligible? && r.cls == cls then front + [r] else front
  }

  function Insert(r: Resource, s: seq<Resource>, d: Demand): seq<Resource>
  {
    if s == [] || Before(r, s[0], d) then [r] + s else [s[0]] + Insert(r, s[1..], d)
  }

  /** The result of the sort call: ascending by `Before`. */
  function Sort(s: seq<Resource>, d: Demand): seq<Resource>
  {
    if s == [] then [] else Insert(s[0], Sort(s[1..], d), d)
  }

  function Sorted(order: seq<ResourceId>, resources: map<ResourceId, Resource>, req: Request, d: Demand): seq<Resource>
    requires forall k :: k in order ==> k in resources
  {
    Sort(Gather(order, resources, req, d.cls), d)
  }

  ghost predicate DistinctIds(s: seq<Resource>)
  {
    forall i, j :: 0 <= i < j < |s| ==> s[i].id != s[j].id
  }

  ghost predicate Ascending(s: seq<Resource>, d: Demand)
  {
    forall i, j :: 0 <= i < j < |s| ==> Before(s[i], s[j], d)
  }

  ghost predicate SameElements(s: seq<Resource>, t: seq<Resource>)
  {
    forall r :: r in s <==> r in t
  }

  // ---- the sort ----------------------------------------------------------------

  lemma {:induction false} InsertElements(r: Resource, s: seq<Resource>, d: Demand)
    ensures forall x :: x in Insert(r, s, d) <==> x == r || x in s
  {
    if s != [] && !Before(r, s[0], d) {
      InsertElements(r, s[1..], d);
      assert s == [s[0]] + s[1..];
    }
  }

  lemma {:induction false} InsertAscending(r: Resource, s: seq<Resource>, d: Demand)
    requires Ascending(s, d) && forall x :: x in s ==> x.id != r.id
    ensures Ascending(Insert(r, s, d), d)
  {
    if s != [] && !Before(r, s[0], d) {
      InsertAscending(r, s[1..], d);
      InsertElements(r, s[1..], d);
      var t := Insert(r, s[1..], d);
      assert forall x :: x in t ==> Before(s[0], x, d);
    }
  }

  lemma {:induction false} SortElements(s: seq<Resource>, d: Demand)
    ensures SameElements(Sort(s, d), s)
  {
    if s != [] {
      SortElements(s[1..], d);
      InsertElements(s[0], Sort(s[1..], d), d);
      assert s == [s[0]] + s[1..];
    }
  }

  lemma {:induction false} SortAscending(s: seq<Resource>, d: Demand)
    requires DistinctIds(s)
    ensures Ascending(Sort(s, d), d)
  {
    if s != [] {
      SortAscending(s[1..], d);
      SortElements(s[1..], d);
      InsertAscending(s[0], Sort(s[1..], d), d);
    }
  }

  /** A strictly ascending arrangement of a set of resources is unique. */
  lemma {:induction false} AscendingUnique(s: seq<Resource>, t: seq<Resource>, d: Demand)
    requires Ascending(s, d) && Ascending(t, d) && SameElements(s, t)
    ensures s == t
  {
    assert |s| > 0 ==> s[0] in t;
    assert |t| > 0 ==> t[0] in s;
    if s != [] {
      assert s[0] == t[0];
      forall r ensures r in s[1..] <==> r in t[1..] {
        assert r in s[1..] ==> r in s && r != s[0];
        assert r in t[1..] ==> r in t && r != t[0];
        assert r in s && r != s[0] ==> r in s[1..];
        assert r in t && r != t[0] ==> r in t[1..];
      }
      AscendingUnique(s[1..], t[1..], d);
      assert s == [s[0]] + s[1..] && t == [t[0]] + t[1..];
    }
  }

  // ---- candidates --------------------------------------------------------------

  ghost predicate IsCandidate(r: Resource, resources: map<ResourceId, Resource>, req: Request, cls: ResourceClass)
  {
    r.id in resources && resources[r.id] == r && Check(r, req).Eligible? && r.cls == cls
  }

  lemma {:induction false} GatherElements(order: seq<ResourceId>, resources: map<ResourceId, Resource>, req: Request,
                                          cls: ResourceClass)
    requires WellKeyed(resources) && forall k :: k in order ==> k in resources
    requires forall i, j :: 0 <= i < j < |order| ==> order[i] != order[j]
    ensures DistinctIds(Gather(order, resources, req, cls))
    ensures forall r :: r in Gather(order, resources, req, cls) <==>
        IsCandidate(r, resources, req, cls) && r.id in order
  {
    if order != [] {
      var front, last := order[..|order| - 1], order[|order| - 1];
      GatherElements(front, resources, req, cls);
      assert order == front + [last];
      assert last !in front;
    }
  }

  /** The sorted candidates are exactly the eligible resources of the class, strictly ordered. */
  lemma SortedCandidates(order: seq<ResourceId>, resources: map<ResourceId, Resource>, req: Request, d: Demand)
    requires WellKeyed(resources) && Enumerates(order, resources)
    ensures var s := Sorted(order, resources, req, d);
            && Ascending(s, d) && DistinctIds(s)
            && (forall r :: r in s <==> IsCandidate(r, resources, req, d.cls))
  {
    var g := Gather(order, resources, req, d.cls);
    GatherElements(order, resources, req, d.cls);
    SortElements(g, d);
    SortAscending(g, d);
  }

  /** Hash-order independence of the candidate list. */
  lemma SortedIndependentOfOrder(order: seq<ResourceId>, order': seq<ResourceId>,
                                 resources: map<ResourceId, Resource>, req: Request, d: Demand)
    requires WellKeyed(resources) && Enumerates(order, resources) && Enumerates(order', resources)
    ensures Sorted(order, resources, req, d) == Sorted(order', resources, req, d)
  {
    SortedCandidates(order, resources, req, d);
    SortedCandidates(order', resources, req, d);
    AscendingUnique(Sorted(order, resources, req, d), Sorted(order', resources, req, d), d);
  }
}
