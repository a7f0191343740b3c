/** When the search hits none of its caps, from the request and the number of candidates alone. */
module RequestCaps {
  import opened FabricTypes
  import opened Eligibility
  import opened Candidates
  import opened Enumeration
  import opened PlanGraph
  import opened Planner
  import opened PlannerTheorems
  import opened RequestMeaning
  import T = RequestTheorems

  ghost function Eligibles(resources: map<ResourceId, Resource>, req: Request, cls: ResourceClass): set<ResourceId>
  {
    set id | id in resources && Check(resources[id], req).Eligible? && resources[id].cls == cls
  }

  /** How many selections n candidates allow at most. */
  ghost function Ways(n: nat, req: Request, cls: ResourceClass): nat
  {
    if Counted(cls) then Binomial(n, Number(req, cls))
    else if Amount(req, cls) > 0.0 then n + Binomial(n, 2) else n
  }

  /** What the class multiplies the number of combinations by. */
  ghost function Factor(resources: map<ResourceId, Resource>, req: Request, cls: ResourceClass): (f: nat)
    ensures f >= 1
  {
    var ways := Ways(|Eligibles(resources, req, cls)|, req, cls);
    if AskedFor(req, cls) && ways > 1 then ways else 1
  }

  /** At most 8 candidates and 24 selections for each class asked for, and at most 400 combinations. */
  ghost predicate Roomy(resources: map<ResourceId, Resource>, req: Request)
  {
    && (forall cls :: AskedFor(req, cls) ==>
         && |Eligibles(resources, req, cls)| <= 8
         && Ways(|Eligibles(resources, req, cls)|, req, cls) <= 24)
    && Factor(resources, req, Compute) * Factor(resources, req, Accelerator) * Factor(resources, req, HostMemory) *
         Factor(resources, req, ExpandedMemory) * Factor(resources, req, Storage) *
         Factor(resources, req, NetworkEndpoint) <= 400
  }

  // ---- one class ---------------------------------------------------------------

  ghost function IdsOf(items: seq<Resource>): (ids: seq<ResourceId>)
    ensures |ids| == |items| && forall i :: 0 <= i < |items| ==> ids[i] == items[i].id
  {
    seq(|items|, i requires 0 <= i < |items| => items[i].id)
  }

  lemma CandidateCount(resources: map<ResourceId, Resource>, order: seq<ResourceId>, req: Request, d: Demand)
    requires WellKeyed(resources) && Enumerates(order, resources)
    ensures |Sorted(order, resources, req, d)| == |Eligibles(resources, req, d.cls)|
  {
    var items := Sorted(order, resources, req, d);
    SortedCandidates(order, resources, req, d);
    var ids := IdsOf(items);
    assert NoDup(ids);
    T.DistinctSize(ids);
    forall id ensures id in T.Ids(ids) <==> id in Eligibles(resources, req, d.cls) {
      if id in ids {
        var i :| 0 <= i < |ids| && ids[i] == id;
        assert items[i] in items;
      }
      if id in Eligibles(resources, req, d.cls) {
        assert IsCandidate(resources[id], resources, req, d.cls);
        var i :| 0 <= i < |items| && items[i] == resources[id];
        assert ids[i] == id;
      }
    }
    assert T.Ids(ids) == Eligibles(resources, req, d.cls);
  }

  lemma {:induction false} SinglesLength(k: nat, i: nat)
    requires i <= k
    ensures |Singles(k, i)| == k - i
    decreases k - i
  {
    if i < k { SinglesLength(k, i + 1); }
  }

  lemma {:induction false} PairRowLength(items: seq<Resource>, d: Demand, k: nat, i: nat, j: nat)
    requires i < k <= |items| && j <= k
    ensures |PairRow(items, d, k, i, j)| <= k - j
    decreases k - j
  {
    if j < k { PairRowLength(items, d, k, i, j + 1); }
  }

  lemma {:induction false} BinomialOne(n: nat)
    ensures Binomial(n, 1) == n
  {
    if n > 0 { BinomialOne(n - 1); }
  }

  lemma {:induction false} PairsLength(items: seq<Resource>, d: Demand, k: nat, i: nat)
    requires i <= k <= |items|
    ensures |Pairs(items, d, k, i)| <= Binomial(k - i, 2)
    decreases k - i
  {
    if i < k {
      PairRowLength(items, d, k, i, i + 1);
      PairsLength(items, d, k, i + 1);
      BinomialOne(k - i - 1);
      assert Binomial(k - i, 2) == Binomial(k - i - 1, 1) + Binomial(k - i - 1, 2);
    }
  }

  lemma SelectionCount(req: Request, d: Demand, items: seq<Resource>)
    requires Demanded(req, d) && |items| <= TOP_K
    ensures |Selections(items, d)| <= Ways(|items|, req, d.cls)
  {
    var k := |items|;
    CombosCount(k, 0, Want(d));
    SinglesLength(k, 0);
    PairsLength(items, d, k, 0);
  }

  // ---- all classes -------------------------------------------------------------

  ghost function Mul(fs: seq<nat>): nat { if fs == [] then 1 else Mul(fs[..|fs| - 1]) * fs[|fs| - 1] }

  lemma PositiveProduct(a: nat, b: nat)
    requires a >= 1 && b >= 1
    ensures a * b >= 1 && a * b >= a && a * b >= b
  {
  }

  lemma {:induction false} MulPositive(fs: seq<nat>)
    requires forall i :: 0 <= i < |fs| ==> fs[i] >= 1
    ensures Mul(fs) >= 1
  {
    if fs != [] {
      MulPositive(fs[..|fs| - 1]);
      PositiveProduct(Mul(fs[..|fs| - 1]), fs[|fs| - 1]);
    }
  }

  lemma {:induction false} MulPrefix(fs: seq<nat>, n: nat)
    requires n <= |fs| && forall i :: 0 <= i < |fs| ==> fs[i] >= 1
    ensures Mul(fs[..n]) <= Mul(fs)
    decreases |fs|
  {
    if n == |fs| {
      assert fs[..n] == fs;
    } else {
      var front := fs[..|fs| - 1];
      MulPrefix(front, n);
      assert front[..n] == fs[..n];
      MulPositive(front);
      PositiveProduct(Mul(front), fs[|fs| - 1]);
    }
  }

  lemma Associate(a: nat, b: nat, c: nat)
    ensures a * b * c == a * (b * c)
  {
  }

  lemma {:induction false} MulCons(a: nat, fs: seq<nat>)
    ensures Mul([a] + fs) == a * Mul(fs)
  {
    var all := [a] + fs;
    if fs == [] {
      assert all[..0] == [];
    } else {
      var front, last := fs[..|fs| - 1], fs[|fs| - 1];
      MulCons(a, front);
      assert all[..|all| - 1] == [a] + front;
      Associate(a, Mul(front), last);
    }
  }

  ghost function Factors(resources: map<ResourceId, Resource>, req: Request, ds: seq<Demand>): (fs: seq<nat>)
    ensures |fs| == |ds| && forall i :: 0 <= i < |ds| ==> fs[i] == Factor(resources, req, ds[i].cls) >= 1
  {
    seq(|ds|, i requires 0 <= i < |ds| => Factor(resources, req, ds[i].cls))
  }

  lemma OneMoreFactor(f: nat, few: seq<nat>, all: seq<nat>)
    requires f >= 1 && Mul(few) <= Mul(all)
    ensures Mul(few) <= Mul([f] + all) && Mul([f] + few) <= Mul([f] + all)
  {
    MulCons(f, few);
    MulCons(f, all);
    Scale(f, Mul(few), Mul(all));
  }

  lemma Scale(f: nat, p: nat, q: nat)
    requires f >= 1 && p <= q
    ensures p <= f * q && f * p <= f * q
  {
    assert f * q - f * p == f * (q - p) >= 0;
    assert f * q - q == (f - 1) * q >= 0;
  }

  lemma FactorsCons(resources: map<ResourceId, Resource>, req: Request, d: Demand, ds: seq<Demand>)
    ensures Factors(resources, req, [d] + ds) == [Factor(resources, req, d.cls)] + Factors(resources, req, ds)
  {
  }

  lemma {:induction false} FewerDemands(resources: map<ResourceId, Resource>, req: Request, ds: seq<Demand>)
    ensures Mul(Factors(resources, req, Mandatory(ds))) <= Mul(Factors(resources, req, ds))
  {
    if ds != [] {
      var d, rest := ds[0], ds[1..];
      FewerDemands(resources, req, rest);
      OneMoreFactor(Factor(resources, req, d.cls), Factors(resources, req, Mandatory(rest)),
                    Factors(resources, req, rest));
      FactorsCons(resources, req, d, rest);
      FactorsCons(resources, req, d, Mandatory(rest));
      assert ds == [d] + rest;
      assert Mandatory(ds) == if d.mandatory then [d] + Mandatory(rest) else Mandatory(rest);
    }
  }

  lemma MulSix(a: nat, b: nat, c: nat, d: nat, e: nat, f: nat)
    ensures Mul([a, b, c, d, e, f]) == a * b * c * d * e * f
  {
    assert [a, b, c, d, e, f][..5] == [a, b, c, d, e] && [a, b, c, d, e][..4] == [a, b, c, d];
    assert [a, b, c, d][..3] == [a, b, c] && [a, b, c][..2] == [a, b] && [a, b][..1] == [a] && [a][..0] == [];
    assert Mul([a]) == a;
    assert Mul([a, b]) == a * b;
    assert Mul([a, b, c]) == a * b * c;
    assert Mul([a, b, c, d]) == a * b * c * d;
    assert Mul([a, b, c, d, e]) == a * b * c * d * e;
  }

  lemma SixFactors(resources: map<ResourceId, Resource>, req: Request)
    requires Roomy(resources, req)
    ensures Mul(Factors(resources, req, Demands(req))) <= COMBO_CAP
  {
    var a, b, c := Factor(resources, req, Compute), Factor(resources, req, Accelerator),
      Factor(resources, req, HostMemory);
    var d, e, f :=
      Factor(resources, req, ExpandedMemory), Factor(resources, req, Storage), Factor(resources, req, NetworkEndpoint);
    assert Factors(resources, req, Demands(req)) == [a, b, c, d, e, f];
    MulSix(a, b, c, d, e, f);
  }

  /** The first n lists of picks, against the first n factors. */
  lemma {:induction false} CountBound(fs: seq<nat>, sels: seq<seq<seq<ResourceId>>>, n: nat)
    requires n <= |fs| == |sels| && forall i :: 0 <= i < |fs| ==> |sels[i]| <= fs[i]
    ensures Count(sels[..n]) <= Mul(fs[..n])
  {
    if n > 0 {
      CountBound(fs, sels, n - 1);
      assert sels[..n][..n - 1] == sels[..n - 1] && fs[..n][..n - 1] == fs[..n - 1];
      ProductMono(Count(sels[..n - 1]), Mul(fs[..n - 1]), |sels[n - 1]|);
      ProductMono(|sels[n - 1]|, fs[n - 1], Mul(fs[..n - 1]));
    }
  }

  /** Then no cap is hit. */
  lemma RoomyHitsNoCap(resources: map<ResourceId, Resource>, order: seq<ResourceId>, req: Request)
    requires WellKeyed(resources) && Enumerates(order, resources) && Roomy(resources, req)
    ensures NoCapHit(resources, order, req, Mandatory(Demands(req)))
  {
    var ds := Mandatory(Demands(req));
    var sels := PickLists(resources, order, req, ds);
    forall d | d in ds
      ensures |Sorted(order, resources, req, d)| <= TOP_K
      ensures |Selections(Sorted(order, resources, req, d), d)| <= PICK_CAP
      ensures |Picks(Sorted(order, resources, req, d), d, PICK_CAP)| <= Factor(resources, req, d.cls)
    {
      MandatoryIsDemanded(req, d);
      CandidateCount(resources, order, req, d);
      SelectionCount(req, d, Sorted(order, resources, req, d));
    }
    forall n | 0 <= n <= |sels| ensures Count(sels[..n]) <= COMBO_CAP {
      forall i | 0 <= i < |ds| ensures |sels[i]| <= Factor(resources, req, ds[i].cls) { assert ds[i] in ds; }
      CountBound(Factors(resources, req, ds), sels, n);
      MulPrefix(Factors(resources, req, ds), n);
      FewerDemands(resources, req, Demands(req));
      SixFactors(resources, req);
    }
  }

  /** Compose against the request, with no word about the search: when there is room, a request is accepted
      exactly when it asks for something and some set of registered resources fulfils it. */
  lemma RoomyRequestAcceptedIff(reg: Registry, order: seq<ResourceId>, req: Request)
    requires WellKeyed(reg.resources) && Enumerates(order, reg.resources) && Roomy(reg.resources, req)
    requires forall k :: k in reg.resources ==> NonNegative(reg.resources[k].capacity)
    ensures SelectMembers(reg, order, req).Some? <==>
              (exists cls :: AskedFor(req, cls)) && exists members :: Fulfils(reg, req, members)
  {
    RoomyHitsNoCap(reg.resources, order, req);
    T.ComposeAcceptsIff(reg, order, req);
  }

  // ---- how far the search goes -----------------------------------------------------

  /** Only the first 8 candidates of a class are looked at. */
  lemma OnlyTheFirstEight(items: seq<Resource>, d: Demand, c: seq<nat>)
    requires c in Selections(items, d)
    ensures forall i :: 0 <= i < |c| ==> c[i] < 8
  {
    SelectionsExact(items, d, c);
    SelectionWithin(items, d, c);
  }

  lemma SelectionWithin(items: seq<Resource>, d: Demand, c: seq<nat>)
    requires IsSelection(items, d, c)
    ensures forall i :: 0 <= i < |c| ==> c[i] < 8
  {
    if d.amountBased {
      assert |c| <= 2;
    } else {
      IncreasingFits(c, 0, Width(items));
    }
  }

  /** At most 24 selections of a class are tried. */
  lemma PicksAreBounded(items: seq<Resource>, d: Demand)
    ensures |Picks(items, d, PICK_CAP)| <= 24
  {
  }

  /** At most 400 combinations are kept. */
  lemma CombinationsAreBounded(sels: seq<seq<seq<ResourceId>>>)
    ensures |Product(sels)| <= 400
  {
  }
}
