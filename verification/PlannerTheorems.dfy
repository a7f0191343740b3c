/** The planner is sound, complete below its caps, optimal, and independent of hash order. */
module PlannerTheorems {
  import opened FabricTypes
  import opened Eligibility
  import opened Candidates
  import opened Enumeration
  import opened PlanGraph
  import opened Planner

  // ---- the product as choices --------------------------------------------------

  function Flatten(choice: seq<seq<ResourceId>>): seq<ResourceId>
  {
    if choice == [] then [] else Flatten(choice[..|choice| - 1]) + choice[|choice| - 1]
  }

  ghost predicate Picked(choice: seq<seq<ResourceId>>, sels: seq<seq<seq<ResourceId>>>)
  {
    |choice| == |sels| && forall i :: 0 <= i < |sels| ==> choice[i] in sels[i]
  }

  ghost predicate NoDup(s: seq<ResourceId>)
  {
    forall i, j :: 0 <= i < j < |s| ==> s[i] != s[j]
  }

  ghost predicate PicksDistinct(sels: seq<seq<seq<ResourceId>>>)
  {
    forall i, p :: 0 <= i < |sels| && p in sels[i] ==> NoDup(p)
  }

  lemma NoDupAppend(a: seq<ResourceId>, b: seq<ResourceId>)
    ensures NoDup(a + b) <==> NoDup(a) && NoDup(b) && !Shares(a, b)
  {
    if NoDup(a + b) {
      assert forall i :: 0 <= i < |a| ==> a[i] == (a + b)[i];
      assert forall i :: 0 <= i < |b| ==> b[i] == (a + b)[|a| + i];
      assert forall i, j :: 0 <= i < |a| && 0 <= j < |b| ==> a[i] != b[j];
    }
    if NoDup(a) && NoDup(b) && !Shares(a, b) {
      forall i, j | 0 <= i < j < |a + b| ensures (a + b)[i] != (a + b)[j] {
        if i < |a| <= j { assert b[j - |a|] !in a; }
      }
    }
  }

  /** Every combination is one pick per class, laid end to end, with no id twice. */
  lemma {:induction false} ProductSound(sels: seq<seq<seq<ResourceId>>>,
                                        c: seq<ResourceId>) returns (choice: seq<seq<ResourceId>>)
    requires c in Product(sels) && PicksDistinct(sels)
    ensures Picked(choice, sels) && c == Flatten(choice) && NoDup(c)
  {
    if sels == [] {
      choice := [];
    } else {
      var n := |sels| - 1;
      var combos, picks := Product(sels[..n]), sels[n];
      ExpandExact(combos, picks, 0, c);
      var i, m :| 0 <= i < |combos| && 0 <= m < |picks| && !Shares(combos[i], picks[m]) && c == combos[i] + picks[m];
      var front := ProductSound(sels[..n], combos[i]);
      choice := front + [picks[m]];
      assert choice[..n] == front;
      assert picks[m] in sels[n];
      NoDupAppend(combos[i], picks[m]);
    }
  }

  /** How many combinations the picks allow, repeats included. */
  function Count(sels: seq<seq<seq<ResourceId>>>): nat
  {
    if sels == [] then 1 else Count(sels[..|sels| - 1]) * |sels[|sels| - 1]|
  }

  ghost predicate Uncapped(sels: seq<seq<seq<ResourceId>>>)
  {
    forall n :: 0 <= n <= |sels| ==> Count(sels[..n]) <= COMBO_CAP
  }

  lemma {:induction false} RowSize(combo: seq<ResourceId>, picks: seq<seq<ResourceId>>, j: nat)
    requires j <= |picks|
    ensures |Row(combo, picks, j)| <= |picks| - j
    decreases |picks| - j
  {
    if j < |picks| { RowSize(combo, picks, j + 1); }
  }

  lemma {:induction false} ExpandSize(combos: seq<seq<ResourceId>>, picks: seq<seq<ResourceId>>, i: nat)
    requires i <= |combos|
    ensures |Expand(combos, picks, i)| <= (|combos| - i) * |picks|
    decreases |combos| - i
  {
    if i < |combos| {
      RowSize(combos[i], picks, 0);
      ExpandSize(combos, picks, i + 1);
      assert (|combos| - i) * |picks| == |picks| + (|combos| - (i + 1)) * |picks|;
    }
  }

  lemma UncappedPrefix(sels: seq<seq<seq<ResourceId>>>)
    requires Uncapped(sels) && sels != []
    ensures Uncapped(sels[..|sels| - 1]) && Count(sels) <= COMBO_CAP
  {
    var front := sels[..|sels| - 1];
    forall n | 0 <= n <= |front| ensures Count(front[..n]) <= COMBO_CAP {
      assert front[..n] == sels[..n];
    }
    assert sels[..|sels|] == sels;
  }

  lemma ProductMono(a: nat, b: nat, c: nat)
    requires a <= b
    ensures a * c <= b * c
  {
  }

  lemma {:induction false} ProductSize(sels: seq<seq<seq<ResourceId>>>)
    ensures |Product(sels)| <= Count(sels)
  {
    if sels != [] {
      var n := |sels| - 1;
      ProductSize(sels[..n]);
      ExpandSize(Product(sels[..n]), sels[n], 0);
      ProductMono(|Product(sels[..n])|, Count(sels[..n]), |sels[n]|);
    }
  }

  /** Below the cap, every way of picking one per class without repeats is a combination. */
  lemma {:induction false} ProductComplete(sels: seq<seq<seq<ResourceId>>>, choice: seq<seq<ResourceId>>)
    requires Picked(choice, sels) && NoDup(Flatten(choice)) && Uncapped(sels)
    ensures Flatten(choice) in Product(sels)
  {
    if sels != [] {
      var n := |sels| - 1;
      var combos, picks := Product(sels[..n]), sels[n];
      var front, last := choice[..n], choice[n];
      NoDupAppend(Flatten(front), last);
      UncappedPrefix(sels);
      ProductComplete(sels[..n], front);
      ProductSize(sels[..n]);
      ExpandSize(combos, picks, 0);
      ProductMono(|combos|, Count(sels[..n]), |picks|);
      var i :| 0 <= i < |combos| && combos[i] == Flatten(front);
      assert last in sels[n];
      var m :| 0 <= m < |picks| && picks[m] == last;
      ExpandExact(combos, picks, 0, Flatten(choice));
    }
  }

  // ---- demands -----------------------------------------------------------------

  ghost predicate DistinctClasses(ds: seq<Demand>)
  {
    forall i, j :: 0 <= i < j < |ds| ==> ds[i].cls != ds[j].cls
  }

  lemma {:induction false} MandatoryProperties(ds: seq<Demand>)
    requires DistinctClasses(ds)
    ensures DistinctClasses(Mandatory(ds))
    ensures forall d :: d in Mandatory(ds) <==> d in ds && d.mandatory
  {
    if ds != [] {
      MandatoryProperties(ds[1..]);
      assert forall d :: d in ds <==> d == ds[0] || d in ds[1..];
      assert forall d :: d in ds[1..] ==> d.cls != ds[0].cls;
    }
  }

  /** One selection per demand. */
  ghost predicate IsChoice(resources: map<ResourceId, Resource>, req: Request, ds: seq<Demand>,
                           choice: seq<seq<ResourceId>>)
  {
    |choice| == |ds| && forall i :: 0 <= i < |ds| ==> SelectionFor(resources, req, ds[i], choice[i])
  }

  lemma SelectionNoDup(resources: map<ResourceId, Resource>, req: Request, d: Demand, ids: seq<ResourceId>)
    requires SelectionFor(resources, req, d, ids)
    ensures NoDup(ids) && ids != []
  {
    forall i, j | 0 <= i < j < |ids| ensures ids[i] != ids[j] {
      assert ids[i] in ids && ids[j] in ids;
      assert Before(resources[ids[i]], resources[ids[j]], d);
    }
  }

  /** The members of a choice are registered and eligible, each of the class it was picked for. */
  lemma {:induction false} ChoiceMembers(resources: map<ResourceId, Resource>, req: Request, ds: seq<Demand>,
                                         choice: seq<seq<ResourceId>>)
    requires IsChoice(resources, req, ds, choice) && DistinctClasses(ds)
    ensures NoDup(Flatten(choice)) && (ds != [] ==> Flatten(choice) != [])
    ensures forall id :: id in Flatten(choice) ==>
              id in resources && Check(resources[id], req).Eligible? &&
                exists d :: d in ds && d.cls == resources[id].cls
  {
    if ds != [] {
      var n := |ds| - 1;
      ChoiceMembers(resources, req, ds[..n], choice[..n]);
      SelectionNoDup(resources, req, ds[n], choice[n]);
      NoDupAppend(Flatten(choice[..n]), choice[n]);
      assert forall d :: d in ds[..n] ==> d in ds && d.cls != ds[n].cls;
    }
  }

  // ---- picks and choices -------------------------------------------------------

  lemma PickListsAreSelections(resources: map<ResourceId, Resource>, order: seq<ResourceId>, req: Request,
                               ds: seq<Demand>)
    requires WellKeyed(resources) && Enumerates(order, resources)
    ensures var sels := PickLists(resources, order, req, ds);
            forall i, p :: 0 <= i < |ds| && p in sels[i] ==> SelectionFor(resources, req, ds[i], p)
  {
    var sels := PickLists(resources, order, req, ds);
    forall i, p | 0 <= i < |ds| && p in sels[i] ensures SelectionFor(resources, req, ds[i], p) {
      var items := Sorted(order, resources, req, ds[i]);
      SelectionsInRange(items, ds[i]);
      var m :| 0 <= m < |sels[i]| && sels[i][m] == p;
      var c := Capped(Selections(items, ds[i]), PICK_CAP)[m];
      SelectionsExact(items, ds[i], c);
      PickIsSelection(resources, order, req, ds[i], c);
    }
  }

  lemma CombosAreChoices(resources: map<ResourceId, Resource>, order: seq<ResourceId>, req: Request, ds: seq<Demand>,
                         c: seq<ResourceId>)
    returns (choice: seq<seq<ResourceId>>)
    requires WellKeyed(resources) && Enumerates(order, resources)
    requires c in Product(PickLists(resources, order, req, ds))
    ensures IsChoice(resources, req, ds, choice) && c == Flatten(choice)
  {
    var sels := PickLists(resources, order, req, ds);
    PickListsAreSelections(resources, order, req, ds);
    forall i, p | 0 <= i < |sels| && p in sels[i] ensures NoDup(p) {
      SelectionNoDup(resources, req, ds[i], p);
    }
    choice := ProductSound(sels, c);
  }

  /** No cap is hit: at most TOP_K candidates and PICK_CAP selections per mandatory class, and at
      most COMBO_CAP combinations after every class. */
  ghost predicate NoCapHit(resources: map<ResourceId, Resource>, order: seq<ResourceId>, req: Request, ds: seq<Demand>)
    requires forall k :: k in order ==> k in resources
  {
    && (forall d :: d in ds ==>
          && |Sorted(order, resources, req, d)| <= TOP_K
          && |Selections(Sorted(order, resources, req, d), d)| <= PICK_CAP)
    && Uncapped(PickLists(resources, order, req, ds))
  }

  lemma ChoicesAreCombos(resources: map<ResourceId, Resource>, order: seq<ResourceId>, req: Request, ds: seq<Demand>,
                         choice: seq<seq<ResourceId>>)
    requires WellKeyed(resources) && Enumerates(order, resources)
    requires NoCapHit(resources, order, req, ds) && IsChoice(resources, req, ds, choice)
    requires DistinctClasses(ds) && forall d :: d in ds && d.amountBased ==> d.count == 0
    ensures Flatten(choice) in Product(PickLists(resources, order, req, ds))
  {
    var sels := PickLists(resources, order, req, ds);
    forall i | 0 <= i < |ds| ensures choice[i] in sels[i] {
      var items := Sorted(order, resources, req, ds[i]);
      assert ds[i] in ds;
      SelectionsInRange(items, ds[i]);
      SelectionIsEnumerated(resources, order, req, ds[i], choice[i]);
      var c :| c in Selections(items, ds[i]) && InRange(c, |items|) && Ids(items, c) == choice[i];
      var m :| 0 <= m < |Selections(items, ds[i])| && Selections(items, ds[i])[m] == c;
      assert sels[i][m] == choice[i];
    }
    ChoiceMembers(resources, req, ds, choice);
    ProductComplete(sels, choice);
  }

  /** What the planner assumes of its demand list, and the demand table provides. */
  ghost predicate DemandList(ds: seq<Demand>)
  {
    DistinctClasses(ds) && forall d :: d in ds && d.amountBased ==> d.count == 0
  }

  lemma MandatoryDemandList(req: Request)
    ensures DemandList(Mandatory(Demands(req)))
    ensures forall d :: d in Mandatory(Demands(req)) <==> d in Demands(req) && d.mandatory
  {
    MandatoryProperties(Demands(req));
  }

  // ---- soundness ---------------------------------------------------------------

  /** What a successful plan promises for demands `ds`, stated without the search. */
  ghost predicate SoundMembers(reg: Registry, req: Request, ds: seq<Demand>, ids: seq<ResourceId>)
  {
    && ids != [] && NoDup(ids)
    && (forall id :: id in ids ==> id in reg.resources && Check(reg.resources[id], req).Eligible?)
    && var ms := Lookup(reg.resources, ids);
    && (forall d :: d in ds ==> MeetsDemand(OfClass(ms, d.cls), d))
    && PairwiseOk(reg, req, ms)
    && TopologyMeaning(ms, req)
    && Coherent(ms, req)
  }

  lemma SelectedIsScored(reg: Registry, order: seq<ResourceId>, req: Request, ds: seq<Demand>)
    requires forall k :: k in order ==> k in reg.resources
    requires SelectFor(reg, order, req, ds).Some?
    ensures var ids := SelectFor(reg, order, req, ds).value;
            ds != [] && ids in Product(PickLists(reg.resources, order, req, ds)) && Feasible(reg, req, ds, ids)
  {
    var combos := Product(PickLists(reg.resources, order, req, ds));
    var i := ArgMax(Scores(reg, req, ds, combos)).value;
    assert Score(reg, req, ds, combos[i]).Some?;
  }

  lemma SelectSoundness(reg: Registry, order: seq<ResourceId>, req: Request, ds: seq<Demand>)
    requires WellKeyed(reg.resources) && Enumerates(order, reg.resources) && DemandList(ds)
    requires SelectFor(reg, order, req, ds).Some?
    ensures SoundMembers(reg, req, ds, SelectFor(reg, order, req, ds).value)
  {
    var ids := SelectFor(reg, order, req, ds).value;
    SelectedIsScored(reg, order, req, ds);
    var choice := CombosAreChoices(reg.resources, order, req, ds, ids);
    ChoiceMembers(reg.resources, req, ds, choice);
    var ms := Lookup(reg.resources, ids);
    assert Registered(reg, ms);
    GraphCheckIsPairwise(reg, req, ms);
    TopologyCheckIsMeaning(ms, req);
  }

  /** Compose soundness: a plan's members are distinct, registered, eligible, pairwise linked
      within bounds, meet every mandatory demand and satisfy the topology constraint. */
  lemma ComposeSoundness(reg: Registry, order: seq<ResourceId>, req: Request)
    requires WellKeyed(reg.resources) && Enumerates(order, reg.resources)
    requires SelectMembers(reg, order, req).Some?
    ensures SoundMembers(reg, req, Mandatory(Demands(req)), SelectMembers(reg, order, req).value)
  {
    MandatoryDemandList(req);
    SelectSoundness(reg, order, req, Mandatory(Demands(req)));
  }

  // ---- completeness and optimality ---------------------------------------------

  ghost predicate FirstMaximal(reg: Registry, req: Request, ds: seq<Demand>, combos: seq<seq<ResourceId>>, i: nat)
  {
    && i < |combos| && Feasible(reg, req, ds, combos[i]) && RankOf(reg, combos[i]) > -1.0
    && forall j :: 0 <= j < |combos| && Feasible(reg, req, ds, combos[j]) ==>
         && RankOf(reg, combos[j]) <= RankOf(reg, combos[i])
         && (j < i ==> RankOf(reg, combos[j]) < RankOf(reg, combos[i]))
  }

  ghost predicate NoneAboveBar(reg: Registry, req: Request, ds: seq<Demand>, combos: seq<seq<ResourceId>>)
  {
    forall c :: c in combos && Feasible(reg, req, ds, c) ==> RankOf(reg, c) <= -1.0
  }

  /** Whatever the caps, the answer is the first of maximal rank among the enumerated feasible
      combinations, and a rejection means none of them ranks above the bar. */
  lemma MaximalAmongEnumerated(reg: Registry, order: seq<ResourceId>, req: Request, ds: seq<Demand>)
    requires Enumerates(order, reg.resources) && ds != []
    ensures var combos := Product(PickLists(reg.resources, order, req, ds));
            match SelectFor(reg, order, req, ds)
            case None => NoneAboveBar(reg, req, ds, combos)
            case Some(ids) => exists i :: 0 <= i < |combos| && combos[i] == ids && FirstMaximal(reg, req, ds, combos, i)
  {
    var combos := Product(PickLists(reg.resources, order, req, ds));
    var s := Scores(reg, req, ds, combos);
    ArgMaxIsFirstMaximal(s);
    forall j | 0 <= j < |combos|
      ensures s[j] == if Feasible(reg, req, ds, combos[j]) then Some(RankOf(reg, combos[j])) else None
    {
      assert s[j] == Score(reg, req, ds, combos[j]);
    }
    if SelectFor(reg, order, req, ds).Some? {
      assert FirstMaximal(reg, req, ds, combos, ArgMax(s).value);
    }
  }

  ghost predicate FeasibleChoice(reg: Registry, req: Request, ds: seq<Demand>, choice: seq<seq<ResourceId>>)
  {
    IsChoice(reg.resources, req, ds, choice) && Feasible(reg, req, ds, Flatten(choice))
  }

  /** Completeness and optimality below the caps: a request is accepted exactly when some choice
      of per-class selections is feasible and ranks above the bar, and the answer ranks at least
      as high as every feasible choice. */
  lemma SelectCompleteAndOptimal(reg: Registry, order: seq<ResourceId>, req: Request, ds: seq<Demand>)
    requires WellKeyed(reg.resources) && Enumerates(order, reg.resources) && DemandList(ds)
    requires NoCapHit(reg.resources, order, req, ds)
    ensures SelectFor(reg, order, req, ds).Some? <==>
              ds != [] && exists choice :: FeasibleChoice(reg, req, ds, choice) && RankOf(reg,
                Flatten(choice)) > -1.0
    ensures SelectFor(reg, order, req, ds).Some? ==>
              forall choice :: FeasibleChoice(reg, req, ds, choice) ==>
                && Feasible(reg, req, ds, SelectFor(reg, order, req, ds).value)
                && RankOf(reg, Flatten(choice)) <= RankOf(reg, SelectFor(reg, order, req, ds).value)
  {
    if ds != [] {
      var combos := Product(PickLists(reg.resources, order, req, ds));
      MaximalAmongEnumerated(reg, order, req, ds);
      forall choice | FeasibleChoice(reg, req, ds, choice) ensures Flatten(choice) in combos {
        ChoicesAreCombos(reg.resources, order, req, ds, choice);
      }
      if SelectFor(reg, order, req, ds).Some? {
        SelectedIsScored(reg, order, req, ds);
        var choice := CombosAreChoices(reg.resources, order, req, ds, SelectFor(reg, order, req, ds).value);
        assert FeasibleChoice(reg, req, ds, choice);
      }
    }
  }

  /** With non-negative capacities the bar is never in the way. */
  lemma SelectSucceedsIffFeasible(reg: Registry, order: seq<ResourceId>, req: Request, ds: seq<Demand>)
    requires WellKeyed(reg.resources) && Enumerates(order, reg.resources) && DemandList(ds)
    requires NoCapHit(reg.resources, order, req, ds)
    requires forall k :: k in reg.resources ==> NonNegative(reg.resources[k].capacity)
    ensures SelectFor(reg, order, req, ds).Some? <==> ds != [] && exists choice :: FeasibleChoice(reg, req, ds, choice)
  {
    SelectCompleteAndOptimal(reg, order, req, ds);
    forall choice | FeasibleChoice(reg, req, ds, choice) ensures RankOf(reg, Flatten(choice)) > -1.0 {
      RankNonNegative(Lookup(reg.resources, Flatten(choice)));
    }
  }

  /** Planner completeness and optimality for a request. */
  lemma ComposeCompleteAndOptimal(reg: Registry, order: seq<ResourceId>, req: Request)
    requires WellKeyed(reg.resources) && Enumerates(order, reg.resources)
    requires NoCapHit(reg.resources, order, req, Mandatory(Demands(req)))
    requires forall k :: k in reg.resources ==> NonNegative(reg.resources[k].capacity)
    ensures SelectMembers(reg, order, req).Some? <==>
              Mandatory(Demands(req)) != [] &&
                exists choice :: FeasibleChoice(reg, req, Mandatory(Demands(req)), choice)
    ensures SelectMembers(reg, order, req).Some? ==>
              forall choice :: FeasibleChoice(reg, req, Mandatory(Demands(req)), choice) ==>
                && Feasible(reg, req, Mandatory(Demands(req)), SelectMembers(reg, order, req).value)
                && RankOf(reg, Flatten(choice)) <= RankOf(reg, SelectMembers(reg, order, req).value)
  {
    MandatoryDemandList(req);
    SelectCompleteAndOptimal(reg, order, req, Mandatory(Demands(req)));
    SelectSucceedsIffFeasible(reg, order, req, Mandatory(Demands(req)));
  }

  // ---- hash order --------------------------------------------------------------

  lemma SelectIndependentOfOrder(reg: Registry, order: seq<ResourceId>, order': seq<ResourceId>, req: Request,
                                 ds: seq<Demand>)
    requires WellKeyed(reg.resources) && Enumerates(order, reg.resources) && Enumerates(order', reg.resources)
    ensures SelectFor(reg, order, req, ds) == SelectFor(reg, order', req, ds)
  {
    var ps, ps' := PickLists(reg.resources, order, req, ds), PickLists(reg.resources, order', req, ds);
    forall i | 0 <= i < |ds| ensures ps[i] == ps'[i] {
      SortedIndependentOfOrder(order, order', reg.resources, req, ds[i]);
    }
    assert ps == ps';
  }

  /** Any two iteration orders of the same table give the same answer. */
  lemma ComposeIndependentOfOrder(reg: Registry, order: seq<ResourceId>, order': seq<ResourceId>, req: Request)
    requires WellKeyed(reg.resources) && Enumerates(order, reg.resources) && Enumerates(order', reg.resources)
    ensures SelectMembers(reg, order, req) == SelectMembers(reg, order', req)
  {
    SelectIndependentOfOrder(reg, order, order', req, Mandatory(Demands(req)));
  }
}
