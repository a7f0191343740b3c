/** A registry of one machine, on which every operation can be followed by hand. */
module OneMachine {
  import opened FabricTypes
  import opened Eligibility
  import opened Candidates
  import opened Enumeration
  import opened PlanGraph
  import opened Planner
  import opened PlannerTheorems
  import opened PlanTheorems
  import E = Engine
  import opened Runs

  /** One healthy machine with one compute unit, and a request for one unit. */
  const MACHINE: Resource := Resource(1, 1, Compute, 1, [], [], Capacity(1.0, 0.0, 0.0, 0.0, 0.0, 0.0), Healthy, Ready,
    Reachable, "",
                                      Evidence(1, Fresh, 1000, "", "", false))
  const ONE_UNIT: Request := Request(1, 0, [], 0.0, 0.0, 0.0, 0.0, 0, 0.0, 0.0, {}, false, false, NoTopology, 0, 1)
  const UNIT_DEMAND: Demand := Demand(Compute, true, true, 1.0, 0, ComputeUnits)

  lemma OneDemand()
    ensures Mandatory(Demands(ONE_UNIT)) == [UNIT_DEMAND]
  {
    var ds := Demands(ONE_UNIT);
    assert ds[0] == UNIT_DEMAND;
    assert forall i :: 1 <= i < 6 ==> !ds[i].mandatory;
    assert Mandatory(ds[6..]) == [];
    assert ds[5..][1..] == ds[6..] && Mandatory(ds[5..]) == [];
    assert ds[4..][1..] == ds[5..] && Mandatory(ds[4..]) == [];
    assert ds[3..][1..] == ds[4..] && Mandatory(ds[3..]) == [];
    assert ds[2..][1..] == ds[3..] && Mandatory(ds[2..]) == [];
    assert ds[1..][1..] == ds[2..] && Mandatory(ds[1..]) == [];
  }

  const TABLE: map<ResourceId, Resource> := map[1 := MACHINE]

  lemma OnePick()
    ensures Picks(Sorted([1], TABLE, ONE_UNIT, UNIT_DEMAND), UNIT_DEMAND, PICK_CAP) == [[1]]
  {
    assert Gather([1], TABLE, ONE_UNIT, Compute) == [MACHINE] by {
      assert Gather([], TABLE, ONE_UNIT, Compute) == [];
      assert [1][..0] == [];
    }
    var items := Sorted([1], TABLE, ONE_UNIT, UNIT_DEMAND);
    assert items == [MACHINE] by {
      assert [MACHINE][1..] == [];
      assert Sort([], UNIT_DEMAND) == [];
      assert Sort([MACHINE], UNIT_DEMAND) == Insert(MACHINE, [], UNIT_DEMAND) == [MACHINE];
    }
    assert Selections(items, UNIT_DEMAND) == [[0]] by {
      assert Singles(1, 1) == [];
    }
    SelectionsInRange(items, UNIT_DEMAND);
    assert Ids(items, [0]) == [1];
  }

  lemma OneCombination()
    ensures PickLists(TABLE, [1], ONE_UNIT, [UNIT_DEMAND]) == [[[1]]]
    ensures [1] in Product([[[1]]])
  {
    OnePick();
    assert PickLists(TABLE, [1], ONE_UNIT, [UNIT_DEMAND])[0] == [[1]];
    var sels := [[[1]]];
    assert Product(sels[..0]) == [[]];
    ExpandExact([[]], [[1]], 0, [1]);
    RowSize([], [[1]], 0);
    ExpandSize([[]], [[1]], 0);
  }

  lemma OneIsFeasible(reg: Registry)
    requires reg.resources == TABLE
    ensures Feasible(reg, ONE_UNIT, [UNIT_DEMAND], [1]) && RankOf(reg, [1]) >= 0.0
  {
    var ms := Lookup(reg.resources, [1]);
    assert ms == [MACHINE];
    GraphCheckIsPairwise(reg, ONE_UNIT, ms);
    RankNonNegative(ms);
    assert OfClass(ms, Compute) == [MACHINE] by { assert ms[..0] == []; }
    assert Total([MACHINE], ComputeUnits) == 1.0 by { assert [MACHINE][..0] == []; }
  }

  lemma MachineIsSelected(reg: Registry)
    requires reg.resources == TABLE
    ensures SelectMembers(reg, [1], ONE_UNIT).Some?
  {
    OneDemand();
    OneCombination();
    OneIsFeasible(reg);
    MaximalAmongEnumerated(reg, [1], ONE_UNIT, [UNIT_DEMAND]);
  }

  lemma TwoDiffer(ids: seq<ResourceId>)
    requires NoDup(ids) && |ids| >= 2
    ensures exists x, y :: x in ids && y in ids && x != y
  {
    assert ids[0] in ids && ids[1] in ids;
  }

  lemma OnlyMember(reg: Registry, req: Request, ds: seq<Demand>, ids: seq<ResourceId>, k: ResourceId)
    requires SoundMembers(reg, req, ds, ids) && reg.resources.Keys == {k}
    ensures ids == [k]
  {
    if |ids| >= 2 {
      TwoDiffer(ids);
      assert false;
    }
    assert ids[0] in ids;
  }

  /** A plan for the machine alone. */
  ghost predicate PlanFor(plan: Plan, id: CompositionId)
  {
    && plan.id == id && plan.lifecycle == Planned && plan.graph.vertices == [1] && plan.request == ONE_UNIT
    && plan.authority.resources == [1]
  }

  lemma SoundPlanForMachine(s: E.State, plan: Plan)
    requires s.resources == TABLE && SoundPlan(s, ONE_UNIT, plan)
    ensures PlanFor(plan, s.nextComp)
  {
    OnlyMember(E.RegistryOf(s), ONE_UNIT, Mandatory(Demands(ONE_UNIT)), plan.graph.vertices, 1);
  }

  lemma TableIsOrdered()
    ensures WellKeyed(TABLE) && Enumerates([1], TABLE)
  {
  }

  lemma SelectedIsPlanned(s: E.State, order: seq<ResourceId>, req: Request)
    requires WellKeyed(s.resources) && Enumerates(order, s.resources)
    requires SelectMembers(E.RegistryOf(s), order, req).Some?
    ensures var (t, plan) := E.Compose(s, order, req);
            t == s.(nextComp := s.nextComp + 1) && plan.Some? && SoundPlan(s, req, plan.value)
  {
    PlanSoundness(s, order, req);
  }

  /** Wherever the machine is the whole registry, Compose plans for it. */
  lemma PlansTheMachine(s: E.State)
    requires s.resources == TABLE
    ensures var (t, plan) := E.Compose(s, [1], ONE_UNIT);
            t == s.(nextComp := s.nextComp + 1) && plan.Some? && PlanFor(plan.value, s.nextComp)
  {
    TableIsOrdered();
    MachineIsSelected(E.RegistryOf(s));
    SelectedIsPlanned(s, [1], ONE_UNIT);
    SoundPlanForMachine(s, E.Compose(s, [1], ONE_UNIT).1.value);
  }

  // ---- single operations on the machine ----------------------------------------

  /** Only the machine's hold matters: who has it, and what the tables say about the first three ids. */
  lemma ReserveMachine(s: E.State, plan: Plan)
    requires s.resources == TABLE && PlanFor(plan, plan.id) && plan.id != 0 && E.HeldOf(s.held, 1) == 0.0
    ensures var (t, r) := E.Reserve(s, plan);
            && r.ReserveOk? && t.resources == TABLE && E.HeldOf(t.held, 1) == 1.0 && t.nextResv == s.nextResv + 1
            && t.resvs == s.resvs[s.nextResv := Reservation(s.nextResv, plan.id, [Item(1, Provisional, 1.0)],
                 Provisional)]
            && t.comps == s.comps[plan.id := E.NewComposition(plan, s.nextSet, s.nextResv)]
  {
    assert plan.graph.vertices[1..] == [];
    var h := E.HoldOne(s.resources, ONE_UNIT, 1, s.held);
    assert h.Held? && h.item == Item(1, Provisional, 1.0);
    assert E.TakeHolds(s.resources, ONE_UNIT, [], h.held, [h.item]) == E.Holds(h.held, [h.item], None);
    assert [] + [h.item] == [h.item];
    assert E.TakeHolds(s.resources, ONE_UNIT, [1], s.held, []) == E.Holds(h.held, [h.item], None);
  }

  lemma ReleaseMachine(held: map<ResourceId, real>, items: seq<Item>)
    requires |items| == 1 && items[0].resource == 1 && items[0].amount == 1.0 && E.HeldOf(held, 1) == 1.0
    ensures E.HeldOf(E.ReleaseItems(held, items), 1) == 0.0
  {
    assert items[1..] == [];
  }

  /** A Commit that finds the machine's evidence stale rolls back. */
  lemma CommitStale(s: E.State)
    requires 1 in s.resources && s.resources[1] == MACHINE.(evidence := E.Revalidation(MACHINE.evidence))
    requires 1 in s.resvs && s.resvs[1] == Reservation(1, 1, [Item(1, Provisional, 1.0)], Provisional)
    requires 1 in s.comps && s.comps[1].lifecycle == Reserved && s.comps[1].reservation == 1 &&
        E.HeldOf(s.held, 1) == 1.0
    ensures var t := E.Commit(s, 1).0;
            && E.HeldOf(t.held, 1) == 0.0 && t.resvs == s.resvs[1 := s.resvs[1].(state := RolledBack)]
            && 1 in t.comps && t.comps[1].lifecycle == RevalidationRequired && t.comps[1].reservation == 1
            && t.resources == s.resources && t.nextResv == s.nextResv && t.nextComp == s.nextComp
  {
    var scan := E.ScanItems(s.resources, s.comps[1].request, s.resvs[1].items, s.held);
    assert scan.held == s.held && scan.failure.Some?;
    ReleaseMachine(s.held, s.resvs[1].items);
  }

  lemma ReleaseOldMachine(s: E.State)
    requires 1 in s.resvs && s.resvs[1].items == [Item(1, Provisional, 1.0)] && E.HeldOf(s.held, 1) == 1.0
    requires 1 in s.comps && s.comps[1].reservation == 1
    ensures var t := E.ReleaseOld(s, 1);
            && E.HeldOf(t.held, 1) == 0.0 && t.resources == s.resources && t.nextComp == s.nextComp &&
                 t.nextResv == s.nextResv
            && t.resvs == s.resvs[1 := s.resvs[1].(state := ReleasedHold)]
            && t.comps == s.comps[1 := s.comps[1].(lifecycle := Released)]
  {
    ReleaseMachine(s.held, s.resvs[1].items);
  }

  lemma ReleaseFirst(s: E.State)
    requires 1 in s.resvs && s.resvs[1].items == [Item(1, Provisional, 1.0)] && E.HeldOf(s.held, 1) == 1.0
    requires 1 in s.comps && s.comps[1].lifecycle == RevalidationRequired && s.comps[1].reservation == 1
    ensures var t := E.Release(s, 1).0;
            && E.HeldOf(t.held, 1) == 0.0 && t.resources == s.resources && t.nextComp == s.nextComp
            && t.comps == s.comps[1 := s.comps[1].(lifecycle := Released)]
  {
    ReleaseMachine(s.held, s.resvs[1].items);
  }
}
