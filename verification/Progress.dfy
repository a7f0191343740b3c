/** Happy-path progress: a fresh plan whose vertices nobody holds goes all the way to ACTIVE. */
module Progress {
  import opened FabricTypes
  import opened Eligibility
  import opened Candidates
  import opened PlannerTheorems
  import opened PlanTheorems
  import opened RunTheory
  import E = Engine
  import opened LedgerArithmetic
  import opened Runs
  import opened Invalidation
  import opened AuthorityInvariant
  import opened RecomputeInvariant
  import opened AuthorityTheorems

  // ---- fresh ids ---------------------------------------------------------------

  /** Callers reserve only plans that Compose handed out; anything else is allowed, reloads included. */
  ghost predicate IssuedOnly(c: Config, step: Step)
  {
    step.Atomic? && step.call.Reserve? ==>
      step.call.plan.id in c.issued && c.issued[step.call.plan.id] == step.call.plan
  }

  ghost predicate IdsBelow(s: E.State)
  {
    forall id :: id in s.comps || id in s.fenced ==> id < s.nextComp
  }

  /** The step names no composition but the known ones and `extra`. */
  ghost predicate NamesOnly(s: E.State, t: E.State, extra: CompositionId)
  {
    s.nextComp <= t.nextComp && forall id :: id in t.comps || id in t.fenced ==>
      id in s.comps || id in s.fenced || id == extra
  }

  lemma ReserveNamesOnly(s: E.State, plan: Plan)
    ensures NamesOnly(s, E.Reserve(s, plan).0, plan.id)
  {
  }

  lemma CommitNamesOnly(s: E.State, vid: ReservationId)
    ensures NamesOnly(s, E.Commit(s, vid).0, 0)
  {
  }

  lemma ActivateNamesOnly(s: E.State, cid: CompositionId)
    ensures NamesOnly(s, E.Activate(s, cid).0, 0)
  {
  }

  lemma DrainNamesOnly(s: E.State, cid: CompositionId)
    ensures NamesOnly(s, E.BeginDrain(s, cid).0, 0)
    ensures NamesOnly(s, E.EndDrain(s, cid).0, 0)
  {
  }

  lemma ReleaseNamesOnly(s: E.State, cid: CompositionId)
    requires Current(s)
    ensures NamesOnly(s, E.Release(s, cid).0, 0)
    ensures NamesOnly(s, E.ReleaseOld(s, cid), 0)
  {
  }

  lemma {:induction false} LoadCompsKeys(cs: seq<Composition>, id: CompositionId)
    requires id in E.LoadComps(cs)
    ensures exists i :: 0 <= i < |cs| && cs[i].id == id
  {
    if id != cs[|cs| - 1].id {
      var front := cs[..|cs| - 1];
      LoadCompsKeys(front, id);
      var i :| 0 <= i < |front| && front[i].id == id;
      assert cs[i].id == id;
    }
  }

  /** Reloading leaves the counter above every loaded id. */
  lemma LoadIdsBelow(s: E.State, d: E.Durable)
    requires IdsBelow(s)
    ensures IdsBelow(E.Load(s, d))
  {
    AboveMeans(s.nextComp, d.comps);
    forall id | id in E.LoadComps(d.comps) ensures id < E.Above(s.nextComp, d.comps) {
      LoadCompsKeys(d.comps, id);
    }
  }

  lemma OperationIdsBelow(c: Config, call: Call)
    requires Sound(c) && IdsBelow(c.s) && IssuedOnly(c, Atomic(call))
    ensures IdsBelow(Operation(c.s, call))
  {
    if IsInvalidation(call) {
      InvalidationDemotes(c.s, call);
    } else {
      match call
      case Reserve(plan) => ReserveNamesOnly(c.s, plan);
      case Commit(vid) => CommitNamesOnly(c.s, vid);
      case Activate(cid) => ActivateNamesOnly(c.s, cid);
      case BeginDrain(cid) => DrainNamesOnly(c.s, cid);
      case EndDrain(cid) => DrainNamesOnly(c.s, cid);
      case Release(cid) => ReleaseNamesOnly(c.s, cid);
      case Load(d) => LoadIdsBelow(c.s, d);
    }
  }

  lemma AdvanceIdsBelow(c: Config, cl: Client)
    requires Sound(c) && IdsBelow(c.s) && ClientOk(c.s, c.issued, cl) && !cl.Asked?
    ensures IdsBelow(Advance(c.s, cl).0)
  {
    match cl
    case Composed(prior, _, _) => ReleaseNamesOnly(c.s, prior);
    case Freed(_, plan, _, _) => ReserveNamesOnly(c.s, plan);
    case Holding(_, _, _, _, vid) => CommitNamesOnly(c.s, vid);
    case Agreed(_, _, _, _, cid) => ActivateNamesOnly(c.s, cid);
    case _ =>
  }

  lemma CoreIdsBelow(c: Config, step: Step)
    requires Sound(c) && IdsBelow(c.s) && IssuedOnly(c, step)
    ensures IdsBelow(Core(c, step).s)
  {
    match step
    case Atomic(call) => OperationIdsBelow(c, call);
    case Compose(order, req) => ComposeHandsOut(c, order, req);
    case RecomputeCall(_, _) =>
    case RecomputeSection(k, order) =>
      if k in c.clients {
        if c.clients[k].Asked? {
          ComposeHandsOut(c, order, c.clients[k].req);
        } else {
          AdvanceIdsBelow(c, c.clients[k]);
        }
      }
  }

  ghost predicate Fresh(c: Config) { Sound(c) && IdsBelow(c.s) }

  /** In every run that reserves only issued plans, the next id is neither in use nor fenced. */
  lemma NextIdIsFresh(epoch: Epoch, run: seq<Step>)
    requires Allowed(Next, IssuedOnly, Start(epoch), run)
    ensures Fresh(Reached(epoch, run))
  {
    forall d: Config, step: Step | Fresh(d) && IssuedOnly(d, step) ensures Fresh(Next(d, step)) {
      NextKeepsSound(d, step);
      CoreIdsBelow(d, step);
    }
    Invariance(Next, IssuedOnly, Fresh, Start(epoch), run);
  }

  // ---- reserve, commit, activate -----------------------------------------------

  /** Nothing stands in the way of the plan: free, eligible, non-negative members, bound as registered. */
  ghost predicate Ready(s: E.State, plan: Plan)
  {
    && plan.lifecycle == Planned && plan.id != 0 && plan.id !in s.fenced && plan.authority.epoch == s.epoch
    && NoDup(plan.graph.vertices) && BindsVertices(s.resources, plan)
    && forall i :: 0 <= i < |plan.graph.vertices| ==>
         var rid := plan.graph.vertices[i];
         && rid in s.resources && Check(s.resources[rid], plan.request).Eligible?
         && NonNegative(s.resources[rid].capacity) && E.HeldOf(s.held, rid) == 0.0
  }

  lemma HoldAmountNonNegative(r: Resource)
    requires NonNegative(r.capacity)
    ensures HoldAmount(r) >= 0.0
  {
  }

  /** What a successful Reserve leaves behind. */
  ghost predicate HoldsAll(s: E.State, t: E.State, plan: Plan, v: Reservation)
  {
    && t.epoch == s.epoch && t.resources == s.resources && t.fenced == s.fenced
    && v.id in t.resvs && t.resvs[v.id] == v && v.state == Provisional && v.composition == plan.id
    && plan.id in t.comps && t.comps[plan.id] == E.NewComposition(plan, s.nextSet, v.id)
    && HoldsOf(s.resources, plan.graph.vertices, v.items)
    && forall i :: 0 <= i < |v.items| ==> E.HeldOf(t.held, v.items[i].resource) >= v.items[i].amount
  }

  lemma HoldsSucceed(s: E.State, plan: Plan)
    requires Ready(s, plan)
    ensures var h := E.TakeHolds(s.resources, plan.request, plan.graph.vertices, s.held, []);
            && h.failure.None? && HoldsOf(s.resources, plan.graph.vertices, h.items)
            && forall i :: 0 <= i < |h.items| ==> E.HeldOf(h.held, h.items[i].resource) >= h.items[i].amount
  {
    var vs := plan.graph.vertices;
    TakeHoldsSucceeds(s.resources, plan.request, vs, s.held, []);
    var more := TakeHoldsAdds(s.resources, plan.request, vs, s.held, []);
    assert vs[..|more|] == vs;
    forall i | 0 <= i < |more| ensures more[i].amount >= 0.0 && E.HeldOf(s.held, more[i].resource) == 0.0 {
      assert more[i].resource == vs[i];
      HoldAmountNonNegative(s.resources[vs[i]]);
    }
    forall i | 0 <= i < |more| ensures Sum(more, more[i].resource) >= more[i].amount {
      SumNonNegative(more, more[i].resource);
    }
  }

  lemma ReserveSucceeds(s: E.State, plan: Plan)
    requires Ready(s, plan)
    ensures var (t, r) := E.Reserve(s, plan); r.ReserveOk? && HoldsAll(s, t, plan, r.reservation)
  {
    HoldsSucceed(s, plan);
  }

  /** What a successful Commit leaves behind. */
  ghost predicate Agrees(s: E.State, t: E.State, plan: Plan, v: Reservation)
  {
    && t.epoch == s.epoch && t.resources == s.resources && t.fenced == s.fenced
    && plan.id in t.comps && t.comps[plan.id] == E.NewComposition(plan, s.nextSet, v.id).(lifecycle := Committed)
  }

  lemma CommitSucceeds(s: E.State, t: E.State, plan: Plan, v: Reservation)
    requires Ready(s, plan) && HoldsAll(s, t, plan, v)
    ensures var (u, r) := E.Commit(t, v.id); r == E.CommitOk(plan.id) && Agrees(s, u, plan, v)
  {
    forall i | 0 <= i < |v.items|
      ensures v.items[i].resource in t.resources && Check(t.resources[v.items[i].resource], plan.request).Eligible?
    {
      assert v.items[i].resource == plan.graph.vertices[i];
    }
    ScanVerdict(t.resources, plan.request, v.items, t.held);
  }

  lemma ActivateSucceeds(s: E.State, t: E.State, plan: Plan, v: Reservation)
    requires Ready(s, plan) && Agrees(s, t, plan, v)
    ensures var (u, r) := E.Activate(t, plan.id); r.ActivateOk? && IsActive(u, plan.id)
  {
    RevalidateMeans(t.comps[plan.id], t.resources, 0);
  }

  /** Reserve, Commit and Activate, one right after the other, all succeed. */
  ghost predicate GoesActive(s: E.State, plan: Plan)
  {
    var (t, r) := E.Reserve(s, plan);
    && r.ReserveOk?
    && var (u, q) := E.Commit(t, r.reservation.id);
    && q == E.CommitOk(plan.id)
    && var (w, a) := E.Activate(u, plan.id);
    && a.ActivateOk? && IsActive(w, plan.id)
  }

  lemma ReadyGoesActive(s: E.State, plan: Plan)
    requires Ready(s, plan)
    ensures GoesActive(s, plan)
  {
    ReserveSucceeds(s, plan);
    var (t, r) := E.Reserve(s, plan);
    CommitSucceeds(s, t, plan, r.reservation);
    ActivateSucceeds(s, E.Commit(t, r.reservation.id).0, plan, r.reservation);
  }

  lemma SoundPlanIsReady(s: E.State, req: Request, plan: Plan)
    requires SoundPlan(s, req, plan) && 0 < s.nextComp && s.nextComp !in s.fenced
    requires forall id :: id in plan.graph.vertices ==>
        id in s.resources && NonNegative(s.resources[id].capacity) && E.HeldOf(s.held, id) == 0.0
    ensures Ready(s.(nextComp := s.nextComp + 1), plan)
  {
    forall i | 0 <= i < |plan.graph.vertices|
      ensures var rid := plan.graph.vertices[i];
              && rid in s.resources && Check(s.resources[rid], plan.request).Eligible?
              && NonNegative(s.resources[rid].capacity) && E.HeldOf(s.held, rid) == 0.0
    {
      assert plan.graph.vertices[i] in plan.graph.vertices;
    }
  }

  /** From any state a run with issued plans reaches: if Compose succeeds and none of its vertices is
      held, then Reserve, Commit and Activate, run next, all succeed and end ACTIVE. */
  lemma HappyPath(epoch: Epoch, run: seq<Step>, order: seq<ResourceId>, req: Request)
    requires Allowed(Next, IssuedOnly, Start(epoch), run) && Enumerates(order, Reached(epoch, run).s.resources)
    requires var s := Reached(epoch, run).s;
             var plan := E.Compose(s, order, req).1;
             plan.Some? && forall id :: id in plan.value.graph.vertices ==>
               id in s.resources && NonNegative(s.resources[id].capacity) && E.HeldOf(s.held, id) == 0.0
    ensures var (t, plan) := E.Compose(Reached(epoch, run).s, order, req); GoesActive(t, plan.value)
  {
    NextIdIsFresh(epoch, run);
    var s := Reached(epoch, run).s;
    PlanSoundness(s, order, req);
    var (t, plan) := E.Compose(s, order, req);
    SoundPlanIsReady(s, req, plan.value);
    ReadyGoesActive(t, plan.value);
  }
}
