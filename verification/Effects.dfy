/** What each client operation answers and what it leaves behind, field by field, in every state. */
module Effects {
  import opened FabricTypes
  import opened Eligibility
  import opened PlannerTheorems
  import E = Engine
  import opened LedgerArithmetic
  import opened AuthorityInvariant

  // ---- frames ------------------------------------------------------------------

  /** The registry, the epoch and the policies are as they were. */
  ghost predicate SameRegistry(s: E.State, t: E.State)
  {
    t.epoch == s.epoch && t.resources == s.resources && t.nodes == s.nodes && t.paths == s.paths &&
    t.policies == s.policies
  }

  ghost predicate SameCounters(s: E.State, t: E.State)
  {
    t.nextComp == s.nextComp && t.nextSet == s.nextSet && t.nextResv == s.nextResv
  }

  /** No other composition is touched. */
  ghost predicate OtherComps(s: E.State, t: E.State, id: CompositionId)
  {
    forall other :: other != id ==>
      (other in t.comps <==> other in s.comps) && (other in s.comps ==> t.comps[other] == s.comps[other])
  }

  /** No other reservation is touched. */
  ghost predicate OtherResvs(s: E.State, t: E.State, vid: ReservationId)
  {
    forall other :: other != vid ==>
      (other in t.resvs <==> other in s.resvs) && (other in s.resvs ==> t.resvs[other] == s.resvs[other])
  }

  /** The record in everything but its lifecycle and outcome. */
  ghost predicate SameRecord(c: Composition, c': Composition)
  {
    && c'.id == c.id && c'.generation == c.generation && c'.resourceSet == c.resourceSet && c'.graph == c.graph
    && c'.request == c.request && c'.authority == c.authority && c'.rank == c.rank
    && c'.reservation == c.reservation && c'.paths == c.paths
  }

  // ---- reserve -----------------------------------------------------------------

  /** The composition is the plan, field by field. */
  ghost predicate Carries(c: Composition, plan: Plan)
  {
    && c.id == plan.id && c.generation == plan.generation && c.graph.vertices == plan.graph.vertices
    && c.graph.edges == plan.graph.edges && c.request == plan.request && c.authority == plan.authority
    && c.rank == plan.rank && c.paths == plan.paths
  }

  /** A granted reservation: the composition is RESERVED and carries its plan, the reservation lists one
      provisional item per vertex, and the counters move. */
  ghost predicate Reserves(s: E.State, plan: Plan, t: E.State, v: Reservation)
  {
    && SameRegistry(s, t) && t.draining == s.draining && t.fenced == s.fenced && t.nextComp == s.nextComp
    && t.nextResv == s.nextResv + 1 && t.nextSet == s.nextSet + 1
    && v.id == s.nextResv && v.composition == plan.id && v.state == Provisional
    && HoldsOf(s.resources, plan.graph.vertices, v.items)
    && v.id in t.resvs && t.resvs[v.id] == v && OtherResvs(s, t, v.id)
    && plan.id in t.comps && Carries(t.comps[plan.id], plan) && t.comps[plan.id].lifecycle == Reserved
    && t.comps[plan.id].outcome == OutcomeUnknown && t.comps[plan.id].reservation == v.id
    && t.comps[plan.id].resourceSet == s.nextSet && OtherComps(s, t, plan.id)
    && forall rid :: E.HeldOf(t.held, rid) == E.HeldOf(s.held, rid) + Sum(v.items, rid)
  }

  lemma GrantedReserves(s: E.State, plan: Plan, h: E.Holds)
    requires h.failure.None? && HoldsOf(s.resources, plan.graph.vertices, h.items)
    requires forall rid :: E.HeldOf(h.held, rid) == E.HeldOf(s.held, rid) + Sum(h.items, rid)
    ensures var (t, r) := E.ReserveWith(s, plan, h); r.ReserveOk? && Reserves(s, plan, t, r.reservation)
  {
  }

  lemma HoldsAreItems(resources: map<ResourceId, Resource>, req: Request, vs: seq<ResourceId>,
                      held: map<ResourceId, real>)
    requires E.TakeHolds(resources, req, vs, held, []).failure.None?
    ensures var h := E.TakeHolds(resources, req, vs, held, []);
            HoldsOf(resources, vs, h.items) &&
            forall rid :: E.HeldOf(h.held, rid) == E.HeldOf(held, rid) + Sum(h.items, rid)
  {
    var more := TakeHoldsAdds(resources, req, vs, held, []);
    assert vs[..|more|] == vs && [] + more == more;
  }

  /** What Reserve leaves behind: everything of the plan, or nothing but a used-up number. */
  lemma ReserveEffect(s: E.State, plan: Plan)
    ensures var (t, r) := E.Reserve(s, plan);
            match r
            case ReserveOk(v) => plan.lifecycle == Planned && plan.id != 0 && Reserves(s, plan, t, v)
            case ReserveRejected(_) =>
              && SameRegistry(s, t) && t.comps == s.comps && t.resvs == s.resvs && t.draining == s.draining
              && t.fenced == s.fenced && t.nextComp == s.nextComp && t.nextSet == s.nextSet
  {
    if plan.lifecycle == Planned && plan.id != 0 {
      var h := E.TakeHolds(s.resources, plan.request, plan.graph.vertices, s.held, []);
      if h.failure.None? {
        HoldsAreItems(s.resources, plan.request, plan.graph.vertices, s.held);
        GrantedReserves(s, plan, h);
      }
    }
  }

  /** The vertex can be held: registered, eligible, not held by anyone, no negative capacity. */
  ghost predicate Holdable(resources: map<ResourceId, Resource>, req: Request, held: map<ResourceId, real>,
                           rid: ResourceId)
  {
    && rid in resources && Check(resources[rid], req).Eligible? && E.HeldOf(held, rid) <= 0.0
    && resources[rid].capacity.computeUnits >= 0.0 && resources[rid].capacity.hostMemory >= 0.0
  }

  /** Why a vertex cannot be held. */
  ghost predicate Obstacle(resources: map<ResourceId, Resource>, req: Request, held: map<ResourceId, real>,
                           rid: ResourceId, why: Reason)
  {
    if rid !in resources then why == ResourceOffline
    else if Check(resources[rid], req).Ineligible? then Check(resources[rid], req) == Ineligible(why)
    else if E.HeldOf(held, rid) > 0.0 then why == ReservationConflict
    else why == CapacityNegative && !Holdable(resources, req, held, rid)
  }

  /** Every vertex can be held, or the first that cannot gives the reason. */
  ghost predicate Decided(resources: map<ResourceId, Resource>, req: Request, held: map<ResourceId, real>,
                          vs: seq<ResourceId>, failure: Option<Reason>)
  {
    match failure
    case None => forall i :: 0 <= i < |vs| ==> Holdable(resources, req, held, vs[i])
    case Some(why) => exists i: nat :: FirstObstacle(resources, req, held, vs, i, why)
  }

  ghost predicate FirstObstacle(resources: map<ResourceId, Resource>, req: Request, held: map<ResourceId, real>,
                                vs: seq<ResourceId>, i: nat, why: Reason)
  {
    && i < |vs| && Obstacle(resources, req, held, vs[i], why)
    && forall j :: 0 <= j < i ==> Holdable(resources, req, held, vs[j])
  }

  lemma {:induction false} HoldsDecide(resources: map<ResourceId, Resource>, req: Request, vs: seq<ResourceId>,
                                       held: map<ResourceId, real>, items: seq<Item>)
    requires NoDup(vs)
    ensures Decided(resources, req, held, vs, E.TakeHolds(resources, req, vs, held, items).failure)
    decreases |vs|
  {
    if vs != [] {
      HoldOneEffect(resources, req, vs[0], held);
      match E.HoldOne(resources, req, vs[0], held)
      case Refused(_, why) => assert FirstObstacle(resources, req, held, vs, 0, why);
      case Held(now, item) =>
        HoldsDecide(resources, req, vs[1..], now, items + [item]);
        DecidedStep(resources, req, held, now, vs, E.TakeHolds(resources, req, vs[1..], now, items + [item]).failure);
    }
  }

  lemma DecidedStep(resources: map<ResourceId, Resource>, req: Request, held: map<ResourceId, real>,
                    now: map<ResourceId, real>, vs: seq<ResourceId>, failure: Option<Reason>)
    requires NoDup(vs) && vs != [] && Holdable(resources, req, held, vs[0])
    requires forall x :: x != vs[0] ==> E.HeldOf(now, x) == E.HeldOf(held, x)
    requires Decided(resources, req, now, vs[1..], failure)
    ensures Decided(resources, req, held, vs, failure)
  {
    forall i | 0 < i < |vs|
      ensures vs[1..][i - 1] == vs[i] && E.HeldOf(now, vs[i]) == E.HeldOf(held, vs[i])
    {
    }
    match failure
    case None =>
      forall i | 0 < i < |vs| ensures Holdable(resources, req, held, vs[i]) {
        assert Holdable(resources, req, now, vs[1..][i - 1]);
      }
    case Some(why) =>
      var i: nat :| FirstObstacle(resources, req, now, vs[1..], i, why);
      assert forall j :: 0 <= j < i ==> Holdable(resources, req, now, vs[1..][j]);
      forall j | 0 < j < i + 1 ensures Holdable(resources, req, held, vs[j]) {
        assert Holdable(resources, req, now, vs[1..][j - 1]);
      }
      assert vs[1..][i] == vs[i + 1];
      assert FirstObstacle(resources, req, held, vs, i + 1, why);
  }

  /** What Reserve answers: a plan that is PLANNED under a valid id, with distinct vertices, is reserved
      exactly when every vertex can be held, and refused with the reason of the first that cannot. */
  lemma ReserveAnswers(s: E.State, plan: Plan)
    requires NoDup(plan.graph.vertices)
    ensures var (t, r) := E.Reserve(s, plan);
            if plan.lifecycle != Planned || plan.id == 0 then
              t == s && r == E.ReserveRejected(InvalidStateTransition)
            else
              && (t.nextResv == s.nextResv + 1)
              && Decided(s.resources, plan.request, s.held, plan.graph.vertices,
                         if r.ReserveOk? then None else Some(r.reason))
  {
    HoldsDecide(s.resources, plan.request, plan.graph.vertices, s.held, []);
  }

  // ---- commit ------------------------------------------------------------------

  /** Every member is registered, eligible and covered by the ledger, or the first that is not gives the reason. */
  ghost predicate Coverable(s: E.State, req: Request, item: Item)
  {
    && item.resource in s.resources && Check(s.resources[item.resource], req).Eligible?
    && E.HeldOf(s.held, item.resource) >= item.amount
  }

  ghost predicate Uncovered(s: E.State, req: Request, item: Item, why: Reason)
  {
    if item.resource !in s.resources then why == ResourceOffline
    else if Check(s.resources[item.resource], req).Ineligible?
      then Check(s.resources[item.resource], req) == Ineligible(why)
    else E.HeldOf(s.held, item.resource) < item.amount && why == Overcommit
  }

  ghost predicate Scanned(s: E.State, req: Request, items: seq<Item>, failure: Option<Reason>)
  {
    match failure
    case None => forall i :: 0 <= i < |items| ==> Coverable(s, req, items[i])
    case Some(why) => exists i: nat :: FirstUncovered(s, req, items, i, why)
  }

  ghost predicate FirstUncovered(s: E.State, req: Request, items: seq<Item>, i: nat, why: Reason)
  {
    && i < |items| && Uncovered(s, req, items[i], why)
    && forall j :: 0 <= j < i ==> Coverable(s, req, items[j])
  }

  lemma {:induction false} ScanDecides(s: E.State, req: Request, items: seq<Item>, held: map<ResourceId, real>)
    requires forall rid :: E.HeldOf(held, rid) == E.HeldOf(s.held, rid)
    ensures Scanned(s, req, items, E.ScanItems(s.resources, req, items, held).failure)
    decreases |items|
  {
    if items != [] {
      var failure := E.ScanItems(s.resources, req, items, held).failure;
      if Coverable(s, req, items[0]) {
        var touched := E.Touch(held, items[0].resource);
        ScanDecides(s, req, items[1..], touched);
        match failure
        case None =>
          forall i | 0 < i < |items| ensures Coverable(s, req, items[i]) {
            assert Coverable(s, req, items[1..][i - 1]);
          }
        case Some(why) =>
          var i: nat :| FirstUncovered(s, req, items[1..], i, why);
          forall j | 0 < j < i + 1 ensures Coverable(s, req, items[j]) {
            assert Coverable(s, req, items[1..][j - 1]);
          }
          assert items[1..][i] == items[i + 1];
          assert FirstUncovered(s, req, items, i + 1, why);
      } else {
        assert FirstUncovered(s, req, items, 0, failure.value);
      }
    }
  }

  /** The reservation is provisional and its composition still RESERVED. */
  ghost predicate Pending(s: E.State, vid: ReservationId)
  {
    && vid in s.resvs && s.resvs[vid].state == Provisional
    && s.resvs[vid].composition in s.comps && s.comps[s.resvs[vid].composition].lifecycle == Reserved
  }

  /** Why a commit is refused without effect. */
  ghost function NotPending(s: E.State, vid: ReservationId): Reason
  {
    if vid !in s.resvs || (s.resvs[vid].state == Provisional && s.resvs[vid].composition !in s.comps)
    then ReservationConflict else InvalidStateTransition
  }

  /** The same items under another stamp. */
  ghost predicate Restamped(items: seq<Item>, items': seq<Item>, state: ReservationState)
  {
    |items'| == |items| && forall i :: 0 <= i < |items| ==>
      items'[i].resource == items[i].resource && items'[i].amount == items[i].amount && items'[i].state == state
  }

  /** Committed: composition and reservation COMMITTED, every ledger entry as it was. */
  ghost predicate Commits(s: E.State, vid: ReservationId, t: E.State)
    requires Pending(s, vid)
  {
    var v := s.resvs[vid];
    && v.composition in t.comps && t.comps[v.composition] == s.comps[v.composition].(lifecycle := Committed)
    && vid in t.resvs && t.resvs[vid].state == CommittedHold && t.resvs[vid].id == v.id
    && t.resvs[vid].composition == v.composition && Restamped(v.items, t.resvs[vid].items, CommittedHold)
    && forall rid :: E.HeldOf(t.held, rid) == E.HeldOf(s.held, rid)
  }

  /** Rolled back: the composition must be revalidated and has failed, the reservation is ROLLED_BACK. */
  ghost predicate RollsBack(s: E.State, vid: ReservationId, t: E.State)
    requires Pending(s, vid)
  {
    var v := s.resvs[vid];
    && v.composition in t.comps && SameRecord(s.comps[v.composition], t.comps[v.composition])
    && t.comps[v.composition].lifecycle == RevalidationRequired && t.comps[v.composition].outcome == FailedOutcome
    && vid in t.resvs && t.resvs[vid] == v.(state := RolledBack)
  }

  /** What Commit answers and leaves behind, in every state. */
  lemma CommitEffect(s: E.State, vid: ReservationId)
    ensures var (t, r) := E.Commit(s, vid);
            if !Pending(s, vid) then t == s && r == E.CommitRejected(NotPending(s, vid)) else
            var v := s.resvs[vid];
            && SameRegistry(s, t) && SameCounters(s, t) && t.draining == s.draining && t.fenced == s.fenced
            && OtherComps(s, t, v.composition) && OtherResvs(s, t, vid)
            && Scanned(s, s.comps[v.composition].request, v.items, if r.CommitOk? then None else Some(r.reason))
            && (if r.CommitOk? then Commits(s, vid, t) && r.id == s.comps[v.composition].id else RollsBack(s, vid, t))
  {
    if Pending(s, vid) {
      var v, c := s.resvs[vid], s.comps[s.resvs[vid].composition];
      var scan := E.ScanItems(s.resources, c.request, v.items, s.held);
      ScanDecides(s, c.request, v.items, s.held);
      ScanOnlyReads(s.resources, c.request, v.items, s.held);
      CommitWithEffect(s, vid, v, c, scan);
    }
  }

  lemma CommitWithEffect(s: E.State, vid: ReservationId, v: Reservation, c: Composition, scan: E.CommitScan)
    requires Pending(s, vid) && v == s.resvs[vid] && c == s.comps[v.composition]
    requires forall rid :: E.HeldOf(scan.held, rid) == E.HeldOf(s.held, rid)
    ensures var (t, r) := E.CommitWith(s, vid, v, c, scan);
            && SameRegistry(s, t) && SameCounters(s, t) && t.draining == s.draining && t.fenced == s.fenced
            && OtherComps(s, t, v.composition) && OtherResvs(s, t, vid)
            && (if r.CommitOk? then None else Some(r.reason)) == scan.failure
            && (if r.CommitOk? then Commits(s, vid, t) && r.id == c.id else RollsBack(s, vid, t))
  {
  }

  // ---- activate ----------------------------------------------------------------

  /** The vertex at position i is registered, at the generation bound there, with current evidence. */
  ghost predicate Holds(c: Composition, resources: map<ResourceId, Resource>, i: nat)
    requires i < |c.graph.vertices|
  {
    var rid := c.graph.vertices[i];
    && rid in resources && resources[rid].id != 0
    && (i < |c.authority.resources| ==> resources[rid].generation == c.authority.resources[i])
    && resources[rid].evidence.state != Stale && resources[rid].evidence.state != EvidenceRevalidation
    && resources[rid].evidence.maxAgeMs != 0
  }

  /** Why the vertex at position i does not hold. */
  ghost predicate Lapsed(c: Composition, resources: map<ResourceId, Resource>, i: nat, why: Reason)
    requires i < |c.graph.vertices|
  {
    var rid := c.graph.vertices[i];
    if rid !in resources || resources[rid].id == 0 then why == ResourceOffline
    else if i < |c.authority.resources| && resources[rid].generation != c.authority.resources[i]
      then why == WrongGeneration
    else why == StaleEvidence && !Holds(c, resources, i)
  }

  /** The composition is bound to this epoch and every vertex holds. */
  ghost predicate Stands(c: Composition, s: E.State)
  {
    c.authority.epoch == s.epoch && forall i :: 0 <= i < |c.graph.vertices| ==> Holds(c, s.resources, i)
  }

  ghost predicate FirstLapse(c: Composition, s: E.State, i: nat, why: Reason)
  {
    && i < |c.graph.vertices| && Lapsed(c, s.resources, i, why)
    && forall j :: 0 <= j < i ==> Holds(c, s.resources, j)
  }

  lemma {:induction false} RevalidateDecides(c: Composition, s: E.State, i: nat)
    requires i <= |c.graph.vertices| && forall j :: 0 <= j < i ==> Holds(c, s.resources, j)
    ensures var failure := E.RevalidateFrom(c, s.resources, i);
            && (failure.None? ==> forall j :: 0 <= j < |c.graph.vertices| ==> Holds(c, s.resources, j))
            && (failure.Some? ==> exists j: nat :: FirstLapse(c, s, j, failure.value))
    decreases |c.graph.vertices| - i
  {
    if i < |c.graph.vertices| {
      if Holds(c, s.resources, i) {
        RevalidateDecides(c, s, i + 1);
      } else {
        var failure := E.RevalidateFrom(c, s.resources, i);
        assert failure.Some? && FirstLapse(c, s, i, failure.value);
      }
    }
  }

  /** A composition with a lapse does not stand. */
  lemma LapseFalls(c: Composition, s: E.State)
    ensures (exists i: nat, why :: FirstLapse(c, s, i, why)) ==> !Stands(c, s)
  {
    if i: nat, why :| FirstLapse(c, s, i, why) { assert !Holds(c, s.resources, i); }
  }

  /** Only the lifecycle and the outcome of one composition change. */
  ghost predicate Relabels(s: E.State, t: E.State, cid: CompositionId, l: Lifecycle, outcome: Outcome)
  {
    && SameRegistry(s, t) && SameCounters(s, t) && t.draining == s.draining && t.fenced == s.fenced
    && t.resvs == s.resvs && t.held == s.held && OtherComps(s, t, cid)
    && cid in s.comps && cid in t.comps && SameRecord(s.comps[cid], t.comps[cid])
    && t.comps[cid].lifecycle == l && t.comps[cid].outcome == outcome
  }

  /** What Activate answers and leaves behind, in every state: a COMMITTED, unfenced composition becomes
      ACTIVE exactly when it stands; otherwise it must be revalidated, and nothing else changes. */
  lemma ActivateEffect(s: E.State, cid: CompositionId)
    ensures var (t, r) := E.Activate(s, cid);
            if cid !in s.comps then t == s && r == E.ActivateRejected(NoValidComposition)
            else if s.comps[cid].lifecycle != Committed then t == s && r == E.ActivateRejected(InvalidStateTransition)
            else if s.comps[cid].id in s.fenced then t == s && r == E.ActivateRejected(PolicyDenied)
            else if Stands(s.comps[cid], s) then r == E.ActivateOk && Relabels(s, t, cid, Active, Success)
            else
              && r.ActivateRejected? && Relabels(s, t, cid, RevalidationRequired, Rejected)
              && if s.comps[cid].authority.epoch != s.epoch then r.reason == WrongEpoch
                 else exists i: nat :: FirstLapse(s.comps[cid], s, i, r.reason)
  {
    if cid in s.comps && s.comps[cid].lifecycle == Committed && s.comps[cid].id !in s.fenced {
      RevalidateDecides(s.comps[cid], s, 0);
      LapseFalls(s.comps[cid], s);
      ActivateWithEffect(s, cid, E.Revalidate(s.comps[cid], s.resources, s.epoch));
    }
  }

  lemma ActivateWithEffect(s: E.State, cid: CompositionId, failure: Option<Reason>)
    requires cid in s.comps
    ensures var (t, r) := E.ActivateWith(s, cid, s.comps[cid], failure);
            if failure.None? then r == E.ActivateOk && Relabels(s, t, cid, Active, Success)
            else r == E.ActivateRejected(failure.value) && Relabels(s, t, cid, RevalidationRequired, Rejected)
  {
  }

  // ---- drain and release -------------------------------------------------------

  /** BeginDrain succeeds exactly for an ACTIVE, COMMITTED or DEGRADED composition. */
  lemma BeginDrainEffect(s: E.State, cid: CompositionId)
    ensures var (t, ok) := E.BeginDrain(s, cid);
            && (ok <==> cid in s.comps && s.comps[cid].lifecycle in {Active, Committed, DegradedComposition})
            && (!ok ==> t == s)
            && (ok ==> t.draining == s.draining + {cid} &&
                       Relabels(s, t.(draining := s.draining), cid, Draining, s.comps[cid].outcome))
  {
  }

  /** One composition has ended: RELEASED, and its reservation with it. */
  ghost predicate Ends(s: E.State, t: E.State, cid: CompositionId)
  {
    && cid in s.comps && SameRegistry(s, t) && SameCounters(s, t) && OtherComps(s, t, cid)
    && cid in t.comps && t.comps[cid] == s.comps[cid].(lifecycle := Released)
    && var vid := s.comps[cid].reservation;
    && OtherResvs(s, t, vid) && (vid in s.resvs <==> vid in t.resvs)
    && (vid in s.resvs ==> t.resvs[vid] == s.resvs[vid].(state := ReleasedHold))
    && (vid !in s.resvs ==> t.held == s.held)
  }

  /** EndDrain succeeds exactly for a DRAINING composition, which ends unfenced. */
  lemma EndDrainEffect(s: E.State, cid: CompositionId)
    ensures var (t, ok) := E.EndDrain(s, cid);
            && (ok <==> cid in s.comps && s.comps[cid].lifecycle == Draining)
            && (!ok ==> t == s)
            && (ok ==> Ends(s, t, cid) && t.draining == s.draining - {cid} && t.fenced == s.fenced)
  {
  }

  /** Release succeeds exactly for a composition that is neither RELEASED nor RETIRED, and fences it. */
  lemma ReleaseEffect(s: E.State, cid: CompositionId)
    ensures var (t, ok) := E.Release(s, cid);
            && (ok <==> cid in s.comps && s.comps[cid].lifecycle != Released && s.comps[cid].lifecycle != Retired)
            && (!ok ==> t == s)
            && (ok ==> Ends(s, t, cid) && t.draining == s.draining - {cid} && t.fenced == s.fenced + {cid})
  {
  }

  /** Recompute's releasing section ends and fences whatever composition it finds. */
  lemma ReleaseOldEffect(s: E.State, cid: CompositionId)
    ensures var t := E.ReleaseOld(s, cid);
            if cid !in s.comps then t == s
            else Ends(s, t, cid) && t.draining == s.draining && t.fenced == s.fenced + {s.comps[cid].id}
  {
  }
}
