/** After a withdrawal, a failure or the death of its worker, a resource takes part in nothing
    until it is registered again: across any run, no ACTIVE composition contains it and no
    Reserve or Commit that includes it succeeds. */
module Quarantine {
  import opened FabricTypes
  import opened Eligibility
  import opened RunTheory
  import E = Engine
  import opened Runs
  import opened Invalidation
  import opened AuthorityInvariant
  import opened RecomputeInvariant
  import opened AuthorityTheorems

  ghost predicate Suspect(resources: map<ResourceId, Resource>, rid: ResourceId)
  {
    rid in resources ==> !resources[rid].evidence.IsCurrent()
  }

  ghost predicate Unused(comps: map<CompositionId, Composition>, rid: ResourceId)
  {
    forall id :: id in comps && comps[id].lifecycle == Active ==> rid !in comps[id].graph.vertices
  }

  ghost predicate Quarantined(s: E.State, rid: ResourceId)
  {
    Suspect(s.resources, rid) && Unused(s.comps, rid)
  }

  /** The steps that do not register the resource again. */
  ghost predicate Leaves(rid: ResourceId, step: Step)
  {
    step.Atomic? ==>
      match step.call
      case IngestResource(r) => r.id != rid
      case Discover(_, rs, _) => forall r :: r in rs ==> r.id != rid
      case Load(_) => false
      case _ => true
  }

  // ---- what quarantine forbids -------------------------------------------------

  lemma {:induction false} TakeHoldsNeedsEligible(resources: map<ResourceId, Resource>, req: Request,
                                                  vs: seq<ResourceId>,
                                                  held: map<ResourceId, real>, items: seq<Item>, rid: ResourceId)
    requires rid in vs && Suspect(resources, rid)
    ensures E.TakeHolds(resources, req, vs, held, items).failure.Some?
    decreases |vs|
  {
    var h := E.HoldOne(resources, req, vs[0], held);
    if h.Held? {
      assert rid != vs[0];
      TakeHoldsNeedsEligible(resources, req, vs[1..], h.held, items + [h.item], rid);
    }
  }

  lemma {:induction false} ScanNeedsEligible(resources: map<ResourceId, Resource>, req: Request, items: seq<Item>,
                                             held: map<ResourceId, real>, k: nat)
    requires k < |items| && Suspect(resources, items[k].resource)
    ensures E.ScanItems(resources, req, items, held).failure.Some?
    decreases |items|
  {
    if items[0].resource in resources && Check(resources[items[0].resource], req).Eligible? {
      assert k > 0;
      ScanNeedsEligible(resources, req, items[1..], E.Touch(held, items[0].resource), k - 1);
    }
  }

  /** No ACTIVE composition contains the resource, and no Reserve and no Commit that includes it succeeds. */
  ghost predicate Barred(s: E.State, rid: ResourceId)
  {
    && (forall id :: IsActive(s, id) ==> rid !in s.comps[id].graph.vertices)
    && (forall plan: Plan :: rid in plan.graph.vertices ==> E.Reserve(s, plan).1.ReserveRejected?)
    && (forall vid, k :: vid in s.resvs && 0 <= k < |s.resvs[vid].items| && s.resvs[vid].items[k].resource == rid
          ==> E.Commit(s, vid).1.CommitRejected?)
  }

  lemma QuarantineBars(s: E.State, rid: ResourceId)
    requires Quarantined(s, rid)
    ensures Barred(s, rid)
  {
    forall plan: Plan | rid in plan.graph.vertices ensures E.Reserve(s, plan).1.ReserveRejected? {
      TakeHoldsNeedsEligible(s.resources, plan.request, plan.graph.vertices, s.held, [], rid);
    }
    forall vid, k | vid in s.resvs && 0 <= k < |s.resvs[vid].items| && s.resvs[vid].items[k].resource == rid
      ensures E.Commit(s, vid).1.CommitRejected?
    {
      var v := s.resvs[vid];
      if v.composition in s.comps { ScanNeedsEligible(s.resources, s.comps[v.composition].request, v.items,
        s.held, k); }
    }
  }

  // ---- what keeps it -----------------------------------------------------------

  lemma DemotionKeepsUnused(s: E.State, t: E.State, rid: ResourceId)
    requires Demoted(s, t) && Unused(s.comps, rid)
    ensures Unused(t.comps, rid)
  {
    forall id | id in t.comps && t.comps[id].lifecycle == Active ensures rid !in t.comps[id].graph.vertices {
      assert Lowered(s.comps[id], t.comps[id]);
    }
  }

  /** One composition replaced by one that is not ACTIVE, or does not contain the resource. */
  lemma UpdateKeepsUnused(comps: map<CompositionId, Composition>, cid: CompositionId, c: Composition, rid: ResourceId)
    requires Unused(comps, rid) && (c.lifecycle == Active ==> rid !in c.graph.vertices)
    ensures Unused(comps[cid := c], rid)
  {
  }

  lemma {:induction false} IngestOthersKeepsSuspect(s: E.State, rs: seq<Resource>, rid: ResourceId)
    requires Suspect(s.resources, rid) && forall r :: r in rs ==> r.id != rid
    ensures Suspect(E.IngestResources(s, rs).resources, rid)
  {
    if rs != [] {
      assert rs[|rs| - 1] in rs;
      IngestOthersKeepsSuspect(s, rs[..|rs| - 1], rid);
    }
  }

  lemma DiscoverKeepsSuspect(s: E.State, ns: seq<Node>, rs: seq<Resource>, found: map<(NodeId, NodeId), PathEvidence>,
                             rid: ResourceId)
    requires Suspect(s.resources, rid) && forall r :: r in rs ==> r.id != rid
    ensures Suspect(E.Discover(s, ns, rs, found).resources, rid)
  {
    IngestNodesKeepsResources(s, ns);
    IngestOthersKeepsSuspect(E.IngestNodes(s, ns), rs, rid);
  }

  lemma InvalidationKeepsSuspect(s: E.State, call: Call, rid: ResourceId)
    requires Suspect(s.resources, rid) && IsInvalidation(call) && Leaves(rid, Atomic(call))
    ensures Suspect(Operation(s, call).resources, rid)
  {
    match call
    case IngestResource(r) =>
    case Discover(ns, rs, found) => DiscoverKeepsSuspect(s, ns, rs, found, rid);
    case AdvanceEpoch(next) => AdvanceEpochDemotes(s, next);
    case _ => QuietStepQuiets(s, call);
  }

  lemma ActivateKeepsQuarantine(s: E.State, cid: CompositionId, rid: ResourceId)
    requires Quarantined(s, rid)
    ensures Quarantined(E.Activate(s, cid).0, rid)
  {
    if cid in s.comps {
      var c := s.comps[cid];
      if E.Revalidate(c, s.resources, s.epoch).None? {
        RevalidatedIsBound(c, s.resources, s.epoch);
        UpdateKeepsUnused(s.comps, cid, c.(lifecycle := Active, outcome := Success), rid);
      }
    }
  }

  lemma ReserveKeepsQuarantine(s: E.State, plan: Plan, rid: ResourceId)
    requires Quarantined(s, rid)
    ensures Quarantined(E.Reserve(s, plan).0, rid)
  {
    UpdateKeepsUnused(s.comps, plan.id, E.NewComposition(plan, s.nextSet, s.nextResv), rid);
  }

  lemma CommitKeepsQuarantine(s: E.State, vid: ReservationId, rid: ResourceId)
    requires Quarantined(s, rid)
    ensures Quarantined(E.Commit(s, vid).0, rid)
  {
  }

  lemma DrainKeepsQuarantine(s: E.State, cid: CompositionId, rid: ResourceId)
    requires Quarantined(s, rid)
    ensures Quarantined(E.BeginDrain(s, cid).0, rid)
    ensures Quarantined(E.EndDrain(s, cid).0, rid)
  {
  }

  lemma ReleaseKeepsQuarantine(s: E.State, cid: CompositionId, rid: ResourceId)
    requires Quarantined(s, rid)
    ensures Quarantined(E.Release(s, cid).0, rid)
    ensures Quarantined(E.ReleaseOld(s, cid), rid)
  {
  }

  lemma OperationKeepsQuarantine(s: E.State, call: Call, rid: ResourceId)
    requires Quarantined(s, rid) && Leaves(rid, Atomic(call))
    ensures Quarantined(Operation(s, call), rid)
  {
    if IsInvalidation(call) {
      InvalidationDemotes(s, call);
      InvalidationKeepsSuspect(s, call, rid);
      DemotionKeepsUnused(s, Operation(s, call), rid);
    } else {
      match call
      case Reserve(plan) => ReserveKeepsQuarantine(s, plan, rid);
      case Commit(vid) => CommitKeepsQuarantine(s, vid, rid);
      case Activate(cid) => ActivateKeepsQuarantine(s, cid, rid);
      case BeginDrain(cid) => DrainKeepsQuarantine(s, cid, rid);
      case EndDrain(cid) => DrainKeepsQuarantine(s, cid, rid);
      case Release(cid) => ReleaseKeepsQuarantine(s, cid, rid);
    }
  }

  lemma AdvanceKeepsQuarantine(s: E.State, cl: Client, rid: ResourceId)
    requires Quarantined(s, rid) && !cl.Asked?
    ensures Quarantined(Advance(s, cl).0, rid)
  {
    match cl
    case Composed(prior, _, _) => ReleaseKeepsQuarantine(s, prior, rid);
    case Freed(_, plan, _, _) => ReserveKeepsQuarantine(s, plan, rid);
    case Holding(_, _, _, _, vid) => CommitKeepsQuarantine(s, vid, rid);
    case Agreed(_, _, _, _, cid) => ActivateKeepsQuarantine(s, cid, rid);
    case _ =>
  }

  lemma StepKeepsQuarantine(c: Config, step: Step, rid: ResourceId)
    requires Quarantined(c.s, rid) && Leaves(rid, step)
    ensures Quarantined(Next(c, step).s, rid)
  {
    match step
    case Atomic(call) => OperationKeepsQuarantine(c.s, call, rid);
    case Compose(order, req) => ComposeHandsOut(c, order, req);
    case RecomputeCall(_, _) =>
    case RecomputeSection(k, order) =>
      if k in c.clients {
        if c.clients[k].Asked? {
          ComposeHandsOut(c, order, c.clients[k].req);
        } else {
          AdvanceKeepsQuarantine(c.s, c.clients[k], rid);
        }
      }
  }

  lemma {:induction false} QuarantineLasts(c: Config, run: seq<Step>, rid: ResourceId)
    requires Quarantined(c.s, rid) && forall step :: step in run ==> Leaves(rid, step)
    ensures Quarantined(Exec(Next, c, run).s, rid)
    decreases |run|
  {
    if run != [] {
      assert run[0] in run && forall step :: step in run[1..] ==> step in run;
      StepKeepsQuarantine(c, run[0], rid);
      QuarantineLasts(Next(c, run[0]), run[1..], rid);
    }
  }

  // ---- what starts it ----------------------------------------------------------

  /** The events after which the resource is in quarantine. */
  ghost predicate Strikes(s: E.State, call: Call, rid: ResourceId)
  {
    match call
    case Withdraw(r) => r == rid
    case ResourceFailure(r) => r == rid
    case WorkerDeath(owner) => rid in s.resources && E.OwnedBy(s.resources[rid], owner)
    case _ => false
  }

  lemma WithdrawQuarantines(s: E.State, rid: ResourceId)
    requires Current(s)
    ensures Quarantined(E.Withdraw(s, rid), rid)
  {
    if rid !in s.resources {
      forall id | id in s.comps && s.comps[id].lifecycle == Active ensures rid !in s.comps[id].graph.vertices {
        assert Bound(s.comps[id], s.resources, s.epoch);
      }
    }
  }

  lemma FailureQuarantines(s: E.State, rid: ResourceId)
    ensures Quarantined(E.ResourceFailure(s, rid), rid)
  {
  }

  lemma MemberTouchesOwner(c: Composition, resources: map<ResourceId, Resource>, owner: string, rid: ResourceId)
    requires rid in resources && E.OwnedBy(resources[rid], owner)
    ensures rid in c.graph.vertices ==> E.TouchesOwner(c, resources, owner)
  {
  }

  lemma DeathQuarantines(s: E.State, owner: string, rid: ResourceId)
    requires rid in s.resources && E.OwnedBy(s.resources[rid], owner)
    ensures Quarantined(E.WorkerDeath(s, owner), rid)
  {
    var t := E.WorkerDeath(s, owner);
    forall id | id in t.comps && t.comps[id].lifecycle == Active ensures rid !in t.comps[id].graph.vertices {
      MemberTouchesOwner(s.comps[id], t.resources, owner, rid);
    }
  }

  lemma StrikeQuarantines(s: E.State, call: Call, rid: ResourceId)
    requires Current(s) && Strikes(s, call, rid)
    ensures Quarantined(Operation(s, call), rid)
  {
    match call
    case Withdraw(_) => WithdrawQuarantines(s, rid);
    case ResourceFailure(_) => FailureQuarantines(s, rid);
    case WorkerDeath(owner) => DeathQuarantines(s, owner, rid);
  }

  /** Quarantine: from any reachable state, after the event and any further run that does not
      register the resource again, it is barred. */
  lemma QuarantineHolds(epoch: Epoch, run: seq<Step>, call: Call, more: seq<Step>, rid: ResourceId)
    requires Strikes(Reached(epoch, run).s, call, rid)
    requires forall step :: step in more ==> Leaves(rid, step)
    ensures Barred(Exec(Next, Next(Reached(epoch, run), Atomic(call)), more).s, rid)
  {
    var c := Reached(epoch, run);
    EveryRunIsSound(epoch, run);
    StrikeQuarantines(c.s, call, rid);
    var d := Next(c, Atomic(call));
    QuarantineLasts(d, more, rid);
    QuarantineBars(Exec(Next, d, more).s, rid);
  }
}
