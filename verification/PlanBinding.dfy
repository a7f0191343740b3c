/** What a composition keeps of its plan, over every run that reserves only issued plans, reloads
    included; and so what an update of a path means for the compositions that cross it. */
module PlanBinding {
  import opened FabricTypes
  import opened Eligibility
  import opened Candidates
  import opened PlanGraph
  import opened Planner
  import opened PlannerTheorems
  import opened PlanTheorems
  import opened RunTheory
  import E = Engine
  import opened Runs
  import opened Invalidation
  import opened AuthorityInvariant
  import opened RecomputeInvariant
  import opened AuthorityTheorems
  import opened Progress
  import F = Effects

  // ---- every composition in force carries its plan ------------------------------

  /** The composition was issued under its id and is its plan, field by field. */
  ghost predicate AsPlanned(c: Composition, issued: map<CompositionId, Plan>)
  {
    c.id in issued && F.Carries(c, issued[c.id])
  }

  predicate InForce(l: Lifecycle) { l == Committed || l == Active }

  /** So is every composition that is COMMITTED or ACTIVE, or that a reservation is kept for. */
  ghost predicate Backed(s: E.State, issued: map<CompositionId, Plan>)
  {
    && (forall id :: id in s.comps && InForce(s.comps[id].lifecycle) ==> AsPlanned(s.comps[id], issued))
    && (forall v :: v in s.resvs ==>
         s.resvs[v].composition in s.comps && AsPlanned(s.comps[s.resvs[v].composition], issued))
  }

  lemma DemotionKeepsBacked(s: E.State, t: E.State, issued: map<CompositionId, Plan>)
    requires Backed(s, issued) && Demoted(s, t)
    ensures Backed(t, issued)
  {
    forall id | id in t.comps ensures Lowered(s.comps[id], t.comps[id]) {
    }
  }

  /** No reservation is new, and none has changed hands. */
  ghost predicate SameOwners(s: E.State, t: E.State)
  {
    forall v :: v in t.resvs ==> v in s.resvs && t.resvs[v].composition == s.resvs[v].composition
  }

  lemma OneChangeKeepsOwners(s: E.State, t: E.State, vid: ReservationId)
    requires F.OtherResvs(s, t, vid)
    requires vid in t.resvs ==> vid in s.resvs && t.resvs[vid].composition == s.resvs[vid].composition
    ensures SameOwners(s, t)
  {
  }

  /** One composition is replaced by another version of itself; reservations keep their compositions. */
  lemma VersionKeepsBacked(s: E.State, t: E.State, issued: map<CompositionId, Plan>, id: CompositionId)
    requires Backed(s, issued) && F.OtherComps(s, t, id) && id in s.comps && id in t.comps
    requires F.SameRecord(s.comps[id], t.comps[id])
    requires InForce(t.comps[id].lifecycle) ==> AsPlanned(s.comps[id], issued)
    requires SameOwners(s, t)
    ensures Backed(t, issued)
  {
    assert AsPlanned(s.comps[id], issued) ==> AsPlanned(t.comps[id], issued);
  }

  lemma NewPlanKeepsBacked(s: E.State, t: E.State, issued: map<CompositionId, Plan>, plan: Plan, v: Reservation)
    requires Backed(s, issued) && plan.id in issued && issued[plan.id] == plan
    requires plan.id in t.comps && F.Carries(t.comps[plan.id], plan) && F.OtherComps(s, t, plan.id)
    requires v.composition == plan.id && v.id in t.resvs && t.resvs[v.id] == v && F.OtherResvs(s, t, v.id)
    ensures Backed(t, issued)
  {
    assert AsPlanned(t.comps[plan.id], issued);
  }

  lemma ReserveKeepsBacked(s: E.State, issued: map<CompositionId, Plan>, plan: Plan)
    requires Backed(s, issued) && plan.id in issued && issued[plan.id] == plan
    ensures Backed(E.Reserve(s, plan).0, issued)
  {
    F.ReserveEffect(s, plan);
    var (t, r) := E.Reserve(s, plan);
    if r.ReserveOk? { NewPlanKeepsBacked(s, t, issued, plan, r.reservation); }
  }

  lemma CommitKeepsBacked(s: E.State, issued: map<CompositionId, Plan>, vid: ReservationId)
    requires Backed(s, issued)
    ensures Backed(E.Commit(s, vid).0, issued)
  {
    F.CommitEffect(s, vid);
    if F.Pending(s, vid) {
      OneChangeKeepsOwners(s, E.Commit(s, vid).0, vid);
      VersionKeepsBacked(s, E.Commit(s, vid).0, issued, s.resvs[vid].composition);
    }
  }

  lemma ActivateKeepsBacked(s: E.State, issued: map<CompositionId, Plan>, cid: CompositionId)
    requires Backed(s, issued)
    ensures Backed(E.Activate(s, cid).0, issued)
  {
    F.ActivateEffect(s, cid);
    if E.Activate(s, cid).0 != s { VersionKeepsBacked(s, E.Activate(s, cid).0, issued, cid); }
  }

  lemma BeginDrainKeepsBacked(s: E.State, issued: map<CompositionId, Plan>, cid: CompositionId)
    requires Backed(s, issued)
    ensures Backed(E.BeginDrain(s, cid).0, issued)
  {
    F.BeginDrainEffect(s, cid);
    if E.BeginDrain(s, cid).1 { VersionKeepsBacked(s, E.BeginDrain(s, cid).0, issued, cid); }
  }

  lemma EndingKeepsBacked(s: E.State, t: E.State, issued: map<CompositionId, Plan>, cid: CompositionId)
    requires Backed(s, issued) && F.Ends(s, t, cid)
    ensures Backed(t, issued)
  {
    OneChangeKeepsOwners(s, t, s.comps[cid].reservation);
    VersionKeepsBacked(s, t, issued, cid);
  }

  lemma EndDrainKeepsBacked(s: E.State, issued: map<CompositionId, Plan>, cid: CompositionId)
    requires Backed(s, issued)
    ensures Backed(E.EndDrain(s, cid).0, issued)
  {
    F.EndDrainEffect(s, cid);
    if E.EndDrain(s, cid).1 { EndingKeepsBacked(s, E.EndDrain(s, cid).0, issued, cid); }
  }

  lemma ReleaseKeepsBacked(s: E.State, issued: map<CompositionId, Plan>, cid: CompositionId)
    requires Backed(s, issued)
    ensures Backed(E.Release(s, cid).0, issued) && Backed(E.ReleaseOld(s, cid), issued)
  {
    F.ReleaseEffect(s, cid);
    F.ReleaseOldEffect(s, cid);
    if E.Release(s, cid).1 { EndingKeepsBacked(s, E.Release(s, cid).0, issued, cid); }
    if cid in s.comps { EndingKeepsBacked(s, E.ReleaseOld(s, cid), issued, cid); }
  }

  lemma OperationKeepsBacked(c: Config, call: Call)
    requires Sound(c) && Backed(c.s, c.issued) && IssuedOnly(c, Atomic(call))
    ensures Backed(Operation(c.s, call), c.issued)
  {
    if IsInvalidation(call) {
      InvalidationDemotes(c.s, call);
      DemotionKeepsBacked(c.s, Operation(c.s, call), c.issued);
    } else {
      match call
      case Reserve(plan) => ReserveKeepsBacked(c.s, c.issued, plan);
      case Commit(vid) => CommitKeepsBacked(c.s, c.issued, vid);
      case Activate(cid) => ActivateKeepsBacked(c.s, c.issued, cid);
      case BeginDrain(cid) => BeginDrainKeepsBacked(c.s, c.issued, cid);
      case EndDrain(cid) => EndDrainKeepsBacked(c.s, c.issued, cid);
      case Release(cid) => ReleaseKeepsBacked(c.s, c.issued, cid);
      case Load(d) => LoadCompsInert(d.comps);
    }
  }

  lemma AdvanceKeepsBacked(c: Config, cl: Client)
    requires Sound(c) && Backed(c.s, c.issued) && ClientOk(c.s, c.issued, cl) && !cl.Asked?
    ensures Backed(Advance(c.s, cl).0, c.issued)
  {
    match cl
    case Composed(prior, _, _) => ReleaseKeepsBacked(c.s, c.issued, prior);
    case Freed(_, plan, _, _) => ReserveKeepsBacked(c.s, c.issued, plan);
    case Holding(_, _, _, _, vid) => CommitKeepsBacked(c.s, c.issued, vid);
    case Agreed(_, _, _, _, cid) => ActivateKeepsBacked(c.s, c.issued, cid);
    case _ =>
  }

  lemma HandingOutKeepsBacked(c: Config, d: Config, plan: Plan)
    requires Sound(c) && Backed(c.s, c.issued) && HandsOut(c, d, plan)
    ensures Backed(d.s, d.issued)
  {
    assert IssuedGrows(c.issued, d.issued);
    MorePlansKeepBacked(c.s, c.issued, d.issued);
  }

  lemma MorePlansKeepBacked(s: E.State, issued: map<CompositionId, Plan>, issued': map<CompositionId, Plan>)
    requires Backed(s, issued) && IssuedGrows(issued, issued')
    ensures Backed(s, issued')
  {
  }

  lemma CoreKeepsBacked(c: Config, step: Step)
    requires Sound(c) && Backed(c.s, c.issued) && IssuedOnly(c, step)
    ensures Backed(Core(c, step).s, Core(c, step).issued)
  {
    match step
    case Atomic(call) => OperationKeepsBacked(c, call);
    case Compose(order, req) => ComposeKeepsBacked(c, order, req);
    case RecomputeCall(_, _) =>
    case RecomputeSection(k, order) =>
      if k in c.clients {
        if c.clients[k].Asked? {
          ComposeKeepsBacked(c, order, c.clients[k].req);
        } else {
          AdvanceKeepsBacked(c, c.clients[k]);
        }
      }
  }

  lemma ComposeKeepsBacked(c: Config, order: seq<ResourceId>, req: Request)
    requires Sound(c) && Backed(c.s, c.issued)
    ensures var d := ComposeIn(c, order, req).0; Backed(d.s, d.issued)
  {
    ComposeHandsOut(c, order, req);
    var (d, plan) := ComposeIn(c, order, req);
    if plan.Some? { HandingOutKeepsBacked(c, d, plan.value); }
  }

  ghost predicate SoundlyBacked(c: Config) { Sound(c) && Backed(c.s, c.issued) }

  /** In every run that reserves only issued plans, a COMMITTED or ACTIVE composition is its plan: the
      same generation, vertices, edges, request, authority, rank and paths. */
  lemma CompositionsCarryPlans(epoch: Epoch, run: seq<Step>)
    requires Allowed(Next, IssuedOnly, Start(epoch), run)
    ensures SoundlyBacked(Reached(epoch, run))
  {
    forall d: Config, step: Step | SoundlyBacked(d) && IssuedOnly(d, step) ensures SoundlyBacked(Next(d, step)) {
      NextKeepsSound(d, step);
      CoreKeepsBacked(d, step);
    }
    Invariance(Next, IssuedOnly, SoundlyBacked, Start(epoch), run);
  }
}
