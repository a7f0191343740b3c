/** What an update of a path does to the compositions planned across it, over every run that reserves
    only issued plans. */
module PathTheorems {
  import opened FabricTypes
  import opened Eligibility
  import opened Candidates
  import opened PlanGraph
  import opened Planner
  import opened PlannerTheorems
  import opened PlanTheorems
  import opened RunTheory
  import E = Engine
  import opened Runs
  import opened AuthorityInvariant
  import opened RecomputeInvariant
  import opened AuthorityTheorems
  import opened Progress
  import opened PlanBinding
  import F = Effects

  // ---- where a plan comes from -------------------------------------------------

  /** The step hands out the plan: a Compose, or the composing section of a Recompute. */
  ghost predicate Issues(c: Config, step: Step, plan: Plan)
  {
    plan.id !in c.issued && plan.id in Next(c, step).issued && Next(c, step).issued[plan.id] == plan
  }

  /** The plan is what the search returns in that state. */
  ghost predicate ComposedIn(s: E.State, order: seq<ResourceId>, req: Request, plan: Plan)
  {
    Enumerates(order, s.resources) && E.Compose(s, order, req).1 == Some(plan)
  }

  lemma ComposeIssues(c: Config, order: seq<ResourceId>, req: Request, plan: Plan)
    requires plan.id !in c.issued
    requires var d := ComposeIn(c, order, req).0; plan.id in d.issued && d.issued[plan.id] == plan
    ensures ComposedIn(c.s, order, req, plan)
  {
  }

  lemma IssuedIsComposed(c: Config, step: Step, plan: Plan) returns (order: seq<ResourceId>, req: Request)
    requires Issues(c, step, plan)
    ensures ComposedIn(c.s, order, req, plan)
  {
    match step {
      case Compose(o, q) =>
        order, req := o, q;
        ComposeIssues(c, o, q, plan);
      case RecomputeSection(k, o) =>
        order, req := o, c.clients[k].req;
        ComposeIssues(c, o, req, plan);
      case Atomic(_) => assert false;
      case RecomputeCall(_, _) => assert false;
    }
  }

  lemma ComposeKeepsIssued(c: Config, order: seq<ResourceId>, req: Request)
    requires Issuing(c)
    ensures IssuedGrows(c.issued, ComposeIn(c, order, req).0.issued)
  {
    ComposeHandsOut(c, order, req);
  }

  lemma StepKeepsIssued(c: Config, step: Step)
    requires Sound(c)
    ensures IssuedGrows(c.issued, Next(c, step).issued)
  {
    match step
    case Atomic(_) =>
    case Compose(order, req) => ComposeKeepsIssued(c, order, req);
    case RecomputeCall(_, _) =>
    case RecomputeSection(k, order) =>
      if k in c.clients && c.clients[k].Asked? { ComposeKeepsIssued(c, order, c.clients[k].req); }
  }

  ghost predicate HasIssued(plan: Plan, c: Config)
  {
    Sound(c) && plan.id in c.issued && c.issued[plan.id] == plan
  }

  lemma IssuedStays(plan: Plan, c: Config, run: seq<Step>)
    requires HasIssued(plan, c)
    ensures HasIssued(plan, Exec(Next, c, run))
  {
    forall d: Config, step: Step | HasIssued(plan, d) ensures HasIssued(plan, Next(d, step)) {
      StepKeepsIssued(d, step);
      NextKeepsSound(d, step);
    }
    EveryRun(Next, d => HasIssued(plan, d), c, run);
  }

  // ---- paths a plan crosses ----------------------------------------------------

  /** Two members of the plan, one of which needs the other, on two nodes with `path` on record between them. */
  ghost predicate Spans(s: E.State, plan: Plan, a: ResourceId, b: ResourceId, path: PathEvidence)
  {
    && a in plan.graph.vertices && b in plan.graph.vertices && a in s.resources && b in s.resources
    && Needs(s.resources[a].cls, s.resources[b].cls) != {} && s.resources[a].node != s.resources[b].node
    && (s.resources[a].node, s.resources[b].node) in s.paths
    && s.paths[(s.resources[a].node, s.resources[b].node)] == path
  }

  lemma NeedIsAnEdge(resources: map<ResourceId, Resource>, req: Request, vs: seq<ResourceId>, a: ResourceId,
                     b: ResourceId)
    requires WellKeyed(resources) && (forall id :: id in vs ==> id in resources) && a in vs && b in vs && a != b
    requires Needs(resources[a].cls, resources[b].cls) != {}
    ensures Edge(a, b, ReachabilityEdge, req.minBandwidth, req.maxLatency) in
              BuildGraph(req, Lookup(resources, vs)).edges
  {
    var ms := Lookup(resources, vs);
    var i :| 0 <= i < |ms| && vs[i] == a;
    var j :| 0 <= j < |ms| && vs[j] == b;
    assert ms[i] in ms && ms[j] in ms;
    var e := Edge(a, b, ReachabilityEdge, req.minBandwidth, req.maxLatency);
    assert Relates(req, e, ms[i], ms[j]);
    EdgesAreNeeds(req, ms, e);
  }

  /** The graph of a plan, from the state it was composed in. */
  lemma GraphOfPlan(s: E.State, order: seq<ResourceId>, req: Request, plan: Plan)
    requires WellKeyed(s.resources) && ComposedIn(s, order, req, plan)
    ensures forall id :: id in plan.graph.vertices ==> id in s.resources
    ensures plan.graph == BuildGraph(req, Lookup(s.resources, plan.graph.vertices))
  {
    PlanSoundness(s, order, req);
  }

  /** A plan records every path its members span. */
  lemma SpannedPathIsRecorded(s: E.State, order: seq<ResourceId>, req: Request, plan: Plan, a: ResourceId,
                              b: ResourceId, path: PathEvidence)
    requires WellKeyed(s.resources) && ComposedIn(s, order, req, plan) && Spans(s, plan, a, b, path)
    ensures path in plan.paths
  {
    GraphOfPlan(s, order, req, plan);
    NeedIsAnEdge(s.resources, req, plan.graph.vertices, a, b);
    EdgeCrosses(s, a, b, req, path);
    PlanPaths(s, order, req, path);
  }

  lemma EdgeCrosses(s: E.State, a: ResourceId, b: ResourceId, req: Request, path: PathEvidence)
    requires a in s.resources && b in s.resources && s.resources[a].node != s.resources[b].node
    requires (s.resources[a].node, s.resources[b].node) in s.paths
    requires s.paths[(s.resources[a].node, s.resources[b].node)] == path
    ensures Crosses(E.RegistryOf(s), Edge(a, b, ReachabilityEdge, req.minBandwidth, req.maxLatency), path)
  {
  }

  /** An update of a path at another generation finds every ACTIVE composition that carries it. */
  lemma CarriedPathDemotes(s: E.State, id: CompositionId, path: PathEvidence, pe: PathEvidence)
    requires id in s.comps && path in s.comps[id].paths
    requires pe.from == path.from && pe.to == path.to && pe.generation != path.generation
    ensures Loses(s, id, pe)
  {
    var c := s.comps[id];
    var i :| 0 <= i < |c.paths| && c.paths[i] == path;
    assert E.UsesPath(c, pe);
  }

  /** After the update the composition is not ACTIVE; if it was, it must be recomposed. */
  ghost predicate Loses(s: E.State, id: CompositionId, pe: PathEvidence)
  {
    var t := E.PathUpdate(s, pe);
    !IsActive(t, id) && (IsActive(s, id) ==> id in t.comps && t.comps[id].lifecycle == RecompositionRequired)
  }

  /** Path updates over runs.  Whenever the plan of an ACTIVE composition, at the moment it was composed,
      had two members that need each other on two nodes with a path on record between them, an update of
      that path at another generation takes its authority away. */
  lemma PathUpdateDemotes(epoch: Epoch, before: seq<Step>, step: Step, after: seq<Step>, plan: Plan, a: ResourceId,
                          b: ResourceId, path: PathEvidence, pe: PathEvidence)
    requires Allowed(Next, IssuedOnly, Start(epoch), before + ([step] + after))
    requires Issues(Reached(epoch, before), step, plan) && Spans(Reached(epoch, before).s, plan, a, b, path)
    requires pe.from == path.from && pe.to == path.to && pe.generation != path.generation
    ensures Loses(Reached(epoch, before + ([step] + after)).s, plan.id, pe)
  {
    var c := Reached(epoch, before);
    var d := Reached(epoch, before + ([step] + after));
    PlanIsKept(epoch, before, step, after, plan);
    EveryRunIsSound(epoch, before);
    var order, req := IssuedIsComposed(c, step, plan);
    SpannedPathIsRecorded(c.s, order, req, plan, a, b, path);
    CompositionsCarryPlans(epoch, before + ([step] + after));
    BackedPathDemotes(d, plan, path, pe);
  }

  lemma BackedPathDemotes(d: Config, plan: Plan, path: PathEvidence, pe: PathEvidence)
    requires SoundlyBacked(d) && HasIssued(plan, d) && path in plan.paths
    requires pe.from == path.from && pe.to == path.to && pe.generation != path.generation
    ensures Loses(d.s, plan.id, pe)
  {
    if IsActive(d.s, plan.id) {
      assert AsPlanned(d.s.comps[plan.id], d.issued);
      CarriedPathDemotes(d.s, plan.id, path, pe);
    } else {
      InactiveStaysSo(d.s, plan.id, pe);
    }
  }

  lemma PlanIsKept(epoch: Epoch, before: seq<Step>, step: Step, after: seq<Step>, plan: Plan)
    requires Issues(Reached(epoch, before), step, plan)
    ensures HasIssued(plan, Reached(epoch, before + ([step] + after)))
  {
    var c := Reached(epoch, before);
    ExecAppend(Next, Start(epoch), before, [step] + after);
    assert ([step] + after)[1..] == after;
    EveryRunIsSound(epoch, before);
    NextKeepsSound(c, step);
    IssuedStays(plan, Next(c, step), after);
  }

  lemma InactiveStaysSo(s: E.State, id: CompositionId, pe: PathEvidence)
    requires !IsActive(s, id)
    ensures !IsActive(E.PathUpdate(s, pe), id)
  {
  }
}
