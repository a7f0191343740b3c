/** What the planner prefers: the order of the candidates of a class and the rank of a plan, in terms of
    capacities, counts and nodes. */
module Preference {
  import opened FabricTypes
  import opened Eligibility
  import opened Candidates
  import opened PlanGraph
  import opened Planner
  import opened PlannerTheorems
  import opened PlanTheorems
  import opened RequestMeaning
  import T = RequestTheorems
  import E = Engine

  // ---- candidates --------------------------------------------------------------

  /** What speaks for a candidate: what it supplies of a measured class, and being reachable. */
  function Merit(r: Resource, cls: ResourceClass): real
  {
    (if Measured(cls) && Supply(r, cls) > 0.0 then Supply(r, cls) else 0.0) +
    (if r.reachability == Reachable then 10.0 else 0.0)
  }

  /** Of two eligible candidates the one with the greater merit is tried first, and the smaller id
      decides between equals. */
  lemma PreferenceMeans(req: Request, d: Demand, a: Resource, b: Resource)
    requires Demanded(req, d) && Check(a, req).Eligible? && Check(b, req).Eligible?
    ensures Before(a, b, d) <==>
              Merit(a, d.cls) > Merit(b, d.cls) || (Merit(a, d.cls) == Merit(b, d.cls) && a.id < b.id)
  {
    EligibleMeans(a, req);
    EligibleMeans(b, req);
    ScoreIsMerit(req, d, a);
    ScoreIsMerit(req, d, b);
  }

  lemma ScoreIsMerit(req: Request, d: Demand, r: Resource)
    requires Demanded(req, d) && r.health == Healthy && r.readiness == Ready
    ensures ClassScore(r, d) == Merit(r, d.cls) + (if d.amountBased then 1100.0 else 1101.0)
  {
  }

  // ---- rank --------------------------------------------------------------------

  ghost function SumOf(ms: seq<Resource>, f: Resource -> real): real
  {
    if ms == [] then 0.0 else SumOf(ms[..|ms| - 1], f) + f(ms[|ms| - 1])
  }

  ghost function CountOf(ms: seq<Resource>, p: Resource -> bool): nat
  {
    if ms == [] then 0 else CountOf(ms[..|ms| - 1], p) + if p(ms[|ms| - 1]) then 1 else 0
  }

  function AtMostOne(x: real): real { if x > 1.0 then 1.0 else x }

  /** Ten for each member, one for each node, up to one for a tenth of all compute units and host memory
      (in units of a million), and up to one for a tenth of the members with compute units or storage. */
  ghost function Worth(ms: seq<Resource>): real
  {
    10.0 * |ms| as real
    + |set r | r in ms :: r.node| as real
    + AtMostOne((SumOf(ms, (r: Resource) => r.capacity.computeUnits) +
                 SumOf(ms, (r: Resource) => r.capacity.hostMemory) / 1000000.0) / 10.0)
    + AtMostOne((CountOf(ms, (r: Resource) => r.capacity.computeUnits > 0.0) +
                 CountOf(ms, (r: Resource) => r.capacity.storage > 0.0)) as real / 10.0)
  }

  lemma {:induction false} HealthyScore(ms: seq<Resource>)
    requires forall r :: r in ms ==> r.health == Healthy
    ensures HealthScore(ms) == 10.0 * |ms| as real
  {
    if ms != [] {
      assert ms[|ms| - 1] in ms;
      HealthyScore(ms[..|ms| - 1]);
    }
  }

  lemma {:induction false} CapacityIsSum(ms: seq<Resource>)
    ensures CapacityScore(ms) == SumOf(ms, (r: Resource) => r.capacity.computeUnits) +
              SumOf(ms, (r: Resource) => r.capacity.hostMemory) / 1000000.0
  {
    if ms != [] { CapacityIsSum(ms[..|ms| - 1]); }
  }

  lemma {:induction false} HeadroomIsCount(ms: seq<Resource>)
    ensures Headroom(ms) == (CountOf(ms, (r: Resource) => r.capacity.computeUnits > 0.0) +
              CountOf(ms, (r: Resource) => r.capacity.storage > 0.0)) as real
  {
    if ms != [] { HeadroomIsCount(ms[..|ms| - 1]); }
  }

  /** The rank of healthy members is their worth. */
  lemma RankIsWorth(ms: seq<Resource>)
    requires forall r :: r in ms ==> r.health == Healthy
    ensures Rank(ms) == Worth(ms)
  {
    HealthyScore(ms);
    CapacityIsSum(ms);
    HeadroomIsCount(ms);
  }

  /** The rank of a plan is the worth of its vertices. */
  lemma PlanRank(s: E.State, order: seq<ResourceId>, req: Request)
    requires WellKeyed(s.resources) && Enumerates(order, s.resources) && E.Compose(s, order, req).1.Some?
    ensures var plan := E.Compose(s, order, req).1.value;
            T.Known(s.resources, plan.graph.vertices) && plan.rank == Worth(Lookup(s.resources, plan.graph.vertices))
  {
    var plan := E.Compose(s, order, req).1.value;
    PlanSoundness(s, order, req);
    var ms := Lookup(s.resources, plan.graph.vertices);
    forall r | r in ms ensures r.health == Healthy {
      T.OutOfLookup(s.resources, plan.graph.vertices, r);
    }
    RankIsWorth(ms);
  }

  /** More members always beat fewer, by more than every other factor that nodes do not decide. */
  lemma MoreMembersRankHigher(few: seq<Resource>, many: seq<Resource>)
    requires |many| > |few| && (forall r :: r in few + many ==> r.health == Healthy && NonNegative(r.capacity))
    requires |set r | r in many :: r.node| >= |set r | r in few :: r.node|
    ensures Rank(many) > Rank(few)
  {
    assert forall r :: r in few || r in many ==> r in few + many;
    RankIsWorth(few);
    RankIsWorth(many);
    RankNonNegative(many);
    CapacityIsSum(many);
    HeadroomIsCount(many);
  }
}
