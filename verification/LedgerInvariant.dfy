/** What every disciplined step keeps: the books balance, every composition owns one reservation
    whose items are its vertices and whose state fits its lifecycle, every live reservation is
    owned, and authority once lost stays lost. */
module LedgerInvariant {
  import opened FabricTypes
  import opened Eligibility
  import opened PlannerTheorems
  import E = Engine
  import opened LedgerArithmetic
  import opened Runs
  import opened Invalidation
  import opened AuthorityInvariant
  import opened Books

  // ---- ownership ---------------------------------------------------------------

  /** The reservation states a composition's lifecycle allows. */
  predicate Fits(l: Lifecycle, state: ReservationState)
  {
    match l
    case Reserved => state == Provisional
    case Committed => state == CommittedHold
    case Active => state == CommittedHold
    case Draining => state == CommittedHold
    case RecompositionRequired => state == CommittedHold
    case RevalidationRequired => state == Provisional || state == CommittedHold || state == RolledBack
    case Released => state == ReleasedHold
    case _ => false
  }

  ghost predicate ItemsAre(items: seq<Item>, vs: seq<ResourceId>)
  {
    |items| == |vs| && forall i :: 0 <= i < |vs| ==> items[i].resource == vs[i]
  }

  ghost predicate Owns(c: Composition, resvs: map<ReservationId, Reservation>)
  {
    && c.reservation in resvs
    && resvs[c.reservation].composition == c.id
    && ItemsAre(resvs[c.reservation].items, c.graph.vertices)
    && Fits(c.lifecycle, resvs[c.reservation].state)
  }

  ghost predicate Owned(comps: map<CompositionId, Composition>, resvs: map<ReservationId, Reservation>)
  {
    && (forall id :: id in comps ==> comps[id].id == id && Owns(comps[id], resvs))
    && (forall v :: v in resvs && Live(resvs[v]) ==>
         resvs[v].composition in comps && comps[resvs[v].composition].reservation == v)
  }

  ghost predicate Licensed(comps: map<CompositionId, Composition>, issued: map<CompositionId, Plan>)
  {
    forall id :: id in comps ==> id in issued && comps[id].graph == issued[id].graph
  }

  ghost predicate GoodPlans(issued: map<CompositionId, Plan>)
  {
    forall id :: id in issued ==> issued[id].graph.vertices != [] && NoDup(issued[id].graph.vertices)
  }

  ghost predicate PositiveHolds(resources: map<ResourceId, Resource>)
  {
    forall k :: k in resources ==> PositiveHold(resources[k])
  }

  /** The state part of the invariant. */
  ghost predicate Ledger(s: E.State)
  {
    PositiveHolds(s.resources) && Balanced(s.resvs, s.held, s.nextResv) && Owned(s.comps, s.resvs)
  }

  // ---- lost authority ----------------------------------------------------------

  /** Demoted and still holding, so that its plan cannot be reserved again. */
  ghost predicate Stuck(s: E.State, id: CompositionId)
  {
    && id in s.comps && (s.comps[id].lifecycle == RecompositionRequired ||
         s.comps[id].lifecycle == RevalidationRequired)
    && s.comps[id].reservation in s.resvs && s.resvs[s.comps[id].reservation].state == CommittedHold
  }

  ghost predicate Gone(s: E.State, id: CompositionId) { id in s.fenced || Stuck(s, id) }

  ghost predicate Fell(s: E.State, t: E.State, id: CompositionId)
  {
    IsActive(s, id) && id in t.comps &&
      (t.comps[id].lifecycle == RecompositionRequired || t.comps[id].lifecycle == RevalidationRequired)
  }

  /** Nothing that is gone comes back, and what falls is gone. */
  ghost predicate StaysGone(s: E.State, t: E.State)
  {
    forall id :: Gone(s, id) || Fell(s, t, id) ==> Gone(t, id)
  }

  // ---- invalidation ------------------------------------------------------------

  lemma LoweredOwns(c: Composition, c': Composition, resvs: map<ReservationId, Reservation>)
    requires Owns(c, resvs) && Lowered(c, c')
    ensures Owns(c', resvs) && c'.id == c.id && c'.reservation == c.reservation && c'.graph == c.graph
  {
  }

  lemma DemotionKeepsLedger(s: E.State, t: E.State)
    requires Ledger(s) && Demoted(s, t) && PositiveHolds(t.resources)
    ensures Ledger(t)
  {
    forall id | id in t.comps ensures t.comps[id].id == id && Owns(t.comps[id], t.resvs) {
      LoweredOwns(s.comps[id], t.comps[id], s.resvs);
    }
    forall v | v in t.resvs && Live(t.resvs[v])
      ensures t.resvs[v].composition in t.comps && t.comps[t.resvs[v].composition].reservation == v
    {
      var id := s.resvs[v].composition;
      LoweredOwns(s.comps[id], t.comps[id], s.resvs);
    }
  }

  lemma DemotionStaysGone(s: E.State, t: E.State)
    requires Ledger(s) && Demoted(s, t)
    ensures StaysGone(s, t)
  {
    forall id | Gone(s, id) || Fell(s, t, id) ensures Gone(t, id) {
      if id in s.comps { LoweredOwns(s.comps[id], t.comps[id], s.resvs); }
    }
  }

  lemma {:induction false} IngestKeepsPositive(s: E.State, rs: seq<Resource>)
    requires PositiveHolds(s.resources) && forall r :: r in rs ==> PositiveHold(r)
    ensures PositiveHolds(E.IngestResources(s, rs).resources)
  {
    if rs != [] {
      assert rs[|rs| - 1] in rs;
      IngestKeepsPositive(s, rs[..|rs| - 1]);
    }
  }

  lemma SameGenerationsKeepsPositive(r: map<ResourceId, Resource>, r': map<ResourceId, Resource>)
    requires PositiveHolds(r) && SameGenerations(r, r')
    ensures PositiveHolds(r')
  {
  }

  lemma InvalidationKeepsPositive(c: Config, call: Call)
    requires PositiveHolds(c.s.resources) && IsInvalidation(call) && DisciplinedCall(c, call)
    ensures PositiveHolds(Operation(c.s, call).resources)
  {
    match call
    case IngestResource(r) =>
    case Discover(ns, rs, found) =>
      IngestNodesKeepsResources(c.s, ns);
      IngestKeepsPositive(E.IngestNodes(c.s, ns), rs);
    case AdvanceEpoch(next) =>
      AdvanceEpochDemotes(c.s, next);
      SameGenerationsKeepsPositive(c.s.resources, Operation(c.s, call).resources);
    case _ =>
      QuietStepQuiets(c.s, call);
      SameGenerationsKeepsPositive(c.s.resources, Operation(c.s, call).resources);
  }

  // ---- one composition and its reservation -------------------------------------

  /** Replacing one composition and its own reservation by a matching pair. */
  lemma PairKeepsOwned(comps: map<CompositionId, Composition>, resvs: map<ReservationId, Reservation>, c: Composition,
                       v: Reservation)
    requires Owned(comps, resvs) && c.id in comps && c.reservation == comps[c.id].reservation
    requires v.composition == c.id && ItemsAre(v.items, c.graph.vertices) && Fits(c.lifecycle, v.state)
    ensures Owned(comps[c.id := c], resvs[c.reservation := v])
  {
    var comps', resvs' := comps[c.id := c], resvs[c.reservation := v];
    forall id | id in comps' ensures comps'[id].id == id && Owns(comps'[id], resvs') {
      if id != c.id { assert Owns(comps[id], resvs) && Owns(comps[c.id], resvs); }
    }
  }

  /** A composition under a new reservation, when its old one, if any, is no longer live. */
  lemma NewPairKeepsOwned(comps: map<CompositionId, Composition>, resvs: map<ReservationId, Reservation>,
                          c: Composition, v: Reservation)
    requires Owned(comps, resvs) && c.reservation !in resvs
    requires c.id in comps ==> !Live(resvs[comps[c.id].reservation])
    requires v.composition == c.id && ItemsAre(v.items, c.graph.vertices) && Fits(c.lifecycle, v.state)
    ensures Owned(comps[c.id := c], resvs[c.reservation := v])
  {
    var comps', resvs' := comps[c.id := c], resvs[c.reservation := v];
    forall id | id in comps' ensures comps'[id].id == id && Owns(comps'[id], resvs') {
      if id != c.id { assert Owns(comps[id], resvs); }
    }
  }

  /** A change of one composition that was not gone, and of its own reservation, keeps the rest gone. */
  lemma PairStaysGone(s: E.State, t: E.State, cid: CompositionId)
    requires Owned(s.comps, s.resvs) && s.fenced <= t.fenced && cid in s.comps && cid in t.comps
    requires t.comps == s.comps[cid := t.comps[cid]]
    requires t.resvs == s.resvs ||
        (s.comps[cid].reservation in t.resvs &&
          t.resvs == s.resvs[s.comps[cid].reservation := t.resvs[s.comps[cid].reservation]])
    requires Stuck(s, cid) || Fell(s, t, cid) ==> Gone(t, cid)
    ensures StaysGone(s, t)
  {
    forall id | Gone(s, id) || Fell(s, t, id) ensures Gone(t, id) {
      if id != cid && id in s.comps { assert Owns(s.comps[id], s.resvs) && Owns(s.comps[cid], s.resvs); }
    }
  }
}
