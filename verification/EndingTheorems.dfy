/** How a composition ends, over every disciplined run: what it gives back, who can have it next, and
    that a refused activation is final. */
module EndingTheorems {
  import opened FabricTypes
  import opened Eligibility
  import opened PlannerTheorems
  import opened RunTheory
  import E = Engine
  import opened LedgerArithmetic
  import opened Runs
  import opened RecomputeInvariant
  import opened Books
  import opened LedgerInvariant
  import opened LedgerSteps
  import opened LedgerTheorems
  import F = Effects

  // ---- giving back -------------------------------------------------------------

  lemma VerticesAreNamed(items: seq<Item>, vs: seq<ResourceId>, rid: ResourceId)
    requires ItemsAre(items, vs)
    ensures Names(items, rid) <==> rid in vs
  {
    if i :| 0 <= i < |items| && items[i].resource == rid { assert vs[i] in vs; }
    if i :| 0 <= i < |vs| && vs[i] == rid { assert items[i].resource == rid; }
  }

  /** The ledger is zero at each vertex of the composition and as it was everywhere else. */
  ghost predicate Frees(s: E.State, t: E.State, cid: CompositionId)
    requires cid in s.comps
  {
    forall rid :: E.HeldOf(t.held, rid) == if rid in s.comps[cid].graph.vertices then 0.0 else E.HeldOf(s.held, rid)
  }

  lemma FreeingFrees(s: E.State, cid: CompositionId)
    requires Ledger(s) && cid in s.comps && SafeToFree(s, s.comps[cid].reservation)
    ensures Frees(s, E.ReleaseReservation(s, s.comps[cid].reservation), cid)
  {
    var c := s.comps[cid];
    var vid, vs := c.reservation, c.graph.vertices;
    assert Owns(c, s.resvs);
    var items := s.resvs[vid].items;
    forall rid ensures E.HeldOf(E.ReleaseItems(s.held, items), rid) == if rid in vs then 0.0
      else E.HeldOf(s.held, rid) {
      VerticesAreNamed(items, vs, rid);
      if Live(s.resvs[vid]) {
        RollBackFrees(s, vid, s.held, rid);
      } else {
        ReleaseNothing(s.held, items);
        if rid in vs {
          var i :| 0 <= i < |items| && items[i].resource == rid;
        }
      }
    }
  }

  /** The composition has ended, its reservation is RELEASED and what it held is free. */
  ghost predicate EndsFree(s: E.State, t: E.State, cid: CompositionId)
  {
    && F.Ends(s, t, cid) && Frees(s, t, cid)
    && s.comps[cid].reservation in t.resvs && t.resvs[s.comps[cid].reservation].state == ReleasedHold
  }

  lemma EndDrainEndsFree(s: E.State, cid: CompositionId)
    requires Ledger(s) && cid in s.comps && s.comps[cid].lifecycle == Draining
    ensures EndsFree(s, E.EndDrain(s, cid).0, cid)
  {
    assert Owns(s.comps[cid], s.resvs);
    DrainFindsCommitted(s, cid);
    F.EndDrainEffect(s, cid);
    FreeingFrees(s, cid);
  }

  /** EndDrain in a disciplined run: it answers true exactly for a DRAINING composition, which is then
      RELEASED, no longer draining and not fenced by it, with its reservation released and all its
      vertices free; otherwise nothing changes. */
  lemma EndDrainFrees(epoch: Epoch, run: seq<Step>, cid: CompositionId)
    requires DisciplinedRun(epoch, run)
    ensures var s := Reached(epoch, run).s;
            var (t, ok) := E.EndDrain(s, cid);
            && (ok <==> cid in s.comps && s.comps[cid].lifecycle == Draining)
            && (!ok ==> t == s)
            && (ok ==> EndsFree(s, t, cid) && t.draining == s.draining - {cid} && t.fenced == s.fenced)
  {
    DisciplinedRunIsAccounted(epoch, run);
    var s := Reached(epoch, run).s;
    F.EndDrainEffect(s, cid);
    if cid in s.comps && s.comps[cid].lifecycle == Draining { EndDrainEndsFree(s, cid); }
  }

  lemma ReleaseEndsFree(s: E.State, cid: CompositionId)
    requires Ledger(s) && cid in s.comps && SafeToFree(s, s.comps[cid].reservation)
    ensures E.Release(s, cid).1 ==> EndsFree(s, E.Release(s, cid).0, cid)
    ensures EndsFree(s, E.ReleaseOld(s, cid), cid)
  {
    assert Owns(s.comps[cid], s.resvs);
    F.ReleaseEffect(s, cid);
    F.ReleaseOldEffect(s, cid);
    FreeingFrees(s, cid);
  }

  /** Release, when it is safe: the same, and the composition is fenced. */
  lemma ReleaseFrees(epoch: Epoch, run: seq<Step>, cid: CompositionId)
    requires DisciplinedRun(epoch, run) && SafeToRelease(Reached(epoch, run).s, cid)
    ensures var s := Reached(epoch, run).s;
            var (t, ok) := E.Release(s, cid);
            && (ok <==> cid in s.comps && s.comps[cid].lifecycle != Released && s.comps[cid].lifecycle != Retired)
            && (!ok ==> t == s)
            && (ok ==> EndsFree(s, t, cid) && t.draining == s.draining - {cid} && t.fenced == s.fenced + {cid})
  {
    DisciplinedRunIsAccounted(epoch, run);
    var s := Reached(epoch, run).s;
    F.ReleaseEffect(s, cid);
    if E.Release(s, cid).1 { ReleaseEndsFree(s, cid); }
  }

  /** Recompute's releasing section, when it is safe, frees and fences the old composition. */
  lemma RecomputeFrees(epoch: Epoch, run: seq<Step>, k: nat, order: seq<ResourceId>)
    requires DisciplinedRun(epoch, run + [RecomputeSection(k, order)])
    requires var c := Reached(epoch, run); k in c.clients && c.clients[k].Composed? && c.clients[k].prior in c.s.comps
    ensures var c := Reached(epoch, run);
            var t := Section(c, k, order).s;
            EndsFree(c.s, t, c.clients[k].prior) && t.fenced == c.s.fenced + {c.clients[k].prior}
  {
    AllowedAppend(Next, Disciplined, Start(epoch), run, [RecomputeSection(k, order)]);
    DisciplinedRunIsAccounted(epoch, run);
    var c := Reached(epoch, run);
    var prior := c.clients[k].prior;
    assert Disciplined(c, RecomputeSection(k, order));
    assert Owns(c.s.comps[prior], c.s.resvs);
    ReleaseEndsFree(c.s, prior);
    F.ReleaseOldEffect(c.s, prior);
  }

  // ---- who can have it next ----------------------------------------------------

  /** Everything but the ledger allows the plan to be reserved, and whatever it needs is free or held
      by the composition alone. */
  ghost predicate Awaits(s: E.State, plan: Plan, cid: CompositionId)
    requires cid in s.comps
  {
    && plan.lifecycle == Planned && plan.id != 0 && NoDup(plan.graph.vertices)
    && forall i :: 0 <= i < |plan.graph.vertices| ==>
         var rid := plan.graph.vertices[i];
         && rid in s.resources && Check(s.resources[rid], plan.request).Eligible?
         && NonNegative(s.resources[rid].capacity)
         && (rid in s.comps[cid].graph.vertices || E.HeldOf(s.held, rid) <= 0.0)
  }

  lemma FreedCanBeReserved(s: E.State, t: E.State, plan: Plan, cid: CompositionId)
    requires cid in s.comps && Awaits(s, plan, cid) && EndsFree(s, t, cid)
    ensures E.Reserve(t, plan).1.ReserveOk?
  {
    F.ReserveAnswers(t, plan);
    forall i | 0 <= i < |plan.graph.vertices|
      ensures F.Holdable(t.resources, plan.request, t.held, plan.graph.vertices[i])
    {
    }
  }

  /** After EndDrain any plan that waited only for the drained composition can be reserved. */
  lemma DrainedCanBeReserved(epoch: Epoch, run: seq<Step>, cid: CompositionId, plan: Plan)
    requires DisciplinedRun(epoch, run)
    requires var s := Reached(epoch, run).s; E.EndDrain(s, cid).1 && Awaits(s, plan, cid)
    ensures E.Reserve(E.EndDrain(Reached(epoch, run).s, cid).0, plan).1.ReserveOk?
  {
    EndDrainFrees(epoch, run, cid);
    FreedCanBeReserved(Reached(epoch, run).s, E.EndDrain(Reached(epoch, run).s, cid).0, plan, cid);
  }

  // ---- a refused activation is final -------------------------------------------

  ghost predicate GoneIn(id: CompositionId, c: Config) { Accounted(c) && Gone(c.s, id) }

  lemma StepStaysGone(id: CompositionId, c: Config, step: Step)
    requires GoneIn(id, c) && Disciplined(c, step)
    ensures GoneIn(id, Next(c, step))
  {
    NextKeepsAccounted(c, step);
    CoreKeepsTidy(c, step);
  }

  /** What is gone stays gone, and inactive, in every disciplined continuation. */
  lemma GoneStays(id: CompositionId, c: Config, more: seq<Step>)
    requires GoneIn(id, c) && Allowed(Next, Disciplined, c, more)
    ensures !IsActive(Exec(Next, c, more).s, id)
  {
    forall d: Config, step: Step | GoneIn(id, d) && Disciplined(d, step) ensures GoneIn(id, Next(d, step)) {
      StepStaysGone(id, d, step);
    }
    Invariance(Next, Disciplined, d => GoneIn(id, d), c, more);
  }

  /** Activate would refuse the composition and demand revalidation. */
  ghost predicate Refusable(s: E.State, cid: CompositionId)
  {
    cid in s.comps && s.comps[cid].lifecycle == Committed && s.comps[cid].id !in s.fenced &&
    !F.Stands(s.comps[cid], s)
  }

  lemma RefusedIsGone(s: E.State, cid: CompositionId)
    requires Ledger(s) && Refusable(s, cid)
    ensures Gone(E.Activate(s, cid).0, cid)
  {
    assert Owns(s.comps[cid], s.resvs);
    F.ActivateEffect(s, cid);
  }

  /** A composition whose activation was refused for a stale binding, by a direct call or in a Recompute,
      is never ACTIVE again: it keeps its committed holds, so its plan cannot be reserved a second time. */
  lemma RefusedActivationIsFinal(epoch: Epoch, run: seq<Step>, step: Step, more: seq<Step>, cid: CompositionId)
    requires DisciplinedRun(epoch, run + ([step] + more))
    requires var c := Reached(epoch, run); Refusable(c.s, cid) && Next(c, step).s == E.Activate(c.s, cid).0
    ensures !IsActive(Reached(epoch, run + ([step] + more)).s, cid)
  {
    var c := Reached(epoch, run);
    AllowedAppend(Next, Disciplined, Start(epoch), run, [step] + more);
    ExecAppend(Next, Start(epoch), run, [step] + more);
    assert ([step] + more)[1..] == more;
    DisciplinedRunIsAccounted(epoch, run);
    NextKeepsAccounted(c, step);
    RefusedIsGone(c.s, cid);
    GoneStays(cid, Next(c, step), more);
  }
}
