/** Theorems about every disciplined run, with the sections of Recompute interleaved freely. */
module LedgerTheorems {
  import opened FabricTypes
  import opened Eligibility
  import opened Candidates
  import opened PlannerTheorems
  import opened PlanTheorems
  import opened RunTheory
  import E = Engine
  import opened LedgerArithmetic
  import opened Runs
  import opened Invalidation
  import opened AuthorityInvariant
  import opened RecomputeInvariant
  import opened Books
  import opened LedgerInvariant
  import opened LedgerSteps

  ghost predicate LostAreGone(lost: set<CompositionId>, s: E.State)
  {
    forall id :: id in lost ==> Gone(s, id)
  }

  /** The invariant of disciplined runs. */
  ghost predicate Accounted(c: Config)
  {
    Sound(c) && Tidy(c.s, c.issued) && GoodPlans(c.issued) && LostAreGone(c.lost, c.s)
  }

  // ---- every disciplined step --------------------------------------------------

  ghost predicate KeepsAccounts(c: Config, d: Config)
  {
    Tidy(d.s, d.issued) && GoodPlans(d.issued) && StaysGone(c.s, d.s)
  }

  lemma OperationKeepsTidy(c: Config, call: Call)
    requires Accounted(c) && DisciplinedCall(c, call)
    ensures Tidy(Operation(c.s, call), c.issued) && StaysGone(c.s, Operation(c.s, call))
  {
    if IsInvalidation(call) {
      InvalidationDemotes(c.s, call);
      InvalidationKeepsPositive(c, call);
      DemotionKeepsTidy(c.s, Operation(c.s, call), c.issued);
    } else {
      match call
      case Reserve(plan) => ReserveKeepsTidy(c.s, c.issued, plan);
      case Commit(vid) => CommitKeepsTidy(c.s, c.issued, vid);
      case Activate(cid) => ActivateKeepsTidy(c.s, c.issued, cid);
      case BeginDrain(cid) => BeginDrainKeepsTidy(c.s, c.issued, cid);
      case EndDrain(cid) => EndDrainKeepsTidy(c.s, c.issued, cid);
      case Release(cid) => ReleaseKeepsTidy(c.s, c.issued, cid);
    }
  }

  lemma HandingOutKeepsTidy(c: Config, d: Config, plan: Plan)
    requires Accounted(c) && HandsOut(c, d, plan) && plan.graph.vertices != [] && NoDup(plan.graph.vertices)
    ensures KeepsAccounts(c, d)
  {
    assert forall id :: id in c.issued ==> id != c.s.nextComp;
  }

  lemma ComposeKeepsTidy(c: Config, order: seq<ResourceId>, req: Request)
    requires Accounted(c)
    ensures KeepsAccounts(c, ComposeIn(c, order, req).0)
  {
    ComposeHandsOut(c, order, req);
    var (d, plan) := ComposeIn(c, order, req);
    if plan.Some? {
      PlanSoundness(c.s, order, req);
      HandingOutKeepsTidy(c, d, plan.value);
    }
  }

  lemma AdvanceKeepsTidy(s: E.State, issued: map<CompositionId, Plan>, cl: Client)
    requires Tidy(s, issued) && GoodPlans(issued) && ClientOk(s, issued, cl) && !cl.Asked?
    requires cl.Composed? && cl.prior in s.comps ==> SafeToFree(s, s.comps[cl.prior].reservation)
    ensures var t := Advance(s, cl).0; Tidy(t, issued) && StaysGone(s, t)
  {
    match cl
    case Composed(prior, _, _) => ReleaseOldKeepsTidy(s, issued, prior);
    case Freed(_, plan, _, _) => ReserveKeepsTidy(s, issued, plan);
    case Holding(_, _, _, _, vid) => CommitKeepsTidy(s, issued, vid);
    case Agreed(_, _, _, _, cid) => ActivateKeepsTidy(s, issued, cid);
    case _ =>
  }

  lemma AskKeepsTidy(c: Config, k: nat, order: seq<ResourceId>, prior: CompositionId, req: Request)
    requires Accounted(c)
    ensures KeepsAccounts(c, Ask(c, k, order, prior, req))
  {
    if Enumerates(order, c.s.resources) { ComposeKeepsTidy(c, order, req); }
  }

  lemma SectionKeepsTidy(c: Config, k: nat, order: seq<ResourceId>)
    requires Accounted(c) && Disciplined(c, RecomputeSection(k, order))
    ensures KeepsAccounts(c, Section(c, k, order))
  {
    if k in c.clients {
      var cl := c.clients[k];
      if cl.Asked? {
        AskKeepsTidy(c, k, order, cl.prior, cl.req);
      } else {
        AdvanceKeepsTidy(c.s, c.issued, cl);
      }
    }
  }

  lemma CoreKeepsTidy(c: Config, step: Step)
    requires Accounted(c) && Disciplined(c, step)
    ensures KeepsAccounts(c, Core(c, step))
  {
    match step
    case Atomic(call) => OperationKeepsTidy(c, call);
    case Compose(order, req) => ComposeKeepsTidy(c, order, req);
    case RecomputeCall(_, _) =>
    case RecomputeSection(k, order) => SectionKeepsTidy(c, k, order);
  }

  lemma NewlyLostAreGone(lost: set<CompositionId>, s: E.State, t: E.State)
    requires LostAreGone(lost, s) && StaysGone(s, t)
    ensures LostAreGone(lost + LostBetween(s, t), t)
  {
    forall id | id in lost + LostBetween(s, t) ensures Gone(t, id) {
      assert Gone(s, id) || Fell(s, t, id);
    }
  }

  lemma NextKeepsAccounted(c: Config, step: Step)
    requires Accounted(c) && Disciplined(c, step)
    ensures Accounted(Next(c, step))
  {
    CoreKeepsSound(c, step);
    CoreKeepsTidy(c, step);
    NewlyLostAreGone(c.lost, c.s, Core(c, step).s);
  }

  lemma StartIsAccounted(epoch: Epoch)
    ensures Accounted(Start(epoch))
  {
    var s := Start(epoch).s;
    assert forall rid :: LiveSum(s.resvs, 1, rid) == LiveSum(s.resvs, 0, rid) + Share(s.resvs, 0, rid) == 0.0;
  }

  lemma DisciplinedRunIsAccounted(epoch: Epoch, run: seq<Step>)
    requires DisciplinedRun(epoch, run)
    ensures Accounted(Reached(epoch, run))
  {
    forall d: Config, step: Step | Accounted(d) && Disciplined(d, step) ensures Accounted(Next(d, step)) {
      NextKeepsAccounted(d, step);
    }
    StartIsAccounted(epoch);
    Invariance(Next, Disciplined, Accounted, Start(epoch), run);
  }

  // ---- exclusive authority -----------------------------------------------------

  /** The lifecycles in which a composition certainly owns its members. */
  predicate Holds(l: Lifecycle)
  {
    l == Reserved || l == Committed || l == Active || l == Draining || l == RecompositionRequired
  }

  lemma HolderIsLive(s: E.State, id: CompositionId, rid: ResourceId)
    requires Ledger(s) && id in s.comps && Holds(s.comps[id].lifecycle) && rid in s.comps[id].graph.vertices
    ensures var c := s.comps[id];
            c.reservation in s.resvs && s.resvs[c.reservation].composition == id && Live(s.resvs[c.reservation])
            && Names(s.resvs[c.reservation].items, rid)
  {
    var c := s.comps[id];
    assert Owns(c, s.resvs);
    var i :| 0 <= i < |c.graph.vertices| && c.graph.vertices[i] == rid;
    assert s.resvs[c.reservation].items[i].resource == rid;
  }

  /** Exclusive authority: two compositions that hold never share a resource. */
  lemma ExclusiveAuthority(epoch: Epoch, run: seq<Step>, a: CompositionId, b: CompositionId, rid: ResourceId)
    requires DisciplinedRun(epoch, run)
    requires var s := Reached(epoch, run).s;
             && a in s.comps && Holds(s.comps[a].lifecycle) && rid in s.comps[a].graph.vertices
             && b in s.comps && Holds(s.comps[b].lifecycle) && rid in s.comps[b].graph.vertices
    ensures a == b
  {
    DisciplinedRunIsAccounted(epoch, run);
    var s := Reached(epoch, run).s;
    HolderIsLive(s, a, rid);
    HolderIsLive(s, b, rid);
  }

  // ---- conservation ------------------------------------------------------------

  /** Hold conservation: each ledger entry is the sum over the live reservations; it is zero when no
      live reservation names the resource, and otherwise the amount of the single item that does. */
  lemma HoldConservation(epoch: Epoch, run: seq<Step>, rid: ResourceId)
    requires DisciplinedRun(epoch, run)
    ensures var s := Reached(epoch, run).s;
            && E.HeldOf(s.held, rid) == LiveSum(s.resvs, s.nextResv, rid)
            && (E.HeldOf(s.held, rid) == 0.0 <==>
                  forall k :: k in s.resvs && Live(s.resvs[k]) ==> !Names(s.resvs[k].items, rid))
            && (forall k, i ::
                  (&& k in s.resvs && Live(s.resvs[k]) && 0 <= i < |s.resvs[k].items|
                   && s.resvs[k].items[i].resource == rid) ==>
                    E.HeldOf(s.held, rid) == s.resvs[k].items[i].amount)
  {
    DisciplinedRunIsAccounted(epoch, run);
    var s := Reached(epoch, run).s;
    HeldMeansNamed(s.resvs, s.held, s.nextResv, rid);
    forall k, i | k in s.resvs && Live(s.resvs[k]) && 0 <= i < |s.resvs[k].items| && s.resvs[k].items[i].resource == rid
      ensures E.HeldOf(s.held, rid) == s.resvs[k].items[i].amount
    {
      ReservationIsOnlyHolder(s.resvs, s.held, s.nextResv, k, rid);
      SumOfGood(s.resvs[k].items, rid);
    }
  }

  /** A failed Reserve leaves every ledger entry, every composition and every reservation as it was. */
  lemma FailedReserveRestores(epoch: Epoch, run: seq<Step>, plan: Plan, rid: ResourceId)
    requires DisciplinedRun(epoch, run)
    requires var c := Reached(epoch, run);
        plan.id in c.issued && c.issued[plan.id] == plan && E.Reserve(c.s, plan).1.ReserveRejected?
    ensures var s := Reached(epoch, run).s;
            var t := E.Reserve(s, plan).0;
            E.HeldOf(t.held, rid) == E.HeldOf(s.held, rid) && t.comps == s.comps && t.resvs == s.resvs
  {
    DisciplinedRunIsAccounted(epoch, run);
    var s := Reached(epoch, run).s;
    HoldsGrantedOrRestored(s, plan.request, plan.graph.vertices);
  }

  lemma CoveredCommit(s: E.State, vid: ReservationId)
    requires Ledger(s) && vid in s.resvs && Live(s.resvs[vid])
    ensures forall i :: 0 <= i < |s.resvs[vid].items| ==>
        E.HeldOf(s.held, s.resvs[vid].items[i].resource) == s.resvs[vid].items[i].amount
  {
    var items := s.resvs[vid].items;
    forall i | 0 <= i < |items| ensures E.HeldOf(s.held, items[i].resource) == items[i].amount {
      ReservationIsOnlyHolder(s.resvs, s.held, s.nextResv, vid, items[i].resource);
      SumOfGood(items, items[i].resource);
    }
  }

  /** Commit never reports OVERCOMMIT; when it rolls back, exactly the entries of its own members
      drop to zero. */
  lemma CommitIsExact(epoch: Epoch, run: seq<Step>, vid: ReservationId, rid: ResourceId)
    requires DisciplinedRun(epoch, run)
    ensures var s := Reached(epoch, run).s;
            var (t, r) := E.Commit(s, vid);
            && r != E.CommitRejected(Overcommit)
            && (vid in t.resvs && t.resvs[vid].state == RolledBack && s.resvs[vid].state == Provisional ==>
                  E.HeldOf(t.held, rid) == if Names(s.resvs[vid].items, rid) then 0.0 else E.HeldOf(s.held, rid))
  {
    DisciplinedRunIsAccounted(epoch, run);
    var s := Reached(epoch, run).s;
    CommitOutcome(s, vid, rid);
  }

  /** A live reservation is covered, and giving it back through a scan that only reads frees exactly its members. */
  lemma RollBackFrees(s: E.State, vid: ReservationId, same: map<ResourceId, real>, rid: ResourceId)
    requires Ledger(s) && vid in s.resvs && Live(s.resvs[vid]) && Restored(s, same)
    ensures E.HeldOf(E.ReleaseItems(same, s.resvs[vid].items), rid) ==
              if Names(s.resvs[vid].items, rid) then 0.0 else E.HeldOf(s.held, rid)
  {
    var items := s.resvs[vid].items;
    forall x ensures E.HeldOf(same, x) >= Sum(items, x) { LiveSumCovers(s.resvs, s.nextResv, s.nextResv, vid, x); }
    ReleaseSubtracts(same, items);
    SumOfGood(items, rid);
    if Names(items, rid) { ReservationIsOnlyHolder(s.resvs, s.held, s.nextResv, vid, rid); }
  }

  lemma CommitOutcome(s: E.State, vid: ReservationId, rid: ResourceId)
    requires Ledger(s)
    ensures var (t, r) := E.Commit(s, vid);
            && r != E.CommitRejected(Overcommit)
            && (vid in t.resvs && t.resvs[vid].state == RolledBack && s.resvs[vid].state == Provisional ==>
                  E.HeldOf(t.held, rid) == if Names(s.resvs[vid].items, rid) then 0.0 else E.HeldOf(s.held, rid))
  {
    if Settling(s, vid) {
      var v, c := s.resvs[vid], s.comps[s.resvs[vid].composition];
      var scan := E.ScanItems(s.resources, c.request, v.items, s.held);
      CoveredCommit(s, vid);
      ScanOnlyReads(s.resources, c.request, v.items, s.held);
      ScanVerdict(s.resources, c.request, v.items, s.held);
      RollBackFrees(s, vid, scan.held, rid);
    }
  }

  /** Every live reservation is covered by the ledger exactly, so giving it back never meets the clamp. */
  lemma LiveReservationIsCovered(epoch: Epoch, run: seq<Step>, vid: ReservationId, i: nat)
    requires DisciplinedRun(epoch, run)
    requires var s := Reached(epoch, run).s; vid in s.resvs && Live(s.resvs[vid]) && i < |s.resvs[vid].items|
    ensures var s := Reached(epoch, run).s;
            E.HeldOf(s.held, s.resvs[vid].items[i].resource) == s.resvs[vid].items[i].amount > 0.0
  {
    DisciplinedRunIsAccounted(epoch, run);
    CoveredCommit(Reached(epoch, run).s, vid);
  }

  /** EndDrain always finds a COMMITTED reservation whose items are the composition's vertices. */
  lemma EndDrainFindsCommitted(epoch: Epoch, run: seq<Step>, cid: CompositionId)
    requires DisciplinedRun(epoch, run)
    ensures var s := Reached(epoch, run).s;
            cid in s.comps && s.comps[cid].lifecycle == Draining ==>
              && s.comps[cid].reservation in s.resvs && s.resvs[s.comps[cid].reservation].state == CommittedHold
              && ItemsAre(s.resvs[s.comps[cid].reservation].items, s.comps[cid].graph.vertices)
  {
    DisciplinedRunIsAccounted(epoch, run);
    var s := Reached(epoch, run).s;
    assert cid in s.comps ==> Owns(s.comps[cid], s.resvs);
  }

  // ---- the release guard -------------------------------------------------------

  lemma UnsafeFreeingBreaks(s: E.State, vid: ReservationId)
    requires Ledger(s) && !SafeToFree(s, vid)
    ensures var t := E.ReleaseReservation(s, vid); !Exact(t.resvs, t.held, t.nextResv)
  {
    var v := s.resvs[vid];
    var i :| 0 <= i < |v.items| && E.HeldOf(s.held, v.items[i].resource) != 0.0;
    CloseAgainBreaks(s.resvs, s.held, s.nextResv, vid, v.(state := ReleasedHold), i);
  }

  lemma FreeingIsExactIff(s: E.State, vid: ReservationId)
    requires Ledger(s) && vid in s.resvs
    ensures var t := E.ReleaseReservation(s, vid); Exact(t.resvs, t.held, t.nextResv) <==> SafeToFree(s, vid)
  {
    if SafeToFree(s, vid) { FreeingKeepsBalance(s, vid); } else { UnsafeFreeingBreaks(s, vid); }
  }

  /** Release keeps the ledger equal to the live reservations exactly when its reservation is live or
      nothing it lists is held. */
  lemma ReleaseIsExactIff(epoch: Epoch, run: seq<Step>, cid: CompositionId)
    requires DisciplinedRun(epoch, run)
    ensures var s := Reached(epoch, run).s;
            var t := E.Release(s, cid).0;
            Exact(t.resvs, t.held, t.nextResv) <==> SafeToRelease(s, cid)
  {
    DisciplinedRunIsAccounted(epoch, run);
    ReleaseExactIff(Reached(epoch, run).s, cid);
  }

  lemma ReleaseExactIff(s: E.State, cid: CompositionId)
    requires Ledger(s)
    ensures var t := E.Release(s, cid).0; Exact(t.resvs, t.held, t.nextResv) <==> SafeToRelease(s, cid)
  {
    if E.Release(s, cid).1 {
      assert Owns(s.comps[cid], s.resvs);
      FreeingIsExactIff(s, s.comps[cid].reservation);
    }
  }

  /** The same for Recompute's releasing section, which has no lifecycle guard. */
  lemma RecomputeReleaseIsExactIff(epoch: Epoch, run: seq<Step>, cid: CompositionId)
    requires DisciplinedRun(epoch, run)
    ensures var s := Reached(epoch, run).s;
            var t := E.ReleaseOld(s, cid);
            Exact(t.resvs, t.held, t.nextResv) <==> (cid in s.comps ==> SafeToFree(s, s.comps[cid].reservation))
  {
    DisciplinedRunIsAccounted(epoch, run);
    ReleaseOldExactIff(Reached(epoch, run).s, cid);
  }

  lemma ReleaseOldExactIff(s: E.State, cid: CompositionId)
    requires Ledger(s)
    ensures var t := E.ReleaseOld(s, cid);
            Exact(t.resvs, t.held, t.nextResv) <==> (cid in s.comps ==> SafeToFree(s, s.comps[cid].reservation))
  {
    if cid in s.comps {
      assert Owns(s.comps[cid], s.resvs);
      FreeingIsExactIff(s, s.comps[cid].reservation);
    }
  }

  // ---- lost authority ----------------------------------------------------------

  /** A composition that has ever left ACTIVE for RECOMPOSITION_REQUIRED or REVALIDATION_REQUIRED is
      never ACTIVE again. */
  lemma LostAuthorityNeverRegained(epoch: Epoch, run: seq<Step>, id: CompositionId)
    requires DisciplinedRun(epoch, run)
    ensures id in Reached(epoch, run).lost ==> !IsActive(Reached(epoch, run).s, id)
  {
    DisciplinedRunIsAccounted(epoch, run);
  }

  lemma LostStays(c: Config, run: seq<Step>, id: CompositionId)
    requires id in c.lost
    ensures id in Exec(Next, c, run).lost
  {
    EveryRun(Next, (d: Config) => id in d.lost, c, run);
  }

  /** The same from the step that takes the authority away: however the run goes on, the id stays inactive. */
  lemma DemotionIsForever(epoch: Epoch, run: seq<Step>, step: Step, more: seq<Step>, id: CompositionId)
    requires DisciplinedRun(epoch, run + ([step] + more))
    requires Fell(Reached(epoch, run).s, Next(Reached(epoch, run), step).s, id)
    ensures !IsActive(Reached(epoch, run + ([step] + more)).s, id)
  {
    var c := Reached(epoch, run);
    ExecAppend(Next, Start(epoch), run, [step] + more);
    assert ([step] + more)[1..] == more;
    assert Exec(Next, c, [step] + more) == Exec(Next, Next(c, step), more);
    LostStays(Next(c, step), more, id);
    LostAuthorityNeverRegained(epoch, run + ([step] + more), id);
  }
}
