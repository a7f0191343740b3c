/** Each disciplined step keeps the ledger, the ownership and what is gone. */
module LedgerSteps {
  import opened FabricTypes
  import opened Eligibility
  import opened PlannerTheorems
  import E = Engine
  import opened LedgerArithmetic
  import opened Runs
  import opened Invalidation
  import opened Books
  import opened LedgerInvariant

  ghost predicate Tidy(s: E.State, issued: map<CompositionId, Plan>)
  {
    Ledger(s) && Licensed(s.comps, issued)
  }

  lemma DemotionKeepsTidy(s: E.State, t: E.State, issued: map<CompositionId, Plan>)
    requires Tidy(s, issued) && Demoted(s, t) && PositiveHolds(t.resources)
    ensures Tidy(t, issued) && StaysGone(s, t)
  {
    DemotionKeepsLedger(s, t);
    DemotionStaysGone(s, t);
    forall id | id in t.comps ensures id in issued && t.comps[id].graph == issued[id].graph {
      assert Lowered(s.comps[id], t.comps[id]);
    }
  }

  // ---- reserve -----------------------------------------------------------------

  /** All vertices were free and are now held. */
  ghost predicate Granted(s: E.State, vs: seq<ResourceId>, h: E.Holds)
  {
    && ItemsAre(h.items, vs) && GoodItems(h.items)
    && (forall i :: 0 <= i < |vs| ==> E.HeldOf(s.held, vs[i]) <= 0.0)
    && (forall rid :: E.HeldOf(h.held, rid) == E.HeldOf(s.held, rid) + Sum(h.items, rid))
  }

  ghost predicate Restored(s: E.State, held: map<ResourceId, real>)
  {
    forall rid :: E.HeldOf(held, rid) == E.HeldOf(s.held, rid)
  }

  lemma HoldsAreGood(resources: map<ResourceId, Resource>, vs: seq<ResourceId>, items: seq<Item>)
    requires PositiveHolds(resources) && NoDup(vs) && HoldsOf(resources, vs, items)
    ensures ItemsAre(items, vs) && GoodItems(items)
  {
    forall i, j | 0 <= i < j < |items| ensures items[i].resource != items[j].resource {
      assert vs[i] != vs[j];
    }
  }

  lemma NonNegativeHeld(s: E.State)
    requires Ledger(s)
    ensures forall rid :: E.HeldOf(s.held, rid) >= 0.0
  {
    forall rid ensures E.HeldOf(s.held, rid) >= 0.0 { HeldMeansNamed(s.resvs, s.held, s.nextResv, rid); }
  }

  lemma HoldsGrantedOrRestored(s: E.State, req: Request, vs: seq<ResourceId>)
    requires Ledger(s) && NoDup(vs)
    ensures var h := E.TakeHolds(s.resources, req, vs, s.held, []);
            if h.failure.None? then Granted(s, vs, h) else Restored(s, E.ReleaseItems(h.held, h.items))
  {
    var h := E.TakeHolds(s.resources, req, vs, s.held, []);
    if h.failure.None? {
      var more := TakeHoldsAdds(s.resources, req, vs, s.held, []);
      assert h.items == more && vs[..|more|] == vs;
      HoldsAreGood(s.resources, vs, h.items);
      TakeHoldsChecks(s.resources, req, vs, s.held, []);
    } else {
      NonNegativeHeld(s);
      TakeThenReleaseRestores(s.resources, req, vs, s.held);
    }
  }

  /** A composition that still holds blocks its own plan. */
  lemma HoldingBlocks(s: E.State, id: CompositionId, h: E.Holds)
    requires Ledger(s) && id in s.comps && s.comps[id].graph.vertices != [] && Granted(s, s.comps[id].graph.vertices, h)
    ensures !Live(s.resvs[s.comps[id].reservation])
  {
    var c := s.comps[id];
    var v := s.resvs[c.reservation];
    assert Owns(c, s.resvs);
    assert v.items[0].resource == c.graph.vertices[0];
    if Live(v) {
      ReservationIsOnlyHolder(s.resvs, s.held, s.nextResv, c.reservation, c.graph.vertices[0]);
    }
  }

  lemma NewPairStaysGone(s: E.State, t: E.State, id: CompositionId)
    requires Owned(s.comps, s.resvs) && t.fenced == s.fenced && s.nextResv !in s.resvs
    requires id in s.comps ==> !Live(s.resvs[s.comps[id].reservation])
    requires id in t.comps && t.comps == s.comps[id := t.comps[id]] && t.comps[id].lifecycle == Reserved
    requires s.nextResv in t.resvs && t.resvs == s.resvs[s.nextResv := t.resvs[s.nextResv]]
    ensures StaysGone(s, t)
  {
    forall x | Gone(s, x) || Fell(s, t, x) ensures Gone(t, x) {
      assert Stuck(s, x) ==> Live(s.resvs[s.comps[x].reservation]) && x != id;
    }
  }

  lemma NewPairKeepsTidy(s: E.State, t: E.State, issued: map<CompositionId, Plan>, c: Composition, v: Reservation)
    requires Tidy(s, issued) && c.id in issued && c.graph == issued[c.id].graph && c.lifecycle == Reserved &&
        v.state == Provisional
    requires c.id in s.comps ==> !Live(s.resvs[s.comps[c.id].reservation])
    requires c.reservation == s.nextResv && v.composition == c.id && ItemsAre(v.items, c.graph.vertices)
    requires t.comps == s.comps[c.id := c] && t.resvs == s.resvs[s.nextResv := v] && t.resources == s.resources &&
        t.fenced == s.fenced
    requires Balanced(t.resvs, t.held, t.nextResv)
    ensures Tidy(t, issued) && StaysGone(s, t)
  {
    NewPairKeepsOwned(s.comps, s.resvs, c, v);
    NewPairStaysGone(s, t, c.id);
  }

  lemma GrantedKeepsTidy(s: E.State, issued: map<CompositionId, Plan>, plan: Plan, h: E.Holds)
    requires Tidy(s, issued) && GoodPlans(issued) && plan.id in issued && issued[plan.id] == plan
    requires h.failure.None? && Granted(s, plan.graph.vertices, h)
    ensures var t := E.ReserveWith(s, plan, h).0; Tidy(t, issued) && StaysGone(s, t)
  {
    var v := Reservation(s.nextResv, plan.id, h.items, Provisional);
    Enter(s.resvs, s.held, s.nextResv, v, h.held);
    if plan.id in s.comps { HoldingBlocks(s, plan.id, h); }
    NewPairKeepsTidy(s, E.ReserveWith(s, plan, h).0, issued, E.NewComposition(plan, s.nextSet, s.nextResv), v);
  }

  lemma RefusedKeepsTidy(s: E.State, issued: map<CompositionId, Plan>, plan: Plan, h: E.Holds)
    requires Tidy(s, issued) && h.failure.Some? && Restored(s, E.ReleaseItems(h.held, h.items))
    ensures var t := E.ReserveWith(s, plan, h).0; Tidy(t, issued) && StaysGone(s, t)
  {
    SkipNumber(s.resvs, s.held, s.nextResv, E.ReleaseItems(h.held, h.items));
  }

  lemma ReserveKeepsTidy(s: E.State, issued: map<CompositionId, Plan>, plan: Plan)
    requires Tidy(s, issued) && GoodPlans(issued) && plan.id in issued && issued[plan.id] == plan
    ensures var t := E.Reserve(s, plan).0; Tidy(t, issued) && StaysGone(s, t)
  {
    if plan.lifecycle == Planned && plan.id != 0 {
      var h := E.TakeHolds(s.resources, plan.request, plan.graph.vertices, s.held, []);
      HoldsGrantedOrRestored(s, plan.request, plan.graph.vertices);
      if h.failure.None? { GrantedKeepsTidy(s, issued, plan, h); } else { RefusedKeepsTidy(s, issued, plan, h); }
    }
  }

  // ---- commit and activate -----------------------------------------------------

  /** Replacing one composition by a version of itself, and its reservation by a matching one. */
  lemma PairKeepsTidy(s: E.State, t: E.State, issued: map<CompositionId, Plan>, c: Composition, v: Reservation)
    requires Tidy(s, issued) && c.id in s.comps && c.reservation == s.comps[c.id].reservation &&
        c.graph == s.comps[c.id].graph
    requires t.comps == s.comps[c.id := c] && t.resvs == s.resvs[c.reservation := v] && t.resources == s.resources
    requires Balanced(t.resvs, t.held, t.nextResv) && s.fenced <= t.fenced
    requires v.composition == c.id && ItemsAre(v.items, c.graph.vertices) && Fits(c.lifecycle, v.state)
    requires Stuck(s, c.id) || Fell(s, t, c.id) ==> Gone(t, c.id)
    ensures Tidy(t, issued) && StaysGone(s, t)
  {
    PairKeepsOwned(s.comps, s.resvs, c, v);
    PairStaysGone(s, t, c.id);
  }

  /** The reservation a commit may settle is the composition's own, and still provisional. */
  ghost predicate Settling(s: E.State, vid: ReservationId)
  {
    && vid in s.resvs && s.resvs[vid].state == Provisional
    && s.resvs[vid].composition in s.comps && s.comps[s.resvs[vid].composition].lifecycle == Reserved
  }

  lemma RollBackKeepsTidy(s: E.State, issued: map<CompositionId, Plan>, vid: ReservationId, scan: E.CommitScan)
    requires Tidy(s, issued) && Settling(s, vid) && Restored(s, scan.held) && scan.failure.Some?
    ensures var t := E.CommitWith(s, vid, s.resvs[vid], s.comps[s.resvs[vid].composition], scan).0;
        Tidy(t, issued) && StaysGone(s, t)
  {
    var v, c := s.resvs[vid], s.comps[s.resvs[vid].composition];
    assert Owns(c, s.resvs) && c.reservation == vid;
    Close(s.resvs, s.held, s.nextResv, vid, v.(state := RolledBack), scan.held);
    PairKeepsTidy(s, E.CommitWith(s, vid, v, c, scan).0, issued,
                  c.(lifecycle := RevalidationRequired, outcome := FailedOutcome), v.(state := RolledBack));
  }

  lemma SettleKeepsTidy(s: E.State, issued: map<CompositionId, Plan>, vid: ReservationId, scan: E.CommitScan)
    requires Tidy(s, issued) && Settling(s, vid) && Restored(s, scan.held) && scan.failure.None?
    ensures var t := E.CommitWith(s, vid, s.resvs[vid], s.comps[s.resvs[vid].composition], scan).0;
        Tidy(t, issued) && StaysGone(s, t)
  {
    var v, c := s.resvs[vid], s.comps[s.resvs[vid].composition];
    assert Owns(c, s.resvs) && c.reservation == vid;
    var v' := v.(items := E.CommitItems(v.items), state := CommittedHold);
    Restamp(s.resvs, s.held, s.nextResv, vid, v', scan.held);
    PairKeepsTidy(s, E.CommitWith(s, vid, v, c, scan).0, issued, c.(lifecycle := Committed), v');
  }

  lemma CommitKeepsTidy(s: E.State, issued: map<CompositionId, Plan>, vid: ReservationId)
    requires Tidy(s, issued)
    ensures var t := E.Commit(s, vid).0; Tidy(t, issued) && StaysGone(s, t)
  {
    if vid in s.resvs && s.resvs[vid].state == Provisional && s.resvs[vid].composition in s.comps {
      var c := s.comps[s.resvs[vid].composition];
      if c.lifecycle == Reserved {
        ScanOnlyReads(s.resources, c.request, s.resvs[vid].items, s.held);
        var scan := E.ScanItems(s.resources, c.request, s.resvs[vid].items, s.held);
        if scan.failure.Some? { RollBackKeepsTidy(s, issued, vid, scan); }
          else { SettleKeepsTidy(s, issued, vid, scan); }
      }
    }
  }

  /** A change of lifecycle that fits the reservation as it is. */
  lemma RelabelKeepsTidy(s: E.State, t: E.State, issued: map<CompositionId, Plan>, cid: CompositionId)
    requires Tidy(s, issued) && cid in s.comps && !Stuck(s, cid) && cid in t.comps &&
        t.comps == s.comps[cid := t.comps[cid]]
    requires t.resvs == s.resvs && t.held == s.held && t.nextResv == s.nextResv && t.resources == s.resources &&
        t.fenced == s.fenced
    requires var c, c' := s.comps[cid], t.comps[cid];
             c'.id == c.id && c'.reservation == c.reservation && c'.graph == c.graph &&
             Fits(c'.lifecycle, s.resvs[c.reservation].state) && !Fell(s, t, cid)
    ensures Tidy(t, issued) && StaysGone(s, t)
  {
    var c := s.comps[cid];
    assert Owns(c, s.resvs);
    assert t.resvs == s.resvs[c.reservation := s.resvs[c.reservation]];
    PairKeepsTidy(s, t, issued, t.comps[cid], s.resvs[c.reservation]);
  }

  lemma ActivateWithKeepsTidy(s: E.State, issued: map<CompositionId, Plan>, cid: CompositionId, failure: Option<Reason>)
    requires Tidy(s, issued) && cid in s.comps && s.comps[cid].lifecycle == Committed
    ensures var t := E.ActivateWith(s, cid, s.comps[cid], failure).0; Tidy(t, issued) && StaysGone(s, t)
  {
    assert Owns(s.comps[cid], s.resvs);
    RelabelKeepsTidy(s, E.ActivateWith(s, cid, s.comps[cid], failure).0, issued, cid);
  }

  lemma ActivateKeepsTidy(s: E.State, issued: map<CompositionId, Plan>, cid: CompositionId)
    requires Tidy(s, issued)
    ensures var t := E.Activate(s, cid).0; Tidy(t, issued) && StaysGone(s, t)
  {
    if cid in s.comps && s.comps[cid].lifecycle == Committed && s.comps[cid].id !in s.fenced {
      ActivateWithKeepsTidy(s, issued, cid, E.Revalidate(s.comps[cid], s.resources, s.epoch));
    } else {
      assert E.Activate(s, cid).0 == s;
    }
  }

  lemma BeginDrainKeepsTidy(s: E.State, issued: map<CompositionId, Plan>, cid: CompositionId)
    requires Tidy(s, issued)
    ensures var t := E.BeginDrain(s, cid).0; Tidy(t, issued) && StaysGone(s, t)
  {
    var t := E.BeginDrain(s, cid).0;
    if E.BeginDrain(s, cid).1 {
      assert Owns(s.comps[cid], s.resvs);
      RelabelKeepsTidy(s, t, issued, cid);
    } else {
      assert t == s;
    }
  }

  // ---- ending ------------------------------------------------------------------

  lemma FreeingKeepsBalance(s: E.State, vid: ReservationId)
    requires Ledger(s) && vid in s.resvs && SafeToFree(s, vid)
    ensures var t := E.ReleaseReservation(s, vid); Balanced(t.resvs, t.held, t.nextResv)
  {
    var v := s.resvs[vid].(state := ReleasedHold);
    if Live(s.resvs[vid]) {
      Close(s.resvs, s.held, s.nextResv, vid, v, s.held);
    } else {
      CloseAgain(s.resvs, s.held, s.nextResv, vid, v);
    }
  }

  /** `t` is `s` after the composition has given its reservation back and is RELEASED. */
  ghost predicate Ended(s: E.State, t: E.State, cid: CompositionId)
  {
    && cid in s.comps
    && var u := E.ReleaseReservation(s, s.comps[cid].reservation);
    && t.comps == s.comps[cid := s.comps[cid].(lifecycle := Released)]
    && t.resvs == u.resvs && t.held == u.held && t.nextResv == s.nextResv && t.resources == s.resources &&
         s.fenced <= t.fenced
  }

  lemma EndingKeepsTidy(s: E.State, t: E.State, issued: map<CompositionId, Plan>, cid: CompositionId)
    requires Tidy(s, issued) && Ended(s, t, cid) && SafeToFree(s, s.comps[cid].reservation)
    requires cid in t.fenced || !Stuck(s, cid)
    ensures Tidy(t, issued) && StaysGone(s, t)
  {
    var c := s.comps[cid];
    assert Owns(c, s.resvs);
    FreeingKeepsBalance(s, c.reservation);
    PairKeepsTidy(s, t, issued, t.comps[cid], t.resvs[c.reservation]);
  }

  /** A draining composition always finds its reservation COMMITTED. */
  lemma DrainFindsCommitted(s: E.State, cid: CompositionId)
    requires Ledger(s) && cid in s.comps && s.comps[cid].lifecycle == Draining
    ensures s.comps[cid].reservation in s.resvs && s.resvs[s.comps[cid].reservation].state == CommittedHold
    ensures SafeToFree(s, s.comps[cid].reservation)
  {
    assert Owns(s.comps[cid], s.resvs);
  }

  lemma EndDrainKeepsTidy(s: E.State, issued: map<CompositionId, Plan>, cid: CompositionId)
    requires Tidy(s, issued)
    ensures var t := E.EndDrain(s, cid).0; Tidy(t, issued) && StaysGone(s, t)
  {
    if cid in s.comps && s.comps[cid].lifecycle == Draining {
      DrainFindsCommitted(s, cid);
      EndingKeepsTidy(s, E.EndDrain(s, cid).0, issued, cid);
    } else {
      assert E.EndDrain(s, cid).0 == s;
    }
  }

  lemma ReleaseKeepsTidy(s: E.State, issued: map<CompositionId, Plan>, cid: CompositionId)
    requires Tidy(s, issued) && SafeToRelease(s, cid)
    ensures var t := E.Release(s, cid).0; Tidy(t, issued) && StaysGone(s, t)
  {
    if E.Release(s, cid).1 {
      EndingKeepsTidy(s, E.Release(s, cid).0, issued, cid);
    } else {
      assert E.Release(s, cid).0 == s;
    }
  }

  lemma ReleaseOldKeepsTidy(s: E.State, issued: map<CompositionId, Plan>, cid: CompositionId)
    requires Tidy(s, issued) && (cid in s.comps ==> SafeToFree(s, s.comps[cid].reservation))
    ensures var t := E.ReleaseOld(s, cid); Tidy(t, issued) && StaysGone(s, t)
  {
    if cid in s.comps { EndingKeepsTidy(s, E.ReleaseOld(s, cid), issued, cid); }
  }
}
