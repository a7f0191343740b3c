/** What a Recompute call may rely on between its sections, whatever runs in between. */
module RecomputeInvariant {
  import opened FabricTypes
  import opened Candidates
  import E = Engine
  import opened Runs
  import opened Invalidation
  import opened AuthorityInvariant

  /** Reservation ids stay below the counter. */
  ghost predicate Numbered(s: E.State) { forall v :: v in s.resvs ==> v < s.nextResv }

  /** Fences stay, counters grow, and a reservation number never changes hands. */
  ghost predicate Extends(s: E.State, t: E.State)
  {
    && s.fenced <= t.fenced && s.nextComp <= t.nextComp && s.nextResv <= t.nextResv
    && Numbered(t)
    && forall v :: v in t.resvs && v < s.nextResv ==> v in s.resvs && t.resvs[v].composition == s.resvs[v].composition
  }

  lemma ReserveWithExtends(s: E.State, plan: Plan, h: E.Holds)
    requires Numbered(s)
    ensures Extends(s, E.ReserveWith(s, plan, h).0)
  {
    var t := E.ReserveWith(s, plan, h).0;
    assert t.fenced == s.fenced && t.nextComp == s.nextComp && t.nextResv == s.nextResv + 1;
    if h.failure.Some? {
      assert t.resvs == s.resvs;
    } else {
      assert t.resvs == s.resvs[s.nextResv := t.resvs[s.nextResv]];
    }
  }

  lemma ReserveExtends(s: E.State, plan: Plan)
    requires Numbered(s)
    ensures Extends(s, E.Reserve(s, plan).0)
  {
    if plan.lifecycle == Planned && plan.id != 0 {
      ReserveWithExtends(s, plan, E.TakeHolds(s.resources, plan.request, plan.graph.vertices, s.held, []));
    }
  }

  lemma CommitExtends(s: E.State, vid: ReservationId)
    requires Numbered(s)
    ensures Extends(s, E.Commit(s, vid).0)
  {
  }

  lemma ActivateWithExtends(s: E.State, cid: CompositionId, c: Composition, failure: Option<Reason>)
    requires Numbered(s)
    ensures Extends(s, E.ActivateWith(s, cid, c, failure).0)
  {
  }

  lemma ActivateExtends(s: E.State, cid: CompositionId)
    requires Numbered(s)
    ensures Extends(s, E.Activate(s, cid).0)
  {
    if cid in s.comps {
      ActivateWithExtends(s, cid, s.comps[cid], E.Revalidate(s.comps[cid], s.resources, s.epoch));
    }
  }

  lemma BeginDrainExtends(s: E.State, cid: CompositionId)
    requires Numbered(s)
    ensures Extends(s, E.BeginDrain(s, cid).0)
  {
  }

  lemma EndDrainExtends(s: E.State, cid: CompositionId)
    requires Numbered(s)
    ensures Extends(s, E.EndDrain(s, cid).0)
  {
    if cid in s.comps {
      var t := E.ReleaseReservation(s, s.comps[cid].reservation);
      assert Extends(s, t);
    }
  }

  lemma ReleaseExtends(s: E.State, cid: CompositionId)
    requires Numbered(s)
    ensures Extends(s, E.Release(s, cid).0)
    ensures Extends(s, E.ReleaseOld(s, cid))
  {
    if cid in s.comps {
      var t := E.ReleaseReservation(s, s.comps[cid].reservation);
      assert Extends(s, t);
    }
  }

  lemma {:induction false} AboveMeans(next: nat, cs: seq<Composition>)
    ensures E.Above(next, cs) >= next
    ensures forall i :: 0 <= i < |cs| ==> cs[i].id < E.Above(next, cs)
  {
    if cs != [] {
      AboveMeans(next, cs[..|cs| - 1]);
      assert forall i :: 0 <= i < |cs| - 1 ==> cs[..|cs| - 1][i] == cs[i];
    }
  }

  lemma OperationExtends(s: E.State, call: Call)
    requires Numbered(s)
    ensures Extends(s, Operation(s, call))
  {
    if IsInvalidation(call) {
      InvalidationDemotes(s, call);
    } else {
      match call
      case Reserve(plan) => ReserveExtends(s, plan);
      case Commit(vid) => CommitExtends(s, vid);
      case Activate(cid) => ActivateExtends(s, cid);
      case BeginDrain(cid) => BeginDrainExtends(s, cid);
      case EndDrain(cid) => EndDrainExtends(s, cid);
      case Release(cid) => ReleaseExtends(s, cid);
      case Load(d) => AboveMeans(s.nextComp, d.comps);
    }
  }

  // ---- plans and clients -------------------------------------------------------

  /** Ids are handed out in increasing order, and the generation is the id. */
  ghost predicate Issuing(c: Config)
  {
    && c.s.nextComp > 0
    && forall id :: id in c.issued ==>
         0 < id < c.s.nextComp && c.issued[id].id == id && c.issued[id].generation == id &&
           c.issued[id].lifecycle == Planned
  }

  ghost predicate Replacement(issued: map<CompositionId, Plan>, plan: Plan, before: set<CompositionId>)
  {
    && plan.id in issued && issued[plan.id] == plan
    && forall b :: b in before ==> b in issued && b < plan.id
  }

  ghost predicate ClientOk(s: E.State, issued: map<CompositionId, Plan>, cl: Client)
  {
    match cl
    case Asked(_, _) => true
    case Composed(_, plan, before) => Replacement(issued, plan, before)
    case Freed(prior, plan, before, found) => Replacement(issued, plan, before) && (found ==> prior in s.fenced)
    case Holding(prior, plan, before, found, vid) =>
      && Replacement(issued, plan, before) && (found ==> prior in s.fenced)
      && vid < s.nextResv && (vid in s.resvs ==> s.resvs[vid].composition == plan.id)
    case Agreed(prior, plan, before, found, cid) =>
      Replacement(issued, plan, before) && (found ==> prior in s.fenced) && cid == plan.id
    case ReturnedTrue(prior, plan, before, found) => Replacement(issued, plan, before) && (found ==> prior in s.fenced)
    case ReturnedFalse => true
  }

  ghost predicate ClientsOk(c: Config)
  {
    forall k :: k in c.clients ==> ClientOk(c.s, c.issued, c.clients[k])
  }

  /** The invariant of all runs. */
  ghost predicate Sound(c: Config)
  {
    Current(c.s) && Numbered(c.s) && Issuing(c) && ClientsOk(c)
  }

  ghost predicate IssuedGrows(issued: map<CompositionId, Plan>, issued': map<CompositionId, Plan>)
  {
    forall id :: id in issued ==> id in issued' && issued'[id] == issued[id]
  }

  lemma ClientSurvives(s: E.State, t: E.State, issued: map<CompositionId, Plan>, issued': map<CompositionId, Plan>,
                       cl: Client)
    requires ClientOk(s, issued, cl) && Extends(s, t) && IssuedGrows(issued, issued')
    ensures ClientOk(t, issued', cl)
  {
  }

  /** A step that moves only the tables. */
  lemma TablesMove(c: Config, t: E.State)
    requires Sound(c) && Current(t) && Extends(c.s, t)
    ensures Sound(c.(s := t))
  {
    forall k | k in c.clients ensures ClientOk(t, c.issued, c.clients[k]) {
      ClientSurvives(c.s, t, c.issued, c.issued, c.clients[k]);
    }
  }

  lemma ClientMoves(c: Config, k: nat, cl: Client)
    requires Sound(c) && ClientOk(c.s, c.issued, cl)
    ensures Sound(c.(clients := c.clients[k := cl]))
  {
  }

  lemma HandingOutKeepsSound(c: Config, d: Config, plan: Plan)
    requires Sound(c) && HandsOut(c, d, plan)
    ensures Sound(d) && Replacement(d.issued, plan, c.issued.Keys)
  {
    forall k | k in c.clients ensures ClientOk(d.s, d.issued, c.clients[k]) {
      ClientSurvives(c.s, d.s, c.issued, d.issued, c.clients[k]);
    }
  }

  lemma ComposeKeepsSound(c: Config, order: seq<ResourceId>, req: Request)
    requires Sound(c)
    ensures var (d, plan) := ComposeIn(c, order, req);
            Sound(d) && (plan.Some? ==> Replacement(d.issued, plan.value, c.issued.Keys))
  {
    var (d, plan) := ComposeIn(c, order, req);
    ComposeHandsOut(c, order, req);
    if plan.Some? { HandingOutKeepsSound(c, d, plan.value); }
  }

  lemma ReserveNames(s: E.State, plan: Plan)
    ensures var (t, r) := E.Reserve(s, plan);
            r.ReserveOk? ==>
              && r.reservation.id == s.nextResv < t.nextResv
              && s.nextResv in t.resvs && t.resvs[s.nextResv].composition == plan.id
  {
  }

  lemma CommitNames(s: E.State, vid: ReservationId)
    requires Current(s)
    ensures E.Commit(s, vid).1.CommitOk? ==> vid in s.resvs && E.Commit(s, vid).1.id == s.resvs[vid].composition
  {
  }

  lemma ReleaseOldFences(s: E.State, cid: CompositionId)
    requires Current(s)
    ensures cid in s.comps ==> cid in E.ReleaseOld(s, cid).fenced
  {
  }

  lemma AdvanceKeepsSound(s: E.State, issued: map<CompositionId, Plan>, cl: Client)
    requires Current(s) && Numbered(s) && ClientOk(s, issued, cl) && !cl.Asked?
    ensures var (t, cl') := Advance(s, cl);
            Current(t) && Extends(s, t) && ClientOk(t, issued, cl')
  {
    match cl
    case Composed(prior, plan, before) =>
      ReleaseExtends(s, prior);
      ReleaseKeepsCurrent(s, prior);
      ReleaseOldFences(s, prior);
    case Freed(prior, plan, before, found) =>
      ReserveExtends(s, plan);
      ReserveKeepsCurrent(s, plan);
      ReserveNames(s, plan);
    case Holding(prior, plan, before, found, vid) =>
      CommitExtends(s, vid);
      CommitKeepsCurrent(s, vid);
      CommitNames(s, vid);
    case Agreed(prior, plan, before, found, cid) =>
      ActivateExtends(s, cid);
      ActivateKeepsCurrent(s, cid);
    case _ =>
  }

  lemma AskKeepsSound(c: Config, k: nat, order: seq<ResourceId>, prior: CompositionId, req: Request)
    requires Sound(c)
    ensures Sound(Ask(c, k, order, prior, req)) && Extends(c.s, Ask(c, k, order, prior, req).s)
  {
    if Enumerates(order, c.s.resources) {
      ComposeKeepsSound(c, order, req);
      ComposeHandsOut(c, order, req);
      ClientMoves(ComposeIn(c, order, req).0, k, Ask(c, k, order, prior, req).clients[k]);
    }
  }

  lemma SectionKeepsSound(c: Config, k: nat, order: seq<ResourceId>)
    requires Sound(c)
    ensures Sound(Section(c, k, order)) && Extends(c.s, Section(c, k, order).s)
  {
    if k in c.clients {
      var cl := c.clients[k];
      var d := Section(c, k, order);
      if cl.Asked? {
        AskKeepsSound(c, k, order, cl.prior, cl.req);
      } else {
        AdvanceKeepsSound(c.s, c.issued, cl);
        TablesMove(c, d.s);
        ClientMoves(c.(s := d.s), k, d.clients[k]);
      }
    }
  }

  lemma CoreKeepsSound(c: Config, step: Step)
    requires Sound(c)
    ensures Sound(Core(c, step)) && Extends(c.s, Core(c, step).s)
  {
    match step
    case Atomic(call) =>
      OperationExtends(c.s, call);
      OperationKeepsCurrent(c.s, call);
      TablesMove(c, Operation(c.s, call));
    case Compose(order, req) =>
      ComposeKeepsSound(c, order, req);
      ComposeHandsOut(c, order, req);
    case RecomputeCall(k, cid) =>
      if k !in c.clients { ClientMoves(c, k, Core(c, step).clients[k]); }
    case RecomputeSection(k, order) => SectionKeepsSound(c, k, order);
  }

  lemma NextKeepsSound(c: Config, step: Step)
    requires Sound(c)
    ensures Sound(Next(c, step)) && Extends(c.s, Next(c, step).s)
  {
    CoreKeepsSound(c, step);
  }
}
