/** Authority is always current and never fenced: what every step of every run keeps, with no
    assumption on the callers.  Plans given to Reserve may be forged, and Load may happen at any
    time. */
module AuthorityInvariant {
  import opened FabricTypes
  import opened Candidates
  import opened Planner
  import opened RunTheory
  import E = Engine
  import opened Runs
  import opened Invalidation

  /** The bound epoch is the engine's, and every member is registered at the generation bound at its position. */
  ghost predicate Bound(c: Composition, resources: map<ResourceId, Resource>, epoch: Epoch)
  {
    && c.authority.epoch == epoch
    && forall i :: 0 <= i < |c.graph.vertices| ==>
         && c.graph.vertices[i] in resources
         && (i < |c.authority.resources| ==> resources[c.graph.vertices[i]].generation == c.authority.resources[i])
  }

  ghost predicate Current(s: E.State)
  {
    && WellKeyed(s.resources)
    && forall id :: id in s.comps ==>
         && s.comps[id].id == id
         && (s.comps[id].lifecycle == Active ==> id !in s.fenced && Bound(s.comps[id], s.resources, s.epoch))
  }

  // ---- invalidation ------------------------------------------------------------

  lemma QuietKeepsCurrent(s: E.State, t: E.State)
    requires Current(s) && Quieted(s, t)
    ensures Current(t)
  {
    forall id | id in t.comps && t.comps[id].lifecycle == Active ensures Bound(t.comps[id], t.resources, t.epoch) {
      assert Bound(s.comps[id], s.resources, s.epoch);
    }
  }

  lemma IngestResourceKeepsCurrent(s: E.State, r: Resource)
    requires Current(s)
    ensures Current(E.IngestResource(s, r))
  {
    if r.id != 0 {
      var t := E.IngestResource(s, r);
      IngestResourceDemotes(s, r);
      forall id | id in t.comps && t.comps[id].lifecycle == Active ensures Bound(t.comps[id], t.resources, t.epoch) {
        var c := s.comps[id];
        assert Bound(c, s.resources, s.epoch) && Lowered(c, t.comps[id]);
        assert t.resources == s.resources[r.id := r];
        assert r.id in c.graph.vertices ==> r.id in s.resources && s.resources[r.id].generation == r.generation;
        assert forall i :: 0 <= i < |c.graph.vertices| ==> c.graph.vertices[i] in c.graph.vertices;
      }
    }
  }

  lemma {:induction false} IngestNodesKeepsCurrent(s: E.State, ns: seq<Node>)
    requires Current(s)
    ensures Current(E.IngestNodes(s, ns))
  {
    if ns != [] {
      var t := E.IngestNodes(s, ns[..|ns| - 1]);
      IngestNodesKeepsCurrent(s, ns[..|ns| - 1]);
      IngestNodeQuiets(t, ns[|ns| - 1]);
      QuietKeepsCurrent(t, E.IngestNode(t, ns[|ns| - 1]));
    }
  }

  lemma {:induction false} IngestResourcesKeepsCurrent(s: E.State, rs: seq<Resource>)
    requires Current(s)
    ensures Current(E.IngestResources(s, rs))
  {
    if rs != [] {
      IngestResourcesKeepsCurrent(s, rs[..|rs| - 1]);
      IngestResourceKeepsCurrent(E.IngestResources(s, rs[..|rs| - 1]), rs[|rs| - 1]);
    }
  }

  lemma DiscoverKeepsCurrent(s: E.State, ns: seq<Node>, rs: seq<Resource>, found: map<(NodeId, NodeId), PathEvidence>)
    requires Current(s)
    ensures Current(E.Discover(s, ns, rs, found))
  {
    IngestNodesKeepsCurrent(s, ns);
    IngestResourcesKeepsCurrent(E.IngestNodes(s, ns), rs);
  }

  lemma AdvanceEpochKeepsCurrent(s: E.State, next: Epoch)
    requires Current(s)
    ensures Current(E.AdvanceEpoch(s, next))
  {
  }

  lemma InvalidationKeepsCurrent(s: E.State, call: Call)
    requires Current(s) && IsInvalidation(call)
    ensures Current(Operation(s, call))
  {
    match call
    case IngestResource(r) => IngestResourceKeepsCurrent(s, r);
    case Discover(ns, rs, found) => DiscoverKeepsCurrent(s, ns, rs, found);
    case AdvanceEpoch(next) => AdvanceEpochKeepsCurrent(s, next);
    case _ =>
      QuietStepQuiets(s, call);
      QuietKeepsCurrent(s, Operation(s, call));
  }

  // ---- the client path ---------------------------------------------------------

  /** Revalidation checks exactly the binding, and that every member's evidence is current. */
  lemma {:induction false} RevalidateMeans(c: Composition, resources: map<ResourceId, Resource>, i: nat)
    requires i <= |c.graph.vertices|
    ensures E.RevalidateFrom(c, resources, i).None? <==>
              forall j :: i <= j < |c.graph.vertices| ==>
                && c.graph.vertices[j] in resources && resources[c.graph.vertices[j]].id != 0
                && (j < |c.authority.resources| ==>
                     resources[c.graph.vertices[j]].generation == c.authority.resources[j])
                && resources[c.graph.vertices[j]].evidence.IsCurrent()
    decreases |c.graph.vertices| - i
  {
    if i < |c.graph.vertices| { RevalidateMeans(c, resources, i + 1); }
  }

  lemma RevalidatedIsBound(c: Composition, resources: map<ResourceId, Resource>, epoch: Epoch)
    requires E.Revalidate(c, resources, epoch).None?
    ensures Bound(c, resources, epoch)
    ensures forall rid :: rid in c.graph.vertices ==> rid in resources && resources[rid].evidence.IsCurrent()
  {
    RevalidateMeans(c, resources, 0);
  }

  /** Replacing one composition's record, with fences only added elsewhere. */
  lemma UpdateKeepsCurrent(s: E.State, t: E.State, cid: CompositionId, c: Composition)
    requires Current(s) && t.epoch == s.epoch && t.resources == s.resources && t.comps == s.comps[cid := c]
    requires c.id == cid && (c.lifecycle == Active ==> cid !in t.fenced && Bound(c, s.resources, s.epoch))
    requires t.fenced <= s.fenced + {cid}
    ensures Current(t)
  {
  }

  lemma ActivateKeepsCurrent(s: E.State, cid: CompositionId)
    requires Current(s)
    ensures Current(E.Activate(s, cid).0)
  {
    var t := E.Activate(s, cid).0;
    if cid in s.comps && s.comps[cid].lifecycle == Committed && cid !in s.fenced {
      var c := s.comps[cid];
      if E.Revalidate(c, s.resources, s.epoch).None? { RevalidatedIsBound(c, s.resources, s.epoch); }
      UpdateKeepsCurrent(s, t, cid, t.comps[cid]);
    } else {
      assert t == s;
    }
  }

  lemma ReserveKeepsCurrent(s: E.State, plan: Plan)
    requires Current(s)
    ensures Current(E.Reserve(s, plan).0)
  {
    var (t, r) := E.Reserve(s, plan);
    if r.ReserveOk? { UpdateKeepsCurrent(s, t, plan.id, t.comps[plan.id]); }
  }

  lemma CommitKeepsCurrent(s: E.State, vid: ReservationId)
    requires Current(s)
    ensures Current(E.Commit(s, vid).0)
  {
  }

  lemma EndingKeepsCurrent(s: E.State, cid: CompositionId)
    requires Current(s)
    ensures Current(E.BeginDrain(s, cid).0) && Current(E.EndDrain(s, cid).0)
  {
  }

  lemma ReleaseKeepsCurrent(s: E.State, cid: CompositionId)
    requires Current(s)
    ensures Current(E.Release(s, cid).0) && Current(E.ReleaseOld(s, cid))
  {
  }

  // ---- restart -----------------------------------------------------------------

  lemma {:induction false} LoadResourcesKeyed(rs: seq<Resource>)
    ensures WellKeyed(E.LoadResources(rs))
  {
    if rs != [] { LoadResourcesKeyed(rs[..|rs| - 1]); }
  }

  lemma {:induction false} LoadCompsInert(cs: seq<Composition>)
    ensures forall id :: id in E.LoadComps(cs) ==>
              E.LoadComps(cs)[id].id == id && E.LoadComps(cs)[id].lifecycle != Active &&
                E.LoadComps(cs)[id].lifecycle != Committed
  {
    if cs != [] { LoadCompsInert(cs[..|cs| - 1]); }
  }

  lemma LoadKeepsCurrent(s: E.State, d: E.Durable)
    requires Current(s)
    ensures Current(E.Load(s, d))
  {
    LoadResourcesKeyed(d.resources);
    LoadCompsInert(d.comps);
  }

  // ---- every step --------------------------------------------------------------

  lemma OperationKeepsCurrent(s: E.State, call: Call)
    requires Current(s)
    ensures Current(Operation(s, call))
  {
    if IsInvalidation(call) {
      InvalidationKeepsCurrent(s, call);
    } else {
      match call
      case Reserve(plan) => ReserveKeepsCurrent(s, plan);
      case Commit(vid) => CommitKeepsCurrent(s, vid);
      case Activate(cid) => ActivateKeepsCurrent(s, cid);
      case BeginDrain(cid) => EndingKeepsCurrent(s, cid);
      case EndDrain(cid) => EndingKeepsCurrent(s, cid);
      case Release(cid) => ReleaseKeepsCurrent(s, cid);
      case Load(d) => LoadKeepsCurrent(s, d);
      case _ =>
    }
  }

  /** Handing out a plan moves the counter and records the plan. */
  ghost predicate HandsOut(c: Config, d: Config, plan: Plan)
  {
    && d == c.(s := c.s.(nextComp := c.s.nextComp + 1), issued := c.issued[c.s.nextComp := plan])
    && plan.id == plan.generation == c.s.nextComp && plan.lifecycle == Planned
  }

  lemma IssueHandsOut(c: Config, req: Request, chosen: Option<seq<ResourceId>>)
    requires chosen.Some? ==> forall id :: id in chosen.value ==> id in c.s.resources
    ensures var (t, plan) := E.Issue(c.s, req, chosen);
            var d := Record(c, t, plan).0;
            if plan.None? then d == c else HandsOut(c, d, plan.value)
  {
  }

  lemma ComposeHandsOut(c: Config, order: seq<ResourceId>, req: Request)
    ensures var (d, plan) := ComposeIn(c, order, req);
            if plan.None? then d == c else HandsOut(c, d, plan.value)
  {
    if Enumerates(order, c.s.resources) {
      IssueHandsOut(c, req, SelectMembers(E.RegistryOf(c.s), order, req));
    }
  }
}
