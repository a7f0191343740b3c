/** Conservative restart: what a reload leaves behind, whatever was saved and whatever was there before. */
module Restart {
  import opened FabricTypes
  import opened RunTheory
  import E = Engine
  import opened Runs
  import opened Invalidation
  import opened AuthorityInvariant
  import opened RecomputeInvariant
  import opened AuthorityTheorems
  import opened Progress
  import opened Books

  lemma {:induction false} LoadedEvidence(rs: seq<Resource>, k: ResourceId)
    requires k in E.LoadResources(rs)
    ensures !E.LoadResources(rs)[k].evidence.durable ==> !E.LoadResources(rs)[k].evidence.IsCurrent()
    ensures exists i :: 0 <= i < |rs| && rs[i].id == k && E.LoadResources(rs)[k] == E.LoadedResource(rs[i])
  {
    var n := |rs| - 1;
    if k != rs[n].id {
      LoadedEvidence(rs[..n], k);
      var i :| 0 <= i < n && rs[..n][i].id == k && E.LoadResources(rs[..n])[k] == E.LoadedResource(rs[..n][i]);
      assert rs[i].id == k;
    } else {
      assert rs[n].id == k;
    }
  }

  /** Nothing is ACTIVE or COMMITTED, nothing is reserved, no evidence that is not durable is
      current, and new ids lie above every loaded one. */
  ghost predicate Conservative(s: E.State)
  {
    && (forall id :: id in s.comps ==>
         s.comps[id].lifecycle != Active && s.comps[id].lifecycle != Committed && id < s.nextComp)
    && s.resvs == map[]
    && (forall k :: k in s.resources && !s.resources[k].evidence.durable ==> !s.resources[k].evidence.IsCurrent())
  }

  lemma LoadIsConservative(s: E.State, d: E.Durable)
    ensures Conservative(E.Load(s, d))
    ensures E.Load(s, d).nextComp >= s.nextComp
  {
    LoadCompsInert(d.comps);
    AboveMeans(s.nextComp, d.comps);
    forall id | id in E.LoadComps(d.comps) ensures id < E.Above(s.nextComp, d.comps) {
      LoadCompsKeys(d.comps, id);
    }
    forall k | k in E.LoadResources(d.resources) && !E.LoadResources(d.resources)[k].evidence.durable
      ensures !E.LoadResources(d.resources)[k].evidence.IsCurrent()
    {
      LoadedEvidence(d.resources, k);
    }
  }

  // ---- save and reload ---------------------------------------------------------

  lemma {:induction false} LoadedResources(rs: seq<Resource>, i: nat)
    requires i < |rs|
    ensures rs[i].id in E.LoadResources(rs)
  {
    var n := |rs| - 1;
    if i < n { LoadedResources(rs[..n], i); }
  }

  lemma {:induction false} LoadedComps(cs: seq<Composition>)
    ensures forall i :: 0 <= i < |cs| ==> cs[i].id in E.LoadComps(cs)
    ensures forall k :: k in E.LoadComps(cs) ==>
        exists i :: 0 <= i < |cs| && cs[i].id == k && E.LoadComps(cs)[k] == E.LoadedComposition(cs[i])
  {
    if cs != [] {
      var n := |cs| - 1;
      LoadedComps(cs[..n]);
      forall k | k in E.LoadComps(cs)
        ensures exists i :: 0 <= i < |cs| && cs[i].id == k && E.LoadComps(cs)[k] == E.LoadedComposition(cs[i])
      {
        if k != cs[n].id {
          var i :| 0 <= i < n && cs[..n][i].id == k && E.LoadComps(cs[..n])[k] == E.LoadedComposition(cs[..n][i]);
          assert cs[i].id == k;
        } else {
          assert cs[n].id == k;
        }
      }
      forall i | 0 <= i < |cs| ensures cs[i].id in E.LoadComps(cs) {
        if i < n { assert cs[..n][i] == cs[i]; }
      }
    }
  }

  lemma {:induction false} LoadedNodes(ns: seq<Node>)
    ensures forall i :: 0 <= i < |ns| ==> ns[i].id in E.LoadNodes(ns)
    ensures forall k :: k in E.LoadNodes(ns) ==> E.LoadNodes(ns)[k] in ns && E.LoadNodes(ns)[k].id == k
  {
    if ns != [] {
      var n := |ns| - 1;
      LoadedNodes(ns[..n]);
      forall i | 0 <= i < |ns| ensures ns[i].id in E.LoadNodes(ns) {
        if i < n { assert ns[..n][i] == ns[i]; }
      }
    }
  }

  /** Every record is filed under its own id. */
  ghost predicate Keyed(s: E.State)
  {
    && WellKeyed(s.resources)
    && (forall k :: k in s.nodes ==> s.nodes[k].id == k)
    && (forall k :: k in s.comps ==> s.comps[k].id == k)
  }

  lemma ResourcesReload(resources: map<ResourceId, Resource>, rs: seq<Resource>)
    requires WellKeyed(resources) && forall r :: r in rs <==> r in resources.Values
    ensures E.LoadResources(rs).Keys == resources.Keys
    ensures forall k :: k in resources ==> E.LoadResources(rs)[k] == E.LoadedResource(resources[k])
  {
    forall k | k in resources ensures k in E.LoadResources(rs) {
      assert resources[k] in rs;
      var i :| 0 <= i < |rs| && rs[i] == resources[k];
      LoadedResources(rs, i);
    }
    forall k | k in E.LoadResources(rs)
      ensures k in resources && E.LoadResources(rs)[k] == E.LoadedResource(resources[k]) {
      LoadedEvidence(rs, k);
      var i :| 0 <= i < |rs| && rs[i].id == k && E.LoadResources(rs)[k] == E.LoadedResource(rs[i]);
      assert rs[i] in rs;
    }
  }

  lemma CompsReload(comps: map<CompositionId, Composition>, cs: seq<Composition>)
    requires forall k :: k in comps ==> comps[k].id == k
    requires forall c :: c in cs <==> c in comps.Values
    ensures E.LoadComps(cs).Keys == comps.Keys
    ensures forall k :: k in comps ==> E.LoadComps(cs)[k] == E.LoadedComposition(comps[k])
  {
    LoadedComps(cs);
    forall k | k in comps ensures k in E.LoadComps(cs) {
      assert comps[k] in cs;
      var i :| 0 <= i < |cs| && cs[i] == comps[k];
    }
    forall k | k in E.LoadComps(cs) ensures k in comps && E.LoadComps(cs)[k] == E.LoadedComposition(comps[k]) {
      var i :| 0 <= i < |cs| && cs[i].id == k && E.LoadComps(cs)[k] == E.LoadedComposition(cs[i]);
      assert cs[i] in cs;
    }
  }

  lemma NodesReload(nodes: map<NodeId, Node>, ns: seq<Node>)
    requires forall k :: k in nodes ==> nodes[k].id == k
    requires forall n :: n in ns <==> n in nodes.Values
    ensures E.LoadNodes(ns) == nodes
  {
    LoadedNodes(ns);
    forall k | k in nodes ensures k in E.LoadNodes(ns) {
      assert nodes[k] in ns;
      var i :| 0 <= i < |ns| && ns[i] == nodes[k];
    }
  }

  /** The tables of `s` again, with nothing ACTIVE or COMMITTED and only durable evidence kept. */
  ghost predicate Reloaded(s: E.State, t: E.State)
  {
    && t.epoch == s.epoch && t.nodes == s.nodes && t.policies == s.policies
    && t.resources.Keys == s.resources.Keys &&
         (forall k :: k in s.resources ==> t.resources[k] == E.LoadedResource(s.resources[k]))
    && t.comps.Keys == s.comps.Keys && (forall k :: k in s.comps ==> t.comps[k] == E.LoadedComposition(s.comps[k]))
  }

  lemma SaveThenLoad(s: E.State, d: E.Durable, into: E.State)
    requires Keyed(s) && E.Saved(s, d)
    ensures Reloaded(s, E.Load(into, d))
  {
    NodesReload(s.nodes, d.nodes);
    ResourcesReload(s.resources, d.resources);
    CompsReload(s.comps, d.comps);
  }

  // ---- nodes are filed under their own ids in every run ------------------------

  ghost predicate NodesFiled(s: E.State) { forall k :: k in s.nodes ==> s.nodes[k].id == k }

  lemma {:induction false} IngestNodesFiles(s: E.State, ns: seq<Node>)
    requires NodesFiled(s)
    ensures NodesFiled(E.IngestNodes(s, ns))
  {
    if ns != [] { IngestNodesFiles(s, ns[..|ns| - 1]); }
  }

  lemma {:induction false} IngestResourcesKeepsNodes(s: E.State, rs: seq<Resource>)
    ensures E.IngestResources(s, rs).nodes == s.nodes
  {
    if rs != [] { IngestResourcesKeepsNodes(s, rs[..|rs| - 1]); }
  }

  lemma EventsFileNodes(s: E.State, call: Call)
    requires NodesFiled(s) && IsInvalidation(call)
    ensures NodesFiled(Operation(s, call))
  {
    if call.Discover? {
      IngestNodesFiles(s, call.nodes);
      IngestResourcesKeepsNodes(E.IngestNodes(s, call.nodes), call.resources);
    }
  }

  lemma ReserveKeepsNodes(s: E.State, plan: Plan)
    ensures E.Reserve(s, plan).0.nodes == s.nodes
  {
  }

  lemma CommitKeepsNodes(s: E.State, vid: ReservationId)
    ensures E.Commit(s, vid).0.nodes == s.nodes
  {
  }

  lemma LifecycleKeepsNodes(s: E.State, cid: CompositionId)
    ensures E.Activate(s, cid).0.nodes == s.nodes && E.BeginDrain(s, cid).0.nodes == s.nodes
  {
  }

  lemma EndingKeepsNodes(s: E.State, cid: CompositionId)
    ensures E.EndDrain(s, cid).0.nodes == s.nodes
    ensures E.Release(s, cid).0.nodes == s.nodes && E.ReleaseOld(s, cid).nodes == s.nodes
  {
  }

  lemma OperationFilesNodes(s: E.State, call: Call)
    requires NodesFiled(s)
    ensures NodesFiled(Operation(s, call))
  {
    if IsInvalidation(call) {
      EventsFileNodes(s, call);
    } else {
      match call
      case Reserve(plan) => ReserveKeepsNodes(s, plan);
      case Commit(vid) => CommitKeepsNodes(s, vid);
      case Activate(cid) => LifecycleKeepsNodes(s, cid);
      case BeginDrain(cid) => LifecycleKeepsNodes(s, cid);
      case EndDrain(cid) => EndingKeepsNodes(s, cid);
      case Release(cid) => EndingKeepsNodes(s, cid);
      case Load(d) => LoadedNodes(d.nodes);
    }
  }

  lemma AdvanceKeepsNodes(s: E.State, cl: Client)
    requires !cl.Asked?
    ensures Advance(s, cl).0.nodes == s.nodes
  {
    match cl
    case Composed(prior, _, _) => EndingKeepsNodes(s, prior);
    case Freed(_, plan, _, _) => ReserveKeepsNodes(s, plan);
    case Holding(_, _, _, _, vid) => CommitKeepsNodes(s, vid);
    case Agreed(_, _, _, _, cid) => LifecycleKeepsNodes(s, cid);
    case _ =>
  }

  lemma StepFilesNodes(c: Config, step: Step)
    requires NodesFiled(c.s)
    ensures NodesFiled(Next(c, step).s)
  {
    match step
    case Atomic(call) => OperationFilesNodes(c.s, call);
    case Compose(order, req) => ComposeHandsOut(c, order, req);
    case RecomputeCall(_, _) =>
    case RecomputeSection(k, order) =>
      if k in c.clients {
        if c.clients[k].Asked? {
          ComposeHandsOut(c, order, c.clients[k].req);
        } else {
          AdvanceKeepsNodes(c.s, c.clients[k]);
        }
      }
  }

  lemma EveryRunIsKeyed(epoch: Epoch, run: seq<Step>)
    ensures Keyed(Reached(epoch, run).s)
  {
    EveryRunIsSound(epoch, run);
    forall d: Config, step: Step | NodesFiled(d.s) ensures NodesFiled(Next(d, step).s) { StepFilesNodes(d, step); }
    EveryRun(Next, (d: Config) => NodesFiled(d.s), Start(epoch), run);
  }

  lemma {:induction false} NothingReserved(n: nat, rid: ResourceId)
    ensures LiveSum(map[], n, rid) == 0.0
  {
    if n > 0 { NothingReserved(n - 1, rid); }
  }

  /** A reload forgets the reservations but not the hold ledger: the two still agree exactly when
      nothing was held. */
  lemma LoadIsExactIff(s: E.State, d: E.Durable)
    ensures var t := E.Load(s, d);
            Exact(t.resvs, t.held, t.nextResv) <==> forall rid :: E.HeldOf(s.held, rid) == 0.0
  {
    forall rid ensures LiveSum(map[], s.nextResv, rid) == 0.0 { NothingReserved(s.nextResv, rid); }
  }

  /** Advancing the epoch demotes everything, and in every later state of the epoch only what was
      bound to it is ACTIVE. */
  lemma EpochBarrier(epoch: Epoch, run: seq<Step>, e: Epoch, more: seq<Step>, id: CompositionId)
    requires e != 0
    ensures !IsActive(Next(Reached(epoch, run), Atomic(AdvanceEpoch(e))).s, id)
    ensures var s := Reached(epoch, run + [Atomic(AdvanceEpoch(e))] + more).s;
            s.epoch == e && IsActive(s, id) ==> s.comps[id].authority.epoch == e
  {
    AuthorityIsCurrent(epoch, run + [Atomic(AdvanceEpoch(e))] + more, id);
  }
}
