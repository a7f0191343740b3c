/** The engine object.  Every public method is one lock-held section; its contract ties the new
    tables to the transition of `Engine` on the old ones. */
module FabricEngineObject {
  import opened FabricTypes
  import opened Eligibility
  import opened Candidates
  import opened PlanGraph
  import opened Planner
  import opened PlannerLoops
  import opened EngineContract
  import opened Bytes
  import opened FileStates
  import opened FileAbstraction
  import opened FileRestart
  import Engine
  import R = Runs
  import Q = Quarantine

  // ---- ledger loops ------------------------------------------------------------

  /** Subtract every item from the ledger, clamping at zero and erasing empty entries. */
  method ReleaseItems(ledger: map<ResourceId, real>, items: seq<Item>) returns (held: map<ResourceId, real>)
    ensures held == Engine.ReleaseItems(ledger, items)
  {
    held := ledger;
    for i := 0 to |items|
      invariant Engine.ReleaseItems(held, items[i..]) == Engine.ReleaseItems(ledger, items)
    {
      var item := items[i];
      assert items[i..][1..] == items[i + 1..];
      if item.resource in held {
        var left := held[item.resource] - item.amount;
        if left < 0.0 { left := 0.0; }
        if left == 0.0 { held := held - {item.resource}; } else { held := held[item.resource := left]; }
      }
    }
  }

  /** Hold every vertex in turn; after a failure the holds in `items` are still to be given back. */
  method TakeHolds(resources: map<ResourceId, Resource>, req: Request, vertices: seq<ResourceId>,
                   ledger: map<ResourceId, real>)
    returns (h: Engine.Holds)
    ensures h == Engine.TakeHolds(resources, req, vertices, ledger, [])
  {
    var held: map<ResourceId, real>, items := ledger, [];
    for i := 0 to |vertices|
      invariant Engine.TakeHolds(resources, req, vertices[i..], held, items) ==
          Engine.TakeHolds(resources, req, vertices, ledger, [])
    {
      var rid := vertices[i];
      assert vertices[i..][1..] == vertices[i + 1..];
      if rid !in resources { return Engine.Holds(held, items, Some(ResourceOffline)); }
      var r := resources[rid];
      var verdict := Check(r, req);
      if verdict.Ineligible? { return Engine.Holds(held, items, Some(verdict.reason)); }
      held := Engine.Touch(held, rid);
      if held[rid] > 0.0 { return Engine.Holds(held, items, Some(ReservationConflict)); }
      var amount := HoldAmount(r);
      if r.capacity.computeUnits < 0.0 ||
        r.capacity.hostMemory < 0.0 { return Engine.Holds(held, items, Some(CapacityNegative)); }
      held := held[rid := held[rid] + amount];
      items := items + [Item(rid, Provisional, amount)];
    }
    h := Engine.Holds(held, items, None);
  }

  /** Re-check every held member; reading the ledger may create zero entries. */
  method ScanItems(resources: map<ResourceId, Resource>, req: Request, items: seq<Item>, ledger: map<ResourceId, real>)
    returns (scan: Engine.CommitScan)
    ensures scan == Engine.ScanItems(resources, req, items, ledger)
  {
    var held: map<ResourceId, real> := ledger;
    for i := 0 to |items|
      invariant Engine.ScanItems(resources, req, items[i..], held) == Engine.ScanItems(resources, req, items, ledger)
    {
      var item := items[i];
      assert items[i..][1..] == items[i + 1..];
      if item.resource !in resources { return Engine.CommitScan(held, Some(ResourceOffline)); }
      var verdict := Check(resources[item.resource], req);
      if verdict.Ineligible? { return Engine.CommitScan(held, Some(verdict.reason)); }
      held := Engine.Touch(held, item.resource);
      if held[item.resource] < item.amount { return Engine.CommitScan(held, Some(Overcommit)); }
    }
    scan := Engine.CommitScan(held, None);
  }

  /** The loop over a table that changes the records concerned in place, in whatever order it iterates. */
  method UpdateWhere<V>(table: map<nat, V>, concerned: V -> bool, changed: V -> V) returns (out: map<nat, V>)
    ensures out == map k | k in table :: if concerned(table[k]) then changed(table[k]) else table[k]
  {
    out := table;
    var pending := table.Keys;
    while pending != {}
      invariant pending <= table.Keys && out.Keys == table.Keys
      invariant forall k :: k in pending ==> out[k] == table[k]
      invariant forall k :: k in table && k !in pending ==>
          out[k] == if concerned(table[k]) then changed(table[k]) else table[k]
      decreases |pending|
    {
      var k :| k in pending;
      if concerned(table[k]) { out := out[k := changed(table[k])]; }
      pending := pending - {k};
    }
  }

  method OrphanResources(resources: map<ResourceId, Resource>, owner: string) returns (table: map<ResourceId, Resource>)
    ensures table == Engine.Orphans(resources, owner)
  {
    table := UpdateWhere(resources, r => Engine.OwnedBy(r, owner), Engine.Orphaned);
  }

  method LowerTouched(comps: map<CompositionId, Composition>, resources: map<ResourceId, Resource>, owner: string)
    returns (lowered: map<CompositionId, Composition>)
    ensures lowered == Engine.LowerTouched(comps, resources, owner)
  {
    lowered := UpdateWhere(comps, c => Engine.TouchesOwner(c, resources, owner),
      c => Engine.DemoteActive(c, RecompositionRequired));
  }

  method RevalidateAll(resources: map<ResourceId, Resource>) returns (table: map<ResourceId, Resource>)
    ensures table == map k | k in resources :: Engine.LoadedResource(resources[k])
  {
    table := UpdateWhere(resources, r => true, Engine.LoadedResource);
  }

  method LowerAll(comps: map<CompositionId, Composition>) returns (lowered: map<CompositionId, Composition>)
    ensures lowered == map id | id in comps :: Engine.DemoteActive(comps[id], RevalidationRequired)
  {
    lowered := UpdateWhere(comps, c => true, c => Engine.DemoteActive(c, RevalidationRequired));
  }

  /** The durable state in a file, in the engine's terms, or nothing when the file is refused. */
  method LoadRecords(number: Doubles, data: seq<byte>) returns (d: Option<Engine.Durable>)
    ensures forall s :: LoadFrom(number, s, data) == if d.None? then (s, false) else (Engine.Load(s, d.value), true)
  {
    var w := LoadState(data);
    d := if w.None? then None else Some(DurableIn(number, w.value));
  }

  class FabricEngine {
    var epoch: Epoch
    var resources: map<ResourceId, Resource>
    var nodes: map<NodeId, Node>
    var paths: map<(NodeId, NodeId), PathEvidence>
    var comps: map<CompositionId, Composition>
    var resvs: map<ReservationId, Reservation>
    var held: map<ResourceId, real>
    var policies: map<PolicyId, Generation>
    var draining: set<CompositionId>
    var fenced: set<CompositionId>
    var nextComp: nat
    var nextSet: nat
    var nextResv: nat

    ghost function View(): Engine.State
      reads this
    {
      Engine.State(epoch, resources, nodes, paths, comps, resvs, held, policies, draining, fenced, nextComp,
        nextSet, nextResv)
    }

    ghost predicate Valid()
      reads this
    {
      Sane(View())
    }

    constructor (configured: Epoch)
      ensures Valid() && View() == Engine.Init(configured)
    {
      epoch := if configured == 0 then 1 else configured;
      resources, nodes, paths, comps := map[], map[], map[], map[];
      resvs, held, policies := map[], map[], map[];
      draining, fenced := {}, {};
      nextComp, nextSet, nextResv := 1, 1, 1;
    }

    // ---- the public operations: take the lock, do the work, keep the invariant --

    /** Planning is independent of the order in which the table is visited. */
    method Compose(req: Request) returns (plan: Option<Plan>)
      requires Valid()
      modifies this`nextComp
      ensures Valid()
      ensures forall order :: Enumerates(order, resources) ==>
                (View(), plan) == Engine.Issue(old(View()), req,
                  SelectMembers(Engine.RegistryOf(old(View())), order, req))
    {
      ghost var s := View();
      plan := ComposeLocked(req);
      CountingKeepsSane(s, View());
    }

    method Reserve(plan: Plan) returns (result: Engine.ReserveResult)
      requires Valid()
      modifies this`held, this`comps, this`resvs, this`nextSet, this`nextResv
      ensures Valid()
      ensures View() == Engine.Reserve(old(View()), plan).0
      ensures result == Engine.Reserve(old(View()), plan).1
    {
      ghost var s := View();
      result := ReserveLocked(plan);
      ReserveKeepsSane(s, plan);
    }

    method Commit(vid: ReservationId) returns (result: Engine.CommitResult)
      requires Valid()
      modifies this`held, this`comps, this`resvs
      ensures Valid()
      ensures View() == Engine.Commit(old(View()), vid).0
      ensures result == Engine.Commit(old(View()), vid).1
    {
      ghost var s := View();
      result := CommitLocked(vid);
      CommitKeepsSane(s, vid);
    }

    method Activate(cid: CompositionId) returns (result: Engine.ActivateResult)
      requires Valid()
      modifies this`comps
      ensures Valid()
      ensures View() == Engine.Activate(old(View()), cid).0
      ensures result == Engine.Activate(old(View()), cid).1
    {
      ghost var s := View();
      result := ActivateLocked(cid);
      ActivateKeepsSane(s, cid);
    }

    method BeginDrain(cid: CompositionId) returns (ok: bool)
      requires Valid()
      modifies this`comps, this`draining
      ensures Valid()
      ensures View() == Engine.BeginDrain(old(View()), cid).0
      ensures ok == Engine.BeginDrain(old(View()), cid).1
    {
      KeepsSane(View(), R.BeginDrain(cid));
      ok := BeginDrainLocked(cid);
    }

    method EndDrain(cid: CompositionId) returns (ok: bool)
      requires Valid()
      modifies this`held, this`resvs, this`comps, this`draining
      ensures Valid()
      ensures View() == Engine.EndDrain(old(View()), cid).0
      ensures ok == Engine.EndDrain(old(View()), cid).1
    {
      KeepsSane(View(), R.EndDrain(cid));
      ok := EndDrainLocked(cid);
    }

    method Release(cid: CompositionId) returns (ok: bool)
      requires Valid()
      modifies this`held, this`resvs, this`comps, this`draining, this`fenced
      ensures Valid()
      ensures View() == Engine.Release(old(View()), cid).0
      ensures ok == Engine.Release(old(View()), cid).1
    {
      ReleasingKeepsSane(View(), cid);
      ok := ReleaseLocked(cid);
    }

    /** Recompute's releasing section. */
    method ReleaseOld(cid: CompositionId)
      requires Valid()
      modifies this`held, this`resvs, this`comps, this`fenced
      ensures Valid()
      ensures View() == Engine.ReleaseOld(old(View()), cid)
    {
      ReleasingKeepsSane(View(), cid);
      ReleaseOldLocked(cid);
    }

    /** Save the tables as stored records `w`: nothing is written if the writer throws; otherwise
        the bytes load back, in any engine, exactly when no reader refuses what was saved. */
    method Save(number: Doubles, w: WireDurable) returns (image: Option<seq<byte>>)
      requires Valid() && Engine.Saved(View(), DurableIn(number, w)) && DurableSized(w)
      ensures image == if DurableWritable(w) then Some(StateImage(w)) else None
      ensures image.Some? ==> forall into :: LoadsBack(number, View(), w, into)
    {
      image := SaveState(w);
      if DurableWritable(w) {
        forall into ensures LoadsBack(number, View(), w, into) { StoredStateLoads(number, View(), w, into); }
      }
    }

    /** Load a file: refused without effect, or the tables rebuilt from what it holds. */
    method Load(number: Doubles, data: seq<byte>) returns (ok: bool)
      requires Valid()
      modifies this
      ensures Valid()
      ensures (View(), ok) == LoadFrom(number, old(View()), data)
    {
      var d := LoadRecords(number, data);
      if d.None? { return false; }
      Rebuild(d.value);
      ok := true;
    }

    method Rebuild(d: Engine.Durable)
      requires Valid()
      modifies this
      ensures Valid() && View() == Engine.Load(old(View()), d)
    {
      LoadKeepsSane(View(), d);
      LoadLocked(d);
    }

    method IngestNode(n: Node)
      requires Valid()
      modifies this`nodes, this`comps
      ensures Valid() && Revokes(old(View()), R.IngestNode(n), View())
      ensures View() == Engine.IngestNode(old(View()), n)
    {
      EventKeepsContract(View(), R.IngestNode(n));
      IngestNodeLocked(n);
    }

    method IngestResource(r: Resource)
      requires Valid()
      modifies this`resources, this`comps
      ensures Valid() && Revokes(old(View()), R.IngestResource(r), View())
      ensures View() == Engine.IngestResource(old(View()), r)
    {
      EventKeepsContract(View(), R.IngestResource(r));
      IngestResourceLocked(r);
    }

    method Discover(ns: seq<Node>, rs: seq<Resource>, found: map<(NodeId, NodeId), PathEvidence>)
      requires Valid()
      modifies this`nodes, this`resources, this`comps, this`paths
      ensures Valid() && Revokes(old(View()), R.Discover(ns, rs, found), View())
      ensures View() == Engine.Discover(old(View()), ns, rs, found)
    {
      EventKeepsContract(View(), R.Discover(ns, rs, found));
      DiscoverLocked(ns, rs, found);
    }

    method InvalidateEvidence(rid: ResourceId)
      requires Valid()
      modifies this`resources
      ensures Valid() && Revokes(old(View()), R.InvalidateEvidence(rid), View())
      ensures View() == Engine.InvalidateEvidence(old(View()), rid)
    {
      EventKeepsContract(View(), R.InvalidateEvidence(rid));
      InvalidateEvidenceLocked(rid);
    }

    method Withdraw(rid: ResourceId)
      requires Valid()
      modifies this`resources, this`comps
      ensures Valid() && Revokes(old(View()), R.Withdraw(rid), View())
      ensures Q.Quarantined(View(), rid)
      ensures View() == Engine.Withdraw(old(View()), rid)
    {
      EventKeepsContract(View(), R.Withdraw(rid));
      Q.WithdrawQuarantines(View(), rid);
      WithdrawLocked(rid);
    }

    method MarkEvidenceRevalidationRequired(owner: string)
      requires Valid()
      modifies this`resources, this`comps
      ensures Valid() && Revokes(old(View()), R.WorkerDeath(owner), View())
      ensures OwnerQuarantined(old(View()), owner, View())
      ensures View() == Engine.WorkerDeath(old(View()), owner)
    {
      EventKeepsContract(View(), R.WorkerDeath(owner));
      DeathQuarantinesAll(View(), owner);
      MarkEvidenceRevalidationRequiredLocked(owner);
    }

    method AdvanceEpoch(next: Epoch)
      requires Valid()
      modifies this`epoch, this`resources, this`comps
      ensures Valid() && Revokes(old(View()), R.AdvanceEpoch(next), View())
      ensures next != 0 ==> EpochOpened(View(), next)
      ensures View() == Engine.AdvanceEpoch(old(View()), next)
    {
      EventKeepsContract(View(), R.AdvanceEpoch(next));
      if next != 0 { AdvanceOpensEpoch(View(), next); }
      AdvanceEpochLocked(next);
    }

    method OnPolicyUpdate(policy: PolicyId, gen: Generation)
      requires Valid()
      modifies this`policies, this`comps
      ensures Valid() && Revokes(old(View()), R.PolicyUpdate(policy, gen), View())
      ensures View() == Engine.PolicyUpdate(old(View()), policy, gen)
    {
      EventKeepsContract(View(), R.PolicyUpdate(policy, gen));
      OnPolicyUpdateLocked(policy, gen);
    }

    method OnPathUpdate(pe: PathEvidence)
      requires Valid()
      modifies this`paths, this`comps
      ensures Valid() && Revokes(old(View()), R.PathUpdate(pe), View())
      ensures View() == Engine.PathUpdate(old(View()), pe)
    {
      EventKeepsContract(View(), R.PathUpdate(pe));
      OnPathUpdateLocked(pe);
    }

    method OnResourceFailure(rid: ResourceId)
      requires Valid()
      modifies this`resources, this`comps
      ensures Valid() && Revokes(old(View()), R.ResourceFailure(rid), View())
      ensures Q.Quarantined(View(), rid)
      ensures View() == Engine.ResourceFailure(old(View()), rid)
    {
      EventKeepsContract(View(), R.ResourceFailure(rid));
      Q.FailureQuarantines(View(), rid);
      OnResourceFailureLocked(rid);
    }

    // ---- compose, reserve, commit, activate ------------------------------------

    /** Planning is independent of the order in which the table is visited. */
    method ComposeLocked(req: Request) returns (plan: Option<Plan>)
      requires WellKeyed(resources)
      modifies this`nextComp
      ensures forall order :: Enumerates(order, resources) ==>
                (View(), plan) == Engine.Issue(old(View()), req,
                  SelectMembers(Engine.RegistryOf(old(View())), order, req))
    {
      ghost var s := View();
      var reg := Registry(resources, nodes, paths);
      assert reg == Engine.RegistryOf(s);
      var chosen := ComposeDeterministic(reg, req);
      if chosen.None? {
        plan := None;
      } else {
        var ms := Lookup(resources, chosen.value);
        var g := BuildGraph(req, ms);
        plan := Some(Plan(nextComp, nextComp, g, req, Rank(ms), MakeAuthority(nextComp, req, ms, nodes, epoch), Planned,
                          Engine.PathsOf(reg, g.edges)));
        nextComp := nextComp + 1;
      }
      assert (View(), plan) == Engine.Issue(s, req, chosen);
    }

    method ReserveLocked(plan: Plan) returns (result: Engine.ReserveResult)
      modifies this`held, this`comps, this`resvs, this`nextSet, this`nextResv
      ensures View() == Engine.Reserve(old(View()), plan).0
      ensures result == Engine.Reserve(old(View()), plan).1
    {
      if plan.lifecycle != Planned { return Engine.ReserveRejected(InvalidStateTransition); }
      if plan.id == 0 { return Engine.ReserveRejected(InvalidStateTransition); }
      var id := nextResv;
      nextResv := nextResv + 1;
      var h := TakeHolds(resources, plan.request, plan.graph.vertices, held);
      if h.failure.Some? {
        held := ReleaseItems(h.held, h.items);
        return Engine.ReserveRejected(h.failure.value);
      }
      var v := Reservation(id, plan.id, h.items, Provisional);
      held := h.held;
      Record(plan, v);
      result := Engine.ReserveOk(v);
    }

    /** File a new reservation and its composition. */
    method Record(plan: Plan, v: Reservation)
      modifies this`comps, this`resvs, this`nextSet
      ensures View() == old(View()).(comps := old(comps)[plan.id := Engine.NewComposition(plan, old(nextSet), v.id)],
                                     resvs := old(resvs)[v.id := v], nextSet := old(nextSet) + 1)
    {
      comps := comps[plan.id := Engine.NewComposition(plan, nextSet, v.id)];
      nextSet := nextSet + 1;
      resvs := resvs[v.id := v];
    }

    method CommitLocked(vid: ReservationId) returns (result: Engine.CommitResult)
      modifies this`held, this`comps, this`resvs
      ensures View() == Engine.Commit(old(View()), vid).0
      ensures result == Engine.Commit(old(View()), vid).1
    {
      if vid !in resvs { return Engine.CommitRejected(ReservationConflict); }
      var v := resvs[vid];
      if v.state != Provisional { return Engine.CommitRejected(InvalidStateTransition); }
      if v.composition !in comps { return Engine.CommitRejected(ReservationConflict); }
      var c := comps[v.composition];
      if c.lifecycle != Reserved { return Engine.CommitRejected(InvalidStateTransition); }
      var scan := ScanItems(resources, c.request, v.items, held);
      if scan.failure.Some? {
        held := ReleaseItems(scan.held, v.items);
        resvs := resvs[vid := v.(state := RolledBack)];
        comps := comps[v.composition := c.(lifecycle := RevalidationRequired, outcome := FailedOutcome)];
        return Engine.CommitRejected(scan.failure.value);
      }
      held := scan.held;
      resvs := resvs[vid := v.(items := Engine.CommitItems(v.items), state := CommittedHold)];
      comps := comps[v.composition := c.(lifecycle := Committed)];
      result := Engine.CommitOk(c.id);
    }

    /** Every vertex registered, at its bound generation, with current evidence, under this epoch. */
    method RevalidationHolds(c: Composition) returns (failure: Option<Reason>)
      ensures failure == Engine.Revalidate(c, resources, epoch)
    {
      if c.authority.epoch != epoch { return Some(WrongEpoch); }
      for i := 0 to |c.graph.vertices|
        invariant Engine.RevalidateFrom(c, resources, i) == Engine.RevalidateFrom(c, resources, 0)
      {
        var rid := c.graph.vertices[i];
        if rid !in resources || resources[rid].id == 0 { return Some(ResourceOffline); }
        if i < |c.authority.resources| &&
          c.authority.resources[i] != resources[rid].generation { return Some(WrongGeneration); }
        if !resources[rid].evidence.IsCurrent() { return Some(StaleEvidence); }
      }
      failure := None;
    }

    method ActivateLocked(cid: CompositionId) returns (result: Engine.ActivateResult)
      modifies this`comps
      ensures View() == Engine.Activate(old(View()), cid).0
      ensures result == Engine.Activate(old(View()), cid).1
    {
      if cid !in comps { return Engine.ActivateRejected(NoValidComposition); }
      var c := comps[cid];
      if c.lifecycle != Committed { return Engine.ActivateRejected(InvalidStateTransition); }
      if c.id in fenced { return Engine.ActivateRejected(PolicyDenied); }
      var failure := RevalidationHolds(c);
      if failure.Some? {
        comps := comps[cid := c.(lifecycle := RevalidationRequired, outcome := Rejected)];
        return Engine.ActivateRejected(failure.value);
      }
      comps := comps[cid := c.(lifecycle := Active, outcome := Success)];
      result := Engine.ActivateOk;
    }

    // ---- invalidation ----------------------------------------------------------

    method IngestNodeLocked(n: Node)
      modifies this`nodes, this`comps
      ensures View() == Engine.IngestNode(old(View()), n)
    {
      if n.id == 0 { return; }
      if n.id in nodes && nodes[n.id].generation != n.generation {
        comps := UpdateWhere(comps, c => true, Engine.DemoteChanged);
      }
      nodes := nodes[n.id := n];
    }

    method IngestResourceLocked(r: Resource)
      modifies this`resources, this`comps
      ensures View() == Engine.IngestResource(old(View()), r)
    {
      if r.id == 0 { return; }
      if r.id in resources && resources[r.id].generation != r.generation {
        comps := UpdateWhere(comps, c => Engine.HasMember(c, r.id), Engine.DemoteChanged);
      }
      resources := resources[r.id := r];
    }

    method DiscoverLocked(ns: seq<Node>, rs: seq<Resource>, found: map<(NodeId, NodeId), PathEvidence>)
      modifies this`nodes, this`resources, this`comps, this`paths
      ensures View() == Engine.Discover(old(View()), ns, rs, found)
    {
      for i := 0 to |ns|
        invariant View() == Engine.IngestNodes(old(View()), ns[..i])
      {
        assert ns[..i + 1][..i] == ns[..i];
        IngestNodeLocked(ns[i]);
      }
      assert ns[..|ns|] == ns;
      ghost var s := View();
      for i := 0 to |rs|
        invariant View() == Engine.IngestResources(s, rs[..i])
      {
        assert rs[..i + 1][..i] == rs[..i];
        IngestResourceLocked(rs[i]);
      }
      assert rs[..|rs|] == rs;
      paths := paths + map k | k in found && k.0 in nodes && k.1 in nodes && k.0 != k.1 :: found[k];
    }

    method InvalidateEvidenceLocked(rid: ResourceId)
      modifies this`resources
      ensures View() == Engine.InvalidateEvidence(old(View()), rid)
    {
      if rid in resources {
        resources := resources[rid := resources[rid].(evidence := Engine.Revalidation(resources[rid].evidence))];
      }
    }

    method WithdrawLocked(rid: ResourceId)
      modifies this`resources, this`comps
      ensures View() == Engine.Withdraw(old(View()), rid)
    {
      if rid !in resources { return; }
      var r := resources[rid];
      resources := resources[rid := r.(health := Offline, readiness := NotReady, reachability := Unreachable,
                                       evidence := r.evidence.(state := EvidenceRevalidation))];
      comps := UpdateWhere(comps, c => Engine.HasMember(c, rid), c => Engine.DemoteActive(c, RecompositionRequired));
    }

    method MarkEvidenceRevalidationRequiredLocked(owner: string)
      modifies this`resources, this`comps
      ensures View() == Engine.WorkerDeath(old(View()), owner)
    {
      var table := OrphanResources(resources, owner);
      var lowered := LowerTouched(comps, table, owner);
      resources, comps := table, lowered;
    }

    method AdvanceEpochLocked(next: Epoch)
      modifies this`epoch, this`resources, this`comps
      ensures View() == Engine.AdvanceEpoch(old(View()), next)
    {
      if next == 0 { return; }
      var table := RevalidateAll(resources);
      var lowered := LowerAll(comps);
      epoch, resources, comps := next, table, lowered;
    }

    method OnPolicyUpdateLocked(policy: PolicyId, gen: Generation)
      modifies this`policies, this`comps
      ensures View() == Engine.PolicyUpdate(old(View()), policy, gen)
    {
      var table := UpdateWhere(comps, (c: Composition) => c.authority.policy != gen && c.lifecycle != Reserved,
                               Engine.DemoteChanged);
      policies, comps := policies[policy := gen], table;
    }

    method OnPathUpdateLocked(pe: PathEvidence)
      modifies this`paths, this`comps
      ensures View() == Engine.PathUpdate(old(View()), pe)
    {
      paths := paths[(pe.from, pe.to) := pe];
      comps := UpdateWhere(comps, c => Engine.UsesPath(c, pe), c => Engine.DemoteActive(c, RecompositionRequired));
    }

    method OnResourceFailureLocked(rid: ResourceId)
      modifies this`resources, this`comps
      ensures View() == Engine.ResourceFailure(old(View()), rid)
    {
      if rid in resources {
        var r := resources[rid];
        resources := resources[rid := r.(health := Offline, readiness := NotReady,
                                         evidence := r.evidence.(state := EvidenceRevalidation))];
      }
      comps := UpdateWhere(comps, (c: Composition) => Engine.HasMember(c, rid) &&
        c.lifecycle != Reserved, Engine.DemoteChanged);
    }

    // ---- ending a composition --------------------------------------------------

    method BeginDrainLocked(cid: CompositionId) returns (ok: bool)
      modifies this`comps, this`draining
      ensures View() == Engine.BeginDrain(old(View()), cid).0
      ensures ok == Engine.BeginDrain(old(View()), cid).1
    {
      if cid !in comps { return false; }
      var c := comps[cid];
      if c.lifecycle != Active && c.lifecycle != Committed && c.lifecycle != DegradedComposition { return false; }
      comps := comps[cid := c.(lifecycle := Draining)];
      draining := draining + {cid};
      ok := true;
    }

    method ReleaseReservation(vid: ReservationId)
      modifies this`held, this`resvs
      ensures View() == Engine.ReleaseReservation(old(View()), vid)
    {
      if vid in resvs {
        held := ReleaseItems(held, resvs[vid].items);
        resvs := resvs[vid := resvs[vid].(state := ReleasedHold)];
      }
    }

    method EndDrainLocked(cid: CompositionId) returns (ok: bool)
      modifies this`held, this`resvs, this`comps, this`draining
      ensures View() == Engine.EndDrain(old(View()), cid).0
      ensures ok == Engine.EndDrain(old(View()), cid).1
    {
      if cid !in comps { return false; }
      var c := comps[cid];
      if c.lifecycle != Draining { return false; }
      ReleaseReservation(c.reservation);
      comps := comps[cid := c.(lifecycle := Released)];
      draining := draining - {cid};
      ok := true;
    }

    method ReleaseLocked(cid: CompositionId) returns (ok: bool)
      modifies this`held, this`resvs, this`comps, this`draining, this`fenced
      ensures View() == Engine.Release(old(View()), cid).0
      ensures ok == Engine.Release(old(View()), cid).1
    {
      if cid !in comps { return false; }
      var c := comps[cid];
      if c.lifecycle == Released || c.lifecycle == Retired { return false; }
      ReleaseReservation(c.reservation);
      comps := comps[cid := c.(lifecycle := Released)];
      draining := draining - {cid};
      fenced := fenced + {cid};
      ok := true;
    }

    method ReleaseOldLocked(cid: CompositionId)
      modifies this`held, this`resvs, this`comps, this`fenced
      ensures View() == Engine.ReleaseOld(old(View()), cid)
    {
      if cid !in comps { return; }
      var c := comps[cid];
      ReleaseReservation(c.reservation);
      comps := comps[cid := c.(lifecycle := Released)];
      fenced := fenced + {c.id};
    }

    // ---- restart ---------------------------------------------------------------

    method LoadLocked(d: Engine.Durable)
      modifies this
      ensures View() == Engine.Load(old(View()), d)
    {
      var ns, rs, cs, comp, resourceSet := RebuildTables(d, nextComp, nextSet);
      Replace(d, ns, rs, comp, resourceSet);
      comps, resvs := cs, map[];
    }

    method Replace(d: Engine.Durable, ns: map<NodeId, Node>, rs: map<ResourceId, Resource>, comp: nat, resourceSet: nat)
      modifies this`epoch, this`nodes, this`resources, this`policies, this`nextComp, this`nextSet
      ensures View() == old(View()).(epoch := d.epoch, nodes := ns, resources := rs, policies := d.policies,
                                     nextComp := comp, nextSet := resourceSet)
    {
      epoch, nodes, resources, policies, nextComp, nextSet := d.epoch, ns, rs, d.policies, comp, resourceSet;
    }
  }

  // ---- the restart loops: a later record with the same id replaces an earlier one ----

  method RebuildTables(d: Engine.Durable, nextComp: nat, nextSet: nat)
    returns (nodes: map<NodeId, Node>, resources: map<ResourceId, Resource>, comps: map<CompositionId, Composition>,
             comp: nat, resourceSet: nat)
    ensures nodes == Engine.LoadNodes(d.nodes) && resources == Engine.LoadResources(d.resources)
    ensures comps == Engine.LoadComps(d.comps)
    ensures comp == Engine.Above(nextComp, d.comps) && resourceSet == Engine.AboveNodes(nextSet, d.nodes)
  {
    nodes := LoadNodeTable(d.nodes);
    resources := LoadResourceTable(d.resources);
    comps := LoadCompositionTable(d.comps);
    comp := RaiseAbove(nextComp, d.comps);
    resourceSet := RaiseAboveNodes(nextSet, d.nodes);
  }

  method LoadNodeTable(ns: seq<Node>) returns (m: map<NodeId, Node>)
    ensures m == Engine.LoadNodes(ns)
  {
    m := map[];
    for i := 0 to |ns|
      invariant m == Engine.LoadNodes(ns[..i])
    {
      assert ns[..i + 1][..i] == ns[..i];
      m := m[ns[i].id := ns[i]];
    }
    assert ns[..|ns|] == ns;
  }

  method LoadResourceTable(rs: seq<Resource>) returns (m: map<ResourceId, Resource>)
    ensures m == Engine.LoadResources(rs)
  {
    m := map[];
    for i := 0 to |rs|
      invariant m == Engine.LoadResources(rs[..i])
    {
      assert rs[..i + 1][..i] == rs[..i];
      var r := rs[i];
      if !r.evidence.durable { r := r.(evidence := Engine.Revalidation(r.evidence)); }
      m := m[r.id := r];
    }
    assert rs[..|rs|] == rs;
  }

  method LoadCompositionTable(cs: seq<Composition>) returns (m: map<CompositionId, Composition>)
    ensures m == Engine.LoadComps(cs)
  {
    m := map[];
    for i := 0 to |cs|
      invariant m == Engine.LoadComps(cs[..i])
    {
      assert cs[..i + 1][..i] == cs[..i];
      var c := cs[i];
      if c.lifecycle == Active || c.lifecycle == Committed { c := c.(lifecycle := RecompositionRequired); }
      c := c.(outcome := OutcomeUnknown);
      m := m[c.id := c];
    }
    assert cs[..|cs|] == cs;
  }

  method RaiseAbove(next: nat, cs: seq<Composition>) returns (n: nat)
    ensures n == Engine.Above(next, cs)
  {
    n := next;
    for i := 0 to |cs|
      invariant n == Engine.Above(next, cs[..i])
    {
      assert cs[..i + 1][..i] == cs[..i];
      if cs[i].id >= n { n := cs[i].id + 1; }
    }
    assert cs[..|cs|] == cs;
  }

  method RaiseAboveNodes(next: nat, ns: seq<Node>) returns (n: nat)
    ensures n == Engine.AboveNodes(next, ns)
  {
    n := next;
    for i := 0 to |ns|
      invariant n == Engine.AboveNodes(next, ns[..i])
    {
      assert ns[..i + 1][..i] == ns[..i];
      if ns[i].id >= n { n := ns[i].id + 1; }
    }
    assert ns[..|ns|] == ns;
  }
}
