/** Invalidation steps only ever take authority away: they touch the registry and the
    lifecycles, never the reservations, the ledger, the fences or the counters. */
module Invalidation {
  import opened FabricTypes
  import E = Engine
  import opened Runs

  /** The lifecycle changes an invalidation may make. */
  predicate Lowers(from: Lifecycle, to: Lifecycle)
  {
    || to == from
    || (from == Active && (to == RecompositionRequired || to == RevalidationRequired))
    || ((from == Committed || from == Reserved) && to == RevalidationRequired)
  }

  /** The same composition at a lower lifecycle. */
  ghost predicate Lowered(c: Composition, c': Composition)
  {
    Lowers(c.lifecycle, c'.lifecycle) && c' == c.(lifecycle := c'.lifecycle)
  }

  ghost predicate LowersAll(comps: map<CompositionId, Composition>, comps': map<CompositionId, Composition>)
  {
    && comps'.Keys == comps.Keys
    && forall id :: id in comps ==> Lowered(comps[id], comps'[id])
  }

  /** `t` is `s` with some lifecycles lowered and the registry changed. */
  ghost predicate Demoted(s: E.State, t: E.State)
  {
    && t.resvs == s.resvs && t.held == s.held && t.draining == s.draining && t.fenced == s.fenced
    && t.nextComp == s.nextComp && t.nextSet == s.nextSet && t.nextResv == s.nextResv
    && LowersAll(s.comps, t.comps)
  }

  predicate IsInvalidation(call: Call)
  {
    call.IngestNode? || call.IngestResource? || call.Discover? || call.InvalidateEvidence? || call.Withdraw? ||
    call.WorkerDeath? || call.AdvanceEpoch? || call.PolicyUpdate? || call.PathUpdate? || call.ResourceFailure?
  }

  lemma DemotedTransitive(s: E.State, t: E.State, u: E.State)
    requires Demoted(s, t) && Demoted(t, u)
    ensures Demoted(s, u)
  {
    forall id | id in s.comps ensures Lowered(s.comps[id], u.comps[id]) {
      assert Lowered(s.comps[id], t.comps[id]) && Lowered(t.comps[id], u.comps[id]);
    }
  }

  lemma {:induction false} IngestNodesDemotes(s: E.State, ns: seq<Node>)
    ensures Demoted(s, E.IngestNodes(s, ns))
  {
    if ns != [] {
      var t := E.IngestNodes(s, ns[..|ns| - 1]);
      IngestNodesDemotes(s, ns[..|ns| - 1]);
      DemotedTransitive(s, t, E.IngestNode(t, ns[|ns| - 1]));
    }
  }

  lemma {:induction false} IngestNodesKeepsResources(s: E.State, ns: seq<Node>)
    ensures E.IngestNodes(s, ns).resources == s.resources
  {
    if ns != [] { IngestNodesKeepsResources(s, ns[..|ns| - 1]); }
  }

  lemma {:induction false} IngestResourcesDemotes(s: E.State, rs: seq<Resource>)
    ensures Demoted(s, E.IngestResources(s, rs))
  {
    if rs != [] {
      var t := E.IngestResources(s, rs[..|rs| - 1]);
      IngestResourcesDemotes(s, rs[..|rs| - 1]);
      DemotedTransitive(s, t, E.IngestResource(t, rs[|rs| - 1]));
    }
  }

  lemma DiscoverDemotes(s: E.State, ns: seq<Node>, rs: seq<Resource>, found: map<(NodeId, NodeId), PathEvidence>)
    ensures Demoted(s, E.Discover(s, ns, rs, found))
  {
    var t := E.IngestNodes(s, ns);
    IngestNodesDemotes(s, ns);
    IngestResourcesDemotes(t, rs);
    DemotedTransitive(s, t, E.IngestResources(t, rs));
  }

  /** What a step that leaves the resource identities alone keeps besides. */
  ghost predicate SameGenerations(r: map<ResourceId, Resource>, r': map<ResourceId, Resource>)
  {
    && r'.Keys == r.Keys
    && forall k :: k in r ==>
         && r'[k].id == r[k].id && r'[k].generation == r[k].generation && r'[k].cls == r[k].cls &&
              r'[k].capacity == r[k].capacity
         && (r'[k].evidence.IsCurrent() ==> r[k].evidence.IsCurrent())
  }

  /** Demoted within an epoch, with no resource replaced and no evidence refreshed. */
  ghost predicate Quieted(s: E.State, t: E.State)
  {
    Demoted(s, t) && t.epoch == s.epoch && SameGenerations(s.resources, t.resources)
  }

  predicate IsQuiet(call: Call)
  {
    IsInvalidation(call) && !call.IngestResource? && !call.Discover? && !call.AdvanceEpoch?
  }

  lemma UnchangedQuiets(s: E.State)
    ensures Quieted(s, s)
  {
  }

  lemma IngestNodeQuiets(s: E.State, n: Node)
    ensures Quieted(s, E.IngestNode(s, n))
  {
    UnchangedQuiets(s);
    if n.id != 0 {
      var t := E.IngestNode(s, n);
      assert LowersAll(s.comps, t.comps);
    }
  }

  lemma InvalidateEvidenceQuiets(s: E.State, rid: ResourceId)
    ensures Quieted(s, E.InvalidateEvidence(s, rid))
  {
    UnchangedQuiets(s);
    if rid in s.resources {
      var t := E.InvalidateEvidence(s, rid);
      assert t.comps == s.comps;
    }
  }

  lemma WithdrawQuiets(s: E.State, rid: ResourceId)
    ensures Quieted(s, E.Withdraw(s, rid))
  {
    UnchangedQuiets(s);
    if rid in s.resources {
      var t := E.Withdraw(s, rid);
      assert LowersAll(s.comps, t.comps);
    }
  }

  lemma WorkerDeathQuiets(s: E.State, owner: string)
    ensures Quieted(s, E.WorkerDeath(s, owner))
  {
  }

  lemma PolicyUpdateQuiets(s: E.State, policy: PolicyId, gen: Generation)
    ensures Quieted(s, E.PolicyUpdate(s, policy, gen))
  {
  }

  lemma PathUpdateQuiets(s: E.State, pe: PathEvidence)
    ensures Quieted(s, E.PathUpdate(s, pe))
  {
  }

  lemma ResourceFailureQuiets(s: E.State, rid: ResourceId)
    ensures Quieted(s, E.ResourceFailure(s, rid))
  {
  }

  lemma QuietStepQuiets(s: E.State, call: Call)
    requires IsQuiet(call)
    ensures Quieted(s, Operation(s, call))
  {
    match call
    case IngestNode(n) => IngestNodeQuiets(s, n);
    case InvalidateEvidence(rid) => InvalidateEvidenceQuiets(s, rid);
    case Withdraw(rid) => WithdrawQuiets(s, rid);
    case WorkerDeath(owner) => WorkerDeathQuiets(s, owner);
    case PolicyUpdate(p, g) => PolicyUpdateQuiets(s, p, g);
    case PathUpdate(pe) => PathUpdateQuiets(s, pe);
    case ResourceFailure(rid) => ResourceFailureQuiets(s, rid);
  }

  lemma AdvanceEpochDemotes(s: E.State, next: Epoch)
    ensures Demoted(s, E.AdvanceEpoch(s, next)) && SameGenerations(s.resources, E.AdvanceEpoch(s, next).resources)
  {
    UnchangedQuiets(s);
    if next != 0 {
      var t := E.AdvanceEpoch(s, next);
      assert LowersAll(s.comps, t.comps);
    }
  }

  lemma IngestResourceDemotes(s: E.State, r: Resource)
    ensures Demoted(s, E.IngestResource(s, r))
  {
    UnchangedQuiets(s);
    if r.id != 0 {
      var t := E.IngestResource(s, r);
      assert LowersAll(s.comps, t.comps);
    }
  }

  lemma InvalidationDemotes(s: E.State, call: Call)
    requires IsInvalidation(call)
    ensures Demoted(s, Operation(s, call))
  {
    match call
    case IngestResource(r) => IngestResourceDemotes(s, r);
    case Discover(ns, rs, found) => DiscoverDemotes(s, ns, rs, found);
    case AdvanceEpoch(next) => AdvanceEpochDemotes(s, next);
    case _ => QuietStepQuiets(s, call);
  }

  // ---- what each event revokes -------------------------------------------------

  /** The node is known under another generation. */
  ghost predicate NodeChanges(s: E.State, n: Node)
  {
    n.id != 0 && n.id in s.nodes && s.nodes[n.id].generation != n.generation
  }

  /** The resource is known under another generation. */
  ghost predicate ResourceChanges(s: E.State, r: Resource)
  {
    r.id != 0 && r.id in s.resources && s.resources[r.id].generation != r.generation
  }

  /** Some node of the list is known under another generation when its turn comes. */
  ghost predicate SomeNodeChanges(s: E.State, ns: seq<Node>)
  {
    ns != [] &&
    var front := ns[..|ns| - 1];
    SomeNodeChanges(s, front) || NodeChanges(E.IngestNodes(s, front), ns[|ns| - 1])
  }

  /** Some resource of the list that the composition contains is, when its turn comes. */
  ghost predicate SomeMemberChanges(s: E.State, rs: seq<Resource>, c: Composition)
  {
    rs != [] &&
    var front, last := rs[..|rs| - 1], rs[|rs| - 1];
    SomeMemberChanges(s, front, c) ||
      (ResourceChanges(E.IngestResources(s, front), last) && last.id in c.graph.vertices)
  }

  /** What the event makes stale about a composition. */
  ghost predicate Concerns(s: E.State, call: Call, c: Composition)
  {
    match call
    case IngestNode(n) => NodeChanges(s, n)
    case IngestResource(r) => ResourceChanges(s, r) && r.id in c.graph.vertices
    case Discover(ns, rs, _) => SomeNodeChanges(s, ns) || SomeMemberChanges(E.IngestNodes(s, ns), rs, c)
    case Withdraw(rid) => rid in s.resources && rid in c.graph.vertices
    case WorkerDeath(owner) => Vouches(c, s.resources, owner)
    case AdvanceEpoch(next) => next != 0
    case PolicyUpdate(_, gen) => c.authority.policy != gen
    case PathUpdate(pe) => OldPath(c, pe)
    case ResourceFailure(rid) => rid in c.graph.vertices
    case _ => false
  }

  /** Some member's evidence names the owner, as its owner or as its provenance. */
  ghost predicate Vouches(c: Composition, resources: map<ResourceId, Resource>, owner: string)
  {
    exists i :: 0 <= i < |c.graph.vertices| && c.graph.vertices[i] in resources &&
      var e := resources[c.graph.vertices[i]].evidence; e.owner == owner || e.provenance == owner
  }

  /** The composition was planned over the path at another generation. */
  ghost predicate OldPath(c: Composition, pe: PathEvidence)
  {
    exists p :: p in c.paths && p.from == pe.from && p.to == pe.to && p.generation != pe.generation
  }

  /** The lifecycles that fall when the event concerns the composition. */
  predicate Falls(call: Call, l: Lifecycle)
  {
    match call
    case IngestNode(_) => l == Active || l == Committed || l == Reserved
    case IngestResource(_) => l == Active || l == Committed || l == Reserved
    case Discover(_, _, _) => l == Active || l == Committed || l == Reserved
    case PolicyUpdate(_, _) => l == Active || l == Committed
    case ResourceFailure(_) => l == Active || l == Committed
    case _ => l == Active
  }

  /** Where a lifecycle falls to: ACTIVE to RECOMPOSITION_REQUIRED, or to REVALIDATION_REQUIRED when a new
      epoch begins; COMMITTED and RESERVED to REVALIDATION_REQUIRED. */
  function FallsTo(call: Call, l: Lifecycle): Lifecycle
  {
    if l == Active && !call.AdvanceEpoch? then RecompositionRequired else RevalidationRequired
  }

  /** A composition loses its lifecycle exactly when the event concerns it and its lifecycle falls. */
  ghost predicate FallsIff(s: E.State, call: Call, t: E.State, id: CompositionId)
    requires id in s.comps && id in t.comps
  {
    t.comps[id].lifecycle == if Concerns(s, call, s.comps[id]) && Falls(call, s.comps[id].lifecycle)
                             then FallsTo(call, s.comps[id].lifecycle) else s.comps[id].lifecycle
  }

  ghost predicate Revoked(s: E.State, call: Call, t: E.State)
  {
    t.comps.Keys == s.comps.Keys && forall id :: id in s.comps ==> FallsIff(s, call, t, id)
  }

  lemma IngestNodeRevokes(s: E.State, n: Node)
    ensures Revoked(s, IngestNode(n), E.IngestNode(s, n))
  {
  }

  lemma IngestResourceRevokes(s: E.State, r: Resource)
    ensures Revoked(s, IngestResource(r), E.IngestResource(s, r))
  {
  }

  lemma WithdrawRevokes(s: E.State, rid: ResourceId)
    ensures Revoked(s, Withdraw(rid), E.Withdraw(s, rid))
  {
  }

  /** Losing a worker does not change who vouched for what. */
  lemma SameOwners(c: Composition, resources: map<ResourceId, Resource>, owner: string)
    ensures E.TouchesOwner(c, E.Orphans(resources, owner), owner) <==> Vouches(c, resources, owner)
  {
    var table := E.Orphans(resources, owner);
    if i :| 0 <= i < |c.graph.vertices| && c.graph.vertices[i] in resources &&
            E.OwnedBy(resources[c.graph.vertices[i]], owner) {
      assert E.OwnedBy(table[c.graph.vertices[i]], owner);
    }
    if i :| 0 <= i < |c.graph.vertices| && c.graph.vertices[i] in table &&
            E.OwnedBy(table[c.graph.vertices[i]], owner) {
      assert E.OwnedBy(resources[c.graph.vertices[i]], owner);
    }
  }

  lemma DeathRevokes(s: E.State, owner: string)
    ensures Revoked(s, WorkerDeath(owner), E.WorkerDeath(s, owner))
  {
    forall id | id in s.comps ensures FallsIff(s, WorkerDeath(owner), E.WorkerDeath(s, owner), id) {
      SameOwners(s.comps[id], s.resources, owner);
    }
  }

  lemma FailureRevokes(s: E.State, rid: ResourceId)
    ensures Revoked(s, ResourceFailure(rid), E.ResourceFailure(s, rid))
  {
  }

  lemma PolicyRevokes(s: E.State, policy: PolicyId, gen: Generation)
    ensures Revoked(s, PolicyUpdate(policy, gen), E.PolicyUpdate(s, policy, gen))
  {
    var t := E.PolicyUpdate(s, policy, gen);
    forall id | id in s.comps ensures FallsIff(s, PolicyUpdate(policy, gen), t, id) {
      var c := s.comps[id];
      assert t.comps[id] == if c.authority.policy != gen && c.lifecycle != Reserved then E.DemoteChanged(c) else c;
    }
  }

  lemma PathRevokes(s: E.State, pe: PathEvidence)
    ensures Revoked(s, PathUpdate(pe), E.PathUpdate(s, pe))
  {
    forall id | id in s.comps ensures FallsIff(s, PathUpdate(pe), E.PathUpdate(s, pe), id) {
      var c := s.comps[id];
      if p :| p in c.paths && p.from == pe.from && p.to == pe.to && p.generation != pe.generation {
        var i :| 0 <= i < |c.paths| && c.paths[i] == p;
      }
      assert E.UsesPath(c, pe) <==> OldPath(c, pe);
    }
  }

  lemma EpochRevokes(s: E.State, next: Epoch)
    ensures Revoked(s, AdvanceEpoch(next), E.AdvanceEpoch(s, next))
  {
  }

  lemma EvidenceRevokes(s: E.State, rid: ResourceId)
    ensures Revoked(s, InvalidateEvidence(rid), E.InvalidateEvidence(s, rid))
  {
  }

  // ---- a discovery round -------------------------------------------------------

  /** ACTIVE, COMMITTED and RESERVED: what a changed generation takes down. */
  predicate Rising(l: Lifecycle) { l == Active || l == Committed || l == Reserved }

  /** The lifecycle after a list of ingestions: fallen as soon as one of them concerns the composition. */
  ghost predicate FallenIf(c: Composition, c': Composition, concerned: bool)
  {
    c'.lifecycle == if !concerned || !Rising(c.lifecycle) then c.lifecycle
                    else if c.lifecycle == Active then RecompositionRequired else RevalidationRequired
  }

  lemma FallenOnce(a: Composition, b: Composition, c: Composition, early: bool, late: bool)
    requires Lowered(a, b) && Lowered(b, c) && FallenIf(a, b, early) && FallenIf(b, c, late)
    ensures FallenIf(a, c, early || late)
  {
  }

  lemma {:induction false} IngestNodesRevokes(s: E.State, ns: seq<Node>, id: CompositionId)
    requires id in s.comps
    ensures id in E.IngestNodes(s, ns).comps
    ensures FallenIf(s.comps[id], E.IngestNodes(s, ns).comps[id], SomeNodeChanges(s, ns))
  {
    if ns != [] {
      var front, last := ns[..|ns| - 1], ns[|ns| - 1];
      var t := E.IngestNodes(s, front);
      var u := E.IngestNode(t, last);
      IngestNodesRevokes(s, front, id);
      IngestNodesDemotes(s, front);
      IngestNodeQuiets(t, last);
      IngestNodeRevokes(t, last);
      assert FallsIff(t, IngestNode(last), u, id);
      FallenOnce(s.comps[id], t.comps[id], u.comps[id], SomeNodeChanges(s, front), NodeChanges(t, last));
    }
  }

  lemma {:induction false} IngestResourcesRevokes(s: E.State, rs: seq<Resource>, id: CompositionId)
    requires id in s.comps
    ensures id in E.IngestResources(s, rs).comps
    ensures FallenIf(s.comps[id], E.IngestResources(s, rs).comps[id], SomeMemberChanges(s, rs, s.comps[id]))
  {
    if rs != [] {
      var front, last := rs[..|rs| - 1], rs[|rs| - 1];
      var t := E.IngestResources(s, front);
      var u := E.IngestResource(t, last);
      IngestResourcesRevokes(s, front, id);
      IngestResourcesDemotes(s, front);
      IngestResourceDemotes(t, last);
      IngestResourceRevokes(t, last);
      assert FallsIff(t, IngestResource(last), u, id);
      FallenOnce(s.comps[id], t.comps[id], u.comps[id], SomeMemberChanges(s, front, s.comps[id]),
                 ResourceChanges(t, last) && E.HasMember(t.comps[id], last.id));
    }
  }

  lemma {:induction false} SameMembers(s: E.State, rs: seq<Resource>, c: Composition, c': Composition)
    requires c'.graph == c.graph
    ensures SomeMemberChanges(s, rs, c) <==> SomeMemberChanges(s, rs, c')
  {
    if rs != [] { SameMembers(s, rs[..|rs| - 1], c, c'); }
  }

  lemma DiscoverFalls(s: E.State, ns: seq<Node>, rs: seq<Resource>, id: CompositionId)
    requires id in s.comps
    ensures var t := E.IngestNodes(s, ns);
            var u := E.IngestResources(t, rs);
            && id in u.comps
            && FallenIf(s.comps[id], u.comps[id], SomeNodeChanges(s, ns) || SomeMemberChanges(t, rs, s.comps[id]))
  {
    var t := E.IngestNodes(s, ns);
    var u := E.IngestResources(t, rs);
    IngestNodesDemotes(s, ns);
    IngestResourcesDemotes(t, rs);
    IngestNodesRevokes(s, ns, id);
    IngestResourcesRevokes(t, rs, id);
    SameMembers(t, rs, s.comps[id], t.comps[id]);
    FallenOnce(s.comps[id], t.comps[id], u.comps[id], SomeNodeChanges(s, ns), SomeMemberChanges(t, rs, t.comps[id]));
  }

  lemma DiscoverRevokes(s: E.State, ns: seq<Node>, rs: seq<Resource>, found: map<(NodeId, NodeId), PathEvidence>)
    ensures Revoked(s, Discover(ns, rs, found), E.Discover(s, ns, rs, found))
  {
    DiscoverDemotes(s, ns, rs, found);
    forall id | id in s.comps ensures FallsIff(s, Discover(ns, rs, found), E.Discover(s, ns, rs, found), id) {
      DiscoverFalls(s, ns, rs, id);
    }
  }

  /** Every event lowers exactly the compositions it concerns. */
  lemma EventsRevoke(s: E.State, call: Call)
    requires IsInvalidation(call)
    ensures Revoked(s, call, Operation(s, call))
  {
    match call
    case IngestNode(n) => IngestNodeRevokes(s, n);
    case IngestResource(r) => IngestResourceRevokes(s, r);
    case Discover(ns, rs, found) => DiscoverRevokes(s, ns, rs, found);
    case InvalidateEvidence(rid) => EvidenceRevokes(s, rid);
    case Withdraw(rid) => WithdrawRevokes(s, rid);
    case WorkerDeath(owner) => DeathRevokes(s, owner);
    case ResourceFailure(rid) => FailureRevokes(s, rid);
    case AdvanceEpoch(next) => EpochRevokes(s, next);
    case PolicyUpdate(p, g) => PolicyRevokes(s, p, g);
    case PathUpdate(pe) => PathRevokes(s, pe);
  }
}
