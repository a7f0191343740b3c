/** What each event and a reload leave in the tables, entry by entry. */
module EventEffects {
  import opened FabricTypes
  import opened Eligibility
  import E = Engine
  import opened Runs
  import opened Invalidation
  import F = Effects

  // ---- tables ------------------------------------------------------------------

  /** One entry is new or replaced; every other entry is as it was. */
  ghost predicate Enters<K(!new), V>(m: map<K, V>, m': map<K, V>, k: K, v: V)
  {
    k in m' && m'[k] == v &&
    forall j :: j != k ==> (j in m' <==> j in m) && (j in m ==> m'[j] == m[j])
  }

  /** `v` is the last record of the list under the id. */
  ghost predicate Last<V>(xs: seq<V>, id: V -> nat, k: nat, v: V)
  {
    exists i :: 0 <= i < |xs| && xs[i] == v && id(v) == k && forall j :: i < j < |xs| ==> id(xs[j]) != k
  }

  ghost predicate Supplied<V>(xs: seq<V>, id: V -> nat, k: nat) { exists i :: 0 <= i < |xs| && id(xs[i]) == k }

  /** The entry under `k` after filing a list of records: the last record supplied under that id, or as
      before.  The id zero counts or not. */
  ghost predicate Filed<V>(m: map<nat, V>, m': map<nat, V>, xs: seq<V>, id: V -> nat, zero: bool, k: nat)
  {
    if (zero || k != 0) && Supplied(xs, id, k) then k in m' && Last(xs, id, k, m'[k])
    else (k in m' <==> k in m) && (k in m ==> m'[k] == m[k])
  }

  lemma FiledOneMore<V>(m: map<nat, V>, u: map<nat, V>, m': map<nat, V>, xs: seq<V>, x: V, id: V -> nat, zero: bool,
                        k: nat)
    requires Filed(m, u, xs, id, zero, k)
    requires if zero || id(x) != 0 then Enters(u, m', id(x), x) else m' == u
    ensures Filed(m, m', xs + [x], id, zero, k)
  {
    var all := xs + [x];
    if id(x) == k {
      assert all[|xs|] == x;
    } else {
      assert Supplied(all, id, k) <==> Supplied(xs, id, k) by {
        if i :| 0 <= i < |xs| && id(xs[i]) == k { assert all[i] == xs[i]; }
      }
      if (zero || k != 0) && Supplied(xs, id, k) {
        var i :| 0 <= i < |xs| && xs[i] == u[k] && id(u[k]) == k && forall j :: i < j < |xs| ==> id(xs[j]) != k;
        assert all[i] == m'[k];
      }
    }
  }

  function IdOfNode(n: Node): nat { n.id }
  function IdOfResource(r: Resource): nat { r.id }

  /** The same resource, whatever its status and evidence. */
  ghost predicate SameThing(r: Resource, r': Resource)
  {
    && r'.id == r.id && r'.generation == r.generation && r'.cls == r.cls && r'.node == r.node
    && r'.capabilities == r.capabilities && r'.compatibility == r.compatibility && r'.capacity == r.capacity
    && r'.domain == r.domain
  }

  ghost predicate SameStatus(r: Resource, r': Resource)
  {
    r'.health == r.health && r'.readiness == r.readiness && r'.reachability == r.reachability
  }

  /** The same evidence, to be revalidated; with its age limit or without. */
  ghost predicate Doubted(e: Evidence, e': Evidence, maxAge: nat)
  {
    && e'.state == EvidenceRevalidation && e'.maxAgeMs == maxAge && e'.generation == e.generation
    && e'.provenance == e.provenance && e'.owner == e.owner && e'.durable == e.durable
  }

  /** The evidence of every resource that does not keep it is to be revalidated without an age limit. */
  ghost predicate Expired(r: Resource, r': Resource)
  {
    SameThing(r, r') && SameStatus(r, r') && Doubted(r.evidence, r'.evidence, 0)
  }

  /** Every entry of the table, under the relation. */
  ghost predicate Entrywise(m: map<ResourceId, Resource>, m': map<ResourceId, Resource>,
                            how: (Resource, Resource) -> bool)
  {
    m'.Keys == m.Keys && forall k :: k in m ==> how(m[k], m'[k])
  }

  ghost predicate Orphaned(owner: string, r: Resource, r': Resource)
  {
    if r.evidence.owner == owner || r.evidence.provenance == owner then
      && SameThing(r, r') && r'.health == HealthUnknown && r'.readiness == r.readiness
      && r'.reachability == r.reachability && Doubted(r.evidence, r'.evidence, 0)
    else r' == r
  }

  ghost predicate Reopened(r: Resource, r': Resource) { if r.evidence.durable then r' == r else Expired(r, r') }

  // ---- the events --------------------------------------------------------------

  /** Only the resource table may differ. */
  ghost predicate OnlyResources(s: E.State, t: E.State)
  {
    t.epoch == s.epoch && t.nodes == s.nodes && t.paths == s.paths && t.policies == s.policies
  }

  ghost predicate OneResource(s: E.State, t: E.State, rid: ResourceId)
  {
    && OnlyResources(s, t) && (rid !in s.resources ==> t.resources == s.resources)
    && (rid in s.resources ==> rid in t.resources && Enters(s.resources, t.resources, rid, t.resources[rid]))
  }

  lemma NodeEntered(s: E.State, n: Node)
    ensures var t := E.IngestNode(s, n);
            && t.epoch == s.epoch && t.resources == s.resources && t.paths == s.paths && t.policies == s.policies
            && if n.id == 0 then t.nodes == s.nodes else Enters(s.nodes, t.nodes, n.id, n)
  {
  }

  lemma ResourceEntered(s: E.State, r: Resource)
    ensures var t := E.IngestResource(s, r);
            && OnlyResources(s, t)
            && if r.id == 0 then t.resources == s.resources else Enters(s.resources, t.resources, r.id, r)
  {
  }

  /** InvalidateNode: the evidence of one resource, and nothing else. */
  lemma EvidenceInvalidated(s: E.State, rid: ResourceId)
    ensures var t := E.InvalidateEvidence(s, rid);
            && OneResource(s, t, rid) && t.comps == s.comps
            && (rid in s.resources ==> Expired(s.resources[rid], t.resources[rid]))
  {
  }

  /** A withdrawn resource is offline, not ready and unreachable, with its evidence in doubt. */
  lemma ResourceWithdrawn(s: E.State, rid: ResourceId)
    ensures var t := E.Withdraw(s, rid);
            && OneResource(s, t, rid)
            && (rid in s.resources ==>
                 var r, r' := s.resources[rid], t.resources[rid];
                 && SameThing(r, r') && r'.health == Offline && r'.readiness == NotReady
                 && r'.reachability == Unreachable && Doubted(r.evidence, r'.evidence, r.evidence.maxAgeMs))
  {
  }

  /** A failed resource is offline and not ready, with its evidence in doubt. */
  lemma ResourceFailed(s: E.State, rid: ResourceId)
    ensures var t := E.ResourceFailure(s, rid);
            && OneResource(s, t, rid)
            && (rid in s.resources ==>
                 var r, r' := s.resources[rid], t.resources[rid];
                 && SameThing(r, r') && r'.health == Offline && r'.readiness == NotReady
                 && r'.reachability == r.reachability && Doubted(r.evidence, r'.evidence, r.evidence.maxAgeMs))
  {
  }

  /** A dead worker's resources are of unknown health and their evidence is void; the others are untouched. */
  lemma WorkerBuried(s: E.State, owner: string)
    ensures var t := E.WorkerDeath(s, owner);
            OnlyResources(s, t) && Entrywise(s.resources, t.resources, (r, r') => Orphaned(owner, r, r'))
  {
  }

  /** A new epoch voids all evidence that is not durable. */
  lemma EpochOpened(s: E.State, next: Epoch)
    ensures var t := E.AdvanceEpoch(s, next);
            if next == 0 then t == s
            else
              && t.epoch == next && t.nodes == s.nodes && t.paths == s.paths && t.policies == s.policies
              && Entrywise(s.resources, t.resources, (r, r') => Reopened(r, r'))
  {
  }

  lemma PolicyEntered(s: E.State, policy: PolicyId, gen: Generation)
    ensures var t := E.PolicyUpdate(s, policy, gen);
            && t.epoch == s.epoch && t.resources == s.resources && t.nodes == s.nodes && t.paths == s.paths
            && Enters(s.policies, t.policies, policy, gen)
  {
  }

  /** The path table after an update: the new evidence under its own ends, every other path as it was. */
  lemma PathEntered(s: E.State, pe: PathEvidence)
    ensures var t := E.PathUpdate(s, pe);
            && t.epoch == s.epoch && t.resources == s.resources && t.nodes == s.nodes && t.policies == s.policies
            && Enters(s.paths, t.paths, (pe.from, pe.to), pe)
  {
  }

  // ---- a discovery round -------------------------------------------------------

  lemma {:induction false} NodesEntered(s: E.State, ns: seq<Node>, k: NodeId)
    ensures var t := E.IngestNodes(s, ns);
            && t.epoch == s.epoch && t.resources == s.resources && t.paths == s.paths && t.policies == s.policies
            && Filed(s.nodes, t.nodes, ns, IdOfNode, false, k)
  {
    if ns != [] {
      var front, last := ns[..|ns| - 1], ns[|ns| - 1];
      var u := E.IngestNodes(s, front);
      NodesEntered(s, front, k);
      NodeEntered(u, last);
      FiledOneMore(s.nodes, u.nodes, E.IngestNode(u, last).nodes, front, last, IdOfNode, false, k);
      assert ns == front + [last];
    }
  }

  lemma {:induction false} ResourcesEntered(s: E.State, rs: seq<Resource>, k: ResourceId)
    ensures var t := E.IngestResources(s, rs);
            OnlyResources(s, t) && Filed(s.resources, t.resources, rs, IdOfResource, false, k)
  {
    if rs != [] {
      var front, last := rs[..|rs| - 1], rs[|rs| - 1];
      var u := E.IngestResources(s, front);
      ResourcesEntered(s, front, k);
      ResourceEntered(u, last);
      FiledOneMore(s.resources, u.resources, E.IngestResource(u, last).resources, front, last, IdOfResource, false, k);
      assert rs == front + [last];
    }
  }

  /** The node is known after the round: it was before, or the round supplies it. */
  ghost predicate KnownAfter(s: E.State, ns: seq<Node>, k: NodeId)
  {
    k in s.nodes || (k != 0 && Supplied(ns, IdOfNode, k))
  }

  /** The path table after a discovery round: every path found between two different known nodes, and every
      other path as it was. */
  lemma PathsDiscovered(s: E.State, ns: seq<Node>, rs: seq<Resource>, found: map<(NodeId, NodeId), PathEvidence>,
                        key: (NodeId, NodeId))
    ensures var t := E.Discover(s, ns, rs, found);
            if key in found && key.0 != key.1 && KnownAfter(s, ns, key.0) && KnownAfter(s, ns, key.1)
            then key in t.paths && t.paths[key] == found[key]
            else (key in t.paths <==> key in s.paths) && (key in s.paths ==> t.paths[key] == s.paths[key])
  {
    NodesEntered(s, ns, key.0);
    NodesEntered(s, ns, key.1);
    ResourcesEntered(E.IngestNodes(s, ns), rs, 0);
  }

  /** The node and resource tables after a discovery round: the last record supplied under an id, or as before. */
  lemma RecordsDiscovered(s: E.State, ns: seq<Node>, rs: seq<Resource>, found: map<(NodeId, NodeId), PathEvidence>,
                          k: nat)
    ensures var t := E.Discover(s, ns, rs, found);
            && t.epoch == s.epoch && t.policies == s.policies
            && Filed(s.nodes, t.nodes, ns, IdOfNode, false, k)
            && Filed(s.resources, t.resources, rs, IdOfResource, false, k)
  {
    NodesEntered(s, ns, k);
    ResourcesEntered(E.IngestNodes(s, ns), rs, k);
  }

  // ---- a reload ----------------------------------------------------------------

  function IdOfComposition(c: Composition): nat { c.id }

  /** The record as a reload files it. */
  ghost predicate ReloadedComposition(c: Composition, c': Composition)
  {
    && F.SameRecord(c, c') && c'.outcome == OutcomeUnknown
    && c'.lifecycle == if c.lifecycle == Active || c.lifecycle == Committed then RecompositionRequired else c.lifecycle
  }

  lemma {:induction false} NodesLoaded(ns: seq<Node>, k: NodeId)
    ensures Filed(map[], E.LoadNodes(ns), ns, IdOfNode, true, k)
  {
    if ns != [] {
      var front, last := ns[..|ns| - 1], ns[|ns| - 1];
      NodesLoaded(front, k);
      FiledOneMore(map[], E.LoadNodes(front), E.LoadNodes(ns), front, last, IdOfNode, true, k);
      assert ns == front + [last];
    }
  }

  /** Under each id of the file, the last resource with it, its evidence void unless durable. */
  lemma {:induction false} ResourcesLoaded(rs: seq<Resource>, k: ResourceId)
    ensures k in E.LoadResources(rs) <==> Supplied(rs, IdOfResource, k)
    ensures k in E.LoadResources(rs) ==>
              exists r :: Last(rs, IdOfResource, k, r) && Reopened(r, E.LoadResources(rs)[k])
  {
    if rs != [] {
      var front, last := rs[..|rs| - 1], rs[|rs| - 1];
      ResourcesLoaded(front, k);
      var m, t := E.LoadResources(front), E.LoadResources(rs);
      assert rs == front + [last];
      if last.id == k {
        assert IdOfResource(rs[|rs| - 1]) == k;
        assert Last(rs, IdOfResource, k, last) && Reopened(last, t[k]);
      } else {
        SuppliedBefore(front, last, IdOfResource, k);
        if k in m {
          var r :| Last(front, IdOfResource, k, r) && Reopened(r, m[k]);
          LastBefore(front, last, IdOfResource, k, r);
        }
      }
    }
  }

  lemma SuppliedBefore<V>(xs: seq<V>, x: V, id: V -> nat, k: nat)
    requires id(x) != k
    ensures Supplied(xs + [x], id, k) <==> Supplied(xs, id, k)
  {
    if i :| 0 <= i < |xs| && id(xs[i]) == k { assert (xs + [x])[i] == xs[i]; }
  }

  lemma LastBefore<V>(xs: seq<V>, x: V, id: V -> nat, k: nat, v: V)
    requires id(x) != k && Last(xs, id, k, v)
    ensures Last(xs + [x], id, k, v)
  {
    var i :| 0 <= i < |xs| && xs[i] == v && id(v) == k && forall j :: i < j < |xs| ==> id(xs[j]) != k;
    assert (xs + [x])[i] == v;
  }

  /** Under each id of the file, the last composition with it, demoted if it was in force. */
  lemma {:induction false} CompositionsLoaded(cs: seq<Composition>, k: CompositionId)
    ensures k in E.LoadComps(cs) <==> Supplied(cs, IdOfComposition, k)
    ensures k in E.LoadComps(cs) ==>
              exists c :: Last(cs, IdOfComposition, k, c) && ReloadedComposition(c, E.LoadComps(cs)[k])
  {
    if cs != [] {
      var front, last := cs[..|cs| - 1], cs[|cs| - 1];
      CompositionsLoaded(front, k);
      var m, t := E.LoadComps(front), E.LoadComps(cs);
      assert cs == front + [last];
      if last.id == k {
        assert IdOfComposition(cs[|cs| - 1]) == k;
        assert Last(cs, IdOfComposition, k, last) && ReloadedComposition(last, t[k]);
      } else {
        SuppliedBefore(front, last, IdOfComposition, k);
        if k in m {
          var c :| Last(front, IdOfComposition, k, c) && ReloadedComposition(c, m[k]);
          LastBefore(front, last, IdOfComposition, k, c);
        }
      }
    }
  }

  /** The least number that is at least `next` and above every id. */
  ghost predicate Least(next: nat, n: nat, ids: set<nat>)
  {
    n >= next && (forall id :: id in ids ==> id < n) && (n == next || n - 1 in ids)
  }

  lemma LeastStep(next: nat, n: nat, ids: set<nat>, id: nat)
    requires Least(next, n, ids)
    ensures Least(next, if id >= n then id + 1 else n, ids + {id})
  {
  }

  ghost function CompositionIds(cs: seq<Composition>): set<nat> { set c | c in cs :: c.id }
  ghost function NodeIds(ns: seq<Node>): set<nat> { set n | n in ns :: n.id }

  lemma {:induction false} CounterRaised(next: nat, cs: seq<Composition>)
    ensures Least(next, E.Above(next, cs), CompositionIds(cs))
  {
    if cs != [] {
      var front, last := cs[..|cs| - 1], cs[|cs| - 1];
      CounterRaised(next, front);
      LeastStep(next, E.Above(next, front), CompositionIds(front), last.id);
      assert forall c :: c in cs <==> c in front || c == last;
      assert CompositionIds(cs) == CompositionIds(front) + {last.id};
    }
  }

  lemma {:induction false} SetCounterRaised(next: nat, ns: seq<Node>)
    ensures Least(next, E.AboveNodes(next, ns), NodeIds(ns))
  {
    if ns != [] {
      var front, last := ns[..|ns| - 1], ns[|ns| - 1];
      SetCounterRaised(next, front);
      LeastStep(next, E.AboveNodes(next, front), NodeIds(front), last.id);
      assert forall n :: n in ns <==> n in front || n == last;
      assert NodeIds(ns) == NodeIds(front) + {last.id};
    }
  }

  /** What a reload leaves alone, and where it puts the counters. */
  lemma ReloadKeeps(s: E.State, d: E.Durable)
    ensures var t := E.Load(s, d);
            && t.epoch == d.epoch && t.policies == d.policies && t.resvs == map[]
            && t.paths == s.paths && t.held == s.held && t.draining == s.draining && t.fenced == s.fenced
            && t.nextResv == s.nextResv
            && Least(s.nextComp, t.nextComp, CompositionIds(d.comps))
            && Least(s.nextSet, t.nextSet, NodeIds(d.nodes))
  {
    CounterRaised(s.nextComp, d.comps);
    SetCounterRaised(s.nextSet, d.nodes);
  }

  /** The tables after a reload, under each id. */
  lemma ReloadTables(s: E.State, d: E.Durable, k: nat)
    ensures var t := E.Load(s, d);
            && Filed(map[], t.nodes, d.nodes, IdOfNode, true, k)
            && (k in t.resources <==> Supplied(d.resources, IdOfResource, k))
            && (k in t.resources ==> exists r :: Last(d.resources, IdOfResource, k, r) && Reopened(r, t.resources[k]))
            && (k in t.comps <==> Supplied(d.comps, IdOfComposition, k))
            && (k in t.comps ==>
                  exists c :: Last(d.comps, IdOfComposition, k, c) && ReloadedComposition(c, t.comps[k]))
  {
    NodesLoaded(d.nodes, k);
    ResourcesLoaded(d.resources, k);
    CompositionsLoaded(d.comps, k);
  }
}
