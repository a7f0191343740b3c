/** The fabric engine as state transitions: one function per lock-held section.

    The functions are total, so every refusal of the engine is a transition too (usually the
    identity).  `held` is the per-resource hold ledger; reading a missing entry through the
    C++ index operator creates a zero entry, and so it does here. */
module Engine {
  import opened FabricTypes
  import opened Eligibility
  import opened PlanGraph
  import opened Planner

  datatype State = State(
    epoch: Epoch,
    resources: map<ResourceId, Resource>,
    nodes: map<NodeId, Node>,
    paths: map<(NodeId, NodeId), PathEvidence>,
    comps: map<CompositionId, Composition>,
    resvs: map<ReservationId, Reservation>,
    held: map<ResourceId, real>,
    policies: map<PolicyId, Generation>,
    draining: set<CompositionId>,
    fenced: set<CompositionId>,
    nextComp: nat, nextSet: nat, nextResv: nat)

  function Init(epoch: Epoch): State
  {
    State(if epoch == 0 then 1 else epoch, map[], map[], map[], map[], map[], map[], map[], {}, {}, 1, 1, 1)
  }

  function RegistryOf(s: State): Registry { Registry(s.resources, s.nodes, s.paths) }

  // ---- the ledger --------------------------------------------------------------

  function HeldOf(held: map<ResourceId, real>, rid: ResourceId): real
  {
    if rid in held then held[rid] else 0.0
  }

  function Touch(held: map<ResourceId, real>, rid: ResourceId): map<ResourceId, real>
  {
    held[rid := HeldOf(held, rid)]
  }

  /** Subtract a hold, never below zero, and drop an entry that reaches zero. */
  function GiveBack(held: map<ResourceId, real>, rid: ResourceId, amount: real): map<ResourceId, real>
  {
    if rid !in held then held else
      var left := if held[rid] - amount < 0.0 then 0.0 else held[rid] - amount;
      if left == 0.0 then held - {rid} else held[rid := left]
  }

  function ReleaseItems(held: map<ResourceId, real>, items: seq<Item>): map<ResourceId, real>
  {
    if items == [] then held else ReleaseItems(GiveBack(held, items[0].resource, items[0].amount), items[1..])
  }

  datatype Hold = Refused(held: map<ResourceId, real>, reason: Reason) | Held(held: map<ResourceId, real>, item: Item)

  /** Try to hold one vertex: registered, eligible, not held already, no negative capacity. */
  function HoldOne(resources: map<ResourceId, Resource>, req: Request, rid: ResourceId,
                   held: map<ResourceId, real>): Hold
  {
    if rid !in resources then Refused(held, ResourceOffline) else
    var r := resources[rid];
    match Check(r, req)
    case Ineligible(reason) => Refused(held, reason)
    case Eligible =>
      var touched := Touch(held, rid);
      if touched[rid] > 0.0 then Refused(touched, ReservationConflict)
      else if r.capacity.computeUnits < 0.0 || r.capacity.hostMemory < 0.0 then Refused(touched, CapacityNegative)
      else Held(touched[rid := touched[rid] + HoldAmount(r)], Item(rid, Provisional, HoldAmount(r)))
  }

  datatype Holds = Holds(held: map<ResourceId, real>, items: seq<Item>, failure: Option<Reason>)

  /** Take a provisional hold on each vertex in turn, stopping at the first one that cannot be held. */
  function TakeHolds(resources: map<ResourceId, Resource>, req: Request, vs: seq<ResourceId>,
                     held: map<ResourceId, real>, items: seq<Item>): Holds
    decreases |vs|
  {
    if vs == [] then Holds(held, items, None) else
    match HoldOne(resources, req, vs[0], held)
    case Refused(now, reason) => Holds(now, items, Some(reason))
    case Held(now, item) => TakeHolds(resources, req, vs[1..], now, items + [item])
  }

  // ---- reserve, commit, activate -----------------------------------------------

  datatype ReserveResult = ReserveOk(reservation: Reservation) | ReserveRejected(reason: Reason)
  datatype CommitResult = CommitOk(id: CompositionId) | CommitRejected(reason: Reason)
  datatype ActivateResult = ActivateOk | ActivateRejected(reason: Reason)

  function NewComposition(plan: Plan, resourceSet: nat, reservation: ReservationId): Composition
  {
    Composition(plan.id, plan.generation, resourceSet, plan.graph, plan.request, plan.authority, Reserved, plan.rank,
                reservation, plan.paths, OutcomeUnknown)
  }

  /** The tables after the holds `h` have been tried for a plan. */
  function ReserveWith(s: State, plan: Plan, h: Holds): (State, ReserveResult)
  {
    if h.failure.Some? then
      (s.(nextResv := s.nextResv + 1, held := ReleaseItems(h.held, h.items)), ReserveRejected(h.failure.value))
    else
      var v := Reservation(s.nextResv, plan.id, h.items, Provisional);
      (s.(nextResv := s.nextResv + 1, nextSet := s.nextSet + 1, held := h.held,
          comps := s.comps[plan.id := NewComposition(plan, s.nextSet, s.nextResv)],
          resvs := s.resvs[s.nextResv := v]),
       ReserveOk(v))
  }

  function Reserve(s: State, plan: Plan): (State, ReserveResult)
  {
    if plan.lifecycle != Planned || plan.id == 0 then (s, ReserveRejected(InvalidStateTransition))
    else ReserveWith(s, plan, TakeHolds(s.resources, plan.request, plan.graph.vertices, s.held, []))
  }

  datatype CommitScan = CommitScan(held: map<ResourceId, real>, failure: Option<Reason>)

  /** Re-check every held member before committing. */
  function ScanItems(resources: map<ResourceId, Resource>, req: Request, items: seq<Item>,
                     held: map<ResourceId, real>): CommitScan
    decreases |items|
  {
    if items == [] then CommitScan(held, None) else
    var item := items[0];
    if item.resource !in resources then CommitScan(held, Some(ResourceOffline)) else
    match Check(resources[item.resource], req)
    case Ineligible(reason) => CommitScan(held, Some(reason))
    case Eligible =>
      var touched := Touch(held, item.resource);
      if touched[item.resource] < item.amount then CommitScan(touched, Some(Overcommit))
      else ScanItems(resources, req, items[1..], touched)
  }

  function CommitItems(items: seq<Item>): (r: seq<Item>)
    ensures |r| == |items| && forall i :: 0 <= i < |items| ==> r[i] == items[i].(state := CommittedHold)
  {
    seq(|items|, i requires 0 <= i < |items| => items[i].(state := CommittedHold))
  }

  /** The tables after the members of a provisional reservation have been re-checked. */
  function CommitWith(s: State, vid: ReservationId, v: Reservation, c: Composition,
                      scan: CommitScan): (State, CommitResult)
  {
    if scan.failure.Some? then
      (s.(held := ReleaseItems(scan.held, v.items),
          resvs := s.resvs[vid := v.(state := RolledBack)],
          comps := s.comps[v.composition := c.(lifecycle := RevalidationRequired, outcome := FailedOutcome)]),
       CommitRejected(scan.failure.value))
    else
      (s.(held := scan.held,
          resvs := s.resvs[vid := v.(items := CommitItems(v.items), state := CommittedHold)],
          comps := s.comps[v.composition := c.(lifecycle := Committed)]),
       CommitOk(c.id))
  }

  function Commit(s: State, vid: ReservationId): (State, CommitResult)
  {
    if vid !in s.resvs then (s, CommitRejected(ReservationConflict)) else
    var v := s.resvs[vid];
    if v.state != Provisional then (s, CommitRejected(InvalidStateTransition))
    else if v.composition !in s.comps then (s, CommitRejected(ReservationConflict)) else
    var c := s.comps[v.composition];
    if c.lifecycle != Reserved then (s, CommitRejected(InvalidStateTransition))
    else CommitWith(s, vid, v, c, ScanItems(s.resources, c.request, v.items, s.held))
  }

  /** The vertices from position i on, against the current registry; None when all hold. */
  function RevalidateFrom(c: Composition, resources: map<ResourceId, Resource>, i: nat): (r: Option<Reason>)
    requires i <= |c.graph.vertices|
    decreases |c.graph.vertices| - i
  {
    if i == |c.graph.vertices| then None else
    var rid := c.graph.vertices[i];
    if rid !in resources || resources[rid].id == 0 then Some(ResourceOffline)
    else if i < |c.authority.resources| && c.authority.resources[i] != resources[rid].generation
      then Some(WrongGeneration)
    else if !resources[rid].evidence.IsCurrent() then Some(StaleEvidence)
    else RevalidateFrom(c, resources, i + 1)
  }

  function Revalidate(c: Composition, resources: map<ResourceId, Resource>, epoch: Epoch): Option<Reason>
  {
    if c.authority.epoch != epoch then Some(WrongEpoch) else RevalidateFrom(c, resources, 0)
  }

  function ActivateWith(s: State, cid: CompositionId, c: Composition, failure: Option<Reason>): (State, ActivateResult)
  {
    if failure.Some? then
      (s.(comps := s.comps[cid := c.(lifecycle := RevalidationRequired, outcome := Rejected)]),
        ActivateRejected(failure.value))
    else
      (s.(comps := s.comps[cid := c.(lifecycle := Active, outcome := Success)]), ActivateOk)
  }

  function Activate(s: State, cid: CompositionId): (State, ActivateResult)
  {
    if cid !in s.comps then (s, ActivateRejected(NoValidComposition)) else
    var c := s.comps[cid];
    if c.lifecycle != Committed then (s, ActivateRejected(InvalidStateTransition))
    else if c.id in s.fenced then (s, ActivateRejected(PolicyDenied))
    else ActivateWith(s, cid, c, Revalidate(c, s.resources, s.epoch))
  }

  // ---- compose -----------------------------------------------------------------

  function PathsOf(reg: Registry, edges: seq<Edge>): seq<PathEvidence>
  {
    if edges == [] then [] else
      var e := edges[|edges| - 1];
      PathsOf(reg, edges[..|edges| - 1]) +
      if e.from in reg.resources && e.to in reg.resources then
        var key := (reg.resources[e.from].node, reg.resources[e.to].node);
        if key.0 != key.1 && key in reg.paths then [reg.paths[key]] else []
      else []
  }

  /** The plan for chosen members, under a fresh id that is also its generation. */
  function MakePlan(s: State, req: Request, ids: seq<ResourceId>): Plan
    requires forall id :: id in ids ==> id in s.resources
  {
    var ms := Lookup(s.resources, ids);
    var g := BuildGraph(req, ms);
    Plan(s.nextComp, s.nextComp, g, req, Rank(ms), MakeAuthority(s.nextComp, req, ms, s.nodes, s.epoch), Planned,
         PathsOf(RegistryOf(s), g.edges))
  }

  /** Issue a plan for the chosen members, or reject. */
  function Issue(s: State, req: Request, chosen: Option<seq<ResourceId>>): (State, Option<Plan>)
    requires chosen.Some? ==> forall id :: id in chosen.value ==> id in s.resources
  {
    if chosen.None? then (s, None)
    else (s.(nextComp := s.nextComp + 1), Some(MakePlan(s, req, chosen.value)))
  }

  /** Compose visits the resource table in `order`. */
  function Compose(s: State, order: seq<ResourceId>, req: Request): (State, Option<Plan>)
    requires forall k :: k in order ==> k in s.resources
  {
    Issue(s, req, SelectMembers(RegistryOf(s), order, req))
  }

  // ---- demotion ----------------------------------------------------------------

  /** A changed generation: ACTIVE must be recomposed, COMMITTED and RESERVED revalidated. */
  function DemoteChanged(c: Composition): Composition
  {
    if c.lifecycle == Active then c.(lifecycle := RecompositionRequired)
    else if c.lifecycle == Committed || c.lifecycle == Reserved then c.(lifecycle := RevalidationRequired)
    else c
  }

  function DemoteActive(c: Composition, to: Lifecycle): Composition
  {
    if c.lifecycle == Active then c.(lifecycle := to) else c
  }

  predicate HasMember(c: Composition, rid: ResourceId) { rid in c.graph.vertices }

  function IngestNode(s: State, n: Node): State
  {
    if n.id == 0 then s else
    var comps := if n.id in s.nodes && s.nodes[n.id].generation != n.generation
                 then map id | id in s.comps :: DemoteChanged(s.comps[id]) else s.comps;
    s.(nodes := s.nodes[n.id := n], comps := comps)
  }

  function IngestResource(s: State, r: Resource): State
  {
    if r.id == 0 then s else
    var comps := if r.id in s.resources && s.resources[r.id].generation != r.generation
                 then map id | id in s.comps :: if HasMember(s.comps[id], r.id) then DemoteChanged(s.comps[id])
                   else s.comps[id]
                 else s.comps;
    s.(resources := s.resources[r.id := r], comps := comps)
  }

  function IngestNodes(s: State, ns: seq<Node>): State
  {
    if ns == [] then s else IngestNode(IngestNodes(s, ns[..|ns| - 1]), ns[|ns| - 1])
  }

  function IngestResources(s: State, rs: seq<Resource>): State
  {
    if rs == [] then s else IngestResource(IngestResources(s, rs[..|rs| - 1]), rs[|rs| - 1])
  }

  /** One discovery round over what the backends supply: nodes, resources, then cross-node paths. */
  function Discover(s: State, ns: seq<Node>, rs: seq<Resource>, found: map<(NodeId, NodeId), PathEvidence>): State
  {
    var t := IngestResources(IngestNodes(s, ns), rs);
    t.(paths := t.paths + map k | k in found && k.0 in t.nodes && k.1 in t.nodes && k.0 != k.1 :: found[k])
  }

  function Revalidation(e: Evidence): Evidence { e.(state := EvidenceRevalidation, maxAgeMs := 0) }

  function InvalidateEvidence(s: State, rid: ResourceId): State
  {
    if rid !in s.resources then s else
    var r := s.resources[rid];
    s.(resources := s.resources[rid := r.(evidence := Revalidation(r.evidence))])
  }

  function Withdraw(s: State, rid: ResourceId): State
  {
    if rid !in s.resources then s else
    var r := s.resources[rid];
    var r' := r.(health := Offline, readiness := NotReady, reachability := Unreachable,
                 evidence := r.evidence.(state := EvidenceRevalidation));
    s.(resources := s.resources[rid := r'],
       comps := map id | id in s.comps ::
         if HasMember(s.comps[id], rid) then DemoteActive(s.comps[id], RecompositionRequired) else s.comps[id])
  }

  predicate OwnedBy(r: Resource, owner: string) { r.evidence.owner == owner || r.evidence.provenance == owner }

  predicate TouchesOwner(c: Composition, resources: map<ResourceId, Resource>, owner: string)
  {
    exists i :: 0 <= i < |c.graph.vertices| && c.graph.vertices[i] in resources &&
      OwnedBy(resources[c.graph.vertices[i]], owner)
  }

  function Orphaned(r: Resource): Resource { r.(evidence := Revalidation(r.evidence), health := HealthUnknown) }

  function Orphans(resources: map<ResourceId, Resource>, owner: string): map<ResourceId, Resource>
  {
    map k | k in resources :: if OwnedBy(resources[k], owner) then Orphaned(resources[k]) else resources[k]
  }

  function LowerTouched(comps: map<CompositionId, Composition>, resources: map<ResourceId, Resource>, owner: string):
    map<CompositionId, Composition>
  {
    map id | id in comps ::
      if TouchesOwner(comps[id], resources, owner) then DemoteActive(comps[id], RecompositionRequired) else comps[id]
  }

  /** A worker died: everything it vouched for must be revalidated. */
  function WorkerDeath(s: State, owner: string): State
  {
    var resources := Orphans(s.resources, owner);
    s.(resources := resources, comps := LowerTouched(s.comps, resources, owner))
  }

  function AdvanceEpoch(s: State, next: Epoch): State
  {
    if next == 0 then s else
    s.(epoch := next,
       resources := map k | k in s.resources :: LoadedResource(s.resources[k]),
       comps := map id | id in s.comps :: DemoteActive(s.comps[id], RevalidationRequired))
  }

  function PolicyUpdate(s: State, policy: PolicyId, gen: Generation): State
  {
    s.(policies := s.policies[policy := gen],
       comps := map id | id in s.comps ::
         if s.comps[id].authority.policy != gen && s.comps[id].lifecycle != Reserved then DemoteChanged(s.comps[id])
           else s.comps[id])
  }

  predicate UsesPath(c: Composition, pe: PathEvidence)
  {
    exists i :: 0 <= i < |c.paths| && (
      c.paths[i].from == pe.from && c.paths[i].to == pe.to && c.paths[i].generation != pe.generation)
  }

  function PathUpdate(s: State, pe: PathEvidence): State
  {
    s.(paths := s.paths[(pe.from, pe.to) := pe],
       comps := map id | id in s.comps ::
         if UsesPath(s.comps[id], pe) then DemoteActive(s.comps[id], RecompositionRequired) else s.comps[id])
  }

  function ResourceFailure(s: State, rid: ResourceId): State
  {
    var resources := if rid !in s.resources then s.resources else
      var r := s.resources[rid];
      s.resources[rid := r.(health := Offline, readiness := NotReady,
        evidence := r.evidence.(state := EvidenceRevalidation))];
    s.(resources := resources,
       comps := map id | id in s.comps ::
         if HasMember(s.comps[id], rid) && s.comps[id].lifecycle != Reserved then DemoteChanged(s.comps[id])
           else s.comps[id])
  }

  // ---- ending a composition ----------------------------------------------------

  function BeginDrain(s: State, cid: CompositionId): (State, bool)
  {
    if cid !in s.comps then (s, false) else
    var c := s.comps[cid];
    if c.lifecycle != Active && c.lifecycle != Committed && c.lifecycle != DegradedComposition then (s, false)
    else (s.(comps := s.comps[cid := c.(lifecycle := Draining)], draining := s.draining + {cid}), true)
  }

  /** Give back what the reservation of a composition holds, whatever state it is in. */
  function ReleaseReservation(s: State, vid: ReservationId): State
  {
    if vid !in s.resvs then s else
    s.(held := ReleaseItems(s.held, s.resvs[vid].items),
       resvs := s.resvs[vid := s.resvs[vid].(state := ReleasedHold)])
  }

  function EndDrain(s: State, cid: CompositionId): (State, bool)
  {
    if cid !in s.comps then (s, false) else
    var c := s.comps[cid];
    if c.lifecycle != Draining then (s, false) else
    var t := ReleaseReservation(s, c.reservation);
    (t.(comps := t.comps[cid := c.(lifecycle := Released)], draining := t.draining - {cid}), true)
  }

  function Release(s: State, cid: CompositionId): (State, bool)
  {
    if cid !in s.comps then (s, false) else
    var c := s.comps[cid];
    if c.lifecycle == Released || c.lifecycle == Retired then (s, false) else
    var t := ReleaseReservation(s, c.reservation);
    (t.(comps := t.comps[cid := c.(lifecycle := Released)], draining := t.draining - {cid},
      fenced := t.fenced + {cid}), true)
  }

  /** Recompute's releasing section: no lifecycle guard at all. */
  function ReleaseOld(s: State, cid: CompositionId): State
  {
    if cid !in s.comps then s else
    var c := s.comps[cid];
    var t := ReleaseReservation(s, c.reservation);
    t.(comps := t.comps[cid := c.(lifecycle := Released)], fenced := t.fenced + {c.id})
  }

  // ---- restart -----------------------------------------------------------------

  datatype Durable = Durable(epoch: Epoch, nodes: seq<Node>, resources: seq<Resource>,
                             policies: map<PolicyId, Generation>, comps: seq<Composition>)

  /** What Save writes: every record of the durable tables, in whatever order they iterate. */
  ghost predicate Saved(s: State, d: Durable)
  {
    && d.epoch == s.epoch && d.policies == s.policies
    && (forall n :: n in d.nodes <==> n in s.nodes.Values)
    && (forall r :: r in d.resources <==> r in s.resources.Values)
    && (forall c :: c in d.comps <==> c in s.comps.Values)
  }

  function LoadNodes(ns: seq<Node>): map<NodeId, Node>
  {
    if ns == [] then map[] else LoadNodes(ns[..|ns| - 1])[ns[|ns| - 1].id := ns[|ns| - 1]]
  }

  function LoadedResource(r: Resource): Resource
  {
    if r.evidence.durable then r else r.(evidence := Revalidation(r.evidence))
  }

  function LoadResources(rs: seq<Resource>): map<ResourceId, Resource>
  {
    if rs == [] then map[] else LoadResources(rs[..|rs| - 1])[rs[|rs| - 1].id := LoadedResource(rs[|rs| - 1])]
  }

  function LoadedComposition(c: Composition): Composition
  {
    c.(lifecycle := if c.lifecycle == Active || c.lifecycle == Committed then RecompositionRequired else c.lifecycle,
       outcome := OutcomeUnknown)
  }

  function LoadComps(cs: seq<Composition>): map<CompositionId, Composition>
  {
    if cs == [] then map[] else LoadComps(cs[..|cs| - 1])[cs[|cs| - 1].id := LoadedComposition(cs[|cs| - 1])]
  }

  /** The counter moved above every id in the list. */
  function Above(next: nat, cs: seq<Composition>): nat
  {
    if cs == [] then next else
      var n := Above(next, cs[..|cs| - 1]);
      if cs[|cs| - 1].id >= n then cs[|cs| - 1].id + 1 else n
  }

  function AboveNodes(next: nat, ns: seq<Node>): nat
  {
    if ns == [] then next else
      var n := AboveNodes(next, ns[..|ns| - 1]);
      if ns[|ns| - 1].id >= n then ns[|ns| - 1].id + 1 else n
  }

  /** Nothing regains authority; the ledger and the reservation counter are left as they are. */
  function Load(s: State, d: Durable): State
  {
    s.(epoch := d.epoch, nodes := LoadNodes(d.nodes), resources := LoadResources(d.resources), policies := d.policies,
       comps := LoadComps(d.comps), resvs := map[], nextComp := Above(s.nextComp, d.comps),
         nextSet := AboveNodes(s.nextSet, d.nodes))
  }
}
