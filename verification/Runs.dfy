/** Runs of the engine: any interleaving of lock-held sections.

    Every public operation is one step, except Recompute, which drops the lock between its
    sections and is therefore a client that advances one section at a time while others run.
    `issued` records every plan Compose has handed out (callers may keep and replay them) and
    `lost` every composition that ever left ACTIVE for RECOMPOSITION_REQUIRED or
    REVALIDATION_REQUIRED; both only observe. */
module Runs {
  import opened FabricTypes
  import opened Eligibility
  import opened Candidates
  import opened RunTheory
  import E = Engine

  /** A Recompute call between two of its sections.  `before` is what had been issued when it
      composed, `found` whether the releasing section still found the old composition. */
  datatype Client =
    | Asked(prior: CompositionId, req: Request)
    | Composed(prior: CompositionId, plan: Plan, before: set<CompositionId>)
    | Freed(prior: CompositionId, plan: Plan, before: set<CompositionId>, found: bool)
    | Holding(prior: CompositionId, plan: Plan, before: set<CompositionId>, found: bool, vid: ReservationId)
    | Agreed(prior: CompositionId, plan: Plan, before: set<CompositionId>, found: bool, cid: CompositionId)
    | ReturnedTrue(prior: CompositionId, plan: Plan, before: set<CompositionId>, found: bool)
    | ReturnedFalse

  datatype Config = Config(s: E.State, issued: map<CompositionId, Plan>, clients: map<nat, Client>,
                           lost: set<CompositionId>)

  /** The public operations that are a single lock-held section and hand out no plan. */
  datatype Call =
    | IngestNode(node: Node)
    | IngestResource(resource: Resource)
    | Discover(nodes: seq<Node>, resources: seq<Resource>, found: map<(NodeId, NodeId), PathEvidence>)
    | InvalidateEvidence(rid: ResourceId)
    | Withdraw(rid: ResourceId)
    | WorkerDeath(owner: string)
    | AdvanceEpoch(next: Epoch)
    | PolicyUpdate(policy: PolicyId, gen: Generation)
    | PathUpdate(path: PathEvidence)
    | ResourceFailure(rid: ResourceId)
    | Reserve(plan: Plan)
    | Commit(vid: ReservationId)
    | Activate(cid: CompositionId)
    | BeginDrain(cid: CompositionId)
    | EndDrain(cid: CompositionId)
    | Release(cid: CompositionId)
    | Load(durable: E.Durable)

  datatype Step =
    | Atomic(call: Call)
    | Compose(order: seq<ResourceId>, req: Request)
    | RecomputeCall(client: nat, cid: CompositionId)
    | RecomputeSection(client: nat, order: seq<ResourceId>)

  function Start(epoch: Epoch): Config { Config(E.Init(epoch), map[], map[], {}) }

  // ---- one step ----------------------------------------------------------------

  function Operation(s: E.State, call: Call): E.State
  {
    match call
    case IngestNode(n) => E.IngestNode(s, n)
    case IngestResource(r) => E.IngestResource(s, r)
    case Discover(ns, rs, found) => E.Discover(s, ns, rs, found)
    case InvalidateEvidence(rid) => E.InvalidateEvidence(s, rid)
    case Withdraw(rid) => E.Withdraw(s, rid)
    case WorkerDeath(owner) => E.WorkerDeath(s, owner)
    case AdvanceEpoch(next) => E.AdvanceEpoch(s, next)
    case PolicyUpdate(p, g) => E.PolicyUpdate(s, p, g)
    case PathUpdate(pe) => E.PathUpdate(s, pe)
    case ResourceFailure(rid) => E.ResourceFailure(s, rid)
    case Reserve(plan) => E.Reserve(s, plan).0
    case Commit(vid) => E.Commit(s, vid).0
    case Activate(cid) => E.Activate(s, cid).0
    case BeginDrain(cid) => E.BeginDrain(s, cid).0
    case EndDrain(cid) => E.EndDrain(s, cid).0
    case Release(cid) => E.Release(s, cid).0
    case Load(d) => E.Load(s, d)
  }

  ghost function Record(c: Config, s: E.State, plan: Option<Plan>): (Config, Option<Plan>)
  {
    (c.(s := s, issued := if plan.None? then c.issued else c.issued[plan.value.id := plan.value]), plan)
  }

  /** Compose from any iteration order of the table; a plan is recorded as issued. */
  ghost function ComposeIn(c: Config, order: seq<ResourceId>, req: Request): (Config, Option<Plan>)
  {
    if !Enumerates(order, c.s.resources) then (c, None) else
    var (s, plan) := E.Compose(c.s, order, req);
    Record(c, s, plan)
  }

  /** The sections of a Recompute call after it has composed: release, reserve, commit, activate. */
  ghost function Advance(s: E.State, cl: Client): (E.State, Client)
    requires !cl.Asked?
  {
    match cl
    case Composed(prior, plan, before) =>
      (E.ReleaseOld(s, prior), Freed(prior, plan, before, prior in s.comps))
    case Freed(prior, plan, before, found) =>
      var (t, r) := E.Reserve(s, plan);
      (t, if r.ReserveOk? then Holding(prior, plan, before, found, r.reservation.id) else ReturnedFalse)
    case Holding(prior, plan, before, found, vid) =>
      var (t, r) := E.Commit(s, vid);
      (t, if r.CommitOk? then Agreed(prior, plan, before, found, r.id) else ReturnedFalse)
    case Agreed(prior, plan, before, found, cid) =>
      var (t, r) := E.Activate(s, cid);
      (t, if r.ActivateOk? then ReturnedTrue(prior, plan, before, found) else ReturnedFalse)
    case _ => (s, cl)
  }

  ghost function Answered(d: Config, k: nat, prior: CompositionId, plan: Option<Plan>,
                          before: set<CompositionId>): Config
  {
    d.(clients := d.clients[k := if plan.None? then ReturnedFalse else Composed(prior, plan.value, before)])
  }

  /** The composing section of a Recompute call. */
  ghost function Ask(c: Config, k: nat, order: seq<ResourceId>, prior: CompositionId, req: Request): Config
  {
    if !Enumerates(order, c.s.resources) then c else
    var (d, plan) := ComposeIn(c, order, req);
    Answered(d, k, prior, plan, c.issued.Keys)
  }

  /** The next lock-held section of a Recompute call. */
  ghost function Section(c: Config, k: nat, order: seq<ResourceId>): Config
  {
    if k !in c.clients then c
    else if c.clients[k].Asked? then Ask(c, k, order, c.clients[k].prior, c.clients[k].req)
    else
      var (s, cl) := Advance(c.s, c.clients[k]);
      c.(s := s, clients := c.clients[k := cl])
  }

  ghost function Core(c: Config, step: Step): Config
  {
    match step
    case Atomic(call) => c.(s := Operation(c.s, call))
    case Compose(order, req) => ComposeIn(c, order, req).0
    case RecomputeCall(k, cid) =>
      if k in c.clients then c
      else c.(clients := c.clients[k := if cid in c.s.comps then Asked(cid, c.s.comps[cid].request) else ReturnedFalse])
    case RecomputeSection(k, order) => Section(c, k, order)
  }

  ghost predicate IsActive(s: E.State, id: CompositionId)
  {
    id in s.comps && s.comps[id].lifecycle == Active
  }

  /** Compositions whose authority this step took away. */
  ghost function LostBetween(s: E.State, t: E.State): set<CompositionId>
  {
    set id | id in s.comps && IsActive(s, id) && id in t.comps &&
             (t.comps[id].lifecycle == RecompositionRequired || t.comps[id].lifecycle == RevalidationRequired)
  }

  ghost function Next(c: Config, step: Step): Config
  {
    var d := Core(c, step);
    d.(lost := c.lost + LostBetween(c.s, d.s))
  }

  /** The configuration a run of the engine reaches. */
  ghost function Reached(epoch: Epoch, run: seq<Step>): Config { Exec(Next, Start(epoch), run) }

  // ---- discipline --------------------------------------------------------------

  predicate Live(v: Reservation) { v.state == Provisional || v.state == CommittedHold }

  /** Giving this reservation back takes nothing from anyone else: it is live, or nothing it lists
      is held any more. */
  ghost predicate SafeToFree(s: E.State, vid: ReservationId)
  {
    vid in s.resvs ==>
      Live(s.resvs[vid]) ||
      forall i :: 0 <= i < |s.resvs[vid].items| ==> E.HeldOf(s.held, s.resvs[vid].items[i].resource) == 0.0
  }

  ghost predicate SafeToRelease(s: E.State, cid: CompositionId)
  {
    cid in s.comps && s.comps[cid].lifecycle != Released && s.comps[cid].lifecycle != Retired ==>
      SafeToFree(s, s.comps[cid].reservation)
  }

  predicate PositiveHold(r: Resource) { HoldAmount(r) > 0.0 }

  /** The caller's side: reserve only issued plans, register only resources with something to hold,
      release only what is safe to release, and do not reload in mid-run. */
  ghost predicate DisciplinedCall(c: Config, call: Call)
  {
    match call
    case IngestResource(r) => PositiveHold(r)
    case Discover(_, rs, _) => forall r :: r in rs ==> PositiveHold(r)
    case Reserve(plan) => plan.id in c.issued && c.issued[plan.id] == plan
    case Release(cid) => SafeToRelease(c.s, cid)
    case Load(_) => false
    case _ => true
  }

  ghost predicate Disciplined(c: Config, step: Step)
  {
    match step
    case Atomic(call) => DisciplinedCall(c, call)
    case RecomputeSection(k, _) =>
      k in c.clients && c.clients[k].Composed? && c.clients[k].prior in c.s.comps ==>
        SafeToFree(c.s, c.s.comps[c.clients[k].prior].reservation)
    case _ => true
  }

  ghost predicate DisciplinedRun(epoch: Epoch, run: seq<Step>) { Allowed(Next, Disciplined, Start(epoch), run) }
}
