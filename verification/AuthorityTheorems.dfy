/** Theorems about all runs of the engine, with no assumption on its callers. */
module AuthorityTheorems {
  import opened FabricTypes
  import opened Candidates
  import opened RunTheory
  import E = Engine
  import opened Runs
  import opened Invalidation
  import opened AuthorityInvariant
  import opened RecomputeInvariant

  lemma EveryRunIsSound(epoch: Epoch, run: seq<Step>)
    ensures Sound(Reached(epoch, run))
  {
    forall d: Config, step: Step | Sound(d) ensures Sound(Next(d, step)) { NextKeepsSound(d, step); }
    EveryRun(Next, Sound, Start(epoch), run);
  }

  /** In every reachable state, an ACTIVE composition is bound to the engine's epoch and each of its
      members is registered at the generation bound at its position. */
  lemma AuthorityIsCurrent(epoch: Epoch, run: seq<Step>, id: CompositionId)
    ensures var s := Reached(epoch, run).s; IsActive(s, id) ==> Bound(s.comps[id], s.resources, s.epoch)
  {
    EveryRunIsSound(epoch, run);
  }

  // ---- fencing -----------------------------------------------------------------

  ghost predicate FencedIn(id: CompositionId, c: Config) { Sound(c) && id in c.s.fenced }

  lemma FencesStay(id: CompositionId, c: Config, run: seq<Step>)
    requires FencedIn(id, c)
    ensures FencedIn(id, Exec(Next, c, run))
  {
    forall d: Config, step: Step | FencedIn(id, d) ensures FencedIn(id, Next(d, step)) {
      NextKeepsSound(d, step);
    }
    EveryRun(Next, d => FencedIn(id, d), c, run);
  }

  /** A fenced id is never ACTIVE, then or later. */
  lemma FencedNeverActive(epoch: Epoch, run: seq<Step>, more: seq<Step>, id: CompositionId)
    requires id in Reached(epoch, run).s.fenced
    ensures !IsActive(Reached(epoch, run + more).s, id)
  {
    EveryRunIsSound(epoch, run);
    ExecAppend(Next, Start(epoch), run, more);
    FencesStay(id, Reached(epoch, run), more);
  }

  // ---- recompute ---------------------------------------------------------------

  /** The phases after the releasing section. */
  predicate PastRelease(cl: Client) { cl.Freed? || cl.Holding? || cl.Agreed? || cl.ReturnedTrue? }

  /** Break before make: once the releasing section has found the old composition, that one is never
      ACTIVE again, whatever else runs. */
  lemma BreakBeforeMake(epoch: Epoch, run: seq<Step>, more: seq<Step>, k: nat)
    requires var c := Reached(epoch, run); k in c.clients && PastRelease(c.clients[k]) && c.clients[k].found
    ensures !IsActive(Reached(epoch, run + more).s, Reached(epoch, run).clients[k].prior)
  {
    EveryRunIsSound(epoch, run);
    var c := Reached(epoch, run);
    assert ClientOk(c.s, c.issued, c.clients[k]);
    FencedNeverActive(epoch, run, more, c.clients[k].prior);
  }

  lemma ActivateMeans(s: E.State, cid: CompositionId)
    requires E.Activate(s, cid).1.ActivateOk?
    ensures IsActive(E.Activate(s, cid).0, cid)
  {
  }

  /** When Recompute returns true, the replacement has just been activated under an id and a
      generation above everything issued before it, and the composition it replaces, when the
      releasing section found it, is another one, fenced and not ACTIVE. */
  lemma RecomputeReturnsTrue(epoch: Epoch, run: seq<Step>, k: nat, order: seq<ResourceId>)
    requires var c := Reached(epoch, run); k in c.clients && !c.clients[k].ReturnedTrue?
    requires var d := Section(Reached(epoch, run), k, order); k in d.clients && d.clients[k].ReturnedTrue?
    ensures var d := Section(Reached(epoch, run), k, order);
            var ReturnedTrue(prior, plan, before, found) := d.clients[k];
            && IsActive(d.s, plan.id)
            && plan.generation == plan.id
            && (forall b :: b in before ==> b in d.issued && b < plan.id && d.issued[b].generation < plan.generation)
            && (found ==> prior != plan.id && prior in d.s.fenced && !IsActive(d.s, prior))
  {
    var c := Reached(epoch, run);
    EveryRunIsSound(epoch, run);
    SectionKeepsSound(c, k, order);
    var d := Section(c, k, order);
    assert ClientOk(c.s, c.issued, c.clients[k]) && ClientOk(d.s, d.issued, d.clients[k]);
    assert c.clients[k].Agreed?;
    ActivateMeans(c.s, c.clients[k].cid);
  }

  /** Recompute notes the request of the old composition. */
  lemma RecomputeNotesRequest(c: Config, k: nat, cid: CompositionId)
    requires k !in c.clients && cid in c.s.comps
    ensures var d := Next(c, RecomputeCall(k, cid));
            d.s == c.s && k in d.clients && d.clients[k] == Asked(cid, c.s.comps[cid].request)
  {
  }

  lemma PlanIsFor(s: E.State, order: seq<ResourceId>, req: Request)
    requires forall k :: k in order ==> k in s.resources
    ensures E.Compose(s, order, req).1.Some? ==> E.Compose(s, order, req).1.value.request == req
  {
  }

  /** What the composing section of a Recompute leaves in its client. */
  ghost predicate ComposesFor(prior: CompositionId, req: Request, plan: Option<Plan>, cl: Client)
  {
    if plan.None? then cl == ReturnedFalse
    else cl.Composed? && cl.prior == prior && cl.plan == plan.value && cl.plan.request == req
  }

  /** The composing section plans for that request, in the state of that moment, or gives up. */
  lemma RecomputeAsksAgain(c: Config, k: nat, order: seq<ResourceId>)
    requires k in c.clients && c.clients[k].Asked? && Enumerates(order, c.s.resources)
    ensures var d := Section(c, k, order);
            && d.s == E.Compose(c.s, order, c.clients[k].req).0 && k in d.clients
            && ComposesFor(c.clients[k].prior, c.clients[k].req, E.Compose(c.s, order, c.clients[k].req).1,
                 d.clients[k])
  {
    PlanIsFor(c.s, order, c.clients[k].req);
  }

  predicate NoReload(step: Step) { step.Atomic? ==> !step.call.Load? }

  ghost predicate PriorKnown(comps: map<CompositionId, Composition>, cl: Client)
  {
    && (cl.Asked? || cl.Composed? ==> cl.prior in comps)
    && (PastRelease(cl) ==> cl.found)
  }

  ghost predicate PriorsKnown(c: Config)
  {
    forall k :: k in c.clients ==> PriorKnown(c.s.comps, c.clients[k])
  }

  lemma OperationKeepsCompositions(s: E.State, call: Call)
    requires !call.Load?
    ensures s.comps.Keys <= Operation(s, call).comps.Keys
  {
    if IsInvalidation(call) {
      InvalidationDemotes(s, call);
    } else {
      match call
      case Reserve(plan) => ReserveKeepsCompositions(s, plan);
      case Commit(vid) => CommitKeepsCompositions(s, vid);
      case Activate(cid) => ActivateKeepsCompositions(s, cid);
      case BeginDrain(cid) => EndingKeepsCompositions(s, cid);
      case EndDrain(cid) => EndingKeepsCompositions(s, cid);
      case Release(cid) => ReleaseKeepsCompositions(s, cid);
    }
  }

  lemma EndingKeepsCompositions(s: E.State, cid: CompositionId)
    ensures s.comps.Keys <= E.BeginDrain(s, cid).0.comps.Keys
    ensures s.comps.Keys <= E.EndDrain(s, cid).0.comps.Keys
  {
  }

  lemma ReleaseKeepsCompositions(s: E.State, cid: CompositionId)
    ensures s.comps.Keys <= E.Release(s, cid).0.comps.Keys
  {
  }

  lemma ActivateKeepsCompositions(s: E.State, cid: CompositionId)
    ensures s.comps.Keys <= E.Activate(s, cid).0.comps.Keys
  {
  }

  lemma ReserveKeepsCompositions(s: E.State, plan: Plan)
    ensures s.comps.Keys <= E.Reserve(s, plan).0.comps.Keys
  {
  }

  lemma CommitKeepsCompositions(s: E.State, vid: ReservationId)
    ensures s.comps.Keys <= E.Commit(s, vid).0.comps.Keys
  {
  }

  lemma AdvanceKeepsPrior(s: E.State, cl: Client)
    requires !cl.Asked? && PriorKnown(s.comps, cl)
    ensures var (t, cl') := Advance(s, cl);
            s.comps.Keys <= t.comps.Keys && PriorKnown(s.comps, cl')
  {
  }

  lemma PriorMoves(c: Config, d: Config, k: nat, cl: Client)
    requires PriorsKnown(c) && c.s.comps.Keys <= d.s.comps.Keys
    requires d.clients == c.clients || (d.clients == c.clients[k := cl] && PriorKnown(c.s.comps, cl))
    ensures PriorsKnown(d)
  {
  }

  lemma AnsweredKeepsPriors(c: Config, d: Config, k: nat, prior: CompositionId, plan: Option<Plan>,
                            before: set<CompositionId>)
    requires PriorsKnown(c) && prior in c.s.comps
    requires if plan.None? then d == c else HandsOut(c, d, plan.value)
    ensures PriorsKnown(Answered(d, k, prior, plan, before))
  {
  }

  lemma AskKeepsPriors(c: Config, k: nat, order: seq<ResourceId>, prior: CompositionId, req: Request)
    requires PriorsKnown(c) && prior in c.s.comps
    ensures PriorsKnown(Ask(c, k, order, prior, req))
  {
    if Enumerates(order, c.s.resources) {
      ComposeHandsOut(c, order, req);
      var (d, plan) := ComposeIn(c, order, req);
      AnsweredKeepsPriors(c, d, k, prior, plan, c.issued.Keys);
    }
  }

  lemma SectionKeepsPriors(c: Config, k: nat, order: seq<ResourceId>)
    requires PriorsKnown(c)
    ensures PriorsKnown(Section(c, k, order))
  {
    if k in c.clients {
      var cl := c.clients[k];
      if cl.Asked? {
        AskKeepsPriors(c, k, order, cl.prior, cl.req);
      } else {
        AdvanceKeepsPrior(c.s, cl);
        PriorMoves(c, Section(c, k, order), k, Advance(c.s, cl).1);
      }
    }
  }

  lemma CoreKeepsPriors(c: Config, step: Step)
    requires PriorsKnown(c) && NoReload(step)
    ensures PriorsKnown(Core(c, step))
  {
    match step
    case Atomic(call) =>
      OperationKeepsCompositions(c.s, call);
      PriorMoves(c, Core(c, step), 0, ReturnedFalse);
    case Compose(order, req) =>
      ComposeHandsOut(c, order, req);
      PriorMoves(c, Core(c, step), 0, ReturnedFalse);
    case RecomputeCall(k, cid) =>
      PriorMoves(c, Core(c, step), k, if cid in c.s.comps then Asked(cid, c.s.comps[cid].request) else ReturnedFalse);
    case RecomputeSection(k, order) => SectionKeepsPriors(c, k, order);
  }

  /** Without a reload in the run, the releasing section always finds, and so fences, the old composition. */
  lemma PriorAlwaysFound(epoch: Epoch, run: seq<Step>, k: nat)
    requires forall step :: step in run ==> NoReload(step)
    ensures var c := Reached(epoch, run); k in c.clients && PastRelease(c.clients[k]) ==> c.clients[k].found
  {
    assert PriorsKnown(Start(epoch));
    PriorsKnownFrom(Start(epoch), run);
  }

  lemma {:induction false} PriorsKnownFrom(c: Config, run: seq<Step>)
    requires PriorsKnown(c) && forall step :: step in run ==> NoReload(step)
    ensures PriorsKnown(Exec(Next, c, run))
    decreases |run|
  {
    if run != [] {
      CoreKeepsPriors(c, run[0]);
      assert run[0] in run && forall step :: step in run[1..] ==> step in run;
      PriorsKnownFrom(Next(c, run[0]), run[1..]);
    }
  }
}
