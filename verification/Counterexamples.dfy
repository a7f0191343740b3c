/** Runs that break exclusivity or the ledger with one step outside the discipline.

    Release and Recompute's releasing section subtract a composition's items from the ledger without
    looking at the state of its reservation.  When that reservation is no longer live, another
    composition may hold the same resource, and its hold is given away: a third one can reserve it. */
module Counterexamples {
  import opened FabricTypes
  import opened Eligibility
  import opened Candidates
  import opened RunTheory
  import E = Engine
  import opened Runs
  import opened Books
  import opened Restart
  import opened OneMachine
  import opened AuthorityInvariant
  import opened Progress
  import opened Reactivation

  const PLAN_STEP: Step := Compose([1], ONE_UNIT)

  // ---- following a run ---------------------------------------------------------

  /** The run is disciplined and leads to `c`. */
  ghost predicate LeadsTo(run: seq<Step>, c: Config) { DisciplinedRun(1, run) && Reached(1, run) == c }

  lemma Follow(run: seq<Step>, c: Config, step: Step)
    requires LeadsTo(run, c) && Disciplined(c, step)
    ensures LeadsTo(run + [step], Next(c, step))
  {
    OneMore(Next, Disciplined, Start(1), run, step);
  }

  lemma AtomicStep(c: Config, call: Call)
    ensures var d := Next(c, Atomic(call));
        d.s == Operation(c.s, call) && d.issued == c.issued && d.clients == c.clients
  {
  }

  /** One machine, unheld or held, and the plans handed out so far. */
  ghost predicate Board(c: Config, plans: nat, held: real)
  {
    && c.s.resources == TABLE && E.HeldOf(c.s.held, 1) == held && c.s.nextComp == plans + 1
    && forall id :: 1 <= id <= plans ==> id in c.issued && PlanFor(c.issued[id], id)
  }

  /** `d` is `c` with one more plan handed out. */
  ghost predicate OnePlanMore(c: Config, d: Config, plans: nat, held: real)
  {
    && Board(d, plans + 1, held) && d.clients == c.clients && d.s == c.s.(nextComp := plans + 2)
    && forall id :: 1 <= id <= plans ==> id in c.issued && id in d.issued && d.issued[id] == c.issued[id]
  }

  lemma RecordPlan(c: Config, plan: Plan, plans: nat, held: real)
    requires Board(c, plans, held) && PlanFor(plan, plans + 1)
    ensures var e := Record(c, c.s.(nextComp := plans + 2), Some(plan)).0;
            OnePlanMore(c, e, plans, held) && e.issued[plans + 1] == plan
  {
  }

  /** Composing for the machine hands out the next plan. */
  lemma ComposeInMachine(c: Config, plans: nat, held: real)
    requires Board(c, plans, held)
    ensures var (e, plan) := ComposeIn(c, [1], ONE_UNIT);
            plan.Some? && OnePlanMore(c, e, plans, held) && e.issued[plans + 1] == plan.value
  {
    TableIsOrdered();
    PlansTheMachine(c.s);
    var (t, plan) := E.Compose(c.s, [1], ONE_UNIT);
    RecordPlan(c, plan.value, plans, held);
  }

  lemma ComposeStep(c: Config, order: seq<ResourceId>, req: Request)
    ensures var d := Next(c, Compose(order, req));
            var e := ComposeIn(c, order, req).0;
            d.s == e.s && d.issued == e.issued && d.clients == e.clients
  {
  }

  lemma PlanOne(c: Config, plans: nat, held: real)
    requires Board(c, plans, held)
    ensures OnePlanMore(c, Next(c, PLAN_STEP), plans, held)
  {
    ComposeInMachine(c, plans, held);
    ComposeStep(c, [1], ONE_UNIT);
  }

  lemma Register() returns (run: seq<Step>, c: Config)
    ensures LeadsTo(run, c) && Board(c, 0, 0.0) && c.clients == map[]
    ensures c.s == E.Init(1).(resources := TABLE)
  {
    var step := Atomic(IngestResource(MACHINE));
    Follow([], Start(1), step);
    AtomicStep(Start(1), IngestResource(MACHINE));
    run, c := [] + [step], Next(Start(1), step);
    assert c.s.resources == TABLE;
  }

  lemma ReserveStep(c: Config, plan: Plan, plans: nat)
    requires Board(c, plans, 0.0) && 1 <= plan.id <= plans && plan == c.issued[plan.id]
    ensures var d := Next(c, Atomic(Reserve(plan)));
            && Disciplined(c, Atomic(Reserve(plan))) && Board(d, plans, 1.0) && d.issued == c.issued &&
                 d.clients == c.clients
            && d.s == E.Reserve(c.s, plan).0
            && d.s.nextResv == c.s.nextResv + 1
            && d.s.resvs == c.s.resvs[c.s.nextResv := Reservation(c.s.nextResv, plan.id, [Item(1, Provisional, 1.0)],
                 Provisional)]
            && d.s.comps == c.s.comps[plan.id := E.NewComposition(plan, c.s.nextSet, c.s.nextResv)]
  {
    ReserveMachine(c.s, plan);
    AtomicStep(c, Reserve(plan));
    ReserveKeepsCounter(c.s, plan);
  }

  lemma ReserveKeepsCounter(s: E.State, plan: Plan)
    ensures E.Reserve(s, plan).0.nextComp == s.nextComp
  {
  }

  /** Composition 1 lists the machine in reservation 1. */
  ghost predicate FirstIs(s: E.State, l: Lifecycle, state: ReservationState)
  {
    && 1 in s.comps && s.comps[1].lifecycle == l && s.comps[1].reservation == 1 && s.comps[1].request == ONE_UNIT
    && 1 in s.resvs && s.resvs[1] == Reservation(1, 1, [Item(1, Provisional, 1.0)], state)
  }

  /** Registered, planned and reserved: one disciplined run to a state in which composition 1 holds. */
  lemma FirstReserves(plans: nat) returns (run: seq<Step>, c: Config)
    requires plans == 1 || plans == 3
    ensures LeadsTo(run, c) && Board(c, plans, 1.0) && c.clients == map[]
    ensures FirstIs(c.s, Reserved, Provisional) && c.s.nextResv == 2 && c.s.comps.Keys == {1} && c.s.resvs.Keys == {1}
  {
    run, c := Register();
    for n := 0 to plans
      invariant LeadsTo(run, c) && Board(c, n, 0.0) && c.clients == map[]
      invariant c.s == E.Init(1).(resources := TABLE, nextComp := n + 1)
    {
      Follow(run, c, PLAN_STEP);
      PlanOne(c, n, 0.0);
      run, c := run + [PLAN_STEP], Next(c, PLAN_STEP);
    }
    var step := Atomic(Reserve(c.issued[1]));
    ReserveStep(c, c.issued[1], plans);
    Follow(run, c, step);
    run, c := run + [step], Next(c, step);
  }

  /** One step outside the discipline, `bad`, and two compositions hold the same machine. */
  ghost predicate Breaks(good: seq<Step>, bad: Step, more: seq<Step>)
  {
    && DisciplinedRun(1, good)
    && var c := Next(Reached(1, good), bad);
    && Allowed(Next, Disciplined, c, more)
    && Shared(Exec(Next, c, more).s)
  }

  /** Two compositions that hold the same machine. */
  ghost predicate Shared(s: E.State)
  {
    && 2 in s.comps && 3 in s.comps && s.comps[2].lifecycle == Reserved && s.comps[3].lifecycle == Reserved
    && 1 in s.comps[2].graph.vertices && 1 in s.comps[3].graph.vertices
  }

  lemma LastStep(c: Config, step: Step)
    requires Disciplined(c, step)
    ensures Allowed(Next, Disciplined, c, [step]) && Exec(Next, c, [step]) == Next(c, step)
  {
    assert Allowed(Next, Disciplined, c, []);
    OneMore(Next, Disciplined, c, [], step);
    assert [] + [step] == [step];
  }

  // ---- Release after a roll-back -----------------------------------------------

  lemma StaleStep(c: Config, plans: nat)
    requires Board(c, plans, 1.0) && FirstIs(c.s, Reserved, Provisional)
    ensures var d := Next(c, Atomic(InvalidateEvidence(1)));
            && Disciplined(c, Atomic(InvalidateEvidence(1)))
            && d.s == c.s.(resources := TABLE[1 := MACHINE.(evidence := E.Revalidation(MACHINE.evidence))])
            && d.issued == c.issued
  {
    AtomicStep(c, InvalidateEvidence(1));
  }

  lemma RollBackStep(c: Config)
    requires c.s.resources == TABLE[1 := MACHINE.(evidence := E.Revalidation(MACHINE.evidence))]
    requires FirstIs(c.s, Reserved, Provisional) && E.HeldOf(c.s.held, 1) == 1.0
    ensures var d := Next(c, Atomic(Commit(1)));
            && Disciplined(c, Atomic(Commit(1))) && FirstIs(d.s, RevalidationRequired, RolledBack) &&
                 E.HeldOf(d.s.held, 1) == 0.0
            && d.s.nextResv == c.s.nextResv && d.s.nextComp == c.s.nextComp && d.s.resources == c.s.resources &&
                 d.issued == c.issued
  {
    CommitStale(c.s);
    AtomicStep(c, Commit(1));
  }

  lemma ReturnStep(c: Config, plans: nat)
    requires c.s.resources == TABLE[1 := MACHINE.(evidence := E.Revalidation(MACHINE.evidence))]
    requires FirstIs(c.s, RevalidationRequired, RolledBack) && E.HeldOf(c.s.held, 1) == 0.0 && c.s.nextComp == plans + 1
    requires forall id :: 1 <= id <= plans ==> id in c.issued && PlanFor(c.issued[id], id)
    ensures var d := Next(c, Atomic(IngestResource(MACHINE)));
            && Disciplined(c, Atomic(IngestResource(MACHINE))) && Board(d, plans, 0.0)
            && FirstIs(d.s, RevalidationRequired, RolledBack) && d.s.nextResv == c.s.nextResv && d.issued == c.issued
  {
    AtomicStep(c, IngestResource(MACHINE));
    assert TABLE[1 := MACHINE.(evidence := E.Revalidation(MACHINE.evidence))][1 := MACHINE] == TABLE;
  }

  /** Composition 1 has been rolled back, and three plans are out. */
  lemma FirstRollsBack() returns (run: seq<Step>, c: Config)
    ensures LeadsTo(run, c) && c.s.resources == TABLE[1 := MACHINE.(evidence := E.Revalidation(MACHINE.evidence))]
    ensures FirstIs(c.s, RevalidationRequired, RolledBack) && E.HeldOf(c.s.held, 1) == 0.0 && c.s.nextComp == 4 &&
        c.s.nextResv == 2
    ensures forall id :: 1 <= id <= 3 ==> id in c.issued && PlanFor(c.issued[id], id)
  {
    run, c := FirstReserves(3);
    StaleStep(c, 3);
    Follow(run, c, Atomic(InvalidateEvidence(1)));
    run, c := run + [Atomic(InvalidateEvidence(1))], Next(c, Atomic(InvalidateEvidence(1)));
    RollBackStep(c);
    Follow(run, c, Atomic(Commit(1)));
    run, c := run + [Atomic(Commit(1))], Next(c, Atomic(Commit(1)));
  }

  lemma SecondTakes(c: Config)
    requires Board(c, 3, 0.0) && FirstIs(c.s, RevalidationRequired, RolledBack) && c.s.nextResv != 1
    ensures var d := Next(c, Atomic(Reserve(c.issued[2])));
            && Disciplined(c, Atomic(Reserve(c.issued[2])))
            && Board(d, 3, 1.0) && FirstIs(d.s, RevalidationRequired, RolledBack)
            && 2 in d.s.comps && d.s.comps[2].lifecycle == Reserved && d.s.comps[2].graph.vertices == [1]
  {
    ReserveStep(c, c.issued[2], 3);
  }

  /** The machine is back, and composition 2 holds it. */
  lemma SecondHoldsAfterRollBack() returns (run: seq<Step>, c: Config)
    ensures LeadsTo(run, c) && Board(c, 3, 1.0) && FirstIs(c.s, RevalidationRequired, RolledBack)
    ensures 2 in c.s.comps && c.s.comps[2].lifecycle == Reserved && c.s.comps[2].graph.vertices == [1]
  {
    run, c := FirstRollsBack();
    ReturnStep(c, 3);
    Follow(run, c, Atomic(IngestResource(MACHINE)));
    run, c := run + [Atomic(IngestResource(MACHINE))], Next(c, Atomic(IngestResource(MACHINE)));
    SecondTakes(c);
    Follow(run, c, Atomic(Reserve(c.issued[2])));
    run, c := run + [Atomic(Reserve(c.issued[2]))], Next(c, Atomic(Reserve(c.issued[2])));
  }

  lemma ReleaseGivesAway(c: Config)
    requires Board(c, 3, 1.0) && FirstIs(c.s, RevalidationRequired, RolledBack) && 2 in c.s.comps
    ensures var d := Next(c, Atomic(Release(1)));
            Board(d, 3, 0.0) && d.issued == c.issued && 2 in d.s.comps && d.s.comps[2] == c.s.comps[2]
  {
    AtomicStep(c, Release(1));
    assert Operation(c.s, Release(1)) == E.Release(c.s, 1).0;
    ReleaseFirst(c.s);
  }

  lemma ThirdReserves(c: Config)
    requires Board(c, 3, 0.0) && 2 in c.s.comps && c.s.comps[2].lifecycle == Reserved &&
        c.s.comps[2].graph.vertices == [1]
    ensures Disciplined(c, Atomic(Reserve(c.issued[3]))) && Shared(Next(c, Atomic(Reserve(c.issued[3]))).s)
  {
    ReserveStep(c, c.issued[3], 3);
  }

  /** A run whose only step outside the discipline is a Release: afterwards two compositions hold one machine. */
  lemma UnguardedReleaseBreaksExclusivity() returns (good: seq<Step>, more: seq<Step>)
    ensures Breaks(good, Atomic(Release(1)), more)
  {
    var c;
    good, c := SecondHoldsAfterRollBack();
    ReleaseGivesAway(c);
    var d := Next(c, Atomic(Release(1)));
    ThirdReserves(d);
    LastStep(d, Atomic(Reserve(d.issued[3])));
    more := [Atomic(Reserve(d.issued[3]))];
  }

  // ---- two concurrent Recomputes -----------------------------------------------

  const TURN_0: Step := RecomputeSection(0, [1])
  const TURN_1: Step := RecomputeSection(1, [1])

  lemma CallStep(c: Config, k: nat)
    requires k !in c.clients && 1 in c.s.comps && c.s.comps[1].request == ONE_UNIT
    ensures var d := Next(c, RecomputeCall(k, 1));
            d.s == c.s && d.issued == c.issued && d.clients == c.clients[k := Asked(1, ONE_UNIT)]
  {
  }

  /** Call `k` has composed and was handed the next plan. */
  ghost predicate AskedOne(c: Config, d: Config, k: nat, plans: nat)
  {
    && Board(d, plans + 1, 1.0) && d.s == c.s.(nextComp := plans + 2)
    && d.clients == c.clients[k := Composed(1, d.issued[plans + 1], c.issued.Keys)]
    && forall id :: 1 <= id <= plans ==> id in c.issued && id in d.issued && d.issued[id] == c.issued[id]
  }

  lemma AskedFrom(c: Config, d: Config, e: Config, k: nat, plan: Plan, plans: nat)
    requires OnePlanMore(c, e, plans, 1.0) && e.issued[plans + 1] == plan
    requires d.s == e.s && d.issued == e.issued && d.clients == c.clients[k := Composed(1, plan, c.issued.Keys)]
    ensures AskedOne(c, d, k, plans)
  {
  }

  lemma NextSection(c: Config, k: nat, order: seq<ResourceId>)
    ensures var d, e := Next(c, RecomputeSection(k, order)), Section(c, k, order);
            d.s == e.s && d.issued == e.issued && d.clients == e.clients
  {
  }

  lemma AskedSection(c: Config, k: nat, order: seq<ResourceId>)
    requires k in c.clients && c.clients[k].Asked? && Enumerates(order, c.s.resources)
    ensures var (e, plan) := ComposeIn(c, order, c.clients[k].req);
            Section(c, k, order) == Answered(e, k, c.clients[k].prior, plan, c.issued.Keys)
  {
  }

  lemma AskRecords(c: Config, k: nat, order: seq<ResourceId>)
    requires k in c.clients && c.clients[k].Asked? && Enumerates(order, c.s.resources)
    requires ComposeIn(c, order, c.clients[k].req).1.Some?
    ensures var d := Next(c, RecomputeSection(k, order));
            var (e, plan) := ComposeIn(c, order, c.clients[k].req);
            && d.s == e.s && d.issued == e.issued
            && d.clients == e.clients[k := Composed(c.clients[k].prior, plan.value, c.issued.Keys)]
  {
    NextSection(c, k, order);
    AskedSection(c, k, order);
  }

  lemma AskStep(c: Config, k: nat, plans: nat)
    requires Board(c, plans, 1.0) && k in c.clients && c.clients[k] == Asked(1, ONE_UNIT)
    ensures AskedOne(c, Next(c, RecomputeSection(k, [1])), k, plans)
  {
    TableIsOrdered();
    ComposeInMachine(c, plans, 1.0);
    AskRecords(c, k, [1]);
    var (e, plan) := ComposeIn(c, [1], ONE_UNIT);
    AskedFrom(c, Next(c, RecomputeSection(k, [1])), e, k, plan.value, plans);
  }

  lemma FreeStep(c: Config, k: nat, l: Lifecycle, state: ReservationState)
    requires Board(c, 3, 1.0) && FirstIs(c.s, l, state) && k in c.clients && c.clients[k].Composed? &&
        c.clients[k].prior == 1
    ensures var d := Next(c, RecomputeSection(k, [1]));
            && Board(d, 3, 0.0) && FirstIs(d.s, Released, ReleasedHold) && d.issued == c.issued &&
                 d.s.nextResv == c.s.nextResv
            && d.clients == c.clients[k := Freed(1, c.clients[k].plan, c.clients[k].before, true)]
            && (forall id :: id in c.s.comps && id != 1 ==> id in d.s.comps && d.s.comps[id] == c.s.comps[id])
  {
    ReleaseOldMachine(c.s);
  }

  lemma TakeStep(c: Config, k: nat, n: nat)
    requires Board(c, 3, 0.0) && 1 <= n <= 3 && k in c.clients && c.clients[k].Freed? &&
        c.clients[k].plan == c.issued[n]
    ensures var d := Next(c, RecomputeSection(k, [1]));
            && Board(d, 3, 1.0) && d.issued == c.issued && d.s.nextResv == c.s.nextResv + 1
            && (forall i :: i in c.clients && i != k ==> i in d.clients && d.clients[i] == c.clients[i])
            && d.s.resvs == c.s.resvs[c.s.nextResv := Reservation(c.s.nextResv, n, [Item(1, Provisional, 1.0)],
                 Provisional)]
            && d.s.comps == c.s.comps[n := E.NewComposition(c.issued[n], c.s.nextSet, c.s.nextResv)]
  {
    ReserveMachine(c.s, c.issued[n]);
    ReserveKeepsCounter(c.s, c.issued[n]);
  }

  /** Both calls have composed: plans 2 and 3 are out, composition 1 still holds. */
  lemma BothAsked() returns (run: seq<Step>, c: Config)
    ensures LeadsTo(run, c) && Board(c, 3, 1.0) && FirstIs(c.s, Reserved, Provisional) && c.s.nextResv == 2 &&
        c.s.comps.Keys == {1}
    ensures 0 in c.clients && c.clients[0].Composed? && c.clients[0].prior == 1 && c.clients[0].plan == c.issued[2]
    ensures 1 in c.clients && c.clients[1].Composed? && c.clients[1].prior == 1 && c.clients[1].plan == c.issued[3]
  {
    run, c := FirstReserves(1);
    CallStep(c, 0);
    Follow(run, c, RecomputeCall(0, 1));
    run, c := run + [RecomputeCall(0, 1)], Next(c, RecomputeCall(0, 1));
    CallStep(c, 1);
    Follow(run, c, RecomputeCall(1, 1));
    run, c := run + [RecomputeCall(1, 1)], Next(c, RecomputeCall(1, 1));
    AskStep(c, 0, 1);
    Follow(run, c, TURN_0);
    run, c := run + [TURN_0], Next(c, TURN_0);
    AskStep(c, 1, 2);
    Follow(run, c, TURN_1);
    run, c := run + [TURN_1], Next(c, TURN_1);
  }

  /** The first call has released composition 1 and reserved its replacement. */
  lemma FirstCallHolds() returns (run: seq<Step>, c: Config)
    ensures LeadsTo(run, c) && Board(c, 3, 1.0) && FirstIs(c.s, Released, ReleasedHold)
    ensures 2 in c.s.comps && c.s.comps[2].lifecycle == Reserved && c.s.comps[2].graph.vertices == [1]
    ensures 1 in c.clients && c.clients[1].Composed? && c.clients[1].prior == 1 && c.clients[1].plan == c.issued[3]
  {
    run, c := BothAsked();
    FreeStep(c, 0, Reserved, Provisional);
    Follow(run, c, TURN_0);
    run, c := run + [TURN_0], Next(c, TURN_0);
    TakeStep(c, 0, 2);
    Follow(run, c, TURN_0);
    run, c := run + [TURN_0], Next(c, TURN_0);
  }

  /** Two concurrent Recomputes of one composition: the second release gives away what the first
      call's replacement holds, and both replacements end up holding the machine. */
  lemma ConcurrentRecomputesBreakExclusivity() returns (good: seq<Step>, more: seq<Step>)
    ensures Breaks(good, TURN_1, more)
  {
    var c;
    good, c := FirstCallHolds();
    FreeStep(c, 1, Released, ReleasedHold);
    var d := Next(c, TURN_1);
    TakeStep(d, 1, 3);
    LastStep(d, TURN_1);
    more := [TURN_1];
  }

  // ---- a reload while something is held ----------------------------------------

  /** A disciplined run after which every reload leaves the ledger and the reservations in disagreement. */
  lemma ReloadOrphansHolds() returns (run: seq<Step>)
    ensures DisciplinedRun(1, run)
    ensures forall d :: var t := E.Load(Reached(1, run).s, d); !Exact(t.resvs, t.held, t.nextResv)
  {
    var c;
    run, c := FirstReserves(1);
    forall d ensures var t := E.Load(Reached(1, run).s, d); !Exact(t.resvs, t.held, t.nextResv) {
      LoadIsExactIff(c.s, d);
    }
  }

  // ---- a reload between Recompute's sections -----------------------------------

  /** A released composition, as a file may hold it. */
  const OLD: Composition :=
    Composition(1, 1, 0, Graph([], []), ONE_UNIT, Authority(1, 1, 1, [], [], [], [], [], []), Released, 0.0, 0, [],
                OutcomeUnknown)

  function FileOf(epoch: Epoch, cs: seq<Composition>): E.Durable { E.Durable(epoch, [], [], map[], cs) }

  /** Nothing is held and nothing fenced. */
  ghost predicate Free(s: E.State) { E.HeldOf(s.held, 1) == 0.0 && s.fenced == {} }

  lemma LoadOld(c: Config)
    requires c == Start(1)
    ensures var d := Next(c, Atomic(Load(FileOf(1, [OLD]))));
            && Free(d.s) && d.s.resources == map[] && d.s.nextComp == 2 && d.clients == map[]
            && d.s.comps == map[1 := OLD]
  {
    AtomicStep(c, Load(FileOf(1, [OLD])));
    assert [OLD][..0] == [];
    assert E.LoadComps([OLD]) == map[1 := E.LoadedComposition(OLD)];
    assert E.Above(1, [OLD]) == 2;
    assert E.LoadResources([]) == map[];
  }

  lemma LoadNothing(c: Config, epoch: Epoch)
    requires Free(c.s)
    ensures var d := Next(c, Atomic(Load(FileOf(epoch, []))));
            && Free(d.s) && d.s.resources == map[] && d.s.comps == map[] && d.s.epoch == epoch && d.clients == c.clients
  {
    AtomicStep(c, Load(FileOf(epoch, [])));
  }

  lemma FirstMachine(c: Config)
    requires Free(c.s) && c.s.resources == map[]
    ensures var d := Next(c, Atomic(IngestResource(MACHINE)));
            && Free(d.s) && d.s.resources == TABLE && d.s.comps == c.s.comps && d.clients == c.clients
            && d.s.nextComp == c.s.nextComp && d.s.epoch == c.s.epoch
  {
    AtomicStep(c, IngestResource(MACHINE));
  }

  /** The composing section, whatever has been issued before. */
  lemma AskAny(c: Config, k: nat) returns (plan: Plan)
    requires Free(c.s) && c.s.resources == TABLE && k in c.clients && c.clients[k] == Asked(1, ONE_UNIT)
    ensures PlanFor(plan, c.s.nextComp)
    ensures var d := Next(c, RecomputeSection(k, [1]));
            Free(d.s) && d.s.resources == TABLE && d.clients == c.clients[k := Composed(1, plan, c.issued.Keys)]
  {
    TableIsOrdered();
    PlansTheMachine(c.s);
    plan := ComposeIn(c, [1], ONE_UNIT).1.value;
    AskRecords(c, k, [1]);
    ComposeHandsOut(c, [1], ONE_UNIT);
  }

  /** A Recompute call whose old composition has gone from the tables in the meantime. */
  ghost predicate Orphan(c: Config, plan: Plan)
  {
    && Free(c.s) && c.s.resources == TABLE && c.s.comps == map[] && c.s.epoch == plan.authority.epoch
    && PlanFor(plan, 2) && 0 in c.clients
    && c.clients[0].Composed? && c.clients[0].prior == 1 && c.clients[0].plan == plan
  }

  lemma OrphanCall() returns (run: seq<Step>, plan: Plan)
    ensures Orphan(Reached(1, run), plan)
  {
    var c0 := Start(1);
    LoadOld(c0);
    var c1 := Next(c0, Atomic(Load(FileOf(1, [OLD]))));
    FirstMachine(c1);
    var c2 := Next(c1, Atomic(IngestResource(MACHINE)));
    CallStep(c2, 0);
    var c3 := Next(c2, RecomputeCall(0, 1));
    plan := AskAny(c3, 0);
    var c4 := Next(c3, TURN_0);
    LoadNothing(c4, plan.authority.epoch);
    var c5 := Next(c4, Atomic(Load(FileOf(plan.authority.epoch, []))));
    FirstMachine(c5);
    var first := [Atomic(Load(FileOf(1, [OLD]))), Atomic(IngestResource(MACHINE)), RecomputeCall(0, 1), TURN_0];
    var second := [Atomic(Load(FileOf(plan.authority.epoch, []))), Atomic(IngestResource(MACHINE))];
    ExecFour(Next, c0, first[0], first[1], first[2], first[3]);
    ExecAppend(Next, c0, first, second);
    assert second[1..] == [Atomic(IngestResource(MACHINE))] && second[1..][1..] == [];
    assert Exec(Next, c5, second[1..]) == Exec(Next, Next(c5, Atomic(IngestResource(MACHINE))), []);
    run := first + second;
  }

  lemma SectionStep(c: Config, k: nat)
    requires k in c.clients && !c.clients[k].Asked?
    ensures var d := Next(c, RecomputeSection(k, [1]));
            var (s, cl) := Advance(c.s, c.clients[k]);
            d.s == s && d.clients == c.clients[k := cl]
  {
  }

  lemma OrphanIsReady(s: E.State, plan: Plan)
    requires Free(s) && s.resources == TABLE && s.epoch == plan.authority.epoch && PlanFor(plan, 2)
    ensures Progress.Ready(s, plan)
  {
    EligibleMeans(MACHINE, ONE_UNIT);
    assert forall k :: k in ClassCapabilityKinds(Compute) ==> FindCapability(MACHINE.capabilities, k).None?;
  }

  /** What Recompute has returned: true, without having found the old composition, which is not fenced. */
  ghost predicate ReturnedUnfound(c: Config)
  {
    && 0 in c.clients && c.clients[0].ReturnedTrue? && c.clients[0].prior == 1 && c.clients[0].plan.id == 2
    && !c.clients[0].found && IsActive(c.s, 2) && 1 !in c.s.fenced
  }

  /** The releasing section does not find composition 1 and changes nothing. */
  lemma OrphanReleases(c: Config, plan: Plan)
    requires Orphan(c, plan)
    ensures var d := Next(c, TURN_0);
            d.s == c.s && 0 in d.clients && d.clients[0] == Freed(1, plan, c.clients[0].before, false)
  {
    SectionStep(c, 0);
  }

  lemma OrphanReserves(c: Config, plan: Plan, before: set<CompositionId>) returns (v: Reservation)
    requires Progress.Ready(c.s, plan) && 0 in c.clients && c.clients[0] == Freed(1, plan, before, false)
    ensures var d := Next(c, TURN_0);
            && 0 in d.clients && d.clients[0] == Holding(1, plan, before, false, v.id)
            && Progress.HoldsAll(c.s, d.s, plan, v)
  {
    ReserveSucceeds(c.s, plan);
    v := E.Reserve(c.s, plan).1.reservation;
    SectionStep(c, 0);
  }

  lemma OrphanCommits(s: E.State, c: Config, plan: Plan, before: set<CompositionId>, v: Reservation)
    requires Progress.Ready(s, plan) && Progress.HoldsAll(s, c.s, plan, v)
    requires 0 in c.clients && c.clients[0] == Holding(1, plan, before, false, v.id)
    ensures var d := Next(c, TURN_0);
            && 0 in d.clients && d.clients[0] == Agreed(1, plan, before, false, plan.id)
            && Progress.Agrees(s, d.s, plan, v)
  {
    CommitSucceeds(s, c.s, plan, v);
    SectionStep(c, 0);
  }

  lemma OrphanActivates(s: E.State, c: Config, plan: Plan, before: set<CompositionId>, v: Reservation)
    requires Progress.Ready(s, plan) && Progress.Agrees(s, c.s, plan, v)
    requires 0 in c.clients && c.clients[0] == Agreed(1, plan, before, false, plan.id)
    ensures var d := Next(c, TURN_0);
            && 0 in d.clients && d.clients[0] == ReturnedTrue(1, plan, before, false)
            && IsActive(d.s, plan.id) && d.s.fenced == s.fenced
  {
    ActivateSucceeds(s, c.s, plan, v);
    ActivateKeepsFences(c.s, plan.id);
    SectionStep(c, 0);
  }

  /** The four remaining sections all succeed. */
  lemma OrphanReturnsTrue(c: Config, plan: Plan)
    requires Orphan(c, plan)
    ensures ReturnedUnfound(Exec(Next, c, [TURN_0, TURN_0, TURN_0, TURN_0]))
  {
    var before := c.clients[0].before;
    OrphanReleases(c, plan);
    var c1 := Next(c, TURN_0);
    OrphanIsReady(c1.s, plan);
    var v := OrphanReserves(c1, plan, before);
    var c2 := Next(c1, TURN_0);
    OrphanCommits(c1.s, c2, plan, before, v);
    var c3 := Next(c2, TURN_0);
    OrphanActivates(c1.s, c3, plan, before, v);
    ExecFour(Next, c, TURN_0, TURN_0, TURN_0, TURN_0);
  }

  /** A run with a reload between Recompute's sections: it returns true without having found, or fenced,
      the old composition, and later both that one and its replacement are ACTIVE. */
  lemma ReloadLetsBothBeActive() returns (run: seq<Step>)
    ensures var c := Reached(1, run);
            && 0 in c.clients && c.clients[0].ReturnedTrue? && c.clients[0].prior == 1 && c.clients[0].plan.id == 2
            && IsActive(c.s, 1) && IsActive(c.s, 2)
  {
    var before, plan := OrphanCall();
    var turns := [TURN_0, TURN_0, TURN_0, TURN_0];
    OrphanReturnsTrue(Reached(1, before), plan);
    ExecAppend(Next, Start(1), before, turns);
    var c := Reached(1, before + turns);
    var more := Revive(c, 1);
    ExecAppend(Next, Start(1), before + turns, more);
    run := before + turns + more;
  }
}
