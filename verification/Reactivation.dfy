/** Which compositions can become ACTIVE: from any reachable state, exactly the ids that are not fenced. */
module Reactivation {
  import opened FabricTypes
  import opened Eligibility
  import opened PlannerTheorems
  import opened PlanTheorems
  import opened RunTheory
  import E = Engine
  import opened Runs
  import opened AuthorityTheorems
  import opened Progress

  /** A number above every element of a finite set. */
  lemma {:induction false} Beyond(s: set<nat>) returns (n: nat)
    ensures n > 0 && forall x :: x in s ==> x < n
    decreases |s|
  {
    if s == {} {
      n := 1;
    } else {
      var x :| x in s;
      n := Beyond(s - {x});
      assert forall y :: y in s ==> y in s - {x} || y == x;
      if n <= x { n := x + 1; }
    }
  }

  // ---- a fresh machine and a plan bound to it ----------------------------------

  function FreshMachine(rid: ResourceId): Resource
  {
    Resource(rid, 1, Compute, 1, [], [], Capacity(1.0, 0.0, 0.0, 0.0, 0.0, 0.0), Healthy, Ready, Reachable, "",
             Evidence(1, Fresh, 1000, "", "", false))
  }

  const ANY_UNIT: Request := Request(1, 0, [], 0.0, 0.0, 0.0, 0.0, 0, 0.0, 0.0, {}, false, false, NoTopology, 0, 1)

  function PlanOn(rid: ResourceId, id: CompositionId, epoch: Epoch): Plan
  {
    Plan(id, id, Graph([rid], []), ANY_UNIT, 0.0, Authority(epoch, 1, id, [1], [], [], [], [], []), Planned, [])
  }

  lemma FreshMachineIsReady(s: E.State, rid: ResourceId, id: CompositionId)
    requires rid != 0 && rid !in s.resources && rid !in s.held && id != 0 && id !in s.fenced
    ensures var t := E.IngestResource(s, FreshMachine(rid));
            t == s.(resources := s.resources[rid := FreshMachine(rid)]) && Progress.Ready(t, PlanOn(rid, id, s.epoch))
  {
    var r := FreshMachine(rid);
    EligibleMeans(r, ANY_UNIT);
    assert forall k :: k in ClassCapabilityKinds(Compute) ==> FindCapability(r.capabilities, k).None?;
  }

  // ---- what the client path leaves alone ---------------------------------------

  ghost predicate OthersKept(s: E.State, t: E.State, id: CompositionId)
  {
    forall other :: other != id && other in s.comps ==> other in t.comps && t.comps[other] == s.comps[other]
  }

  lemma ReserveKeepsOthers(s: E.State, plan: Plan)
    ensures OthersKept(s, E.Reserve(s, plan).0, plan.id)
  {
  }

  lemma CommitKeepsOthers(s: E.State, vid: ReservationId)
    requires vid in s.resvs
    ensures OthersKept(s, E.Commit(s, vid).0, s.resvs[vid].composition)
  {
  }

  lemma ActivateKeepsOthers(s: E.State, cid: CompositionId)
    ensures OthersKept(s, E.Activate(s, cid).0, cid)
  {
  }

  lemma ActivateKeepsFences(s: E.State, cid: CompositionId)
    ensures E.Activate(s, cid).0.fenced == s.fenced
  {
  }

  lemma ClientPathActivates(s: E.State, plan: Plan)
    requires Progress.Ready(s, plan)
    ensures var t := E.Reserve(s, plan).0;
            var w := E.Activate(E.Commit(t, s.nextResv).0, plan.id).0;
            IsActive(w, plan.id) && OthersKept(s, w, plan.id) && w.fenced == s.fenced
  {
    ReserveSucceeds(s, plan);
    var (t, r) := E.Reserve(s, plan);
    assert r.reservation.id == s.nextResv;
    CommitSucceeds(s, t, plan, r.reservation);
    var u := E.Commit(t, s.nextResv).0;
    ActivateSucceeds(s, u, plan, r.reservation);
    ReserveKeepsOthers(s, plan);
    CommitKeepsOthers(t, s.nextResv);
    ActivateKeepsOthers(u, plan.id);
    ActivateKeepsFences(u, plan.id);
  }

  // ---- the run -----------------------------------------------------------------

  lemma AtomicNext(c: Config, call: Call)
    ensures var d := Next(c, Atomic(call)); d.s == Operation(c.s, call) && d.clients == c.clients
  {
  }

  ghost function FourCalls(a: Call, b: Call, c: Call, d: Call): seq<Step>
  {
    [Atomic(a), Atomic(b), Atomic(c), Atomic(d)]
  }

  lemma FourNext(c: Config, p: Call, q: Call, r: Call, t: Call)
    ensures var d := Exec(Next, c, FourCalls(p, q, r, t));
            && d.s == Operation(Operation(Operation(Operation(c.s, p), q), r), t)
            && d.clients == c.clients
  {
    ExecFour(Next, c, Atomic(p), Atomic(q), Atomic(r), Atomic(t));
    var c1 := Next(c, Atomic(p));
    var c2 := Next(c1, Atomic(q));
    var c3 := Next(c2, Atomic(r));
    AtomicNext(c, p);
    AtomicNext(c1, q);
    AtomicNext(c2, r);
    AtomicNext(c3, t);
  }

  /** What a continuation that activates `id` does. */
  ghost predicate Activates(c: Config, more: seq<Step>, id: CompositionId)
  {
    var d := Exec(Next, c, more);
    && IsActive(d.s, id) && d.clients == c.clients && d.s.fenced == c.s.fenced
    && forall other :: other != id && IsActive(c.s, other) ==> IsActive(d.s, other)
  }

  /** The state after the four calls. */
  ghost function Revived(s: E.State, rid: ResourceId, id: CompositionId): E.State
  {
    var plan := PlanOn(rid, id, s.epoch);
    var t := E.IngestResource(s, FreshMachine(rid));
    E.Activate(E.Commit(E.Reserve(t, plan).0, s.nextResv).0, id).0
  }

  lemma RevivedIsActive(s: E.State, rid: ResourceId, id: CompositionId)
    requires rid != 0 && rid !in s.resources && rid !in s.held && id != 0 && id !in s.fenced
    ensures var t := Revived(s, rid, id); IsActive(t, id) && OthersKept(s, t, id) && t.fenced == s.fenced
  {
    FreshMachineIsReady(s, rid, id);
    ClientPathActivates(E.IngestResource(s, FreshMachine(rid)), PlanOn(rid, id, s.epoch));
  }

  ghost function RevivingRun(s: E.State, rid: ResourceId, id: CompositionId): seq<Step>
  {
    FourCalls(IngestResource(FreshMachine(rid)), Reserve(PlanOn(rid, id, s.epoch)), Commit(s.nextResv), Activate(id))
  }

  lemma RunRevives(c: Config, rid: ResourceId, id: CompositionId)
    ensures var d := Exec(Next, c, RevivingRun(c.s, rid, id));
            d.s == Revived(c.s, rid, id) && d.clients == c.clients
  {
    var plan := PlanOn(rid, id, c.s.epoch);
    FourNext(c, IngestResource(FreshMachine(rid)), Reserve(plan), Commit(c.s.nextResv), Activate(id));
  }

  /** Any id but zero that is not fenced can be made ACTIVE: register a fresh machine, then reserve,
      commit and activate a plan bound to it.  What was ACTIVE stays so, and nothing is fenced. */
  lemma Revive(c: Config, id: CompositionId) returns (more: seq<Step>)
    requires id != 0 && id !in c.s.fenced
    ensures Activates(c, more, id)
  {
    var rid := Beyond(c.s.resources.Keys + c.s.held.Keys);
    assert rid !in c.s.resources && rid !in c.s.held;
    RevivedIsActive(c.s, rid, id);
    RunRevives(c, rid, id);
    more := RevivingRun(c.s, rid, id);
  }

  /** From any reachable state, an id can become ACTIVE in some continuation if and only if it is not fenced. */
  lemma ActivatableIff(epoch: Epoch, run: seq<Step>, id: CompositionId)
    requires id != 0
    ensures (exists more :: IsActive(Reached(epoch, run + more).s, id)) <==> id !in Reached(epoch, run).s.fenced
  {
    var c := Reached(epoch, run);
    if id in c.s.fenced {
      forall more ensures !IsActive(Reached(epoch, run + more).s, id) { FencedNeverActive(epoch, run, more, id); }
    } else {
      var more := Revive(c, id);
      ExecAppend(Next, Start(epoch), run, more);
      assert IsActive(Reached(epoch, run + more).s, id);
    }
  }

  /** From any reachable state, two ids can be ACTIVE together in some continuation if and only if neither
      is fenced: Recompute keeps its old composition apart from the replacement by the fence alone. */
  lemma BothActivatableIff(epoch: Epoch, run: seq<Step>, prior: CompositionId, next: CompositionId)
    requires prior != 0 && next != 0
    ensures (exists more :: var s := Reached(epoch, run + more).s; IsActive(s, prior) && IsActive(s, next)) <==>
              var s := Reached(epoch, run).s; prior !in s.fenced && next !in s.fenced
  {
    var c := Reached(epoch, run);
    if prior in c.s.fenced || next in c.s.fenced {
      forall more ensures var s := Reached(epoch, run + more).s; !(IsActive(s, prior) && IsActive(s, next)) {
        if prior in c.s.fenced {
          FencedNeverActive(epoch, run, more, prior);
        } else {
          FencedNeverActive(epoch, run, more, next);
        }
      }
    } else {
      var first := Revive(c, prior);
      var second := Revive(Exec(Next, c, first), next);
      ExecAppend(Next, c, first, second);
      ExecAppend(Next, Start(epoch), run, first + second);
      assert var s := Reached(epoch, run + (first + second)).s; IsActive(s, prior) && IsActive(s, next);
    }
  }
}
