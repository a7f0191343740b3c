/** Restart through the file: what a saved engine state is after Save, the bytes, and Load. */
module FileRestart {
  import opened Bytes
  import opened FabricTypes
  import opened RunTheory
  import E = Engine
  import opened Runs
  import opened Restart
  import opened Records
  import opened FileRecords
  import opened FileStates
  import opened FileAbstraction
  import opened FileTables

  /** The stored records `w` are the engine's durable tables, and can be written. */
  ghost predicate Stores(number: Doubles, s: E.State, w: WireDurable)
  {
    E.Saved(s, DurableIn(number, w)) && DurableSized(w) && DurableWritable(w)
  }

  /** The tables of `s` again: nothing ACTIVE or COMMITTED, only durable evidence kept, and every
      request without what the file leaves out. */
  ghost predicate ReloadedFromFile(s: E.State, t: E.State)
  {
    && t.epoch == s.epoch && t.nodes == s.nodes && t.policies == s.policies
    && t.resources.Keys == s.resources.Keys
    && (forall k :: k in s.resources ==> t.resources[k] == E.LoadedResource(s.resources[k]))
    && t.comps.Keys == s.comps.Keys
    && (forall k :: k in s.comps ==> t.comps[k] == E.LoadedComposition(Forgotten(s.comps[k])))
  }

  ghost function Forgetful(s: E.State): E.State { s.(comps := map k | k in s.comps :: Forgotten(s.comps[k])) }

  lemma ForgetfulIsSaved(s: E.State, d: E.Durable)
    requires Keyed(s) && E.Saved(s, d)
    ensures Keyed(Forgetful(s)) && E.Saved(Forgetful(s), d.(comps := MapSeq(Forgotten, d.comps)))
  {
    var t, cs := Forgetful(s), MapSeq(Forgotten, d.comps);
    forall c ensures c in cs <==> c in t.comps.Values {
      if c in cs {
        var i :| 0 <= i < |cs| && cs[i] == c;
        assert d.comps[i] in d.comps;
        var k :| k in s.comps && s.comps[k] == d.comps[i];
        assert t.comps[k] == c;
      }
      if c in t.comps.Values {
        var k :| k in t.comps && t.comps[k] == c;
        assert s.comps[k] in d.comps;
        var i :| 0 <= i < |d.comps| && d.comps[i] == s.comps[k];
        assert cs[i] == c;
      }
    }
  }

  lemma ForgetfulReload(s: E.State, d: E.Durable, into: E.State)
    requires Keyed(s) && E.Saved(s, d)
    ensures ReloadedFromFile(s, E.Load(into, d.(comps := MapSeq(Forgotten, d.comps))))
  {
    ForgetfulIsSaved(s, d);
    SaveThenLoad(Forgetful(s), d.(comps := MapSeq(Forgotten, d.comps)), into);
  }

  lemma LoadOfSaved(number: Doubles, w: WireDurable, into: E.State)
    requires DurableSized(w) && DurableFits(w)
    ensures LoadFrom(number, into, StateImage(w)) ==
              if DurableInTables(w) then (E.Load(into, DurableIn(number, ForgetDurable(w))), true) else (into, false)
  {
    SavedStateLoads(w);
  }

  /** What Load makes of the bytes Save writes for these records. */
  ghost predicate LoadsBack(number: Doubles, s: E.State, w: WireDurable, into: E.State)
    requires DurableSized(w)
  {
    var (t, ok) := LoadFrom(number, into, StateImage(w));
    && ok == DurableInTables(w)
    && if ok then ReloadedFromFile(s, t) else t == into
  }

  lemma StoredStateLoads(number: Doubles, s: E.State, w: WireDurable, into: E.State)
    requires Keyed(s) && Stores(number, s, w)
    ensures LoadsBack(number, s, w, into)
  {
    LoadOfSaved(number, w, into);
    ForgetDurableCommutes(number, w);
    ForgetfulReload(s, DurableIn(number, w), into);
  }

  /** Whatever records store the state and whichever engine they are loaded into. */
  ghost predicate Restarts(s: E.State)
  {
    forall number: Doubles, w: WireDurable, into: E.State :: Stores(number, s, w) ==> LoadsBack(number, s, w, into)
  }

  lemma KeyedStateRestarts(s: E.State)
    requires Keyed(s)
    ensures Restarts(s)
  {
    forall number: Doubles, w: WireDurable, into: E.State | Stores(number, s, w) ensures LoadsBack(number, s, w, into) {
      StoredStateLoads(number, s, w, into);
    }
  }

  /** Restart through the file.  From any reachable state, the bytes Save writes load into any engine
      as the same tables without what the file leaves out, if and only if every enumeration saved is
      in its table and every list within the bound; otherwise Load refuses and changes nothing. */
  lemma FileRoundTrip(epoch: Epoch, run: seq<Step>)
    ensures Restarts(Reached(epoch, run).s)
  {
    EveryRunIsKeyed(epoch, run);
    KeyedStateRestarts(Reached(epoch, run).s);
  }

  /** The same condition on the engine's own tables and on what it never reads. */
  lemma LoadsIffKnown(number: Doubles, s: E.State, w: WireDurable, into: E.State)
    requires Stores(number, s, w)
    ensures LoadFrom(number, into, StateImage(w)).1 <==> DurableKnown(DurableIn(number, w)) && RestKnown(w)
  {
    LoadOfSaved(number, w, into);
    DurableInTablesIff(number, w);
  }

  // ---- fields the engine never reads decide too --------------------------------

  /** One node, stored with a backend code that the engine never looks at. */
  function OneNode(backend: u32): WireDurable
  {
    WireDurable(1, [WireNode(1, 1, [], [], backend, [], WireDomain(0, 1, [], false, []), WireLocality([], []), 1, 1, [],
                             0, 0, 1, false)], [], [], [])
  }

  /** The run that registers that node, and the state it leads to. */
  const ONE_NODE_RUN: seq<Step> := [Atomic(IngestNode(Node(1, 1, 0)))]

  function OneNodeState(): E.State { E.IngestNode(E.Init(1), Node(1, 1, 0)) }

  /** It is reachable. */
  lemma OneNodeIsReached()
    ensures Reached(1, ONE_NODE_RUN).s == OneNodeState()
  {
    assert ONE_NODE_RUN[1..] == [];
    assert Exec(Next, Start(1), ONE_NODE_RUN) == Exec(Next, Next(Start(1), ONE_NODE_RUN[0]), []);
  }

  lemma OneNodeIsStored(number: Doubles, backend: u32)
    ensures Stores(number, OneNodeState(), OneNode(backend))
  {
    var s, w := OneNodeState(), OneNode(backend);
    var d := DurableIn(number, w);
    assert d.nodes == [Node(1, 1, 0)] && d.resources == [] && d.comps == [];
    assert PoliciesIn([]) == map[];
    assert s.nodes == map[1 := Node(1, 1, 0)];
    assert s.nodes.Values == {Node(1, 1, 0)};
  }

  lemma OneNodeInTablesIff(backend: u32)
    ensures DurableInTables(OneNode(backend)) <==> 1 <= backend <= 3
  {
    var w := OneNode(backend);
    assert NodeInTables(w.nodes[0]) <==> 1 <= backend <= 3;
  }

  /** One reachable state, stored in two ways that differ in a field the engine never reads: one file
      loads, and the one with an UNKNOWN backend is refused. */
  lemma UnreadFieldDecides(number: Doubles, into: E.State)
    ensures Stores(number, OneNodeState(), OneNode(1)) && Stores(number, OneNodeState(), OneNode(0))
    ensures LoadFrom(number, into, StateImage(OneNode(1))).1
    ensures LoadFrom(number, into, StateImage(OneNode(0))) == (into, false)
  {
    OneNodeIsStored(number, 0);
    OneNodeIsStored(number, 1);
    OneNodeInTablesIff(0);
    OneNodeInTablesIff(1);
    LoadOfSaved(number, OneNode(0), into);
    LoadOfSaved(number, OneNode(1), into);
  }

  // ---- worker death ------------------------------------------------------------

  lemma UnknownHealthNotInTables(number: Doubles, s: E.State, w: WireDurable, rid: ResourceId)
    requires E.Saved(s, DurableIn(number, w)) && rid in s.resources && s.resources[rid].health == HealthUnknown
    ensures !DurableInTables(w)
  {
    var d := DurableIn(number, w);
    assert s.resources[rid] in d.resources;
    var i :| 0 <= i < |d.resources| && d.resources[i] == s.resources[rid];
    assert d.resources[i] == ResourceIn(number, w.resources[i]);
    assert !ResourceInTables(w.resources[i]);
  }

  /** A state in which some registered resource has UNKNOWN health is saved, and never loads. */
  lemma UnknownHealthNeverLoads(number: Doubles, s: E.State, w: WireDurable, rid: ResourceId, into: E.State)
    requires Stores(number, s, w) && rid in s.resources && s.resources[rid].health == HealthUnknown
    ensures LoadFrom(number, into, StateImage(w)) == (into, false)
  {
    UnknownHealthNotInTables(number, s, w, rid);
    LoadOfSaved(number, w, into);
  }

  lemma DeathUnknowns(epoch: Epoch, run: seq<Step>, owner: string, rid: ResourceId)
    requires var s := Reached(epoch, run).s; rid in s.resources && E.OwnedBy(s.resources[rid], owner)
    ensures var t := Reached(epoch, run + [Atomic(WorkerDeath(owner))]).s;
            rid in t.resources && t.resources[rid].health == HealthUnknown
  {
    var c, step := Reached(epoch, run), Atomic(WorkerDeath(owner));
    ExecAppend(Next, Start(epoch), run, [step]);
    assert Exec(Next, c, [step]) == Exec(Next, Next(c, step), [step][1..]) == Next(c, step);
  }

  /** However it is stored and wherever it is loaded, the file is refused. */
  ghost predicate NeverLoads(s: E.State)
  {
    forall number: Doubles, w: WireDurable, into: E.State ::
      Stores(number, s, w) ==> LoadFrom(number, into, StateImage(w)) == (into, false)
  }

  lemma UnknownHealthMeansNever(s: E.State, rid: ResourceId)
    requires rid in s.resources && s.resources[rid].health == HealthUnknown
    ensures NeverLoads(s)
  {
    forall number: Doubles, w: WireDurable, into: E.State | Stores(number, s, w)
      ensures LoadFrom(number, into, StateImage(w)) == (into, false)
    {
      UnknownHealthNeverLoads(number, s, w, rid, into);
    }
  }

  /** From any reachable state: after the death of a worker that vouched for a registered resource, the
      file that Save writes is refused by every Load. */
  lemma DeathMakesFileUnloadable(epoch: Epoch, run: seq<Step>, owner: string, rid: ResourceId)
    requires var s := Reached(epoch, run).s; rid in s.resources && E.OwnedBy(s.resources[rid], owner)
    ensures NeverLoads(Reached(epoch, run + [Atomic(WorkerDeath(owner))]).s)
  {
    DeathUnknowns(epoch, run, owner, rid);
    UnknownHealthMeansNever(Reached(epoch, run + [Atomic(WorkerDeath(owner))]).s, rid);
  }
}
