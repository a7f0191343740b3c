/** What stands in the stored records, field by field: which number of the file is which field of the
    engine's record, and under which code. */
module FileFields {
  import opened Bytes
  import opened FabricTypes
  import opened Records
  import opened FileRecords
  import opened FileStates
  import opened FileAbstraction
  import opened FileEncoding
  import E = Engine

  /** The same characters. */
  ghost predicate Spells(t: text, s: string) { |s| == |t| && forall i :: 0 <= i < |t| ==> s[i] as int == t[i] }

  // ---- resources and nodes -----------------------------------------------------

  ghost predicate EvidenceStands(w: WireEvidence, e: Evidence)
  {
    && e.generation == w.generation && e.maxAgeMs == w.maxAge && e.durable == w.durable
    && Spells(w.provenance, e.provenance) && Spells(w.owner, e.owner)
    && (1 <= w.state <= 4 ==> w.state == EvidenceStateCode(e.state))
  }

  ghost predicate CapabilityStands(w: WireCapability, c: Capability)
  {
    && c.generation == w.generation && Spells(w.detail, c.detail)
    && (1 <= w.kind <= 23 ==> w.kind == KindCode(c.kind)) && (1 <= w.state <= 4 ==>
         w.state == CapabilityStateCode(c.state))
  }

  ghost predicate CapacityStands(number: Doubles, w: WireCapacity, c: Capacity)
  {
    && c.computeUnits == number(w.computeUnits) && c.acceleratorMemory == number(w.acceleratorMemory)
    && c.hostMemory == number(w.hostMemory) && c.expandedMemory == number(w.expandedMemory)
    && c.storage == number(w.storage) && c.networkBandwidth == number(w.bandwidth)
  }

  ghost predicate StatusStands(w: WireResource, r: Resource)
  {
    && (1 <= w.cls <= 12 ==> w.cls == ClassCode(r.cls)) && (1 <= w.health <= 3 ==> w.health == HealthCode(r.health))
    && (1 <= w.readiness <= 2 ==> w.readiness == ReadinessCode(r.readiness))
    && (1 <= w.reachability <= 2 ==> w.reachability == ReachabilityCode(r.reachability))
  }

  ghost predicate ResourceStands(number: Doubles, w: WireResource, r: Resource)
  {
    && r.id == w.id && r.generation == w.generation && r.node == w.node && StatusStands(w, r)
    && CapacityStands(number, w.capacity, r.capacity) && EvidenceStands(w.evidence, r.evidence)
    && Spells(w.domain.name, r.domain)
    && |r.capabilities| == |w.capabilities| && |r.compatibility| == |w.compatibility|
    && (forall i :: 0 <= i < |w.capabilities| ==> CapabilityStands(w.capabilities[i], r.capabilities[i]))
    && (forall i :: 0 <= i < |w.compatibility| ==> r.compatibility[i].generation == w.compatibility[i].generation)
  }

  ghost predicate NodeStands(w: WireNode, n: Node)
  {
    n.id == w.id && n.generation == w.generation && n.workerBoot == w.boot
  }

  lemma EvidenceFields(w: WireEvidence)
    ensures EvidenceStands(w, EvidenceIn(w))
  {
  }

  lemma CapabilityFields(w: WireCapability)
    ensures CapabilityStands(w, CapabilityIn(w))
  {
    KindFields(w.kind);
  }

  lemma KindFields(code: u32)
    ensures 1 <= code <= 23 ==> code == KindCode(Entry(KINDS, code))
  {
  }

  lemma ClassFields(code: u32)
    ensures 1 <= code <= 12 ==> code == ClassCode(Entry(CLASSES, code))
  {
  }

  lemma ResourceFields(number: Doubles, w: WireResource)
    ensures ResourceStands(number, w, ResourceIn(number, w))
  {
    var r := ResourceIn(number, w);
    ClassFields(w.cls);
    EvidenceFields(w.evidence);
    forall i | 0 <= i < |w.capabilities| ensures CapabilityStands(w.capabilities[i], r.capabilities[i]) {
      CapabilityFields(w.capabilities[i]);
    }
  }

  // ---- compositions ------------------------------------------------------------

  ghost predicate PathStands(number: Doubles, w: WirePath, p: PathEvidence)
  {
    && p.from == w.requirement.from && p.to == w.requirement.to && p.generation == w.generation
    && p.available == w.measure.available && p.bandwidth == number(w.measure.bandwidth)
    && p.latency == number(w.measure.latency) && p.verified == w.measure.verified
    && EvidenceStands(w.evidence, p.evidence)
  }

  ghost predicate EdgeStands(number: Doubles, w: WireEdge, e: Edge)
  {
    && e.from == w.from && e.to == w.to && e.minBandwidth == number(w.minBandwidth)
    && e.maxLatency == number(w.maxLatency) && (1 <= w.kind <= 8 ==> w.kind == EdgeKindCode(e.kind))
  }

  ghost predicate GraphStands(number: Doubles, w: WireGraph, g: Graph)
  {
    && g.vertices == w.vertices && |g.edges| == |w.edges|
    && forall i :: 0 <= i < |w.edges| ==> EdgeStands(number, w.edges[i], g.edges[i])
  }

  ghost predicate AuthorityStands(w: WireAuthority, a: Authority)
  {
    && a.epoch == w.epoch && a.policy == w.policy && a.composition == w.composition && a.evidence == w.evidence
    && a.resources == w.bound.resources && a.capabilities == w.bound.capabilities
    && a.compatibility == w.bound.compatibility && a.nodes == w.bound.nodes && a.workerBoots == w.bound.workerBoots
  }

  ghost predicate RequestStands(number: Doubles, w: WireRequest, q: Request)
  {
    && q.computeUnits == w.computeUnits && q.acceleratorCount == w.acceleratorCount
    && q.networkEndpoints == w.networkEndpoints && q.acceleratorMemory == number(w.acceleratorMemory)
    && q.hostMemory == number(w.hostMemory) && q.expandedMemory == number(w.expandedMemory)
    && q.storage == number(w.storage) && q.minBandwidth == number(w.minBandwidth)
    && q.maxLatency == number(w.maxLatency) && q.requireCoherence == w.coherence
    && q.policyGeneration == w.policyGeneration && |q.architectures| == |w.architectures|
    && (forall i :: 0 <= i < |w.architectures| ==> Spells(w.architectures[i], q.architectures[i]))
    && (forall cls :: cls in q.mandatory ==> exists code :: code in w.mandatory && Entry(CLASSES, code) == cls)
    && (forall code :: code in w.mandatory && 1 <= code <= 12 ==>
          exists cls :: cls in q.mandatory && ClassCode(cls) == code)
  }

  ghost predicate CompositionStands(number: Doubles, w: WireComposition, c: Composition)
  {
    && c.id == w.id && c.generation == w.generation && c.resourceSet == w.resourceSet
    && c.reservation == w.reservation && c.rank == number(w.rank)
    && (1 <= w.lifecycle <= 17 ==> w.lifecycle == LifecycleCode(c.lifecycle))
    && (1 <= w.outcome <= 6 ==> w.outcome == OutcomeCode(c.outcome))
    && GraphStands(number, w.graph, c.graph) && AuthorityStands(w.authority, c.authority)
    && RequestStands(number, w.request, c.request) && |c.paths| == |w.paths|
    && forall i :: 0 <= i < |w.paths| ==> PathStands(number, w.paths[i], c.paths[i])
  }

  lemma EdgeFields(number: Doubles, w: WireEdge)
    ensures EdgeStands(number, w, EdgeIn(number, w))
  {
  }

  lemma GraphFields(number: Doubles, w: WireGraph)
    ensures GraphStands(number, w, GraphIn(number, w))
  {
    forall i | 0 <= i < |w.edges| ensures EdgeStands(number, w.edges[i], GraphIn(number, w).edges[i]) {
      EdgeFields(number, w.edges[i]);
    }
  }

  lemma RequestFields(number: Doubles, w: WireRequest)
    ensures RequestStands(number, w, RequestIn(number, w))
  {
    var q := RequestIn(number, w);
    forall code | code in w.mandatory && 1 <= code <= 12
      ensures exists cls :: cls in q.mandatory && ClassCode(cls) == code {
      ClassFields(code);
      assert Entry(CLASSES, code) in q.mandatory;
    }
  }

  lemma LifecycleFields(code: u32)
    ensures 1 <= code <= 17 ==> code == LifecycleCode(Entry(LIFECYCLES, code))
  {
  }

  lemma CompositionFields(number: Doubles, w: WireComposition)
    ensures CompositionStands(number, w, CompositionIn(number, w))
  {
    var c := CompositionIn(number, w);
    LifecycleFields(w.lifecycle);
    GraphFields(number, w.graph);
    RequestFields(number, w.request);
    forall i | 0 <= i < |w.paths| ensures PathStands(number, w.paths[i], c.paths[i]) {
      EvidenceFields(w.paths[i].evidence);
    }
  }

  // ---- the whole state ---------------------------------------------------------

  /** The last entry of the list for the policy. */
  ghost predicate LastPolicy(ps: seq<WirePolicy>, k: PolicyId, g: Generation)
  {
    exists i :: 0 <= i < |ps| && ps[i].id == k && ps[i].generation == g && forall j :: i < j < |ps| ==> ps[j].id != k
  }

  lemma LastPolicyStep(ps: seq<WirePolicy>, p: WirePolicy, k: PolicyId, g: Generation)
    ensures p.id == k ==> (LastPolicy(ps + [p], k, g) <==> g == p.generation)
    ensures p.id != k ==> (LastPolicy(ps + [p], k, g) <==> LastPolicy(ps, k, g))
  {
    var all := ps + [p];
    assert all[|ps|] == p && forall i :: 0 <= i < |ps| ==> all[i] == ps[i];
    if i :| 0 <= i < |ps| && ps[i].id == k && ps[i].generation == g && forall j :: i < j < |ps| ==> ps[j].id != k {
      assert all[i].id == k;
    }
  }

  lemma {:induction false} PoliciesStand(ps: seq<WirePolicy>, k: PolicyId, g: Generation)
    ensures k in PoliciesIn(ps) && PoliciesIn(ps)[k] == g <==> LastPolicy(ps, k, g)
  {
    if ps != [] {
      var n := |ps| - 1;
      PoliciesStand(ps[..n], k, g);
      LastPolicyStep(ps[..n], ps[n], k, g);
      assert ps == ps[..n] + [ps[n]];
    }
  }

  /** Every record of the engine's tables stands in the file, field by field. */
  lemma StoredStand(number: Doubles, s: E.State, w: WireDurable, k: nat)
    requires E.Saved(s, DurableIn(number, w))
    ensures w.epoch == s.epoch
    ensures k in s.nodes ==> exists i :: 0 <= i < |w.nodes| && NodeStands(w.nodes[i], s.nodes[k])
    ensures k in s.resources ==>
        exists i :: 0 <= i < |w.resources| && ResourceStands(number, w.resources[i], s.resources[k])
    ensures k in s.comps ==>
              exists i :: 0 <= i < |w.compositions| && CompositionStands(number, w.compositions[i], s.comps[k])
  {
    var d := DurableIn(number, w);
    if k in s.nodes {
      assert s.nodes[k] in d.nodes;
      var i :| 0 <= i < |d.nodes| && d.nodes[i] == s.nodes[k];
      assert NodeStands(w.nodes[i], s.nodes[k]);
    }
    if k in s.resources {
      assert s.resources[k] in d.resources;
      var i :| 0 <= i < |d.resources| && d.resources[i] == s.resources[k];
      ResourceFields(number, w.resources[i]);
    }
    if k in s.comps {
      assert s.comps[k] in d.comps;
      var i :| 0 <= i < |d.comps| && d.comps[i] == s.comps[k];
      CompositionFields(number, w.compositions[i]);
    }
  }
}
