/** Hard eligibility of one resource, the class demands of a request and what they ask for. */
module Eligibility {
  import opened FabricTypes

  datatype Verdict = Eligible | Ineligible(reason: Reason)

  function ClassCapabilityKinds(cls: ResourceClass): seq<CapabilityKind>
  {
    match cls
    case Compute => [CpuExecution]
    case Accelerator => [CudaExecution, RocmExecution, CpuExecution]
    case HostMemory => [HostMemoryAccess]
    case ExpandedMemory => [ExpandedMemoryAccess]
    case Storage => [PersistentStorage]
    case NetworkEndpoint => [DirectNetworkAccess, NetworkProtocol]
    case Nic => [DirectNetworkAccess, NetworkProtocol]
    case FabricEndpoint => [NetworkProtocol, RdmaCapable]
    case Dpu => [CpuExecution, DirectNetworkAccess]
    case ServiceEndpoint => [CpuExecution, NetworkProtocol]
    case ControlProcess => [CpuExecution, NetworkProtocol]
    case OtherRegistered => [CpuExecution, NetworkProtocol]
    case UnknownClass => []
  }

  /** The first claim of a kind. */
  function FindCapability(caps: seq<Capability>, kind: CapabilityKind): Option<Capability>
  {
    if caps == [] then None
    else if caps[0].kind == kind then Some(caps[0])
    else FindCapability(caps[1..], kind)
  }

  predicate CapabilitySupported(r: Resource, kind: CapabilityKind)
  {
    var c := FindCapability(r.capabilities, kind);
    c.Some? && c.value.state == Supported
  }

  predicate ClaimsState(r: Resource, kinds: seq<CapabilityKind>, state: CapabilityState)
  {
    exists i :: 0 <= i < |kinds| &&
      FindCapability(r.capabilities, kinds[i]).Some? && FindCapability(r.capabilities, kinds[i]).value.state == state
  }

  predicate ArchitectureMatches(r: Resource, allowed: seq<string>)
  {
    var arch := FindCapability(r.capabilities, ArchGeneration);
    arch.Some? && arch.value.detail != "" && arch.value.detail in allowed
  }

  /** Hard eligibility, reporting the first failing check. */
  function Check(r: Resource, req: Request): (v: Verdict)
    ensures v.Eligible? ==> r.id != 0 && r.health.Healthy? && r.readiness.Ready? && r.evidence.IsCurrent()
    ensures v.Eligible? && !req.ignoreReachability ==> r.reachability == Reachable
  {
    if r.id == 0 then Ineligible(ResourceOffline)
    else if r.health == Offline then Ineligible(ResourceOffline)
    else if r.health == Degraded || r.health == HealthUnknown then Ineligible(ResourceDegraded)
    else if !req.ignoreReachability && r.reachability != Reachable then Ineligible(ResourceUnreachable)
    else if r.readiness == NotReady || r.readiness == ReadinessUnknown then Ineligible(ResourceDegraded)
    else if !r.evidence.IsCurrent() then Ineligible(StaleEvidence)
    else
      var kinds := ClassCapabilityKinds(r.cls);
      if ClaimsState(r, kinds, CapabilityUnknown) && !ClaimsState(r, kinds, Supported)
        then Ineligible(CapabilityIsUnknown)
      else if r.cls == Accelerator && req.architectures != [] && !ArchitectureMatches(r, req.architectures)
      then Ineligible(CompatibilityMismatch)
      else Eligible
  }

  /** No claim about the class's own capabilities is merely unknown, unless another one is supported. */
  ghost predicate CapabilitiesKnown(r: Resource)
  {
    var kinds := ClassCapabilityKinds(r.cls);
    (exists k :: k in kinds && CapabilitySupported(r, k)) ||
    forall k :: k in kinds ==> var c := FindCapability(r.capabilities, k); c.None? || c.value.state != CapabilityUnknown
  }

  /** Eligibility in one statement: every check passes, in whatever order they are made. */
  lemma EligibleMeans(r: Resource, req: Request)
    ensures Check(r, req).Eligible? <==>
              && r.id != 0 && r.health.Healthy? && r.readiness.Ready?
              && r.evidence.state != Stale && r.evidence.state != EvidenceRevalidation && r.evidence.maxAgeMs != 0
              && (req.ignoreReachability || r.reachability.Reachable?)
              && CapabilitiesKnown(r)
              && (r.cls.Accelerator? && req.architectures != [] ==>
                   var arch := FindCapability(r.capabilities, ArchGeneration);
                   arch.Some? && arch.value.detail != "" && arch.value.detail in req.architectures)
  {
    var kinds := ClassCapabilityKinds(r.cls);
    assert ClaimsState(r, kinds, Supported) <==> exists k :: k in kinds && CapabilitySupported(r, k) by {
      assert forall i :: 0 <= i < |kinds| ==> kinds[i] in kinds;
    }
    assert ClaimsState(r, kinds, CapabilityUnknown) <==>
           exists k :: k in kinds && (
             FindCapability(r.capabilities, k).Some? &&
             FindCapability(r.capabilities, k).value.state == CapabilityUnknown) by {
      assert forall i :: 0 <= i < |kinds| ==> kinds[i] in kinds;
    }
  }

  /** The classes a capability speaks for. */
  function SpeaksFor(kind: CapabilityKind): set<ResourceClass>
  {
    match kind
    case CpuExecution => {Compute, Accelerator, Dpu, ServiceEndpoint, ControlProcess, OtherRegistered}
    case CudaExecution => {Accelerator}
    case RocmExecution => {Accelerator}
    case HostMemoryAccess => {HostMemory}
    case ExpandedMemoryAccess => {ExpandedMemory}
    case PersistentStorage => {Storage}
    case DirectNetworkAccess => {NetworkEndpoint, Nic, Dpu}
    case NetworkProtocol => {NetworkEndpoint, Nic, FabricEndpoint, ServiceEndpoint, ControlProcess, OtherRegistered}
    case RdmaCapable => {FabricEndpoint}
    case _ => {}
  }

  /** Reading the table by capability instead of by class. */
  lemma KindsSpeak(cls: ResourceClass, kind: CapabilityKind)
    ensures kind in ClassCapabilityKinds(cls) <==> cls in SpeaksFor(kind)
  {
  }

  /** A claim counts when it is the first of its kind. */
  lemma {:induction false} FindsFirst(caps: seq<Capability>, kind: CapabilityKind)
    ensures match FindCapability(caps, kind)
            case None => forall i :: 0 <= i < |caps| ==> caps[i].kind != kind
            case Some(c) =>
              exists i :: 0 <= i < |caps| && caps[i] == c && c.kind == kind && forall j :: 0 <= j < i ==>
                caps[j].kind != kind
  {
    if caps != [] && caps[0].kind != kind {
      FindsFirst(caps[1..], kind);
      match FindCapability(caps, kind)
      case None =>
      case Some(c) =>
        var i :| 0 <= i < |caps| - 1 && caps[1..][i] == c && forall j :: 0 <= j < i ==> caps[1..][j].kind != kind;
        assert caps[i + 1] == c && forall j :: 0 < j < i + 1 ==> caps[j] == caps[1..][j - 1];
    }
  }

  /** The reason is that of the first check that fails: identity and outage, health, reachability, readiness,
      evidence, unknown capabilities, architecture. */
  lemma ReasonMeans(r: Resource, req: Request)
    ensures var v := Check(r, req);
            var offline := r.id == 0 || r.health == Offline;
            var sick := r.health != Healthy;
            var cut := !req.ignoreReachability && r.reachability != Reachable;
            var idle := r.readiness != Ready;
            var stale := r.evidence.state == Stale || r.evidence.state == EvidenceRevalidation ||
              r.evidence.maxAgeMs == 0;
            && (v == Ineligible(ResourceOffline) <==> offline)
            && (v == Ineligible(ResourceUnreachable) <==> !offline && !sick && cut)
            && (v == Ineligible(ResourceDegraded) <==> !offline && (sick || (!cut && idle)))
            && (v == Ineligible(StaleEvidence) <==> !offline && !sick && !cut && !idle && stale)
            && (v == Ineligible(CapabilityIsUnknown) <==>
                  !offline && !sick && !cut && !idle && !stale && !CapabilitiesKnown(r))
            && (v.Ineligible? ==> v.reason in {ResourceOffline, ResourceUnreachable, ResourceDegraded, StaleEvidence,
                                               CapabilityIsUnknown, CompatibilityMismatch})
  {
    EligibleMeans(r, req);
    EligibleMeans(r, req.(architectures := []));
  }

  function CapacityFor(r: Resource, dim: Dimension): real
  {
    match dim
    case ComputeUnits => r.capacity.computeUnits
    case AcceleratorMemory => r.capacity.acceleratorMemory
    case HostMemoryBytes => r.capacity.hostMemory
    case ExpandedMemoryBytes => r.capacity.expandedMemory
    case StorageBytes => r.capacity.storage
    case NetworkBandwidth => r.capacity.networkBandwidth
  }

  predicate NonNegative(c: Capacity)
  {
    && c.computeUnits >= 0.0 && c.acceleratorMemory >= 0.0 && c.hostMemory >= 0.0
    && c.expandedMemory >= 0.0 && c.storage >= 0.0 && c.networkBandwidth >= 0.0
  }

  // ---- demands -----------------------------------------------------------------

  datatype Demand = Demand(cls: ResourceClass, mandatory: bool, amountBased: bool, amount: real, count: nat,
                           dim: Dimension)

  function Raise(d: Demand, req: Request): Demand
  {
    var nonzero := (d.amountBased && d.amount > 0.0) || (!d.amountBased && d.count > 0);
    var mandatory := nonzero || d.cls in req.mandatory;
    var count := if d.cls == NetworkEndpoint && d.cls in req.mandatory && req.networkEndpoints == 0 then 1 else d.count;
    d.(mandatory := mandatory, count := count)
  }

  function Demands(req: Request): (ds: seq<Demand>)
    ensures |ds| == 6
    ensures forall i, j :: 0 <= i < j < |ds| ==> ds[i].cls != ds[j].cls
    ensures forall i :: 0 <= i < |ds| && ds[i].amountBased ==> ds[i].count == 0
  {
    [ Raise(Demand(Compute, false, true, req.computeUnits as real, 0, ComputeUnits), req),
      Raise(Demand(Accelerator, false, false, req.acceleratorMemory, req.acceleratorCount, AcceleratorMemory), req),
      Raise(Demand(HostMemory, false, true, req.hostMemory, 0, HostMemoryBytes), req),
      Raise(Demand(ExpandedMemory, false, true, req.expandedMemory, 0, ExpandedMemoryBytes), req),
      Raise(Demand(Storage, false, true, req.storage, 0, StorageBytes), req),
      Raise(Demand(NetworkEndpoint, false, false, req.minBandwidth, req.networkEndpoints, NetworkBandwidth), req) ]
  }

  function Mandatory(ds: seq<Demand>): (m: seq<Demand>)
  {
    if ds == [] then [] else (if ds[0].mandatory then [ds[0]] else []) + Mandatory(ds[1..])
  }

  function Total(rs: seq<Resource>, dim: Dimension): real
  {
    if rs == [] then 0.0 else Total(rs[..|rs| - 1], dim) + CapacityFor(rs[|rs| - 1], dim)
  }

  predicate MeetsDemand(sel: seq<Resource>, d: Demand)
  {
    sel != [] && if d.amountBased then Total(sel, d.dim) >= d.amount else |sel| >= d.count
  }

  function OfClass(rs: seq<Resource>, cls: ResourceClass): (c: seq<Resource>)
    ensures forall r :: r in c <==> r in rs && r.cls == cls
  {
    if rs == [] then [] else
      var front := OfClass(rs[..|rs| - 1], cls);
      assert forall r :: r in rs <==> r in rs[..|rs| - 1] || r == rs[|rs| - 1];
      if rs[|rs| - 1].cls == cls then front + [rs[|rs| - 1]] else front
  }

  /** What a reservation holds of a member: all of its class dimension, or one unit. */
  function HoldAmount(r: Resource): (a: real)
  {
    match r.cls
    case Compute => r.capacity.computeUnits
    case HostMemory => r.capacity.hostMemory
    case ExpandedMemory => r.capacity.expandedMemory
    case Storage => r.capacity.storage
    case _ => 1.0
  }

  /** The lookup through the demand table: it does not depend on the request. */
  function HoldLookup(r: Resource, ds: seq<Demand>): real
  {
    if ds == [] then 1.0
    else if ds[0].cls == r.cls then (if ds[0].amountBased then CapacityFor(r, ds[0].dim) else 1.0)
    else HoldLookup(r, ds[1..])
  }

  lemma HoldAmountIsTableLookup(r: Resource, req: Request)
    ensures HoldLookup(r, Demands(req)) == HoldAmount(r)
  {
    var ds := Demands(req);
    assert ds[1..][0] == ds[1] && ds[1..][1..] == ds[2..];
    assert ds[2..][0] == ds[2] && ds[2..][1..] == ds[3..];
    assert ds[3..][0] == ds[3] && ds[3..][1..] == ds[4..];
    assert ds[4..][0] == ds[4] && ds[4..][1..] == ds[5..];
    assert ds[5..][0] == ds[5] && ds[5..][1..] == [];
    assert HoldLookup(r, ds[5..]) == if r.cls == NetworkEndpoint then 1.0 else 1.0;
    assert HoldLookup(r, ds[4..]) == if r.cls == Storage then r.capacity.storage else HoldLookup(r, ds[5..]);
    assert HoldLookup(r, ds[3..]) == if r.cls == ExpandedMemory then r.capacity.expandedMemory
      else HoldLookup(r, ds[4..]);
    assert HoldLookup(r, ds[2..]) == if r.cls == HostMemory then r.capacity.hostMemory else HoldLookup(r, ds[3..]);
  }

  // ---- preference --------------------------------------------------------------

  function Max(a: real, b: real): real { if a < b then b else a }
  function Min(a: real, b: real): real { if b < a then b else a }

  function ClassScore(r: Resource, d: Demand): real
  {
    (if d.amountBased then Max(0.0, CapacityFor(r, d.dim))
     else if d.cls == Compute then Max(0.0, r.capacity.computeUnits) else 1.0)
    + (if r.health == Healthy then 1000.0 else 0.0)
    + (if r.readiness == Ready then 100.0 else 0.0)
    + (if r.reachability == Reachable then 10.0 else 0.0)
  }

  /** Candidates are tried in order of decreasing score, then increasing id. */
  predicate Before(a: Resource, b: Resource, d: Demand)
  {
    var sa, sb := ClassScore(a, d), ClassScore(b, d);
    if sa != sb then sa > sb else a.id < b.id
  }
}
