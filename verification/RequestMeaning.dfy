/** What a request asks for, in its own fields, and what it means for a set of resources to fulfil it.
    Nothing here mentions the demand table or the search. */
module RequestMeaning {
  import opened FabricTypes
  import opened Eligibility
  import opened Enumeration
  import opened PlanGraph

  // ---- what is asked for -------------------------------------------------------

  /** Classes asked for by an amount. */
  predicate Measured(cls: ResourceClass)
  {
    cls == Compute || cls == HostMemory || cls == ExpandedMemory || cls == Storage
  }

  /** Classes asked for by a number of members. */
  predicate Counted(cls: ResourceClass) { cls == Accelerator || cls == NetworkEndpoint }

  function Amount(req: Request, cls: ResourceClass): real
  {
    match cls
    case Compute => req.computeUnits as real
    case HostMemory => req.hostMemory
    case ExpandedMemory => req.expandedMemory
    case Storage => req.storage
    case _ => 0.0
  }

  /** What a resource supplies of a measured class. */
  function Supply(r: Resource, cls: ResourceClass): real
  {
    match cls
    case Compute => r.capacity.computeUnits
    case HostMemory => r.capacity.hostMemory
    case ExpandedMemory => r.capacity.expandedMemory
    case Storage => r.capacity.storage
    case _ => 0.0
  }

  /** How many members of a counted class: at least one, once the class is asked for at all. */
  function Number(req: Request, cls: ResourceClass): nat
  {
    match cls
    case Accelerator => if req.acceleratorCount == 0 then 1 else req.acceleratorCount
    case NetworkEndpoint => if req.networkEndpoints == 0 then 1 else req.networkEndpoints
    case _ => 0
  }

  predicate NonzeroCount(req: Request, cls: ResourceClass)
  {
    (cls == Accelerator && req.acceleratorCount > 0) || (cls == NetworkEndpoint && req.networkEndpoints > 0)
  }

  /** The class is asked for, by an amount, by a count, or by name. */
  predicate AskedFor(req: Request, cls: ResourceClass)
  {
    || (Measured(cls) && Amount(req, cls) > 0.0)
    || NonzeroCount(req, cls)
    || ((Measured(cls) || Counted(cls)) && cls in req.mandatory)
  }

  // ---- what fulfils it ---------------------------------------------------------

  /** The members of one class. */
  ghost function Part(resources: map<ResourceId, Resource>, members: set<ResourceId>,
                      cls: ResourceClass): set<ResourceId>
  {
    set id | id in members && id in resources && resources[id].cls == cls
  }

  ghost predicate One(resources: map<ResourceId, Resource>, part: set<ResourceId>, cls: ResourceClass, amount: real)
  {
    exists a :: part == {a} && a in resources && Supply(resources[a], cls) >= amount
  }

  ghost predicate Two(resources: map<ResourceId, Resource>, part: set<ResourceId>, cls: ResourceClass, amount: real)
  {
    exists a, b :: a != b && part == {a, b} && a in resources && b in resources &&
      Supply(resources[a], cls) + Supply(resources[b], cls) >= amount
  }

  /** One member that supplies the amount, or two that supply it together; or as many as are asked for. */
  ghost predicate Serves(resources: map<ResourceId, Resource>, req: Request, members: set<ResourceId>,
                         cls: ResourceClass)
  {
    var part := Part(resources, members, cls);
    if Counted(cls) then |part| == Number(req, cls)
    else
      || One(resources, part, cls, Amount(req, cls))
      || (Amount(req, cls) > 0.0 && Two(resources, part, cls, Amount(req, cls)))
  }

  ghost function InDomain(resources: map<ResourceId, Resource>, members: set<ResourceId>, name: string): set<ResourceId>
  {
    set id | id in members && id in resources && resources[id].domain == name
  }

  ghost predicate Placed(resources: map<ResourceId, Resource>, req: Request, members: set<ResourceId>)
    requires forall id :: id in members ==> id in resources
  {
    match req.topology
    case NoTopology => true
    case DistinctFailureDomains =>
      exists a, b :: a in members && b in members &&
        (resources[a].node, resources[a].domain) != (resources[b].node, resources[b].domain)
    case MaxSharedRisk =>
      req.maxSharedRisk == 0 ||
      forall name :: |InDomain(resources, members, name)| <= req.maxSharedRisk
    case Colocate => forall a, b :: a in members && b in members ==> resources[a].node == resources[b].node
    case Spread => exists a, b :: a in members && b in members && resources[a].node != resources[b].node
  }

  /** The members are registered and eligible, of classes that were asked for, serve each of those, are
      linked as their classes need, and are placed and coherent as requested. */
  ghost predicate Fulfils(reg: Registry, req: Request, members: set<ResourceId>)
  {
    && (forall id :: id in members ==>
         && id in reg.resources && Check(reg.resources[id], req).Eligible?
         && AskedFor(req, reg.resources[id].cls))
    && (forall cls :: AskedFor(req, cls) ==> Serves(reg.resources, req, members, cls))
    && (forall a, b :: a in members && b in members && a != b ==>
         PairOk(reg, req, reg.resources[a], reg.resources[b]))
    && Placed(reg.resources, req, members)
    && (req.requireCoherence ==>
         forall id :: id in members ==> CapabilitySupported(reg.resources[id], CoherentMemoryAccess))
  }

  // ---- the demand table says the same -------------------------------------------

  /** A demand of the table, in the request's own fields. */
  ghost predicate Demanded(req: Request, d: Demand)
  {
    && AskedFor(req, d.cls) && (d.amountBased <==> Measured(d.cls))
    && (d.amountBased ==> d.amount == Amount(req, d.cls) && forall r :: CapacityFor(r, d.dim) == Supply(r, d.cls))
    && (!d.amountBased ==> Counted(d.cls) && Want(d) == Number(req, d.cls))
  }

  lemma DemandIsDemanded(req: Request, i: nat)
    requires i < 6 && Demands(req)[i].mandatory
    ensures Demanded(req, Demands(req)[i])
  {
  }

  lemma {:induction false} MandatoryMembers(ds: seq<Demand>, d: Demand)
    ensures d in Mandatory(ds) <==> d in ds && d.mandatory
  {
    if ds != [] { MandatoryMembers(ds[1..], d); }
  }

  lemma MandatoryIsDemanded(req: Request, d: Demand)
    requires d in Mandatory(Demands(req))
    ensures Demanded(req, d)
  {
    MandatoryMembers(Demands(req), d);
    var i :| 0 <= i < 6 && Demands(req)[i] == d;
    DemandIsDemanded(req, i);
  }

  /** Every class asked for is in the table. */
  lemma AskedForIsDemanded(req: Request, cls: ResourceClass) returns (d: Demand)
    requires AskedFor(req, cls)
    ensures d in Mandatory(Demands(req)) && d.cls == cls
  {
    var ds := Demands(req);
    d := ds[if cls == Compute then 0 else if cls == Accelerator then 1 else if cls == HostMemory then 2
            else if cls == ExpandedMemory then 3 else if cls == Storage then 4 else 5];
    MandatoryMembers(ds, d);
  }
}
