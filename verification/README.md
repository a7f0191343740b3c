# Disaggregation fabric: a verified model

This project models the core of the disaggregation fabric in Dafny and proves what that core is for:
exclusive, current, never-returning authority over resources; a planner that is sound, complete below
its caps, optimal and deterministic; a stream decoder that does not care how bytes are chunked; and
records and files that read back as they were written or not at all.

`dafny verify dfyconfig.toml` checks everything.

## How it is laid out

| files | what they hold |
|---|---|
| `FabricTypes`, `Eligibility`, `Candidates`, `Enumeration`, `PlanGraph`, `Planner`, `PlannerLoops` | the bounded planner: eligibility, sort, capped enumeration, capped product, graph and failure-domain checks, rank; as functions and as the loops the engine runs |
| `PlannerTheorems`, `ProductOrder`, `PlanTheorems` | soundness, completeness, optimality, the order of the search, independence of hash order |
| `RequestMeaning`, `RequestTheorems`, `RequestCaps`, `AcceleratorMemory`, `Preference` | the planner against the request's own fields, with no word about the search: what fulfils a request, when it is accepted, what a plan supplies, what is preferred |
| `Engine`, `EngineContract`, `FabricEngine` | the engine: one transition function per lock-held section, the invariant its methods keep, and the class whose methods are proved against both |
| `Effects`, `EventEffects` | what every operation answers and leaves behind, field by field and entry by entry |
| `RunTheory`, `Runs` | runs: any interleaving of sections, with Recompute as a client that holds no lock between its sections |
| `Invalidation`, `AuthorityInvariant`, `RecomputeInvariant`, `AuthorityTheorems`, `Quarantine`, `Reactivation` | theorems about all runs, with no assumption on callers |
| `PlanBinding`, `PathTheorems` | theorems about all runs that reserve only issued plans |
| `LedgerArithmetic`, `Books`, `LedgerInvariant`, `LedgerSteps`, `LedgerTheorems`, `EndingTheorems`, `OneMachine`, `Counterexamples` | theorems about disciplined runs, and what happens without the discipline |
| `Progress`, `Restart` | the happy path, and what a reload leaves behind |
| `Bytes`, `Frames`, `FrameTheorems`, `KnownAnswers` | FNV-1a and the framed stream, with byte-for-byte answers |
| `Layouts`, `WireCodec`, `Records`, `RecordBytes` | self-delimiting records, the writer and the sticky reader, and the bytes of every record |
| `Persistence`, `FileRecords`, `FileStates`, `FileAbstraction`, `FileTables`, `FileRestart`, `FileEncoding`, `FileFields`, `EmptyFile` | the durable-state file: its bytes, every record in it, what the engine reads of them, and restart through it |

A run is *disciplined* when callers reserve only plans that Compose handed out (kept and replayed at will),
register only resources with a positive hold amount, do not reload in mid-run, and call Release, or let
Recompute release, only when the reservation it finds is still live or nothing it lists is held.

## Where the code falls short of its documentation

Each of these comes with the input that shows it and with the exact condition under which the code does
what is promised.

- Release and Recompute subtract a reservation's holds without looking at its state
  (src/dfabric/engine.cpp:1019-1025, 1096-1103). When the reservation is no longer live, this gives away
  another composition's hold: `Counterexamples.UnguardedReleaseBreaksExclusivity` and
  `Counterexamples.ConcurrentRecomputesBreakExclusivity` are the runs, `LedgerTheorems.ReleaseIsExactIff`
  and `LedgerTheorems.RecomputeReleaseIsExactIff` the conditions.
- Load clears the reservations but not the hold ledger (src/dfabric/engine.cpp:1074-1085): the two agree
  afterwards exactly when nothing was held (`Restart.LoadIsExactIff`); `Counterexamples.ReloadOrphansHolds`
  is a run where they do not.
- Recompute fences the composition it replaces only if its releasing section still finds it in the table
  (src/dfabric/engine.cpp:1014-1030). A reload between two of its sections may have removed it: Recompute then
  returns true without fencing, and later both compositions are ACTIVE
  (`Counterexamples.ReloadLetsBothBeActive`). Two compositions can be ACTIVE together in some continuation
  exactly when neither is fenced (`Reactivation.BothActivatableIff`); the old one is fenced whenever it was
  found (`AuthorityTheorems.RecomputeReturnsTrue`), and it is found unless there was a reload
  (`AuthorityTheorems.PriorAlwaysFound`).
- A worker's death sets the health of its resources to UNKNOWN, code 0, which is written to the durable file
  and refused on reading (src/dfabric/engine.cpp:528, src/dfabric/persistence.cpp:59-61): such a file never
  loads (`FileRestart.DeathMakesFileUnloadable`). The same goes for every other enumeration left at its
  default of UNKNOWN, also one the engine never reads, such as the backend of a node
  (include/dfabric/model.hpp:114): `FileRestart.UnreadFieldDecides`. A file loads exactly when every
  enumeration saved is in its table and every list within the bound (`FileRestart.FileRoundTrip`), that is,
  when the engine's own tables hold no UNKNOWN and no over-long list and neither do the fields it never reads
  (`FileRestart.LoadsIffKnown`, `FileTables.DurableInTablesIff`).
- The amount of accelerator memory in a request is carried along and read by nothing
  (src/dfabric/engine.cpp:131, 355-363): an accelerator with none of it is accepted
  (`AcceleratorMemory.NoMemoryAccepted`), and whatever fulfils a request meets it for certain exactly when
  none is asked for (`AcceleratorMemory.MemoryMetIff`).
- A saved request forgets its reachability override, its placement constraint and its extra constraints,
  although hard requirements are documented to remain hard (include/dfabric/requirement.hpp:39-40): it comes
  back as itself exactly when it had none of them (`FileStates.SavedRequestForgets`).
- A changed length field is detected exactly when the new length is over its type's bound, or the bytes
  suffice for it and the checksum differs (`FrameTheorems.LengthFieldDetectedIff`); a length enlarged within
  the bound only makes the decoder wait (`FrameTheorems.LengthCorruptionStalls`).

## Model

| member | source | states |
|---|---|---|
| Eligibility.EligibleMeans | src/dfabric/engine.cpp:75-103 | a resource is eligible exactly when it is registered, healthy, ready, reachable unless waived, has current evidence, no capability of its class merely unknown, and an allowed architecture |
| Eligibility.ReasonMeans | src/dfabric/engine.cpp:75-103 | the reason for ineligibility is that of the first check that fails, in the order outage, health, reachability, readiness, evidence, capabilities, architecture |
| Eligibility.KindsSpeak | src/dfabric/engine.cpp:33-50 | which capabilities speak for which classes, read from the capability side |
| Eligibility.FindsFirst | src/dfabric/engine.cpp:52-55 | the claim that counts is the first of its kind |
| Eligibility.HoldAmountIsTableLookup | src/dfabric/engine.cpp:402-411 | the amount a reservation holds, found through the request's demand table, depends on the resource alone |
| Candidates.SortedCandidates | src/dfabric/engine.cpp:642-656 | the candidates of a class are exactly the registered, eligible resources of it, strictly ordered by score then id |
| Candidates.AscendingUnique | src/dfabric/engine.cpp:651-655 | two lists with the same members in that order are the same list |
| Candidates.SortedIndependentOfOrder | src/dfabric/engine.cpp:634-656 | any two iteration orders of the resource table give the same candidate list |
| Enumeration.CombosExact | src/dfabric/engine.cpp:374-387 | the recursion enumerates exactly the strictly increasing index lists of the wanted length |
| Enumeration.CombosLexicographic | src/dfabric/engine.cpp:374-387 | in lexicographic order, so without repeats |
| Enumeration.CombosCount | src/dfabric/engine.cpp:374-387 | and there are binomially many of them |
| Enumeration.SelectionsExact | src/dfabric/engine.cpp:366-399 | the selections of a class are exactly: as many of the first eight candidates as the demand counts, or one, or two that together suffice |
| Enumeration.Combine | src/dfabric/engine.cpp:376-386 | the recursive loop with its early exits appends exactly the first entries up to the cap |
| Enumeration.EnumerateSelections | src/dfabric/engine.cpp:366-399 | the loops return exactly the first `cap` selections |
| Enumeration.ExtendRow | src/dfabric/engine.cpp:677-686 | the inner loop appends exactly the repeat-free extensions of one combination, up to 400 in all |
| Enumeration.ExpandBounded | src/dfabric/engine.cpp:675-689 | one round of the product is exactly the first 400 repeat-free extensions |
| PlanGraph.GraphCheckIsPairwise | src/dfabric/engine.cpp:145-217 | the edge-list check holds exactly when every pair of members is on one node or joined by a verified, available, current path within bounds, as their classes require |
| PlanTheorems.LocalLinks | src/dfabric/engine.cpp:182-217 | members on one node are linked without latency and with a bandwidth of 10^12 |
| PlanGraph.TopologyCheckIsMeaning | src/dfabric/engine.cpp:219-252 | the failure-domain counting holds exactly when, as the request asks, all members are on one node, two of them are on different nodes, two of them differ in node or domain, or no domain has more members than allowed |
| PlanGraph.VerticesOfDistinct | src/dfabric/engine.cpp:145-180 | distinct members become the vertices in their own order |
| PlanGraph.RankNonNegative | src/dfabric/engine.cpp:303-324 | with non-negative capacities no rank falls below the bar of the arg-max |
| Planner.ArgMaxIsFirstMaximal | src/dfabric/engine.cpp:724-725 | the scan keeps the first entry of maximal rank |
| PlannerTheorems.ProductSound | src/dfabric/engine.cpp:671-690 | every combination is one pick per class, laid end to end, with no id twice |
| PlannerTheorems.ProductComplete | src/dfabric/engine.cpp:671-690 | below the cap every such choice is a combination |
| PlannerTheorems.ComposeSoundness | src/dfabric/engine.cpp:642-771 | selected members are distinct, registered, eligible, meet every mandatory demand, are pairwise linked within bounds and satisfy topology and coherence |
| PlannerTheorems.MaximalAmongEnumerated | src/dfabric/engine.cpp:692-764 | whatever the caps, the answer is the first of maximal rank among the enumerated feasible combinations, and a rejection means none of them ranks above -1.0 |
| ProductOrder.ProductLexicographic | src/dfabric/engine.cpp:671-690 | combinations are listed in lexicographic order of the per-class choices they stand for, which is the order "first" refers to |
| PlannerTheorems.SelectCompleteAndOptimal | src/dfabric/engine.cpp:642-771 | with no cap hit, a choice is found exactly when one feasible choice ranks above the bar, and no feasible choice ranks higher |
| PlannerTheorems.ComposeCompleteAndOptimal | src/dfabric/engine.cpp:642-771 | with non-negative capacities and no cap hit, a request is accepted exactly when some choice of per-class selections is feasible, and the answer is of maximal rank |
| ProductOrder.ComposeFirstChoice | src/dfabric/engine.cpp:642-771 | with no cap hit, no feasible choice of the same rank as the answer comes before it in the lexicographic order of the per-class choices |
| PlannerTheorems.ComposeIndependentOfOrder | src/dfabric/engine.cpp:634-663 | any two iteration orders of the same table give the same members |
| RequestMeaning.MandatoryIsDemanded | src/dfabric/engine.cpp:123-142 | every demand the planner works with is, class by class, what a field of the request asks for, in the dimension of that class |
| RequestTheorems.FeasibleIsFulfilling | src/dfabric/engine.cpp:692-722 | a choice passes the demand, graph, domain and coherence checks exactly when its members, as a set, fulfil the request |
| RequestTheorems.FulfillingIsChoice | src/dfabric/engine.cpp:366-399 | every set that fulfils the request is the set of members of some choice the search ranges over |
| RequestTheorems.ComposeFulfils | src/dfabric/engine.cpp:642-771 | whatever the caps, the members of a plan are distinct and fulfil the request: of classes asked for only, each served by one member or two with the amount asked for or by the number asked for, linked, placed and coherent |
| RequestTheorems.ComposeAcceptsIff | src/dfabric/engine.cpp:642-771 | with non-negative capacities and no cap hit, a request is accepted exactly when it asks for something and some set of registered resources fulfils it, and no such set ranks above the answer |
| RequestTheorems.PlanSupplies | src/dfabric/engine.cpp:642-771 | the compute units, host memory, expanded memory and storage of a plan's members of those classes add up to at least what the request asks for, accelerators and endpoints are at least as many, every class named mandatory has a member and no class that was not asked for has one |
| RequestCaps.RoomyRequestAcceptedIff | src/dfabric/engine.cpp:642-771 | the same, when each class asked for has at most 8 eligible resources and 24 selections and there are at most 400 combinations, counted from the registered resources alone |
| RequestCaps.OnlyTheFirstEight | src/dfabric/engine.cpp:366-375 | only the first 8 candidates of a class are ever selected |
| RequestCaps.PicksAreBounded | src/dfabric/engine.cpp:657-663 | at most 24 selections of a class are tried |
| RequestCaps.CombinationsAreBounded | src/dfabric/engine.cpp:671-690 | at most 400 combinations are kept |
| AcceleratorMemory.MemoryMetIff | src/dfabric/engine.cpp:131 | for a request that can be fulfilled at all: everything that fulfils it has the accelerator memory asked for if and only if none is asked for |
| AcceleratorMemory.NoMemoryAccepted | src/dfabric/engine.cpp:131 | an accelerator without memory fulfils a request for one with 64 units |
| Preference.PreferenceMeans | src/dfabric/engine.cpp:113-121 | of two eligible candidates the one that supplies more, with ten added for being reachable, is tried first, and the smaller id between equals; counted classes go by reachability and id alone |
| Preference.RankIsWorth | src/dfabric/engine.cpp:303-324 | the rank of healthy members is ten for each, one for each distinct node, up to one for a tenth of all compute units and millions of host memory, and up to one for a tenth of the members with compute units or storage |
| Preference.PlanRank | src/dfabric/engine.cpp:303-324 | the rank of a plan is that worth of its vertices |
| Preference.MoreMembersRankHigher | src/dfabric/engine.cpp:303-324 | on at least as many nodes, more members always rank higher |
| PlannerLoops.GroupByClass | src/dfabric/engine.cpp:633-640 | grouping visits every resource once, in some order, and keeps each class in that order |
| PlannerLoops.CombineAll | src/dfabric/engine.cpp:671-690 | the product loops compute the capped product |
| PlannerLoops.PickBest | src/dfabric/engine.cpp:692-758 | the evaluation loop returns the arg-max of the feasible ranks |
| PlannerLoops.ComposeDeterministic | src/dfabric/engine.cpp:626-771 | the whole search returns the same members for every iteration order |
| PlanTheorems.MembersAreVertices | src/dfabric/engine.cpp:254-276 | distinct members become the vertices in their own order, and entry i of the bound generations is the registered generation of vertex i |
| PlanTheorems.PlanSoundness | src/dfabric/engine.cpp:715-771 | every plan handed out has sound members, the graph and rank of its members, binds generation i to vertex i and the current epoch, under a fresh id equal to its generation; nothing else changes |
| PlanTheorems.PlanPathsExact | src/dfabric/engine.cpp:734-756 | a plan carries exactly the recorded paths that its edges cross between nodes |
| PlanTheorems.EdgesAreNeeds | src/dfabric/engine.cpp:145-180 | the edges of a graph are exactly what its members need of each other by their classes, with the bounds of the request |
| PlanTheorems.PlanPaths | src/dfabric/engine.cpp:734-756 | at the moment of composing, a plan carries a path exactly when one of its edges crosses between the two nodes it is on record for |
| PlanTheorems.PlanAuthority | src/dfabric/engine.cpp:254-276 | the authority tuple field by field: epoch, policy, generation, the generations of vertices and evidence position by position, and in vertex order those of claims, pins and known nodes, and the worker boots |
| PlanTheorems.PlanIndependentOfOrder | src/dfabric/engine.cpp:626-771 | vertices, edges, rank and authority of the plan do not depend on hash order |
| FabricEngineObject.TakeHolds | src/dfabric/engine.cpp:788-806 | the hold loop takes holds in vertex order and stops at the first vertex that cannot be held |
| FabricEngineObject.ReleaseItems | src/dfabric/engine.cpp:1097-1103 | giving back subtracts item by item, clamps at zero and drops empty entries |
| FabricEngineObject.ScanItems | src/dfabric/engine.cpp:874-881 | the commit scan stops at the first member that is gone, ineligible or not covered |
| FabricEngineObject.UpdateWhere | src/dfabric/engine.cpp:431-437 | the loop over a table changes exactly the records concerned, whatever the iteration order |
| FabricEngineObject.FabricEngine.Compose | src/dfabric/engine.cpp:624-771 | the same plan for every iteration order of the table; only the id counter moves, and the engine stays valid: authority current, records filed under their ids, reservation numbers below the counter |
| FabricEngineObject.FabricEngine.Reserve | src/dfabric/engine.cpp:775-835 | all members held, or everything given back and a reason returned |
| FabricEngineObject.FabricEngine.Commit | src/dfabric/engine.cpp:847-889 | every member re-checked, then committed, or rolled back whole |
| FabricEngineObject.FabricEngine.RevalidationHolds | src/dfabric/engine.cpp:278-300 | the revalidation loop reports the first failing member |
| FabricEngineObject.FabricEngine.Activate | src/dfabric/engine.cpp:891-914 | only a committed, unfenced, revalidated composition becomes ACTIVE |
| FabricEngineObject.FabricEngine.Discover | src/dfabric/engine.cpp:457-484 | one round over what the backends supply; every composition touched by a changed node or resource loses its authority, and nothing is held, released or fenced |
| FabricEngineObject.FabricEngine.IngestNode | src/dfabric/engine.cpp:428-439 | if the node is known under another generation, no composition is left RESERVED, COMMITTED or ACTIVE; lifecycles are only lowered, reservations, holds, fences and counters stay, the engine stays valid |
| FabricEngineObject.FabricEngine.IngestResource | src/dfabric/engine.cpp:441-455 | if the resource is known under another generation, no composition containing it is left RESERVED, COMMITTED or ACTIVE; lifecycles are only lowered, the engine stays valid |
| FabricEngineObject.FabricEngine.Withdraw | src/dfabric/engine.cpp:506-521 | the resource is in quarantine: no current evidence, in no ACTIVE composition; lifecycles are only lowered, the engine stays valid |
| FabricEngineObject.FabricEngine.MarkEvidenceRevalidationRequired | src/dfabric/engine.cpp:523-541 | every resource the dead worker vouched for is in quarantine and no ACTIVE composition touches one; lifecycles are only lowered, the engine stays valid |
| FabricEngineObject.FabricEngine.AdvanceEpoch | src/dfabric/engine.cpp:543-554 | the new epoch opens with nothing ACTIVE and no current evidence that is not durable; lifecycles are only lowered, the engine stays valid |
| FabricEngineObject.FabricEngine.OnPolicyUpdate | src/dfabric/engine.cpp:927-939 | no composition bound to another policy generation is left COMMITTED or ACTIVE; lifecycles are only lowered, the engine stays valid |
| FabricEngineObject.FabricEngine.OnPathUpdate | src/dfabric/engine.cpp:941-954 | no composition using the path at another generation is left ACTIVE; lifecycles are only lowered, the engine stays valid |
| FabricEngineObject.FabricEngine.OnResourceFailure | src/dfabric/engine.cpp:956-967 | the resource is in quarantine and no composition containing it is left COMMITTED or ACTIVE; lifecycles are only lowered, the engine stays valid |
| FabricEngineObject.FabricEngine.EndDrain | src/dfabric/engine.cpp:980-997 | a drained composition gives its holds back and is RELEASED, not fenced |
| FabricEngineObject.FabricEngine.Release | src/dfabric/engine.cpp:1091-1108 | a released composition gives its holds back and is fenced |
| FabricEngineObject.FabricEngine.ReleaseOld | src/dfabric/engine.cpp:1014-1030 | Recompute's releasing section: fences and gives back, whatever the lifecycle |
| FabricEngineObject.FabricEngine.Save | src/dfabric/engine.cpp:1042-1054 | nothing is written when the writer throws, on a string or a capacity table over its bound; otherwise the bytes of the stored tables, which load back in any engine exactly when no reader refuses what was saved |
| FabricEngineObject.FabricEngine.Load | src/dfabric/engine.cpp:1056-1088 | a refused file leaves the engine as it was; an accepted one rebuilds the tables, raises the counters and keeps ledger and fences; the engine stays valid |
| Effects.ReserveEffect | src/dfabric/engine.cpp:775-835 | a granted reservation leaves a RESERVED composition with the plan's generation, vertices, edges, request, authority, rank and paths, one provisional item per vertex, and a ledger grown by exactly those; a refused one leaves every table alone |
| Effects.ReserveAnswers | src/dfabric/engine.cpp:775-815 | a plan with distinct vertices is reserved exactly when it is PLANNED under a valid id and every vertex is registered, eligible, unheld and of non-negative capacity; otherwise the reason is that of the first vertex that is not |
| Effects.CommitEffect | src/dfabric/engine.cpp:847-889 | Commit succeeds exactly when the reservation is provisional, its composition RESERVED, and every item registered, eligible and covered; what it leaves when it commits, rolls back or is refused, and why |
| Effects.ActivateEffect | src/dfabric/engine.cpp:891-914 | a COMMITTED, unfenced composition becomes ACTIVE exactly when its epoch is current and every vertex registered, at its bound generation, with current evidence; otherwise it is REVALIDATION_REQUIRED, the reason is the first failure, and nothing else changes |
| Effects.BeginDrainEffect | src/dfabric/engine.cpp:969-978 | succeeds exactly for ACTIVE, COMMITTED or DEGRADED, which is then DRAINING and listed as such; nothing else changes |
| Effects.EndDrainEffect | src/dfabric/engine.cpp:980-997 | succeeds exactly for DRAINING, which is then RELEASED with its reservation, no longer listed as draining and not fenced; otherwise nothing changes |
| Effects.ReleaseEffect | src/dfabric/engine.cpp:1091-1108 | succeeds exactly for what is neither RELEASED nor RETIRED, which is then RELEASED with its reservation and fenced; otherwise nothing changes |
| Effects.ReleaseOldEffect | src/dfabric/engine.cpp:1014-1030 | the releasing section of Recompute ends and fences whatever it finds |
| EventEffects.NodeEntered | src/dfabric/engine.cpp:428-439 | a node with a valid id is on record, every other entry is as it was |
| EventEffects.ResourceEntered | src/dfabric/engine.cpp:441-455 | the same for a resource |
| EventEffects.EvidenceInvalidated | src/dfabric/engine.cpp:500-504 | InvalidateNode voids the evidence of one resource and changes nothing else |
| EventEffects.ResourceWithdrawn | src/dfabric/engine.cpp:506-521 | a withdrawn resource is OFFLINE, NOT_READY and UNREACHABLE with its evidence to be revalidated, and otherwise itself |
| EventEffects.WorkerBuried | src/dfabric/engine.cpp:523-541 | exactly the resources whose evidence names the worker, as owner or provenance, are of UNKNOWN health with void evidence |
| EventEffects.EpochOpened | src/dfabric/engine.cpp:543-554 | exactly the evidence that is not durable is void in the new epoch |
| EventEffects.PolicyEntered | src/dfabric/engine.cpp:927-939 | the policy is on record at the new generation, every other as it was |
| EventEffects.PathEntered | src/dfabric/engine.cpp:941-954 | the path table holds the new evidence under its own ends, every other path as it was |
| EventEffects.ResourceFailed | src/dfabric/engine.cpp:956-967 | a failed resource is OFFLINE and NOT_READY with its evidence to be revalidated, and otherwise itself |
| EventEffects.RecordsDiscovered | src/dfabric/engine.cpp:457-484 | after a discovery round each id holds the last node or resource supplied under it, or what was there |
| EventEffects.PathsDiscovered | src/dfabric/engine.cpp:457-484 | after a discovery round the path table holds every path found between two different known nodes, and every other as it was |
| EventEffects.ReloadKeeps | src/dfabric/engine.cpp:1056-1088 | a reload keeps paths, ledger, fences, the draining set and the reservation counter, drops the reservations and moves the other counters no further than above the loaded ids |
| EventEffects.ReloadTables | src/dfabric/engine.cpp:1056-1085 | under each id the last record of the file: nodes as they are, evidence void unless durable, ACTIVE and COMMITTED to be recomposed, outcomes unknown |
| Invalidation.InvalidationDemotes | src/dfabric/engine.cpp:428-554 | every invalidation only lowers lifecycles: reservations, ledger, fences and counters stay |
| Invalidation.EventsRevoke | src/dfabric/engine.cpp:428-967 | a composition loses its lifecycle in an event if and only if the event concerns it and its lifecycle is one the event lowers, and to which lifecycle it falls; discovery rounds, worker deaths and InvalidateNode, which lowers none, included |
| EngineContract.EventKeepsContract | src/dfabric/engine.cpp:428-967 | from a valid engine every event leads to a valid engine in which exactly the compositions it concerns are lowered, and reservations, holds, fences and counters are as before |
| AuthorityInvariant.RevalidateMeans | src/dfabric/engine.cpp:278-300 | revalidation passes exactly when every member is registered, at the bound generation, with current evidence |
| RecomputeInvariant.NextKeepsSound | src/dfabric/engine.cpp:775-1108 | every step of every run keeps the authority invariant, the order of ids and what each Recompute call relies on between sections; fences and counters only grow |
| AuthorityTheorems.AuthorityIsCurrent | src/dfabric/engine.cpp:891-914 | in every reachable state an ACTIVE composition is bound to the engine's epoch and each member is registered at the generation bound at its position |
| AuthorityTheorems.FencedNeverActive | src/dfabric/engine.cpp:897-909 | a fenced id is never ACTIVE, then or later in any run |
| AuthorityTheorems.BreakBeforeMake | src/dfabric/engine.cpp:999-1038 | once Recompute's releasing section has found the old composition, that one is never ACTIVE again, however the run goes on |
| AuthorityTheorems.RecomputeReturnsTrue | src/dfabric/engine.cpp:999-1038 | when Recompute returns true the replacement has just become ACTIVE under an id and generation above everything issued before it, and the old composition, when the releasing section found it, is another one, fenced and not ACTIVE |
| AuthorityTheorems.PriorAlwaysFound | src/dfabric/engine.cpp:1014-1030 | in runs without a reload the releasing section always finds the old composition |
| AuthorityTheorems.RecomputeNotesRequest | src/dfabric/engine.cpp:999-1007 | Recompute takes the request of the old composition |
| AuthorityTheorems.RecomputeAsksAgain | src/dfabric/engine.cpp:1008-1011 | and composes for that request in the state of that moment, or gives up |
| Reactivation.ActivatableIff | src/dfabric/engine.cpp:891-914 | from every reachable state, an id other than zero becomes ACTIVE in some continuation if and only if it is not fenced |
| Reactivation.BothActivatableIff | src/dfabric/engine.cpp:891-1038 | from every reachable state, two ids are ACTIVE together in some continuation if and only if neither is fenced, so the fence is all that keeps a recomputed composition and its replacement apart |
| PlanBinding.CompositionsCarryPlans | src/dfabric/engine.cpp:816-835 | in every run that reserves only issued plans, reloads included, a COMMITTED or ACTIVE composition has the generation, vertices, edges, request, authority, rank and paths of the plan issued under its id |
| PathTheorems.PathUpdateDemotes | src/dfabric/engine.cpp:941-954 | over the same runs: if at the moment of composing two members that need each other stood on two nodes with a path on record between them, an update of that path at another generation leaves the composition not ACTIVE, and RECOMPOSITION_REQUIRED if it was |
| Quarantine.QuarantineHolds | src/dfabric/engine.cpp:506-541 | after withdrawal, failure or worker death, and any further run that does not register the resource again, no ACTIVE composition contains it and nothing including it can be reserved or committed |
| Quarantine.QuarantineBars | src/dfabric/engine.cpp:775-889 | a resource without current evidence blocks every Reserve and Commit that includes it |
| LedgerArithmetic.TakeHoldsAdds | src/dfabric/engine.cpp:788-806 | whatever the outcome, the ledger has grown by exactly the holds listed |
| LedgerArithmetic.TakeHoldsChecks | src/dfabric/engine.cpp:791-800 | a complete reservation means every vertex was registered, eligible and unheld |
| LedgerArithmetic.TakeHoldsSucceeds | src/dfabric/engine.cpp:791-806 | distinct, registered, eligible, unheld vertices of non-negative capacity are all held |
| LedgerArithmetic.ReleaseSubtracts | src/dfabric/engine.cpp:1097-1103 | when the ledger covers the items, giving back subtracts exactly them: the clamp never bites |
| LedgerArithmetic.TakeThenReleaseRestores | src/dfabric/engine.cpp:788-814 | a failed attempt restores every entry |
| LedgerArithmetic.ScanVerdict | src/dfabric/engine.cpp:874-881 | with the ledger covering every item, the scan passes exactly when every member is registered and eligible, and never reports overcommit |
| Books.ReservationIsOnlyHolder | src/dfabric/engine.cpp:784-835 | what a live reservation names is held by it alone |
| Books.HeldMeansNamed | src/dfabric/engine.cpp:784-835 | a ledger entry is positive exactly when a live reservation names the resource |
| LedgerSteps.ReserveKeepsTidy | src/dfabric/engine.cpp:775-835 | reserving an issued plan keeps books, ownership and everything that is gone |
| LedgerSteps.CommitKeepsTidy | src/dfabric/engine.cpp:847-889 | so does a commit, successful or rolled back |
| LedgerSteps.BeginDrainKeepsTidy | src/dfabric/engine.cpp:969-978 | beginning a drain keeps books, ownership and everything that is gone: the composition keeps its committed reservation |
| LedgerSteps.EndDrainKeepsTidy | src/dfabric/engine.cpp:980-997 | so does ending a drain, with no guard assumed |
| LedgerSteps.ReleaseKeepsTidy | src/dfabric/engine.cpp:1091-1108 | so does a release that takes nothing from anyone else |
| LedgerTheorems.DisciplinedRunIsAccounted | src/dfabric/engine.cpp:775-1108 | every disciplined run keeps the invariant: exact ledger, disjoint live reservations, one matching reservation per composition, lost authority gone |
| LedgerTheorems.ExclusiveAuthority | src/dfabric/engine.cpp:775-914 | two compositions in RESERVED, COMMITTED, ACTIVE, DRAINING or RECOMPOSITION_REQUIRED that share a resource are the same composition |
| LedgerTheorems.HoldConservation | src/dfabric/engine.cpp:788-881 | each ledger entry is the sum over live reservations, zero when none names the resource and otherwise the amount of the single item that does |
| LedgerTheorems.FailedReserveRestores | src/dfabric/engine.cpp:807-815 | a failed Reserve leaves ledger, compositions and reservations as they were |
| LedgerTheorems.CommitIsExact | src/dfabric/engine.cpp:847-889 | Commit never reports OVERCOMMIT, and a roll-back frees exactly its own members |
| LedgerTheorems.LiveReservationIsCovered | src/dfabric/engine.cpp:980-997 | every live reservation is covered exactly, so releasing it never meets the clamp |
| LedgerTheorems.EndDrainFindsCommitted | src/dfabric/engine.cpp:980-997 | a draining composition always finds its own COMMITTED reservation, listing exactly its vertices |
| LedgerTheorems.ReleaseIsExactIff | src/dfabric/engine.cpp:1091-1108 | after any disciplined run, Release keeps the ledger exact if and only if its reservation is live or nothing it lists is held |
| LedgerTheorems.RecomputeReleaseIsExactIff | src/dfabric/engine.cpp:1014-1030 | the same if and only if for Recompute's releasing section |
| LedgerTheorems.LostAuthorityNeverRegained | src/dfabric/engine.cpp:441-554 | an id that ever left ACTIVE for RECOMPOSITION_REQUIRED or REVALIDATION_REQUIRED is not ACTIVE |
| LedgerTheorems.DemotionIsForever | src/dfabric/engine.cpp:441-554 | the same from the demoting step on, however the run continues |
| EndingTheorems.EndDrainFrees | src/dfabric/engine.cpp:980-997 | in every disciplined run EndDrain answers true exactly for a DRAINING composition, which is then RELEASED with its reservation, unlisted and not fenced, the ledger zero at each of its vertices and unchanged elsewhere; otherwise nothing changes |
| EndingTheorems.DrainedCanBeReserved | src/dfabric/engine.cpp:980-997 | afterwards every plan that waited only for the drained composition can be reserved |
| EndingTheorems.ReleaseFrees | src/dfabric/engine.cpp:1091-1108 | the same for a safe Release, which fences |
| EndingTheorems.RecomputeFrees | src/dfabric/engine.cpp:1014-1030 | the same for the releasing section of a disciplined Recompute |
| EndingTheorems.RefusedActivationIsFinal | src/dfabric/engine.cpp:900-909 | a composition whose activation was refused for a stale epoch, member, generation or evidence, directly or in a Recompute, is never ACTIVE again, however the disciplined run goes on |
| Counterexamples.UnguardedReleaseBreaksExclusivity | src/dfabric/engine.cpp:1091-1108 | a run whose only step outside the discipline is a Release after a roll-back: two compositions end up holding one machine |
| Counterexamples.ConcurrentRecomputesBreakExclusivity | src/dfabric/engine.cpp:999-1038 | a run of two concurrent Recomputes of one composition whose only step outside the discipline is the second release: both replacements end up holding one machine |
| Counterexamples.ReloadOrphansHolds | src/dfabric/engine.cpp:1071-1085 | a disciplined run after which every reload leaves ledger and reservations in disagreement |
| Counterexamples.ReloadLetsBothBeActive | src/dfabric/engine.cpp:999-1088 | a run with a reload between Recompute's sections: it returns true, and in the end the old composition and its replacement are both ACTIVE |
| Progress.NextIdIsFresh | src/dfabric/engine.cpp:765-766 | in runs that reserve only issued plans, reloads included, every id in use or fenced lies below the counter |
| Progress.HappyPath | src/dfabric/engine.cpp:765-914 | if Compose succeeds and no vertex is held, Reserve, Commit and Activate run next all succeed and end ACTIVE |
| Restart.LoadIsConservative | src/dfabric/engine.cpp:1056-1085 | after a reload nothing is ACTIVE or COMMITTED, nothing reserved, no evidence that is not durable is current, and new ids lie above every loaded one |
| Restart.LoadIsExactIff | src/dfabric/engine.cpp:1071-1085 | the ledger agrees with the emptied reservation table exactly when nothing was held |
| Restart.EpochBarrier | src/dfabric/engine.cpp:543-554 | advancing the epoch leaves nothing ACTIVE, and later only what is bound to the new epoch is, while it lasts |
| Bytes.ComputeFnv | src/dfabric/protocol.cpp:76-80 | the loop computes FNV-1a |
| Bytes.MulPrimeInvertible | src/dfabric/protocol.cpp:76-80 | multiplying by the FNV prime is undone by its inverse modulo 2^64 |
| Bytes.FnvDetectsOneByte | src/dfabric/persistence.cpp:19-26 | changing exactly one byte always changes the checksum |
| KnownAnswers.FnvRecurrence | src/dfabric/protocol.cpp:76-80 | the checksum of nothing is 0xcbf29ce484222325, and one more byte means the exclusive or with the whole 64-bit word, then the product with 0x100000001b3 modulo 2^64 |
| KnownAnswers.ChecksumOfA | src/dfabric/protocol.cpp:76-80 | the checksum of the single byte 0x61 is 0xaf63dc4c8601ec8c |
| Frames.GlobalMaxFrameLen | src/dfabric/protocol.cpp:66-73 | the loop finds the maximum of the length table |
| Frames.Encode | src/dfabric/protocol.cpp:95-109 | the pushed bytes are the frame's image |
| KnownAnswers.HeartbeatBytes | src/dfabric/protocol.cpp:95-138 | the 29 bytes of a heartbeat with correlation 1 and no payload, and the decoder takes them as that frame |
| KnownAnswers.FrameBounds | src/dfabric/protocol.cpp:37-64 | the payload bound of every frame type, and 0 for every number that is none |
| KnownAnswers.RejectionReasons | src/dfabric/protocol.cpp:111-130 | each error is reported exactly when its check is the first to fail, of magic, version, type, length and checksum; the decoder waits exactly when the header is good and the bytes do not suffice |
| Frames.ParseOneStable | src/dfabric/protocol.cpp:111-138 | a decision about the front of the buffer does not change when more bytes arrive |
| Frames.ParseOneConsumesImage | src/dfabric/protocol.cpp:120-134 | a parsed frame takes exactly the bytes of its own image, at least 29 |
| Frames.ParseOneOfImage | src/dfabric/protocol.cpp:120-134 | an encodable frame's image followed by anything parses as that frame |
| Frames.FrameDecoder.Feed | src/dfabric/protocol.cpp:111-138 | one call emits, keeps and rejects exactly what draining buffer plus data does |
| FrameTheorems.ChunkingInvariance | src/dfabric/protocol.cpp:111-138 | two ways of splitting the same stream give the same frames, the same verdict and, if accepted, the same leftover |
| FrameTheorems.RejectionIsFinal | src/dfabric/protocol.cpp:111-138 | a rejected stream stays rejected with the same frames, whatever follows |
| FrameTheorems.ByteConservation | src/dfabric/protocol.cpp:111-138 | while accepted, the images of all emitted frames followed by the leftover are the bytes fed |
| FrameTheorems.LeftoverIncomplete | src/dfabric/protocol.cpp:111-138 | the leftover is an incomplete frame, so shorter than header, longest payload and checksum together |
| FrameTheorems.EmittedFrames | src/dfabric/protocol.cpp:111-138 | only frames that can be encoded are emitted, and each takes at least 29 bytes |
| FrameTheorems.StreamRoundTrip | src/dfabric/protocol.cpp:95-138 | any chunking of the images of encodable frames decodes to exactly those frames with nothing left |
| FrameTheorems.StreamDecodingIsUnambiguous | src/dfabric/protocol.cpp:95-109 | two frame lists with the same bytes are the same list |
| FrameTheorems.OneByteCorruptionRejected | src/dfabric/protocol.cpp:126-130 | one changed byte outside the length field of any frame of a stream: the frames before it are emitted, then the stream is rejected, whatever follows |
| FrameTheorems.LengthFieldDetectedIff | src/dfabric/protocol.cpp:120-130 | for every content of a length field and whatever precedes and follows: detected if and only if the length is over its type's bound, or the bytes suffice and the checksum differs; otherwise the decoder waits or emits a frame that was not sent, and when is stated |
| FrameTheorems.LengthCorruptionStalls | src/dfabric/protocol.cpp:122-125 | the silent case does happen: a length enlarged within the bound makes the decoder wait |
| Layouts.GetPut | include/dfabric/codec.hpp:27-75 | a written value standing anywhere in the data reads back as itself, or is refused if an enumeration is out of its table or a list over the bound |
| Layouts.SelfDelimiting | include/dfabric/codec.hpp:27-90 | for every layout: a record followed by anything reads back as itself taking exactly its bytes, if and only if it is within its tables and bounds |
| Layouts.StrictPrefixRejected | include/dfabric/codec.hpp:46-64 | for every layout: every strict prefix of a readable record is refused |
| Layouts.Unambiguous | include/dfabric/codec.hpp:27-90 | for every layout: equal bytes mean equal records and equal remainders |
| WireCodec.WireWriter.PutWord | include/dfabric/codec.hpp:30-32 | words are appended least significant byte first |
| WireCodec.WireWriter.PutStr | include/dfabric/codec.hpp:34-38 | a string over the bound throws and nothing is written |
| WireCodec.WireReader.GetNum | include/dfabric/codec.hpp:52-56 | a word is read whole, or the flag latches, zero is returned and nothing moves |
| WireCodec.WireReader.GetStr | include/dfabric/codec.hpp:58 | a string is read whole, or the flag latches |
| WireCodec.Encode | include/dfabric/codec.hpp:77-82 | writing a record appends exactly its bytes, or throws exactly when a string is too long |
| WireCodec.Decode | include/dfabric/codec.hpp:83-90 | the decoder's verdict and the sticky flag both stay true exactly when the layout accepts the bytes; a failed reader stays failed |
| WireCodec.DecodeAll | include/dfabric/codec.hpp:241-252 | the counted loop goes on reading after a short read and still refuses |
| Records.LosslessOrRefused | include/dfabric/codec.hpp:77-90 | any record over any layout is read back whole and refused when cut short, or always refused |
| Records.ParseRecord | include/dfabric/codec.hpp:83-90 | the imperative decoder computes the record at the front of the data |
| Records.EvidenceRoundTrip | include/dfabric/codec.hpp:77-90 | evidence is lossless exactly when source and state are in their tables, and otherwise refused |
| Records.PathRoundTrip | include/dfabric/codec.hpp:211-229 | a path is lossless exactly when its evidence is in its tables, and otherwise refused |
| Records.GraphRoundTrip | include/dfabric/codec.hpp:231-252 | a graph is lossless exactly when both lists are bounded and the edge kinds in the table, and otherwise refused |
| Records.AuthorityRoundTrip | include/dfabric/codec.hpp:254-288 | an authority tuple is lossless exactly when its eight lists are bounded, and otherwise refused |
| Records.ReservationRoundTrip | include/dfabric/codec.hpp:386-398 | a reservation is lossless exactly when its items are bounded and all states in the table, and otherwise refused |
| RecordBytes.EvidenceWrites | include/dfabric/codec.hpp:77-82 | the bytes of evidence, field by field in writing order |
| RecordBytes.PathWrites | include/dfabric/codec.hpp:211-220 | the bytes of a path |
| RecordBytes.GraphWrites | include/dfabric/codec.hpp:231-240 | the bytes of a graph |
| RecordBytes.AuthorityWrites | include/dfabric/codec.hpp:254-272 | the bytes of an authority tuple |
| RecordBytes.ReservationWrites | include/dfabric/codec.hpp:386-391 | the bytes of a reservation |
| RecordBytes.Limits | include/dfabric/codec.hpp:24-25 | strings of up to 32768 bytes and lists of up to 1048576 elements are accepted, longer ones refused |
| Persistence.SavedFileLoads | src/dfabric/persistence.cpp:380-450 | for every layout: what is written between header and checksum loads back, or is refused if it holds a value no reader accepts |
| Persistence.OneByteChangeRejected | src/dfabric/persistence.cpp:429-438 | changing any one byte of a file that passes the checksum makes Load refuse it |
| Persistence.LoadedFileMeans | src/dfabric/persistence.cpp:421-450 | a file is read exactly when it has the four magic bytes, version 1, its own checksum at the end and readable records |
| Persistence.SaveBytes | src/dfabric/persistence.cpp:380-394 | the written bytes are the file image, or none exactly when a string is too long |
| Persistence.LoadBytes | src/dfabric/persistence.cpp:421-450 | the loader computes the layout's reading after the header and checksum tests |
| FileRecords.NodeCoded | src/dfabric/persistence.cpp:165-208 | a node can be written exactly when its strings fit and read back exactly when its enumerations and lists are in bounds besides |
| FileRecords.ResourceCoded | src/dfabric/persistence.cpp:63-163 | the same for a resource with all its capabilities, compatibility pins, tags and evidence |
| FileRecords.ResourceReturns | src/dfabric/persistence.cpp:63-163 | a resource reads back with every field but the coordinates of its failure domain |
| RecordBytes.NodeWrites | src/dfabric/persistence.cpp:165-185 | the bytes of a node in the file |
| RecordBytes.ResourceWrites | src/dfabric/persistence.cpp:63-111 | the bytes of a resource in the file |
| FileStates.CompositionCoded | src/dfabric/persistence.cpp:348-378 | the same for a composition with request, graph, authority and paths |
| FileStates.CompositionReturns | src/dfabric/persistence.cpp:348-378 | a composition reads back with every field but its explanation, its ranking factors and what its request forgets |
| RecordBytes.CompositionWrites | src/dfabric/persistence.cpp:348-362 | the bytes of a composition in the file, its request included |
| RecordBytes.StateImageBytes | src/dfabric/persistence.cpp:380-394 | the bytes of the whole file: magic, version, epoch, nodes, resources, policies, compositions, checksum |
| EmptyFile.EmptyFileBytes | src/dfabric/persistence.cpp:380-394 | the 40 bytes of the file of an engine at epoch 1 with empty tables, and they load back |
| FileStates.SavedRequestForgets | src/dfabric/persistence.cpp:314-346 | a saved request reads back without reachability override, placement constraint (topology, risk bound, allowed domain types) and extra constraints, so as itself exactly when it had none of them |
| FileStates.SavedStateLoads | src/dfabric/persistence.cpp:380-450 | a saved durable state loads back up to the fields the file leaves out if and only if every enumeration is in its table and every list in bounds; otherwise the file is refused |
| FileStates.ChangedStateRefused | src/dfabric/persistence.cpp:429-438 | changing any one byte of a saved state's file makes Load refuse it |
| FileStates.SaveState | src/dfabric/persistence.cpp:380-394 | the bytes of the state, or none exactly when a string or a capacity table is over its bound |
| FileStates.LoadState | src/dfabric/persistence.cpp:421-450 | the state in the file, or none when header, checksum or any record is refused |
| FileAbstraction.ForgetDurableCommutes | src/dfabric/persistence.cpp:314-346 | what the file leaves out is, in the engine's terms, exactly the override and the placement constraint of each request |
| FileFields.StoredStand | src/dfabric/engine.cpp:1042-1054 | which field and code of the stored records is which field of the engine's nodes, resources and compositions |
| FileFields.PoliciesStand | src/dfabric/persistence.cpp:421-450 | a policy is loaded at a generation exactly when that is the last one listed for it |
| FileTables.DurableInTablesIff | src/dfabric/persistence.cpp:63-378 | every enumeration of a stored state is in its table and every list in bounds if and only if the engine's own tables hold no UNKNOWN and no over-long list and neither does any field the engine never reads |
| FileRestart.FileRoundTrip | src/dfabric/engine.cpp:1042-1088 | from every reachable state, the bytes Save writes load into any engine as the same tables (requests without what the file leaves out, evidence that is not durable to be revalidated, ACTIVE and COMMITTED to be recomposed) if and only if every enumeration saved is in its table and every list in bounds; otherwise Load refuses and changes nothing |
| FileRestart.LoadsIffKnown | src/dfabric/engine.cpp:1042-1088 | however a state is stored, its file loads if and only if that holds |
| FileRestart.UnreadFieldDecides | src/dfabric/persistence.cpp:187-208 | one state stored in two ways that differ only in a node's backend: one file loads, the one with an UNKNOWN backend is refused |
| FileRestart.OneNodeIsReached | src/dfabric/engine.cpp:428-439 | that state is the one after registering one node |
| FileRestart.UnknownHealthNeverLoads | src/dfabric/persistence.cpp:113-128 | a state in which a registered resource has UNKNOWN health is written and never loads |
| FileRestart.DeathMakesFileUnloadable | src/dfabric/engine.cpp:523-541 | from every reachable state, after the death of a worker that vouched for a registered resource, the file Save writes is refused by every Load |
| FileEncoding.EncodableIsStored | src/dfabric/engine.cpp:1042-1054 | every engine state with ids, counts, strings and amounts the C++ types can hold has stored records |

## Left out

- LedgerTheorems.ExclusiveAuthority: holds in disciplined runs only; without the release guard it is false, as `Counterexamples.UnguardedReleaseBreaksExclusivity` shows, and a reload orphans the holds in the ledger.
- LedgerTheorems.HoldConservation: holds in disciplined runs only, for the same reasons; `LedgerTheorems.ReleaseIsExactIff` and `Restart.LoadIsExactIff` give the exact conditions.
- AuthorityTheorems.BreakBeforeMake: claimed when the releasing section found the old composition; otherwise it is false, as `Counterexamples.ReloadLetsBothBeActive` shows.
- AuthorityTheorems.RecomputeReturnsTrue: the same holds for what it says of the old composition; `Reactivation.BothActivatableIff` gives the exact condition.
- FabricEngineObject.FabricEngine.Save: the stored records are handed in by the caller and required to be those of the engine's tables, because the class keeps only the fields the engine decides by; gathering them from the tables is not modelled.
- LedgerTheorems.LostAuthorityNeverRegained: holds in disciplined runs only, because it rests on the holds a demoted composition keeps.
- PlannerTheorems.ComposeCompleteAndOptimal: completeness is claimed below the caps, as the engine searches no further; above them `PlannerTheorems.MaximalAmongEnumerated` applies.
- FrameTheorems.OneByteCorruptionRejected: the length field is excluded, because the decoder really does wait there; `FrameTheorems.LengthFieldDetectedIff` covers it.
- Records.LosslessOrRefused: records are described by layouts that one encoder and one decoder interpret; the per-record C++ functions are those layouts.
- FileStates.SavedStateLoads: maps and sets are lists in key order, so colliding keys in a foreign file are not merged; vectors are assumed shorter than 2^32.
- FileRestart.FileRoundTrip: which real number a 64-bit pattern denotes is a parameter; NaN and rounding are not modelled.
- PathTheorems.PathUpdateDemotes: an update finds a composition by the ends written in the path evidence; a backend that labels a path with other ends than those it was asked for is found under those.
- RequestTheorems.ComposeAcceptsIff: the caps are assumed not to be hit, as the engine searches no further; `RequestCaps.RoomyRequestAcceptedIff` says from the registered resources when they are not.
- Identities, generations and counters of the engine are unbounded naturals; wrap-around at 2^64 is not modelled.
- Backends: discovery takes what they supply as parameters, and Compose runs as if none were attached, so its mid-search overwriting of the path table is not modelled.
- Currency of policy, node and path generations of ACTIVE compositions, and of evidence after InvalidateNode: not claimed, since Activate checks only epoch, resource generation and evidence.
- Fencing of drained compositions: EndDrain does not fence, so a drained plan may be reserved again.
- Inspection: snapshots, counts, eligibility explanations, ToString tables, notes, canonical keys, plan node lists and path generations carry no decision.
- File replacement in Save and Load: only byte sequences are modelled, and no crash atomicity is claimed.
- Sockets, coordinator and worker loops, process helpers, command line, benchmarks, examples and the CUDA path: drivers with no invariant of their own.
