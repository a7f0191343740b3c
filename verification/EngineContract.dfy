/** What the engine object promises besides its exact transitions: the invariant every method keeps,
    and what an event takes away. */
module EngineContract {
  import opened FabricTypes
  import E = Engine
  import R = Runs
  import opened Invalidation
  import opened AuthorityInvariant
  import opened RecomputeInvariant
  import opened Quarantine
  import opened Restart

  /** Authority is current, records are filed under their ids, reservation numbers lie below the counter. */
  ghost predicate Sane(s: E.State) { Current(s) && Numbered(s) && NodesFiled(s) }

  lemma KeepsSane(s: E.State, call: R.Call)
    requires Sane(s)
    ensures Sane(R.Operation(s, call))
  {
    OperationKeepsCurrent(s, call);
    OperationExtends(s, call);
    OperationFilesNodes(s, call);
  }

  lemma ReserveKeepsSane(s: E.State, plan: Plan)
    requires Sane(s)
    ensures Sane(E.Reserve(s, plan).0)
  {
    ReserveKeepsCurrent(s, plan);
    ReserveExtends(s, plan);
    ReserveKeepsNodes(s, plan);
  }

  lemma CommitKeepsSane(s: E.State, vid: ReservationId)
    requires Sane(s)
    ensures Sane(E.Commit(s, vid).0)
  {
    CommitKeepsCurrent(s, vid);
    CommitExtends(s, vid);
    CommitKeepsNodes(s, vid);
  }

  lemma ActivateKeepsSane(s: E.State, cid: CompositionId)
    requires Sane(s)
    ensures Sane(E.Activate(s, cid).0)
  {
    ActivateKeepsCurrent(s, cid);
    ActivateExtends(s, cid);
    LifecycleKeepsNodes(s, cid);
  }

  lemma ReleasingKeepsSane(s: E.State, cid: CompositionId)
    requires Sane(s)
    ensures Sane(E.Release(s, cid).0) && Sane(E.ReleaseOld(s, cid))
  {
    ReleaseKeepsCurrent(s, cid);
    ReleaseExtends(s, cid);
    EndingKeepsNodes(s, cid);
  }

  lemma LoadKeepsSane(s: E.State, d: E.Durable)
    requires Sane(s)
    ensures Sane(E.Load(s, d))
  {
    LoadKeepsCurrent(s, d);
    LoadedNodes(d.nodes);
  }

  lemma CountingKeepsSane(s: E.State, t: E.State)
    requires Sane(s) && t == s.(nextComp := t.nextComp)
    ensures Sane(t)
  {
  }

  /** The event only lowers lifecycles, leaves reservations, holds, fences and counters alone, and
      takes away the authority it has made stale and no other. */
  ghost predicate Revokes(s: E.State, call: R.Call, t: E.State) { Demoted(s, t) && Revoked(s, call, t) }

  /** An event, from a sane state: sane again, with exactly that authority gone. */
  lemma EventKeepsContract(s: E.State, call: R.Call)
    requires Sane(s) && IsInvalidation(call)
    ensures Sane(R.Operation(s, call)) && Revokes(s, call, R.Operation(s, call))
  {
    KeepsSane(s, call);
    InvalidationDemotes(s, call);
    EventsRevoke(s, call);
  }

  /** Everything the owner vouched for is in quarantine. */
  ghost predicate OwnerQuarantined(s: E.State, owner: string, t: E.State)
  {
    forall rid :: rid in s.resources && E.OwnedBy(s.resources[rid], owner) ==> Quarantined(t, rid)
  }

  lemma DeathQuarantinesAll(s: E.State, owner: string)
    ensures OwnerQuarantined(s, owner, E.WorkerDeath(s, owner))
  {
    forall rid | rid in s.resources && E.OwnedBy(s.resources[rid], owner)
      ensures Quarantined(E.WorkerDeath(s, owner), rid) {
      DeathQuarantines(s, owner, rid);
    }
  }

  /** Nothing is ACTIVE, and no evidence is current unless it is durable or was not invalidated. */
  ghost predicate EpochOpened(t: E.State, next: Epoch)
  {
    && t.epoch == next
    && (forall id :: id in t.comps ==> t.comps[id].lifecycle != Active)
    && (forall k :: k in t.resources && !t.resources[k].evidence.durable ==> !t.resources[k].evidence.IsCurrent())
  }

  lemma AdvanceOpensEpoch(s: E.State, next: Epoch)
    requires next != 0
    ensures EpochOpened(E.AdvanceEpoch(s, next), next)
  {
  }
}
