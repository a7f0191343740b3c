/** The reservation table and the hold ledger kept in agreement: each ledger entry is the sum
    over the live reservations, and no two live reservations name the same resource. */
module Books {
  import opened FabricTypes
  import opened Engine
  import opened LedgerArithmetic
  import opened Runs

  /** What reservation number k holds of a resource now. */
  function Share(resvs: map<ReservationId, Reservation>, k: nat, rid: ResourceId): real
  {
    if k in resvs && Live(resvs[k]) then Sum(resvs[k].items, rid) else 0.0
  }

  /** What the live reservations numbered below n hold of a resource. */
  function LiveSum(resvs: map<ReservationId, Reservation>, n: nat, rid: ResourceId): real
  {
    if n == 0 then 0.0 else LiveSum(resvs, n - 1, rid) + Share(resvs, n - 1, rid)
  }

  ghost predicate Names(items: seq<Item>, rid: ResourceId)
  {
    exists i :: 0 <= i < |items| && items[i].resource == rid
  }

  /** Positive amounts of distinct resources. */
  ghost predicate GoodItems(items: seq<Item>)
  {
    && (forall i :: 0 <= i < |items| ==> items[i].amount > 0.0)
    && (forall i, j :: 0 <= i < j < |items| ==> items[i].resource != items[j].resource)
  }

  ghost predicate Listed(resvs: map<ReservationId, Reservation>, n: nat)
  {
    forall k :: k in resvs ==> k < n && GoodItems(resvs[k].items)
  }

  ghost predicate Disjoint(resvs: map<ReservationId, Reservation>)
  {
    forall j, k, rid ::
      (&& (j in resvs && Live(resvs[j]) && Names(resvs[j].items, rid))
       && (k in resvs && Live(resvs[k]) && Names(resvs[k].items, rid))) ==> j == k
  }

  /** The hold ledger agrees with the live reservations. */
  ghost predicate Exact(resvs: map<ReservationId, Reservation>, held: map<ResourceId, real>, n: nat)
  {
    forall rid :: HeldOf(held, rid) == LiveSum(resvs, n, rid)
  }

  ghost predicate Balanced(resvs: map<ReservationId, Reservation>, held: map<ResourceId, real>, n: nat)
  {
    Listed(resvs, n) && Disjoint(resvs) && Exact(resvs, held, n)
  }

  // ---- sums --------------------------------------------------------------------

  lemma SumOfGood(items: seq<Item>, rid: ResourceId)
    requires GoodItems(items)
    ensures Sum(items, rid) >= 0.0 && (Sum(items, rid) > 0.0 <==> Names(items, rid))
    ensures forall i :: 0 <= i < |items| && items[i].resource == rid ==> Sum(items, rid) == items[i].amount
  {
    SumNonNegative(items, rid);
    if !Names(items, rid) { SumAbsent(items, rid); }
    forall i | 0 <= i < |items| && items[i].resource == rid ensures Sum(items, rid) == items[i].amount {
      SumSingle(items, i, rid);
    }
  }

  lemma ShareNonNegative(resvs: map<ReservationId, Reservation>, n: nat, k: nat, rid: ResourceId)
    requires Listed(resvs, n)
    ensures Share(resvs, k, rid) >= 0.0
    ensures Share(resvs, k, rid) > 0.0 <==> k in resvs && Live(resvs[k]) && Names(resvs[k].items, rid)
  {
    if k in resvs { SumOfGood(resvs[k].items, rid); }
  }

  lemma {:induction false} LiveSumUpdate(resvs: map<ReservationId, Reservation>, k: ReservationId, v: Reservation,
                                         n: nat, rid: ResourceId)
    ensures LiveSum(resvs[k := v], n, rid) ==
              LiveSum(resvs, n, rid) + if k < n then Share(resvs[k := v], k, rid) - Share(resvs, k, rid) else 0.0
  {
    if n > 0 { LiveSumUpdate(resvs, k, v, n - 1, rid); }
  }

  lemma {:induction false} LiveSumCovers(resvs: map<ReservationId, Reservation>, top: nat, n: nat, k: nat,
                                         rid: ResourceId)
    requires Listed(resvs, top)
    ensures LiveSum(resvs, n, rid) >= 0.0 && (k < n ==> LiveSum(resvs, n, rid) >= Share(resvs, k, rid))
  {
    if n > 0 {
      ShareNonNegative(resvs, top, n - 1, rid);
      LiveSumCovers(resvs, top, n - 1, k, rid);
    }
  }

  /** Nobody else names the resource: the sum is one share. */
  lemma {:induction false} LiveSumSingle(resvs: map<ReservationId, Reservation>, n: nat, k: nat, rid: ResourceId)
    requires forall j :: 0 <= j < n && j != k ==> Share(resvs, j, rid) == 0.0
    ensures LiveSum(resvs, n, rid) == if k < n then Share(resvs, k, rid) else 0.0
  {
    if n > 0 { LiveSumSingle(resvs, n - 1, k, rid); }
  }

  lemma ReservationIsOnlyHolder(resvs: map<ReservationId, Reservation>, held: map<ResourceId, real>, n: nat,
                                k: ReservationId, rid: ResourceId)
    requires Balanced(resvs, held, n) && k in resvs && Live(resvs[k]) && Names(resvs[k].items, rid)
    ensures HeldOf(held, rid) == Sum(resvs[k].items, rid) > 0.0
  {
    forall j | 0 <= j < n && j != k ensures Share(resvs, j, rid) == 0.0 { ShareNonNegative(resvs, n, j, rid); }
    LiveSumSingle(resvs, n, k, rid);
    SumOfGood(resvs[k].items, rid);
  }

  lemma UnnamedIsFree(resvs: map<ReservationId, Reservation>, held: map<ResourceId, real>, n: nat, rid: ResourceId)
    requires Balanced(resvs, held, n)
    requires forall k :: k in resvs && Live(resvs[k]) ==> !Names(resvs[k].items, rid)
    ensures HeldOf(held, rid) == 0.0
  {
    forall j | 0 <= j < n && j != n ensures Share(resvs, j, rid) == 0.0 { ShareNonNegative(resvs, n, j, rid); }
    LiveSumSingle(resvs, n, n, rid);
  }

  /** A ledger entry is positive exactly when some live reservation names the resource. */
  lemma HeldMeansNamed(resvs: map<ReservationId, Reservation>, held: map<ResourceId, real>, n: nat, rid: ResourceId)
    requires Balanced(resvs, held, n)
    ensures HeldOf(held, rid) >= 0.0
    ensures HeldOf(held, rid) > 0.0 <==> exists k :: k in resvs && Live(resvs[k]) && Names(resvs[k].items, rid)
  {
    if k :| k in resvs && Live(resvs[k]) && Names(resvs[k].items, rid) {
      ReservationIsOnlyHolder(resvs, held, n, k, rid);
    } else {
      UnnamedIsFree(resvs, held, n, rid);
    }
  }

  // ---- what keeps the books ----------------------------------------------------

  /** A failed attempt uses up a number and leaves every entry as it was. */
  lemma SkipNumber(resvs: map<ReservationId, Reservation>, held: map<ResourceId, real>, n: nat,
                   held': map<ResourceId, real>)
    requires Balanced(resvs, held, n) && forall rid :: HeldOf(held', rid) == HeldOf(held, rid)
    ensures Balanced(resvs, held', n + 1)
  {
  }

  /** A new reservation of resources that nobody held. */
  lemma Enter(resvs: map<ReservationId, Reservation>, held: map<ResourceId, real>, n: nat, v: Reservation,
              held': map<ResourceId, real>)
    requires Balanced(resvs, held, n) && Live(v) && GoodItems(v.items)
    requires forall i :: 0 <= i < |v.items| ==> HeldOf(held, v.items[i].resource) <= 0.0
    requires forall rid :: HeldOf(held', rid) == HeldOf(held, rid) + Sum(v.items, rid)
    ensures Balanced(resvs[n := v], held', n + 1)
  {
    var resvs' := resvs[n := v];
    forall rid | Names(v.items, rid) ensures forall k :: k in resvs && Live(resvs[k]) ==> !Names(resvs[k].items, rid) {
      HeldMeansNamed(resvs, held, n, rid);
    }
    assert Disjoint(resvs');
    forall rid ensures HeldOf(held', rid) == LiveSum(resvs', n + 1, rid) { LiveSumUpdate(resvs, n, v, n + 1, rid); }
  }

  /** The same holds under another stamp. */
  lemma Restamp(resvs: map<ReservationId, Reservation>, held: map<ResourceId, real>, n: nat, k: ReservationId,
                v: Reservation, held': map<ResourceId, real>)
    requires Balanced(resvs, held, n) && k in resvs && Live(resvs[k]) && Live(v)
    requires |v.items| == |resvs[k].items|
    requires forall i :: 0 <= i < |v.items| ==>
        v.items[i].resource == resvs[k].items[i].resource && v.items[i].amount == resvs[k].items[i].amount
    requires forall rid :: HeldOf(held', rid) == HeldOf(held, rid)
    ensures Balanced(resvs[k := v], held', n)
  {
    forall rid ensures HeldOf(held', rid) == LiveSum(resvs[k := v], n, rid) {
      LiveSumUpdate(resvs, k, v, n, rid);
      SumSameAmounts(v.items, resvs[k].items, rid);
    }
    forall rid ensures Names(v.items, rid) <==> Names(resvs[k].items, rid) {
      if i :| 0 <= i < |v.items| && v.items[i].resource == rid { assert resvs[k].items[i].resource == rid; }
      if i :| 0 <= i < |v.items| && resvs[k].items[i].resource == rid { assert v.items[i].resource == rid; }
    }
  }

  /** Giving back a live reservation. */
  lemma Close(resvs: map<ReservationId, Reservation>, held: map<ResourceId, real>, n: nat, k: ReservationId,
              v: Reservation, same: map<ResourceId, real>)
    requires Balanced(resvs, held, n) && k in resvs && Live(resvs[k])
    requires v.items == resvs[k].items && !Live(v) && forall rid :: HeldOf(same, rid) == HeldOf(held, rid)
    ensures Balanced(resvs[k := v], ReleaseItems(same, v.items), n)
  {
    forall rid ensures HeldOf(held, rid) >= Sum(v.items, rid) { LiveSumCovers(resvs, n, n, k, rid); }
    ReleaseSubtracts(same, v.items);
    forall rid ensures HeldOf(ReleaseItems(same, v.items), rid) == LiveSum(resvs[k := v], n, rid) {
      LiveSumUpdate(resvs, k, v, n, rid);
    }
  }

  /** Giving back a reservation that is no longer live, when nothing it lists is held. */
  lemma CloseAgain(resvs: map<ReservationId, Reservation>, held: map<ResourceId, real>, n: nat, k: ReservationId,
                   v: Reservation)
    requires Balanced(resvs, held, n) && k in resvs && !Live(resvs[k])
    requires v.items == resvs[k].items && !Live(v)
    requires forall i :: 0 <= i < |v.items| ==> HeldOf(held, v.items[i].resource) == 0.0
    ensures Balanced(resvs[k := v], ReleaseItems(held, v.items), n)
  {
    ReleaseNothing(held, v.items);
    forall rid ensures HeldOf(ReleaseItems(held, v.items), rid) == LiveSum(resvs[k := v], n, rid) {
      LiveSumUpdate(resvs, k, v, n, rid);
    }
  }

  /** Otherwise it takes away a hold of somebody else, and the books no longer balance. */
  lemma CloseAgainBreaks(resvs: map<ReservationId, Reservation>, held: map<ResourceId, real>, n: nat, k: ReservationId,
                         v: Reservation, i: nat)
    requires Balanced(resvs, held, n) && k in resvs && !Live(resvs[k])
    requires v.items == resvs[k].items && !Live(v)
    requires i < |v.items| && HeldOf(held, v.items[i].resource) != 0.0
    ensures !Exact(resvs[k := v], ReleaseItems(held, v.items), n)
  {
    var rid := v.items[i].resource;
    HeldMeansNamed(resvs, held, n, rid);
    ReleaseLowers(held, v.items, rid);
    LiveSumUpdate(resvs, k, v, n, rid);
    assert HeldOf(ReleaseItems(held, v.items), rid) != LiveSum(resvs[k := v], n, rid);
  }
}
