/** What taking and giving back holds does to the ledger, entry by entry. */
module LedgerArithmetic {
  import opened FabricTypes
  import opened Eligibility
  import opened Engine

  /** How much a list of items holds of one resource. */
  function Sum(items: seq<Item>, rid: ResourceId): real
  {
    if items == [] then 0.0 else (if items[0].resource == rid then items[0].amount else 0.0) + Sum(items[1..], rid)
  }

  ghost predicate AmountsNonNegative(items: seq<Item>)
  {
    forall i :: 0 <= i < |items| ==> items[i].amount >= 0.0
  }

  lemma {:induction false} SumAppend(a: seq<Item>, b: seq<Item>, rid: ResourceId)
    ensures Sum(a + b, rid) == Sum(a, rid) + Sum(b, rid)
  {
    if a == [] {
      assert a + b == b;
    } else {
      SumAppend(a[1..], b, rid);
      assert (a + b)[1..] == a[1..] + b;
    }
  }

  lemma {:induction false} SumNonNegative(items: seq<Item>, rid: ResourceId)
    requires AmountsNonNegative(items)
    ensures Sum(items, rid) >= 0.0
    ensures forall i :: 0 <= i < |items| && items[i].resource == rid ==> Sum(items, rid) >= items[i].amount
  {
    if items != [] {
      assert forall i :: 0 <= i < |items| - 1 ==> items[1..][i] == items[i + 1];
      SumNonNegative(items[1..], rid);
      forall i | 0 <= i < |items| && items[i].resource == rid ensures Sum(items, rid) >= items[i].amount {
        if i > 0 { assert items[1..][i - 1] == items[i]; }
      }
    }
  }

  lemma {:induction false} SumAbsent(items: seq<Item>, rid: ResourceId)
    requires forall i :: 0 <= i < |items| ==> items[i].resource != rid
    ensures Sum(items, rid) == 0.0
  {
    if items != [] {
      assert forall i :: 0 <= i < |items| - 1 ==> items[1..][i] == items[i + 1];
      SumAbsent(items[1..], rid);
    }
  }

  /** A resource listed once contributes exactly its own amount. */
  lemma {:induction false} SumSingle(items: seq<Item>, k: nat, rid: ResourceId)
    requires k < |items| && items[k].resource == rid
    requires forall i :: 0 <= i < |items| && i != k ==> items[i].resource != rid
    ensures Sum(items, rid) == items[k].amount
  {
    assert forall i :: 0 <= i < |items| - 1 ==> items[1..][i] == items[i + 1];
    if k == 0 { SumAbsent(items[1..], rid); } else { SumSingle(items[1..], k - 1, rid); }
  }

  lemma {:induction false} SumSameAmounts(a: seq<Item>, b: seq<Item>, rid: ResourceId)
    requires |a| == |b| && forall i :: 0 <= i < |a| ==> a[i].resource == b[i].resource && a[i].amount == b[i].amount
    ensures Sum(a, rid) == Sum(b, rid)
  {
    if a != [] {
      assert forall i :: 0 <= i < |a| - 1 ==> a[1..][i] == a[i + 1] && b[1..][i] == b[i + 1];
      SumSameAmounts(a[1..], b[1..], rid);
    }
  }

  // ---- taking holds ------------------------------------------------------------

  /** `items` holds the vertices `vs` in order, each provisionally and for its full hold amount. */
  ghost predicate HoldsOf(resources: map<ResourceId, Resource>, vs: seq<ResourceId>, items: seq<Item>)
  {
    |items| == |vs| && forall i :: 0 <= i < |vs| ==>
      && vs[i] in resources && items[i].resource == vs[i] && items[i].state == Provisional
      && items[i].amount == HoldAmount(resources[vs[i]])
  }

  /** The item a hold on one vertex leaves behind. */
  ghost predicate HoldsFirst(resources: map<ResourceId, Resource>, vs: seq<ResourceId>, item: Item)
  {
    vs != [] && vs[0] in resources && item == Item(vs[0], Provisional, HoldAmount(resources[vs[0]]))
  }

  /** One hold: refused without effect, or the entry of an unheld eligible resource grows by its amount. */
  lemma HoldOneEffect(resources: map<ResourceId, Resource>, req: Request, rid: ResourceId, held: map<ResourceId, real>)
    ensures var h := HoldOne(resources, req, rid, held);
            && (h.Refused? ==> forall x :: HeldOf(h.held, x) == HeldOf(held, x))
            && (h.Held? ==>
                  && rid in resources && Check(resources[rid], req).Eligible? && HeldOf(held, rid) <= 0.0
                  && h.item == Item(rid, Provisional, HoldAmount(resources[rid]))
                  && forall x :: HeldOf(h.held, x) == HeldOf(held, x) + if x == rid then h.item.amount else 0.0)
    ensures (&& rid in resources && Check(resources[rid], req).Eligible? && HeldOf(held, rid) <= 0.0
             && NonNegative(resources[rid].capacity)) ==>
              HoldOne(resources, req, rid, held).Held?
  {
  }

  lemma HoldsCons(resources: map<ResourceId, Resource>, vs: seq<ResourceId>, items: seq<Item>, item: Item)
    requires HoldsFirst(resources, vs, item)
    requires |items| < |vs| && HoldsOf(resources, vs[1..][..|items|], items)
    ensures HoldsOf(resources, vs[..|items| + 1], [item] + items)
    ensures forall rid :: Sum([item] + items, rid) == (if rid == item.resource then item.amount
        else 0.0) + Sum(items, rid)
  {
    var all, front := [item] + items, vs[..|items| + 1];
    assert all[1..] == items;
    forall i | 0 <= i < |front|
      ensures front[i] in resources && all[i] == Item(front[i], Provisional, HoldAmount(resources[front[i]]))
    {
      if i > 0 { assert all[i] == items[i - 1] && front[i] == vs[1..][..|items|][i - 1]; }
    }
  }

  /** `h` extends `items` by `more`, the holds of a prefix of `vs`, and the ledger by exactly their amounts. */
  ghost predicate Grown(resources: map<ResourceId, Resource>, vs: seq<ResourceId>, held: map<ResourceId, real>,
                        items: seq<Item>, h: Holds, more: seq<Item>)
  {
    && h.items == items + more && |more| <= |vs|
    && HoldsOf(resources, vs[..|more|], more)
    && (h.failure.None? ==> |more| == |vs|)
    && (forall rid :: HeldOf(h.held, rid) == HeldOf(held, rid) + Sum(more, rid))
  }

  lemma GrownStep(resources: map<ResourceId, Resource>, vs: seq<ResourceId>, held: map<ResourceId, real>,
                  items: seq<Item>,
                  h: Holds, now: map<ResourceId, real>, item: Item, rest: seq<Item>)
    requires HoldsFirst(resources, vs, item)
    requires forall x :: HeldOf(now, x) == HeldOf(held, x) + if x == item.resource then item.amount else 0.0
    requires Grown(resources, vs[1..], now, items + [item], h, rest)
    ensures Grown(resources, vs, held, items, h, [item] + rest)
  {
    HoldsCons(resources, vs, rest, item);
    assert items + [item] + rest == items + ([item] + rest);
  }

  /** Whatever the outcome, the ledger has grown by exactly the holds listed. */
  lemma {:induction false} TakeHoldsAdds(resources: map<ResourceId, Resource>, req: Request, vs: seq<ResourceId>,
                                         held: map<ResourceId, real>, items: seq<Item>) returns (more: seq<Item>)
    ensures Grown(resources, vs, held, items, TakeHolds(resources, req, vs, held, items), more)
    decreases |vs|
  {
    more := [];
    if vs != [] {
      HoldOneEffect(resources, req, vs[0], held);
      var h := HoldOne(resources, req, vs[0], held);
      if h.Held? {
        var rest := TakeHoldsAdds(resources, req, vs[1..], h.held, items + [h.item]);
        more := [h.item] + rest;
        GrownStep(resources, vs, held, items, TakeHolds(resources, req, vs, held, items), h.held, h.item, rest);
      }
    }
  }

  /** A vertex list is held completely only if every vertex is registered, eligible and, before the
      call, not held. */
  lemma {:induction false} TakeHoldsChecks(resources: map<ResourceId, Resource>, req: Request, vs: seq<ResourceId>,
                                           held: map<ResourceId, real>, items: seq<Item>)
    requires forall i, j :: 0 <= i < j < |vs| ==> vs[i] != vs[j]
    requires TakeHolds(resources, req, vs, held, items).failure.None?
    ensures forall i :: 0 <= i < |vs| ==>
        vs[i] in resources && Check(resources[vs[i]], req).Eligible? && HeldOf(held, vs[i]) <= 0.0
    decreases |vs|
  {
    if vs != [] {
      HoldOneEffect(resources, req, vs[0], held);
      var h := HoldOne(resources, req, vs[0], held);
      assert forall i :: 0 <= i < |vs| - 1 ==> vs[1..][i] == vs[i + 1];
      TakeHoldsChecks(resources, req, vs[1..], h.held, items + [h.item]);
      forall i | 0 <= i < |vs|
        ensures vs[i] in resources && Check(resources[vs[i]], req).Eligible? && HeldOf(held, vs[i]) <= 0.0
      {
        if i > 0 { assert vs[i] == vs[1..][i - 1] && vs[i] != vs[0]; }
      }
    }
  }

  /** The converse: distinct, registered, eligible, unheld vertices with non-negative capacity are all held. */
  lemma {:induction false} TakeHoldsSucceeds(resources: map<ResourceId, Resource>, req: Request, vs: seq<ResourceId>,
                                             held: map<ResourceId, real>, items: seq<Item>)
    requires forall i, j :: 0 <= i < j < |vs| ==> vs[i] != vs[j]
    requires forall i :: 0 <= i < |vs| ==>
        vs[i] in resources && Check(resources[vs[i]], req).Eligible? && HeldOf(held, vs[i]) <= 0.0
    requires forall i :: 0 <= i < |vs| ==> NonNegative(resources[vs[i]].capacity)
    ensures TakeHolds(resources, req, vs, held, items).failure.None?
    decreases |vs|
  {
    if vs != [] {
      HoldOneEffect(resources, req, vs[0], held);
      var h := HoldOne(resources, req, vs[0], held);
      forall i | 0 <= i < |vs| - 1
        ensures vs[1..][i] == vs[i + 1] && HeldOf(h.held, vs[1..][i]) <= 0.0
      {
        assert vs[1..][i] == vs[i + 1] && vs[i + 1] != vs[0];
      }
      TakeHoldsSucceeds(resources, req, vs[1..], h.held, items + [h.item]);
    }
  }

  // ---- giving holds back -------------------------------------------------------

  lemma GiveBackOne(held: map<ResourceId, real>, rid: ResourceId, amount: real, x: ResourceId)
    requires 0.0 <= amount <= HeldOf(held, rid)
    ensures HeldOf(GiveBack(held, rid, amount), x) == HeldOf(held, x) - if x == rid then amount else 0.0
  {
  }

  /** When the ledger covers the items, giving them back subtracts exactly them: the clamp never bites. */
  lemma {:induction false} ReleaseSubtracts(held: map<ResourceId, real>, items: seq<Item>)
    requires AmountsNonNegative(items)
    requires forall rid :: HeldOf(held, rid) >= Sum(items, rid)
    ensures forall rid :: HeldOf(ReleaseItems(held, items), rid) == HeldOf(held, rid) - Sum(items, rid)
    decreases |items|
  {
    if items != [] {
      var item := items[0];
      assert forall i :: 0 <= i < |items| - 1 ==> items[1..][i] == items[i + 1];
      SumNonNegative(items, item.resource);
      var rest := GiveBack(held, item.resource, item.amount);
      forall rid ensures HeldOf(rest, rid) == HeldOf(held, rid) - (if rid == item.resource then item.amount else 0.0)
      {
        GiveBackOne(held, item.resource, item.amount, rid);
      }
      ReleaseSubtracts(rest, items[1..]);
    }
  }

  /** All-or-nothing: taking holds and giving them all back restores every entry. */
  lemma TakeThenReleaseRestores(resources: map<ResourceId, Resource>, req: Request, vs: seq<ResourceId>,
                                held: map<ResourceId, real>)
    requires forall rid :: HeldOf(held, rid) >= 0.0
    requires forall k :: k in resources ==> HoldAmount(resources[k]) >= 0.0
    ensures var h := TakeHolds(resources, req, vs, held, []);
            forall rid :: HeldOf(ReleaseItems(h.held, h.items), rid) == HeldOf(held, rid)
  {
    var h := TakeHolds(resources, req, vs, held, []);
    var more := TakeHoldsAdds(resources, req, vs, held, []);
    assert h.items == more;
    ReleaseSubtracts(h.held, h.items);
  }

  /** Holds that nobody has any more are released without effect. */
  lemma {:induction false} ReleaseNothing(held: map<ResourceId, real>, items: seq<Item>)
    requires AmountsNonNegative(items)
    requires forall i :: 0 <= i < |items| ==> HeldOf(held, items[i].resource) == 0.0
    ensures forall rid :: HeldOf(ReleaseItems(held, items), rid) == HeldOf(held, rid)
    decreases |items|
  {
    if items != [] {
      var rest := GiveBack(held, items[0].resource, items[0].amount);
      assert forall i :: 0 <= i < |items| - 1 ==> items[1..][i] == items[i + 1];
      assert forall rid :: HeldOf(rest, rid) == HeldOf(held, rid);
      ReleaseNothing(rest, items[1..]);
    }
  }

  /** Releasing never raises an entry, and lowers the entry of a released item whenever it was positive. */
  lemma {:induction false} ReleaseLowers(held: map<ResourceId, real>, items: seq<Item>, rid: ResourceId)
    requires forall i :: 0 <= i < |items| ==> items[i].amount > 0.0
    requires HeldOf(held, rid) >= 0.0
    ensures 0.0 <= HeldOf(ReleaseItems(held, items), rid) <= HeldOf(held, rid)
    ensures HeldOf(held, rid) > 0.0 && (exists i :: 0 <= i < |items| && items[i].resource == rid) ==>
              HeldOf(ReleaseItems(held, items), rid) < HeldOf(held, rid)
    decreases |items|
  {
    if items != [] {
      var rest := GiveBack(held, items[0].resource, items[0].amount);
      assert forall i :: 0 <= i < |items| - 1 ==> items[1..][i] == items[i + 1];
      ReleaseLowers(rest, items[1..], rid);
      if i :| 0 <= i < |items| && items[i].resource == rid {
        if i > 0 { assert items[1..][i - 1].resource == rid; }
      }
    }
  }

  /** The commit scan only reads. */
  lemma {:induction false} ScanOnlyReads(resources: map<ResourceId, Resource>, req: Request, items: seq<Item>,
                                         held: map<ResourceId, real>)
    ensures forall rid :: HeldOf(ScanItems(resources, req, items, held).held, rid) == HeldOf(held, rid)
    decreases |items|
  {
    if items != [] && items[0].resource in resources && Check(resources[items[0].resource], req).Eligible? {
      var touched := Touch(held, items[0].resource);
      if !(touched[items[0].resource] < items[0].amount) {
        ScanOnlyReads(resources, req, items[1..], touched);
      }
    }
  }

  /** With the ledger covering every item, the scan fails only for an unregistered or ineligible member. */
  lemma {:induction false} ScanVerdict(resources: map<ResourceId, Resource>, req: Request, items: seq<Item>,
                                       held: map<ResourceId, real>)
    requires forall i :: 0 <= i < |items| ==> HeldOf(held, items[i].resource) >= items[i].amount
    ensures ScanItems(resources, req, items, held).failure != Some(Overcommit)
    ensures ScanItems(resources, req, items, held).failure.None? <==>
              forall i :: 0 <= i < |items| ==>
                items[i].resource in resources && Check(resources[items[i].resource], req).Eligible?
    decreases |items|
  {
    if items != [] {
      var touched := Touch(held, items[0].resource);
      forall i | 0 <= i < |items| - 1
        ensures items[1..][i] == items[i + 1] && HeldOf(touched, items[1..][i].resource) >= items[1..][i].amount
      {
        assert HeldOf(held, items[i + 1].resource) >= items[i + 1].amount;
      }
      ScanVerdict(resources, req, items[1..], touched);
      if forall i :: 0 <= i < |items| ==>
        items[i].resource in resources && Check(resources[items[i].resource], req).Eligible? {
        assert items[0].resource in resources;
      }
      if ScanItems(resources, req, items, held).failure.None? {
        forall i | 0 <= i < |items|
          ensures items[i].resource in resources && Check(resources[items[i].resource], req).Eligible?
        {
          if i > 0 { assert items[i] == items[1..][i - 1]; }
        }
      }
    }
  }
}
