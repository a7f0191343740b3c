/** The order of the capped product: combinations are listed in lexicographic order of the per-class
    choices they stand for, so "first of maximal rank" means first in that order. */
module ProductOrder {
  import opened FabricTypes
  import opened Eligibility
  import opened Candidates
  import opened Enumeration
  import opened Planner
  import opened PlannerTheorems

  /** The positions of the picks behind each combination, computed alongside the product. */
  function IndexRow(at: seq<nat>, combo: seq<ResourceId>, picks: seq<seq<ResourceId>>, j: nat): seq<seq<nat>>
    requires j <= |picks|
    decreases |picks| - j
  {
    if j == |picks| then []
    else (if Shares(combo, picks[j]) then [] else [at + [j]]) + IndexRow(at, combo, picks, j + 1)
  }

  function IndexExpand(ats: seq<seq<nat>>, combos: seq<seq<ResourceId>>, picks: seq<seq<ResourceId>>,
                       i: nat): seq<seq<nat>>
    requires i <= |combos| == |ats|
    decreases |combos| - i
  {
    if i == |combos| then [] else IndexRow(ats[i], combos[i], picks, 0) + IndexExpand(ats, combos, picks, i + 1)
  }

  lemma {:induction false} RowLength(at: seq<nat>, combo: seq<ResourceId>, picks: seq<seq<ResourceId>>, j: nat)
    requires j <= |picks|
    ensures |IndexRow(at, combo, picks, j)| == |Row(combo, picks, j)|
    decreases |picks| - j
  {
    if j < |picks| { RowLength(at, combo, picks, j + 1); }
  }

  lemma {:induction false} ExpandLength(ats: seq<seq<nat>>, combos: seq<seq<ResourceId>>, picks: seq<seq<ResourceId>>,
                                        i: nat)
    requires i <= |combos| == |ats|
    ensures |IndexExpand(ats, combos, picks, i)| == |Expand(combos, picks, i)|
    decreases |combos| - i
  {
    if i < |combos| {
      RowLength(ats[i], combos[i], picks, 0);
      ExpandLength(ats, combos, picks, i + 1);
    }
  }

  function Indices(sels: seq<seq<seq<ResourceId>>>): (r: seq<seq<nat>>)
    ensures |r| == |Product(sels)|
  {
    if sels == [] then [[]] else
      var front, picks := sels[..|sels| - 1], sels[|sels| - 1];
      ExpandLength(Indices(front), Product(front), picks, 0);
      Capped(IndexExpand(Indices(front), Product(front), picks, 0), COMBO_CAP)
  }

  /** The combination is what the positions pick, class by class. */
  ghost predicate Denotes(sels: seq<seq<seq<ResourceId>>>, at: seq<nat>, combo: seq<ResourceId>)
  {
    if sels == [] then at == [] && combo == [] else
      var n := |sels| - 1;
      && |at| == |sels| && at[n] < |sels[n]|
      && exists front :: Denotes(sels[..n], at[..n], front) && combo == front + sels[n][at[n]]
  }

  ghost predicate AllDenote(sels: seq<seq<seq<ResourceId>>>, ats: seq<seq<nat>>, combos: seq<seq<ResourceId>>)
  {
    |ats| == |combos| && forall i :: 0 <= i < |combos| ==> Denotes(sels, ats[i], combos[i])
  }

  lemma AllDenoteAppend(sels: seq<seq<seq<ResourceId>>>, a: seq<seq<nat>>, c: seq<seq<ResourceId>>,
                        b: seq<seq<nat>>, d: seq<seq<ResourceId>>)
    requires AllDenote(sels, a, c) && AllDenote(sels, b, d)
    ensures AllDenote(sels, a + b, c + d)
  {
  }

  lemma DenotesOneMore(sels: seq<seq<seq<ResourceId>>>, at: seq<nat>, combo: seq<ResourceId>, j: nat)
    requires sels != [] && Denotes(sels[..|sels| - 1], at, combo) && j < |sels[|sels| - 1]|
    ensures Denotes(sels, at + [j], combo + sels[|sels| - 1][j])
  {
    DenotesLength(sels[..|sels| - 1], at, combo);
    assert (at + [j])[..|sels| - 1] == at;
  }

  lemma DenotesLength(sels: seq<seq<seq<ResourceId>>>, at: seq<nat>, combo: seq<ResourceId>)
    requires Denotes(sels, at, combo)
    ensures |at| == |sels|
  {
  }

  lemma {:induction false} RowDenotes(sels: seq<seq<seq<ResourceId>>>, at: seq<nat>, combo: seq<ResourceId>, j: nat)
    requires sels != [] && Denotes(sels[..|sels| - 1], at, combo) && j <= |sels[|sels| - 1]|
    ensures AllDenote(sels, IndexRow(at, combo, sels[|sels| - 1], j), Row(combo, sels[|sels| - 1], j))
    decreases |sels[|sels| - 1]| - j
  {
    var picks := sels[|sels| - 1];
    if j < |picks| {
      RowDenotes(sels, at, combo, j + 1);
      if !Shares(combo, picks[j]) {
        DenotesOneMore(sels, at, combo, j);
        AllDenoteAppend(sels, [at + [j]], [combo + picks[j]], IndexRow(at, combo, picks, j + 1),
          Row(combo, picks, j + 1));
      }
    }
  }

  lemma {:induction false} ExpandDenotes(sels: seq<seq<seq<ResourceId>>>, ats: seq<seq<nat>>,
                                         combos: seq<seq<ResourceId>>, i: nat)
    requires sels != [] && AllDenote(sels[..|sels| - 1], ats, combos) && i <= |combos|
    ensures AllDenote(sels, IndexExpand(ats, combos, sels[|sels| - 1], i), Expand(combos, sels[|sels| - 1], i))
    decreases |combos| - i
  {
    var picks := sels[|sels| - 1];
    if i < |combos| {
      RowDenotes(sels, ats[i], combos[i], 0);
      ExpandDenotes(sels, ats, combos, i + 1);
      AllDenoteAppend(sels, IndexRow(ats[i], combos[i], picks, 0), Row(combos[i], picks, 0),
                      IndexExpand(ats, combos, picks, i + 1), Expand(combos, picks, i + 1));
    }
  }

  // ---- lexicographic order -----------------------------------------------------

  lemma {:induction false} LexExtends(a: seq<nat>, b: seq<nat>, j: nat, k: nat)
    requires |a| == |b| && Lex(a, b)
    ensures Lex(a + [j], b + [k])
    decreases |a|
  {
    if a[0] == b[0] {
      LexExtends(a[1..], b[1..], j, k);
      assert (a + [j])[1..] == a[1..] + [j] && (b + [k])[1..] == b[1..] + [k];
    }
  }

  lemma {:induction false} LexLast(a: seq<nat>, j: nat, k: nat)
    requires j < k
    ensures Lex(a + [j], a + [k])
    decreases |a|
  {
    if a != [] {
      LexLast(a[1..], j, k);
      assert (a + [j])[1..] == a[1..] + [j] && (a + [k])[1..] == a[1..] + [k];
    }
  }

  ghost predicate Precede(a: seq<seq<nat>>, b: seq<seq<nat>>)
  {
    forall i, j :: 0 <= i < |a| && 0 <= j < |b| ==> Lex(a[i], b[j])
  }

  lemma LexConcat(a: seq<seq<nat>>, b: seq<seq<nat>>)
    requires LexOrdered(a) && LexOrdered(b) && Precede(a, b)
    ensures LexOrdered(a + b)
  {
  }

  /** Every entry of a row is the prefix with one later position. */
  lemma {:induction false} RowEntries(at: seq<nat>, combo: seq<ResourceId>, picks: seq<seq<ResourceId>>, j: nat, m: nat)
    requires j <= |picks| && m < |IndexRow(at, combo, picks, j)|
    ensures exists k :: j <= k < |picks| && IndexRow(at, combo, picks, j)[m] == at + [k]
    decreases |picks| - j
  {
    if Shares(combo, picks[j]) {
      RowEntries(at, combo, picks, j + 1, m);
    } else if m > 0 {
      RowEntries(at, combo, picks, j + 1, m - 1);
    } else {
      assert IndexRow(at, combo, picks, j)[0] == at + [j];
    }
  }

  lemma {:induction false} RowOrdered(at: seq<nat>, combo: seq<ResourceId>, picks: seq<seq<ResourceId>>, j: nat)
    requires j <= |picks|
    ensures LexOrdered(IndexRow(at, combo, picks, j))
    decreases |picks| - j
  {
    if j < |picks| {
      RowOrdered(at, combo, picks, j + 1);
      if !Shares(combo, picks[j]) {
        var rest := IndexRow(at, combo, picks, j + 1);
        forall m | 0 <= m < |rest| ensures Lex(at + [j], rest[m]) {
          RowEntries(at, combo, picks, j + 1, m);
          var k :| j + 1 <= k < |picks| && rest[m] == at + [k];
          LexLast(at, j, k);
        }
        LexConcat([at + [j]], rest);
      }
    }
  }

  /** Every entry of the expansion from i on extends a prefix at i or later. */
  lemma {:induction false} ExpandEntries(ats: seq<seq<nat>>, combos: seq<seq<ResourceId>>, picks: seq<seq<ResourceId>>,
                                         i: nat, m: nat)
    requires i <= |combos| == |ats| && m < |IndexExpand(ats, combos, picks, i)|
    ensures exists h, k :: i <= h < |ats| && 0 <= k && IndexExpand(ats, combos, picks, i)[m] == ats[h] + [k]
    decreases |combos| - i
  {
    var row := IndexRow(ats[i], combos[i], picks, 0);
    if m < |row| {
      RowEntries(ats[i], combos[i], picks, 0, m);
    } else {
      ExpandEntries(ats, combos, picks, i + 1, m - |row|);
    }
  }

  lemma {:induction false} ExpandOrdered(ats: seq<seq<nat>>, combos: seq<seq<ResourceId>>, picks: seq<seq<ResourceId>>,
                                         i: nat, len: nat)
    requires i <= |combos| == |ats| && LexOrdered(ats) && forall h :: 0 <= h < |ats| ==> |ats[h]| == len
    ensures LexOrdered(IndexExpand(ats, combos, picks, i))
    decreases |combos| - i
  {
    if i < |combos| {
      var row, rest := IndexRow(ats[i], combos[i], picks, 0), IndexExpand(ats, combos, picks, i + 1);
      RowOrdered(ats[i], combos[i], picks, 0);
      ExpandOrdered(ats, combos, picks, i + 1, len);
      forall a, b | 0 <= a < |row| && 0 <= b < |rest| ensures Lex(row[a], rest[b]) {
        RowEntries(ats[i], combos[i], picks, 0, a);
        ExpandEntries(ats, combos, picks, i + 1, b);
        var j :| 0 <= j < |picks| && row[a] == ats[i] + [j];
        var h: nat, k: nat :| i + 1 <= h < |ats| && rest[b] == ats[h] + [k];
        LexExtends(ats[i], ats[h], j, k);
      }
      LexConcat(row, rest);
    }
  }

  /** The product lists its combinations in lexicographic order of the choices they stand for. */
  lemma {:induction false} ProductLexicographic(sels: seq<seq<seq<ResourceId>>>)
    ensures AllDenote(sels, Indices(sels), Product(sels)) && LexOrdered(Indices(sels))
  {
    if sels != [] {
      var front, picks := sels[..|sels| - 1], sels[|sels| - 1];
      var ats, combos := Indices(front), Product(front);
      ProductLexicographic(front);
      ExpandLength(ats, combos, picks, 0);
      ExpandDenotes(sels, ats, combos, 0);
      forall h | 0 <= h < |ats| ensures |ats[h]| == |front| { DenotesLength(front, ats[h], combos[h]); }
      ExpandOrdered(ats, combos, picks, 0, |front|);
    }
  }

  // ---- every choice has its place ----------------------------------------------

  /** Position p of both lists: the choice and the combination it stands for. */
  ghost predicate Stands(ats: seq<seq<nat>>, combos: seq<seq<ResourceId>>, p: nat, at: seq<nat>, combo: seq<ResourceId>)
  {
    p < |ats| == |combos| && ats[p] == at && combos[p] == combo
  }

  lemma StandsBefore(a: seq<seq<nat>>, c: seq<seq<ResourceId>>, b: seq<seq<nat>>, d: seq<seq<ResourceId>>,
                     p: nat, at: seq<nat>, combo: seq<ResourceId>)
    requires Stands(a, c, p, at, combo) && |b| == |d|
    ensures Stands(a + b, c + d, p, at, combo)
  {
  }

  lemma StandsAfter(a: seq<seq<nat>>, c: seq<seq<ResourceId>>, b: seq<seq<nat>>, d: seq<seq<ResourceId>>,
                    p: nat, at: seq<nat>, combo: seq<ResourceId>)
    requires |a| == |c| && Stands(b, d, p, at, combo)
    ensures Stands(a + b, c + d, |a| + p, at, combo)
  {
  }

  lemma {:induction false} RowHas(at: seq<nat>, combo: seq<ResourceId>, picks: seq<seq<ResourceId>>, j: nat, m: nat)
    returns (p: nat)
    requires j <= m < |picks| && !Shares(combo, picks[m])
    ensures Stands(IndexRow(at, combo, picks, j), Row(combo, picks, j), p, at + [m], combo + picks[m])
    decreases |picks| - j
  {
    var ats, row := IndexRow(at, combo, picks, j + 1), Row(combo, picks, j + 1);
    RowLength(at, combo, picks, j + 1);
    if j == m {
      p := 0;
      assert Row(combo, picks, j) == [combo + picks[m]] + row;
      assert IndexRow(at, combo, picks, j) == [at + [m]] + ats;
    } else {
      p := RowHas(at, combo, picks, j + 1, m);
      if Shares(combo, picks[j]) {
        assert [] + row == row && [] + ats == ats;
      } else {
        p := p + 1;
        StandsAfter([at + [j]], [combo + picks[j]], ats, row, p - 1, at + [m], combo + picks[m]);
      }
    }
  }

  lemma {:induction false} ExpandHas(ats: seq<seq<nat>>, combos: seq<seq<ResourceId>>, picks: seq<seq<ResourceId>>,
                                     i: nat, n: nat, m: nat) returns (p: nat)
    requires i <= n < |combos| == |ats| && m < |picks| && !Shares(combos[n], picks[m])
    ensures Stands(IndexExpand(ats, combos, picks, i), Expand(combos, picks, i), p, ats[n] + [m], combos[n] + picks[m])
    decreases |combos| - i
  {
    ExpandLength(ats, combos, picks, i);
    RowLength(ats[i], combos[i], picks, 0);
    var row, rest := Row(combos[i], picks, 0), Expand(combos, picks, i + 1);
    var indexRow, indexRest := IndexRow(ats[i], combos[i], picks, 0), IndexExpand(ats, combos, picks, i + 1);
    ExpandLength(ats, combos, picks, i + 1);
    if i == n {
      p := RowHas(ats[i], combos[i], picks, 0, m);
      StandsBefore(indexRow, row, indexRest, rest, p, ats[n] + [m], combos[n] + picks[m]);
    } else {
      var q := ExpandHas(ats, combos, picks, i + 1, n, m);
      p := |row| + q;
      StandsAfter(indexRow, row, indexRest, rest, q, ats[n] + [m], combos[n] + picks[m]);
    }
  }

  /** The positions of a choice in the pick lists. */
  ghost predicate Chosen(sels: seq<seq<seq<ResourceId>>>, at: seq<nat>, choice: seq<seq<ResourceId>>)
  {
    |at| == |choice| == |sels| && forall i :: 0 <= i < |sels| ==> at[i] < |sels[i]| && choice[i] == sels[i][at[i]]
  }

  /** Below the cap, every repeat-free choice stands in the product at its own positions. */
  lemma {:induction false} ChoiceHasPlace(sels: seq<seq<seq<ResourceId>>>, at: seq<nat>, choice: seq<seq<ResourceId>>)
    returns (p: nat)
    requires Chosen(sels, at, choice) && NoDup(Flatten(choice)) && Uncapped(sels)
    ensures Stands(Indices(sels), Product(sels), p, at, Flatten(choice))
  {
    if sels == [] {
      p := 0;
    } else {
      var n := |sels| - 1;
      var front, picks := sels[..n], sels[n];
      var ats, combos := Indices(front), Product(front);
      NoDupAppend(Flatten(choice[..n]), choice[n]);
      UncappedPrefix(sels);
      var q := ChoiceHasPlace(front, at[..n], choice[..n]);
      p := ExpandHas(ats, combos, picks, 0, q, at[n]);
      assert at[..n] + [at[n]] == at;
      ProductSize(front);
      ExpandSize(combos, picks, 0);
      ProductMono(|combos|, Count(front), |picks|);
      ExpandLength(ats, combos, picks, 0);
    }
  }

  // ---- the first of maximal rank -----------------------------------------------

  /** `at` is where the answer stands, and no feasible choice of the same rank stands before it. */
  ghost predicate FirstChoice(reg: Registry, req: Request, ds: seq<Demand>, sels: seq<seq<seq<ResourceId>>>,
                              ids: seq<ResourceId>, at: seq<nat>)
  {
    && Denotes(sels, at, ids) && (forall id :: id in ids ==> id in reg.resources)
    && forall choice, at' ::
         (&& Chosen(sels, at', choice) && FeasibleChoice(reg, req, ds, choice)
          && RankOf(reg, Flatten(choice)) == RankOf(reg, ids)) ==> at' == at || Lex(at, at')
  }

  /** One feasible choice of the same rank does not stand before the first maximal combination. */
  lemma NotBefore(reg: Registry, req: Request, ds: seq<Demand>, sels: seq<seq<seq<ResourceId>>>, i: nat,
                  choice: seq<seq<ResourceId>>, at: seq<nat>)
    requires DemandList(ds) && Uncapped(sels) && FirstMaximal(reg, req, ds, Product(sels), i)
    requires Chosen(sels, at, choice) && FeasibleChoice(reg, req, ds, choice)
    requires RankOf(reg, Flatten(choice)) == RankOf(reg, Product(sels)[i])
    ensures at == Indices(sels)[i] || Lex(Indices(sels)[i], at)
  {
    ChoiceMembers(reg.resources, req, ds, choice);
    var p := ChoiceHasPlace(sels, at, choice);
    ProductLexicographic(sels);
    NotBeforeAt(reg, req, ds, Product(sels), Indices(sels), i, p, at, Flatten(choice));
  }

  lemma NotBeforeAt(reg: Registry, req: Request, ds: seq<Demand>, combos: seq<seq<ResourceId>>, ats: seq<seq<nat>>,
                    i: nat, p: nat, at: seq<nat>, ids: seq<ResourceId>)
    requires LexOrdered(ats) && FirstMaximal(reg, req, ds, combos, i) && Stands(ats, combos, p, at, ids)
    requires Feasible(reg, req, ds, ids) && RankOf(reg, ids) == RankOf(reg, combos[i])
    ensures at == ats[i] || Lex(ats[i], at)
  {
    assert !(p < i);
  }

  lemma FirstMaximalIsFirstChoice(reg: Registry, req: Request, ds: seq<Demand>, sels: seq<seq<seq<ResourceId>>>, i: nat)
    requires DemandList(ds) && Uncapped(sels) && FirstMaximal(reg, req, ds, Product(sels), i)
    ensures FirstChoice(reg, req, ds, sels, Product(sels)[i], Indices(sels)[i])
  {
    ProductLexicographic(sels);
    forall choice, at | Chosen(sels, at, choice) && FeasibleChoice(reg, req, ds, choice) &&
                        RankOf(reg, Flatten(choice)) == RankOf(reg, Product(sels)[i])
      ensures at == Indices(sels)[i] || Lex(Indices(sels)[i], at)
    {
      NotBefore(reg, req, ds, sels, i, choice, at);
    }
  }

  /** Below the caps the answer is the first of maximal rank in the lexicographic order of the choices. */
  lemma SelectFirstChoice(reg: Registry, order: seq<ResourceId>, req: Request, ds: seq<Demand>)
    requires WellKeyed(reg.resources) && Enumerates(order, reg.resources) && DemandList(ds)
    requires NoCapHit(reg.resources, order, req, ds) && SelectFor(reg, order, req, ds).Some?
    ensures exists at :: FirstChoice(reg, req, ds, PickLists(reg.resources, order, req, ds),
                                     SelectFor(reg, order, req, ds).value, at)
  {
    var sels := PickLists(reg.resources, order, req, ds);
    MaximalAmongEnumerated(reg, order, req, ds);
    var i :| 0 <= i < |Product(sels)| && Product(sels)[i] == SelectFor(reg, order, req, ds).value &&
             FirstMaximal(reg, req, ds, Product(sels), i);
    FirstMaximalIsFirstChoice(reg, req, ds, sels, i);
  }

  /** Compose below the caps: of all feasible choices of maximal rank, the first is taken. */
  lemma ComposeFirstChoice(reg: Registry, order: seq<ResourceId>, req: Request)
    requires WellKeyed(reg.resources) && Enumerates(order, reg.resources)
    requires NoCapHit(reg.resources, order, req, Mandatory(Demands(req))) && SelectMembers(reg, order, req).Some?
    ensures exists at :: FirstChoice(reg, req, Mandatory(Demands(req)),
                                     PickLists(reg.resources, order, req, Mandatory(Demands(req))),
                                     SelectMembers(reg, order, req).value, at)
  {
    MandatoryDemandList(req);
    SelectFirstChoice(reg, order, req, Mandatory(Demands(req)));
  }
}
