/** Bounded enumeration of the selections of one class, and the bounded product of classes.

    A selection is first described by positions in the candidate list; the planner keeps at
    most `PICK_CAP` of them, and at most `COMBO_CAP` combinations of them. */
module Enumeration {
  import opened FabricTypes
  import opened Eligibility

  const TOP_K: nat := 8
  const PICK_CAP: nat := 24
  const COMBO_CAP: nat := 400

  function Capped<T>(s: seq<T>, cap: nat): (r: seq<T>)
    ensures |r| <= cap
    ensures forall x :: x in r ==> x in s
  {
    if |s| <= cap then s else s[..cap]
  }

  lemma CappedAppend<T>(a: seq<T>, b: seq<T>, cap: nat)
    ensures Capped(Capped(a, cap) + b, cap) == Capped(a + b, cap)
  {
  }

  lemma CappedTwice<T>(out: seq<T>, first: seq<T>, rest: seq<T>, cap: nat)
    ensures Capped(Capped(out + first, cap) + rest, cap) == Capped(out + (first + rest), cap)
  {
    CappedAppend(out + first, rest, cap);
    assert out + (first + rest) == out + first + rest;
  }

  // ---- index combinations ------------------------------------------------------

  /** `i` put in front of every combination. */
  function Front(i: nat, cs: seq<seq<nat>>): (r: seq<seq<nat>>)
    ensures |r| == |cs|
    ensures forall m :: 0 <= m < |cs| ==> r[m] == [i] + cs[m]
  {
    if cs == [] then [] else [[i] + cs[0]] + Front(i, cs[1..])
  }

  /** All strictly increasing `need`-element index lists within [start, k), first indices first. */
  function Combos(k: nat, start: nat, need: nat): seq<seq<nat>>
    decreases k - start, need
  {
    if need == 0 then [[]]
    else if start + need > k then []
    else Front(start, Combos(k, start + 1, need - 1)) + Combos(k, start + 1, need)
  }

  /** Strictly increasing, within [lo, hi). */
  ghost predicate Increasing(c: seq<nat>, lo: nat, hi: nat)
    decreases |c|
  {
    c == [] || (lo <= c[0] < hi && Increasing(c[1..], c[0] + 1, hi))
  }

  /** Strict lexicographic order on index lists of equal length. */
  ghost predicate Lex(a: seq<nat>, b: seq<nat>)
    decreases |a|
  {
    |a| == |b| && |a| > 0 && (a[0] < b[0] || (a[0] == b[0] && Lex(a[1..], b[1..])))
  }

  ghost predicate LexOrdered(cs: seq<seq<nat>>)
  {
    forall i, j :: 0 <= i < j < |cs| ==> Lex(cs[i], cs[j])
  }

  ghost function Binomial(n: nat, r: nat): nat
  {
    if r == 0 then 1 else if n == 0 then 0 else Binomial(n - 1, r - 1) + Binomial(n - 1, r)
  }

  lemma {:induction false} IncreasingFits(c: seq<nat>, lo: nat, hi: nat)
    requires Increasing(c, lo, hi)
    ensures c != [] ==> lo + |c| <= hi
    ensures forall i :: 0 <= i < |c| ==> lo <= c[i] < hi
    ensures forall i, j :: 0 <= i < j < |c| ==> c[i] < c[j]
    decreases |c|
  {
    if c != [] {
      IncreasingFits(c[1..], c[0] + 1, hi);
      assert forall i :: 1 <= i < |c| ==> c[i] == c[1..][i - 1];
    }
  }

  lemma FrontExact(i: nat, cs: seq<seq<nat>>, c: seq<nat>)
    ensures c in Front(i, cs) <==> c != [] && c[0] == i && c[1..] in cs
  {
    if c in Front(i, cs) {
      var m :| 0 <= m < |cs| && Front(i, cs)[m] == c;
      assert c[1..] == cs[m];
    }
    if c != [] && c[0] == i && c[1..] in cs {
      var m :| 0 <= m < |cs| && cs[m] == c[1..];
      assert Front(i, cs)[m] == c;
    }
  }

  lemma IncreasingStep(c: seq<nat>, lo: nat, hi: nat)
    requires c != [] && lo < hi
    ensures Increasing(c, lo, hi) <==> (c[0] == lo && Increasing(c[1..], lo + 1, hi)) || Increasing(c, lo + 1, hi)
  {
  }

  lemma CombosStep(k: nat, start: nat, need: nat, c: seq<nat>)
    requires 0 < need <= k - start
    ensures c in Combos(k, start, need) <==>
              (c != [] && c[0] == start && c[1..] in Combos(k, start + 1, need - 1)) || c in Combos(k, start + 1, need)
  {
    FrontExact(start, Combos(k, start + 1, need - 1), c);
  }

  /** Exactness: the enumeration contains every increasing index list, and nothing else. */
  lemma {:induction false} CombosExact(k: nat, start: nat, need: nat, c: seq<nat>)
    ensures c in Combos(k, start, need) <==> |c| == need && Increasing(c, start, k)
    decreases k - start, need
  {
    if need == 0 {
    } else if start + need > k {
      if |c| == need && Increasing(c, start, k) { IncreasingFits(c, start, k); }
    } else {
      CombosStep(k, start, need, c);
      CombosExact(k, start + 1, need, c);
      if c != [] {
        IncreasingStep(c, start, k);
        CombosExact(k, start + 1, need - 1, c[1..]);
      }
    }
  }

  lemma LexFront(i: nat, cs: seq<seq<nat>>)
    requires LexOrdered(cs)
    ensures LexOrdered(Front(i, cs))
  {
    var f := Front(i, cs);
    forall m, n | 0 <= m < n < |f| ensures Lex(f[m], f[n]) {
      assert f[m][1..] == cs[m] && f[n][1..] == cs[n];
      assert Lex(cs[m], cs[n]);
    }
  }

  lemma LexAppend(a: seq<seq<nat>>, b: seq<seq<nat>>, len: nat, i: nat)
    requires LexOrdered(a) && LexOrdered(b) && len > 0
    requires forall c :: c in a ==> |c| == len && c[0] == i
    requires forall c :: c in b ==> |c| == len && c[0] > i
    ensures LexOrdered(a + b)
  {
    forall m, n | 0 <= m < n < |a + b| ensures Lex((a + b)[m], (a + b)[n]) {
      if m < |a| <= n { assert a[m] in a && b[n - |a|] in b; }
    }
  }

  /** The enumeration is in strict lexicographic order, so it has no repeats. */
  lemma {:induction false} CombosLexicographic(k: nat, start: nat, need: nat)
    ensures LexOrdered(Combos(k, start, need))
    decreases k - start, need
  {
    if need > 0 && start + need <= k {
      var a, b := Combos(k, start + 1, need - 1), Combos(k, start + 1, need);
      CombosLexicographic(k, start + 1, need - 1);
      CombosLexicographic(k, start + 1, need);
      LexFront(start, a);
      forall c | c in Front(start, a) ensures |c| == need && c[0] == start {
        FrontExact(start, a, c);
        CombosExact(k, start + 1, need - 1, c[1..]);
      }
      forall c | c in b ensures |c| == need && c[0] > start {
        CombosExact(k, start + 1, need, c);
      }
      LexAppend(Front(start, a), b, need, start);
    }
  }

  lemma {:induction false} BinomialNone(n: nat, r: nat)
    requires n < r
    ensures Binomial(n, r) == 0
  {
    if n > 0 { BinomialNone(n - 1, r - 1); BinomialNone(n - 1, r); }
  }

  lemma BinomialStep(n: nat, r: nat)
    requires n > 0 && r > 0
    ensures Binomial(n, r) == Binomial(n - 1, r - 1) + Binomial(n - 1, r)
  {
  }

  lemma CombosLength(k: nat, start: nat, need: nat)
    requires 0 < need <= k - start
    ensures |Combos(k, start, need)| == |Combos(k, start + 1, need - 1)| + |Combos(k, start + 1, need)|
  {
  }

  /** There are C(k - start, need) of them. */
  lemma {:induction false} CombosCount(k: nat, start: nat, need: nat)
    requires start <= k
    ensures |Combos(k, start, need)| == Binomial(k - start, need)
    decreases k - start, need
  {
    if need > 0 {
      if start + need > k {
        BinomialNone(k - start, need);
      } else {
        CombosLength(k, start, need);
        BinomialStep(k - start, need);
        CombosCount(k, start + 1, need - 1);
        CombosCount(k, start + 1, need);
      }
    }
  }

  // ---- selections of one class -------------------------------------------------

  predicate InRange(idx: seq<nat>, n: nat)
  {
    forall i :: 0 <= i < |idx| ==> idx[i] < n
  }

  function Ids(items: seq<Resource>, idx: seq<nat>): (r: seq<ResourceId>)
    requires InRange(idx, |items|)
    ensures |r| == |idx| && forall i :: 0 <= i < |idx| ==> r[i] == items[idx[i]].id
  {
    seq(|idx|, i requires 0 <= i < |idx| => items[idx[i]].id)
  }

  function Want(d: Demand): (w: nat)
    ensures w > 0
  {
    if d.count != 0 then d.count else 1
  }

  function Width(items: seq<Resource>): nat { if |items| > TOP_K then TOP_K else |items| }

  function Singles(k: nat, i: nat): seq<seq<nat>>
    decreases k - i
  {
    if i >= k then [] else [[i]] + Singles(k, i + 1)
  }

  predicate PairSuffices(items: seq<Resource>, d: Demand, i: nat, j: nat)
    requires i < |items| && j < |items|
  {
    CapacityFor(items[i], d.dim) + CapacityFor(items[j], d.dim) >= d.amount
  }

  /** The pairs (i, j), (i, j+1), .. whose capacities add up to the demand. */
  function PairRow(items: seq<Resource>, d: Demand, k: nat, i: nat, j: nat): seq<seq<nat>>
    requires k <= |items| && i < k
    decreases k - j
  {
    if j >= k then [] else (if PairSuffices(items, d, i, j) then [[i, j]] else []) + PairRow(items, d, k, i, j + 1)
  }

  function Pairs(items: seq<Resource>, d: Demand, k: nat, i: nat): seq<seq<nat>>
    requires k <= |items|
    decreases k - i
  {
    if i >= k then [] else PairRow(items, d, k, i, i + 1) + Pairs(items, d, k, i + 1)
  }

  /** Every selection of a class in the order it is tried, before the cap. */
  function Selections(items: seq<Resource>, d: Demand): seq<seq<nat>>
  {
    var k := Width(items);
    if items == [] || Want(d) > k then []
    else if !d.amountBased then Combos(k, 0, Want(d))
    else Singles(k, 0) + if d.amount > 0.0 && k >= 2 then Pairs(items, d, k, 0) else []
  }

  /** What a selection may be: `Want` candidates, or one, or two that together suffice. */
  ghost predicate IsSelection(items: seq<Resource>, d: Demand, c: seq<nat>)
  {
    var k := Width(items);
    && Want(d) <= k
    && if !d.amountBased then |c| == Want(d) && Increasing(c, 0, k)
       else
         || (|c| == 1 && c[0] < k)
         || (|c| == 2 && c[0] < c[1] < k && d.amount > 0.0 && PairSuffices(items, d, c[0], c[1]))
  }

  lemma {:induction false} SinglesExact(k: nat, i: nat, c: seq<nat>)
    ensures c in Singles(k, i) <==> |c| == 1 && i <= c[0] < k
    decreases k - i
  {
    if i < k {
      SinglesExact(k, i + 1, c);
      assert |c| == 1 && c[0] == i ==> c == [i];
    }
  }

  lemma {:induction false} PairRowExact(items: seq<Resource>, d: Demand, k: nat, i: nat, j: nat, c: seq<nat>)
    requires k <= |items| && i < k
    ensures c in PairRow(items, d, k, i, j) <==>
        |c| == 2 && c[0] == i && j <= c[1] < k && PairSuffices(items, d, i, c[1])
    decreases k - j
  {
    if j < k {
      PairRowExact(items, d, k, i, j + 1, c);
      assert |c| == 2 && c[0] == i && c[1] == j ==> c == [i, j];
    }
  }

  lemma {:induction false} PairsExact(items: seq<Resource>, d: Demand, k: nat, i: nat, c: seq<nat>)
    requires k <= |items|
    ensures c in Pairs(items, d, k, i) <==> |c| == 2 && i <= c[0] < c[1] < k && PairSuffices(items, d, c[0], c[1])
    decreases k - i
  {
    if i < k {
      PairRowExact(items, d, k, i, i + 1, c);
      PairsExact(items, d, k, i + 1, c);
    }
  }

  /** The uncapped enumeration lists exactly the selections. */
  lemma SelectionsExact(items: seq<Resource>, d: Demand, c: seq<nat>)
    ensures c in Selections(items, d) <==> IsSelection(items, d, c)
  {
    var k := Width(items);
    if d.amountBased {
      SinglesExact(k, 0, c);
      PairsExact(items, d, k, 0, c);
    } else {
      CombosExact(k, 0, Want(d), c);
    }
  }

  lemma SelectionInRange(items: seq<Resource>, d: Demand, c: seq<nat>)
    requires IsSelection(items, d, c)
    ensures InRange(c, |items|)
  {
    if !d.amountBased { IncreasingFits(c, 0, Width(items)); }
  }

  lemma SelectionsInRange(items: seq<Resource>, d: Demand)
    ensures forall c :: c in Selections(items, d) ==> InRange(c, |items|)
  {
    forall c | c in Selections(items, d) ensures InRange(c, |items|) {
      SelectionsExact(items, d, c);
      SelectionInRange(items, d, c);
    }
  }

  /** The picks of a class: the capped selections, as resource ids. */
  function PickIds(items: seq<Resource>, cs: seq<seq<nat>>): (r: seq<seq<ResourceId>>)
    requires forall c :: c in cs ==> InRange(c, |items|)
    ensures |r| == |cs| && forall m :: 0 <= m < |cs| ==> r[m] == Ids(items, cs[m])
  {
    seq(|cs|, m requires 0 <= m < |cs| => assert cs[m] in cs; Ids(items, cs[m]))
  }

  function Picks(items: seq<Resource>, d: Demand, cap: nat): seq<seq<ResourceId>>
  {
    SelectionsInRange(items, d);
    PickIds(items, Capped(Selections(items, d), cap))
  }

  // ---- the enumeration loops ---------------------------------------------------

  /** The picks that extend `cur` by `need` candidates at positions from `start`. */
  function Extensions(items: seq<Resource>, k: nat, start: nat, need: nat, cur: seq<ResourceId>): seq<seq<ResourceId>>
    requires k <= |items|
    decreases k - start, need
  {
    if need == 0 then [cur]
    else if start + need > k then []
    else Extensions(items, k, start + 1, need - 1, cur + [items[start].id]) + Extensions(items, k, start + 1, need, cur)
  }

  /** `es` are the combinations `cs` read as ids, each behind `cur`. */
  ghost predicate Reads(items: seq<Resource>, cur: seq<ResourceId>, cs: seq<seq<nat>>, es: seq<seq<ResourceId>>)
  {
    |es| == |cs| && forall m :: 0 <= m < |cs| ==> InRange(cs[m], |items|) && es[m] == cur + Ids(items, cs[m])
  }

  lemma ReadsFront(items: seq<Resource>, cur: seq<ResourceId>, i: nat, cs: seq<seq<nat>>, es: seq<seq<ResourceId>>)
    requires i < |items| && Reads(items, cur + [items[i].id], cs, es)
    ensures Reads(items, cur, Front(i, cs), es)
  {
    var f := Front(i, cs);
    forall m | 0 <= m < |f| ensures InRange(f[m], |items|) && es[m] == cur + Ids(items, f[m]) {
      assert f[m] == [i] + cs[m];
      assert Ids(items, f[m]) == [items[i].id] + Ids(items, cs[m]);
      assert cur + [items[i].id] + Ids(items, cs[m]) == cur + ([items[i].id] + Ids(items, cs[m]));
    }
  }

  lemma ReadsAppend(items: seq<Resource>, cur: seq<ResourceId>, cs: seq<seq<nat>>, es: seq<seq<ResourceId>>,
                    cs': seq<seq<nat>>, es': seq<seq<ResourceId>>)
    requires Reads(items, cur, cs, es) && Reads(items, cur, cs', es')
    ensures Reads(items, cur, cs + cs', es + es')
  {
  }

  lemma {:induction false} ExtensionsArePicks(items: seq<Resource>, k: nat, start: nat, need: nat, cur: seq<ResourceId>)
    requires k <= |items|
    ensures Reads(items, cur, Combos(k, start, need), Extensions(items, k, start, need, cur))
    decreases k - start, need
  {
    if need == 0 {
      assert cur + Ids(items, []) == cur;
    } else if start + need <= k {
      var next := cur + [items[start].id];
      var a, b := Combos(k, start + 1, need - 1), Combos(k, start + 1, need);
      var x, y := Extensions(items, k, start + 1, need - 1, next), Extensions(items, k, start + 1, need, cur);
      ExtensionsArePicks(items, k, start + 1, need - 1, next);
      ExtensionsArePicks(items, k, start + 1, need, cur);
      ReadsFront(items, cur, start, a, x);
      ReadsAppend(items, cur, Front(start, a), x, b, y);
    }
  }

  /** Capping before or after reading positions as ids is the same. */
  lemma ReadsCapped(items: seq<Resource>, cs: seq<seq<nat>>, es: seq<seq<ResourceId>>, cap: nat)
    requires Reads(items, [], cs, es)
    ensures forall c :: c in Capped(cs, cap) ==> InRange(c, |items|)
    ensures Capped(es, cap) == PickIds(items, Capped(cs, cap))
  {
    assert forall m :: 0 <= m < |cs| ==> [] + Ids(items, cs[m]) == Ids(items, cs[m]);
    assert forall c :: c in cs ==> InRange(c, |items|);
  }

  /** The count-based recursion.  `start + need <= k` keeps `k - need` from underflowing. */
  method Combine(items: seq<Resource>, k: nat, start: nat, need: nat, cap: nat, cur: seq<ResourceId>,
                 out0: seq<seq<ResourceId>>) returns (out: seq<seq<ResourceId>>)
    requires k <= |items| && start + need <= k && |out0| <= cap
    ensures out == Capped(out0 + Extensions(items, k, start, need, cur), cap)
    decreases need
  {
    out := out0;
    if |out| >= cap { return; }
    if need == 0 { out := out + [cur]; return; }
    ghost var goal := Capped(out0 + Extensions(items, k, start, need, cur), cap);
    var i := start;
    while i <= k - need
      invariant start <= i <= k - need + 1 && |out| < cap
      invariant Capped(out + Extensions(items, k, i, need, cur), cap) == goal
    {
      CappedTwice(out, Extensions(items, k, i + 1, need - 1, cur + [items[i].id]),
        Extensions(items, k, i + 1, need, cur), cap);
      out := Combine(items, k, i + 1, need - 1, cap, cur + [items[i].id], out);
      if |out| >= cap { return; }
      i := i + 1;
    }
  }

  /** A scan ends with exactly the capped list when it runs out of entries or out of room. */
  lemma CappedDone(out: seq<seq<nat>>, rest: seq<seq<nat>>, cap: nat)
    requires |out| <= cap && (rest == [] || |out| == cap)
    ensures Capped(out + rest, cap) == out
  {
  }

  lemma NextEntry(out: seq<seq<nat>>, x: seq<nat>, rest: seq<seq<nat>>)
    ensures out + ([x] + rest) == out + [x] + rest
  {
  }

  method SinglePicks(k: nat, cap: nat) returns (out: seq<seq<nat>>)
    ensures out == Capped(Singles(k, 0), cap)
  {
    out := [];
    var i := 0;
    ghost var goal := Capped(Singles(k, 0), cap);
    assert [] + Singles(k, 0) == Singles(k, 0);
    while i < k && |out| < cap
      invariant 0 <= i <= k && |out| <= cap
      invariant Capped(out + Singles(k, i), cap) == goal
    {
      NextEntry(out, [i], Singles(k, i + 1));
      out := out + [[i]];
      i := i + 1;
    }
    CappedDone(out, Singles(k, i), cap);
  }

  /** The pairs of row `i`, appended while there is room. */
  method PairRowPicks(items: seq<Resource>, d: Demand, k: nat, i: nat, cap: nat, out0: seq<seq<nat>>)
    returns (out: seq<seq<nat>>)
    requires i < k <= |items| && |out0| <= cap
    ensures out == Capped(out0 + PairRow(items, d, k, i, i + 1), cap)
  {
    out := out0;
    var j := i + 1;
    while j < k && |out| < cap
      invariant i < j <= k && |out| <= cap
      invariant Capped(out + PairRow(items, d, k, i, j), cap) == Capped(out0 + PairRow(items, d, k, i, i + 1), cap)
    {
      ghost var row := PairRow(items, d, k, i, j + 1);
      if PairSuffices(items, d, i, j) {
        assert out + ([[i, j]] + row) == out + [[i, j]] + row;
        out := out + [[i, j]];
      } else {
        assert [] + row == row;
      }
      j := j + 1;
    }
  }

  method PairPicks(items: seq<Resource>, d: Demand, k: nat, cap: nat, out0: seq<seq<nat>>) returns (out: seq<seq<nat>>)
    requires k <= |items| && |out0| <= cap
    ensures out == Capped(out0 + Pairs(items, d, k, 0), cap)
  {
    out := out0;
    var i := 0;
    while i < k && |out| < cap
      invariant 0 <= i <= k && |out| <= cap
      invariant Capped(out + Pairs(items, d, k, i), cap) == Capped(out0 + Pairs(items, d, k, 0), cap)
    {
      ghost var row, later := PairRow(items, d, k, i, i + 1), Pairs(items, d, k, i + 1);
      CappedTwice(out, row, later, cap);
      out := PairRowPicks(items, d, k, i, cap, out);
      i := i + 1;
    }
  }

  method EnumerateSelections(items: seq<Resource>, d: Demand, cap: nat) returns (out: seq<seq<ResourceId>>)
    ensures out == Picks(items, d, cap)
  {
    SelectionsInRange(items, d);
    if items == [] { return []; }
    var k := |items|;
    var want := if d.count != 0 then d.count else 1;
    if k > TOP_K { k := TOP_K; }
    if want > k { return []; }
    if !d.amountBased {
      out := Combine(items, k, 0, want, cap, [], []);
      ghost var es := Extensions(items, k, 0, want, []);
      assert [] + es == es;
      ExtensionsArePicks(items, k, 0, want, []);
      ReadsCapped(items, Combos(k, 0, want), es, cap);
    } else {
      var cs := SinglePicks(k, cap);
      if d.amount > 0.0 && k >= 2 {
        cs := PairPicks(items, d, k, cap, cs);
        CappedAppend(Singles(k, 0), Pairs(items, d, k, 0), cap);
      } else {
        assert Singles(k, 0) + [] == Singles(k, 0);
      }
      out := PickIds(items, cs);
    }
  }

  // ---- the bounded product -----------------------------------------------------

  predicate Shares(a: seq<ResourceId>, b: seq<ResourceId>)
  {
    exists i :: 0 <= i < |b| && b[i] in a
  }

  /** `combo` followed by each pick from `j` on that does not repeat one of its members. */
  function Row(combo: seq<ResourceId>, picks: seq<seq<ResourceId>>, j: nat): seq<seq<ResourceId>>
    requires j <= |picks|
    decreases |picks| - j
  {
    if j == |picks| then []
    else (if Shares(combo, picks[j]) then [] else [combo + picks[j]]) + Row(combo, picks, j + 1)
  }

  function Expand(combos: seq<seq<ResourceId>>, picks: seq<seq<ResourceId>>, i: nat): seq<seq<ResourceId>>
    requires i <= |combos|
    decreases |combos| - i
  {
    if i == |combos| then [] else Row(combos[i], picks, 0) + Expand(combos, picks, i + 1)
  }

  /** The combinations after the first |sels| classes. */
  function Product(sels: seq<seq<seq<ResourceId>>>): seq<seq<ResourceId>>
  {
    if sels == [] then [[]]
    else Capped(Expand(Product(sels[..|sels| - 1]), sels[|sels| - 1], 0), COMBO_CAP)
  }

  lemma {:induction false} RowExact(combo: seq<ResourceId>, picks: seq<seq<ResourceId>>, j: nat, c: seq<ResourceId>)
    requires j <= |picks|
    ensures c in Row(combo, picks, j) <==>
        exists m :: j <= m < |picks| && !Shares(combo, picks[m]) && c == combo + picks[m]
    decreases |picks| - j
  {
    if j < |picks| { RowExact(combo, picks, j + 1, c); }
  }

  lemma {:induction false} ExpandExact(combos: seq<seq<ResourceId>>, picks: seq<seq<ResourceId>>, i: nat,
                                       c: seq<ResourceId>)
    requires i <= |combos|
    ensures c in Expand(combos, picks, i) <==>
              exists n, m :: i <= n < |combos| && 0 <= m < |picks| && (
                !Shares(combos[n], picks[m]) && c == combos[n] + picks[m])
    decreases |combos| - i
  {
    if i < |combos| {
      var row, rest := Row(combos[i], picks, 0), Expand(combos, picks, i + 1);
      RowExact(combos[i], picks, 0, c);
      ExpandExact(combos, picks, i + 1, c);
      assert c in row + rest <==> c in row || c in rest;
      if n, m :| i <= n < |combos| && 0 <= m < |picks| && !Shares(combos[n], picks[m]) && c == combos[n] + picks[m] {
        assert n == i ==> c in row;
      }
    }
  }

  /** The inner loop: extend one combination by each pick it does not share a member with, until the cap. */
  method ExtendRow(combo: seq<ResourceId>, picks: seq<seq<ResourceId>>, sofar: seq<seq<ResourceId>>)
    returns (next: seq<seq<ResourceId>>)
    requires |sofar| < COMBO_CAP
    ensures next == Capped(sofar + Row(combo, picks, 0), COMBO_CAP)
  {
    next := sofar;
    var j := 0;
    while j < |picks|
      invariant 0 <= j <= |picks| && |next| < COMBO_CAP
      invariant Capped(next + Row(combo, picks, j), COMBO_CAP) == Capped(sofar + Row(combo, picks, 0), COMBO_CAP)
    {
      ghost var row := Row(combo, picks, j + 1);
      if !Shares(combo, picks[j]) {
        assert next + Row(combo, picks, j) == next + [combo + picks[j]] + row;
        next := next + [combo + picks[j]];
        if |next| >= COMBO_CAP { return; }
      }
      j := j + 1;
    }
  }

  /** One stage of the product, with its two early exits. */
  method ExpandBounded(combos: seq<seq<ResourceId>>, picks: seq<seq<ResourceId>>) returns (next: seq<seq<ResourceId>>)
    ensures next == Capped(Expand(combos, picks, 0), COMBO_CAP)
  {
    next := [];
    var i := 0;
    while i < |combos|
      invariant 0 <= i <= |combos| && |next| < COMBO_CAP
      invariant Capped(next + Expand(combos, picks, i), COMBO_CAP) == Capped(Expand(combos, picks, 0), COMBO_CAP)
    {
      CappedTwice(next, Row(combos[i], picks, 0), Expand(combos, picks, i + 1), COMBO_CAP);
      next := ExtendRow(combos[i], picks, next);
      if |next| >= COMBO_CAP { return; }
      i := i + 1;
    }
  }
}
