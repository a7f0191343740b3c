/** Runs of any transition system, and induction over them. */
module RunTheory {

  ghost function Exec<C, S>(next: (C, S) -> C, c: C, run: seq<S>): C
    decreases |run|
  {
    if run == [] then c else Exec(next, next(c, run[0]), run[1..])
  }

  /** Every step of the run is allowed in the state it is taken in. */
  ghost predicate Allowed<C, S>(next: (C, S) -> C, ok: (C, S) -> bool, c: C, run: seq<S>)
    decreases |run|
  {
    run == [] || (ok(c, run[0]) && Allowed(next, ok, next(c, run[0]), run[1..]))
  }

  lemma {:induction false} ExecAppend<C, S>(next: (C, S) -> C, c: C, a: seq<S>, b: seq<S>)
    ensures Exec(next, c, a + b) == Exec(next, Exec(next, c, a), b)
    decreases |a|
  {
    if a == [] {
      assert a + b == b;
    } else {
      ExecAppend(next, next(c, a[0]), a[1..], b);
      assert (a + b)[1..] == a[1..] + b;
    }
  }

  lemma {:induction false} AllowedAppend<C, S>(next: (C, S) -> C, ok: (C, S) -> bool, c: C, a: seq<S>, b: seq<S>)
    ensures Allowed(next, ok, c, a + b) <==> Allowed(next, ok, c, a) && Allowed(next, ok, Exec(next, c, a), b)
    decreases |a|
  {
    if a == [] {
      assert a + b == b;
    } else {
      AllowedAppend(next, ok, next(c, a[0]), a[1..], b);
      assert (a + b)[1..] == a[1..] + b;
    }
  }

  /** What every allowed step keeps holds after every allowed run. */
  lemma {:induction false} Invariance<C(!new), S(!new)>(next: (C, S) -> C, ok: (C, S) -> bool, inv: C -> bool, c: C,
                                        run: seq<S>)
    requires inv(c) && Allowed(next, ok, c, run)
    requires forall d: C, step: S :: inv(d) && ok(d, step) ==> inv(next(d, step))
    ensures inv(Exec(next, c, run))
    decreases |run|
  {
    if run != [] { Invariance(next, ok, inv, next(c, run[0]), run[1..]); }
  }

  /** What every step keeps holds after every run. */
  lemma {:induction false} EveryRun<C(!new), S(!new)>(next: (C, S) -> C, inv: C -> bool, c: C, run: seq<S>)
    requires inv(c) && forall d: C, step: S :: inv(d) ==> inv(next(d, step))
    ensures inv(Exec(next, c, run))
    decreases |run|
  {
    if run != [] { EveryRun(next, inv, next(c, run[0]), run[1..]); }
  }

  /** One more step at the end of a run. */
  lemma OneMore<C, S>(next: (C, S) -> C, ok: (C, S) -> bool, c: C, run: seq<S>, step: S)
    requires Allowed(next, ok, c, run) && ok(Exec(next, c, run), step)
    ensures Exec(next, c, run + [step]) == next(Exec(next, c, run), step)
    ensures Allowed(next, ok, c, run + [step])
  {
    var d := Exec(next, c, run);
    ExecAppend(next, c, run, [step]);
    AllowedAppend(next, ok, c, run, [step]);
    assert [step][1..] == [];
    assert Exec(next, d, [step]) == Exec(next, next(d, step), []);
    assert Allowed(next, ok, next(d, step), []);
  }

  lemma ExecFour<C, S>(next: (C, S) -> C, c: C, p: S, q: S, r: S, t: S)
    ensures Exec(next, c, [p, q, r, t]) == next(next(next(next(c, p), q), r), t)
  {
    assert [p, q, r, t][1..] == [q, r, t];
    assert [q, r, t][1..] == [r, t];
    assert [r, t][1..] == [t];
    assert [t][1..] == [];
    assert Exec(next, next(next(next(c, p), q), r), [t]) == next(next(next(next(c, p), q), r), t);
    assert Exec(next, next(next(c, p), q), [r, t]) == next(next(next(next(c, p), q), r), t);
    assert Exec(next, next(c, p), [q, r, t]) == next(next(next(next(c, p), q), r), t);
  }
}
