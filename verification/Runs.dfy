/** Runs of a machine. A machine is a total step function `next`: a label that is not
    enabled in a state leaves that state alone, so quantifying over every sequence of
    labels is quantifying over every run, of every length, under every interleaving. */
module Runs {

  /** The state a run ends in. */
  function Exec<S, L>(next: (S, L) -> S, s: S, run: seq<L>): S
    decreases |run|
  {
    if |run| == 0 then s else next(Exec(next, s, run[..|run| - 1]), run[|run| - 1])
  }

  /** What holds at the start and is kept by every step holds at the end of every run. */
  lemma {:induction false} Invariant<S(!new), L(!new)>(next: (S, L) -> S, inv: S -> bool, s: S, run: seq<L>)
    requires inv(s)
    requires forall t, l :: inv(t) ==> inv(next(t, l))
    ensures inv(Exec(next, s, run))
    decreases |run|
  {
    if |run| > 0 {
      Invariant(next, inv, s, run[..|run| - 1]);
    }
  }

  /** One more step. */
  lemma Then<S, L>(next: (S, L) -> S, s: S, run: seq<L>, l: L)
    ensures Exec(next, s, run + [l]) == next(Exec(next, s, run), l)
  {
    assert (run + [l])[..|run|] == run;
  }

  /** Short runs. */
  lemma Short<S, L>(next: (S, L) -> S, s: S, k: L, l: L)
    ensures Exec(next, s, [k]) == next(s, k)
    ensures Exec(next, s, [k, l]) == next(next(s, k), l)
  {
    assert [k][..0] == [] && [k, l][..1] == [k];
  }

  /** Some run of permitted labels leads from `s` to `t`. */
  ghost predicate Reach<S(!new), L(!new)>(next: (S, L) -> S, ok: L -> bool, s: S, t: S) {
    exists run: seq<L> :: Exec(next, s, run) == t && (forall l :: l in run ==> ok(l))
  }

  lemma ReachSelf<S(!new), L(!new)>(next: (S, L) -> S, ok: L -> bool, s: S)
    ensures Reach(next, ok, s, s)
  {
    var run: seq<L> := [];
    assert Exec(next, s, run) == s;
  }

  lemma ReachStep<S(!new), L(!new)>(next: (S, L) -> S, ok: L -> bool, s: S, t: S, l: L)
    requires Reach(next, ok, s, t) && ok(l)
    ensures Reach(next, ok, s, next(t, l))
  {
    var run: seq<L> :| Exec(next, s, run) == t && (forall l :: l in run ==> ok(l));
    Then(next, s, run, l);
    assert Exec(next, s, run + [l]) == next(t, l);
  }

  /** All labels are permitted. */
  predicate Any<L>(l: L) { true }

  /** `R` is closed under permitted steps, as the set of reachable states is. Concrete runs are
      built against any such `R`, and `At` says where a step is taken. */
  ghost predicate KeptBy<S(!new), L(!new)>(next: (S, L) -> S, ok: L -> bool, R: S -> bool) {
    forall s: S, l: L {:trigger At(s, l)} :: At(s, l) && R(s) && ok(l) ==> R(next(s, l))
  }

  ghost predicate At<S(!new), L(!new)>(s: S, l: L) { true }

  lemma Take<S(!new), L(!new)>(next: (S, L) -> S, ok: L -> bool, R: S -> bool, s: S, l: L) returns (t: S)
    requires KeptBy(next, ok, R) && R(s) && ok(l)
    ensures R(t) && t == next(s, l)
  {
    t := next(s, l);
    assert At(s, l);
  }

  lemma ReachableIsClosed<S(!new), L(!new)>(next: (S, L) -> S, ok: L -> bool, s: S)
    ensures KeptBy(next, ok, t => Reach(next, ok, s, t)) && Reach(next, ok, s, s)
  {
    ReachSelf(next, ok, s);
    forall t, l | Reach(next, ok, s, t) && ok(l) ensures Reach(next, ok, s, next(t, l)) {
      ReachStep(next, ok, s, t, l);
    }
  }

  /** What holds of a run and of every run that is one step longer holds of every longer run. */
  lemma {:induction false} Along<L(!new)>(holds: seq<L> -> bool, run: seq<L>, more: seq<L>)
    requires holds(run) && forall r, l :: holds(r) ==> holds(r + [l])
    ensures holds(run + more)
    decreases |more|
  {
    if |more| == 0 {
      assert run + more == run;
    } else {
      var init, l := more[..|more| - 1], more[|more| - 1];
      Along(holds, run, init);
      assert run + more == (run + init) + [l];
    }
  }

  lemma Always<L(!new)>(holds: seq<L> -> bool, run: seq<L>)
    requires holds([]) && forall r, l :: holds(r) ==> holds(r + [l])
    ensures holds(run)
  {
    Along(holds, [], run);
    assert [] + run == run;
  }

  /** A run may be cut anywhere. */
  lemma {:induction false} Split<S, L>(next: (S, L) -> S, s: S, before: seq<L>, after: seq<L>)
    ensures Exec(next, s, before + after) == Exec(next, Exec(next, s, before), after)
    decreases |after|
  {
    if |after| == 0 {
      assert before + after == before;
    } else {
      var run := before + after;
      assert run[..|run| - 1] == before + after[..|after| - 1];
      Split(next, s, before, after[..|after| - 1]);
    }
  }
}
