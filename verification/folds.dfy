/** Running a step function over a sequence, collecting what each step puts out. */
module Folds {
  function Fold<S, X, O>(step: (S, X) -> (S, seq<O>), s: S, xs: seq<X>): (S, seq<O>) {
    if xs == [] then (s, [])
    else
      var (s', out) := step(s, xs[0]);
      var (end, rest) := Fold(step, s', xs[1..]);
      (end, out + rest)
  }

  /** Running over `a + b` is running over `a` and then over `b`. */
  lemma {:induction false} FoldConcat<S, X, O>(step: (S, X) -> (S, seq<O>), s: S, a: seq<X>, b: seq<X>)
    ensures var (m, out) := Fold(step, s, a); var (end, rest) := Fold(step, m, b);
      Fold(step, s, a + b) == (end, out + rest)
  {
    if a == [] {
      assert a + b == b;
      assert [] + Fold(step, s, b).1 == Fold(step, s, b).1;
    } else {
      assert (a + b)[1..] == a[1..] + b;
      var (s', out) := step(s, a[0]);
      FoldConcat(step, s', a[1..], b);
      var (m, outA) := Fold(step, s', a[1..]);
      var (end, rest) := Fold(step, m, b);
      assert out + (outA + rest) == (out + outA) + rest;
    }
  }

  lemma FoldSnoc<S, X, O>(step: (S, X) -> (S, seq<O>), s: S, xs: seq<X>, x: X)
    ensures var (m, out) := Fold(step, s, xs); var (end, last) := step(m, x);
      Fold(step, s, xs + [x]) == (end, out + last)
  {
    FoldConcat(step, s, xs, [x]);
    var (m, _) := Fold(step, s, xs);
    var (end, last) := step(m, x);
    assert [x][1..] == [] && last + [] == last;
  }

  /** `FoldSnoc`, as a loop over `xs` needs it. */
  lemma FoldPrefix<S, X, O>(step: (S, X) -> (S, seq<O>), s: S, xs: seq<X>, k: nat)
    requires k < |xs|
    ensures var (m, out) := Fold(step, s, xs[..k]); var (end, last) := step(m, xs[k]);
      Fold(step, s, xs[..k + 1]) == (end, out + last)
    ensures xs[..|xs|] == xs
  {
    FoldSnoc(step, s, xs[..k], xs[k]);
    assert xs[..k] + [xs[k]] == xs[..k + 1];
  }
}
