/** Left folds, kept apart from what is folded so that proofs about the order of
    steps need not look inside a step. */
module Folding {

  function All<S, C>(step: (S, C) -> S, s: S, cs: seq<C>): S {
    if cs == [] then s else step(All(step, s, cs[..|cs| - 1]), cs[|cs| - 1])
  }

  lemma {:induction false} Concat<S, C>(step: (S, C) -> S, s: S, a: seq<C>, b: seq<C>)
    ensures All(step, s, a + b) == All(step, All(step, s, a), b)
    decreases |b|
  {
    if b == [] {
      assert a + b == a;
    } else {
      var n := |b| - 1;
      assert (a + b)[..|a| + n] == a + b[..n];
      Concat(step, s, a, b[..n]);
    }
  }

  lemma One<S, C>(step: (S, C) -> S, s: S, c: C)
    ensures All(step, s, [c]) == step(s, c)
  {
  }

  /** Two folds whose steps agree position by position agree. */
  lemma {:induction false} Same<S(!new), C, D>(f: (S, C) -> S, g: (S, D) -> S, s: S, cs: seq<C>, ds: seq<D>)
    requires |cs| == |ds|
    requires forall i, x :: 0 <= i < |cs| ==> f(x, cs[i]) == g(x, ds[i])
    ensures All(f, s, cs) == All(g, s, ds)
    decreases |cs|
  {
    if cs != [] {
      var n := |cs| - 1;
      Same(f, g, s, cs[..n], ds[..n]);
    }
  }
}
