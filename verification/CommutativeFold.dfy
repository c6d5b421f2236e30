/** Folding with steps that commute. */
module CommutativeFold {

  function FoldAll<S, T>(step: (S, T) -> S, start: S, xs: seq<T>): S {
    if xs == [] then start else step(FoldAll(step, start, xs[..|xs| - 1]), xs[|xs| - 1])
  }

  ghost predicate Commutes<S(!new), T(!new)>(step: (S, T) -> S) {
    forall s, a, b :: step(step(s, a), b) == step(step(s, b), a)
  }

  lemma {:induction false} FoldConcat<S, T>(step: (S, T) -> S, start: S, xs: seq<T>, ys: seq<T>)
    ensures FoldAll(step, start, xs + ys) == FoldAll(step, FoldAll(step, start, xs), ys)
  {
    if ys == [] {
      assert xs + ys == xs;
    } else {
      var n := |ys| - 1;
      FoldConcat(step, start, xs, ys[..n]);
      assert (xs + ys)[..|xs + ys| - 1] == xs + ys[..n];
    }
  }

  function Without<T>(xs: seq<T>, i: nat): seq<T>
    requires i < |xs|
  {
    xs[..i] + xs[i + 1..]
  }

  lemma {:induction false} MoveToEnd<S(!new), T(!new)>(step: (S, T) -> S, start: S, xs: seq<T>, i: nat)
    requires Commutes(step) && i < |xs|
    ensures FoldAll(step, start, xs) == step(FoldAll(step, start, Without(xs, i)), xs[i])
  {
    var n := |xs| - 1;
    if i == n {
      assert Without(xs, i) == xs[..n];
    } else {
      MoveToEnd(step, start, xs[..n], i);
      var shorter := Without(xs, i);
      assert shorter[|shorter| - 1] == xs[n] && shorter[..|shorter| - 1] == Without(xs[..n], i);
    }
  }

  lemma {:induction false} OrderIrrelevant<S(!new), T(!new)>(step: (S, T) -> S, start: S, xs: seq<T>, ys: seq<T>)
    requires Commutes(step) && multiset(xs) == multiset(ys)
    ensures FoldAll(step, start, xs) == FoldAll(step, start, ys)
    decreases |ys|
  {
    assert |xs| == |multiset(xs)| == |multiset(ys)| == |ys|;
    if ys != [] {
      var n := |ys| - 1;
      assert ys == ys[..n] + [ys[n]];
      assert ys[n] in multiset(ys);
      assert ys[n] in xs;
      var i :| 0 <= i < |xs| && xs[i] == ys[n];
      MoveToEnd(step, start, xs, i);
      assert xs == xs[..i] + [xs[i]] + xs[i + 1..];
      assert multiset(Without(xs, i)) == multiset(xs) - multiset{xs[i]};
      OrderIrrelevant(step, start, Without(xs, i), ys[..n]);
    }
  }
}
