/** Folding with a step whose order does not matter. */
module Folds {

  function Fold<S, A>(step: (S, A) -> S, s: S, xs: seq<A>): S {
    if xs == [] then s else step(Fold(step, s, xs[..|xs| - 1]), xs[|xs| - 1])
  }

  ghost predicate Commutes<S(!new), A(!new)>(step: (S, A) -> S) {
    forall s, a, b :: step(step(s, a), b) == step(step(s, b), a)
  }

  lemma WithoutAt<T>(s: seq<T>, i: nat)
    requires i < |s|
    ensures multiset(s[..i] + s[i + 1..]) == multiset(s) - multiset{s[i]}
    ensures |s| == |multiset(s)|
  {
    assert s == s[..i] + [s[i]] + s[i + 1..];
  }

  /** An element may be moved to the end. */
  lemma {:induction false} MoveToEnd<S(!new), A(!new)>(step: (S, A) -> S, s: S, xs: seq<A>, i: nat)
    requires Commutes(step) && i < |xs|
    ensures Fold(step, s, xs) == Fold(step, s, xs[..i] + xs[i + 1..] + [xs[i]])
  {
    var n := |xs| - 1;
    var moved := xs[..i] + xs[i + 1..] + [xs[i]];
    if i == n {
      assert moved == xs;
    } else {
      var init, last := xs[..n], xs[n];
      MoveToEnd(step, s, init, i);
      var rest := init[..i] + init[i + 1..];
      assert (rest + [init[i]])[..n - 1] == rest;
      assert moved[..n] == rest + [last] && moved[..n][..n - 1] == rest;
    }
  }

  /** The same elements in another order give the same result. */
  lemma {:induction false} OrderIrrelevant<S(!new), A(!new)>(step: (S, A) -> S, s: S, a: seq<A>, b: seq<A>)
    requires Commutes(step) && multiset(a) == multiset(b)
    ensures Fold(step, s, a) == Fold(step, s, b)
    decreases |a|
  {
    assert |a| == |multiset(a)| == |multiset(b)| == |b|;
    if a != [] {
      var n := |a| - 1;
      assert a[n] in multiset(b);
      var i :| 0 <= i < |b| && b[i] == a[n];
      MoveToEnd(step, s, b, i);
      var rest := b[..i] + b[i + 1..];
      WithoutAt(b, i);
      WithoutAt(a, n);
      assert a[..n] + a[n + 1..] == a[..n];
      OrderIrrelevant(step, s, a[..n], rest);
      assert (rest + [b[i]])[..n] == rest;
    }
  }
}
