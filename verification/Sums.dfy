/** Sums of a weight over the elements of a sequence, and how they change. */
module Sums {

  function Sum<T>(xs: seq<T>, w: T -> nat): nat {
    if xs == [] then 0 else Sum(xs[..|xs| - 1], w) + w(xs[|xs| - 1])
  }

  lemma {:induction false} SumUpdate<T>(xs: seq<T>, w: T -> nat, i: nat, x: T)
    requires i < |xs|
    ensures Sum(xs[i := x], w) + w(xs[i]) == Sum(xs, w) + w(x)
    decreases |xs|
  {
    var n := |xs| - 1;
    if i == n {
      assert xs[i := x][..n] == xs[..n];
    } else {
      SumUpdate(xs[..n], w, i, x);
      assert xs[i := x][..n] == xs[..n][i := x];
    }
  }

  lemma SumAppend<T>(xs: seq<T>, w: T -> nat, x: T)
    ensures Sum(xs + [x], w) == Sum(xs, w) + w(x)
  {
    assert (xs + [x])[..|xs|] == xs;
  }

  /** Changing every element by a weight of at most d changes the sum by at most d for each. */
  lemma {:induction false} SumPointwise<T>(xs: seq<T>, ys: seq<T>, w: T -> nat, d: nat)
    requires |ys| == |xs|
    requires forall i | 0 <= i < |xs| :: w(ys[i]) <= w(xs[i]) + d
    ensures Sum(ys, w) <= Sum(xs, w) + |xs| * d
    decreases |xs|
  {
    if xs != [] {
      var n := |xs| - 1;
      SumPointwise(xs[..n], ys[..n], w, d);
      assert w(ys[n]) <= w(xs[n]) + d;
      Distribute(n, d);
    }
  }

  lemma Distribute(n: nat, d: nat)
    ensures (n + 1) * d == n * d + d
  {
  }
}
