/** Sums over sequences of integers, and how they move when one entry changes. */
module Sums {

  function Total(xs: seq<int>): int {
    if xs == [] then 0 else Total(xs[..|xs| - 1]) + xs[|xs| - 1]
  }

  lemma TotalSnoc(xs: seq<int>, x: int)
    ensures Total(xs + [x]) == Total(xs) + x
  {
    assert (xs + [x])[..|xs|] == xs;
  }

  lemma {:induction false} TotalUpdate(xs: seq<int>, i: nat, x: int)
    requires i < |xs|
    ensures Total(xs[i := x]) == Total(xs) - xs[i] + x
  {
    var n := |xs| - 1;
    var ys := xs[i := x];
    if i == n {
      assert ys[..n] == xs[..n];
    } else {
      assert ys[..n] == xs[..n][i := x];
      TotalUpdate(xs[..n], i, x);
    }
  }

  lemma {:induction false} TotalMono(xs: seq<int>, ys: seq<int>)
    requires |xs| == |ys| && forall i: nat | i < |xs| :: xs[i] <= ys[i]
    ensures Total(xs) <= Total(ys)
  {
    if xs != [] {
      TotalMono(xs[..|xs| - 1], ys[..|ys| - 1]);
    }
  }

  /** If every entry but the j-th is at most its bound, the bounds exceed the rest of the sum. */
  lemma TotalExcept(xs: seq<int>, ys: seq<int>, j: nat)
    requires |xs| == |ys| && j < |xs|
    requires forall i: nat | i < |xs| && i != j :: xs[i] <= ys[i]
    ensures Total(xs) - xs[j] <= Total(ys) - ys[j]
  {
    TotalUpdate(xs, j, ys[j]);
    TotalMono(xs[j := ys[j]], ys);
  }

  lemma {:induction false} TotalScale(xs: seq<int>, ys: seq<int>, k: int)
    requires |xs| == |ys| && forall i: nat | i < |xs| :: xs[i] == k * ys[i]
    ensures Total(xs) == k * Total(ys)
  {
    if xs != [] {
      TotalScale(xs[..|xs| - 1], ys[..|ys| - 1], k);
    }
  }

  lemma {:induction false} TotalZero(xs: seq<int>)
    requires forall i: nat | i < |xs| :: xs[i] == 0
    ensures Total(xs) == 0
  {
    if xs != [] {
      TotalZero(xs[..|xs| - 1]);
    }
  }
}
