/** Positional numerals, most significant digit first: the arithmetic under big-endian fields and base 58. */
module Numeral {

  type Base = b: nat | b >= 2 witness 2

  predicate Digits(base: Base, ds: seq<nat>) {
    forall k :: 0 <= k < |ds| ==> ds[k] < base
  }

  function Value(base: Base, ds: seq<nat>): nat {
    if ds == [] then 0 else Value(base, ds[..|ds| - 1]) * base + ds[|ds| - 1]
  }

  /** The shortest numeral of n; zero has no digits. */
  function Shortest(base: Base, n: nat): (ds: seq<nat>)
    ensures Digits(base, ds)
  {
    if n == 0 then []
    else
      Smaller(base, n);
      Shortest(base, n / base) + [n % base]
  }

  /** The numeral of n with exactly `width` digits; what does not fit is cut off at the top. */
  function Fixed(base: Base, n: nat, width: nat): (ds: seq<nat>)
    ensures |ds| == width && Digits(base, ds)
  {
    if width == 0 then [] else Fixed(base, n / base, width - 1) + [n % base]
  }

  function Power(base: Base, k: nat): nat {
    if k == 0 then 1 else Power(base, k - 1) * base
  }

  function Zeros(k: nat): (ds: seq<nat>)
    ensures |ds| == k && forall j :: 0 <= j < k ==> ds[j] == 0
  {
    seq(k, _ => 0)
  }

  lemma MulMono(p: nat, q: nat, base: nat)
    requires p <= q
    ensures p * base <= q * base
  {
  }

  lemma MulCancel(q: nat, p: nat, base: nat)
    requires q * base < p * base
    ensures q < p
  {
    if p <= q {
      MulMono(p, q, base);
    }
  }

  lemma Split(n: nat, base: Base)
    ensures n == (n / base) * base + n % base
  {
  }

  lemma Smaller(base: Base, n: nat)
    requires n > 0
    ensures n / base < n
  {
    Split(n, base);
    MulMono(2, base, n / base);
  }

  lemma Below(q: nat, p: nat, base: Base, d: nat)
    requires q < p && d < base
    ensures q * base + d < p * base
  {
    MulMono(q + 1, p, base);
  }

  lemma Fits(n: nat, p: nat, base: Base)
    requires n < p * base
    ensures n / base < p && n == (n / base) * base + n % base
  {
    Split(n, base);
    MulCancel(n / base, p, base);
  }

  lemma Divides(q: nat, d: nat, base: Base)
    requires d < base
    ensures (q * base + d) / base == q && (q * base + d) % base == d
  {
    var n := q * base + d;
    Split(n, base);
    MulCancel(n / base, q + 1, base);
    MulCancel(q, n / base + 1, base);
  }

  lemma {:induction false} ValueOfShortest(base: Base, n: nat)
    ensures Value(base, Shortest(base, n)) == n
  {
    if n > 0 {
      Smaller(base, n);
      ValueOfShortest(base, n / base);
      Split(n, base);
      ValueSnoc(base, Shortest(base, n / base), n % base);
    }
  }

  lemma ValueSnoc(base: Base, ds: seq<nat>, d: nat)
    ensures Value(base, ds + [d]) == Value(base, ds) * base + d
  {
    assert (ds + [d])[..|ds|] == ds;
  }

  /** Leading zeros do not change a numeral's value. */
  lemma {:induction false} ValueOfZeros(base: Base, k: nat, ds: seq<nat>)
    ensures Value(base, Zeros(k) + ds) == Value(base, ds)
  {
    var all := Zeros(k) + ds;
    if ds == [] {
      assert all == Zeros(k);
      if k > 0 {
        assert Zeros(k)[..k - 1] == Zeros(k - 1) + [];
        ValueOfZeros(base, k - 1, []);
      }
    } else {
      assert all[..|all| - 1] == Zeros(k) + ds[..|ds| - 1];
      ValueOfZeros(base, k, ds[..|ds| - 1]);
    }
  }

  lemma {:induction false} ValueIsPositive(base: Base, ds: seq<nat>)
    requires ds != [] && ds[0] != 0
    ensures Value(base, ds) > 0
  {
    if |ds| > 1 {
      ValueIsPositive(base, ds[..|ds| - 1]);
      assert Value(base, ds[..|ds| - 1]) * base >= 1;
    }
  }

  /** A numeral without leading zeros is the shortest numeral of its value. */
  lemma {:induction false} ShortestOfValue(base: Base, ds: seq<nat>)
    requires Digits(base, ds) && (ds != [] ==> ds[0] != 0)
    ensures Shortest(base, Value(base, ds)) == ds
  {
    if ds != [] {
      var front, last := ds[..|ds| - 1], ds[|ds| - 1];
      ShortestOfValue(base, front);
      ValueIsPositive(base, ds);
      Divides(Value(base, front), last, base);
      assert ds == front + [last];
    }
  }

  lemma {:induction false} ShortestHasNoLeadingZero(base: Base, n: nat)
    requires n > 0
    ensures Shortest(base, n) != [] && Shortest(base, n)[0] != 0
  {
    if n < base {
      Divides(0, n, base);
      assert Shortest(base, 0) == [];
    } else {
      Smaller(base, n);
      Split(n, base);
      MulCancel(1, n / base + 1, base);
      ShortestHasNoLeadingZero(base, n / base);
    }
  }

  /** A fixed-width numeral has the value of what fits: n itself when it is below base^width. */
  lemma {:induction false} ValueOfFixed(base: Base, n: nat, width: nat)
    requires n < Power(base, width)
    ensures Value(base, Fixed(base, n, width)) == n
  {
    if width == 0 {
      assert Power(base, 0) == 1;
    } else {
      hide Power, Value;
      QuotientFits(base, n, width);
      ValueOfFixed(base, n / base, width - 1);
      ValueOfStep(base, Fixed(base, n / base, width - 1), n);
    }
  }

  lemma QuotientFits(base: Base, n: nat, width: nat)
    requires width > 0 && n < Power(base, width)
    ensures n / base < Power(base, width - 1)
  {
    hide Power;
    PowerStep(base, width);
    Fits(n, Power(base, width - 1), base);
  }

  lemma ValueOfStep(base: Base, front: seq<nat>, n: nat)
    requires Value(base, front) == n / base
    ensures Value(base, front + [n % base]) == n
  {
    hide Value;
    ValueSnoc(base, front, n % base);
    Split(n, base);
  }

  lemma PowerStep(base: Base, width: nat)
    requires width > 0
    ensures Power(base, width) == Power(base, width - 1) * base
  {
  }

  /** And every numeral of that width is the fixed-width numeral of its value. */
  lemma {:induction false} FixedOfValue(base: Base, ds: seq<nat>)
    requires Digits(base, ds)
    ensures Fixed(base, Value(base, ds), |ds|) == ds && Value(base, ds) < Power(base, |ds|)
  {
    if ds != [] {
      var front, last := ds[..|ds| - 1], ds[|ds| - 1];
      FixedOfValue(base, front);
      Divides(Value(base, front), last, base);
      Below(Value(base, front), Power(base, |front|), base, last);
      assert ds == front + [last];
    }
  }
}
