/** Quotients of reals, kept behind names so that proofs use their laws and not their arithmetic. */
module Reals {

  function Ratio(a: real, b: real): real
    requires b != 0.0
  {
    a / b
  }

  /** A quotient times its divisor is the dividend, and only the quotient is. */
  lemma RatioIs(a: real, b: real, x: real)
    requires b != 0.0
    ensures Ratio(a, b) * b == a
    ensures x * b == a ==> Ratio(a, b) == x
  {
  }

  lemma PositiveFactor(x: real, a: real)
    requires x * a > 0.0 && a > 0.0
    ensures x > 0.0
  {
  }

  lemma PositiveProduct(x: real, a: real)
    requires x >= 0.0 && a >= 0.0
    ensures x * a >= 0.0 && (x > 0.0 && a > 0.0 ==> x * a > 0.0)
  {
  }

  lemma RatioBounds(a: real, b: real, lo: real, hi: real)
    requires b > 0.0 && lo * b <= a <= hi * b
    ensures lo <= Ratio(a, b) <= hi
  {
  }

  /** A weighted mean of two numbers lies between bounds of both. */
  lemma Convex(x: real, y: real, k: real, lo: real, hi: real)
    requires 0.0 <= k <= 1.0 && lo <= x <= hi && lo <= y <= hi
    ensures lo <= x * k + y * (1.0 - k) <= hi
  {
    PositiveProduct(x - lo, k);
    PositiveProduct(y - lo, 1.0 - k);
    PositiveProduct(hi - x, k);
    PositiveProduct(hi - y, 1.0 - k);
    assert x * k + y * (1.0 - k) - lo == (x - lo) * k + (y - lo) * (1.0 - k);
    assert hi - (x * k + y * (1.0 - k)) == (hi - x) * k + (hi - y) * (1.0 - k);
  }

  /** A value times its weight, kept behind a name so that proofs use its laws and not its arithmetic. */
  function Weighed(w: real, v: real): real {
    w * v
  }

  lemma WeighedSum(w: real, u: real, v: real)
    ensures Weighed(w, u + v) == Weighed(w, u) + Weighed(w, v)
  {
  }

  lemma WeighedTwice(w: real, u: real, v: real)
    ensures Weighed(Weighed(w, u), v) == Weighed(w, Weighed(u, v)) == Weighed(u, Weighed(w, v))
  {
  }

  lemma WeighedUnits(w: real)
    ensures Weighed(w, 1.0) == w && Weighed(1.0, w) == w && Weighed(w, 0.0) == 0.0
  {
  }

  lemma WeighedSplit(w: real, v: real, u: real)
    ensures Weighed(w, v) == Weighed(w, u) + Weighed(w, v - u)
  {
  }

  lemma WeighedDifference(x: real, y: real, a: real)
    ensures Weighed(x, a) == Weighed(y, a) + Weighed(x - y, a)
  {
  }

  lemma WeighedOrder(x: real, y: real, a: real)
    requires a > 0.0
    ensures Weighed(x, a) > Weighed(y, a) <==> x > y
  {
    hide Weighed;
    WeighedDifference(x, y, a);
    WeighedSign(x - y, a);
  }

  lemma WeighedSign(x: real, a: real)
    requires a > 0.0
    ensures Weighed(x, a) > 0.0 <==> x > 0.0
  {
    if x > 0.0 { PositiveProduct(x, a); } else { PositiveProduct(-x, a); }
  }

  lemma RatioWeighs(a: real, b: real)
    requires b != 0.0
    ensures Weighed(Ratio(a, b), b) == a
  {
    RatioIs(a, b, 0.0);
  }

  /** The larger share of two is that of the smaller divisor, exactly if what is shared is positive. */
  lemma SmallerShare(d: real, a: real, b: real)
    requires 0.0 < a < b
    ensures Ratio(d, a) > Ratio(d, b) <==> d > 0.0
  {
    hide Ratio, Weighed;
    var x, y := Ratio(d, a), Ratio(d, b);
    RatioWeighs(d, a);
    RatioWeighs(d, b);
    WeighedSplit(y, b, a);
    WeighedOrder(x, y, a);
    WeighedSign(y, b - a);
    WeighedSign(y, b);
  }
}
