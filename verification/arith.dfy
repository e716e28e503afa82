/** Small facts of real arithmetic the solver needs spelled out: products and quotients. */
module Arith {

  lemma MulNonNegative(u: real, v: real)
    requires u >= 0.0 && v >= 0.0
    ensures u * v >= 0.0
  {
  }

  lemma MulPositive(u: real, v: real)
    requires u > 0.0 && v > 0.0
    ensures u * v > 0.0
  {
  }

  lemma Cancel(u: real, w: real, a: real)
    requires a != 0.0 && u * a == w * a
    ensures u == w
  {
    assert (u - w) * a == u * a - w * a;
  }

  lemma DivSelf(d: real)
    requires d != 0.0
    ensures d / d == 1.0
  {
  }

  lemma QuotientSign(x: real, d: real)
    requires d > 0.0
    ensures x / d > 0.0 <==> x > 0.0
    ensures x / d < 0.0 <==> x < 0.0
  {
    var q := x / d;
    assert q * d == x;
    if x > 0.0 && q <= 0.0 { assert false; }
    if x <= 0.0 && q > 0.0 { assert false; }
    if x < 0.0 && q >= 0.0 { assert false; }
    if x >= 0.0 && q < 0.0 { assert false; }
  }
}
