/** Facts about real products and quotients used by the filter arithmetic.
    Products in the contracts below are products of variables, multiplied
    out, so that each lemma applies to its call sites unchanged. */
module RealBounds {

  /** `x * w + y * (1 - w)`, the weighted mix of x and y, multiplied out. */
  function Mix(x: real, y: real, w: real): real
  {
    x * w + y - y * w
  }

  /** Scaling an ordered pair by a factor in [0, 1] keeps the order and does
      not widen the gap; the two products are returned as plain values. */
  lemma ScaleGap(w: real, lo: real, hi: real) returns (pLo: real, pHi: real)
    requires 0.0 <= w <= 1.0 && lo <= hi
    ensures pLo == lo * w && pHi == hi * w
    ensures pLo <= pHi && pHi - pLo <= hi - lo
  {
    pLo, pHi := lo * w, hi * w;
    var g := hi - lo;
    assert pHi - pLo == g * w;
    assert g - g * w == g * (1.0 - w);
  }

  /** A mix with a weight in [0, 1] lies between the two values it mixes. */
  lemma MixBetween(x: real, y: real, w: real)
    requires 0.0 <= w <= 1.0
    ensures x <= y ==> x <= Mix(x, y, w) <= y
    ensures y <= x ==> y <= Mix(x, y, w) <= x
  {
    if x <= y {
      var xw, yw := ScaleGap(w, x, y);
      assert Mix(x, y, w) == xw + y - yw;
    } else {
      var yw, xw := ScaleGap(w, y, x);
      assert Mix(x, y, w) == xw + y - yw;
    }
  }

  /** Weight 0 selects the second value, weight 1 the first. */
  lemma MixEnds(x: real, y: real)
    ensures Mix(x, y, 0.0) == y
    ensures Mix(x, y, 1.0) == x
  {
  }

  /** A positive product with a positive second factor has a positive first factor. */
  lemma PositiveFactor(k: real, f: real)
    ensures f > 0.0 && k * f > 0.0 ==> k > 0.0
  {
    if f > 0.0 && k <= 0.0 {
      assert k * f == -((-k) * f);
      assert (-k) * f >= 0.0;
    }
  }

  /** Dividing a positive value by a factor of at least one keeps it positive and no larger. */
  lemma QuotientInRange(v: real, f: real)
    requires v > 0.0 && f >= 1.0
    ensures 0.0 < v / f <= v
  {
    var k := v / f;
    assert k * f == v;
    PositiveFactor(k, f);
    assert k > 0.0;
    assert v - k == k * (f - 1.0);
    assert k * (f - 1.0) >= 0.0;
  }
}
