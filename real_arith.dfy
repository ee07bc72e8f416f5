/**
 * Facts about products and quotients that the solver does not find
 * unaided, each proved from the sign of a single product.
 */
module RealArith {
  /** One more stride of `c` samples: `(j - 1) * c + c == j * c`. */
  lemma StrideStep(j: nat, c: nat)
    requires j > 0
    ensures (j - 1) * c + c == j * c
  {
  }

  /** A product of two non-negative reals is non-negative. */
  lemma NonNegProduct(u: real, v: real)
    requires 0.0 <= u && 0.0 <= v
    ensures 0.0 <= u * v
  {
  }

  /** The linear blend `a * (1 - t) + b * t`: `a` at `t = 0`, between `a` and `b` for `t` in [0, 1]. */
  function Lerp(a: real, b: real, t: real): (x: real)
    requires 0.0 <= t <= 1.0
    ensures a <= b ==> a <= x <= b
    ensures b <= a ==> b <= x <= a
    ensures t == 0.0 ==> x == a
  {
    var x := a * (1.0 - t) + b * t;
    assert x - a == (b - a) * t;
    assert b - x == (b - a) * (1.0 - t);
    if a <= b then
      NonNegProduct(b - a, t);
      NonNegProduct(b - a, 1.0 - t);
      x
    else
      NonNegProduct(a - b, t);
      NonNegProduct(a - b, 1.0 - t);
      x
  }

  /** A factor in [-1, 1] scales a non-negative `s` into [-s, s]. */
  lemma SignedScale(c: real, s: real)
    requires -1.0 <= c <= 1.0 && 0.0 <= s
    ensures -s <= c * s <= s
  {
    NonNegProduct(1.0 - c, s);
    NonNegProduct(1.0 + c, s);
  }

  /** A positive product of two positive reals. */
  lemma PosProduct(u: real, v: real)
    requires 0.0 < u && 0.0 < v
    ensures 0.0 < u * v
  {
  }

  /** `c * k` for a fraction `c` in [0, 1]: in [0, k], 0 exactly at `c = 0` and `k` exactly at `c = 1`. */
  function ScaleUnit(c: real, k: real): (e: real)
    requires 0.0 <= c <= 1.0 && k > 0.0
    ensures 0.0 <= e <= k
    ensures e == 0.0 <==> c == 0.0
    ensures e == k <==> c == 1.0
  {
    var e := c * k;
    assert k - e == (1.0 - c) * k;
    NonNegProduct(c, k);
    NonNegProduct(1.0 - c, k);
    if 0.0 < c && c < 1.0 then
      PosProduct(c, k);
      PosProduct(1.0 - c, k);
      e
    else e
  }

  /** A quotient by a positive number is at most `k` when the dividend is at most `k` times the divisor. */
  lemma QuotientAtMost(w: real, t: real, k: real)
    requires t > 0.0 && w <= k * t
    ensures w / t <= k
  {
    var q := w / t;
    assert q * t == w;
    var e := k - q;
    assert e * t == k * t - w;
    assert e * t >= 0.0;
    assert e == (e * t) / t;
  }
}
