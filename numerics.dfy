/**
 * C# numeric conventions the renderers and the analyser rely on, stated over
 * Dafny's unbounded reals and integers:
 *   - `(int)x` on a float truncates toward zero;
 *   - `x % m` on floats is the truncated remainder (it has the sign of x);
 *   - sums and maxima over spectra.
 */
module Numerics {

  /** `(int)x`: truncation toward zero. */
  function Trunc(x: real): (r: int)
    ensures 0.0 <= x ==> 0 <= r && r as real <= x < r as real + 1.0
    ensures x < 0.0 ==> r <= 0 && r as real - 1.0 < x <= r as real
  {
    if x >= 0.0 then x.Floor else -((-x).Floor)
  }

  /** `Math.Clamp(v, 0, 100)`: a saturation or value percentage. */
  function Percent(v: int): (p: int)
    ensures 0 <= p <= 100
    ensures 0 <= v <= 100 ==> p == v
  {
    if v < 0 then 0 else if v > 100 then 100 else v
  }

  /** `Math.Floor` followed by `(int)`. */
  function FloorInt(x: real): (r: int)
    ensures r as real <= x < r as real + 1.0
  {
    x.Floor
  }

  /** The C# float remainder `x % m` for a positive divisor: `x - m * trunc(x / m)`. */
  function FMod(x: real, m: real): (r: real)
    requires m > 0.0
    ensures 0.0 <= x ==> 0.0 <= r < m
    ensures x < 0.0 ==> -m < r <= 0.0
    ensures 0.0 <= x < m ==> r == x
  {
    var q := Trunc(x / m);
    TruncRemainder(x, m, q);
    x - m * q as real
  }

  lemma TruncRemainder(x: real, m: real, q: int)
    requires m > 0.0 && q == Trunc(x / m)
    ensures 0.0 <= x ==> 0.0 <= x - m * q as real < m
    ensures x < 0.0 ==> -m < x - m * q as real <= 0.0
    ensures 0.0 <= x < m ==> q == 0
  {
    var y := x / m;
    var qr := q as real;
    Quotient(x, m);
    if 0.0 <= x {
      RemainderOf(x, m, y, qr);
    } else {
      RemainderOf(-x, m, -y, -qr);
    }
  }

  lemma Quotient(x: real, m: real)
    requires m > 0.0
    ensures m * (x / m) == x
    ensures x >= 0.0 ==> x / m >= 0.0
    ensures x < 0.0 ==> x / m < 0.0
    ensures x < m ==> x / m < 1.0
  {
    assert x / m == -((-x) / m);
    if x < m {
      assert x / m < 1.0 by {
        assert (m - x) / m > 0.0;
        assert (m - x) / m + x / m == m / m;
      }
    }
  }

  lemma RemainderOf(x: real, m: real, y: real, qr: real)
    requires m > 0.0 && m * y == x
    requires 0.0 <= y - qr < 1.0
    ensures 0.0 <= x - m * qr < m
  {
    var d := y - qr;
    ScaleBelowOne(m, d);
    var p := m * d;
    assert p == m * y - m * qr;
    assert x - m * qr == p;
  }

  lemma ScaleBelowOne(m: real, d: real)
    requires m > 0.0 && 0.0 <= d < 1.0
    ensures 0.0 <= m * d < m
  {
  }

  /** Adding a whole period to a non-negative argument does not change the remainder. */
  lemma FModPeriodic(x: real, m: real)
    requires m > 0.0 && x >= 0.0
    ensures FMod(x + m, m) == FMod(x, m)
  {
    var y := x / m;
    calc {
      (x + m) / m;
      x / m + m / m;
      y + 1.0;
    }
    assert Trunc(y + 1.0) == Trunc(y) + 1;
  }

  /** The C# integer remainder `a % b`: it takes the sign of `a`. */
  function IntRem(a: int, b: int): (r: int)
    requires b != 0
    ensures 0 <= a ==> 0 <= r < (if b > 0 then b else -b)
    ensures a < 0 ==> -(if b > 0 then b else -b) < r <= 0
    ensures 0 <= a && 0 < b ==> r == a % b
  {
    var m := if b > 0 then b else -b;
    if a >= 0 then a % m else -((-a) % m)
  }

  function Min(a: real, b: real): real { if a <= b then a else b }
  function Max(a: real, b: real): real { if a >= b then a else b }

  /** Sum of a sequence of reals, accumulated front to back. */
  function Sum(s: seq<real>): real
  {
    if |s| == 0 then 0.0 else Sum(s[..|s| - 1]) + s[|s| - 1]
  }

  /** `Σ s[i] * i`, the numerator of the spectral centroid. */
  function WeightedSum(s: seq<real>): real
  {
    if |s| == 0 then 0.0 else WeightedSum(s[..|s| - 1]) + s[|s| - 1] * (|s| - 1) as real
  }

  predicate AllNonNegative(s: seq<real>)
  {
    forall i :: 0 <= i < |s| ==> 0.0 <= s[i]
  }

  lemma {:induction false} SumNonNegative(s: seq<real>)
    requires AllNonNegative(s)
    ensures 0.0 <= Sum(s)
  {
    if |s| > 0 {
      SumNonNegative(s[..|s| - 1]);
    }
  }

  lemma {:induction false} WeightedSumBounds(s: seq<real>)
    requires AllNonNegative(s)
    ensures 0.0 <= WeightedSum(s) <= (|s| as real) * Sum(s)
  {
    if |s| > 0 {
      var n := |s| - 1;
      WeightedSumBounds(s[..n]);
      SumNonNegative(s[..n]);
      assert 0.0 <= s[n] * n as real <= s[n] * (n + 1) as real;
      assert (n as real) * Sum(s[..n]) <= (n + 1) as real * Sum(s[..n]);
    }
  }

  /** The largest element (LINQ `Max`), for a non-empty sequence. */
  function SeqMax(s: seq<real>): (m: real)
    requires |s| > 0
    ensures m in s
    ensures forall i :: 0 <= i < |s| ==> s[i] <= m
  {
    if |s| == 1 then s[0]
    else
      var rest := SeqMax(s[..|s| - 1]);
      assert forall i :: 0 <= i < |s| - 1 ==> s[..|s| - 1][i] == s[i];
      if s[|s| - 1] > rest then s[|s| - 1] else rest
  }
}
