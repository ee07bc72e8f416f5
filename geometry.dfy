/** The `Vector2`/`Vector3`/`SKPoint` arithmetic the renderers use, over reals. */
module Geometry {

  datatype Vec2 = Vec2(x: real, y: real)
  {
    function Plus(o: Vec2): Vec2 { Vec2(x + o.x, y + o.y) }
    function Minus(o: Vec2): Vec2 { Vec2(x - o.x, y - o.y) }
    function Times(k: real): Vec2 { Vec2(x * k, y * k) }
    function Dot(o: Vec2): real { x * o.x + y * o.y }
  }

  datatype Vec3 = Vec3(x: real, y: real, z: real)
  {
    function Plus(o: Vec3): Vec3 { Vec3(x + o.x, y + o.y, z + o.z) }
    function Times(k: real): Vec3 { Vec3(x * k, y * k, z * k) }
  }

  /**
   * `Vector2.Length`/`SKPoint.Length` is a square root, which is not part of
   * this model; the renderers take the length function as a parameter and
   * require it to be the Euclidean one.
   */
  ghost predicate IsLength(length: Vec2 -> real)
  {
    forall v: Vec2 :: 0.0 <= length(v) && length(v) * length(v) == v.Dot(v)
  }

  /** Scaling by a non-negative factor scales the length by that factor. */
  lemma LengthOfScaled(length: Vec2 -> real, v: Vec2, k: real)
    requires IsLength(length) && 0.0 <= k
    ensures length(v.Times(k)) == k * length(v)
  {
    var a := length(v.Times(k));
    var b := k * length(v);
    assert a * a == k * k * v.Dot(v);
    assert b * b == k * k * (length(v) * length(v));
    SquareRootUnique(a, b);
  }

  lemma SquareRootUnique(a: real, b: real)
    requires 0.0 <= a && 0.0 <= b && a * a == b * b
    ensures a == b
  {
    assert (a - b) * (a + b) == 0.0;
    if a + b == 0.0 {
      assert a == 0.0 && b == 0.0;
    } else {
      ProductZero(a - b, a + b);
    }
  }

  lemma ProductZero(p: real, q: real)
    requires p * q == 0.0 && q != 0.0
    ensures p == 0.0
  {
    assert p == (p * q) / q;
  }
}
