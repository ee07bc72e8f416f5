/**
 * The visualizer form's pure helpers: `ClampF`, the palette lookup with
 * linear blending (`GetPaletteColor`, `GetPaletteColorCyclic`) and the
 * perspective projection with its near-plane clamp (`ProjectSafe`).
 */
module FormHelpers {
  import opened Numerics
  import opened Colors
  import opened Geometry
  import opened RealArith

  /** `ClampF(value, min, max)`: `min` below the range, `max` above it, `value` inside. */
  function ClampF(value: real, min: real, max: real): (r: real)
    ensures min <= max ==> min <= r <= max
    ensures min <= value <= max ==> r == value
    ensures value < min ==> r == min
  {
    if value < min then min
    else if value > max then max
    else value
  }

  /** `x` lies between `a` and `b`, whichever is larger. */
  predicate Between(x: int, a: int, b: int)
  {
    (a <= b ==> a <= x <= b) && (b <= a ==> b <= x <= a)
  }

  /** One channel of `color1 * (1 - blend) + color2 * blend`, cast to `byte`. */
  function BlendChannel(a: Byte, b: Byte, blend: real): (r: Byte)
    requires 0.0 <= blend <= 1.0
    ensures Between(r, a, b)
    ensures blend == 0.0 ==> r == a
  {
    Trunc(Lerp(a as real, b as real, blend))
  }

  /**
   * The two palette positions a clamped `t` falls between and the blend
   * weight: `index1 = floor(t * (count - 1))`, `index2 = min(index1 + 1, count - 1)`.
   */
  function BlendIndices(count: int, t: real): (r: (int, int, real))
    requires count >= 2
    ensures 0 <= r.0 <= r.1 <= count - 1 && r.1 <= r.0 + 1
    ensures 0.0 <= r.2 < 1.0
    ensures t <= 0.0 ==> r == (0, 1, 0.0)
    ensures t >= 1.0 ==> r.0 == r.1 == count - 1
    ensures r.0 == r.1 ==> t >= 1.0
  {
    var clamped := Max(0.0, Min(1.0, t));
    var exactIndex := ScaleUnit(clamped, (count - 1) as real);
    var index1 := FloorInt(exactIndex);
    var index2 := if index1 + 1 < count - 1 then index1 + 1 else count - 1;
    (index1, index2, exactIndex - index1 as real)
  }

  /**
   * `GetPaletteColor(t)`: white for an empty palette, the only colour of a
   * one-colour palette, otherwise the colour at the clamped position `t`,
   * blended channel by channel between its two neighbouring entries.
   */
  function GetPaletteColor(palette: seq<Color>, t: real): (c: Color)
    ensures |palette| == 0 ==> c == White
    ensures |palette| == 1 ==> c == palette[0]
    ensures |palette| >= 2 ==>
      var (index1, index2, _) := BlendIndices(|palette|, t);
      Between(c.red, palette[index1].red, palette[index2].red)
      && Between(c.green, palette[index1].green, palette[index2].green)
      && Between(c.blue, palette[index1].blue, palette[index2].blue)
  {
    if |palette| == 0 then White
    else if |palette| == 1 then palette[0]
    else
      var (index1, index2, blend) := BlendIndices(|palette|, t);
      if index1 == index2 then palette[index1]
      else
        var color1 := palette[index1];
        var color2 := palette[index2];
        Rgb(BlendChannel(color1.red, color2.red, blend),
            BlendChannel(color1.green, color2.green, blend),
            BlendChannel(color1.blue, color2.blue, blend))
  }

  /**
   * The ends of the range: `t <= 0` gives the first colour (made opaque, as
   * the blend builds a new colour) and `t >= 1` gives the last one unchanged.
   */
  lemma PaletteEnds(palette: seq<Color>, t: real)
    requires |palette| >= 2
    ensures t <= 0.0 ==> GetPaletteColor(palette, t) == Opaque(palette[0])
    ensures t >= 1.0 ==> GetPaletteColor(palette, t) == palette[|palette| - 1]
  {
    if t <= 0.0 {
      var c1 := palette[0];
      var c2 := palette[1];
      assert GetPaletteColor(palette, t)
        == Rgb(BlendChannel(c1.red, c2.red, 0.0), BlendChannel(c1.green, c2.green, 0.0), BlendChannel(c1.blue, c2.blue, 0.0));
    }
  }

  /** `GetPaletteColorCyclic(hue)`: the palette read at `(hue % 360) / 360`. */
  function GetPaletteColorCyclic(palette: seq<Color>, hue: real): Color
  {
    GetPaletteColor(palette, FMod(hue, 360.0) / 360.0)
  }

  /** The cyclic lookup repeats every 360 degrees of non-negative hue. */
  lemma CyclicPeriod(palette: seq<Color>, hue: real)
    requires hue >= 0.0
    ensures GetPaletteColorCyclic(palette, hue + 360.0) == GetPaletteColorCyclic(palette, hue)
  {
    FModPeriodic(hue, 360.0);
  }

  /** A negative hue has a non-positive remainder, so it reads the start of the palette. */
  lemma NegativeHueReadsStart(palette: seq<Color>, hue: real)
    requires |palette| >= 2 && hue < 0.0
    ensures GetPaletteColorCyclic(palette, hue) == Opaque(palette[0])
  {
    var t := FMod(hue, 360.0) / 360.0;
    assert t <= 0.0;
    PaletteEnds(palette, t);
  }

  /** A hue in [0, 360) reads the palette at `hue / 360`. */
  lemma CyclicInRange(palette: seq<Color>, hue: real)
    requires 0.0 <= hue < 360.0
    ensures GetPaletteColorCyclic(palette, hue) == GetPaletteColor(palette, hue / 360.0)
  {
  }

  /** The depth `ProjectSafe` divides by: `z` clamped to at least -90, plus 100. */
  function ProjectionDepth(z: real): (d: real)
    ensures d >= 10.0
    ensures z >= -90.0 ==> d == z + 100.0
  {
    (if z < -90.0 then -90.0 else z) + 100.0
  }

  /** `ProjectSafe`: perspective projection about the screen centre with the near plane at z = -90. */
  function ProjectSafe(point: Vec3, scale: real, width: int, height: int): Vec2
  {
    var factor := scale / ProjectionDepth(point.z);
    Vec2(point.x * factor + width as real / 2.0, -point.y * factor + height as real / 2.0)
  }

  /**
   * The clamp bounds the projection: a point lands no farther from the
   * screen centre than its offset times `scale / 10`, however close to the
   * viewer it is.
   */
  lemma ProjectionBounded(point: Vec3, scale: real, width: int, height: int)
    requires scale >= 0.0
    ensures var p := ProjectSafe(point, scale, width, height);
      var dx := p.x - width as real / 2.0;
      var dy := p.y - height as real / 2.0;
      dx * dx <= point.x * point.x * (scale / 10.0) * (scale / 10.0)
      && dy * dy <= point.y * point.y * (scale / 10.0) * (scale / 10.0)
  {
    var d := ProjectionDepth(point.z);
    var factor := scale / d;
    FactorBound(scale, d);
    SquareScale(point.x, factor, scale / 10.0);
    SquareScale(-point.y, factor, scale / 10.0);
  }

  lemma FactorBound(scale: real, d: real)
    requires scale >= 0.0 && d >= 10.0
    ensures 0.0 <= scale / d <= scale / 10.0
  {
    var c := scale / 10.0;
    assert c * d - scale == c * (d - 10.0);
    assert c * (d - 10.0) >= 0.0;
    QuotientAtMost(scale, d, c);
  }

  lemma SquareScale(x: real, f: real, g: real)
    requires 0.0 <= f <= g
    ensures (x * f) * (x * f) <= x * x * g * g
  {
    assert f * f <= g * g;
    assert (x * f) * (x * f) == x * x * (f * f);
    assert x * x * (f * f) <= x * x * (g * g);
  }

  /** Every point behind the near plane projects like the point on it. */
  lemma NearPlaneClamp(point: Vec3, scale: real, width: int, height: int)
    requires point.z < -90.0
    ensures ProjectSafe(point, scale, width, height) == ProjectSafe(point.(z := -90.0), scale, width, height)
  {
  }

  /** Points on the view axis land on the screen centre. */
  lemma AxisToCentre(z: real, scale: real, width: int, height: int)
    ensures ProjectSafe(Vec3(0.0, 0.0, z), scale, width, height) == Vec2(width as real / 2.0, height as real / 2.0)
  {
  }
}
