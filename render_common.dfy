/**
 * What the renderers share: the analyser fields they read each frame, the
 * `Random.NextDouble` draw range, the band index
 * `(int)(i / (float)count * (len - 1))` and the soft wrap at the screen edges.
 */
module RenderCommon {
  import opened Numerics
  import opened Geometry
  import opened RealArith

  /** The analyser fields a renderer reads; the audio callback writes them. */
  datatype Levels = Levels(
    reactiveLevel: real,
    lowBandLevel: real,
    highBandLevel: real,
    beatPulse: real,
    colorHueBase: real,
    treePhase: real,
    isSilent: bool)

  /** The ranges the audio callback keeps these fields in. */
  predicate LevelsInRange(l: Levels)
  {
    0.0 <= l.reactiveLevel <= 1.0 && 0.0 <= l.lowBandLevel <= 1.0 && 0.0 <= l.highBandLevel <= 1.0
    && 0.0 <= l.beatPulse <= 1.0 && 0.0 <= l.colorHueBase < 360.0 && 0.0 <= l.treePhase
  }

  /** A value `Random.NextDouble()` can return. */
  predicate Unit(u: real)
  {
    0.0 <= u < 1.0
  }

  /** The screen centre `(width / 2f, height / 2f)`. */
  function Center(width: int, height: int): Vec2
  {
    Vec2(width as real / 2.0, height as real / 2.0)
  }

  /**
   * The spectrum bin item `i` of `count` reads:
   * `(int)(i / (float)count * (len - 1))`, always a valid index.
   */
  function BandIndex(i: nat, count: nat, len: nat): (idx: int)
    requires i < count && len >= 1
    ensures 0 <= idx <= len - 1
    ensures i == 0 ==> idx == 0
  {
    var f := i as real / count as real;
    QuotientAtMost(i as real, count as real, 1.0);
    if len == 1 then
      assert f * 0.0 == 0.0;
      Trunc(f * (len - 1) as real)
    else
      Trunc(ScaleUnit(f, (len - 1) as real))
  }

  /**
   * The soft wrap of one coordinate: below `-margin` it jumps to
   * `extent + margin`, and (checked second) above `extent + margin` it
   * jumps to `-margin`.
   */
  function WrapSoft(x: real, extent: real, margin: real): (r: real)
    ensures -margin <= extent + margin ==> -margin <= r <= extent + margin
    ensures -margin <= x <= extent + margin ==> r == x
    ensures x < -margin && -margin <= extent + margin ==> r == extent + margin
    ensures x > extent + margin && -margin <= extent + margin ==> r == -margin
  {
    var a := if x < -margin then extent + margin else x;
    if a > extent + margin then -margin else a
  }
}
