/**
 * The starfield renderer (`DrawStarfield`): 800 stars flying toward the
 * viewer at a smoothed, loudness-driven speed, drifting sideways with the
 * stereo balance and reset to the far plane when they pass the near one.
 */
module Starfield {
  import opened Numerics
  import opened Geometry
  import opened FormHelpers
  import opened RenderCommon

  datatype Star = Star(pos: Vec3, speed: real, hue: real, phase: real)

  /** The number of stars the pool grows to. */
  const StarCount: nat := 800

  /** The six `NextDouble()` draws of a new star. */
  datatype StarDraw = StarDraw(x: real, y: real, z: real, speed: real, hue: real, phase: real)

  /** A new star: position in [-200, 200) x [-200, 200) x [0, 400), speed in [0.5, 2). */
  function NewStar(d: StarDraw): (s: Star)
    ensures Unit(d.x) && Unit(d.y) && Unit(d.z) ==>
      -200.0 <= s.pos.x < 200.0 && -200.0 <= s.pos.y < 200.0 && 0.0 <= s.pos.z < 400.0
    ensures Unit(d.speed) ==> 0.5 <= s.speed < 2.0
  {
    Star(Vec3((d.x * 2.0 - 1.0) * 200.0, (d.y * 2.0 - 1.0) * 200.0, d.z * 400.0),
         0.5 + d.speed * 1.5, d.hue * 360.0, d.phase * 6.28318)
  }

  /** The stars added while fewer than 800, in order; existing stars are kept. */
  function Grown(pool: seq<Star>, draws: nat -> StarDraw): (r: seq<Star>)
    ensures |r| == if |pool| < StarCount then StarCount else |pool|
    ensures r[..|pool|] == pool
    decreases StarCount - |pool|
  {
    if |pool| < StarCount then Grown(pool + [NewStar(draws(|pool|))], draws) else pool
  }

  /** `loud`: the weighted levels plus 0.3 on a beat above 0.6. */
  function Loudness(l: Levels): (loud: real)
    ensures LevelsInRange(l) ==> 0.0 <= loud <= 1.5
  {
    l.reactiveLevel * 0.6 + l.lowBandLevel * 0.6 + (if l.beatPulse > 0.6 then 0.3 else 0.0)
  }

  /** `starSpeedSmooth * 0.85 + (1 + loud * 8) * 0.15`. */
  function SmoothSpeed(smooth: real, l: Levels): real
  {
    smooth * 0.85 + (1.0 + Loudness(l) * 8.0) * 0.15
  }

  /**
   * The smoothed speed starts at 1 and stays in [1, 13]: the target speed
   * `1 + 8 loud` does, and the blend moves 15% of the way toward it.
   */
  lemma SmoothSpeedInRange(smooth: real, l: Levels)
    requires 1.0 <= smooth <= 13.0 && LevelsInRange(l)
    ensures 1.0 <= SmoothSpeed(smooth, l) <= 13.0
    ensures smooth <= 1.0 + Loudness(l) * 8.0 ==> smooth <= SmoothSpeed(smooth, l)
    ensures smooth >= 1.0 + Loudness(l) * 8.0 ==> SmoothSpeed(smooth, l) <= smooth
  {
  }

  /** `Σ (wave[2k] - wave[2k+1])` over the first `n` left/right pairs. */
  function PairSum(wave: seq<real>, n: nat): real
    requires 2 * n <= |wave|
  {
    if n == 0 then 0.0 else PairSum(wave, n - 1) + (wave[2 * n - 2] - wave[2 * n - 1])
  }

  /** The stereo balance: the mean left-minus-right difference, clamped to [-1, 1]; 0 without a full pair. */
  function Stereo(wave: seq<real>): (stereo: real)
    ensures -1.0 <= stereo <= 1.0
    ensures |wave| < 2 ==> stereo == 0.0
  {
    var count := |wave| / 2;
    if count > 0 then ClampF(PairSum(wave, count) / count as real, -1.0, 1.0) else 0.0
  }

  /** The balance loop over the queued samples, two at a time. */
  method ComputeStereo(wave: seq<real>) returns (stereo: real)
    ensures stereo == Stereo(wave)
  {
    var lr := 0.0;
    var count := 0;
    var i := 0;
    while i + 1 < |wave|
      invariant i == 2 * count && i <= |wave|
      invariant lr == PairSum(wave, count)
      decreases |wave| - i
    {
      lr := lr + (wave[i] - wave[i + 1]);
      count := count + 1;
      i := i + 2;
    }
    stereo := if count > 0 then ClampF(lr / count as real, -1.0, 1.0) else 0.0;
  }

  /** The two `NextDouble()` draws of a star reset. */
  datatype ResetDraw = ResetDraw(x: real, y: real)

  /**
   * One star's update: forward by `speed * smooth`, sideways by
   * `stereo * 0.8 * speed`, twinkle phase advanced; a star nearer than
   * z = 10 is reset to z = 400 at a random x, y.
   */
  function StepStar(s: Star, smooth: real, stereo: real, d: ResetDraw): (r: Star)
    ensures r.pos.z >= 10.0
    ensures s.pos.z - s.speed * smooth < 10.0 ==> r.pos.z == 400.0
    ensures s.pos.z - s.speed * smooth >= 10.0 ==>
      r.pos == Vec3(s.pos.x + stereo * 0.8 * s.speed, s.pos.y, s.pos.z - s.speed * smooth)
    ensures s.pos.z - s.speed * smooth < 10.0 && Unit(d.x) && Unit(d.y) ==>
      -200.0 <= r.pos.x < 200.0 && -200.0 <= r.pos.y < 200.0
    ensures r.speed == s.speed && r.hue == s.hue
  {
    var z := s.pos.z - s.speed * smooth;
    var x := s.pos.x + stereo * 0.8 * s.speed;
    var phase := s.phase + 0.08 + smooth * 0.05;
    if z < 10.0 then
      s.(pos := Vec3((d.x * 2.0 - 1.0) * 200.0, (d.y * 2.0 - 1.0) * 200.0, 400.0), phase := phase)
    else
      s.(pos := Vec3(x, s.pos.y, z), phase := phase)
  }

  /** Every star stepped, in pool order, with its own reset draws. */
  function StepAll(pool: seq<Star>, smooth: real, stereo: real, resets: nat -> ResetDraw): (r: seq<Star>)
    ensures |r| == |pool|
  {
    seq(|pool|, i requires 0 <= i < |pool| => StepStar(pool[i], smooth, stereo, resets(i)))
  }

  /** After a frame no star is nearer than z = 10, and the pool holds at least 800 stars. */
  lemma FrameStarsBeyondNearPlane(pool: seq<Star>, grow: nat -> StarDraw, smooth: real, stereo: real,
                                  resets: nat -> ResetDraw)
    ensures var r := StepAll(Grown(pool, grow), smooth, stereo, resets);
      |r| >= StarCount && forall i :: 0 <= i < |r| ==> r[i].pos.z >= 10.0
  {
    var g := Grown(pool, grow);
    var r := StepAll(g, smooth, stereo, resets);
    forall i | 0 <= i < |r|
      ensures r[i].pos.z >= 10.0
    {
      assert r[i] == StepStar(g[i], smooth, stereo, resets(i));
    }
  }

  /** `(byte)Math.Clamp(80 + smooth * 20 + sin(phase) * 60, 30, 255)`, with the sine as a parameter. */
  function StarAlpha(smooth: real, sinPhase: real): (a: int)
    ensures 30 <= a <= 255
  {
    Trunc(ClampF(80.0 + smooth * 20.0 + sinPhase * 60.0, 30.0, 255.0))
  }

  /** `Math.Max(1, 6 / Math.Max(10, z))`. */
  function StrokeWidth(z: real): real
  {
    Max(1.0, 6.0 / Max(10.0, z))
  }

  /**
   * The stroke width is always exactly 1: the depth is at least 10, so
   * `6 / depth` is at most 0.6 and the lower bound always wins.
   */
  lemma StrokeWidthIsOne(z: real)
    ensures StrokeWidth(z) == 1.0
  {
    var depth := Max(10.0, z);
    QuotientAtMostOne(depth);
  }

  lemma QuotientAtMostOne(depth: real)
    requires depth >= 10.0
    ensures 6.0 / depth <= 1.0
  {
    assert 6.0 <= 1.0 * depth;
  }

  /** The form's stars and smoothed speed. */
  class Stars {
    var stars: seq<Star>
    var starSpeedSmooth: real

    constructor ()
      ensures stars == [] && starSpeedSmooth == 1.0
    {
      stars := [];
      starSpeedSmooth := 1.0;
    }

    /**
     * One `DrawStarfield` frame: grow to 800 stars (never trimmed), smooth
     * the speed, measure the stereo balance of the queued samples and step
     * every star.
     */
    method DrawStarfield(l: Levels, wave: seq<real>, grow: nat -> StarDraw, resets: nat -> ResetDraw)
      modifies this
      ensures starSpeedSmooth == SmoothSpeed(old(starSpeedSmooth), l)
      ensures stars == StepAll(Grown(old(stars), grow), starSpeedSmooth, Stereo(wave), resets)
    {
      var pool := stars;
      while |pool| < StarCount
        invariant Grown(pool, grow) == Grown(old(stars), grow)
        decreases StarCount - |pool|
      {
        pool := pool + [NewStar(grow(|pool|))];
      }
      starSpeedSmooth := SmoothSpeed(starSpeedSmooth, l);
      var stereo := ComputeStereo(wave);
      var i := 0;
      var stepped := pool;
      while i < |stepped|
        invariant 0 <= i <= |stepped| == |pool|
        invariant forall j :: 0 <= j < i ==> stepped[j] == StepStar(pool[j], starSpeedSmooth, stereo, resets(j))
        invariant forall j :: i <= j < |stepped| ==> stepped[j] == pool[j]
      {
        stepped := stepped[i := StepStar(stepped[i], starSpeedSmooth, stereo, resets(i))];
        i := i + 1;
      }
      stars := stepped;
    }
  }
}
