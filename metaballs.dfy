/**
 * The glow renderer (`DrawMetaballs`): a pool of drifting balls whose size
 * follows a capped glow factor, wrapped 60 pixels beyond the edges and drawn
 * with capped alpha and radius.
 */
module Metaballs {
  import opened Numerics
  import opened Geometry
  import opened RenderCommon

  datatype Ball = Ball(position: Vec2, velocity: Vec2, radius: real, hue: real)

  /**
   * The draws of one new ball: `Next(0, width)`, `Next(0, height)`, two
   * `NextDouble()` velocity rolls, a `NextDouble()` radius roll and
   * `Next(0, 40)` for the hue offset.
   */
  datatype BallDraw = BallDraw(x: int, y: int, vx: real, vy: real, radiusRoll: real, hueRoll: int)

  /** A value `Random.Next(0, hi)` can return: 0 when `hi` is 0, otherwise in [0, hi). */
  predicate NextUpTo(v: int, hi: int)
  {
    if hi == 0 then v == 0 else 0 <= v < hi
  }

  predicate BallDrawOk(d: BallDraw, width: int, height: int)
  {
    NextUpTo(d.x, width) && NextUpTo(d.y, height) && Unit(d.vx) && Unit(d.vy) && Unit(d.radiusRoll)
    && 0 <= d.hueRoll < 40
  }

  /** What every ball in the pool satisfies: radius in [14, 32), each velocity component in [-0.9, 0.9). */
  predicate FreshBall(b: Ball)
  {
    14.0 <= b.radius < 32.0 && -0.9 <= b.velocity.x < 0.9 && -0.9 <= b.velocity.y < 0.9
  }

  /** `glow`: the weighted levels, capped at 1.5. */
  function Glow(l: Levels): (g: real)
    ensures g <= 1.5
    ensures LevelsInRange(l) ==> 0.0 <= g
  {
    var g := l.reactiveLevel * 0.5 + l.lowBandLevel * 0.7 + l.highBandLevel * 0.3 + Min(1.0, l.beatPulse) * 0.6;
    if g > 1.5 then 1.5 else g
  }

  /** `14 + (int)(glow * 30)`, clamped to [10, 60]: the pool size. */
  function Target(glow: real): (n: nat)
    ensures 10 <= n <= 60
    ensures 0.0 <= glow <= 1.5 ==> 14 <= n <= 59
  {
    var t := 14 + Trunc(glow * 30.0);
    var t1 := if t < 10 then 10 else t;
    if t1 > 60 then 60 else t1
  }

  /** A new ball at a random pixel with a random drift, radius and hue. */
  function NewBall(d: BallDraw, hueBase: real): (b: Ball)
    ensures Unit(d.vx) && Unit(d.vy) && Unit(d.radiusRoll) ==> FreshBall(b)
    ensures b.position == Vec2(d.x as real, d.y as real)
  {
    Ball(Vec2(d.x as real, d.y as real),
         Vec2(d.vx * 2.0 - 1.0, d.vy * 2.0 - 1.0).Times(0.9),
         14.0 + d.radiusRoll * 18.0,
         FMod(hueBase + d.hueRoll as real, 360.0))
  }

  /** The balls appended while the pool is short, in order. */
  function NewBalls(count: nat, draws: nat -> BallDraw, hueBase: real): (r: seq<Ball>)
    ensures |r| == count
    decreases count
  {
    if count == 0 then [] else NewBalls(count - 1, draws, hueBase) + [NewBall(draws(count - 1), hueBase)]
  }

  /** The pool adjusted to `target`: new balls at the end, or the oldest removed from the front. */
  function Adjusted(pool: seq<Ball>, target: nat, draws: nat -> BallDraw, hueBase: real): (r: seq<Ball>)
    ensures |r| == target
    ensures |pool| <= target ==> r[..|pool|] == pool
    ensures |pool| >= target ==> r == pool[|pool| - target..]
  {
    if |pool| < target then pool + NewBalls(target - |pool|, draws, hueBase)
    else pool[|pool| - target..]
  }

  /** The draws of new balls all lie in range, so the new balls are fresh. */
  lemma {:induction false} NewBallsFresh(count: nat, draws: nat -> BallDraw, hueBase: real, width: int, height: int)
    requires forall k: nat :: BallDrawOk(draws(k), width, height)
    ensures forall i :: 0 <= i < count ==> FreshBall(NewBalls(count, draws, hueBase)[i])
    decreases count
  {
    if count > 0 {
      NewBallsFresh(count - 1, draws, hueBase, width, height);
      assert BallDrawOk(draws(count - 1), width, height);
    }
  }

  /**
   * One ball's motion: drift by `velocity * speedBoost`, a small pull
   * toward the centre (`pull` is `Normalize(toCenter)`, a square root),
   * damping by 0.994 and the wrap 60 pixels beyond the edges.
   */
  function Move(b: Ball, speedBoost: real, width: int, height: int, normalize: Vec2 -> Vec2): (r: Ball)
    ensures 0 <= width ==> -60.0 <= r.position.x <= width as real + 60.0
    ensures 0 <= height ==> -60.0 <= r.position.y <= height as real + 60.0
    ensures r.radius == b.radius && r.hue == b.hue
  {
    var position := b.position.Plus(b.velocity.Times(speedBoost));
    var pull := normalize(Center(width, height).Minus(position));
    var velocity := b.velocity.Plus(pull.Times(0.0025)).Times(0.994);
    Ball(Vec2(WrapSoft(position.x, width as real, 60.0), WrapSoft(position.y, height as real, 60.0)),
         velocity, b.radius, b.hue)
  }

  /** `alphaBase = min(220, 70 + glow * 150)`. */
  function AlphaBase(glow: real): (a: real)
    ensures a <= 220.0
    ensures 0.0 <= glow ==> 70.0 <= a
  {
    var a := 70.0 + glow * 150.0;
    if a > 220.0 then 220.0 else a
  }

  /** `min(max(10, radius * (0.9 + glow * 1.2)), max(width, height) * 0.2)`. */
  function DrawRadius(radius: real, glow: real, width: int, height: int): (r: real)
    ensures r <= (if width >= height then width else height) as real * 0.2
    ensures (if width >= height then width else height) as real * 0.2 >= 10.0 ==> r >= 10.0
  {
    var cap := (if width >= height then width else height) as real * 0.2;
    Min(Max(10.0, radius * (0.9 + glow * 1.2)), cap)
  }

  /** The balls after one frame's motion, in pool order. */
  function MoveAll(pool: seq<Ball>, speedBoost: real, width: int, height: int, normalize: Vec2 -> Vec2): (r: seq<Ball>)
    ensures |r| == |pool|
  {
    seq(|pool|, i requires 0 <= i < |pool| => Move(pool[i], speedBoost, width, height, normalize))
  }

  /** The pool after one `DrawMetaballs` frame. */
  function MetaballsFrame(pool: seq<Ball>, l: Levels, width: int, height: int, normalize: Vec2 -> Vec2,
                          draws: nat -> BallDraw): seq<Ball>
  {
    var glow := Glow(l);
    MoveAll(Adjusted(pool, Target(glow), draws, l.colorHueBase), 0.6 + glow * 1.8, width, height, normalize)
  }

  /**
   * A frame leaves exactly `Target(glow)` balls, each fresh and within the
   * wrap margin, when the pool was fresh and the draws in range.
   */
  lemma FrameKeepsBalls(pool: seq<Ball>, l: Levels, width: nat, height: nat, normalize: Vec2 -> Vec2,
                        draws: nat -> BallDraw)
    requires forall i :: 0 <= i < |pool| ==> FreshBall(pool[i])
    requires forall k: nat :: BallDrawOk(draws(k), width, height)
    ensures var r := MetaballsFrame(pool, l, width, height, normalize, draws);
      |r| == Target(Glow(l))
      && forall i :: 0 <= i < |r| ==>
           14.0 <= r[i].radius < 32.0
           && -60.0 <= r[i].position.x <= width as real + 60.0 && -60.0 <= r[i].position.y <= height as real + 60.0
  {
    var glow := Glow(l);
    var target := Target(glow);
    var kept := Adjusted(pool, target, draws, l.colorHueBase);
    if |pool| < target {
      NewBallsFresh(target - |pool|, draws, l.colorHueBase, width, height);
      var added := NewBalls(target - |pool|, draws, l.colorHueBase);
      assert forall i :: |pool| <= i < target ==> kept[i] == added[i - |pool|];
    }
    assert forall i :: 0 <= i < |kept| ==> FreshBall(kept[i]);
  }

  /** The form's ball list. */
  class Metaballs {
    var metaballs: seq<Ball>

    constructor ()
      ensures metaballs == []
    {
      metaballs := [];
    }

    /**
     * One `DrawMetaballs` frame: add balls while fewer than the target,
     * remove the excess from the front, then move every ball.
     */
    method DrawMetaballs(width: int, height: int, l: Levels, normalize: Vec2 -> Vec2, draws: nat -> BallDraw)
      modifies this
      ensures metaballs == MetaballsFrame(old(metaballs), l, width, height, normalize, draws)
    {
      var glow := Glow(l);
      var target := Target(glow);
      var pool := AddWhileShort(metaballs, target, draws, l.colorHueBase);
      if |pool| > target {
        pool := pool[|pool| - target..];
      }
      pool := MoveBalls(pool, 0.6 + glow * 1.8, width, height, normalize);
      metaballs := pool;
    }
  }

  /** `while (metaballs.Count < target) metaballs.Add(...)`. */
  method AddWhileShort(pool: seq<Ball>, target: nat, draws: nat -> BallDraw, hueBase: real) returns (r: seq<Ball>)
    ensures |pool| < target ==> r == pool + NewBalls(target - |pool|, draws, hueBase)
    ensures |pool| >= target ==> r == pool
  {
    r := pool;
    while |r| < target
      invariant |pool| <= |r| && (|pool| < target ==> |r| <= target) && (|pool| >= target ==> r == pool)
      invariant r == pool + NewBalls(|r| - |pool|, draws, hueBase)
      decreases target - |r|
    {
      r := r + [NewBall(draws(|r| - |pool|), hueBase)];
    }
  }

  /** The motion loop: each ball replaced by its moved copy, in place. */
  method MoveBalls(pool: seq<Ball>, speedBoost: real, width: int, height: int, normalize: Vec2 -> Vec2)
    returns (r: seq<Ball>)
    ensures r == MoveAll(pool, speedBoost, width, height, normalize)
  {
    r := pool;
    var i := 0;
    while i < |r|
      invariant 0 <= i <= |r| == |pool|
      invariant forall j :: 0 <= j < i ==> r[j] == Move(pool[j], speedBoost, width, height, normalize)
      invariant forall j :: i <= j < |r| ==> r[j] == pool[j]
    {
      r := r[i := Move(r[i], speedBoost, width, height, normalize)];
      i := i + 1;
    }
  }
}
