/**
 * The fractal tree renderer (`DrawFractalTree`): a depth between 6 and 16
 * chosen from the levels and stored on the form, and the recursive
 * `DrawBranch`, which draws one segment and recurses into two children and,
 * on louder frames, a third.
 */
module FractalTree {
  import opened Numerics
  import opened RealArith
  import opened RenderCommon

  /** `(int)(7 + level * 6 + beatPulse * 4)`, clamped to [6, 16]. */
  function DynDepth(level: real, beatPulse: real): (d: int)
    ensures 6 <= d <= 16
    ensures 0.0 <= level && 0.0 <= beatPulse ==> 7 <= d
  {
    var d := Trunc(7.0 + level * 6.0 + beatPulse * 4.0);
    var d1 := if d < 6 then 6 else d;
    if d1 > 16 then 16 else d1
  }

  /** The sway amplitude: 0 when silent, `5 level + 12 beat + 8 level beat` otherwise. */
  function SwayAmplitude(level: real, beatPulse: real, isSilent: bool): (a: real)
    ensures isSilent ==> a == 0.0
    ensures !isSilent && 0.0 <= level <= 1.0 && 0.0 <= beatPulse <= 1.0 ==> 0.0 <= a <= 25.0
  {
    if isSilent then 0.0
    else
      var a := 5.0 * level + 12.0 * beatPulse + 8.0 * level * beatPulse;
      if 0.0 <= level <= 1.0 && 0.0 <= beatPulse <= 1.0 then
        NonNegProduct(level, beatPulse);
        NonNegProduct(1.0 - level, beatPulse);
        a
      else a
  }

  /**
   * The random draws of one `DrawBranch` call: `Next(-10, 10)` for the
   * length, `Next(-15, 15)` for the angle, `Next(0, 20)` for the hue,
   * `NextDouble()` for the extra-branch test and `Next(-45, 45)` for its
   * angle.
   */
  datatype BranchDraw = BranchDraw(lengthRoll: int, angleRoll: int, hueRoll: int, extraRoll: real, extraAngle: int)

  /**
   * What a frame's branches read besides their own arguments: the stored
   * depth, the analyser fields, the clip height, the trigonometric functions
   * (`cosDeg`, `sinDeg` take degrees) and the draws, keyed by the path of
   * child choices (0 left, 1 right, 2 extra) from the trunk.
   */
  datatype Env = Env(
    treeDepth: int,
    beatPulse: real,
    colorHueBase: real,
    treePhase: real,
    isSilent: bool,
    clipHeight: real,
    sin: real -> real,
    cosDeg: real -> real,
    sinDeg: real -> real,
    draws: seq<nat> -> BranchDraw)

  /** The stored depth is always one `DynDepth` chose. */
  predicate EnvOk(env: Env)
  {
    6 <= env.treeDepth <= 16
  }

  /** One drawn segment: its end points, its depth and intensity, its colour and stroke width. */
  datatype Branch = Branch(x: real, y: real, x2: real, y2: real, depth: int, intensity: real,
                           hue: real, sat: int, val: int, strokeWidth: real)

  /** The segment length `baseLen * (0.5 + 0.5 * depthRatio) * growthBurst + lengthRoll`. */
  function SegmentLength(depth: int, intensity: real, env: Env, d: BranchDraw): real
    requires EnvOk(env)
  {
    var depthRatio := depth as real / env.treeDepth as real;
    var baseLen := (0.02 + intensity * 0.08) * env.clipHeight;
    var growthBurst := 1.0 + env.beatPulse * 2.0 + intensity * 0.5;
    baseLen * (0.5 + 0.5 * depthRatio) * growthBurst + d.lengthRoll as real
  }

  /** The turn between parent and children: `20 + 40 intensity + angleRoll + 12 intensity sin(0.1 phase + id)`. */
  function BranchAngle(intensity: real, branchId: int, env: Env, d: BranchDraw): real
  {
    20.0 + intensity * 40.0 + d.angleRoll as real + env.sin(env.treePhase * 0.1 + branchId as real) * intensity * 12.0
  }

  /** One `DrawBranch` call: where it starts, its heading and depth, its intensity and id, and its path from the trunk. */
  datatype Call = Call(x: real, y: real, angle: real, depth: int, intensity: real, branchId: int, path: seq<nat>)

  /** Where a call's segment ends: `length` along its heading (`cosDeg`, `sinDeg`). */
  function Tip(c: Call, env: Env): (real, real)
    requires EnvOk(env)
  {
    var length := SegmentLength(c.depth, c.intensity, env, env.draws(c.path));
    (c.x + env.cosDeg(c.angle) * length, c.y + env.sinDeg(c.angle) * length)
  }

  /** The segment a call at depth 1 or more draws before recursing. */
  function Segment(c: Call, env: Env): (b: Branch)
    requires EnvOk(env)
    ensures 0 <= b.sat <= 100 && 0 <= b.val <= 100
    ensures b.strokeWidth >= 1.0
    ensures b.depth == c.depth && b.intensity == c.intensity && b.x == c.x && b.y == c.y
  {
    var d := env.draws(c.path);
    var tip := Tip(c, env);
    var hue := FMod(env.colorHueBase + (c.branchId * 12) as real + d.hueRoll as real + c.intensity * 60.0, 360.0);
    var sat := Percent(70 + Trunc(c.intensity * 30.0) + Trunc(env.beatPulse * 30.0));
    var val := Percent(75 + Trunc(c.intensity * 25.0) + Trunc(env.beatPulse * 40.0));
    var stroke := Max(1.0, c.depth as real * 1.2 * (0.7 + c.intensity * 0.4 + env.beatPulse * 0.6));
    Branch(c.x, c.y, tip.0, tip.1, c.depth, c.intensity, hue, sat, val, stroke)
  }

  /** `0.08 + 0.30 intensity + 0.40 min(1, beatPulse)`. */
  function ExtraProbability(intensity: real, beatPulse: real): real
  {
    0.08 + 0.30 * intensity + 0.40 * Min(1.0, beatPulse)
  }

  /** Whether a call adds the third branch: only deeper than 2, only with sound, and only on a low enough roll. */
  function TakesExtra(c: Call, env: Env): bool
  {
    c.depth > 2 && !env.isSilent && env.draws(c.path).extraRoll < ExtraProbability(c.intensity, env.beatPulse)
  }

  /**
   * Child `k` of a call, starting at the end of its segment: 0 turns left
   * and 1 right by `BranchAngle`, both one level shallower with intensity
   * x 0.98 and id + 1; 2, the extra branch, turns by its own roll, two
   * levels shallower with intensity x 0.95 and id + 2.
   */
  function Child(c: Call, env: Env, k: nat): (r: Call)
    requires EnvOk(env) && k < 3
    ensures r.depth == if k == 2 then c.depth - 2 else c.depth - 1
    ensures r.path == c.path + [k]
    ensures 0.0 <= c.intensity ==> 0.0 <= r.intensity <= c.intensity
  {
    var d := env.draws(c.path);
    var tip := Tip(c, env);
    var turn := BranchAngle(c.intensity, c.branchId, env, d);
    if k == 0 then Call(tip.0, tip.1, c.angle - turn, c.depth - 1, c.intensity * 0.98, c.branchId + 1, c.path + [0])
    else if k == 1 then Call(tip.0, tip.1, c.angle + turn, c.depth - 1, c.intensity * 0.98, c.branchId + 1, c.path + [1])
    else Call(tip.0, tip.1, c.angle + d.extraAngle as real, c.depth - 2, c.intensity * 0.95, c.branchId + 2, c.path + [2])
  }

  /**
   * The segments a call draws, in drawing order: its own, then the left
   * subtree, the right subtree, and the extra subtree when taken. A call at
   * depth 0 or below draws nothing.
   */
  function DrawBranch(c: Call, env: Env): seq<Branch>
    requires EnvOk(env)
    decreases c.depth
  {
    if c.depth <= 0 then []
    else
      [Segment(c, env)] + DrawBranch(Child(c, env, 0), env) + DrawBranch(Child(c, env, 1), env)
      + (if TakesExtra(c, env) then DrawBranch(Child(c, env, 2), env) else [])
  }

  /** A call at depth 1 or more draws its own segment and then its subtrees'. */
  lemma SegmentCount(c: Call, env: Env)
    requires EnvOk(env) && c.depth > 0
    ensures |DrawBranch(c, env)| == 1 + |DrawBranch(Child(c, env, 0), env)| + |DrawBranch(Child(c, env, 1), env)|
      + if TakesExtra(c, env) then |DrawBranch(Child(c, env, 2), env)| else 0
  {
  }

  /** `2^n`. */
  function Pow2(n: nat): (p: nat)
    ensures p >= 1
  {
    if n == 0 then 1 else 2 * Pow2(n - 1)
  }

  /**
   * Every drawn segment has saturation and value in [0, 100], a stroke
   * width of at least 1, a depth between 1 and the call's depth, and an
   * intensity between 0 and the call's: it never grows down the recursion.
   */
  lemma {:induction false} BranchesInRange(c: Call, env: Env)
    requires EnvOk(env) && 0.0 <= c.intensity
    ensures forall b :: b in DrawBranch(c, env) ==>
      0 <= b.sat <= 100 && 0 <= b.val <= 100 && b.strokeWidth >= 1.0
      && 1 <= b.depth <= c.depth && 0.0 <= b.intensity <= c.intensity
    decreases c.depth
  {
    if c.depth > 0 {
      BranchesInRange(Child(c, env, 0), env);
      BranchesInRange(Child(c, env, 1), env);
      if TakesExtra(c, env) {
        BranchesInRange(Child(c, env, 2), env);
      }
    }
  }

  /**
   * Without the extra branch (silence, or depth at most 2) the tree is
   * complete and binary: exactly `2^depth - 1` segments.
   */
  lemma {:induction false} BinaryWhenNoExtra(c: Call, env: Env)
    requires EnvOk(env) && 0 <= c.depth && (env.isSilent || c.depth <= 2)
    ensures |DrawBranch(c, env)| == Pow2(c.depth) - 1
    decreases c.depth
  {
    if c.depth > 0 {
      SegmentCount(c, env);
      BinaryWhenNoExtra(Child(c, env, 0), env);
      BinaryWhenNoExtra(Child(c, env, 1), env);
    }
  }

  /**
   * Every tree holds at least the complete binary tree's `2^depth - 1`
   * segments, and more when its first call takes the extra branch.
   */
  lemma {:induction false} AtLeastBinary(c: Call, env: Env)
    requires EnvOk(env) && 0 <= c.depth
    ensures |DrawBranch(c, env)| >= Pow2(c.depth) - 1
    ensures TakesExtra(c, env) ==> |DrawBranch(c, env)| > Pow2(c.depth) - 1
    decreases c.depth
  {
    if c.depth > 0 {
      SegmentCount(c, env);
      AtLeastBinary(Child(c, env, 0), env);
      AtLeastBinary(Child(c, env, 1), env);
      if TakesExtra(c, env) {
        AtLeastBinary(Child(c, env, 2), env);
        assert Pow2(c.depth - 2) >= 2;
      }
    }
  }

  /** The trunk call of a frame: from a third of the height above the bottom centre, up (-90 degrees) plus the sway. */
  function Trunk(height: int, depth: int, l: Levels, sin: real -> real): (c: Call)
    ensures c.depth == depth && c.intensity == l.reactiveLevel && c.path == [] && c.branchId == 0
    ensures c.x == 0.0 && c.y <= 0.0 <==> 0 <= height
    ensures -1.0 <= sin(l.treePhase * 0.05) <= 1.0 && 0.0 <= l.reactiveLevel <= 1.0 && 0.0 <= l.beatPulse <= 1.0 ==>
      -115.0 <= c.angle <= -65.0
  {
    var amplitude := SwayAmplitude(l.reactiveLevel, l.beatPulse, l.isSilent);
    var s := sin(l.treePhase * 0.05);
    var sway := s * amplitude;
    if -1.0 <= s <= 1.0 && 0.0 <= amplitude then SignedScale(s, amplitude); Call(0.0, -(height as real) / 3.0, -90.0 + sway, depth, l.reactiveLevel, 0, [])
    else Call(0.0, -(height as real) / 3.0, -90.0 + sway, depth, l.reactiveLevel, 0, [])
  }

  /** The form's stored tree depth. */
  class Tree {
    var currentTreeDepth: int

    constructor ()
      ensures currentTreeDepth == 10
    {
      currentTreeDepth := 10;
    }

    /**
     * One `DrawFractalTree` frame: choose and store the depth, then draw
     * the trunk from a third of the height above the bottom centre (the
     * translation to the bottom centre is left to the canvas), pointing up
     * (-90 degrees) and swayed by `sin(0.05 treePhase) * amplitude`.
     */
    method DrawFractalTree(height: int, l: Levels, sin: real -> real, cosDeg: real -> real, sinDeg: real -> real,
                           draws: seq<nat> -> BranchDraw) returns (branches: seq<Branch>)
      modifies this
      ensures currentTreeDepth == DynDepth(l.reactiveLevel, l.beatPulse)
      ensures branches == DrawBranch(Trunk(height, currentTreeDepth, l, sin),
                                     Env(currentTreeDepth, l.beatPulse, l.colorHueBase, l.treePhase, l.isSilent,
                                         height as real, sin, cosDeg, sinDeg, draws))
    {
      var dynDepth := DynDepth(l.reactiveLevel, l.beatPulse);
      currentTreeDepth := dynDepth;
      var env := Env(dynDepth, l.beatPulse, l.colorHueBase, l.treePhase, l.isSilent, height as real,
                     sin, cosDeg, sinDeg, draws);
      branches := DrawBranch(Trunk(height, dynDepth, l, sin), env);
    }
  }
}
