/**
 * The circle-packing renderer (`DrawCirclePacking`): one circle per spectrum
 * band (at most 64), each growing with its band's energy, drifting to a
 * destination, ageing, popping or burning out and respawning at an edge,
 * then pushed apart from its overlapping neighbours.
 */
module CirclePacking {
  import opened Numerics
  import opened Geometry
  import opened Colors
  import opened FormHelpers
  import opened RenderCommon

  datatype Circle = Circle(
    center: Vec2,
    radius: real,
    target: real,
    color: Color,
    velocity: Vec2,
    alpha: real,
    life: real,
    maxLife: real,
    destination: Vec2,
    arrived: bool,
    aliveFrames: int,
    minAliveFrames: int,
    popBias: real)

  /**
   * The draws of one new or respawned circle: the edge `Next(0, 4)`,
   * `NextDouble()` rolls for the position, speed, radius, life, destination
   * and pop bias, `Next(0, 90)` for the minimum age, and `heading`, the
   * `(cos, sin)` of the random angle (trigonometry is not part of this model).
   */
  datatype CircleDraw = CircleDraw(edge: int, posX: real, posY: real, heading: Vec2, speedRoll: real,
                                   radiusRoll: real, lifeRoll: real, destX: real, destY: real,
                                   minAliveRoll: int, popBiasRoll: real)

  predicate CircleDrawOk(d: CircleDraw)
  {
    0 <= d.edge < 4 && Unit(d.posX) && Unit(d.posY) && Unit(d.speedRoll) && Unit(d.radiusRoll)
    && Unit(d.lifeRoll) && Unit(d.destX) && Unit(d.destY) && 0 <= d.minAliveRoll < 90 && Unit(d.popBiasRoll)
  }

  /** The draws of one frame: new circles, the two pop rolls and the respawn of each circle. */
  datatype PackingRandom = PackingRandom(grow: nat -> CircleDraw, popRoll: nat -> real, burnRoll: nat -> real,
                                         respawn: nat -> CircleDraw)

  /** `sens`: the weighted levels, capped at 1.5. */
  function Sensitivity(l: Levels): (s: real)
    ensures s <= 1.5
    ensures LevelsInRange(l) ==> 0.0 <= s
  {
    var s := l.reactiveLevel * 0.5 + l.lowBandLevel * 0.4 + l.highBandLevel * 0.6 + Min(1.0, l.beatPulse) * 0.6;
    if s > 1.5 then 1.5 else s
  }

  /** `min(64, spectrum.Length)`: the number of circles. */
  function Bands(len: nat): (n: nat)
    ensures n <= 64 && n <= len
    ensures n == 64 || n == len
  {
    if len < 64 then len else 64
  }

  /** `RandomVel(s)`: the heading scaled by a speed in [s, 2s). */
  function RandomVel(heading: Vec2, s: real, roll: real): Vec2
  {
    heading.Times(s + roll * s)
  }

  /** A circle added while the pool is short: radius 6, life 180, not arrived. */
  function NewCircle(width: int, height: int, color: Color, d: CircleDraw): (c: Circle)
    ensures c.radius == 6.0 && c.life == c.maxLife == 180.0 && !c.arrived && c.aliveFrames == 0
    ensures 0 <= d.minAliveRoll < 90 ==> 30 <= c.minAliveFrames < 120
    ensures Unit(d.popBiasRoll) ==> 0.2 <= c.popBias < 1.0
  {
    Circle(Vec2(width as real * d.posX, height as real * d.posY), 6.0, 10.0, color,
           RandomVel(d.heading, 0.5, d.speedRoll), 200.0, 180.0, 180.0,
           Vec2(d.destX * width as real, d.destY * height as real), false, 0,
           30 + d.minAliveRoll, d.popBiasRoll * 0.8 + 0.2)
  }

  /** The circles added while fewer than `bands`, each coloured by its position among the bands. */
  function Grown(pool: seq<Circle>, bands: nat, width: int, height: int, palette: seq<Color>,
                 draws: nat -> CircleDraw): (r: seq<Circle>)
    ensures |r| == if |pool| < bands then bands else |pool|
    ensures r[..|pool|] == pool
    decreases bands - |pool|
  {
    if |pool| < bands then
      var c := NewCircle(width, height, GetPaletteColor(palette, |pool| as real / bands as real), draws(|pool|));
      Grown(pool + [c], bands, width, height, palette, draws)
    else pool
  }

  /**
   * `ShouldPop`: the audio factor `(peak - energy) * 4 + sens * 0.6 + roll * 0.6`
   * exceeds the threshold `1.2 * (1 - popBias * 0.5)`.
   */
  function ShouldPop(peak: real, energy: real, sens: real, popBias: real, roll: real): bool
  {
    (peak - energy) * 4.0 + sens * 0.6 + roll * 0.6 > 1.2 * (1.0 - popBias * 0.5)
  }

  /**
   * With a pop bias in [0.2, 1) the threshold lies in (0.6, 1.08]: a circle
   * whose audio part alone exceeds 1.08 always pops, and one whose audio part
   * is at most 0 never does.
   */
  lemma PopThresholds(peak: real, energy: real, sens: real, popBias: real, roll: real)
    requires 0.2 <= popBias < 1.0 && Unit(roll)
    ensures (peak - energy) * 4.0 + sens * 0.6 > 1.08 ==> ShouldPop(peak, energy, sens, popBias, roll)
    ensures (peak - energy) * 4.0 + sens * 0.6 <= 0.0 ==> !ShouldPop(peak, energy, sens, popBias, roll)
  {
  }

  /**
   * `RespawnCircle`: a new position on a random edge (20 pixels outside),
   * velocity, radius, a life in [180, 420) that is also its maximum, alpha
   * 220, a new destination, not arrived, age 0, a minimum age in [30, 120)
   * and a pop bias in [0.2, 1). Colour and target are kept.
   */
  function Respawn(c: Circle, width: int, height: int, d: CircleDraw): (r: Circle)
    ensures !r.arrived && r.aliveFrames == 0 && r.alpha == 220.0 && r.life == r.maxLife
    ensures Unit(d.lifeRoll) ==> 180.0 <= r.life < 420.0
    ensures 0 <= d.minAliveRoll < 90 ==> 30 <= r.minAliveFrames < 120
    ensures Unit(d.popBiasRoll) ==> 0.2 <= r.popBias < 1.0
    ensures Unit(d.radiusRoll) ==> 8.0 <= r.radius < 22.0
    ensures r.color == c.color && r.target == c.target
  {
    var w := width as real;
    var h := height as real;
    var center :=
      if d.edge == 0 then Vec2(-20.0, d.posY * h)
      else if d.edge == 1 then Vec2(w + 20.0, d.posY * h)
      else if d.edge == 2 then Vec2(d.posX * w, -20.0)
      else if d.edge == 3 then Vec2(d.posX * w, h + 20.0)
      else c.center;
    var life := 180.0 + d.lifeRoll * 240.0;
    c.(center := center, velocity := RandomVel(d.heading, 1.0, d.speedRoll), radius := 8.0 + d.radiusRoll * 14.0,
       life := life, maxLife := life, alpha := 220.0, destination := Vec2(d.destX * w, d.destY * h),
       arrived := false, aliveFrames := 0, minAliveFrames := 30 + d.minAliveRoll,
       popBias := d.popBiasRoll * 0.8 + 0.2)
  }

  /** What one frame reads: the levels, the spectrum and peak copies, the screen and the palette. */
  datatype Frame = Frame(l: Levels, sens: real, spectrum: seq<real>, peaks: seq<real>, width: int, height: int,
                         palette: seq<Color>, length: Vec2 -> real)

  predicate FrameOk(f: Frame)
  {
    |f.spectrum| >= 1 && |f.peaks| == |f.spectrum|
  }

  /** The movement part of the update: steer to the destination until within 2 units, move, damp, wrap. */
  function Steer(c: Circle, f: Frame): (r: Circle)
    ensures c.arrived ==> r.arrived
    ensures f.length(c.destination.Minus(c.center)) <= 2.0 ==> r.arrived
    ensures !c.arrived && f.length(c.destination.Minus(c.center)) > 2.0 ==> !r.arrived
    ensures 0 <= f.width ==> -30.0 <= r.center.x <= f.width as real + 30.0
    ensures 0 <= f.height ==> -30.0 <= r.center.y <= f.height as real + 30.0
    ensures r.life == c.life && r.aliveFrames == c.aliveFrames && r.radius == c.radius && r.target == c.target
  {
    var toDest := c.destination.Minus(c.center);
    var dist := f.length(toDest);
    var c1 :=
      if dist > 2.0 then c.(velocity := c.velocity.Plus(toDest.Times(1.0 / Max(1.0, dist)).Times(0.05 + f.sens * 0.08)))
      else c.(arrived := true);
    var moved := c1.center.Plus(c1.velocity.Times(0.6 + f.sens * 1.1));
    c1.(center := Vec2(WrapSoft(moved.x, f.width as real, 30.0), WrapSoft(moved.y, f.height as real, 30.0)),
        velocity := c1.velocity.Times(0.985))
  }

  /** Whether circle `c`, after steering and ageing, is respawned: burnt out, or popped once old enough. */
  function Respawns(c: Circle, peak: real, energy: real, sens: real, roll: real): bool
  {
    (c.arrived && c.aliveFrames >= c.minAliveFrames && ShouldPop(peak, energy, sens, c.popBias, roll)) || c.life <= 0.0
  }

  /**
   * One circle's update: target radius from its band's energy (bumped when
   * an arrived circle pops and on beats), the 0.86/0.14 radius blend,
   * steering, ageing, the respawn test, the palette colour and the alpha.
   */
  function StepCircle(c: Circle, i: nat, count: nat, f: Frame, popRoll: real, burnRoll: real, respawn: CircleDraw): Circle
    requires FrameOk(f) && i < count
  {
    var idx := BandIndex(i, count, |f.spectrum|);
    var energy := f.spectrum[idx];
    var peak := f.peaks[idx];
    var bump := 1.0 + (if c.arrived && ShouldPop(peak, energy, f.sens, c.popBias, popRoll) then 1.2 else 0.0)
                + Min(1.0, f.l.beatPulse) * 0.4;
    var target := 10.0 + energy * 260.0 * bump;
    var sized := c.(target := target, radius := c.radius * 0.86 + target * 0.14);
    var steered := Steer(sized, f);
    var aged := steered.(aliveFrames := steered.aliveFrames + 1,
                         life := steered.life - (1.0 + energy * 6.0 + Min(1.0, f.l.beatPulse) * 4.0));
    var live := if Respawns(aged, peak, energy, f.sens, burnRoll) then Respawn(aged, f.width, f.height, respawn) else aged;
    var colorPos := FMod(i as real / count as real + f.l.colorHueBase / 360.0, 1.0);
    live.(color := GetPaletteColor(f.palette, colorPos), alpha := Max(40.0, 255.0 * (live.life / Max(1.0, live.maxLife))))
  }

  /** The target a step leaves on a circle, whether or not it respawns. */
  lemma StepCircleTarget(c: Circle, i: nat, count: nat, f: Frame, popRoll: real, burnRoll: real, respawn: CircleDraw)
    requires FrameOk(f) && i < count
    ensures var idx := BandIndex(i, count, |f.spectrum|);
      var energy := f.spectrum[idx];
      var bump := 1.0 + (if c.arrived && ShouldPop(f.peaks[idx], energy, f.sens, c.popBias, popRoll) then 1.2 else 0.0)
                  + Min(1.0, f.l.beatPulse) * 0.4;
      StepCircle(c, i, count, f, popRoll, burnRoll, respawn).target == 10.0 + energy * 260.0 * bump
  {
  }

  /**
   * The update's promises: alpha at least 40; the target is
   * `10 + energy * 260 * bump`, with the pop and beat bump; the radius moves
   * 14% of the way to that target unless the circle respawns; age 0 exactly when
   * it respawned; respawned iff burnt out or popped once arrived and old
   * enough; an arrived circle stays arrived until it respawns.
   */
  lemma StepCircleFacts(c: Circle, i: nat, count: nat, f: Frame, popRoll: real, burnRoll: real, respawn: CircleDraw)
    requires FrameOk(f) && i < count && 0 <= c.aliveFrames
    ensures var r := StepCircle(c, i, count, f, popRoll, burnRoll, respawn);
      var idx := BandIndex(i, count, |f.spectrum|);
      var energy := f.spectrum[idx];
      var peak := f.peaks[idx];
      var bump := 1.0 + (if c.arrived && ShouldPop(peak, energy, f.sens, c.popBias, popRoll) then 1.2 else 0.0)
                  + Min(1.0, f.l.beatPulse) * 0.4;
      var steered := Steer(c, f);
      var life := c.life - (1.0 + energy * 6.0 + Min(1.0, f.l.beatPulse) * 4.0);
      var respawned := life <= 0.0
        || (steered.arrived && c.aliveFrames + 1 >= c.minAliveFrames && ShouldPop(peak, energy, f.sens, c.popBias, burnRoll));
      40.0 <= r.alpha
      && r.target == 10.0 + energy * 260.0 * bump
      && (r.aliveFrames == 0 <==> respawned)
      && (!respawned ==> r.life == life && r.arrived == steered.arrived
                         && r.radius == c.radius * 0.86 + r.target * 0.14)
      && (c.arrived && !respawned ==> r.arrived)
  {
    var idx := BandIndex(i, count, |f.spectrum|);
    var energy := f.spectrum[idx];
    var peak := f.peaks[idx];
    var bump := 1.0 + (if c.arrived && ShouldPop(peak, energy, f.sens, c.popBias, popRoll) then 1.2 else 0.0)
                + Min(1.0, f.l.beatPulse) * 0.4;
    var target := 10.0 + energy * 260.0 * bump;
    var sized := c.(target := target, radius := c.radius * 0.86 + target * 0.14);
    assert Steer(sized, f).arrived == Steer(c, f).arrived;
    StepCircleTarget(c, i, count, f, popRoll, burnRoll, respawn);
  }

  /** Every circle stepped, in pool order, with its own draws. */
  function StepAll(pool: seq<Circle>, f: Frame, random: PackingRandom): (r: seq<Circle>)
    requires FrameOk(f)
    ensures |r| == |pool|
  {
    seq(|pool|, i requires 0 <= i < |pool| && FrameOk(f) =>
      StepCircle(pool[i], i, |pool|, f, random.popRoll(i), random.burnRoll(i), random.respawn(i)))
  }

  /**
   * One pair of the separation pass: circles closer than their radii plus 4
   * are pushed apart along the line between them, each by 40% of the overlap.
   */
  function PushApart(a: Circle, b: Circle, length: Vec2 -> real): (r: (Circle, Circle))
    ensures r.0 == a.(center := r.0.center) && r.1 == b.(center := r.1.center)
  {
    var d := b.center.Minus(a.center);
    var dist := length(d);
    var minDist := a.radius + b.radius + 4.0;
    if dist > 0.0 && dist < minDist then
      var dir := d.Times(1.0 / dist);
      var push := (minDist - dist) * 0.4;
      (a.(center := a.center.Minus(dir.Times(push))), b.(center := b.center.Plus(dir.Times(push))))
    else (a, b)
  }

  /** Only centres differ between the two pools. */
  predicate SameButCenters(p: seq<Circle>, q: seq<Circle>)
  {
    |p| == |q| && forall k :: 0 <= k < |p| ==> q[k] == p[k].(center := q[k].center)
  }

  /** The separation pass over every pair `i < j`, in order. */
  method Separate(pool: seq<Circle>, length: Vec2 -> real) returns (r: seq<Circle>)
    ensures SameButCenters(pool, r)
  {
    r := pool;
    var i := 0;
    while i < |r|
      invariant 0 <= i <= |r| && SameButCenters(pool, r)
    {
      var j := i + 1;
      while j < |r|
        invariant i < j <= |r|
        invariant SameButCenters(pool, r)
      {
        var pair := PushApart(r[i], r[j], length);
        r := r[i := pair.0][j := pair.1];
        j := j + 1;
      }
      i := i + 1;
    }
  }

  /** `while (circles.Count < bands) circles.Add(...)`. */
  method GrowPool(pool: seq<Circle>, bands: nat, width: int, height: int, palette: seq<Color>, draws: nat -> CircleDraw)
    returns (r: seq<Circle>)
    ensures r == Grown(pool, bands, width, height, palette, draws)
  {
    r := pool;
    while |r| < bands
      invariant Grown(r, bands, width, height, palette, draws) == Grown(pool, bands, width, height, palette, draws)
      decreases bands - |r|
    {
      var c := NewCircle(width, height, GetPaletteColor(palette, |r| as real / bands as real), draws(|r|));
      r := r + [c];
    }
  }

  /** The update loop: each circle replaced by its stepped copy, in place. */
  method UpdateCircles(pool: seq<Circle>, f: Frame, random: PackingRandom) returns (r: seq<Circle>)
    requires FrameOk(f)
    ensures r == StepAll(pool, f, random)
  {
    r := pool;
    var i := 0;
    while i < |r|
      invariant 0 <= i <= |r| == |pool|
      invariant forall j :: 0 <= j < i ==>
        r[j] == StepCircle(pool[j], j, |pool|, f, random.popRoll(j), random.burnRoll(j), random.respawn(j))
      invariant forall j :: i <= j < |r| ==> r[j] == pool[j]
    {
      r := r[i := StepCircle(r[i], i, |r|, f, random.popRoll(i), random.burnRoll(i), random.respawn(i))];
      i := i + 1;
    }
  }

  /** The form's circle list. */
  class Packing {
    var circles: seq<Circle>

    constructor ()
      ensures circles == []
    {
      circles := [];
    }

    /**
     * One `DrawCirclePacking` frame: grow the pool to `min(64, len)` (it
     * never shrinks), update every circle, then separate overlapping pairs,
     * which moves centres only.
     */
    method DrawCirclePacking(l: Levels, spectrum: seq<real>, peaks: seq<real>, width: int, height: int,
                             palette: seq<Color>, length: Vec2 -> real, random: PackingRandom)
      requires |spectrum| >= 1 && |peaks| == |spectrum|
      modifies this
      ensures |circles| == if |old(circles)| < Bands(|spectrum|) then Bands(|spectrum|) else |old(circles)|
      ensures var f := Frame(l, Sensitivity(l), spectrum, peaks, width, height, palette, length);
        SameButCenters(StepAll(Grown(old(circles), Bands(|spectrum|), width, height, palette, random.grow), f, random),
                       circles)
    {
      var f := Frame(l, Sensitivity(l), spectrum, peaks, width, height, palette, length);
      var pool := GrowPool(circles, Bands(|spectrum|), width, height, palette, random.grow);
      pool := UpdateCircles(pool, f, random);
      pool := Separate(pool, length);
      circles := pool;
    }
  }
}
