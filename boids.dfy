/**
 * The confetti renderer (`DrawBoids`): a pool of particles kept at a
 * baseline size that follows the music, topped up by bursts on beats,
 * trimmed oldest first, and moved, aged, respawned and wrapped each frame.
 */
module Boids {
  import opened Numerics
  import opened Geometry
  import opened RenderCommon

  datatype Particle = Particle(position: Vec2, velocity: Vec2, size: real, hue: real, life: real, maxLife: real)

  /**
   * The draws of one spawned particle. `heading` is `(cos angle, sin angle)`
   * for the random angle (trigonometry is not part of this model); the other
   * rolls are `NextDouble()` values and `hueRoll` is `Next(0, 360)`.
   */
  datatype SpawnDraw = SpawnDraw(heading: Vec2, speedRoll: real, offsetX: real, offsetY: real,
                                 sizeRoll: real, hueRoll: int, lifeRoll: real)

  predicate DrawOk(d: SpawnDraw)
  {
    Unit(d.speedRoll) && Unit(d.offsetX) && Unit(d.offsetY) && Unit(d.sizeRoll)
    && 0 <= d.hueRoll < 360 && Unit(d.lifeRoll)
  }

  /**
   * The random draws of one frame: the beat burst's particles, the top-up
   * particles, each particle's jitter pair and each particle's respawn.
   */
  datatype BoidsRandom = BoidsRandom(burst: nat -> SpawnDraw, fill: nat -> SpawnDraw,
                                     jitter: nat -> Vec2, respawn: nat -> SpawnDraw)

  ghost predicate RandomOk(r: BoidsRandom)
  {
    (forall k: nat :: DrawOk(r.burst(k))) && (forall k: nat :: DrawOk(r.fill(k)))
    && (forall k: nat :: DrawOk(r.respawn(k)))
    && (forall k: nat :: Unit(r.jitter(k).x) && Unit(r.jitter(k).y))
  }

  /** What every live particle satisfies: some life left, at most 300 frames, size as spawned. */
  predicate Healthy(p: Particle)
  {
    0.0 < p.life < 300.0 && p.maxLife == 180.0 && 0.8 <= p.size < 2.4
  }

  /** Healthy, with the hue in [0, 360). */
  predicate Settled(p: Particle)
  {
    Healthy(p) && 0.0 <= p.hue < 360.0
  }

  predicate AllSettled(pool: seq<Particle>)
  {
    forall i :: 0 <= i < |pool| ==> Settled(pool[i])
  }

  /** `sens`: the weighted levels, capped at 1.5. */
  function Sensitivity(l: Levels): (s: real)
    ensures s <= 1.5
    ensures LevelsInRange(l) ==> 0.0 <= s
  {
    var s := l.reactiveLevel * 0.4 + l.lowBandLevel * 0.7 + l.highBandLevel * 0.3 + Min(1.0, l.beatPulse) * 0.6;
    if s > 1.5 then 1.5 else s
  }

  /** `120 + (int)(sens * 300)`, capped at 900: the pool size the frame ends with. */
  function Baseline(sens: real): (b: int)
    ensures b <= 900
    ensures 0.0 <= sens ==> 120 <= b
    ensures 0.0 <= sens <= 1.5 ==> b <= 570
  {
    var b := 120 + Trunc(sens * 300.0);
    if b > 900 then 900 else b
  }

  /** `30 + (int)(sens * 60)`: the size of a beat burst. */
  function BurstSize(sens: real): (n: nat)
    requires 0.0 <= sens
    ensures 30 <= n
    ensures sens <= 1.5 ==> n <= 120
  {
    30 + Trunc(sens * 60.0)
  }

  /** One particle of `SpawnConfettiBurst`, and equally the new fields `RespawnParticle` writes. */
  function Spawned(center: Vec2, hueBase: real, d: SpawnDraw): (p: Particle)
    ensures p.maxLife == 180.0
    ensures Unit(d.lifeRoll) ==> 120.0 <= p.life < 300.0
    ensures Unit(d.sizeRoll) ==> 0.8 <= p.size < 2.4
    ensures Unit(d.offsetX) && Unit(d.offsetY) ==>
      center.x - 30.0 <= p.position.x < center.x + 30.0 && center.y - 30.0 <= p.position.y < center.y + 30.0
    ensures 0.0 <= hueBase && 0 <= d.hueRoll ==> 0.0 <= p.hue < 360.0
  {
    var speed := 0.8 + d.speedRoll * 3.0;
    Particle(center.Plus(Vec2((d.offsetX - 0.5) * 60.0, (d.offsetY - 0.5) * 60.0)),
             d.heading.Times(speed),
             0.8 + d.sizeRoll * 1.6,
             FMod(hueBase + d.hueRoll as real, 360.0),
             120.0 + d.lifeRoll * 180.0,
             180.0)
  }

  /** The `count` particles a burst appends, in spawn order. */
  function Burst(center: Vec2, hueBase: real, count: nat, draws: nat -> SpawnDraw): (r: seq<Particle>)
    ensures |r| == count
    decreases count
  {
    if count == 0 then []
    else Burst(center, hueBase, count - 1, draws) + [Spawned(center, hueBase, draws(count - 1))]
  }

  /** Every particle of a burst with valid draws is healthy, with its hue in range. */
  lemma {:induction false} BurstSettled(center: Vec2, hueBase: real, count: nat, draws: nat -> SpawnDraw)
    requires 0.0 <= hueBase && forall k: nat :: DrawOk(draws(k))
    ensures AllSettled(Burst(center, hueBase, count, draws))
    decreases count
  {
    if count > 0 {
      BurstSettled(center, hueBase, count - 1, draws);
      assert DrawOk(draws(count - 1));
    }
  }

  /** Maintenance keeps a settled pool settled. */
  lemma MaintainSettled(pool: seq<Particle>, baseline: nat, center: Vec2, hueBase: real, draws: nat -> SpawnDraw)
    requires AllSettled(pool) && 0.0 <= hueBase && forall k: nat :: DrawOk(draws(k))
    ensures AllSettled(MaintainPool(pool, baseline, center, hueBase, draws))
  {
    if |pool| < baseline {
      BurstSettled(center, hueBase, baseline - |pool|, draws);
      AppendSettled(pool, Burst(center, hueBase, baseline - |pool|, draws));
    }
  }

  lemma AppendSettled(a: seq<Particle>, b: seq<Particle>)
    requires AllSettled(a) && AllSettled(b)
    ensures AllSettled(a + b)
  {
  }

  /**
   * The pool maintenance: a short pool is topped up with new particles at
   * the end, a long one loses its oldest entries from the front.
   */
  function MaintainPool(pool: seq<Particle>, baseline: nat, center: Vec2, hueBase: real,
                        draws: nat -> SpawnDraw): (r: seq<Particle>)
    ensures |r| == baseline
    ensures |pool| <= baseline ==> r[..|pool|] == pool
    ensures |pool| >= baseline ==> r == pool[|pool| - baseline..]
  {
    if |pool| < baseline then pool + Burst(center, hueBase, baseline - |pool|, draws)
    else if |pool| > baseline then pool[|pool| - baseline..]
    else pool
  }

  /**
   * `p.Velocity *= maxSpeed / spd` when the speed `spd` exceeds `maxSpeed`.
   * The length is a parameter: `Vector2.Length` is a square root.
   */
  function ClampSpeed(v: Vec2, maxSpeed: real, length: Vec2 -> real): Vec2
    requires 0.0 <= maxSpeed
  {
    var spd := length(v);
    if spd > maxSpeed then v.Times(maxSpeed / spd) else v
  }

  /** After the clamp the speed is at most `maxSpeed`; a slow particle keeps its velocity. */
  lemma ClampSpeedBound(v: Vec2, maxSpeed: real, length: Vec2 -> real)
    requires IsLength(length) && 0.0 <= maxSpeed
    ensures length(ClampSpeed(v, maxSpeed, length)) <= maxSpeed
    ensures length(v) <= maxSpeed ==> ClampSpeed(v, maxSpeed, length) == v
  {
    var spd := length(v);
    if spd > maxSpeed {
      var k := maxSpeed / spd;
      LengthOfScaled(length, v, k);
      assert k * spd == maxSpeed;
    }
  }

  /**
   * One particle's update: steer toward the bass point, add jitter and
   * gravity, clamp the speed to `1.8 + 8 sens`, move, lose one life,
   * respawn near the centre when life runs out, wrap 20 pixels beyond the
   * edges and shift the hue.
   */
  function StepParticle(p: Particle, l: Levels, sens: real, width: int, height: int, bass: Vec2,
                        length: Vec2 -> real, jitter: Vec2, respawn: SpawnDraw): Particle
    requires 0.0 <= sens
  {
    var gravity := Vec2(0.0, 0.12 + sens * 0.6);
    var toBass := bass.Minus(p.position);
    var dist := Max(20.0, length(toBass));
    var dir := toBass.Times(1.0 / dist);
    var accel := dir.Times(0.4 + l.lowBandLevel * 7.0 + Min(1.0, l.beatPulse) * 10.0)
      .Plus(Vec2(jitter.x - 0.5, jitter.y - 0.5).Times(0.6 + l.highBandLevel * 4.5))
      .Plus(gravity.Times(0.5));
    var velocity := ClampSpeed(p.velocity.Plus(accel.Times(0.08)), 1.8 + sens * 8.0, length);
    var moved := p.(position := p.position.Plus(velocity), velocity := velocity, life := p.life - 1.0);
    var live := if moved.life <= 0.0 then Spawned(Center(width, height), l.colorHueBase, respawn) else moved;
    var wrapped := Vec2(WrapSoft(live.position.x, width as real, 20.0), WrapSoft(live.position.y, height as real, 20.0));
    live.(position := wrapped, hue := FMod(live.hue + l.highBandLevel * 8.0 + Min(1.0, l.beatPulse) * 16.0, 360.0))
  }

  /**
   * A particle loses exactly one life per frame until it runs out, and is
   * then respawned with 120 to 300 frames; it stays healthy, lands within
   * 20 pixels of the screen and keeps its hue in [0, 360).
   */
  lemma StepParticleKeeps(p: Particle, l: Levels, sens: real, width: nat, height: nat, bass: Vec2,
                          length: Vec2 -> real, jitter: Vec2, respawn: SpawnDraw)
    requires Settled(p) && LevelsInRange(l) && 0.0 <= sens && DrawOk(respawn)
    ensures var q := StepParticle(p, l, sens, width, height, bass, length, jitter, respawn);
      Settled(q)
      && (p.life > 1.0 ==> q.life == p.life - 1.0 && q.size == p.size)
      && (p.life <= 1.0 ==> 120.0 <= q.life)
      && -20.0 <= q.position.x <= width as real + 20.0 && -20.0 <= q.position.y <= height as real + 20.0
  {
  }

  /** Every particle stepped, in pool order, with its own jitter and respawn draws. */
  function StepAll(pool: seq<Particle>, l: Levels, sens: real, width: int, height: int, bass: Vec2,
                   length: Vec2 -> real, random: BoidsRandom): (r: seq<Particle>)
    requires 0.0 <= sens
    ensures |r| == |pool|
  {
    seq(|pool|, i requires 0 <= i < |pool| && 0.0 <= sens =>
      StepParticle(pool[i], l, sens, width, height, bass, length, random.jitter(i), random.respawn(i)))
  }

  /** The pool after one `DrawBoids` frame. */
  function FlockFrame(pool: seq<Particle>, l: Levels, width: int, height: int, bass: Vec2,
                      length: Vec2 -> real, random: BoidsRandom): seq<Particle>
    requires LevelsInRange(l)
  {
    var sens := Sensitivity(l);
    var center := Center(width, height);
    var afterBurst := if l.beatPulse > 0.7 then pool + Burst(center, l.colorHueBase, BurstSize(sens), random.burst) else pool;
    var kept := MaintainPool(afterBurst, Baseline(sens), center, l.colorHueBase, random.fill);
    StepAll(kept, l, sens, width, height, bass, length, random)
  }

  /**
   * A frame ends with exactly `Baseline(sens)` particles, all healthy, with
   * hues in range and inside the wrap margin.
   */
  lemma FrameKeepsPool(pool: seq<Particle>, l: Levels, width: nat, height: nat, bass: Vec2,
                       length: Vec2 -> real, random: BoidsRandom)
    requires LevelsInRange(l) && RandomOk(random) && AllSettled(pool)
    ensures var r := FlockFrame(pool, l, width, height, bass, length, random);
      |r| == Baseline(Sensitivity(l)) && AllSettled(r) && AllWrapped(r, width, height)
  {
    var sens := Sensitivity(l);
    var center := Center(width, height);
    var burst := Burst(center, l.colorHueBase, BurstSize(sens), random.burst);
    BurstSettled(center, l.colorHueBase, BurstSize(sens), random.burst);
    AppendSettled(pool, burst);
    var afterBurst := if l.beatPulse > 0.7 then pool + burst else pool;
    MaintainSettled(afterBurst, Baseline(sens), center, l.colorHueBase, random.fill);
    var kept := MaintainPool(afterBurst, Baseline(sens), center, l.colorHueBase, random.fill);
    StepAllSettled(kept, l, sens, width, height, bass, length, random);
  }

  /** Every particle lies within the 20-pixel wrap margin. */
  predicate AllWrapped(pool: seq<Particle>, width: nat, height: nat)
  {
    forall i :: 0 <= i < |pool| ==>
      -20.0 <= pool[i].position.x <= width as real + 20.0 && -20.0 <= pool[i].position.y <= height as real + 20.0
  }

  /** The update loop keeps every particle settled and puts it inside the wrap margin. */
  lemma StepAllSettled(pool: seq<Particle>, l: Levels, sens: real, width: nat, height: nat, bass: Vec2,
                       length: Vec2 -> real, random: BoidsRandom)
    requires AllSettled(pool) && LevelsInRange(l) && 0.0 <= sens && RandomOk(random)
    ensures var r := StepAll(pool, l, sens, width, height, bass, length, random);
      AllSettled(r) && AllWrapped(r, width, height)
  {
    var r := StepAll(pool, l, sens, width, height, bass, length, random);
    forall i | 0 <= i < |r|
      ensures Settled(r[i])
      ensures -20.0 <= r[i].position.x <= width as real + 20.0 && -20.0 <= r[i].position.y <= height as real + 20.0
    {
      assert DrawOk(random.respawn(i));
      StepParticleKeeps(pool[i], l, sens, width, height, bass, length, random.jitter(i), random.respawn(i));
    }
  }

  /** Appends the `count` particles of `Burst` one by one. */
  method SpawnConfettiBurst(pool: seq<Particle>, center: Vec2, hueBase: real, count: nat, draws: nat -> SpawnDraw)
    returns (r: seq<Particle>)
    ensures r == pool + Burst(center, hueBase, count, draws)
  {
    r := pool;
    var k := 0;
    while k < count
      invariant 0 <= k <= count
      invariant r == pool + Burst(center, hueBase, k, draws)
    {
      r := r + [Spawned(center, hueBase, draws(k))];
      k := k + 1;
    }
  }

  /** The update loop: each particle replaced by its stepped copy, in place. */
  method UpdateParticles(pool: seq<Particle>, l: Levels, sens: real, width: int, height: int, bass: Vec2,
                         length: Vec2 -> real, random: BoidsRandom) returns (r: seq<Particle>)
    requires 0.0 <= sens
    ensures r == StepAll(pool, l, sens, width, height, bass, length, random)
  {
    r := pool;
    var i := 0;
    while i < |r|
      invariant 0 <= i <= |r| == |pool|
      invariant forall j :: 0 <= j < i ==>
        r[j] == StepParticle(pool[j], l, sens, width, height, bass, length, random.jitter(j), random.respawn(j))
      invariant forall j :: i <= j < |r| ==> r[j] == pool[j]
    {
      var p := StepParticle(r[i], l, sens, width, height, bass, length, random.jitter(i), random.respawn(i));
      r := r[i := p];
      i := i + 1;
    }
  }

  /** The form's particle list. */
  class Flock {
    var boids: seq<Particle>

    constructor ()
      ensures boids == []
    {
      boids := [];
    }

    /**
     * One `DrawBoids` frame: the burst on a beat above 0.7, the pool
     * maintenance, then the update loop. `bass` is the circling attraction
     * point, computed with trigonometry from `treePhase`.
     */
    method DrawBoids(width: int, height: int, l: Levels, bass: Vec2, length: Vec2 -> real, random: BoidsRandom)
      requires LevelsInRange(l)
      modifies this
      ensures boids == FlockFrame(old(boids), l, width, height, bass, length, random)
    {
      var sens := Sensitivity(l);
      var baseline := Baseline(sens);
      var center := Center(width, height);
      var pool := boids;
      if l.beatPulse > 0.7 {
        pool := SpawnConfettiBurst(pool, center, l.colorHueBase, BurstSize(sens), random.burst);
      }
      if |pool| < baseline {
        pool := SpawnConfettiBurst(pool, center, l.colorHueBase, baseline - |pool|, random.fill);
      } else if |pool| > baseline {
        pool := pool[|pool| - baseline..];
      }
      pool := UpdateParticles(pool, l, sens, width, height, bass, length, random);
      boids := pool;
    }
  }
}
