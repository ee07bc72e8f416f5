/**
 * The visualizer form's audio callback (`OnDataAvailable`): the drop-oldest
 * sample queue, the FFT input window, the smoothed and peak spectra, the
 * adaptive gain, the band levels with silence gating and beat detection,
 * the animation speed with its phase and hue, and the growth of the "pipe"
 * segment lists.
 *
 * The FFT itself is foreign numerics: the callback receives the magnitudes
 * as an input, as it receives the Hamming window's coefficients.
 */
module AudioAnalysis {
  import opened Numerics
  import opened Geometry
  import opened RealArith

  const FftLength: nat := 1024
  const SpectrumLength: nat := 512
  /** `FftLength * 4`: the most samples the queue keeps. */
  const QueueCap: nat := 4096
  const Epsilon: real := 0.000001
  const SpectrumTargetLevel: real := 0.7
  const SilenceThreshold: real := 0.02
  const MaxPipes: nat := 8
  const MaxSegments: nat := 400

  // ---------------------------------------------------------------------
  // Sample queue and FFT window
  // ---------------------------------------------------------------------

  /** The queue once the oldest samples beyond the cap have been dropped. */
  function Capped(q: seq<real>): (r: seq<real>)
    ensures |r| <= QueueCap
    ensures |q| <= QueueCap ==> r == q
    ensures |q| > QueueCap ==> |r| == QueueCap
    ensures r == q[|q| - |r|..]
  {
    if |q| > QueueCap then q[|q| - QueueCap..] else q
  }

  /** Dropping the front of an over-full queue keeps the same newest samples. */
  lemma DropOldest(q: seq<real>)
    requires |q| > QueueCap
    ensures Capped(q[1..]) == Capped(q)
  {
    assert q[1..][|q| - 1 - QueueCap..] == q[|q| - QueueCap..];
  }

  /** Capping after every sample is the same as capping once at the end. */
  lemma CappedAppend(q: seq<real>, x: real)
    ensures Capped(Capped(q) + [x]) == Capped(q + [x])
  {
    if |q| > QueueCap {
      var c := Capped(q);
      assert (c + [x])[1..] == (q + [x])[|q| + 1 - QueueCap..];
    }
  }

  /** Every `channels`-th element of `s`, starting at index 0 (the left channel of interleaved frames). */
  function EveryNth(s: seq<real>, channels: nat): (r: seq<real>)
    requires channels >= 1
    ensures |r| <= |s|
    ensures |s| > 0 ==> |r| > 0 && r[0] == s[0]
    decreases |s|
  {
    if |s| == 0 then []
    else [s[0]] + EveryNth(if channels < |s| then s[channels..] else [], channels)
  }

  /** Element `j` of the selection is sample `j * channels`. */
  lemma {:induction false} EveryNthAt(s: seq<real>, channels: nat, j: nat)
    requires channels >= 1 && j < |EveryNth(s, channels)|
    ensures j * channels < |s| && EveryNth(s, channels)[j] == s[j * channels]
    decreases j
  {
    if j > 0 {
      assert channels < |s|;
      var rest := s[channels..];
      assert EveryNth(s, channels) == [s[0]] + EveryNth(rest, channels);
      EveryNthAt(rest, channels, j - 1);
      StrideStep(j, channels);
    }
  }

  /** With one channel every sample is taken. */
  lemma {:induction false} MonoTakesAll(s: seq<real>)
    ensures EveryNth(s, 1) == s
    decreases |s|
  {
    if |s| > 0 {
      MonoTakesAll(if 1 < |s| then s[1..] else []);
    }
  }

  function Zeros(n: nat): (z: seq<real>)
    ensures |z| == n && forall i :: 0 <= i < n ==> z[i] == 0.0
  {
    if n == 0 then [] else Zeros(n - 1) + [0.0]
  }

  /** The samples the FFT reads: the newest `FftLength`, zero-filled at the end when fewer are queued. */
  function Window(q: seq<real>): (w: seq<real>)
    ensures |w| == FftLength
    ensures |q| >= FftLength ==> w == q[|q| - FftLength..]
    ensures |q| < FftLength ==> w[..|q|] == q
    ensures forall i :: |q| <= i < FftLength ==> w[i] == 0.0
  {
    if |q| >= FftLength then q[|q| - FftLength..] else q + Zeros(FftLength - |q|)
  }

  /** Entry `i` of the window is the queued sample `i` places after the window's start, or 0 past the queue's end. */
  lemma WindowAt(q: seq<real>, i: nat)
    requires i < FftLength
    ensures var start := if |q| - FftLength > 0 then |q| - FftLength else 0;
      Window(q)[i] == if i + start < |q| then q[i + start] else 0.0
  {
    if |q| < FftLength && i < |q| {
      assert Window(q)[..|q|][i] == q[i];
    }
  }

  datatype Complex = Complex(x: real, y: real)

  /** The FFT input of a frame: each windowed sample times its Hamming coefficient, with imaginary part 0. */
  predicate FftInput(buf: seq<Complex>, q: seq<real>, hamming: seq<real>)
    requires |hamming| == FftLength
  {
    |buf| == FftLength && forall i :: 0 <= i < FftLength ==> buf[i] == Complex(Window(q)[i] * hamming[i], 0.0)
  }

  // ---------------------------------------------------------------------
  // Smoothed and peak spectra, gain
  // ---------------------------------------------------------------------

  /** One bin of the smoothed spectrum: `0.8 * smoothed + 0.2 * raw`. */
  function Smooth(smoothed: real, raw: real): real
  {
    smoothed * 0.8 + raw * 0.2
  }

  /** One bin of the peak spectrum: it jumps to a higher smoothed value, otherwise decays by 1%. */
  function NextPeak(peak: real, smoothed: real): real
  {
    if smoothed > peak then smoothed else peak * 0.99
  }

  /** Non-negative bins stay non-negative. */
  lemma SpectraNonNegative(smoothed: real, peak: real, raw: real)
    requires 0.0 <= smoothed && 0.0 <= peak && 0.0 <= raw
    ensures 0.0 <= Smooth(smoothed, raw) && 0.0 <= NextPeak(peak, Smooth(smoothed, raw))
  {
  }

  /** The peak never falls below 99% of the new smoothed value. */
  lemma PeakTracksSmoothed(peak: real, s: real)
    requires 0.0 <= peak
    ensures NextPeak(peak, s) >= 0.99 * s
  {
  }

  /**
   * The peak can end up below the smoothed value: with smoothed = peak = 1
   * and a raw magnitude of 1, the smoothed value stays 1 while the peak
   * decays to 0.99.
   */
  lemma PeakCanTrailSmoothed()
    ensures var s := Smooth(1.0, 1.0); NextPeak(1.0, s) < s
  {
  }

  /** The gain after a frame whose loudest smoothed bin is `currentPeak`. */
  function NextGain(gain: real, currentPeak: real): (g: real)
    ensures currentPeak > Epsilon ==> 0.5 <= g <= 500.0
    ensures currentPeak <= Epsilon ==> g == gain
  {
    if currentPeak > Epsilon then
      var desiredGain := SpectrumTargetLevel / currentPeak;
      var blended := gain * 0.9 + desiredGain * 0.1;
      if blended < 0.5 then 0.5 else if blended > 500.0 then 500.0 else blended
    else gain
  }

  /** The gain after a run of frames. */
  function GainAfter(gain: real, peaks: seq<real>): real
    decreases |peaks|
  {
    if |peaks| == 0 then gain else GainAfter(NextGain(gain, peaks[0]), peaks[1..])
  }

  /** Starting from its initial 10, the gain stays within [0.5, 500] whatever the input. */
  lemma {:induction false} GainBounded(gain: real, peaks: seq<real>)
    requires 0.5 <= gain <= 500.0
    ensures 0.5 <= GainAfter(gain, peaks) <= 500.0
    decreases |peaks|
  {
    if |peaks| > 0 {
      GainBounded(NextGain(gain, peaks[0]), peaks[1..]);
    }
  }

  // ---------------------------------------------------------------------
  // Levels, silence, beat, speed, phase and hue
  // ---------------------------------------------------------------------

  /** The analyser's scalar state. */
  datatype Analysis = Analysis(
    reactiveLevel: real,
    lowBandLevel: real,
    highBandLevel: real,
    previousLowLevel: real,
    isSilent: bool,
    beatPulse: real,
    treeSpeed: real,
    treePhase: real,
    colorHueBase: real)

  /** The ranges every frame keeps. */
  predicate InRange(a: Analysis)
  {
    0.0 <= a.reactiveLevel <= 1.0 && 0.0 <= a.lowBandLevel <= 1.0 && 0.0 <= a.highBandLevel <= 1.0
    && 0.0 <= a.previousLowLevel <= 1.0 && 0.0 <= a.beatPulse <= 1.0
    && 0.0 <= a.treeSpeed && 0.0 <= a.treePhase && 0.0 <= a.colorHueBase < 360.0
  }

  /** `min(1, (sum / count) * gain)`: a band's mean scaled for responsiveness and capped at 1. */
  function BandLevel(sum: real, count: nat, gain: real): (r: real)
    requires count >= 1
    ensures r <= 1.0
    ensures 0.0 <= sum && 0.0 <= gain ==> 0.0 <= r
  {
    var mean := sum / count as real;
    if 0.0 <= sum && 0.0 <= gain then
      assert 0.0 <= mean;
      assert 0.0 <= mean * gain;
      Min(1.0, mean * gain)
    else Min(1.0, mean * gain)
  }

  /** `max(1, n / 16)`: the number of bass bins. */
  function LowCount(n: nat): (c: nat)
    ensures 1 <= c && (n >= 1 ==> c <= n)
  {
    if n / 16 > 1 then n / 16 else 1
  }

  /** `(int)(n * 0.5f)`: the first treble bin. */
  function HighStart(n: nat): (h: nat)
    ensures h <= n
  {
    n / 2
  }

  /** `max(1, n - highStart)`: the number of treble bins, at least 1. */
  function HighCount(n: nat): (c: nat)
    ensures c >= 1
  {
    if n - HighStart(n) > 1 then n - HighStart(n) else 1
  }

  /** The overall level: the mean of all bins times 50, at most 1. */
  function Level(s: seq<real>): real
    requires |s| >= 1
  {
    BandLevel(Sum(s), |s|, 50.0)
  }

  /** The bass level: the mean of the first `max(1, n / 16)` bins times 80, at most 1. */
  function LowLevel(s: seq<real>): real
    requires |s| >= 1
  {
    BandLevel(Sum(s[..LowCount(|s|)]), LowCount(|s|), 80.0)
  }

  /** The treble level: the mean of the upper half times 60, at most 1. */
  function HighLevel(s: seq<real>): real
    requires |s| >= 1
  {
    BandLevel(Sum(s[HighStart(|s|)..]), HighCount(|s|), 60.0)
  }

  /** The normalised spectral centroid, 0.5 when the spectrum is empty of energy. */
  function Centroid(s: seq<real>): (c: real)
    ensures AllNonNegative(s) ==> 0.0 <= c <= 1.0
    ensures Sum(s) <= 0.0 ==> c == 0.5
  {
    var total := Sum(s);
    var weighted := WeightedSum(s);
    var n := if |s| > 1 then |s| else 1;
    if total > 0.0 then
      CentroidBound(s, total, weighted, n);
      (weighted / total) / n as real
    else 0.5
  }

  lemma CentroidBound(s: seq<real>, total: real, weighted: real, n: nat)
    requires total == Sum(s) && weighted == WeightedSum(s) && total > 0.0
    requires n >= 1 && n >= |s|
    ensures AllNonNegative(s) ==> 0.0 <= (weighted / total) / n as real <= 1.0
  {
    if AllNonNegative(s) {
      WeightedSumBounds(s);
      assert weighted <= n as real * total;
      var q := weighted / total;
      assert q * total == weighted;
      assert 0.0 <= q;
      QuotientAtMost(weighted, total, n as real);
      QuotientAtMost(q, n as real, 1.0);
    }
  }

  /** The four measurements a frame takes of its smoothed spectrum. */
  datatype Bands = Bands(level: real, low: real, high: real, centroid: real)

  function Measure(s: seq<real>): Bands
    requires |s| >= 1
  {
    Bands(Level(s), LowLevel(s), HighLevel(s), Centroid(s))
  }

  /** The scalar state after one frame whose smoothed spectrum is `s`. */
  function AnalysisStep(a: Analysis, s: seq<real>): Analysis
    requires |s| >= 1
  {
    StepWith(a, Measure(s))
  }

  /** The state update given the frame's measurements. */
  function StepWith(a: Analysis, m: Bands): Analysis
  {
    var reactiveLevel := a.reactiveLevel * 0.7 + m.level * 0.3;
    var lowLevel := m.low;
    var lowBandLevel := a.lowBandLevel * 0.7 + lowLevel * 0.3;
    var highBandLevel := a.highBandLevel * 0.7 + m.high * 0.3;
    var isSilent := reactiveLevel < SilenceThreshold && lowLevel < SilenceThreshold;
    var rise := lowLevel - a.previousLowLevel;
    var beatPulse := if !isSilent && rise > 0.08 then 1.0 else a.beatPulse * 0.86;
    var previousLowLevel := a.previousLowLevel * 0.8 + lowLevel * 0.2;
    var targetSpeed := if isSilent then 0.0 else 0.4 + reactiveLevel * 2.0 + beatPulse * 4.0;
    var blended := a.treeSpeed * 0.7 + targetSpeed * 0.3;
    var treeSpeed := if blended < 0.001 then 0.0 else blended;
    var treePhase := if treeSpeed > 0.0 then a.treePhase + treeSpeed else a.treePhase;
    var hue := if treeSpeed > 0.0
      then FMod(a.colorHueBase + m.centroid * 5.0 + reactiveLevel * 2.0 + treeSpeed * 0.8 + beatPulse * 1.0, 360.0)
      else a.colorHueBase;
    Analysis(reactiveLevel, lowBandLevel, highBandLevel, previousLowLevel, isSilent, beatPulse,
             treeSpeed, treePhase, hue)
  }

  /** For non-negative spectra every frame keeps levels, pulse and hue in their ranges. */
  lemma StepInRange(a: Analysis, s: seq<real>)
    requires |s| >= 1 && InRange(a) && AllNonNegative(s)
    ensures InRange(AnalysisStep(a, s))
  {
    SumNonNegative(s);
    AllNonNegativeSlices(s, LowCount(|s|), HighStart(|s|));
    SumNonNegative(s[..LowCount(|s|)]);
    SumNonNegative(s[HighStart(|s|)..]);
  }

  lemma AllNonNegativeSlices(s: seq<real>, k: nat, h: nat)
    requires AllNonNegative(s) && k <= |s| && h <= |s|
    ensures AllNonNegative(s[..k]) && AllNonNegative(s[h..])
  {
    assert forall i :: 0 <= i < k ==> s[..k][i] == s[i];
    assert forall i :: 0 <= i < |s| - h ==> s[h..][i] == s[h + i];
  }

  /** Silence is the overall level and the bass level both below 0.02. */
  lemma SilenceGate(a: Analysis, s: seq<real>)
    requires |s| >= 1
    ensures AnalysisStep(a, s).isSilent
      <==> AnalysisStep(a, s).reactiveLevel < SilenceThreshold && LowLevel(s) < SilenceThreshold
  {
  }

  /**
   * The beat pulse becomes exactly 1 precisely when the frame is not silent
   * and the bass level rose by more than 0.08 over its running average;
   * otherwise it decays, and a pulse in [0, 1] then stays below 1.
   */
  lemma BeatExactlyOnRise(a: Analysis, s: seq<real>)
    requires |s| >= 1 && 0.0 <= a.beatPulse <= 1.0
    ensures AnalysisStep(a, s).beatPulse == 1.0
      <==> !AnalysisStep(a, s).isSilent && LowLevel(s) - a.previousLowLevel > 0.08
  {
  }

  /** When the speed snaps to zero, the phase and the hue stay where they were. */
  lemma StillFreezes(a: Analysis, s: seq<real>)
    requires |s| >= 1
    ensures var b := AnalysisStep(a, s);
      b.treeSpeed == 0.0 || b.treeSpeed >= 0.001
    ensures var b := AnalysisStep(a, s);
      b.treeSpeed == 0.0 ==> b.treePhase == a.treePhase && b.colorHueBase == a.colorHueBase
  {
  }

  /** A silent frame targets speed 0, so the speed keeps at most 70% of its value. */
  lemma SilenceSlows(a: Analysis, s: seq<real>)
    requires |s| >= 1 && 0.0 <= a.treeSpeed
    ensures AnalysisStep(a, s).isSilent ==> AnalysisStep(a, s).treeSpeed <= a.treeSpeed * 0.7
  {
  }

  // ---------------------------------------------------------------------
  // Pipes
  // ---------------------------------------------------------------------

  /** A pipe segment with its colour as hue, saturation and value. */
  datatype PipeSegment = PipeSegment(start: Vec3, end: Vec3, hue: real, saturation: int, value: int)

  /**
   * The random draws of one visit of pipe `i` in step `step`: the steered
   * direction (`Normalize(dir + jitter * turn)`), the split roll in [0, 1)
   * and the branch direction. Randomness and normalisation are not part of
   * this model; they arrive as these functions.
   */
  datatype PipeRandom = PipeRandom(
    steer: (int, int, Vec3) -> Vec3,
    splitRoll: (int, int) -> real,
    branch: (int, int, Vec3) -> Vec3)

  /**
   * One step forward: the new position, with each direction component
   * reversed (and the step retaken) when it leaves the box
   * |x|, |y| <= 250, -80 <= z <= 260.
   */
  function Advance(pos: Vec3, dir: Vec3, speed: real): (Vec3, Vec3)
  {
    var d0 := dir;
    var p0 := pos.Plus(d0.Times(speed));
    var d1 := if p0.x < -250.0 || p0.x > 250.0 then d0.(x := -d0.x) else d0;
    var p1 := if p0.x < -250.0 || p0.x > 250.0 then pos.Plus(d1.Times(speed)) else p0;
    var d2 := if p1.y < -250.0 || p1.y > 250.0 then d1.(y := -d1.y) else d1;
    var p2 := if p1.y < -250.0 || p1.y > 250.0 then pos.Plus(d2.Times(speed)) else p1;
    var d3 := if p2.z < -80.0 || p2.z > 260.0 then d2.(z := -d2.z) else d2;
    var p3 := if p2.z < -80.0 || p2.z > 260.0 then pos.Plus(d3.Times(speed)) else p2;
    (p3, d3)
  }

  /** The newest `MaxSegments` segments. */
  function Trimmed(system: seq<PipeSegment>): (r: seq<PipeSegment>)
    ensures |r| <= MaxSegments
    ensures |system| <= MaxSegments ==> r == system
    ensures r == system[|system| - |r|..]
  {
    if |system| > MaxSegments then system[|system| - MaxSegments..] else system
  }

  /** Every pipe has at least one segment. */
  predicate AllNonEmpty(systems: seq<seq<PipeSegment>>)
  {
    forall j :: 0 <= j < |systems| ==> |systems[j]| >= 1
  }

  /**
   * The colour of the segments added in a frame: hue
   * `(hueBase + level * 120 + beat * 180 + frame * 0.2) % 360`, saturation and
   * value clamped to [0, 100].
   */
  function SegmentColor(hueBase: real, level: real, beat: real, frame: int): (c: (real, int, int))
    ensures 0 <= c.1 <= 100 && 0 <= c.2 <= 100
  {
    (FMod(hueBase + level * 120.0 + beat * 180.0 + frame as real * 0.2, 360.0),
     Percent(70 + Trunc(level * 30.0) + Trunc(beat * 30.0)),
     Percent(80 + Trunc(level * 20.0) + Trunc(beat * 30.0)))
  }

  /** The pipe lists agree in length, hold at most eight pipes and at most 400 segments each. */
  predicate PipesValid(systems: seq<seq<PipeSegment>>, positions: seq<Vec3>, directions: seq<Vec3>)
  {
    |systems| == |positions| == |directions| <= MaxPipes
    && forall j :: 0 <= j < |systems| ==> |systems[j]| <= MaxSegments
  }

  /** The sum and the index-weighted sum of all bins, accumulated front to back. */
  method SpectrumSums(a: array<real>) returns (sum: real, weighted: real)
    ensures sum == Sum(a[..]) && weighted == WeightedSum(a[..])
  {
    sum, weighted := 0.0, 0.0;
    var i := 0;
    while i < a.Length
      invariant 0 <= i <= a.Length
      invariant sum == Sum(a[..i]) && weighted == WeightedSum(a[..i])
    {
      assert a[..i + 1][..i] == a[..i];
      sum := sum + a[i];
      weighted := weighted + a[i] * i as real;
      i := i + 1;
    }
    assert a[..a.Length] == a[..];
  }

  /** The sum of bins `lo` up to, not including, `hi`. */
  method RangeSum(a: array<real>, lo: nat, hi: nat) returns (sum: real)
    requires lo <= hi <= a.Length
    ensures sum == Sum(a[lo..hi])
  {
    sum := 0.0;
    var i := lo;
    while i < hi
      invariant lo <= i <= hi
      invariant sum == Sum(a[lo..i])
    {
      assert a[lo..i + 1][..i - lo] == a[lo..i];
      sum := sum + a[i];
      i := i + 1;
    }
  }

  /**
   * The per-frame band measurements of the smoothed spectrum: overall,
   * bass and treble level and the normalised centroid.
   */
  method BandLevels(a: array<real>) returns (m: Bands)
    requires a.Length >= 1
    ensures m == Measure(a[..])
  {
    ghost var s := a[..];
    var n := a.Length;
    var total, weighted := SpectrumSums(a);
    var level := BandLevel(total, n, 50.0);

    var lowCount := LowCount(n);
    var lowSum := RangeSum(a, 0, lowCount);
    assert a[0..lowCount] == s[..LowCount(|s|)];
    var lowLevel := BandLevel(lowSum, lowCount, 80.0);

    var highStart := HighStart(n);
    var highSum := RangeSum(a, highStart, n);
    assert a[highStart..n] == s[HighStart(|s|)..];
    var highLevel := BandLevel(highSum, HighCount(n), 60.0);

    var centroid := if total > 0.0 then (weighted / total) / (if n > 1 then n else 1) as real else 0.5;
    m := Bands(level, lowLevel, highLevel, centroid);
  }

  /**
   * One visit of pipe `i`: steer, step forward inside the box, append the
   * segment, maybe split off a new pipe (only while there are fewer than
   * eight), and keep the pipe's newest 400 segments.
   */
  method VisitPipe(systems: seq<seq<PipeSegment>>, positions: seq<Vec3>, directions: seq<Vec3>, i: nat,
                   step: int, speed: real, level: real, beat: real, color: (real, int, int), random: PipeRandom)
    returns (systems': seq<seq<PipeSegment>>, positions': seq<Vec3>, directions': seq<Vec3>)
    requires PipesValid(systems, positions, directions) && i < |positions|
    ensures PipesValid(systems', positions', directions')
    ensures |systems| <= |systems'| <= |systems| + 1
    ensures |systems| >= MaxPipes ==> |systems'| == |systems|
    ensures forall j :: 0 <= j < |systems| && j != i ==> systems'[j] == systems[j]
    ensures forall j :: |systems| <= j < |systems'| ==> |systems'[j]| == 1
    ensures var (newPos, _) := Advance(positions[i], random.steer(step, i, directions[i]), speed);
      systems'[i] == Trimmed(systems[i] + [PipeSegment(positions[i], newPos, color.0, color.1, color.2)])
      && positions'[i] == newPos
  {
    var pos := positions[i];
    var system := systems[i];
    var (newPos, dir) := Advance(pos, random.steer(step, i, directions[i]), speed);
    system := system + [PipeSegment(pos, newPos, color.0, color.1, color.2)];
    positions' := positions[i := newPos];
    directions' := directions[i := dir];
    systems' := systems;
    var splitChance := 0.01 + 0.05 * level + 0.12 * Min(1.0, beat);
    if |systems'| < MaxPipes && random.splitRoll(step, i) < splitChance {
      var branchDir := random.branch(step, i, dir);
      positions' := positions' + [newPos];
      directions' := directions' + [branchDir];
      systems' := systems' + [[PipeSegment(newPos, newPos.Plus(branchDir.Times(speed * 0.5)), color.0, color.1, color.2)]];
    }
    if |system| > MaxSegments {
      system := system[|system| - MaxSegments..];
    }
    systems' := systems'[i := system];
  }

  /**
   * One step of the pipe growth: visit every pipe in index order, including
   * those split off during the step. Afterwards every pipe has a segment.
   */
  method PipeStep(systems: seq<seq<PipeSegment>>, positions: seq<Vec3>, directions: seq<Vec3>,
                  step: int, speed: real, level: real, beat: real, color: (real, int, int), random: PipeRandom)
    returns (systems': seq<seq<PipeSegment>>, positions': seq<Vec3>, directions': seq<Vec3>)
    requires PipesValid(systems, positions, directions)
    ensures PipesValid(systems', positions', directions')
    ensures |systems| <= |systems'|
    ensures |systems| >= MaxPipes ==> |systems'| == |systems|
    ensures AllNonEmpty(systems')
  {
    systems', positions', directions' := systems, positions, directions;
    var i := 0;
    while i < |positions'|
      invariant 0 <= i <= |positions'| && |systems| <= |systems'|
      invariant PipesValid(systems', positions', directions')
      invariant |systems| >= MaxPipes ==> |systems'| == |systems|
      invariant forall j :: 0 <= j < i ==> |systems'[j]| >= 1
      decreases MaxPipes - i
    {
      systems', positions', directions' := VisitPipe(systems', positions', directions', i, step, speed, level, beat, color, random);
      i := i + 1;
    }
  }

  // ---------------------------------------------------------------------
  // The form's analyser state
  // ---------------------------------------------------------------------

  /** The dequeue loop of `OnDataAvailable`: drop the oldest sample while the queue is over its cap. */
  method DropWhileFull(q: seq<real>) returns (r: seq<real>)
    ensures r == Capped(q)
  {
    r := q;
    while |r| > QueueCap
      invariant Capped(r) == Capped(q)
    {
      DropOldest(r);
      r := r[1..];
    }
  }

  /** One turn of the enqueue loop: take the head of what is left, append it and cap. */
  lemma EnqueueStep(queue: seq<real>, taken: seq<real>, rest: seq<real>, channels: nat)
    requires channels >= 1 && |rest| > 0
    ensures var next := if channels < |rest| then rest[channels..] else [];
      taken + EveryNth(rest, channels) == (taken + [rest[0]]) + EveryNth(next, channels)
    ensures Capped(Capped(queue + taken) + [rest[0]]) == Capped(queue + (taken + [rest[0]]))
  {
    CappedAppend(queue + taken, rest[0]);
    assert queue + taken + [rest[0]] == queue + (taken + [rest[0]]);
  }

  /**
   * The enqueue loop of `OnDataAvailable`: every `channels`-th sample of the
   * first `numSamples`, each appended and followed by dropping the oldest
   * samples while the queue is over its cap.
   */
  method EnqueueLeft(queue: seq<real>, buffer: seq<real>, numSamples: nat, channels: nat) returns (q: seq<real>)
    requires channels >= 1 && numSamples <= |buffer| && |queue| <= QueueCap
    ensures q == Capped(queue + EveryNth(buffer[..numSamples], channels))
  {
    ghost var samples := buffer[..numSamples];
    ghost var taken: seq<real> := [];
    ghost var rest := samples;
    q := queue;
    var i := 0;
    while i < numSamples
      invariant rest == if i <= numSamples then samples[i..] else []
      invariant taken + EveryNth(rest, channels) == EveryNth(samples, channels)
      invariant q == Capped(queue + taken)
    {
      var sample := buffer[i];
      ghost var next := if channels < |rest| then rest[channels..] else [];
      EnqueueStep(queue, taken, rest, channels);
      q := DropWhileFull(q + [sample]);
      taken := taken + [sample];
      i := i + channels;
      rest := next;
    }
    assert rest == [];
    assert taken + [] == taken;
  }

  class Analyzer {
    var waveformQueue: seq<real>
    const fftBuffer: array<Complex>
    const spectrum: array<real>
    const smoothedSpectrum: array<real>
    const peakSpectrum: array<real>

    var reactiveLevel: real
    var beatPulse: real
    var colorHueBase: real
    var treePhase: real
    var treeSpeed: real
    var previousLowLevel: real
    var isSilent: bool
    var lowBandLevel: real
    var highBandLevel: real
    var spectrumGain: real

    var frameCount: int
    var pipeSystems: seq<seq<PipeSegment>>
    var currentPositions: seq<Vec3>
    var currentDirections: seq<Vec3>

    /** The scalar state as a value. */
    function Snapshot(): Analysis
      reads this
    {
      Analysis(reactiveLevel, lowBandLevel, highBandLevel, previousLowLevel, isSilent, beatPulse,
               treeSpeed, treePhase, colorHueBase)
    }

    predicate Buffers()
      reads this
    {
      fftBuffer.Length == FftLength
      && spectrum.Length == SpectrumLength && smoothedSpectrum.Length == SpectrumLength
      && peakSpectrum.Length == SpectrumLength
      && spectrum != smoothedSpectrum && spectrum != peakSpectrum && smoothedSpectrum != peakSpectrum
    }

    /** What every callback preserves. */
    predicate Valid()
      reads this, smoothedSpectrum, peakSpectrum
    {
      Buffers()
      && |waveformQueue| <= QueueCap
      && AllNonNegative(smoothedSpectrum[..]) && AllNonNegative(peakSpectrum[..])
      && 0.5 <= spectrumGain <= 500.0
      && InRange(Snapshot())
      && PipesValid(pipeSystems, currentPositions, currentDirections)
    }

    /** The form's initial analyser state: empty queue, zero spectra, gain 10, one seeded pipe. */
    constructor ()
      ensures Valid() && fresh(fftBuffer) && fresh(spectrum) && fresh(smoothedSpectrum) && fresh(peakSpectrum)
      ensures waveformQueue == [] && spectrumGain == 10.0 && treeSpeed == 1.0 && isSilent
      ensures |pipeSystems| == 1 && pipeSystems[0] == []
    {
      waveformQueue := [];
      fftBuffer := new Complex[FftLength](_ => Complex(0.0, 0.0));
      spectrum := new real[SpectrumLength](_ => 0.0);
      smoothedSpectrum := new real[SpectrumLength](_ => 0.0);
      peakSpectrum := new real[SpectrumLength](_ => 0.0);
      reactiveLevel := 0.0;
      beatPulse := 0.0;
      colorHueBase := 0.0;
      treePhase := 0.0;
      treeSpeed := 1.0;
      previousLowLevel := 0.0;
      isSilent := true;
      lowBandLevel := 0.0;
      highBandLevel := 0.0;
      spectrumGain := 10.0;
      frameCount := 0;
      pipeSystems := [[]];
      currentPositions := [Vec3(0.0, 0.0, 50.0)];
      currentDirections := [Vec3(0.0, 1.0, 0.0)];
    }

    /**
     * Appends every `channels`-th of the `numSamples` interleaved samples,
     * dropping the oldest while more than `QueueCap` are queued.
     */
    method EnqueueSamples(buffer: seq<real>, numSamples: nat, channels: nat)
      requires Valid() && channels >= 1 && numSamples <= |buffer|
      modifies this
      ensures Valid()
      ensures waveformQueue == Capped(old(waveformQueue) + EveryNth(buffer[..numSamples], channels))
      ensures Snapshot() == old(Snapshot()) && spectrumGain == old(spectrumGain)
      ensures pipeSystems == old(pipeSystems) && currentPositions == old(currentPositions)
      ensures currentDirections == old(currentDirections) && frameCount == old(frameCount)
    {
      waveformQueue := EnqueueLeft(waveformQueue, buffer, numSamples, channels);
    }

    /** Fills the FFT input: window sample times the Hamming coefficient, imaginary parts 0. */
    method FillFftBuffer(hamming: seq<real>)
      requires Buffers() && |hamming| == FftLength
      modifies fftBuffer
      ensures FftInput(fftBuffer[..], waveformQueue, hamming)
    {
      var waveformArray := waveformQueue;
      var start := if |waveformArray| - FftLength > 0 then |waveformArray| - FftLength else 0;
      ghost var w := Window(waveformArray);
      var i := 0;
      while i < FftLength
        invariant 0 <= i <= FftLength
        invariant forall k :: 0 <= k < i ==> fftBuffer[k] == Complex(w[k] * hamming[k], 0.0)
      {
        WindowAt(waveformArray, i);
        var x := if i + start < |waveformArray| then waveformArray[i + start] * hamming[i] else 0.0;
        assert x == w[i] * hamming[i];
        fftBuffer[i] := Complex(x, 0.0);
        i := i + 1;
      }
    }

    /** Blends the magnitudes into the smoothed spectrum and updates the peaks, bin by bin. */
    method UpdateSpectra(magnitudes: seq<real>)
      requires Buffers() && |magnitudes| == SpectrumLength
      modifies smoothedSpectrum, peakSpectrum
      ensures forall i :: 0 <= i < SpectrumLength ==>
        smoothedSpectrum[i] == Smooth(old(smoothedSpectrum[i]), magnitudes[i])
        && peakSpectrum[i] == NextPeak(old(peakSpectrum[i]), smoothedSpectrum[i])
    {
      var i := 0;
      while i < SpectrumLength
        invariant 0 <= i <= SpectrumLength
        invariant forall k :: 0 <= k < i ==>
          smoothedSpectrum[k] == Smooth(old(smoothedSpectrum[k]), magnitudes[k])
          && peakSpectrum[k] == NextPeak(old(peakSpectrum[k]), smoothedSpectrum[k])
        invariant forall k :: i <= k < SpectrumLength ==>
          smoothedSpectrum[k] == old(smoothedSpectrum[k]) && peakSpectrum[k] == old(peakSpectrum[k])
      {
        smoothedSpectrum[i] := smoothedSpectrum[i] * 0.8 + magnitudes[i] * 0.2;
        if smoothedSpectrum[i] > peakSpectrum[i] {
          peakSpectrum[i] := smoothedSpectrum[i];
        } else {
          peakSpectrum[i] := peakSpectrum[i] * 0.99;
        }
        i := i + 1;
      }
    }

    /** Moves the gain toward `0.7 / max(smoothed)` when that maximum is above `Epsilon`, clamped to [0.5, 500]. */
    method UpdateGain()
      requires Buffers()
      modifies this
      ensures spectrumGain == NextGain(old(spectrumGain), SeqMax(smoothedSpectrum[..]))
      ensures Snapshot() == old(Snapshot()) && waveformQueue == old(waveformQueue)
      ensures pipeSystems == old(pipeSystems) && currentPositions == old(currentPositions)
      ensures currentDirections == old(currentDirections) && frameCount == old(frameCount)
    {
      var currentPeak := SeqMax(smoothedSpectrum[..]);
      if currentPeak > Epsilon {
        var desiredGain := SpectrumTargetLevel / currentPeak;
        spectrumGain := spectrumGain * 0.9 + desiredGain * 0.1;
        if spectrumGain < 0.5 {
          spectrumGain := 0.5;
        }
        if spectrumGain > 500.0 {
          spectrumGain := 500.0;
        }
      }
    }

    /** Derives the levels, the silence gate, the beat, the speed, the phase and the hue from the smoothed spectrum. */
    method UpdateLevels()
      requires Buffers()
      modifies this
      ensures Snapshot() == AnalysisStep(old(Snapshot()), smoothedSpectrum[..])
      ensures spectrumGain == old(spectrumGain) && waveformQueue == old(waveformQueue)
      ensures pipeSystems == old(pipeSystems) && currentPositions == old(currentPositions)
      ensures currentDirections == old(currentDirections) && frameCount == old(frameCount)
    {
      var m := BandLevels(smoothedSpectrum);
      var next := StepWith(Snapshot(), m);
      assert next == AnalysisStep(Snapshot(), smoothedSpectrum[..]);
      Store(next);
    }

    /** Writes the scalar state back into the analyser's fields. */
    method Store(next: Analysis)
      modifies this
      ensures Snapshot() == next
      ensures spectrumGain == old(spectrumGain) && waveformQueue == old(waveformQueue)
      ensures pipeSystems == old(pipeSystems) && currentPositions == old(currentPositions)
      ensures currentDirections == old(currentDirections) && frameCount == old(frameCount)
    {
      reactiveLevel, lowBandLevel, highBandLevel := next.reactiveLevel, next.lowBandLevel, next.highBandLevel;
      previousLowLevel, isSilent, beatPulse := next.previousLowLevel, next.isSilent, next.beatPulse;
      treeSpeed, treePhase, colorHueBase := next.treeSpeed, next.treePhase, next.colorHueBase;
    }

    /** `Array.Copy(smoothedSpectrum, spectrum, ...)`: the snapshot the renderers read. */
    method PublishSpectrum()
      requires Buffers()
      modifies spectrum
      ensures spectrum[..] == smoothedSpectrum[..]
    {
      var i := 0;
      while i < SpectrumLength
        invariant 0 <= i <= SpectrumLength
        invariant forall k :: 0 <= k < i ==> spectrum[k] == smoothedSpectrum[k]
      {
        spectrum[i] := smoothedSpectrum[i];
        i := i + 1;
      }
    }

    /**
     * Grows the pipes: each step visits every pipe (including those split
     * off during the step), appends one segment to it, may split off a new
     * pipe while there are fewer than eight, and trims it to its newest 400
     * segments; an empty pipe set is reseeded with one pipe.
     */
    method GrowPipes(random: PipeRandom)
      requires PipesValid(pipeSystems, currentPositions, currentDirections)
      requires 0.0 <= reactiveLevel && 0.0 <= beatPulse
      modifies this
      ensures PipesValid(pipeSystems, currentPositions, currentDirections)
      ensures 1 <= |pipeSystems| && |old(pipeSystems)| <= |pipeSystems|
      ensures |old(pipeSystems)| >= MaxPipes ==> |pipeSystems| == |old(pipeSystems)|
      ensures |old(pipeSystems)| >= 1 ==> AllNonEmpty(pipeSystems)
      ensures Snapshot() == old(Snapshot()) && spectrumGain == old(spectrumGain)
      ensures waveformQueue == old(waveformQueue) && frameCount == old(frameCount)
    {
      var level := reactiveLevel;
      var speed := 6.0 + level * 20.0 + beatPulse * 30.0;
      var iterations := 1 + Trunc(level * 2.0) + (if beatPulse > 0.6 then 1 else 0);
      var systems, positions, directions := pipeSystems, currentPositions, currentDirections;
      var step := 0;
      while step < iterations
        invariant 0 <= step && (step > 0 ==> step <= iterations)
        invariant PipesValid(systems, positions, directions)
        invariant |old(pipeSystems)| <= |systems| && (step > 0 ==> 1 <= |systems|)
        invariant |old(pipeSystems)| >= MaxPipes ==> |systems| == |old(pipeSystems)|
        invariant (|old(pipeSystems)| >= 1 && step >= 1) || step >= 2 ==> AllNonEmpty(systems)
        invariant unchanged(this)
      {
        var color := SegmentColor(colorHueBase, level, beatPulse, frameCount);
        systems, positions, directions := PipeStep(systems, positions, directions, step, speed, level, beatPulse, color, random);
        if |positions| == 0 {
          positions := positions + [Vec3(0.0, 0.0, 50.0)];
          directions := directions + [Vec3(0.0, 1.0, 0.0)];
          systems := systems + [[]];
        }
        step := step + 1;
      }
      pipeSystems, currentPositions, currentDirections := systems, positions, directions;
    }

    /**
     * One frame's analysis after the samples are queued: FFT input,
     * spectra, gain, levels and the published copy.
     */
    method AnalyzeFrame(hamming: seq<real>, magnitudes: seq<real>)
      requires Valid() && |hamming| == FftLength
      requires |magnitudes| == SpectrumLength && AllNonNegative(magnitudes)
      modifies this, fftBuffer, spectrum, smoothedSpectrum, peakSpectrum
      ensures Valid()
      ensures forall i :: 0 <= i < SpectrumLength ==>
        smoothedSpectrum[i] == Smooth(old(smoothedSpectrum[i]), magnitudes[i])
        && peakSpectrum[i] == NextPeak(old(peakSpectrum[i]), smoothedSpectrum[i])
      ensures spectrumGain == NextGain(old(spectrumGain), SeqMax(smoothedSpectrum[..]))
      ensures Snapshot() == AnalysisStep(old(Snapshot()), smoothedSpectrum[..])
      ensures spectrum[..] == smoothedSpectrum[..]
      ensures FftInput(fftBuffer[..], waveformQueue, hamming)
      ensures waveformQueue == old(waveformQueue) && frameCount == old(frameCount)
      ensures pipeSystems == old(pipeSystems) && currentPositions == old(currentPositions)
      ensures currentDirections == old(currentDirections)
    {
      FillFftBuffer(hamming);
      ghost var fft := fftBuffer[..];
      ghost var before := smoothedSpectrum[..];
      ghost var peaksBefore := peakSpectrum[..];
      UpdateSpectra(magnitudes);
      SpectraStayNonNegative(before, peaksBefore, magnitudes);
      ghost var smoothed := smoothedSpectrum[..];
      ghost var peaks := peakSpectrum[..];
      UpdateGain();
      ghost var a := Snapshot();
      UpdateLevels();
      StepInRange(a, smoothed);
      PublishSpectrum();
      assert smoothedSpectrum[..] == smoothed && peakSpectrum[..] == peaks && fftBuffer[..] == fft;
    }

    /**
     * One callback with samples to process: queue every `channels`-th sample,
     * analyse the frame and grow the pipes.
     */
    method ProcessSamples(buffer: seq<real>, numSamples: nat, channels: nat, hamming: seq<real>,
                          magnitudes: seq<real>, random: PipeRandom)
      requires Valid() && channels >= 1 && numSamples <= |buffer| && |hamming| == FftLength
      requires |magnitudes| == SpectrumLength && AllNonNegative(magnitudes)
      modifies this, fftBuffer, spectrum, smoothedSpectrum, peakSpectrum
      ensures Valid()
      ensures waveformQueue == Capped(old(waveformQueue) + EveryNth(buffer[..numSamples], channels))
      ensures FftInput(fftBuffer[..], waveformQueue, hamming)
      ensures forall i :: 0 <= i < SpectrumLength ==>
        smoothedSpectrum[i] == Smooth(old(smoothedSpectrum[i]), magnitudes[i])
        && peakSpectrum[i] == NextPeak(old(peakSpectrum[i]), smoothedSpectrum[i])
      ensures spectrumGain == NextGain(old(spectrumGain), SeqMax(smoothedSpectrum[..]))
      ensures Snapshot() == AnalysisStep(old(Snapshot()), smoothedSpectrum[..])
      ensures spectrum[..] == smoothedSpectrum[..]
      ensures frameCount == old(frameCount) + 1
      ensures 1 <= |pipeSystems| && |old(pipeSystems)| <= |pipeSystems|
      ensures |old(pipeSystems)| >= MaxPipes ==> |pipeSystems| == |old(pipeSystems)|
      ensures |old(pipeSystems)| >= 1 ==> AllNonEmpty(pipeSystems)
    {
      ghost var smoothed0, peaks0 := smoothedSpectrum[..], peakSpectrum[..];
      EnqueueSamples(buffer, numSamples, channels);
      ghost var queued := waveformQueue;
      assert smoothedSpectrum[..] == smoothed0 && peakSpectrum[..] == peaks0;
      AnalyzeFrame(hamming, magnitudes);
      ghost var published, smoothed, peaks, fft := spectrum[..], smoothedSpectrum[..], peakSpectrum[..], fftBuffer[..];
      NextFrame(random);
      assert waveformQueue == queued && spectrum[..] == published;
      assert smoothedSpectrum[..] == smoothed && peakSpectrum[..] == peaks && fftBuffer[..] == fft;
    }

    /**
     * The capture callback: nothing for an empty buffer; otherwise queue the
     * left-channel samples, analyse the frame, count it and grow the pipes.
     */
    method OnDataAvailable(bytesRecorded: nat, buffer: seq<real>, channels: nat, hamming: seq<real>,
                           magnitudes: seq<real>, random: PipeRandom)
      requires Valid() && channels >= 1 && bytesRecorded / 4 <= |buffer| && |hamming| == FftLength
      requires |magnitudes| == SpectrumLength && AllNonNegative(magnitudes)
      modifies this, fftBuffer, spectrum, smoothedSpectrum, peakSpectrum
      ensures Valid()
      ensures bytesRecorded == 0 ==>
        unchanged(this) && unchanged(fftBuffer) && unchanged(spectrum) && unchanged(smoothedSpectrum)
        && unchanged(peakSpectrum)
      ensures bytesRecorded > 0 ==>
        waveformQueue == Capped(old(waveformQueue) + EveryNth(buffer[..bytesRecorded / 4], channels))
      ensures bytesRecorded > 0 ==> FftInput(fftBuffer[..], waveformQueue, hamming)
      ensures bytesRecorded > 0 ==> forall i :: 0 <= i < SpectrumLength ==>
        smoothedSpectrum[i] == Smooth(old(smoothedSpectrum[i]), magnitudes[i])
        && peakSpectrum[i] == NextPeak(old(peakSpectrum[i]), smoothedSpectrum[i])
      ensures bytesRecorded > 0 ==> spectrumGain == NextGain(old(spectrumGain), SeqMax(smoothedSpectrum[..]))
      ensures bytesRecorded > 0 ==> Snapshot() == AnalysisStep(old(Snapshot()), smoothedSpectrum[..])
      ensures bytesRecorded > 0 ==> spectrum[..] == smoothedSpectrum[..]
      ensures bytesRecorded > 0 ==> frameCount == old(frameCount) + 1
      ensures bytesRecorded > 0 ==> 1 <= |pipeSystems| && |old(pipeSystems)| <= |pipeSystems|
      ensures bytesRecorded > 0 && |old(pipeSystems)| >= MaxPipes ==> |pipeSystems| == |old(pipeSystems)|
      ensures bytesRecorded > 0 && |old(pipeSystems)| >= 1 ==> AllNonEmpty(pipeSystems)
    {
      if bytesRecorded == 0 {
        return;
      }
      ProcessSamples(buffer, bytesRecorded / 4, channels, hamming, magnitudes, random);
    }

    /** Counts the frame and grows the pipes; the analysis state is untouched. */
    method NextFrame(random: PipeRandom)
      requires Valid()
      modifies this
      ensures Valid() && frameCount == old(frameCount) + 1
      ensures Snapshot() == old(Snapshot()) && spectrumGain == old(spectrumGain)
      ensures waveformQueue == old(waveformQueue)
      ensures 1 <= |pipeSystems| && |old(pipeSystems)| <= |pipeSystems|
      ensures |old(pipeSystems)| >= MaxPipes ==> |pipeSystems| == |old(pipeSystems)|
      ensures |old(pipeSystems)| >= 1 ==> AllNonEmpty(pipeSystems)
    {
      frameCount := frameCount + 1;
      GrowPipes(random);
    }

    lemma SpectraStayNonNegative(before: seq<real>, peaksBefore: seq<real>, magnitudes: seq<real>)
      requires Buffers() && |before| == |peaksBefore| == |magnitudes| == SpectrumLength
      requires AllNonNegative(before) && AllNonNegative(peaksBefore) && AllNonNegative(magnitudes)
      requires forall i :: 0 <= i < SpectrumLength ==>
        smoothedSpectrum[i] == Smooth(before[i], magnitudes[i])
        && peakSpectrum[i] == NextPeak(peaksBefore[i], smoothedSpectrum[i])
      ensures AllNonNegative(smoothedSpectrum[..]) && AllNonNegative(peakSpectrum[..])
    {
    }
  }
}
