/**
 * The terrain renderer (`DrawAudioTerrain`): a 64 x 64 height grid whose
 * front row is rewritten from the log-scaled spectrum every frame, smoothed
 * in place and scrolled back with a 0.992 decay, plus the spiky skyline of
 * `DrawSkyboxMountains` with its deterministic hash noise.
 */
module AudioTerrain {
  import opened Numerics
  import opened Geometry
  import opened RealArith

  const Rows: nat := 64
  const Cols: nat := 64

  /** The decay applied to each row as it scrolls back. */
  const Decay: real := 0.992

  /** One bin's `log10(1 + v * 9)` for `v = x * spectrumGain`, with `log10` as a parameter. */
  function LogBin(x: real, spectrumGain: real, log10: real -> real): real
  {
    log10(1.0 + (x * spectrumGain) * 9.0)
  }

  /** The log-scaled copy of the spectrum, bin by bin. */
  function Transformed(spectrum: seq<real>, spectrumGain: real, log10: real -> real): (r: seq<real>)
    ensures |r| == |spectrum|
  {
    seq(|spectrum|, i requires 0 <= i < |spectrum| => LogBin(spectrum[i], spectrumGain, log10))
  }

  /** The transform loop over the local copy, bin by bin. */
  method TransformSpectrum(spectrum: seq<real>, spectrumGain: real, log10: real -> real) returns (local: seq<real>)
    ensures local == Transformed(spectrum, spectrumGain, log10)
  {
    local := spectrum;
    var i := 0;
    while i < |local|
      invariant 0 <= i <= |local| == |spectrum|
      invariant forall k :: 0 <= k < i ==> local[k] == Transformed(spectrum, spectrumGain, log10)[k]
      invariant forall k :: i <= k < |local| ==> local[k] == spectrum[k]
    {
      var v := local[i] * spectrumGain;
      assert local[i] == spectrum[i];
      assert 1.0 + v * 9.0 == 1.0 + (spectrum[i] * spectrumGain) * 9.0;
      assert LogBin(spectrum[i], spectrumGain, log10) == log10(1.0 + v * 9.0);
      local := local[i := log10(1.0 + v * 9.0)];
      i := i + 1;
    }
  }

  /** LINQ `Average()`: it throws on an empty array, so the spectrum is never empty here. */
  function Mean(s: seq<real>): real
    requires |s| >= 1
  {
    Sum(s) / |s| as real
  }

  /** `0.6 + level * 1.8 + beatPulse * 2.2`. */
  function HeightScale(level: real, beatPulse: real): (k: real)
    ensures 0.0 <= level && 0.0 <= beatPulse ==> 0.6 <= k
  {
    0.6 + level * 1.8 + beatPulse * 2.2
  }

  /** `f * f * (len - 1)` for `f = c / 63`: the unclamped bin position of column `c`. */
  function ColumnPosition(c: nat, len: nat): (x: real)
    requires c < Cols && len >= 1
    ensures 0.0 <= x
    ensures c == 0 ==> x == 0.0
    ensures c == Cols - 1 ==> x == (len - 1) as real
  {
    var f := c as real / (Cols - 1) as real;
    NonNegProduct(f, f);
    NonNegProduct(f * f, (len - 1) as real);
    f * f * (len - 1) as real
  }

  /**
   * The bin column `c` reads: `(int)(f * f * (len - 1))` clamped to
   * [0, len - 1]. The first column reads bin 0 and the last the top bin.
   */
  function ColumnIndex(c: nat, len: nat): (idx: int)
    requires c < Cols && len >= 1
    ensures 0 <= idx <= len - 1
    ensures c == 0 ==> idx == 0
    ensures c == Cols - 1 ==> idx == len - 1
  {
    var raw := Trunc(ColumnPosition(c, len));
    if raw < 0 then 0 else if raw > len - 1 then len - 1 else raw
  }

  /** Columns further right read bins at least as high. */
  lemma ColumnIndexMonotone(c1: nat, c2: nat, len: nat)
    requires c1 <= c2 < Cols && len >= 1
    ensures ColumnIndex(c1, len) <= ColumnIndex(c2, len)
  {
    ColumnPositionMonotone(c1, c2, len);
    TruncMonotone(ColumnPosition(c1, len), ColumnPosition(c2, len));
  }

  lemma ColumnPositionMonotone(c1: nat, c2: nat, len: nat)
    requires c1 <= c2 < Cols && len >= 1
    ensures ColumnPosition(c1, len) <= ColumnPosition(c2, len)
  {
    var f1 := c1 as real / (Cols - 1) as real;
    var f2 := c2 as real / (Cols - 1) as real;
    assert 0.0 <= f1 <= f2;
    SquareMonotone(f1, f2);
    ScaleMonotone(f1 * f1, f2 * f2, (len - 1) as real);
  }

  lemma TruncMonotone(x1: real, x2: real)
    requires 0.0 <= x1 <= x2
    ensures Trunc(x1) <= Trunc(x2)
  {
  }

  lemma SquareMonotone(a: real, b: real)
    requires 0.0 <= a <= b
    ensures a * a <= b * b
  {
    NonNegProduct(b - a, a);
    NonNegProduct(b - a, b);
  }

  lemma ScaleMonotone(a: real, b: real, k: real)
    requires a <= b && 0.0 <= k
    ensures a * k <= b * k
  {
    NonNegProduct(b - a, k);
  }

  /** The front row as written: column `c` gets its bin scaled by the height scale. */
  function ColumnHeights(local: seq<real>, heightScale: real): (row: seq<real>)
    requires |local| >= 1
    ensures |row| == Cols
  {
    seq(Cols, c requires 0 <= c < Cols => local[ColumnIndex(c, |local|)] * heightScale)
  }

  /**
   * The smoothing pass over columns 1 .. n - 1, left to right, in place:
   * each column becomes `(left + 2 * self + right) / 4`, where `left` has
   * already been smoothed and `self` and `right` have not.
   */
  function SmoothedUpTo(row: seq<real>, n: nat): (s: seq<real>)
    requires 1 <= n <= |row| - 1
    ensures |s| == |row|
    decreases n
  {
    if n == 1 then row
    else
      var p := SmoothedUpTo(row, n - 1);
      p[n - 1 := (p[n - 2] + p[n - 1] * 2.0 + p[n]) / 4.0]
  }

  /** The whole pass: columns 1 .. |row| - 2. */
  function Smoothed(row: seq<real>): (s: seq<real>)
    requires |row| >= 2
    ensures |s| == |row|
  {
    SmoothedUpTo(row, |row| - 1)
  }

  /** After `n - 1` steps the first column is untouched, columns from `n` on are untouched and the rest obey the recurrence. */
  lemma {:induction false} SmoothedUpToShape(row: seq<real>, n: nat)
    requires 1 <= n <= |row| - 1
    ensures var s := SmoothedUpTo(row, n);
      s[0] == row[0]
      && (forall k :: n <= k < |row| ==> s[k] == row[k])
      && (forall k :: 1 <= k < n ==> s[k] == (s[k - 1] + row[k] * 2.0 + row[k + 1]) / 4.0)
    decreases n
  {
    if n > 1 {
      SmoothedUpToShape(row, n - 1);
      var p := SmoothedUpTo(row, n - 1);
      var s := SmoothedUpTo(row, n);
      assert s == p[n - 1 := (p[n - 2] + p[n - 1] * 2.0 + p[n]) / 4.0];
      forall k | 1 <= k < n ensures s[k] == (s[k - 1] + row[k] * 2.0 + row[k + 1]) / 4.0 {
        if k < n - 1 {
          assert s[k] == p[k] && s[k - 1] == p[k - 1];
        }
      }
    }
  }

  /**
   * The smoothed row keeps both end columns and satisfies, for every inner
   * column, `s[c] = (s[c - 1] + 2 row[c] + row[c + 1]) / 4`: the smoothed
   * left neighbour, the original column and the original right neighbour.
   */
  lemma SmoothedRecurrence(row: seq<real>)
    requires |row| >= 2
    ensures var s := Smoothed(row);
      s[0] == row[0] && s[|row| - 1] == row[|row| - 1]
      && forall c :: 1 <= c <= |row| - 2 ==> s[c] == (s[c - 1] + row[c] * 2.0 + row[c + 1]) / 4.0
  {
    SmoothedUpToShape(row, |row| - 1);
  }

  /** Smoothing never leaves the range of the row: every value stays within [lo, hi]. */
  lemma SmoothedBounds(row: seq<real>, lo: real, hi: real)
    requires |row| >= 2
    requires forall k :: 0 <= k < |row| ==> lo <= row[k] <= hi
    ensures forall k :: 0 <= k < |row| ==> lo <= Smoothed(row)[k] <= hi
  {
    SmoothedRecurrence(row);
    forall k | 0 <= k < |row| ensures lo <= Smoothed(row)[k] <= hi {
      SmoothedPrefixBounds(row, lo, hi, k);
    }
  }

  lemma {:induction false} SmoothedPrefixBounds(row: seq<real>, lo: real, hi: real, k: nat)
    requires |row| >= 2 && k < |row|
    requires forall j :: 0 <= j < |row| ==> lo <= row[j] <= hi
    ensures lo <= Smoothed(row)[k] <= hi
    decreases k
  {
    SmoothedRecurrence(row);
    if 1 <= k <= |row| - 2 {
      SmoothedPrefixBounds(row, lo, hi, k - 1);
    }
  }

  /** A row after one scroll step: every height times the decay. */
  function Decayed(row: seq<real>): (d: seq<real>)
    ensures |d| == |row|
  {
    seq(|row|, c requires 0 <= c < |row| => row[c] * Decay)
  }

  /** Row `r` of a grid as a sequence. */
  function RowOf(h: array2<real>, r: nat): (row: seq<real>)
    requires r < h.Length0
    reads h
    ensures |row| == h.Length1
  {
    seq(h.Length1, c requires 0 <= c < h.Length1 reads h => h[r, c])
  }

  /**
   * `int` arithmetic on 32 bits: the two's-complement value of the low 32
   * bits of `x`.
   */
  function WrapInt32(x: int): (w: int)
    ensures -0x8000_0000 <= w < 0x8000_0000
    ensures (x - w) % 0x1_0000_0000 == 0
  {
    var u := x % 0x1_0000_0000;
    if u >= 0x8000_0000 then u - 0x1_0000_0000 else u
  }

  /** `w & 0x7fffffff` on a 32-bit value: a negative value loses its sign bit. */
  function MaskLow31(w: int): (n: int)
    requires -0x8000_0000 <= w < 0x8000_0000
    ensures 0 <= n < 0x8000_0000
    ensures 0 <= w ==> n == w
  {
    if w < 0 then w + 0x8000_0000 else w
  }

  /** The noise hash `(i * 1103515245 + 12345) & 0x7fffffff` in 32-bit `int` arithmetic. */
  function NoiseHash(i: int): int
  {
    MaskLow31(WrapInt32(i * 1103515245 + 12345))
  }

  /** The hash is the low 31 bits of the unbounded value, so it is never negative. */
  lemma NoiseHashLowBits(i: int)
    ensures NoiseHash(i) == (i * 1103515245 + 12345) % 0x8000_0000
    ensures 0 <= NoiseHash(i) < 0x8000_0000
  {
    var x := i * 1103515245 + 12345;
    var a := x / 0x1_0000_0000;
    var u := x % 0x1_0000_0000;
    assert x == a * 0x1_0000_0000 + u;
    if u >= 0x8000_0000 {
      assert NoiseHash(i) == u - 0x8000_0000;
      Low31(2 * a + 1, u - 0x8000_0000);
    } else {
      assert NoiseHash(i) == u;
      Low31(2 * a, u);
    }
  }

  /** `(k * 2^31 + v) % 2^31 == v` for `v` in [0, 2^31). */
  lemma Low31(k: int, v: int)
    requires 0 <= v < 0x8000_0000
    ensures (k * 0x8000_0000 + v) % 0x8000_0000 == v
  {
  }

  /** Without the mask the product overflows to a negative hash already at `i = 2`. */
  lemma MaskNeededAtTwo()
    ensures WrapInt32(2 * 1103515245 + 12345) < 0
    ensures NoiseHash(2) == WrapInt32(2 * 1103515245 + 12345) + 0x8000_0000
  {
  }

  /** `r1 = (n % 1000) / 1000`: in [0, 1) because the hash is never negative. */
  function NoiseR1(i: int): (r1: real)
    ensures 0.0 <= r1 < 1.0
  {
    NoiseHashLowBits(i);
    (NoiseHash(i) % 1000) as real / 1000.0
  }

  /** `r2 = ((n / 1000) % 1000) / 1000`: in [0, 1) for the same reason. */
  function NoiseR2(i: int): (r2: real)
    ensures 0.0 <= r2 < 1.0
  {
    NoiseHashLowBits(i);
    ((NoiseHash(i) / 1000) % 1000) as real / 1000.0
  }

  /**
   * `SpikeNoise(i, level)`: `pow(r1, 0.35)` plus a sine wobble plus the audio
   * term, clamped to [0, 1.4]; `pow` and `sin` are parameters.
   */
  function SpikeNoise(i: int, level: real, beatPulse: real, treePhase: real,
                      pow: (real, real) -> real, sin: real -> real): (spike: real)
    ensures 0.0 <= spike <= 1.4
  {
    var baseSpike := pow(NoiseR1(i), 0.35);
    var wobble := sin((i as real + treePhase * 0.15) * 0.4) * 0.2 + (NoiseR2(i) - 0.5) * 0.1;
    var audio := level * 0.5 + beatPulse * 0.8;
    var spike := baseSpike + wobble + audio;
    var spike1 := if spike < 0.0 then 0.0 else spike;
    if spike1 > 1.4 then 1.4 else spike1
  }

  /** The skyline amplitude `height * 0.18 + height * (0.05 + level * 0.12 + beatPulse * 0.18)`. */
  function Amplitude(height: int, level: real, beatPulse: real): real
  {
    height as real * 0.18 + height as real * (0.05 + level * 0.12 + beatPulse * 0.18)
  }

  /** One skyline height `baseline - spike * amp`, never below the baseline (`y > baseline` is pulled back). */
  function SkylineY(baseline: real, spike: real, amp: real): (y: real)
    requires 0.0 <= spike <= 1.4
    ensures y <= baseline
    ensures 0.0 <= amp ==> baseline - 1.4 * amp <= y && y == baseline - spike * amp
  {
    var y := baseline - spike * amp;
    if 0.0 <= amp then
      NonNegProduct(spike, amp);
      NonNegProduct(1.4 - spike, amp);
      y
    else if y > baseline then baseline else y
  }

  /** Skyline point `i`: `x = i / 63 * width` (0 for the first) and the clamped height. */
  function SkylinePoint(i: nat, width: int, height: int, level: real, beatPulse: real, treePhase: real,
                        pow: (real, real) -> real, sin: real -> real): (p: Vec2)
    ensures p.y <= height as real * 0.38
  {
    Vec2(if i == 0 then 0.0 else (i as real / 63.0) * width as real,
         SkylineY(height as real * 0.38, SpikeNoise(i, level, beatPulse, treePhase, pow, sin),
                  Amplitude(height, level, beatPulse)))
  }

  /** The 64 skyline points. */
  function Skyline(width: int, height: int, level: real, beatPulse: real, treePhase: real,
                   pow: (real, real) -> real, sin: real -> real): (path: seq<Vec2>)
    ensures |path| == 64
  {
    seq(64, i requires 0 <= i < 64 => SkylinePoint(i, width, height, level, beatPulse, treePhase, pow, sin))
  }

  /**
   * No skyline point lies below the baseline `0.38 * height`; the points run
   * from x = 0 to x = width.
   */
  lemma SkylineAboveBaseline(width: int, height: int, level: real, beatPulse: real, treePhase: real,
                             pow: (real, real) -> real, sin: real -> real)
    ensures var path := Skyline(width, height, level, beatPulse, treePhase, pow, sin);
      (forall i :: 0 <= i < 64 ==> path[i].y <= height as real * 0.38)
      && path[0].x == 0.0 && path[63].x == width as real
  {
    var path := Skyline(width, height, level, beatPulse, treePhase, pow, sin);
    forall i | 0 <= i < 64 ensures path[i].y <= height as real * 0.38 {
      assert path[i] == SkylinePoint(i, width, height, level, beatPulse, treePhase, pow, sin);
    }
    assert path[63] == SkylinePoint(63, width, height, level, beatPulse, treePhase, pow, sin);
  }

  /** The point loop of `DrawSkyboxMountains`. */
  method SkyboxMountains(width: int, height: int, level: real, beatPulse: real, treePhase: real,
                         pow: (real, real) -> real, sin: real -> real) returns (path: seq<Vec2>)
    ensures path == Skyline(width, height, level, beatPulse, treePhase, pow, sin)
  {
    var baseline := height as real * 0.38;
    var amp := Amplitude(height, level, beatPulse);
    var y0 := SkylineY(baseline, SpikeNoise(0, level, beatPulse, treePhase, pow, sin), amp);
    path := [Vec2(0.0, y0)];
    var i := 1;
    while i < 64
      invariant 1 <= i <= 64 && |path| == i
      invariant forall k :: 0 <= k < i ==> path[k] == SkylinePoint(k, width, height, level, beatPulse, treePhase, pow, sin)
    {
      var t := i as real / 63.0;
      var spike := SpikeNoise(i, level, beatPulse, treePhase, pow, sin);
      path := path + [Vec2(t * width as real, SkylineY(baseline, spike, amp))];
      i := i + 1;
    }
    assert forall k :: 0 <= k < 64 ==> path[k] == Skyline(width, height, level, beatPulse, treePhase, pow, sin)[k];
  }

  /** The form's terrain grid (`terrainHeights`, rows by columns). */
  class Terrain {
    const terrainHeights: array2<real>

    predicate Valid()
      reads this
    {
      terrainHeights.Length0 == Rows && terrainHeights.Length1 == Cols
    }

    constructor ()
      ensures Valid() && fresh(terrainHeights)
      ensures forall r, c :: 0 <= r < Rows && 0 <= c < Cols ==> terrainHeights[r, c] == 0.0
    {
      terrainHeights := new real[Rows, Cols]((r, c) => 0.0);
    }

    /**
     * One `DrawAudioTerrain` frame: log-scale the spectrum, write the front
     * row, smooth it, scroll every row back one step with the decay, and
     * compute the skyline.
     */
    method DrawAudioTerrain(width: int, height: int, spectrum: seq<real>, spectrumGain: real, beatPulse: real,
                            treePhase: real, log10: real -> real, pow: (real, real) -> real, sin: real -> real)
      returns (skyline: seq<Vec2>)
      requires Valid() && |spectrum| >= 1
      modifies terrainHeights
      ensures var local := Transformed(spectrum, spectrumGain, log10);
        RowOf(terrainHeights, 0) == Smoothed(ColumnHeights(local, HeightScale(Mean(local), beatPulse)))
        && skyline == Skyline(width, height, Mean(local), beatPulse, treePhase, pow, sin)
      ensures RowOf(terrainHeights, 1) == Decayed(RowOf(terrainHeights, 0))
      ensures forall r :: 2 <= r < Rows ==> RowOf(terrainHeights, r) == Decayed(old(RowOf(terrainHeights, r - 1)))
    {
      var local := TransformSpectrum(spectrum, spectrumGain, log10);
      var level := Mean(local);
      WriteColumns(local, HeightScale(level, beatPulse));
      SmoothFrontRow();
      label smoothed:
      assert forall r :: 1 <= r < Rows ==> old@smoothed(RowOf(terrainHeights, r)) == old(RowOf(terrainHeights, r));
      Scroll();
      skyline := SkyboxMountains(width, height, level, beatPulse, treePhase, pow, sin);
    }

    /** The column loop writing the front row; the other rows are untouched. */
    method WriteColumns(local: seq<real>, heightScale: real)
      requires Valid() && |local| >= 1
      modifies terrainHeights
      ensures RowOf(terrainHeights, 0) == ColumnHeights(local, heightScale)
      ensures forall r :: 1 <= r < Rows ==> RowOf(terrainHeights, r) == old(RowOf(terrainHeights, r))
    {
      var c := 0;
      while c < Cols
        invariant 0 <= c <= Cols
        invariant forall k :: 0 <= k < c ==> terrainHeights[0, k] == ColumnHeights(local, heightScale)[k]
        invariant forall r, k :: 1 <= r < Rows && 0 <= k < Cols ==> terrainHeights[r, k] == old(terrainHeights[r, k])
      {
        var idx := ColumnIndex(c, |local|);
        terrainHeights[0, c] := local[idx] * heightScale;
        c := c + 1;
      }
      assert forall k :: 0 <= k < Cols ==> RowOf(terrainHeights, 0)[k] == ColumnHeights(local, heightScale)[k];
      OtherRowsKept();
    }

    /** The in-place smoothing loop over columns 1 .. 62 of the front row. */
    method SmoothFrontRow()
      requires Valid()
      modifies terrainHeights
      ensures RowOf(terrainHeights, 0) == Smoothed(old(RowOf(terrainHeights, 0)))
      ensures forall r :: 1 <= r < Rows ==> RowOf(terrainHeights, r) == old(RowOf(terrainHeights, r))
    {
      ghost var row := RowOf(terrainHeights, 0);
      var c := 1;
      while c < Cols - 1
        invariant 1 <= c <= Cols - 1
        invariant RowOf(terrainHeights, 0) == SmoothedUpTo(row, c)
        invariant forall r, k :: 1 <= r < Rows && 0 <= k < Cols ==> terrainHeights[r, k] == old(terrainHeights[r, k])
      {
        ghost var p := RowOf(terrainHeights, 0);
        terrainHeights[0, c] := (terrainHeights[0, c - 1] + terrainHeights[0, c] * 2.0 + terrainHeights[0, c + 1]) / 4.0;
        assert RowOf(terrainHeights, 0) == p[c := (p[c - 1] + p[c] * 2.0 + p[c + 1]) / 4.0];
        c := c + 1;
      }
      OtherRowsKept();
    }

    /** Rows behind the front one whose every height is unchanged are unchanged as rows. */
    twostate lemma OtherRowsKept()
      requires Valid() && old(Valid())
      requires forall r, k :: 1 <= r < Rows && 0 <= k < Cols ==> terrainHeights[r, k] == old(terrainHeights[r, k])
      ensures forall r :: 1 <= r < Rows ==> RowOf(terrainHeights, r) == old(RowOf(terrainHeights, r))
    {
      forall r | 1 <= r < Rows
        ensures RowOf(terrainHeights, r) == old(RowOf(terrainHeights, r))
      {
        assert forall k :: 0 <= k < Cols ==> RowOf(terrainHeights, r)[k] == old(RowOf(terrainHeights, r))[k];
      }
    }

    /**
     * The scroll, from the bottom row up: every row below the front one
     * becomes the old row above it, decayed; the front row stays.
     */
    method Scroll()
      requires Valid()
      modifies terrainHeights
      ensures RowOf(terrainHeights, 0) == old(RowOf(terrainHeights, 0))
      ensures forall r :: 1 <= r < Rows ==> RowOf(terrainHeights, r) == Decayed(old(RowOf(terrainHeights, r - 1)))
    {
      var r := Rows - 1;
      while r > 0
        invariant 0 <= r < Rows
        invariant forall i :: 0 <= i <= r ==> RowOf(terrainHeights, i) == old(RowOf(terrainHeights, i))
        invariant forall i :: r < i < Rows ==> RowOf(terrainHeights, i) == Decayed(old(RowOf(terrainHeights, i - 1)))
      {
        CopyRowDown(r);
        r := r - 1;
      }
    }

    /** The inner column loop of the scroll: row `r` becomes row `r - 1`, decayed. */
    method CopyRowDown(r: nat)
      requires Valid() && 1 <= r < Rows
      modifies terrainHeights
      ensures RowOf(terrainHeights, r) == Decayed(old(RowOf(terrainHeights, r - 1)))
      ensures forall i :: 0 <= i < Rows && i != r ==> RowOf(terrainHeights, i) == old(RowOf(terrainHeights, i))
    {
      var c := 0;
      while c < Cols
        invariant 0 <= c <= Cols
        invariant forall k :: 0 <= k < c ==> terrainHeights[r, k] == old(terrainHeights[r - 1, k]) * Decay
        invariant forall i, k :: 0 <= i < Rows && 0 <= k < Cols && (i != r || c <= k) ==> terrainHeights[i, k] == old(terrainHeights[i, k])
      {
        terrainHeights[r, c] := terrainHeights[r - 1, c] * Decay;
        c := c + 1;
      }
      assert forall k :: 0 <= k < Cols ==> RowOf(terrainHeights, r)[k] == Decayed(old(RowOf(terrainHeights, r - 1)))[k];
      forall i | 0 <= i < Rows && i != r
        ensures RowOf(terrainHeights, i) == old(RowOf(terrainHeights, i))
      {
        assert forall k :: 0 <= k < Cols ==> RowOf(terrainHeights, i)[k] == old(RowOf(terrainHeights, i))[k];
      }
    }
  }
}
