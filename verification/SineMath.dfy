/**
 The single-sine helpers of `src/utils/math.ts`: the value of a displayed
 sine wave and the pixel points that draw one period of it.
 */
module SineMath {
  import opened Numerics
  import opened Wave

  /** Amplitude of the tallest wave the canvas must fit. */
  const MaxAmplitude: real := 2.0

  datatype Point = Point(x: real, y: real)

  /** `amplitude * sin(x + phase)` with the phase in degrees; the frequency is not used. */
  function CalculateSineValue(tr: Trig, x: real, params: WaveParams): (r: real)
    ensures Valid(tr) ==> Abs(r) <= Abs(params.amplitude)
    ensures params.amplitude == 0.0 ==> r == 0.0
  {
    SineTermBounded(tr, params.amplitude, x + Radians(tr, params.phase));
    params.amplitude * tr.sin(x + Radians(tr, params.phase))
  }

  lemma SineTermBounded(tr: Trig, a: real, angle: real)
    ensures Valid(tr) ==> Abs(a * tr.sin(angle)) <= Abs(a)
  {
    if Valid(tr) {
      ScaledBound(a, tr.sin(angle));
    }
  }

  /** Pixels per unit of amplitude: 80% of the half height spread over amplitude 2. */
  function Scale(height: real): real {
    ((height / 2.0) * 0.8) / MaxAmplitude
  }

  /** The angle shown at column `pixelX`: one full period across `width`. */
  function MathX(tr: Trig, width: real, pixelX: real): real
    requires width != 0.0
  {
    (pixelX / width) * 2.0 * tr.pi
  }

  /** Canvas row of the wave at column `pixelX` (one period across `width`). */
  function PixelY(tr: Trig, width: real, height: real, params: WaveParams, pixelX: real): (y: real)
    requires width != 0.0
    ensures params.amplitude == 0.0 ==> y == height / 2.0
    ensures Valid(tr) && height >= 0.0 && Abs(params.amplitude) <= MaxAmplitude ==>
      0.1 * height <= y <= 0.9 * height
    ensures var v := CalculateSineValue(tr, MathX(tr, width, pixelX), params);
      && (v == MaxAmplitude ==> y == 0.1 * height)
      && (v == -MaxAmplitude ==> y == 0.9 * height)
      && (height > 0.0 && v > 0.0 ==> y < height / 2.0)
      && (height > 0.0 && v < 0.0 ==> y > height / 2.0)
  {
    var v := CalculateSineValue(tr, MathX(tr, width, pixelX), params);
    RowInBandWhenFits(height, v);
    RowIsFlipped(height, v);
    height / 2.0 - v * Scale(height)
  }

  /**
   The row axis points down: positive values are drawn above the centre row,
   negative ones below it, and `+-2` land on the edges of the band.
   */
  lemma RowIsFlipped(height: real, v: real)
    ensures v == MaxAmplitude ==> height / 2.0 - v * Scale(height) == 0.1 * height
    ensures v == -MaxAmplitude ==> height / 2.0 - v * Scale(height) == 0.9 * height
    ensures height > 0.0 && v > 0.0 ==> height / 2.0 - v * Scale(height) < height / 2.0
    ensures height > 0.0 && v < 0.0 ==> height / 2.0 - v * Scale(height) > height / 2.0
  {
    var sc := Scale(height);
    assert sc == 0.2 * height;
    if height > 0.0 && v != 0.0 {
      var vs := v * sc;
      if v > 0.0 {
        assert vs > 0.0;
      } else {
        assert vs < 0.0;
      }
    }
  }

  /** `RowInBand` as an implication, for use inside a function body. */
  lemma RowInBandWhenFits(height: real, v: real)
    ensures height >= 0.0 && Abs(v) <= MaxAmplitude ==> 0.1 * height <= height / 2.0 - v * Scale(height) <= 0.9 * height
  {
    if height >= 0.0 && Abs(v) <= MaxAmplitude {
      RowInBand(height, v);
    }
  }

  /** The number of columns `0, r, 2r, ...` not beyond `width`. */
  function PointCount(width: real, resolution: real): nat
    requires resolution > 0.0
  {
    if width >= 0.0 then NonNegFloor(width / resolution) + 1 else 0
  }

  function NonNegFloor(x: real): (n: nat)
    requires x >= 0.0
    ensures n as real <= x < n as real + 1.0
  {
    x.Floor
  }

  /**
   `generateSinePoints`: columns `0, r, 2r, ...` up to `width` inclusive, each
   paired with the canvas row of the wave there.
   */
  method GenerateSinePoints(tr: Trig, width: real, height: real, params: WaveParams, resolution: real)
    returns (points: seq<Point>)
    requires resolution > 0.0 && width != 0.0
    ensures |points| == PointCount(width, resolution)
    ensures forall i :: 0 <= i < |points| ==> points[i].x == i as real * resolution && points[i].x <= width
    ensures forall i :: 0 <= i < |points| ==> points[i].y == PixelY(tr, width, height, params, points[i].x)
  {
    points := [];
    var pixelX := 0.0;
    ghost var count := PointCount(width, resolution);
    while pixelX <= width
      invariant pixelX == |points| as real * resolution
      invariant |points| <= count
      invariant pixelX <= width ==> |points| < count
      invariant forall i :: 0 <= i < |points| ==> points[i].x == i as real * resolution && points[i].x <= width
      invariant forall i :: 0 <= i < |points| ==> points[i].y == PixelY(tr, width, height, params, points[i].x)
      decreases count - |points|
    {
      points := points + [Point(pixelX, PixelY(tr, width, height, params, pixelX))];
      pixelX := pixelX + resolution;
      StepWithinWidth(|points|, resolution, width);
    }
    StepWithinWidth(|points|, resolution, width);
  }

  /** Column `i * r` lies within `width` exactly when `i` is below the point count. */
  lemma StepWithinWidth(i: nat, r: real, width: real)
    requires r > 0.0
    ensures i as real * r <= width <==> i < PointCount(width, r)
  {
    var q := width / r;
    var qr := q * r;
    assert qr == width;
    MulPreservesOrder(i as real, q, r);
  }

  /** Multiplying by a positive factor preserves order. */
  lemma MulPreservesOrder(a: real, b: real, r: real)
    requires r > 0.0
    ensures a <= b <==> a * r <= b * r
  {
    var d := (b - a) * r;
    assert d == b * r - a * r;
    if a <= b {
      assert d >= 0.0;
    } else {
      assert d < 0.0;
    }
  }

  lemma RowInBand(height: real, v: real)
    requires height >= 0.0 && -MaxAmplitude <= v <= MaxAmplitude
    ensures 0.1 * height <= height / 2.0 - v * Scale(height) <= 0.9 * height
  {
    var s := Scale(height);
    assert s == 0.2 * height;
    var vs := v * s;
    if s > 0.0 {
      ProductBetween(v, MaxAmplitude, s, vs);
    } else {
      assert vs == 0.0;
    }
    assert -0.4 * height <= vs <= 0.4 * height;
  }

  /** `|v| <= m` and `s > 0` give `|v s| <= m s`. */
  lemma ProductBetween(v: real, m: real, s: real, vs: real)
    requires s > 0.0 && -m <= v <= m && vs == v * s
    ensures -(m * s) <= vs <= m * s
  {
    var d := (m - v) * s;
    var e := (v + m) * s;
    assert d >= 0.0;
    assert e >= 0.0;
    assert d == m * s - vs;
    assert e == vs + m * s;
  }

  /** The value ignores the frequency field. */
  lemma FrequencyIsIgnored(tr: Trig, x: real, p: WaveParams, frequency: real)
    ensures CalculateSineValue(tr, x, p.(frequency := frequency)) == CalculateSineValue(tr, x, p)
  {
  }

  /** Amplitude 2 at a quarter period gives 2. */
  lemma PeakAtQuarterPeriod(tr: Trig, frequency: real)
    requires Valid(tr)
    ensures CalculateSineValue(tr, tr.pi / 2.0, WaveParams(2.0, frequency, 0.0)) == 2.0
  {
    assert tr.pi / 2.0 + Radians(tr, 0.0) == tr.pi / 2.0;
  }

  /** A 90-degree phase starts the unit wave at its peak. */
  lemma QuarterPhaseStartsAtPeak(tr: Trig, frequency: real)
    requires Valid(tr)
    ensures CalculateSineValue(tr, 0.0, WaveParams(1.0, frequency, 90.0)) == 1.0
  {
    assert 0.0 + Radians(tr, 90.0) == tr.pi / 2.0;
  }
}
