/**
 The spectral analyser of `src/utils/fft.ts`: a direct discrete Fourier
 transform scaled by 1/N, truncated to the first six bins, and the sampler
 that turns a hand-drawn canvas into one sample per pixel column.
 */
module Fft {
  import opened Numerics
  import opened Wave

  /** Number of bins the analyser reports (k = 0 .. 5). */
  const MaxComponents: nat := 6

  /** Brightness a column starts from; only strictly darker pixels are taken. */
  const Background: real := 255.0

  /** The transient complex value of one bin. */
  datatype Complex = Complex(re: real, im: real)

  type Byte = b: int | 0 <= b < 256

  /*---------------------------------------------------------------------------
    The transform
   ---------------------------------------------------------------------------*/

  /** The angle `-2 pi k n / N` of sample `n` in bin `k`. */
  function Angle(tr: Trig, k: nat, n: nat, count: nat): real
    requires count > 0
  {
    (-2.0 * tr.pi * k as real * n as real) / count as real
  }

  /** `sum_{n < m} s[n] cos(angle(k, n))`, the unscaled real part over the first `m` samples. */
  function CosSum(tr: Trig, s: seq<real>, k: nat, m: nat): real
    requires m <= |s|
  {
    if m == 0 then 0.0
    else CosSum(tr, s, k, m - 1) + s[m - 1] * tr.cos(Angle(tr, k, m - 1, |s|))
  }

  /** `sum_{n < m} s[n] sin(angle(k, n))`, the unscaled imaginary part over the first `m` samples. */
  function SinSum(tr: Trig, s: seq<real>, k: nat, m: nat): real
    requires m <= |s|
  {
    if m == 0 then 0.0
    else SinSum(tr, s, k, m - 1) + s[m - 1] * tr.sin(Angle(tr, k, m - 1, |s|))
  }

  /** Bin `k` of the 1/N-scaled transform: `X[k] = (1/N) sum_n s[n] e^(-2 pi i k n / N)`. */
  function Bin(tr: Trig, s: seq<real>, k: nat): Complex
    requires |s| > 0
  {
    Complex(CosSum(tr, s, k, |s|) / |s| as real, SinSum(tr, s, k, |s|) / |s| as real)
  }

  /** The squared magnitude `re^2 + im^2` of a complex value. */
  function Power(c: Complex): (p: real)
    ensures p >= 0.0
  {
    SquareNonNegative(c.re);
    SquareNonNegative(c.im);
    c.re * c.re + c.im * c.im
  }

  lemma SquareNonNegative(x: real)
    ensures x * x >= 0.0
  {
    if x < 0.0 {
      assert x * x == (-x) * (-x);
    }
  }

  /** The whole transform, all N bins, by the two nested loops of the source. */
  method ComputeDFT(tr: Trig, samples: seq<real>) returns (result: seq<Complex>)
    ensures |result| == |samples|
    ensures forall k :: 0 <= k < |result| ==> result[k] == Bin(tr, samples, k)
  {
    var count := |samples|;
    result := [];
    var k := 0;
    while k < count
      invariant 0 <= k <= count
      invariant |result| == k
      invariant forall j :: 0 <= j < k ==> result[j] == Bin(tr, samples, j)
    {
      var re := 0.0;
      var imag := 0.0;
      var n := 0;
      while n < count
        invariant 0 <= n <= count
        invariant re == CosSum(tr, samples, k, n)
        invariant imag == SinSum(tr, samples, k, n)
      {
        var angle := Angle(tr, k, n, count);
        re := re + samples[n] * tr.cos(angle);
        imag := imag + samples[n] * tr.sin(angle);
        n := n + 1;
      }
      result := result + [Complex(re / count as real, imag / count as real)];
      k := k + 1;
    }
  }

  /** `Math.sqrt(re^2 + im^2)`: under the axioms, a non-negative square root of the power. */
  function ComplexMagnitude(tr: Trig, c: Complex): (r: real)
    ensures Valid(tr) ==> r >= 0.0 && r * r == Power(c)
  {
    tr.sqrt(Power(c))
  }

  /** `atan2(im, re)` converted to degrees: under the axioms it lies in [-180, 180]. */
  function ComplexPhase(tr: Trig, c: Complex): (r: real)
    ensures Valid(tr) ==> -180.0 <= r <= 180.0
  {
    Atan2Degrees(tr, c.im, c.re);
    (tr.atan2(c.im, c.re) * 180.0) / tr.pi
  }

  lemma Atan2Degrees(tr: Trig, y: real, x: real)
    ensures Valid(tr) ==> -180.0 <= (tr.atan2(y, x) * 180.0) / tr.pi <= 180.0
  {
    if Valid(tr) {
      DegreesInRange(tr.pi, tr.atan2(y, x));
    }
  }

  lemma DegreesInRange(pi: real, rad: real)
    requires pi > 0.0 && -pi <= rad <= pi
    ensures -180.0 <= (rad * 180.0) / pi <= 180.0
  {
    var d := (rad * 180.0) / pi;
    var scaled := d * pi;
    assert scaled == rad * 180.0;
    assert -180.0 * pi <= scaled <= 180.0 * pi;
  }

  /*---------------------------------------------------------------------------
    The analyser
   ---------------------------------------------------------------------------*/

  /** `sum amplitude^2` over a component list, in list order. */
  function SumOfSquares(cs: seq<SpectralComponent>): real
  {
    if |cs| == 0 then 0.0
    else SumOfSquares(cs[..|cs| - 1]) + cs[|cs| - 1].amplitude * cs[|cs| - 1].amplitude
  }

  /** `sum_{k < m} |X[k]|^2`: the power of the first `m` bins of the transform. */
  function BinPower(tr: Trig, s: seq<real>, m: nat): (p: real)
    requires |s| > 0
    ensures p >= 0.0
  {
    if m == 0 then 0.0 else BinPower(tr, s, m - 1) + Power(Bin(tr, s, m - 1))
  }

  /** The number of components the analyser returns for `n` samples: `min(6, n)`. */
  function ReportedCount(n: nat): nat {
    if n < MaxComponents then n else MaxComponents
  }

  function Sum(s: seq<real>): real {
    if |s| == 0 then 0.0 else Sum(s[..|s| - 1]) + s[|s| - 1]
  }

  function Mean(s: seq<real>): real
    requires |s| > 0
  {
    Sum(s) / |s| as real
  }

  /** The component the analyser reports for bin `k`: its magnitude and its phase in degrees. */
  function BinComponent(tr: Trig, s: seq<real>, k: nat): SpectralComponent
    requires |s| > 0
  {
    var x := Bin(tr, s, k);
    SpectralComponent(k, ComplexMagnitude(tr, x), ComplexPhase(tr, x))
  }

  /**
   `analyzeWaveform`: empty input gives no components and energy 0; otherwise
   components `0 .. min(6, N) - 1` in order, each the magnitude and phase of
   its bin, and the energy of exactly those returned bins.
   */
  method AnalyzeWaveform(tr: Trig, samples: seq<real>) returns (data: SpectralData)
    ensures |samples| == 0 ==> data == SpectralData([], 0.0)
    ensures |data.components| == ReportedCount(|samples|)
    ensures forall i :: 0 <= i < |data.components| ==> data.components[i] == BinComponent(tr, samples, i)
    ensures data.energy == SumOfSquares(data.components)
    ensures Valid(tr) && |samples| > 0 ==> data.energy == BinPower(tr, samples, |data.components|)
    ensures Valid(tr) ==> data.energy >= 0.0
    ensures Valid(tr) ==> forall i :: 0 <= i < |data.components| ==> data.components[i].amplitude >= 0.0
    ensures Valid(tr) && |samples| > 0 ==> data.components[0].amplitude == Abs(Mean(samples))
  {
    if |samples| == 0 {
      return SpectralData([], 0.0);
    }
    var dft := ComputeDFT(tr, samples);
    var components: seq<SpectralComponent> := [];
    var energy := 0.0;
    var limit := if MaxComponents < |dft| then MaxComponents else |dft|;
    var k := 0;
    while k < limit
      invariant 0 <= k <= limit
      invariant |components| == k
      invariant forall i :: 0 <= i < k ==> components[i] == BinComponent(tr, samples, i)
      invariant energy == SumOfSquares(components)
      invariant Valid(tr) ==> energy == BinPower(tr, samples, k)
    {
      var amplitude := ComplexMagnitude(tr, dft[k]);
      var phase := ComplexPhase(tr, dft[k]);
      var c := SpectralComponent(k, amplitude, phase);
      assert c == BinComponent(tr, samples, k);
      EnergyStep(tr, samples, components, k, energy, amplitude);
      components := components + [c];
      energy := energy + amplitude * amplitude;
      k := k + 1;
    }
    data := SpectralData(components, energy);
    ReportedAmplitudes(tr, samples, components);
  }

  /** Under the axioms the reported amplitudes are non-negative, the first being the absolute mean. */
  lemma ReportedAmplitudes(tr: Trig, s: seq<real>, cs: seq<SpectralComponent>)
    requires |s| > 0
    requires forall i :: 0 <= i < |cs| ==> cs[i] == BinComponent(tr, s, i)
    ensures Valid(tr) ==> forall i :: 0 <= i < |cs| ==> cs[i].amplitude >= 0.0
    ensures Valid(tr) && |cs| > 0 ==> cs[0].amplitude == Abs(Mean(s))
  {
    if Valid(tr) {
      DcAmplitudeIsAbsMean(tr, s);
      forall i | 0 <= i < |cs|
        ensures cs[i].amplitude >= 0.0
      {
        assert cs[i] == BinComponent(tr, s, i);
      }
    }
  }

  /** One iteration of the analyser's loop keeps both descriptions of the energy. */
  lemma EnergyStep(tr: Trig, s: seq<real>, cs: seq<SpectralComponent>, k: nat, energy: real, amplitude: real)
    requires |s| > 0 && |cs| == k
    requires amplitude == BinComponent(tr, s, k).amplitude
    requires energy == SumOfSquares(cs)
    requires Valid(tr) ==> energy == BinPower(tr, s, k)
    ensures energy + amplitude * amplitude == SumOfSquares(cs + [BinComponent(tr, s, k)])
    ensures Valid(tr) ==> energy + amplitude * amplitude == BinPower(tr, s, k + 1)
  {
    var c := BinComponent(tr, s, k);
    assert (cs + [c])[..k] == cs;
  }

  /** Under the axioms the DC amplitude is the absolute value of the mean. */
  lemma DcAmplitudeIsAbsMean(tr: Trig, s: seq<real>)
    requires Valid(tr) && |s| > 0
    ensures ComplexMagnitude(tr, Bin(tr, s, 0)) == Abs(Mean(s))
  {
    var m := Mean(s);
    DcBinIsMean(tr, s);
    SqrtOfSquare(tr, m);
    assert Power(Bin(tr, s, 0)) == m * m;
    assert ComplexMagnitude(tr, Bin(tr, s, 0)) == tr.sqrt(m * m);
  }

  /** Bin 0 has angle 0 everywhere, so under the axioms it is the mean with no imaginary part. */
  lemma DcBinIsMean(tr: Trig, s: seq<real>)
    requires Valid(tr) && |s| > 0
    ensures Bin(tr, s, 0) == Complex(Mean(s), 0.0)
  {
    DcSums(tr, s, |s|);
    assert s[..|s|] == s;
  }

  lemma {:induction false} DcSums(tr: Trig, s: seq<real>, m: nat)
    requires Valid(tr) && m <= |s|
    ensures CosSum(tr, s, 0, m) == Sum(s[..m])
    ensures SinSum(tr, s, 0, m) == 0.0
  {
    if m > 0 {
      DcSums(tr, s, m - 1);
      assert Angle(tr, 0, m - 1, |s|) == 0.0;
      assert s[..m][..m - 1] == s[..m - 1];
    }
  }

  /** A constant signal `c` of any positive length has DC amplitude `|c|` (1 for the all-ones signal). */
  lemma ConstantSignalDcAmplitude(tr: Trig, c: real, n: nat)
    requires Valid(tr) && n > 0
    ensures ComplexMagnitude(tr, Bin(tr, seq(n, _ => c), 0)) == Abs(c)
  {
    var s := seq(n, _ => c);
    ConstantSum(c, n);
    assert Mean(s) == c;
    DcAmplitudeIsAbsMean(tr, s);
  }

  lemma {:induction false} ConstantSum(c: real, n: nat)
    ensures Sum(seq(n, _ => c)) == n as real * c
  {
    if n > 0 {
      ConstantSum(c, n - 1);
      assert seq(n, _ => c)[..n - 1] == seq(n - 1, _ => c);
    }
  }

  /*---------------------------------------------------------------------------
    The canvas sampler
   ---------------------------------------------------------------------------*/

  /**
   `(R + G + B) / 3` of pixel (x, y) of an RGBA image `width` pixels wide.
   A pixel whose bytes lie beyond the buffer reads as NaN in the source,
   which never compares smaller than anything; it is given the background
   brightness here, which never compares smaller than the running minimum
   either, so it can never be selected.
   */
  function Brightness(data: seq<Byte>, width: nat, x: nat, y: nat): real
  {
    var i := (y * width + x) * 4;
    if i + 2 < |data| then (data[i] as int + data[i + 1] as int + data[i + 2] as int) as real / 3.0
    else Background
  }

  /** Row `row` is the topmost of the darkest rows of column `x`, and darker than the background. */
  ghost predicate IsWaveRow(data: seq<Byte>, width: nat, height: nat, x: nat, row: nat)
  {
    && row < height
    && Brightness(data, width, x, row) < Background
    && (forall y :: 0 <= y < height ==> Brightness(data, width, x, row) <= Brightness(data, width, x, y))
    && (forall y :: 0 <= y < row ==> Brightness(data, width, x, row) < Brightness(data, width, x, y))
  }

  /** No pixel of column `x` is darker than the background. */
  ghost predicate BlankColumn(data: seq<Byte>, width: nat, height: nat, x: nat)
  {
    forall y :: 0 <= y < height ==> Brightness(data, width, x, y) >= Background
  }

  /**
   The darkest row among rows `from .. height - 1`, scanning from the bottom
   and keeping the upper row on ties: an independent restatement of the
   source's top-down scan with a strict comparison.
   */
  function DarkestFrom(data: seq<Byte>, width: nat, height: nat, x: nat, from: nat): (r: Option<nat>)
    decreases height - from
    ensures r.None? <==> forall y :: from <= y < height ==> Brightness(data, width, x, y) >= Background
    ensures r.Some? ==>
      && from <= r.value < height
      && Brightness(data, width, x, r.value) < Background
      && (forall y :: from <= y < height ==> Brightness(data, width, x, r.value) <= Brightness(data, width, x, y))
      && (forall y :: from <= y < r.value ==> Brightness(data, width, x, r.value) < Brightness(data, width, x, y))
  {
    if from >= height then None
    else
      var rest := DarkestFrom(data, width, height, x, from + 1);
      var b := Brightness(data, width, x, from);
      if b < Background && (rest.None? || b <= Brightness(data, width, x, rest.value)) then Some(from)
      else rest
  }

  /** The row the source settles on for column `x`: the wave row, or the centre row `height / 2`. */
  function WaveRow(data: seq<Byte>, width: nat, height: nat, x: nat): (r: real)
    ensures BlankColumn(data, width, height, x) ==> r == height as real / 2.0
    ensures !BlankColumn(data, width, height, x) ==>
      r == r.Floor as real && r >= 0.0 && IsWaveRow(data, width, height, x, r.Floor)
  {
    match DarkestFrom(data, width, height, x, 0)
    case None => height as real / 2.0
    case Some(row) => assert IsWaveRow(data, width, height, x, row); row as real
  }

  /**
   `(height/2 - row) / (height/2)`: the signed amplitude of column `x`. The
   top row gives 1, and no row reaches -1; a blank column gives 0.
   */
  function ColumnSample(data: seq<Byte>, width: nat, height: nat, x: nat): (s: real)
    requires height > 0
    ensures -1.0 < s <= 1.0
    ensures BlankColumn(data, width, height, x) ==> s == 0.0
  {
    var centre := height as real / 2.0;
    WaveRowInCanvas(data, width, height, x);
    RowAmplitudeInRange(centre, WaveRow(data, width, height, x));
    (centre - WaveRow(data, width, height, x)) / centre
  }

  /** The wave row always lies within the canvas. */
  lemma WaveRowInCanvas(data: seq<Byte>, width: nat, height: nat, x: nat)
    requires height > 0
    ensures 0.0 <= WaveRow(data, width, height, x) < height as real
  {
    var row := WaveRow(data, width, height, x);
    if !BlankColumn(data, width, height, x) {
      assert IsWaveRow(data, width, height, x, row.Floor);
    }
  }

  /** The topmost darkest row of a column is unique. */
  lemma WaveRowUnique(data: seq<Byte>, width: nat, height: nat, x: nat, r1: nat, r2: nat)
    requires IsWaveRow(data, width, height, x, r1) && IsWaveRow(data, width, height, x, r2)
    ensures r1 == r2
  {
  }

  /**
   `sampleCanvasWaveform`: one sample per column, in column order, each
   computed from its own column only.
   */
  method SampleCanvasWaveform(data: seq<Byte>, width: nat, height: nat) returns (samples: seq<real>)
    requires width == 0 || height > 0
    ensures |samples| == width
    ensures forall x :: 0 <= x < width ==> samples[x] == ColumnSample(data, width, height, x)
  {
    samples := [];
    var x := 0;
    while x < width
      invariant 0 <= x <= width
      invariant |samples| == x
      invariant forall i :: 0 <= i < x ==> samples[i] == ColumnSample(data, width, height, i)
    {
      var waveY := ScanColumn(data, width, height, x);
      var centre := height as real / 2.0;
      samples := samples + [(centre - waveY) / centre];
      x := x + 1;
    }
  }

  /** The inner loop of the sampler: a top-down scan keeping the first strictly darker pixel. */
  method ScanColumn(data: seq<Byte>, width: nat, height: nat, x: nat) returns (waveY: real)
    ensures waveY == WaveRow(data, width, height, x)
  {
    var minBrightness := Background;
    waveY := height as real / 2.0;
    ghost var found: Option<nat> := None;
    var y := 0;
    while y < height
      invariant 0 <= y <= height
      invariant found.None? ==>
        && waveY == height as real / 2.0
        && minBrightness == Background
        && forall j :: 0 <= j < y ==> Brightness(data, width, x, j) >= Background
      invariant found.Some? ==>
        && found.value < y
        && waveY == found.value as real
        && minBrightness == Brightness(data, width, x, found.value) < Background
        && (forall j :: 0 <= j < y ==> minBrightness <= Brightness(data, width, x, j))
        && (forall j :: 0 <= j < found.value ==> minBrightness < Brightness(data, width, x, j))
    {
      var brightness := Brightness(data, width, x, y);
      if brightness < minBrightness {
        minBrightness := brightness;
        waveY := y as real;
        found := Some(y);
      }
      y := y + 1;
    }
    if found.Some? {
      assert IsWaveRow(data, width, height, x, found.value);
      WaveRowUnique(data, width, height, x, found.value, WaveRow(data, width, height, x).Floor);
    }
  }

  lemma RowAmplitudeInRange(centre: real, row: real)
    requires centre > 0.0 && 0.0 <= row < 2.0 * centre
    ensures -1.0 < (centre - row) / centre <= 1.0
  {
    var v := (centre - row) / centre;
    var p := v * centre;
    assert p == centre - row;
  }

  /** Changing pixels outside column `x` leaves sample `x` unchanged. */
  lemma {:induction false} ColumnSampleIsLocal(d1: seq<Byte>, d2: seq<Byte>, width: nat, height: nat, x: nat)
    requires height > 0
    requires forall y :: 0 <= y < height ==> Brightness(d1, width, x, y) == Brightness(d2, width, x, y)
    ensures ColumnSample(d1, width, height, x) == ColumnSample(d2, width, height, x)
  {
    DarkestFromIsLocal(d1, d2, width, height, x, 0);
  }

  lemma {:induction false} DarkestFromIsLocal(d1: seq<Byte>, d2: seq<Byte>, width: nat, height: nat, x: nat, from: nat)
    requires forall y :: from <= y < height ==> Brightness(d1, width, x, y) == Brightness(d2, width, x, y)
    decreases height - from
    ensures DarkestFrom(d1, width, height, x, from) == DarkestFrom(d2, width, height, x, from)
  {
    if from < height {
      DarkestFromIsLocal(d1, d2, width, height, x, from + 1);
    }
  }
}
