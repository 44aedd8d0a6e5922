/**
 The additive synthesiser of `src/utils/synthesis.ts`: one period of
 `sum_c a_c sin(k_c t + phase_c)` sampled at `numPoints` evenly spaced times,
 with the constant term added flat and near-silent components dropped.
 */
module Synthesis {
  import opened Numerics
  import opened Wave

  /** Components whose amplitude does not exceed this are skipped entirely. */
  const NoiseFloor: real := 0.001

  /** The time of sample `x` of `numPoints`: the period `[0, 2 pi)` divided evenly. */
  function SampleTime(tr: Trig, x: nat, numPoints: nat): real
    requires numPoints > 0
  {
    (x as real / numPoints as real) * 2.0 * tr.pi
  }

  /** The angle `k t + phase` of a component at time `t`, the phase given in degrees. */
  function HarmonicAngle(tr: Trig, c: SpectralComponent, t: real): real {
    c.k as real * t + Radians(tr, c.phase)
  }

  /** The harmonic term `a sin(k t + phase)` of a component. */
  function Harmonic(tr: Trig, c: SpectralComponent, t: real): real {
    c.amplitude * Sin(tr, HarmonicAngle(tr, c, t))
  }

  /**
   What one component adds to the sample at time `t`: nothing at or below
   the noise floor, its amplitude for the constant term, and otherwise its
   harmonic term.
   */
  function Contribution(tr: Trig, c: SpectralComponent, t: real): (v: real)
    ensures c.amplitude <= NoiseFloor ==> v == 0.0
    ensures c.amplitude > NoiseFloor && c.k == 0 ==> v == c.amplitude
    ensures c.amplitude > NoiseFloor && c.k > 0 ==> v == Harmonic(tr, c, t)
  {
    if c.amplitude > NoiseFloor then
      if c.k == 0 then c.amplitude
      else Harmonic(tr, c, t)
    else 0.0
  }

  /** The sum of all contributions at time `t`, in list order. */
  function WaveSum(tr: Trig, cs: seq<SpectralComponent>, t: real): real {
    if |cs| == 0 then 0.0 else Contribution(tr, cs[0], t) + WaveSum(tr, cs[1..], t)
  }

  /**
   `synthesizeWaveform`: `numPoints` samples (none when it is not positive),
   sample `x` being the wave sum at `SampleTime(x)`.
   */
  function SynthesizeWaveform(tr: Trig, components: seq<SpectralComponent>, numPoints: int): (r: seq<real>)
    ensures |r| == if numPoints > 0 then numPoints else 0
    ensures numPoints <= 0 ==> r == []
  {
    if numPoints <= 0 then []
    else seq(numPoints, x requires 0 <= x < numPoints => WaveSum(tr, components, SampleTime(tr, x, numPoints)))
  }

  /** The sum of the amplitudes of the components above the noise floor. */
  function KeptAmplitude(cs: seq<SpectralComponent>): (total: real)
    ensures total >= 0.0
  {
    if |cs| == 0 then 0.0
    else (if cs[0].amplitude > NoiseFloor then cs[0].amplitude else 0.0) + KeptAmplitude(cs[1..])
  }

  /*---------------------------------------------------------------------------
    Properties
   ---------------------------------------------------------------------------*/

  /** Superposition: the wave of a concatenation is the sum of the waves. */
  lemma {:induction false} WaveSumAppend(tr: Trig, a: seq<SpectralComponent>, b: seq<SpectralComponent>, t: real)
    ensures WaveSum(tr, a + b, t) == WaveSum(tr, a, t) + WaveSum(tr, b, t)
  {
    if |a| > 0 {
      assert (a + b)[1..] == a[1..] + b;
      WaveSumAppend(tr, a[1..], b, t);
    } else {
      assert a + b == b;
    }
  }

  /**
   Synthesis is linear in the component list: every sample of `a + b` is the
   sum of the samples of `a` and of `b`, so components with the same `k`
   add up instead of replacing each other.
   */
  lemma SynthesisIsLinear(tr: Trig, a: seq<SpectralComponent>, b: seq<SpectralComponent>, numPoints: int, i: nat)
    requires i < numPoints
    ensures SynthesizeWaveform(tr, a + b, numPoints)[i]
         == SynthesizeWaveform(tr, a, numPoints)[i] + SynthesizeWaveform(tr, b, numPoints)[i]
  {
    WaveSumAppend(tr, a, b, SampleTime(tr, i, numPoints));
  }

  /**
   Sample `i` of one audible harmonic is `a sin(k t + phase pi / 180)` at
   `t = 2 pi i / n`. With `SynthesisIsLinear` this fixes every sample of
   every component list.
   */
  lemma HarmonicSample(tr: Trig, c: SpectralComponent, n: int, i: nat)
    requires c.amplitude > NoiseFloor && c.k > 0 && i < n
    ensures SynthesizeWaveform(tr, [c], n)[i]
         == c.amplitude * Sin(tr, c.k as real * ((i as real / n as real) * 2.0 * tr.pi) + c.phase * tr.pi / 180.0)
  {
    var t := SampleTime(tr, i, n);
    SingleWaveSum(tr, c, t);
    SampleAngle(tr, c, n, i);
    ScaledSinOfEqual(tr, c.amplitude, HarmonicAngle(tr, c, t),
                     c.k as real * ((i as real / n as real) * 2.0 * tr.pi) + c.phase * tr.pi / 180.0);
  }

  /** The angle of a component at sample `i` of `n`, written out. */
  lemma SampleAngle(tr: Trig, c: SpectralComponent, n: int, i: nat)
    requires i < n
    ensures HarmonicAngle(tr, c, SampleTime(tr, i, n))
         == c.k as real * ((i as real / n as real) * 2.0 * tr.pi) + c.phase * tr.pi / 180.0
  {
  }

  /** Equal angles give equal scaled sines. */
  lemma ScaledSinOfEqual(tr: Trig, a: real, x: real, y: real)
    requires x == y
    ensures a * Sin(tr, x) == a * Sin(tr, y)
  {
  }

  /** Sample `i` of one audible constant term is its amplitude. */
  lemma ConstantSample(tr: Trig, c: SpectralComponent, n: int, i: nat)
    requires c.amplitude > NoiseFloor && c.k == 0 && i < n
    ensures SynthesizeWaveform(tr, [c], n)[i] == c.amplitude
  {
    SingleWaveSum(tr, c, SampleTime(tr, i, n));
  }

  /** Two constant terms both above the noise floor add up. */
  lemma DuplicateDcTermsAdd(tr: Trig, a: real, b: real, p: real, q: real, numPoints: int, i: nat)
    requires a > NoiseFloor && b > NoiseFloor && i < numPoints
    ensures SynthesizeWaveform(tr, [SpectralComponent(0, a, p), SpectralComponent(0, b, q)], numPoints)[i] == a + b
  {
    var t := SampleTime(tr, i, numPoints);
    SingleWaveSum(tr, SpectralComponent(0, b, q), t);
    assert [SpectralComponent(0, a, p), SpectralComponent(0, b, q)][1..] == [SpectralComponent(0, b, q)];
  }

  /** A one-component list sums to that component's contribution. */
  lemma SingleWaveSum(tr: Trig, c: SpectralComponent, t: real)
    ensures WaveSum(tr, [c], t) == Contribution(tr, c, t)
  {
    assert [c][1..] == [];
  }

  /** A component at or below the noise floor contributes nothing. */
  lemma {:induction false} QuietComponentIsIgnored(tr: Trig, a: seq<SpectralComponent>, c: SpectralComponent,
                                                   b: seq<SpectralComponent>, t: real)
    requires c.amplitude <= NoiseFloor
    ensures WaveSum(tr, a + [c] + b, t) == WaveSum(tr, a + b, t)
  {
    WaveSumAppend(tr, a + [c], b, t);
    WaveSumAppend(tr, a, [c], t);
    WaveSumAppend(tr, a, b, t);
  }

  /** Removing a quiet component anywhere in the list leaves the synthesised output identical. */
  lemma QuietComponentLeavesOutputUnchanged(tr: Trig, a: seq<SpectralComponent>, c: SpectralComponent,
                                            b: seq<SpectralComponent>, numPoints: int)
    requires c.amplitude <= NoiseFloor
    ensures SynthesizeWaveform(tr, a + [c] + b, numPoints) == SynthesizeWaveform(tr, a + b, numPoints)
  {
    var lhs := SynthesizeWaveform(tr, a + [c] + b, numPoints);
    var rhs := SynthesizeWaveform(tr, a + b, numPoints);
    forall i | 0 <= i < |lhs|
      ensures lhs[i] == rhs[i]
    {
      QuietComponentIsIgnored(tr, a, c, b, SampleTime(tr, i, numPoints));
    }
  }

  /** No components: every sample is zero. */
  lemma SilenceFromNoComponents(tr: Trig, numPoints: int)
    ensures forall i :: 0 <= i < |SynthesizeWaveform(tr, [], numPoints)| ==> SynthesizeWaveform(tr, [], numPoints)[i] == 0.0
  {
  }

  /** A single audible constant term gives a flat signal at its amplitude, whatever its phase. */
  lemma DcOnlyIsFlat(tr: Trig, a: real, phase: real, numPoints: int)
    requires a > NoiseFloor
    ensures forall i :: 0 <= i < |SynthesizeWaveform(tr, [SpectralComponent(0, a, phase)], numPoints)| ==>
      SynthesizeWaveform(tr, [SpectralComponent(0, a, phase)], numPoints)[i] == a
  {
    var r := SynthesizeWaveform(tr, [SpectralComponent(0, a, phase)], numPoints);
    forall i | 0 <= i < |r|
      ensures r[i] == a
    {
      SingleWaveSum(tr, SpectralComponent(0, a, phase), SampleTime(tr, i, numPoints));
    }
  }

  /** Under `|sin| <= 1`, no sample exceeds the total amplitude of the kept components. */
  lemma {:induction false} WaveSumBounded(tr: Trig, cs: seq<SpectralComponent>, t: real)
    requires Valid(tr)
    ensures Abs(WaveSum(tr, cs, t)) <= KeptAmplitude(cs)
  {
    if |cs| > 0 {
      WaveSumBounded(tr, cs[1..], t);
      ContributionBounded(tr, cs[0], t);
    }
  }

  /** Under `|sin| <= 1`, one component adds at most its kept amplitude. */
  lemma ContributionBounded(tr: Trig, c: SpectralComponent, t: real)
    requires Valid(tr)
    ensures Abs(Contribution(tr, c, t)) <= if c.amplitude > NoiseFloor then c.amplitude else 0.0
  {
    if c.amplitude > NoiseFloor && c.k != 0 {
      ScaledBound(c.amplitude, Sin(tr, HarmonicAngle(tr, c, t)));
    }
  }

  lemma SampleBounded(tr: Trig, cs: seq<SpectralComponent>, numPoints: int, i: nat)
    requires Valid(tr) && i < numPoints
    ensures Abs(SynthesizeWaveform(tr, cs, numPoints)[i]) <= KeptAmplitude(cs)
  {
    WaveSumBounded(tr, cs, SampleTime(tr, i, numPoints));
  }

  /** The zero-phase fundamental starts at 0. */
  lemma FundamentalStartsAtZero(tr: Trig, numPoints: int)
    requires Valid(tr) && numPoints > 0
    ensures SynthesizeWaveform(tr, [SpectralComponent(1, 1.0, 0.0)], numPoints)[0] == 0.0
  {
    var c := SpectralComponent(1, 1.0, 0.0);
    SingleWaveSum(tr, c, SampleTime(tr, 0, numPoints));
    assert SampleTime(tr, 0, numPoints) == 0.0;
    assert c.k as real * 0.0 + Radians(tr, c.phase) == 0.0;
  }

  /** A 90-degree phase shift raises the first sample of the fundamental from 0 to 1. */
  lemma QuarterPhaseShiftsStart(tr: Trig, numPoints: int)
    requires Valid(tr) && numPoints > 0
    ensures SynthesizeWaveform(tr, [SpectralComponent(1, 1.0, 90.0)], numPoints)[0]
          - SynthesizeWaveform(tr, [SpectralComponent(1, 1.0, 0.0)], numPoints)[0] == 1.0
  {
    FundamentalStartsAtZero(tr, numPoints);
    var c := SpectralComponent(1, 1.0, 90.0);
    SingleWaveSum(tr, c, SampleTime(tr, 0, numPoints));
    assert SampleTime(tr, 0, numPoints) == 0.0;
    assert c.k as real * 0.0 + Radians(tr, c.phase) == tr.pi / 2.0;
  }
}
