# wiggles — a Dafny model of the signal and progression logic

wiggles is a React app that teaches Fourier ideas with sine waves. This
project models the logic underneath its widgets, over Dafny's `real`:

- the spectral analyser (`src/utils/fft.ts`): a direct DFT scaled by 1/N and
  cut to its first six bins, turned into `{k, amplitude, phase}` components
  with a truncated energy; and the canvas sampler, which reads the darkest
  pixel of each column as the wave's height;
- the additive synthesiser (`src/utils/synthesis.ts`);
- the single-sine helpers (`src/utils/math.ts`);
- the module progression of `src/App.tsx`, as a transition system;
- the completion flags of the first lesson (`src/modules/Module0_SingleSine.tsx`);
- the pure control mappings inside three widgets: the spectral bars, the
  amplitude fader and the phase knob;
- the feature-flag table (`src/config/featureFlags.ts`).

`sin`, `cos`, `sqrt`, `atan2` and `pi` are fields of a `Numerics.Trig` value
and stay uninterpreted. The predicate `Numerics.Valid` holds the only facts
the proofs use:

- `|sin x| <= 1`, `sin 0 = 0`, `cos 0 = 1` and `sin(pi/2) = 1`;
- `sqrt x >= 0` and `sqrt(x)^2 = x` for `x >= 0`;
- `atan2` lies in `[-pi, pi]`.

JavaScript's `%` truncates towards zero. It is modelled by `Numerics.JsRem`.

Modules:

- `Numerics`: trig, clamp and remainder helpers.
- `Wave`: the shared records.
- `Fft`, `Synthesis` and `SineMath`: the three utility files.
- `Progress`: the app's progression.
- `SingleSine`: the first lesson.
- `SpectralBars`, `AmplitudeSlider` and `PhaseKnob`: the widgets.
- `FeatureFlags`: the flag table.

Each module states its operations first. `Synthesis`, `SineMath`,
`SpectralBars`, `AmplitudeSlider`, `PhaseKnob` and `FeatureFlags` then have a
"Properties" part with lemmas that relate the operations to an independent
description. In `Fft`, `Progress` and `SingleSine` those lemmas follow the
operations directly.

## Model

| member | source | states |
|---|---|---|
| Fft.ComputeDFT | src/utils/fft.ts:7-25 | one bin per sample; bin k is the 1/N-scaled sum of `s[n] cos(-2 pi k n / N)` and `s[n] sin(...)`, defined by the recursive reference `Bin` |
| Fft.ComplexMagnitude | src/utils/fft.ts:32-34 | the magnitude is non-negative and its square is `re^2 + im^2` |
| Fft.ComplexPhase | src/utils/fft.ts:36-39 | the phase in degrees lies in `[-180, 180]` |
| Fft.AnalyzeWaveform | src/utils/fft.ts:45-74 | empty input gives no components and energy 0; there are `min(6, N)` components; component i is bin i with `k = i`, its magnitude and phase; amplitudes are non-negative; energy is the sum of squared amplitudes of the returned components only (the power of bins `0..min(6,N)-1`), so it is non-negative; the DC amplitude is the absolute mean |
| Fft.DcBinIsMean | src/utils/fft.ts:16-21 | at k = 0 every angle is 0, so the DC bin is `(mean, 0)` |
| Fft.DcAmplitudeIsAbsMean | src/utils/fft.ts:16-21 | the DC bin's magnitude is the absolute value of the mean |
| Fft.DcSums | src/utils/fft.ts:15-19 | at k = 0 the cosine sum is the plain sum of the samples and the sine sum is 0 |
| Fft.ConstantSignalDcAmplitude | src/utils/fft.ts:16-21 | a constant signal c gives DC amplitude `abs(c)` |
| Fft.DarkestFrom | src/utils/fft.ts:88-100 | the scan of rows `from..height-1` finds nothing exactly when no pixel there is darker than 255, and otherwise finds the topmost row of minimal brightness |
| Fft.WaveRow | src/utils/fft.ts:84-100 | a column with no pixel darker than 255 reports the centre row `height/2`; otherwise the reported row is the unique topmost darkest one |
| Fft.WaveRowUnique | src/utils/fft.ts:96-99 | the strict `<` makes the darkest-row choice unique: two rows satisfying the rule are the same row |
| Fft.ScanColumn | src/utils/fft.ts:84-100 | the loop over one column computes the row `WaveRow` describes |
| Fft.SampleCanvasWaveform | src/utils/fft.ts:80-108 | one sample per column; sample x is `(h/2 - row)/(h/2)` for that column's wave row |
| Fft.ColumnSample | src/utils/fft.ts:84-103 | for a positive height every sample lies in `(-1, 1]`; a column with no pixel darker than 255 gives sample 0 |
| Fft.WaveRowInCanvas | src/utils/fft.ts:84-100 | the reported row lies in `[0, height)` |
| Fft.ColumnSampleIsLocal | src/utils/fft.ts:88-94 | a column's sample depends only on the brightness of that column's own pixels |
| Synthesis.SynthesizeWaveform | src/utils/synthesis.ts:9-35 | the output has `numPoints` samples, none when `numPoints <= 0` |
| Synthesis.Contribution | src/utils/synthesis.ts:18-27 | a component at or below 0.001 adds 0; an audible constant term adds its amplitude; an audible harmonic adds `a sin(k t + phase)` |
| Synthesis.HarmonicSample | src/utils/synthesis.ts:12-26 | for one audible harmonic, sample i of n is `a sin(k (i/n) 2 pi + phase pi / 180)` |
| Synthesis.ConstantSample | src/utils/synthesis.ts:12-23 | for one audible constant term, every sample is its amplitude |
| Synthesis.ContributionBounded | src/utils/synthesis.ts:18-27 | given `abs(sin) <= 1`, one component adds at most its amplitude if it is audible, and nothing otherwise |
| Synthesis.KeptAmplitude | src/utils/synthesis.ts:18 | the total amplitude of the components above the noise floor is non-negative |
| Synthesis.WaveSumAppend | src/utils/synthesis.ts:17-29 | the wave sum of a joined list is the sum of the wave sums |
| Synthesis.SynthesisIsLinear | src/utils/synthesis.ts:12-31 | superposition: every sample of `a + b` is the sum of the samples of `a` and of `b` |
| Synthesis.DuplicateDcTermsAdd | src/utils/synthesis.ts:17-23 | two constant terms with the same `k` add up instead of one replacing the other |
| Synthesis.QuietComponentIsIgnored | src/utils/synthesis.ts:18 | a component with amplitude at most 0.001 adds nothing to the sum, wherever it sits in the list |
| Synthesis.QuietComponentLeavesOutputUnchanged | src/utils/synthesis.ts:18 | removing such a component leaves the whole output identical |
| Synthesis.SilenceFromNoComponents | src/utils/synthesis.ts:14-17 | an empty component list gives all zeros |
| Synthesis.DcOnlyIsFlat | src/utils/synthesis.ts:21-23 | a single audible constant term gives every sample equal to its amplitude, whatever its phase |
| Synthesis.WaveSumBounded | src/utils/synthesis.ts:17-29 | given `abs(sin) <= 1`, the sum at any time is at most the kept amplitude in absolute value |
| Synthesis.SampleBounded | src/utils/synthesis.ts:12-31 | every sample is bounded by the kept amplitude |
| Synthesis.FundamentalStartsAtZero | src/utils/synthesis.ts:13-26 | the zero-phase fundamental has first sample 0 |
| Synthesis.QuarterPhaseShiftsStart | src/utils/synthesis.ts:19-26 | a 90-degree phase raises the fundamental's first sample from 0 to 1 |
| SineMath.CalculateSineValue | src/utils/math.ts:8-12 | the value is at most the amplitude in absolute value, and 0 for amplitude 0 |
| SineMath.FrequencyIsIgnored | src/utils/math.ts:8-12 | the frequency field does not affect the value |
| SineMath.PeakAtQuarterPeriod | src/utils/math.ts:11 | amplitude 2 at `x = pi/2` gives 2 |
| SineMath.QuarterPhaseStartsAtPeak | src/utils/math.ts:10-11 | a 90-degree phase at `x = 0` gives 1 |
| SineMath.GenerateSinePoints | src/utils/math.ts:17-41 | there are `floor(width/r) + 1` points for `width >= 0` and none for negative width; point i has x = `i*r`, which is at most `width`; its y is the wave's canvas row at that column |
| SineMath.StepWithinWidth | src/utils/math.ts:31 | column `i*r` is within the width exactly when `i` is below the point count |
| SineMath.PixelY | src/utils/math.ts:24-35 | amplitude 0 puts the point on the centre row; the y axis is flipped, so positive values are drawn above the centre and negative ones below; values 2 and -2 land on rows `0.1 h` and `0.9 h`; given `abs(sin) <= 1`, a non-negative height and `abs(amplitude) <= 2`, the row lies in `[0.1 h, 0.9 h]` |
| SineMath.RowIsFlipped | src/utils/math.ts:26-35 | a value of 2 fills 80% of the half height upwards and -2 downwards; the sign of the value decides the side of the centre row |
| SineMath.RowInBand | src/utils/math.ts:26-35 | a value in `[-2, 2]` is drawn within `[0.1 h, 0.9 h]` |
| Progress.HandleModuleComplete | src/App.tsx:35-43 | the shown module is kept; it is appended to the completed list without any check; the next module is unlocked, and the unlocked list only gains that module, at its end, when it is absent; when it is already unlocked the list is unchanged |
| Progress.HandleNextModule | src/App.tsx:46-51 | progress is untouched; the app moves to `current == 1 ? 0 : current + 1` exactly when that module is unlocked, and otherwise nothing changes |
| Progress.HandleModuleSelect | src/App.tsx:54-58 | progress is untouched; the app moves to the chosen module exactly when it is unlocked, and otherwise nothing changes |
| Progress.Initial | src/App.tsx:26-32 | the initial state satisfies the invariant below; it shows module 0, which is the only unlocked module, and nothing is completed |
| Progress.StepPreservesInvariant | src/App.tsx:35-58 | every handler keeps the shown module unlocked and the unlocked list duplicate-free; every completed module stays unlocked; every unlocked module other than 0 follows a completed one; the record's `currentModule` stays 0 |
| Progress.RunPreservesInvariant | src/App.tsx:35-58 | the invariant survives any sequence of transitions |
| Progress.ReachableStatesShowUnlockedModules | src/App.tsx:29-58 | from the initial state the shown module is always unlocked, and the unlocked list never repeats |
| Progress.UnlockedOnlyGrows | src/App.tsx:38-41 | the unlocked and completed lists are only ever extended at their ends |
| Progress.CompletionsAreNotDeduplicated | src/App.tsx:38-41 | completing module 0 twice records it twice but unlocks module 1 once |
| Progress.CompleteThenNextAdvances | src/App.tsx:35-51 | complete and then next, as separate transitions, shows module 1; next again wraps to 0 |
| SingleSine.Initial | src/modules/Module0_SingleSine.tsx:10-26 | neither flag is set, so the lesson is not complete; the starting amplitude 1 and phase 0 lie inside both thresholds |
| SingleSine.UpdateAmplitude | src/modules/Module0_SingleSine.tsx:16-18 | only the amplitude changes |
| SingleSine.UpdatePhase | src/modules/Module0_SingleSine.tsx:20-22 | only the phase changes |
| SingleSine.HandleAmplitudeChange | src/modules/Module0_SingleSine.tsx:28-33 | the amplitude flag is set afterwards exactly when it was already set or `abs(a - 1) > 0.1`; the phase flag is kept; the amplitude is updated |
| SingleSine.HandlePhaseChange | src/modules/Module0_SingleSine.tsx:35-40 | the phase flag is set afterwards exactly when it was already set or `abs(p) > 10`; the amplitude flag is kept; the phase is updated |
| SingleSine.FlagsRecordLargeMoves | src/modules/Module0_SingleSine.tsx:25-40 | after any sequence of changes, each flag is set exactly when it started set or some change crossed its threshold |
| SingleSine.FlagsAreSticky | src/modules/Module0_SingleSine.tsx:25-40 | no change ever clears a flag |
| SingleSine.CompletionIsSticky | src/modules/Module0_SingleSine.tsx:25-42 | once `isComplete` holds, no later change makes it false |
| SingleSine.CompletionNeedsBothMoves | src/modules/Module0_SingleSine.tsx:10-42 | from the initial lesson, `isComplete` holds exactly when both a large amplitude move and a large phase move happened |
| SpectralBars.FindHarmonic | src/components/InteractiveSpectralBars.tsx:28 | finds nothing exactly when no component has that `k`, and otherwise finds the first one that does |
| SpectralBars.PaddedComponents | src/components/InteractiveSpectralBars.tsx:27-30 | there are `maxBars` bars and bar k has `k = k`, so higher harmonics are not shown; bar k is the first listed component with that `k`; when there is none it is the silent bar |
| SpectralBars.DragAmplitude | src/components/InteractiveSpectralBars.tsx:49-51 | the dragged amplitude lies in `[0, 2]`; it equals `start + 2 (startY - y) / barAreaHeight` when that is in range, 0 below the range and 2 above it |
| SpectralBars.BeginDrag | src/components/InteractiveSpectralBars.tsx:35-44 | a drag remembers the bar, the pointer row and the bar's amplitude |
| SpectralBars.HandleMouseMove | src/components/InteractiveSpectralBars.tsx:46-59 | nothing is reported without a drag; during a drag the dragged bar is reported with its `k` and phase kept and its amplitude set to the dragged amplitude, which lies in `[0, 2]` |
| SpectralBars.ReleaseStopsReports | src/components/InteractiveSpectralBars.tsx:46-63 | after the pointer is released, moving it reports nothing |
| SpectralBars.HandleBarPhaseChange | src/components/InteractiveSpectralBars.tsx:65-71 | the bar is reported with only its phase replaced |
| SpectralBars.PaddingCanonicalIsIdentity | src/components/InteractiveSpectralBars.tsx:27-30 | a list that already has one bar per harmonic, in order, is padded to itself |
| SpectralBars.PaddingIsIdempotent | src/components/InteractiveSpectralBars.tsx:27-30 | padding twice is the same as padding once |
| SpectralBars.FirstDuplicateWins | src/components/InteractiveSpectralBars.tsx:28 | of two components with the same `k`, the first is shown |
| SpectralBars.StillPointerKeepsAmplitude | src/components/InteractiveSpectralBars.tsx:49-51 | with no pointer movement, an in-range amplitude is unchanged |
| SpectralBars.DragIsMonotone | src/components/InteractiveSpectralBars.tsx:49-51 | moving the pointer further up never lowers the amplitude |
| SpectralBars.FullDragReachesMaximum | src/components/InteractiveSpectralBars.tsx:49-51 | dragging up by the whole bar area from silence gives amplitude 2 |
| SpectralBars.PressWithoutMoveReportsBar | src/components/InteractiveSpectralBars.tsx:35-59 | pressing a bar and moving without displacement reports the bar unchanged |
| AmplitudeSlider.HandlePosition | src/components/AmplitudeSlider.tsx:12-17 | values in `[0, 2]` map onto `[0, 180]`, with 2 at the top and 0 at the bottom |
| AmplitudeSlider.NormalizedY | src/components/AmplitudeSlider.tsx:32-35 | the adjusted pointer row is clamped into `[0, 180]` |
| AmplitudeSlider.PointerValue | src/components/AmplitudeSlider.tsx:28-37 | the selected value lies in `[0, 2]` |
| AmplitudeSlider.SecondClampIsRedundant | src/components/AmplitudeSlider.tsx:36-37 | the value before the last clamp is already in `[0, 2]`, so that clamp never changes it |
| AmplitudeSlider.PressingHandleCentreKeepsValue | src/components/AmplitudeSlider.tsx:17-37 | pressing the handle's centre selects exactly the value the handle shows |
| AmplitudeSlider.HandleFollowsPointer | src/components/AmplitudeSlider.tsx:17-37 | within the travel, the handle for the selected value is centred under the pointer |
| AmplitudeSlider.PointerValueIsMonotone | src/components/AmplitudeSlider.tsx:32-36 | a lower pointer never selects a larger value |
| AmplitudeSlider.PointerBeyondEndsSaturates | src/components/AmplitudeSlider.tsx:32-37 | above the travel the value is 2, and below it the value is 0 |
| Numerics.JsRem | src/components/PhaseKnob.tsx:34 | for a positive modulus, `a % m` has the sign of `a`, is less than `m` in size, and differs from `a` by a whole multiple of `m` |
| PhaseKnob.PointerAngle | src/components/PhaseKnob.tsx:29 | the pointer angle in degrees lies in `[-180, 180]` |
| PhaseKnob.TopBasedAngle | src/components/PhaseKnob.tsx:31 | the top-based angle lies in `[0, 360)` for every pointer angle from -450 up, and differs from the angle plus 90 by whole turns |
| PhaseKnob.CurrentAngle | src/components/PhaseKnob.tsx:34 | `value % 360` keeps the sign of the value, is less than a turn in size, and differs from the value by whole turns |
| PhaseKnob.Unwrap | src/components/PhaseKnob.tsx:35-43 | the result is the angle or the angle shifted by one turn either way; it is no further from the current angle than any candidate; a shifted candidate is taken only when strictly closer, so ties keep the angle |
| PhaseKnob.DragValue | src/components/PhaseKnob.tsx:29-45 | the reported value differs from the pointer angle plus 90 by whole turns and, given that `atan2` lies in `[-pi, pi]`, lies in `[-360, 720)` |
| PhaseKnob.DragValueIsPointerAngleModTurn | src/components/PhaseKnob.tsx:29-45 | the reported value equals the top-based pointer angle up to one turn, and lies in `[-360, 720)` |
| PhaseKnob.NoJumpFromNonNegativeValue | src/components/PhaseKnob.tsx:34-45 | for a non-negative value the reported angle is at most half a turn from the current angle |
| PhaseKnob.NegativeValueCanJump | src/components/PhaseKnob.tsx:34-43 | at value -200 the current angle is -200, and a pointer at 359 is reported as -1, more than half a turn away |
| PhaseKnob.ValueDriftsBelowHalfTurn | src/components/PhaseKnob.tsx:29-45 | starting from 0, pointer angles 181 and then 2 are reported as -179 and then -358, so values below -180 occur |
| PhaseKnob.TopOfKnobUnwrapsTowardsValue | src/components/PhaseKnob.tsx:35-43 | pointing at the top gives 0 near 0 and 360 near 360 |
| FeatureFlags.IsFeatureEnabled | src/config/featureFlags.ts:30-32 | the lookup returns the value the table lists for the flag |
| FeatureFlags.EnabledKeys | src/config/featureFlags.ts:36-38 | a key is returned exactly when the table has it switched on |
| FeatureFlags.GetEnabledFeatures | src/config/featureFlags.ts:35-39 | every returned flag is switched on in the table |
| FeatureFlags.TableListsEveryFlagOnce | src/config/featureFlags.ts:8-27 | the table lists every flag key once |
| FeatureFlags.LookupMatchesTable | src/config/featureFlags.ts:8-32 | the lookup agrees with every table entry |
| FeatureFlags.EnabledListMatchesLookup | src/config/featureFlags.ts:30-39 | a flag is in the enabled list exactly when the lookup reports it on |
| FeatureFlags.EnabledKeysAppend | src/config/featureFlags.ts:36-38 | filtering keeps table order: the enabled keys of joined tables are the joined enabled keys |
| FeatureFlags.OnlyUnlockAllIsEnabled | src/config/featureFlags.ts:13-23 | with the shipped values only `UNLOCK_ALL_MODULES` is enabled |

## Left out

- Floating point: every number is an exact real. IEEE rounding, infinities and NaN are not modelled. The approximate checks of the tests are not modelled either: the fundamental's size, the symmetry of two spectra, and the energy range of a synthesised wave. The analyse-after-synthesise round trip is also out, because it needs real values of `sin` and `cos`.
- The trigonometric functions are uninterpreted and only satisfy the facts listed above. Any property that needs more, such as orthogonality of the DFT basis, is out of reach.
- Fft.SampleCanvasWaveform: requires a positive height when there are columns. At height 0 the source divides 0 by 0 and emits NaN.
- Fft.SampleCanvasWaveform: `width` and `height` are whole numbers, and the image is a flat list of byte values. A read past its end counts as brightness 255, so it is never selected; in the source that read gives NaN, which is never selected either.
- SineMath.GenerateSinePoints: requires a non-zero width. At width 0 the source computes `0/0` for the angle. It also requires a positive resolution: for a non-negative width the source's loop would not end; a negative width with a non-positive resolution gives `[]` and is excluded as well. Every caller uses the default resolution 2 (src/utils/math.ts:21; `SineCanvas` calls `generateSinePoints(width, height, waveParams)`).
- SpectralBars.DragAmplitude: requires a non-zero bar area height (`height - 80`). A widget 80 pixels tall would divide by zero.
- Synthesis.SynthesizeWaveform: `numPoints` is an integer; a fractional count is not modelled.
- React plumbing is not modelled: canvas drawing, Web Audio, the spectral-analysis hook, event listener registration and cleanup, rendering and layout.
- Each handler of `src/App.tsx` is one transition on the latest state. React batches the lesson's "continue" click (`onComplete(); onNext()`), and `handleNextModule` then reads a stale `unlockedModules`; that batching is not modelled, so nothing is claimed about the combined click.
- `src/modules/Module1_TwoSines.tsx`, `src/modules/Module2_MiniPrism.tsx` and `src/components/ModuleNavigation.tsx` are wiring and layout only, and are not part of this model.
- Fft.ComplexPhase: the contract bounds the phase to `[-180, 180]` and does not restate its exact value, `atan2(im, re) * 180 / pi`, which is uninterpreted.
- Synthesis.SynthesizeWaveform: the contract gives the length. The value of each sample is stated by lemmas: `Synthesis.HarmonicSample` and `Synthesis.ConstantSample` for one component, and `Synthesis.SynthesisIsLinear` for sums of them.
- PhaseKnob.NoJumpFromNonNegativeValue: the half-turn bound is stated for non-negative values only, because it fails for values below -180 (see PhaseKnob.NegativeValueCanJump). The knob's rotation is unaffected, since it is only shown modulo a turn. The numeric label `{Math.round(value)}°` (src/components/PhaseKnob.tsx:97) does show the drifted value, for example -358°, although the prop is documented as 0-360 (src/components/PhaseKnob.tsx:4).
- The knob's displayed rotation (`value - 90`) and the bar heights are drawing only.
- The bar widget's `find` result is an object, so it is always truthy. The model takes the found component as it is.
- The energy is the sum over the returned (at most six) bins, as the code computes it. It is not the full-spectrum energy.
- Where the canvas sampler's test comment and its code differ, the model follows the code. The comment in src/utils/fft.test.ts:81 says black pixels "should produce centered amplitude". In src/utils/fft.ts:84-100 only a column with no pixel darker than 255 reports the centre row; a column whose darkest pixel is in row 0, for example an all-black column, reports row 0 and sample 1.
