/**
 The state of the first lesson, `src/modules/Module0_SingleSine.tsx`: the
 wave being edited and two sticky flags that record whether the learner has
 moved the amplitude and the phase far enough to finish the lesson.
 */
module SingleSine {
  import opened Numerics
  import opened Wave

  /** How far from 1.0 the amplitude must move to count as adjusted. */
  const AmplitudeThreshold: real := 0.1

  /** How far from 0 the phase must move (in degrees) to count as adjusted. */
  const PhaseThreshold: real := 10.0

  datatype LessonState = LessonState(waveParams: WaveParams, hasAdjustedAmplitude: bool, hasAdjustedPhase: bool)

  /** A change reported by the amplitude slider or the phase knob. */
  datatype Control = AmplitudeChange(amplitude: real) | PhaseChange(phase: real)

  /**
   Amplitude 1, frequency 3, phase 0, neither flag set. The starting values
   lie inside both thresholds, so the lesson does not start complete and
   setting a control back to its starting value raises no flag.
   */
  function Initial(): (s: LessonState)
    ensures !s.hasAdjustedAmplitude && !s.hasAdjustedPhase && !IsComplete(s)
    ensures !MovesAmplitude(s.waveParams.amplitude) && !MovesPhase(s.waveParams.phase)
  {
    LessonState(WaveParams(1.0, 3.0, 0.0), false, false)
  }

  /** `updateAmplitude`: replace the amplitude, keep everything else. */
  function UpdateAmplitude(p: WaveParams, amplitude: real): (q: WaveParams)
    ensures q.amplitude == amplitude && q.frequency == p.frequency && q.phase == p.phase
  {
    p.(amplitude := amplitude)
  }

  /** `updatePhase`: replace the phase, keep everything else. */
  function UpdatePhase(p: WaveParams, phase: real): (q: WaveParams)
    ensures q.phase == phase && q.frequency == p.frequency && q.amplitude == p.amplitude
  {
    p.(phase := phase)
  }

  predicate MovesAmplitude(amplitude: real) {
    Abs(amplitude - 1.0) > AmplitudeThreshold
  }

  predicate MovesPhase(phase: real) {
    Abs(phase) > PhaseThreshold
  }

  /** `handleAmplitudeChange`: raise the amplitude flag on a large enough move, then update. */
  function HandleAmplitudeChange(s: LessonState, amplitude: real): (t: LessonState)
    ensures t.waveParams == UpdateAmplitude(s.waveParams, amplitude)
    ensures t.hasAdjustedAmplitude <==> s.hasAdjustedAmplitude || MovesAmplitude(amplitude)
    ensures t.hasAdjustedPhase == s.hasAdjustedPhase
  {
    var flagged := if MovesAmplitude(amplitude) then s.(hasAdjustedAmplitude := true) else s;
    flagged.(waveParams := UpdateAmplitude(s.waveParams, amplitude))
  }

  /** `handlePhaseChange`: raise the phase flag on a large enough move, then update. */
  function HandlePhaseChange(s: LessonState, phase: real): (t: LessonState)
    ensures t.waveParams == UpdatePhase(s.waveParams, phase)
    ensures t.hasAdjustedPhase <==> s.hasAdjustedPhase || MovesPhase(phase)
    ensures t.hasAdjustedAmplitude == s.hasAdjustedAmplitude
  {
    var flagged := if MovesPhase(phase) then s.(hasAdjustedPhase := true) else s;
    flagged.(waveParams := UpdatePhase(s.waveParams, phase))
  }

  /** `isComplete`: both controls have been moved. */
  predicate IsComplete(s: LessonState) {
    s.hasAdjustedAmplitude && s.hasAdjustedPhase
  }

  function Step(s: LessonState, c: Control): LessonState {
    match c
    case AmplitudeChange(a) => HandleAmplitudeChange(s, a)
    case PhaseChange(p) => HandlePhaseChange(s, p)
  }

  function Run(s: LessonState, cs: seq<Control>): LessonState
    decreases |cs|
  {
    if |cs| == 0 then s else Run(Step(s, cs[0]), cs[1..])
  }

  predicate LargeAmplitudeMove(c: Control) {
    c.AmplitudeChange? && MovesAmplitude(c.amplitude)
  }

  predicate LargePhaseMove(c: Control) {
    c.PhaseChange? && MovesPhase(c.phase)
  }

  /**
   After a sequence of changes the amplitude flag is set exactly when it was
   set before or one of the changes moved the amplitude far enough; likewise
   for the phase flag. In particular neither flag ever goes back to false.
   */
  lemma {:induction false} FlagsRecordLargeMoves(s: LessonState, cs: seq<Control>)
    ensures Run(s, cs).hasAdjustedAmplitude <==>
      s.hasAdjustedAmplitude || exists i :: 0 <= i < |cs| && LargeAmplitudeMove(cs[i])
    ensures Run(s, cs).hasAdjustedPhase <==>
      s.hasAdjustedPhase || exists i :: 0 <= i < |cs| && LargePhaseMove(cs[i])
    decreases |cs|
  {
    if |cs| > 0 {
      var rest := cs[1..];
      FlagsRecordLargeMoves(Step(s, cs[0]), rest);
      forall i | 0 <= i < |rest|
        ensures rest[i] == cs[i + 1]
      {
      }
      if exists i :: 0 <= i < |cs| && LargeAmplitudeMove(cs[i]) {
        var i :| 0 <= i < |cs| && LargeAmplitudeMove(cs[i]);
        if i > 0 {
          assert LargeAmplitudeMove(rest[i - 1]);
        }
      }
      if exists i :: 0 <= i < |cs| && LargePhaseMove(cs[i]) {
        var i :| 0 <= i < |cs| && LargePhaseMove(cs[i]);
        if i > 0 {
          assert LargePhaseMove(rest[i - 1]);
        }
      }
    }
  }

  /** The flags are sticky: once set, no change clears them. */
  lemma FlagsAreSticky(s: LessonState, cs: seq<Control>)
    ensures s.hasAdjustedAmplitude ==> Run(s, cs).hasAdjustedAmplitude
    ensures s.hasAdjustedPhase ==> Run(s, cs).hasAdjustedPhase
  {
    FlagsRecordLargeMoves(s, cs);
  }

  /** Once complete, the lesson stays complete whatever the learner does next. */
  lemma CompletionIsSticky(s: LessonState, cs: seq<Control>)
    requires IsComplete(s)
    ensures IsComplete(Run(s, cs))
  {
    FlagsAreSticky(s, cs);
  }

  /** The lesson is complete exactly when both a large amplitude move and a large phase move happened. */
  lemma CompletionNeedsBothMoves(cs: seq<Control>)
    ensures IsComplete(Run(Initial(), cs)) <==>
      (exists i :: 0 <= i < |cs| && LargeAmplitudeMove(cs[i])) && (exists j :: 0 <= j < |cs| && LargePhaseMove(cs[j]))
  {
    FlagsRecordLargeMoves(Initial(), cs);
  }
}
