/**
 The pointer-to-phase logic of `src/components/PhaseKnob.tsx`: the angle of
 the pointer around the knob's centre, turned so that 0 degrees is at the
 top, and then unwrapped by a whole turn when that lands closer to the
 knob's current value, so that crossing the top does not make the value jump.
 */
module PhaseKnob {
  import opened Numerics

  const FullTurn: real := 360.0

  /** The pointer's angle in degrees, from `atan2` of its offset from the centre. */
  function PointerAngle(tr: Trig, deltaX: real, deltaY: real): (a: real)
    ensures Valid(tr) ==> -180.0 <= a <= 180.0
  {
    PointerAngleInRange(tr, deltaX, deltaY);
    tr.atan2(deltaY, deltaX) * (180.0 / tr.pi)
  }

  lemma PointerAngleInRange(tr: Trig, deltaX: real, deltaY: real)
    ensures Valid(tr) ==> -180.0 <= tr.atan2(deltaY, deltaX) * (180.0 / tr.pi) <= 180.0
  {
    if Valid(tr) {
      var t := tr.atan2(deltaY, deltaX);
      var pi: real := tr.pi;
      var q := t / pi;
      assert -1.0 <= q <= 1.0;
      assert t * (180.0 / pi) == q * 180.0;
    }
  }

  /** Turn the angle a quarter so that 0 is at the top, then reduce with JavaScript's `%`. */
  function TopBasedAngle(angle: real): (a: real)
    ensures angle >= -450.0 ==> 0.0 <= a < FullTurn
    ensures IsWhole((angle + 90.0 - a) / FullTurn)
  {
    var r := JsRem(angle + 90.0 + FullTurn, FullTurn);
    ShiftByTurn(angle + 90.0, r);
    r
  }

  /** Congruence modulo a turn survives adding one turn to the left side. */
  lemma ShiftByTurn(b: real, r: real)
    requires IsWhole((b + FullTurn - r) / FullTurn)
    ensures IsWhole((b - r) / FullTurn)
  {
    var q := (b + FullTurn - r) / FullTurn;
    assert (b - r) / FullTurn == q - 1.0;
    assert (q - 1.0).Floor == q.Floor - 1;
  }

  /** `value % 360` as JavaScript computes it: negative values stay negative. */
  function CurrentAngle(value: real): (c: real)
    ensures value >= 0.0 ==> 0.0 <= c < FullTurn
    ensures value < 0.0 ==> -FullTurn < c <= 0.0
    ensures IsWhole((value - c) / FullTurn)
  {
    JsRem(value, FullTurn)
  }

  /**
   Of `angle`, `angle - 360` and `angle + 360`, the one to report: a shifted
   candidate is taken only when it is strictly closer to `current` than both
   others, so ties keep `angle`.
   */
  function Unwrap(angle: real, current: real): (r: real)
    ensures r == angle || r == angle - FullTurn || r == angle + FullTurn
    ensures Abs(r - current) <= Abs(angle - current)
    ensures Abs(r - current) <= Abs(angle - FullTurn - current)
    ensures Abs(r - current) <= Abs(angle + FullTurn - current)
    ensures r != angle ==> Abs(r - current) < Abs(angle - current)
  {
    var diff1 := Abs(angle - current);
    var diff2 := Abs(angle - FullTurn - current);
    var diff3 := Abs(angle + FullTurn - current);
    if diff2 < diff1 && diff2 < diff3 then angle - FullTurn
    else if diff3 < diff1 && diff3 < diff2 then angle + FullTurn
    else angle
  }

  /**
   `handleMouseMove`: the value the knob reports for a pointer at offset
   `(deltaX, deltaY)` from its centre while showing `value`. It is the
   pointer's angle turned a quarter, up to whole turns, and lies in
   `[-360, 720)`.
   */
  function DragValue(tr: Trig, value: real, deltaX: real, deltaY: real): (v: real)
    ensures IsWhole((PointerAngle(tr, deltaX, deltaY) + 90.0 - v) / FullTurn)
    ensures Valid(tr) ==> -FullTurn <= v < 2.0 * FullTurn
  {
    var pointer := PointerAngle(tr, deltaX, deltaY);
    var a := TopBasedAngle(pointer);
    var v := Unwrap(a, CurrentAngle(value));
    CandidateStaysCongruent(pointer + 90.0, a, v);
    v
  }

  /** Shifting by a whole turn keeps a value congruent to `b`. */
  lemma CandidateStaysCongruent(b: real, a: real, v: real)
    requires IsWhole((b - a) / FullTurn)
    requires v == a || v == a - FullTurn || v == a + FullTurn
    ensures IsWhole((b - v) / FullTurn)
  {
    var q := (b - a) / FullTurn;
    var d := (a - v) / FullTurn;
    assert d == 0.0 || d == 1.0 || d == -1.0;
    assert (b - v) / FullTurn == q + d;
    assert (q + d).Floor == q.Floor + d.Floor;
  }

  /*---------------------------------------------------------------------------
    Properties
   ---------------------------------------------------------------------------*/

  /** The reported value is the pointer's top-based angle or that angle shifted by one turn, and lies in `[-360, 720)`. */
  lemma DragValueIsPointerAngleModTurn(tr: Trig, value: real, deltaX: real, deltaY: real)
    requires Valid(tr)
    ensures var a := TopBasedAngle(PointerAngle(tr, deltaX, deltaY));
      && 0.0 <= a < FullTurn
      && (DragValue(tr, value, deltaX, deltaY) - a) in {-FullTurn, 0.0, FullTurn}
    ensures -FullTurn <= DragValue(tr, value, deltaX, deltaY) < 2.0 * FullTurn
  {
  }

  /** For a non-negative value the reported value is never more than half a turn from the current angle. */
  lemma NoJumpFromNonNegativeValue(tr: Trig, value: real, deltaX: real, deltaY: real)
    requires Valid(tr) && value >= 0.0
    ensures Abs(DragValue(tr, value, deltaX, deltaY) - CurrentAngle(value)) <= FullTurn / 2.0
  {
  }

  /**
   For a value in `(-360, -180)` the current angle is itself that far below
   zero, and the nearest candidate can then be more than half a turn away.
   */
  lemma NegativeValueCanJump(tr: Trig)
    requires Valid(tr)
    ensures Unwrap(359.0, CurrentAngle(-200.0)) == -1.0
    ensures Abs(Unwrap(359.0, CurrentAngle(-200.0)) - CurrentAngle(-200.0)) > FullTurn / 2.0
  {
    assert CurrentAngle(-200.0) == -200.0 by {
      TruncBounds(-200.0 / FullTurn);
    }
  }

  /**
   Values below -180 are reachable from 0: pointer angles 181 and then 2
   take the value to -179 and then to -358.
   */
  lemma ValueDriftsBelowHalfTurn()
    ensures Unwrap(181.0, CurrentAngle(0.0)) == -179.0
    ensures Unwrap(2.0, CurrentAngle(-179.0)) == -358.0
  {
    assert CurrentAngle(-179.0) == -179.0 by {
      TruncBounds(-179.0 / FullTurn);
    }
  }

  /** Pointing straight up gives 0 when the knob is near 0, and 360 when it is near 360. */
  lemma TopOfKnobUnwrapsTowardsValue()
    ensures Unwrap(0.0, 5.0) == 0.0
    ensures Unwrap(0.0, 355.0) == 360.0
    ensures Unwrap(359.0, 5.0) == -1.0
  {
  }
}
