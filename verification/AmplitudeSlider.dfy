/**
 The geometry of the vertical fader in `src/components/AmplitudeSlider.tsx`:
 where the handle sits for a value in `[0, 2]`, and which value a pointer row
 inside the fader selects. The top of the travel is the maximum.
 */
module AmplitudeSlider {
  import opened Numerics

  const FaderHeight: real := 200.0
  const HandleHeight: real := 20.0

  /** The distance the handle's top edge can move. */
  const Travel: real := FaderHeight - HandleHeight

  const MaxValue: real := 2.0

  /** Offset of the handle's top edge from the fader's top for `value`. */
  function HandlePosition(value: real): (pos: real)
    ensures 0.0 <= value <= MaxValue ==> 0.0 <= pos <= Travel
    ensures value == MaxValue ==> pos == 0.0
    ensures value == 0.0 ==> pos == Travel
  {
    ((MaxValue - value) / MaxValue) * Travel
  }

  /** The pointer row, moved up by half a handle, clamped into the travel. */
  function NormalizedY(y: real): (n: real)
    ensures 0.0 <= n <= Travel
  {
    Clamp(y - HandleHeight / 2.0, 0.0, Travel)
  }

  /** The value for a row within the travel, before the final clamp. */
  function RawValue(normalizedY: real): real {
    MaxValue - (normalizedY / Travel) * MaxValue
  }

  /** The value the pointer at row `y` (relative to the fader's top) selects. */
  function PointerValue(y: real): (v: real)
    ensures 0.0 <= v <= MaxValue
  {
    Clamp(RawValue(NormalizedY(y)), 0.0, MaxValue)
  }

  /*---------------------------------------------------------------------------
    Properties
   ---------------------------------------------------------------------------*/

  /** After the first clamp the second one never changes anything. */
  lemma SecondClampIsRedundant(y: real)
    ensures 0.0 <= RawValue(NormalizedY(y)) <= MaxValue
    ensures PointerValue(y) == RawValue(NormalizedY(y))
  {
    var n := NormalizedY(y);
    var f := n / Travel;
    assert 0.0 <= f <= 1.0;
  }

  /** Pressing at the centre of the handle selects the value the handle shows. */
  lemma PressingHandleCentreKeepsValue(value: real)
    requires 0.0 <= value <= MaxValue
    ensures PointerValue(HandlePosition(value) + HandleHeight / 2.0) == value
  {
    var pos := HandlePosition(value);
    assert NormalizedY(pos + HandleHeight / 2.0) == pos;
    SecondClampIsRedundant(pos + HandleHeight / 2.0);
    var f := (MaxValue - value) / MaxValue;
    assert pos / Travel == f;
  }

  /** Moving the handle to the value selected at row `y` puts its centre under the pointer, within the travel. */
  lemma HandleFollowsPointer(y: real)
    requires HandleHeight / 2.0 <= y <= Travel + HandleHeight / 2.0
    ensures HandlePosition(PointerValue(y)) + HandleHeight / 2.0 == y
  {
    SecondClampIsRedundant(y);
    var n := NormalizedY(y);
    assert n == y - HandleHeight / 2.0;
    var f := n / Travel;
    assert f * Travel == n;
  }

  /** Lower pointer rows never select larger values. */
  lemma PointerValueIsMonotone(y1: real, y2: real)
    requires y1 <= y2
    ensures PointerValue(y2) <= PointerValue(y1)
  {
    SecondClampIsRedundant(y1);
    SecondClampIsRedundant(y2);
    var n1 := NormalizedY(y1);
    var n2 := NormalizedY(y2);
    assert n1 <= n2;
    assert n1 / Travel <= n2 / Travel;
  }

  /** Above the fader the value is 2; below the travel it is 0. */
  lemma PointerBeyondEndsSaturates(y: real)
    ensures y <= HandleHeight / 2.0 ==> PointerValue(y) == MaxValue
    ensures y >= Travel + HandleHeight / 2.0 ==> PointerValue(y) == 0.0
  {
  }
}
