/**
 The editing logic of `src/components/InteractiveSpectralBars.tsx`: the
 component list padded to one bar per harmonic, dragging a bar to set its
 amplitude, and turning a knob to set its phase. Each edit produces the
 index and the updated component that the widget hands to its
 `onComponentChange` callback; rendering is not modelled.
 */
module SpectralBars {
  import opened Numerics
  import opened Wave

  /** The largest amplitude a bar can be dragged to. */
  const MaxBarAmplitude: real := 2.0

  /** An in-progress drag: the bar, the pointer row and the amplitude when it started. */
  datatype DragState = DragState(barIndex: nat, startY: real, startAmplitude: real)

  /** What the widget reports upwards: which bar, and its new value. */
  datatype Change = Change(index: nat, component: SpectralComponent)

  /** The bar shown for harmonic `k` when the list has no component for it. */
  function ZeroBar(k: nat): SpectralComponent {
    SpectralComponent(k, 0.0, 0.0)
  }

  /** `components.find(c => c.k === k)`: the first component for harmonic `k`, if any. */
  function FindHarmonic(cs: seq<SpectralComponent>, k: nat): (r: Option<SpectralComponent>)
    ensures r.None? <==> forall i :: 0 <= i < |cs| ==> cs[i].k != k
    ensures r.Some? ==> exists i :: 0 <= i < |cs| && cs[i] == r.value && cs[i].k == k &&
                                    forall j :: 0 <= j < i ==> cs[j].k != k
  {
    if |cs| == 0 then None
    else if cs[0].k == k then Some(cs[0])
    else
      var r := FindHarmonic(cs[1..], k);
      assert forall i :: 1 <= i < |cs| ==> cs[i] == cs[1..][i - 1];
      r
  }

  /**
   `paddedComponents`: one bar for each harmonic `0 .. maxBars - 1`, taken from
   the first component with that `k`, or a silent bar when there is none.
   Components for higher harmonics are not shown.
   */
  function PaddedComponents(cs: seq<SpectralComponent>, maxBars: nat): (bars: seq<SpectralComponent>)
    ensures |bars| == maxBars
    ensures forall k :: 0 <= k < maxBars ==> bars[k].k == k
    ensures forall k :: 0 <= k < maxBars ==>
      (bars[k] in cs <==> exists i :: 0 <= i < |cs| && cs[i].k == k)
    ensures forall k :: 0 <= k < maxBars && (forall i :: 0 <= i < |cs| ==> cs[i].k != k) ==> bars[k] == ZeroBar(k)
    ensures forall k, i :: 0 <= k < maxBars && 0 <= i < |cs| && cs[i].k == k && (forall j :: 0 <= j < i ==> cs[j].k != k) ==>
      bars[k] == cs[i]
  {
    seq(maxBars, k requires 0 <= k < maxBars =>
      match FindHarmonic(cs, k)
      case Some(c) => c
      case None => ZeroBar(k))
  }

  /**
   The amplitude while dragging: moving the pointer up by the full bar area
   height adds 2, and the result is clamped to `[0, 2]`.
   */
  function DragAmplitude(startAmplitude: real, startY: real, clientY: real, barAreaHeight: real): (a: real)
    requires barAreaHeight != 0.0
    ensures 0.0 <= a <= MaxBarAmplitude
    ensures var v := Unclamped(startAmplitude, startY, clientY, barAreaHeight);
      && (0.0 <= v <= MaxBarAmplitude ==> a == v)
      && (v < 0.0 ==> a == 0.0)
      && (v > MaxBarAmplitude ==> a == MaxBarAmplitude)
  {
    var deltaY := startY - clientY;
    var amplitudeChange := (deltaY / barAreaHeight) * 2.0;
    Clamp(startAmplitude + amplitudeChange, 0.0, MaxBarAmplitude)
  }

  /** The dragged amplitude before clamping: the full bar area height is worth 2. */
  function Unclamped(startAmplitude: real, startY: real, clientY: real, barAreaHeight: real): real
    requires barAreaHeight != 0.0
  {
    startAmplitude + 2.0 * (startY - clientY) / barAreaHeight
  }

  /** `handleBarMouseDown`: remember the bar, the pointer row and the bar's amplitude. */
  function BeginDrag(bars: seq<SpectralComponent>, barIndex: nat, clientY: real): (d: DragState)
    requires barIndex < |bars|
    ensures d.barIndex == barIndex && d.startY == clientY && d.startAmplitude == bars[barIndex].amplitude
  {
    DragState(barIndex, clientY, bars[barIndex].amplitude)
  }

  /**
   `handleMouseMove`: without a drag nothing is reported; during one, the
   dragged bar is reported with only its amplitude replaced.
   */
  function HandleMouseMove(bars: seq<SpectralComponent>, drag: Option<DragState>, clientY: real,
                           barAreaHeight: real): (r: Option<Change>)
    requires drag.Some? ==> drag.value.barIndex < |bars|
    requires barAreaHeight != 0.0
    ensures drag.None? <==> r.None?
    ensures r.Some? ==>
      var i := drag.value.barIndex;
      && r.value.index == i
      && r.value.component.k == bars[i].k
      && r.value.component.phase == bars[i].phase
      && r.value.component.amplitude == DragAmplitude(drag.value.startAmplitude, drag.value.startY, clientY, barAreaHeight)
      && 0.0 <= r.value.component.amplitude <= MaxBarAmplitude
  {
    match drag
    case None => None
    case Some(d) =>
      var amplitude := DragAmplitude(d.startAmplitude, d.startY, clientY, barAreaHeight);
      Some(Change(d.barIndex, bars[d.barIndex].(amplitude := amplitude)))
  }

  /** `handleMouseUp` (also bound to leaving the widget): the drag ends. */
  function HandleMouseUp(drag: Option<DragState>): Option<DragState> {
    None
  }

  /** `handlePhaseChange`: report the bar with only its phase replaced. */
  function HandleBarPhaseChange(bars: seq<SpectralComponent>, barIndex: nat, phase: real): (c: Change)
    requires barIndex < |bars|
    ensures c.index == barIndex
    ensures c.component.k == bars[barIndex].k && c.component.amplitude == bars[barIndex].amplitude
    ensures c.component.phase == phase
  {
    Change(barIndex, bars[barIndex].(phase := phase))
  }

  /*---------------------------------------------------------------------------
    Properties
   ---------------------------------------------------------------------------*/

  /** A list already holding one bar per harmonic, in order. */
  predicate Canonical(cs: seq<SpectralComponent>) {
    forall i :: 0 <= i < |cs| ==> cs[i].k == i
  }

  /** Padding a list that is already one bar per harmonic gives it back unchanged. */
  lemma PaddingCanonicalIsIdentity(cs: seq<SpectralComponent>)
    requires Canonical(cs)
    ensures PaddedComponents(cs, |cs|) == cs
  {
    var bars := PaddedComponents(cs, |cs|);
    forall k | 0 <= k < |cs|
      ensures bars[k] == cs[k]
    {
      var r := FindHarmonic(cs, k);
      assert cs[k].k == k;
      var i :| 0 <= i < |cs| && cs[i] == r.value && cs[i].k == k && forall j :: 0 <= j < i ==> cs[j].k != k;
    }
  }

  /** Padding is idempotent. */
  lemma PaddingIsIdempotent(cs: seq<SpectralComponent>, maxBars: nat)
    ensures PaddedComponents(PaddedComponents(cs, maxBars), maxBars) == PaddedComponents(cs, maxBars)
  {
    PaddingCanonicalIsIdentity(PaddedComponents(cs, maxBars));
  }

  /** The bar for harmonic `k` is the first listed component for `k`: a later duplicate is hidden. */
  lemma FirstDuplicateWins(a: SpectralComponent, b: SpectralComponent, maxBars: nat)
    requires a.k == b.k < maxBars
    ensures PaddedComponents([a, b], maxBars)[a.k] == a
  {
  }

  /** Releasing the pointer where it was pressed leaves an in-range amplitude as it was. */
  lemma StillPointerKeepsAmplitude(startAmplitude: real, y: real, barAreaHeight: real)
    requires barAreaHeight != 0.0 && 0.0 <= startAmplitude <= MaxBarAmplitude
    ensures DragAmplitude(startAmplitude, y, y, barAreaHeight) == startAmplitude
  {
  }

  /** With a positive bar area, moving the pointer further up never lowers the amplitude. */
  lemma DragIsMonotone(startAmplitude: real, startY: real, y1: real, y2: real, barAreaHeight: real)
    requires barAreaHeight > 0.0 && y1 <= y2
    ensures DragAmplitude(startAmplitude, startY, y2, barAreaHeight) <= DragAmplitude(startAmplitude, startY, y1, barAreaHeight)
  {
    var c1 := (startY - y1) / barAreaHeight;
    var c2 := (startY - y2) / barAreaHeight;
    var diff := (y2 - y1) / barAreaHeight;
    assert c1 - c2 == diff;
    assert diff >= 0.0;
  }

  /** Dragging up by the whole bar area from silence gives full scale. */
  lemma FullDragReachesMaximum(startY: real, barAreaHeight: real)
    requires barAreaHeight > 0.0
    ensures DragAmplitude(0.0, startY, startY - barAreaHeight, barAreaHeight) == MaxBarAmplitude
  {
    assert (startY - (startY - barAreaHeight)) / barAreaHeight == 1.0;
  }

  /** After the pointer is released, moving it reports nothing until the next press. */
  lemma ReleaseStopsReports(bars: seq<SpectralComponent>, drag: Option<DragState>, clientY: real, barAreaHeight: real)
    requires barAreaHeight != 0.0
    ensures HandleMouseMove(bars, HandleMouseUp(drag), clientY, barAreaHeight).None?
  {
  }

  /** Pressing a bar and moving without displacement reports that bar unchanged. */
  lemma PressWithoutMoveReportsBar(bars: seq<SpectralComponent>, barIndex: nat, y: real, barAreaHeight: real)
    requires barIndex < |bars| && barAreaHeight != 0.0
    requires 0.0 <= bars[barIndex].amplitude <= MaxBarAmplitude
    ensures HandleMouseMove(bars, Some(BeginDrag(bars, barIndex, y)), y, barAreaHeight) == Some(Change(barIndex, bars[barIndex]))
  {
    StillPointerKeepsAmplitude(bars[barIndex].amplitude, y, barAreaHeight);
  }
}
