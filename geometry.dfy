/**
 * The value <-> pixel geometry shared by both copies of the plus/minus slider:
 * the initial layout computed from the bound value, the drag handler that maps
 * a pointer x to a thumb position and a value, and the two thumb-sizing rules.
 * Swift's `Double` is modelled as `real`.
 */
module SliderGeometry {

  function Abs(r: real): real { if r < 0.0 then -r else r }
  function Min(a: real, b: real): real { if a <= b then a else b }
  function Max(a: real, b: real): real { if a <= b then b else a }

  /** Swift's `round`: to the nearest integer, halfway cases away from zero. */
  function Round(r: real): (n: int)
    ensures Abs(r - n as real) <= 0.5
    ensures r >= 0.0 ==> 0 <= n && r < n as real + 0.5
    ensures r < 0.0 ==> n <= 0 && n as real - 0.5 < r
  {
    if r >= 0.0 then (r + 0.5).Floor else -((0.5 - r).Floor)
  }

  /** Rounding leaves a whole number where it is. */
  lemma RoundWhole(k: int)
    ensures Round(k as real) == k
  {
    if k < 0 {
      assert (0.5 - k as real).Floor == -k;
    } else {
      assert (k as real + 0.5).Floor == k;
    }
  }

  /** The fixed part of a slider: track length in points and the value domain. */
  datatype Track = Track(barWidth: real, minValue: real, maxValue: real) {
    /** What the code needs to divide safely: a visible track and a proper domain. */
    predicate Valid() { barWidth > 0.0 && minValue < maxValue }

    /** Points per unit of value, `barWidth / (maxValue - minValue)`. */
    function Scale(): real
      requires minValue < maxValue
    {
      barWidth / (maxValue - minValue)
    }

    /** The thumb offset of value v, `barWidth / (max - min) * (v - min)`. */
    function PositionOf(v: real): real
      requires minValue < maxValue
    {
      Scale() * (v - minValue)
    }

    /** Offset p in units of value above min, `p / barWidth * (max - min)`, as the drag handler computes it. */
    function Units(p: real): real
      requires Valid()
    {
      p / barWidth * (maxValue - minValue)
    }

    /** The range check the Example copy performs before it renders. */
    predicate Contains(v: real) { minValue <= v <= maxValue }
  }

  /** The tuple `initialOperation` returns. */
  datatype Layout = Layout(thumbPosition: real, zeroPosition: real, leftBarPosition: real, valueWidth: real)

  /** The five stored numbers of one slider: four view states and the bound value. */
  datatype SliderState = SliderState(
    thumbPosition: real,
    leftBarPosition: real,
    zeroPosition: real,
    valueWidth: real,
    thumbValue: real)

  /** Which branch of `initialOperation`'s if/else-if chain fires, tested in source order. */
  datatype SignCase =
    | ValueBelowZeroInside   // min <= 0, max >= 0, value <= 0
    | AllNonPositive         // min <= 0, max <= 0, value <= 0
    | ValueAboveZeroInside   // min <= 0, max >= 0, value >= 0
    | AllNonNegative         // min >= 0, max >= 0, value >= 0
    | Fallback               // none of the above: everything zero

  function InitialCase(min: real, max: real, v: real): SignCase {
    if min <= 0.0 && max >= 0.0 && v <= 0.0 then ValueBelowZeroInside
    else if min <= 0.0 && max <= 0.0 && v <= 0.0 then AllNonPositive
    else if min <= 0.0 && max >= 0.0 && v >= 0.0 then ValueAboveZeroInside
    else if min >= 0.0 && max >= 0.0 && v >= 0.0 then AllNonNegative
    else Fallback
  }

  /** `initialOperation(max:min:thumbValue:)`: the layout of value v on track t. */
  function InitialOperation(t: Track, v: real): Layout
    requires t.minValue < t.maxValue
  {
    var bw, min, max := t.barWidth, t.minValue, t.maxValue;
    var thumbPosition := bw / (max - min) * (v - min);
    match InitialCase(min, max, v)
    case ValueBelowZeroInside =>
      Layout(thumbPosition, bw / (max - min) * -min, bw / (max - min) * (v - min), Abs(bw / (max - min) * v))
    case AllNonPositive =>
      Layout(thumbPosition, bw, bw / (max - min) * (v - min), Abs(bw / (max - min) * (v - max)))
    case ValueAboveZeroInside =>
      Layout(thumbPosition, bw / (max - min) * -min, bw / (max - min) * -min, Abs(bw / (max - min) * v))
    case AllNonNegative =>
      Layout(thumbPosition, 0.0, 0.0, bw / (max - min) * (v - min))
    case Fallback =>
      Layout(thumbPosition, 0.0, 0.0, 0.0)
  }

  /** The state a slider starts in: the initial layout and the bound value. */
  function Initialized(t: Track, v: real): SliderState
    requires t.minValue < t.maxValue
  {
    var g := InitialOperation(t, v);
    SliderState(g.thumbPosition, g.leftBarPosition, g.zeroPosition, g.valueWidth, v)
  }

  /** The fill (the coloured capsule) covers exactly the interval between thumb and zero anchor. */
  predicate FillSpansThumbToZero(s: SliderState) {
    s.leftBarPosition == Min(s.thumbPosition, s.zeroPosition) &&
    s.valueWidth == Abs(s.thumbPosition - s.zeroPosition)
  }

  /** The zero anchor lies on the track. */
  predicate ZeroOnTrack(t: Track, s: SliderState) {
    0.0 <= s.zeroPosition <= t.barWidth
  }

  /** The thumb offset a smooth drag to x produces. */
  function SmoothPosition(x: real): real { x }

  /** The thumb offset a stepped drag to x produces: x snapped to a whole number of value units. */
  function SteppedPosition(t: Track, x: real): real
    requires t.Valid()
  {
    (Round(t.Units(x)) as real) * t.barWidth / (t.maxValue - t.minValue)
  }

  /** The value a smooth drag derives from thumb offset p. */
  function SmoothValue(t: Track, p: real): real
    requires t.Valid()
  {
    t.Units(p) + t.minValue
  }

  /** The value a stepped drag derives from thumb offset p. */
  function SteppedValue(t: Track, p: real): real
    requires t.Valid()
  {
    (Round(t.Units(p)) as real) + t.minValue
  }

  /**
   * The drag handler (`calculatePosition(x:)` in the Example copy, the inline
   * `DragGesture().onChanged` closure in the package copy) as a function of the
   * state before the event.
   */
  function Dragged(t: Track, smooth: bool, s: SliderState, x: real): SliderState
    requires t.Valid()
  {
    var bw, min, max := t.barWidth, t.minValue, t.maxValue;
    if 0.0 < x < bw then
      var p := if smooth then SmoothPosition(x) else SteppedPosition(t, x);
      var v := if smooth then SmoothValue(t, p) else SteppedValue(t, p);
      var width := p - s.zeroPosition;
      if width >= 0.0 then
        s.(thumbPosition := p, thumbValue := v, valueWidth := width, leftBarPosition := s.zeroPosition)
      else
        // the left edge is recomputed from the value: `barWidth / (max - min) * (value - min)`
        s.(thumbPosition := p, thumbValue := v, valueWidth := Abs(width), leftBarPosition := t.PositionOf(v))
    else if x <= 0.0 then
      s.(thumbValue := min)
    else
      // here x >= barWidth, the last branch of the handler
      s.(thumbValue := max)
  }

  // ---------------------------------------------------------------------------
  // Thumb sizing rules used by the `thumbDiameter` setter.

  /** `checkValueDiameter`: the thumb is never wider than the track. */
  function CheckValueDiameter(barWidth: real, diameter: real): (r: real)
    ensures r <= barWidth && r <= diameter
    ensures r == barWidth || r == diameter
  {
    if barWidth <= diameter then barWidth else diameter
  }

  /**
   * `checkThumbValueOffset`: the label sits 30 points above the thumb, or 3/4 of
   * the diameter for a larger thumb; for diameters in (30, 40) that is below the
   * 30 used for smaller thumbs.
   */
  function CheckThumbValueOffset(diameter: real): (r: real)
    ensures r > 0.0
    ensures r >= diameter * 3.0 / 4.0
    ensures diameter > 30.0 ==> r == diameter * 3.0 / 4.0
    ensures r == 30.0 <==> diameter <= 30.0 || diameter == 40.0
    ensures r < 30.0 <==> 30.0 < diameter < 40.0
  {
    if diameter <= 30.0 then 30.0 else diameter * 3.0 / 4.0
  }

  // ---------------------------------------------------------------------------
  // Arithmetic of the scale factor, kept apart so each proof sees only its own step.

  lemma ScalePositive(t: Track)
    requires t.Valid()
    ensures t.Scale() > 0.0
    ensures t.Scale() * (t.maxValue - t.minValue) == t.barWidth
  {
  }

  /** Pointer x expressed in value units, `x / barWidth * (max - min)`, maps back to x under the scale. */
  lemma UnitsRoundTrip(t: Track, x: real)
    requires t.Valid()
    ensures t.Scale() * t.Units(x) == x
    ensures 0.0 < x < t.barWidth ==> 0.0 < t.Units(x) < t.maxValue - t.minValue
  {
    var span := t.maxValue - t.minValue;
    var q := x / t.barWidth;
    assert q * t.barWidth == x;
    ScalePositive(t);
    calc {
      t.Scale() * (q * span);
      q * (t.Scale() * span);
      q * t.barWidth;
    }
    if 0.0 < x < t.barWidth {
      assert 0.0 < q < 1.0 by {
        if q >= 1.0 { assert false; }
      }
      assert q * span < span;
    }
  }

  /** `n * barWidth / (max - min)`, the stepped thumb offset, is n units under the scale. */
  lemma SteppedIsScaled(t: Track, n: real)
    requires t.Valid()
    ensures n * t.barWidth / (t.maxValue - t.minValue) == t.Scale() * n
    ensures t.Units(t.Scale() * n) == n
  {
    var span := t.maxValue - t.minValue;
    ScalePositive(t);
    assert n * t.barWidth == (t.Scale() * n) * span;
    var p := t.Scale() * n;
    assert p / t.barWidth * span == p * span / t.barWidth;
    assert p * span == n * t.barWidth;
  }

  /** The scale is monotone: values in [lo, hi] map between the offsets of lo and hi. */
  lemma ScaleMonotone(t: Track, a: real, b: real)
    requires t.Valid() && a <= b
    ensures t.Scale() * a <= t.Scale() * b
  {
    ScalePositive(t);
  }

  // ---------------------------------------------------------------------------
  // Properties of the initial layout.

  /** Every position the code derives from a value in [min, max] lies on the track. */
  lemma PositionOnTrack(t: Track, v: real)
    requires t.Valid() && t.Contains(v)
    ensures 0.0 <= t.PositionOf(v) <= t.barWidth
  {
    ScalePositive(t);
    ScaleMonotone(t, 0.0, v - t.minValue);
    ScaleMonotone(t, v - t.minValue, t.maxValue - t.minValue);
  }

  /** The thumb offset `initialOperation` computes lies on the track. */
  lemma InitialThumbOnTrack(t: Track, v: real)
    requires t.Valid() && t.Contains(v)
    ensures InitialOperation(t, v).thumbPosition == t.PositionOf(v)
    ensures 0.0 <= InitialOperation(t, v).thumbPosition <= t.barWidth
  {
    PositionOnTrack(t, v);
  }

  /** The anchor of value 0, pinned to the nearer end of the track when 0 is outside the domain. */
  function ZeroAnchor(t: Track): real
    requires t.minValue < t.maxValue
  {
    if t.minValue <= 0.0 <= t.maxValue then t.PositionOf(0.0)
    else if t.maxValue < 0.0 then t.barWidth
    else 0.0
  }

  /**
   * For a value in range one of the four sign branches fires, never the
   * all-zero fallback; the zero anchor is that of ZeroAnchor and lies on the
   * track, and the fill spans exactly from the thumb to the anchor.
   */
  lemma InitialFillSpansThumbToZero(t: Track, v: real)
    requires t.Valid() && t.Contains(v)
    ensures InitialCase(t.minValue, t.maxValue, v) != Fallback
    ensures InitialOperation(t, v).zeroPosition == ZeroAnchor(t)
    ensures ZeroOnTrack(t, Initialized(t, v))
    ensures FillSpansThumbToZero(Initialized(t, v))
    ensures 0.0 <= Initialized(t, v).valueWidth <= t.barWidth
  {
    var bw, min, max := t.barWidth, t.minValue, t.maxValue;
    var k := t.Scale();
    var g := InitialOperation(t, v);
    ScalePositive(t);
    InitialThumbOnTrack(t, v);
    match InitialCase(min, max, v)
    case ValueBelowZeroInside =>
      PositionOnTrack(t, 0.0);
      assert g.zeroPosition == k * (0.0 - min);
      assert g.zeroPosition - g.thumbPosition == k * -v;
      ScaleMonotone(t, 0.0, -v);
    case AllNonPositive =>
      assert g.zeroPosition - g.thumbPosition == k * (max - v);
      ScaleMonotone(t, 0.0, max - v);
      ScaleMonotone(t, 0.0, v - min);
    case ValueAboveZeroInside =>
      PositionOnTrack(t, 0.0);
      assert g.zeroPosition == k * (0.0 - min);
      assert g.thumbPosition - g.zeroPosition == k * v;
      ScaleMonotone(t, 0.0, v);
    case AllNonNegative =>
      ScaleMonotone(t, 0.0, v - min);
    case Fallback =>
      assert false;
  }

  /**
   * The fallback fires only for a value outside [min, max]: the package copy,
   * which has no range check, draws an empty fill then.
   */
  lemma FallbackOnlyOutOfRange(t: Track, v: real)
    requires t.minValue < t.maxValue
    ensures InitialCase(t.minValue, t.maxValue, v) == Fallback ==> !t.Contains(v)
    ensures InitialCase(t.minValue, t.maxValue, v) == Fallback ==>
              InitialOperation(t, v).valueWidth == 0.0 && InitialOperation(t, v).zeroPosition == 0.0
  {
  }

  /** Without the range check a value past the maximum puts the thumb past the end of the track. */
  lemma OutOfRangeThumbLeavesTrack()
    ensures InitialCase(-5.0, 5.0, 10.0) == ValueAboveZeroInside
    ensures InitialOperation(Track(200.0, -5.0, 5.0), 10.0).thumbPosition == 300.0
  {
  }

  /** Whatever the value, the zero anchor of the initial layout is on the track. */
  lemma InitialZeroAlwaysOnTrack(t: Track, v: real)
    requires t.Valid()
    ensures ZeroOnTrack(t, Initialized(t, v))
  {
    if t.minValue <= 0.0 <= t.maxValue {
      PositionOnTrack(t, 0.0);
      assert t.PositionOf(0.0) == t.barWidth / (t.maxValue - t.minValue) * -t.minValue;
    }
  }

  // ---------------------------------------------------------------------------
  // Properties of the drag handler.

  /** A smooth drag inside the track puts the thumb under the pointer and a value strictly inside the domain there. */
  lemma SmoothDragInside(t: Track, s: SliderState, x: real)
    requires t.Valid() && 0.0 < x < t.barWidth
    ensures Dragged(t, true, s, x).thumbPosition == x
    ensures Dragged(t, true, s, x).thumbValue == x / t.barWidth * (t.maxValue - t.minValue) + t.minValue
    ensures t.minValue < Dragged(t, true, s, x).thumbValue < t.maxValue
    ensures t.PositionOf(Dragged(t, true, s, x).thumbValue) == x
  {
    var r := Dragged(t, true, s, x);
    UnitsRoundTrip(t, x);
    assert r.thumbValue == t.Units(x) + t.minValue;
    assert t.PositionOf(r.thumbValue) == t.Scale() * t.Units(x);
  }

  /** A stepped drag inside the track moves the value a whole number n of units above min, and the thumb to n units. */
  lemma SteppedDragInside(t: Track, s: SliderState, x: real)
    requires t.Valid() && 0.0 < x < t.barWidth
    ensures var n := Round(t.Units(x));
            n >= 0 &&
            Dragged(t, false, s, x).thumbValue - t.minValue == n as real &&
            Dragged(t, false, s, x).thumbPosition == n as real * t.barWidth / (t.maxValue - t.minValue) &&
            Dragged(t, false, s, x).thumbPosition == t.PositionOf(t.minValue + n as real)
  {
    var n := Round(t.Units(x));
    var p := SteppedPosition(t, x);
    SteppedIsScaled(t, n as real);
    assert t.Units(p) == n as real;
    RoundWhole(n);
    UnitsRoundTrip(t, x);
  }

  /** When max - min is a whole number, a stepped drag keeps the thumb on the track and the value in [min, max]. */
  lemma SteppedDragStaysInRange(t: Track, s: SliderState, x: real, span: nat)
    requires t.Valid() && 0.0 < x < t.barWidth
    requires t.maxValue - t.minValue == span as real
    ensures t.Contains(Dragged(t, false, s, x).thumbValue)
    ensures 0.0 <= Dragged(t, false, s, x).thumbPosition <= t.barWidth
  {
    SteppedDragInside(t, s, x);
    UnitsRoundTrip(t, x);
    var n := Round(t.Units(x));
    assert n <= span;
    PositionOnTrack(t, t.minValue + n as real);
  }

  /**
   * With a domain whose length has a fractional part above 1/2 a stepped drag
   * near the right end rounds past the maximum: barWidth 100, domain [0, 2.75],
   * pointer at 99 give value 3 and thumb offset 1200/11, beyond the track.
   */
  lemma SteppedDragCanOvershoot(s: SliderState)
    ensures Dragged(Track(100.0, 0.0, 2.75), false, s, 99.0).thumbValue == 3.0
    ensures Dragged(Track(100.0, 0.0, 2.75), false, s, 99.0).thumbPosition == 1200.0 / 11.0
    ensures !Track(100.0, 0.0, 2.75).Contains(Dragged(Track(100.0, 0.0, 2.75), false, s, 99.0).thumbValue)
  {
    var t := Track(100.0, 0.0, 2.75);
    assert 99.0 / 100.0 * 2.75 == 2.7225;
    assert Round(2.7225) == 3;
    assert SteppedPosition(t, 99.0) == 1200.0 / 11.0;
    assert 1200.0 / 11.0 / 100.0 * 2.75 == 3.0;
    RoundWhole(3);
  }

  /**
   * A drag inside the track recomputes the fill from the new thumb and the
   * unchanged zero anchor: it spans exactly between them, and in the branch
   * where the thumb is left of zero the value-based left edge
   * `barWidth / (max - min) * (value - min)` is the thumb offset itself.
   */
  lemma DragInsideSpansThumbToZero(t: Track, smooth: bool, s: SliderState, x: real)
    requires t.Valid() && 0.0 < x < t.barWidth
    ensures var r := Dragged(t, smooth, s, x);
            FillSpansThumbToZero(r) && r.valueWidth >= 0.0 &&
            r.zeroPosition == s.zeroPosition &&
            (r.thumbPosition >= r.zeroPosition ==> r.leftBarPosition == r.zeroPosition) &&
            (r.thumbPosition < r.zeroPosition ==>
               r.leftBarPosition == t.PositionOf(r.thumbValue) == r.thumbPosition &&
               r.leftBarPosition + r.valueWidth == r.zeroPosition)
  {
    var r := Dragged(t, smooth, s, x);
    if smooth {
      SmoothDragInside(t, s, x);
    } else {
      SteppedDragInside(t, s, x);
    }
    assert t.PositionOf(r.thumbValue) == r.thumbPosition;
  }

  /** A pointer at or left of the track start sets the value to min and nothing else. */
  lemma DragBeforeTrack(t: Track, smooth: bool, s: SliderState, x: real)
    requires t.Valid() && x <= 0.0
    ensures Dragged(t, smooth, s, x) == s.(thumbValue := t.minValue)
  {
  }

  /** A pointer at or right of the track end sets the value to max and nothing else. */
  lemma DragAfterTrack(t: Track, smooth: bool, s: SliderState, x: real)
    requires t.Valid() && x >= t.barWidth
    ensures Dragged(t, smooth, s, x) == s.(thumbValue := t.maxValue)
  {
  }

  /** The handler keeps the zero anchor, and any fill that spans thumb to zero still does afterwards. */
  lemma DragPreservesFill(t: Track, smooth: bool, s: SliderState, x: real)
    requires t.Valid()
    requires FillSpansThumbToZero(s)
    ensures Dragged(t, smooth, s, x).zeroPosition == s.zeroPosition
    ensures FillSpansThumbToZero(Dragged(t, smooth, s, x))
  {
    if 0.0 < x < t.barWidth {
      DragInsideSpansThumbToZero(t, smooth, s, x);
    }
  }

  /** Repeating a drag event with the same pointer x changes nothing further. */
  lemma DragIdempotent(t: Track, smooth: bool, s: SliderState, x: real)
    requires t.Valid()
    ensures Dragged(t, smooth, Dragged(t, smooth, s, x), x) == Dragged(t, smooth, s, x)
  {
  }

  /**
   * Round trip: dragging smoothly to the offset `initialOperation` gave value v
   * reproduces v and, from the initial state, the whole state.
   */
  lemma SmoothDragToInitialThumb(t: Track, v: real)
    requires t.Valid() && t.Contains(v)
    ensures var s := Initialized(t, v);
            Dragged(t, true, s, s.thumbPosition) == s
  {
    var s := Initialized(t, v);
    InitialFillSpansThumbToZero(t, v);
    InitialThumbOnTrack(t, v);
    var x := s.thumbPosition;
    if 0.0 < x < t.barWidth {
      var r := Dragged(t, true, s, x);
      DragInsideSpansThumbToZero(t, true, s, x);
      SmoothDragInside(t, s, x);
      PositionInjective(t, r.thumbValue, v);
      assert r.thumbValue == v;
      assert r.thumbPosition == s.thumbPosition && r.zeroPosition == s.zeroPosition;
    } else if x <= 0.0 {
      PositionInjective(t, t.minValue, v);
    } else {
      PositionInjective(t, t.maxValue, v);
    }
  }

  /** Distinct values have distinct offsets. */
  lemma PositionInjective(t: Track, a: real, b: real)
    requires t.Valid()
    ensures t.PositionOf(a) == t.PositionOf(b) ==> a == b
    ensures a < b ==> t.PositionOf(a) < t.PositionOf(b)
  {
    ScalePositive(t);
    if a < b {
      assert t.Scale() * (b - t.minValue) - t.Scale() * (a - t.minValue) == t.Scale() * (b - a);
    } else if b < a {
      assert t.Scale() * (a - t.minValue) - t.Scale() * (b - t.minValue) == t.Scale() * (a - b);
    }
  }

  /** A stepped drag to the offset of a value on the step grid (a whole number of units above min) reproduces that value. */
  lemma SteppedDragToGridValue(t: Track, s: SliderState, n: nat)
    requires t.Valid()
    requires 0.0 < t.PositionOf(t.minValue + n as real) < t.barWidth
    ensures var r := Dragged(t, false, s, t.PositionOf(t.minValue + n as real));
            r.thumbValue == t.minValue + n as real &&
            r.thumbPosition == t.PositionOf(t.minValue + n as real)
  {
    var x := t.PositionOf(t.minValue + n as real);
    assert x == t.Scale() * (n as real);
    SteppedIsScaled(t, n as real);
    assert t.Units(x) == n as real;
    SteppedDragInside(t, s, x);
    RoundWhole(n);
  }

  // ---------------------------------------------------------------------------
  // Worked layouts: the default domain [-5, 5] and others on a 200-point track.

  lemma ScenarioLayouts()
    ensures InitialOperation(Track(200.0, -5.0, 5.0), 0.0) == Layout(100.0, 100.0, 100.0, 0.0)
    ensures InitialOperation(Track(200.0, -5.0, 5.0), 5.0) == Layout(200.0, 100.0, 100.0, 100.0)
    ensures InitialOperation(Track(200.0, -5.0, -1.0), -5.0) == Layout(0.0, 200.0, 0.0, 200.0)
    ensures InitialOperation(Track(200.0, 2.0, 6.0), 3.0) == Layout(50.0, 0.0, 0.0, 50.0)
  {
  }

  lemma ScenarioSteppedDrag(s: SliderState)
    requires s.zeroPosition == 0.0
    ensures Dragged(Track(100.0, 0.0, 10.0), false, s, 53.0) ==
            s.(thumbPosition := 50.0, thumbValue := 5.0, valueWidth := 50.0, leftBarPosition := 0.0)
  {
    assert Round(53.0 / 100.0 * 10.0) == 5 by { assert 53.0 / 100.0 * 10.0 == 5.3; }
    RoundWhole(5);
  }
}
