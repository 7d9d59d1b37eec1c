/**
 * The Example copy of the slider (Example/PlusMinusSlider.swift): its
 * configuration with the builder-style setters, and the view state that
 * `calculatePosition(x:)` updates in place on every drag or tap.
 */
module ExampleSlider {
  import opened SliderGeometry

  /** The stored configuration of one slider (colours, fonts and font weights are not modelled). */
  datatype Config = Config(
    barWidth: real,
    barHeight: real,
    isHideLimitValue: bool,
    isHideThumbValue: bool,
    isIntValue: bool,
    isSmoothDrag: bool,
    isUnderValue: bool,
    isVertical: bool,
    limitValueOffset: real,
    maxSFSymbolsString: string,
    maxValue: real,
    minSFSymbolsString: string,
    minValue: real,
    thumbDiameter: real,
    thumbValueOffset: real)
  {
    function Track(): SliderGeometry.Track {
      SliderGeometry.Track(barWidth, minValue, maxValue)
    }

    /** `barWidth(_:)`. */
    function WithBarWidth(width: real): (r: Config)
      ensures r.barWidth == width && r.(barWidth := barWidth) == this
    {
      this.(barWidth := width)
    }

    /** `barHeight(_:)`. */
    function WithBarHeight(height: real): (r: Config)
      ensures r.barHeight == height && r.(barHeight := barHeight) == this
    {
      this.(barHeight := height)
    }

    /** `isHideLimitValue(_:)`. */
    function WithHideLimitValue(b: bool): (r: Config)
      ensures r.isHideLimitValue == b && r.(isHideLimitValue := isHideLimitValue) == this
    {
      this.(isHideLimitValue := b)
    }

    /** `isHideThumbValue(_:)`. */
    function WithHideThumbValue(b: bool): (r: Config)
      ensures r.isHideThumbValue == b && r.(isHideThumbValue := isHideThumbValue) == this
    {
      this.(isHideThumbValue := b)
    }

    /** `isIntValue(_:)`: integer display also switches the drag to stepped mode, and back. */
    function WithIntValue(b: bool): (r: Config)
      ensures r.isIntValue == b && r.isSmoothDrag == !b
      ensures r.(isIntValue := isIntValue, isSmoothDrag := isSmoothDrag) == this
    {
      this.(isIntValue := b, isSmoothDrag := !b)
    }

    /** `isUnderValue(_:)`. */
    function WithUnderValue(b: bool): (r: Config)
      ensures r.isUnderValue == b && r.(isUnderValue := isUnderValue) == this
    {
      this.(isUnderValue := b)
    }

    /** `isVertical(_:)`. */
    function WithVertical(b: bool): (r: Config)
      ensures r.isVertical == b && r.(isVertical := isVertical) == this
    {
      this.(isVertical := b)
    }

    /** `limitValueOffset(_:)`. */
    function WithLimitValueOffset(offset: real): (r: Config)
      ensures r.limitValueOffset == offset && r.(limitValueOffset := limitValueOffset) == this
    {
      this.(limitValueOffset := offset)
    }

    /** `maxSFSymbolsString(_:)`. */
    function WithMaxSFSymbolsString(name: string): (r: Config)
      ensures r.maxSFSymbolsString == name && r.(maxSFSymbolsString := maxSFSymbolsString) == this
    {
      this.(maxSFSymbolsString := name)
    }

    /** `maxValue(_:)`. */
    function WithMaxValue(value: real): (r: Config)
      ensures r.maxValue == value && r.(maxValue := maxValue) == this
    {
      this.(maxValue := value)
    }

    /** `minSFSymbolsString(_:)`. */
    function WithMinSFSymbolsString(name: string): (r: Config)
      ensures r.minSFSymbolsString == name && r.(minSFSymbolsString := minSFSymbolsString) == this
    {
      this.(minSFSymbolsString := name)
    }

    /** `minValue(_:)`. */
    function WithMinValue(value: real): (r: Config)
      ensures r.minValue == value && r.(minValue := minValue) == this
    {
      this.(minValue := value)
    }

    /**
     * `thumbDiameter(_:)`: the diameter is clamped to the current track length,
     * the label offset follows the unclamped diameter.
     */
    function WithThumbDiameter(diameter: real): (r: Config)
      ensures r.thumbDiameter <= barWidth && r.thumbDiameter <= diameter
      ensures r.thumbDiameter == barWidth || r.thumbDiameter == diameter
      ensures r.thumbValueOffset == CheckThumbValueOffset(diameter)
      ensures r.(thumbDiameter := thumbDiameter, thumbValueOffset := thumbValueOffset) == this
    {
      var checkedDiameter := CheckValueDiameter(barWidth, diameter);
      var checkedThumbValueOffset := CheckThumbValueOffset(diameter);
      this.(thumbDiameter := checkedDiameter, thumbValueOffset := checkedThumbValueOffset)
    }

    /** `thumbValueOffset(_:)`. */
    function WithThumbValueOffset(offset: real): (r: Config)
      ensures r.thumbValueOffset == offset && r.(thumbValueOffset := thumbValueOffset) == this
    {
      this.(thumbValueOffset := offset)
    }
  }

  /**
   * The public initialiser's defaults: smooth drag, a 30-point thumb with its
   * label 30 points away. The initialiser's own default domain is [-5, 5].
   */
  function DefaultConfig(barWidth: real, maxValue: real, minValue: real): (c: Config)
    ensures c.Track() == Track(barWidth, minValue, maxValue)
    ensures c.isSmoothDrag && !c.isIntValue
    ensures c.thumbDiameter == 30.0 && c.thumbValueOffset == 30.0
    ensures c.thumbValueOffset == CheckThumbValueOffset(c.thumbDiameter)
    ensures c.barHeight == 10.0 && c.limitValueOffset == 10.0
    ensures !c.isHideLimitValue && !c.isHideThumbValue && !c.isUnderValue && !c.isVertical
    ensures c.maxSFSymbolsString == "" && c.minSFSymbolsString == ""
  {
    Config(
      barWidth := barWidth, barHeight := 10.0,
      isHideLimitValue := false, isHideThumbValue := false, isIntValue := false,
      isSmoothDrag := true, isUnderValue := false, isVertical := false,
      limitValueOffset := 10.0, maxSFSymbolsString := "", maxValue := maxValue,
      minSFSymbolsString := "", minValue := minValue,
      thumbDiameter := 30.0, thumbValueOffset := 30.0)
  }

  /**
   * One slider view: its configuration and the five numbers it keeps, the four
   * view states and the host's bound value.
   */
  class Slider {
    const config: Config
    var thumbPosition: real
    var leftBarPosition: real
    var zeroPosition: real
    var valueWidth: real
    var thumbValue: real

    function State(): SliderState
      reads this
    {
      SliderState(thumbPosition, leftBarPosition, zeroPosition, valueWidth, thumbValue)
    }

    /** The zero anchor is on the track and the fill spans from the thumb to it. */
    ghost predicate Valid()
      reads this
    {
      config.Track().Valid() && ZeroOnTrack(config.Track(), State()) && FillSpansThumbToZero(State())
    }

    /**
     * `init`: the geometry comes from `initialOperation`. The range check the
     * view's `body` performs before drawing (a `fatalError` otherwise) is the
     * precondition here.
     */
    constructor (config: Config, thumbValue: real)
      requires config.Track().Valid()
      requires config.Track().Contains(thumbValue)
      ensures Valid()
      ensures this.config == config
      ensures State() == Initialized(config.Track(), thumbValue)
    {
      this.config := config;
      this.thumbValue := thumbValue;
      var initialized := InitialOperation(config.Track(), thumbValue);
      thumbPosition := initialized.thumbPosition;
      zeroPosition := initialized.zeroPosition;
      leftBarPosition := initialized.leftBarPosition;
      valueWidth := initialized.valueWidth;
      new;
      InitialFillSpansThumbToZero(config.Track(), thumbValue);
    }

    /** `calculatePosition(x:)`, run by every drag change on the thumb. */
    method CalculatePosition(x: real)
      requires Valid()
      modifies this
      ensures Valid()
      ensures State() == Dragged(config.Track(), config.isSmoothDrag, old(State()), x)
      ensures zeroPosition == old(zeroPosition)
      ensures 0.0 < x < config.barWidth && config.isSmoothDrag ==> thumbPosition == x
      ensures x <= 0.0 ==> State() == old(State()).(thumbValue := config.minValue)
      ensures x >= config.barWidth ==> State() == old(State()).(thumbValue := config.maxValue)
    {
      ghost var before := State();
      var track := config.Track();
      var barWidth, minValue, maxValue := track.barWidth, track.minValue, track.maxValue;
      if 0.0 < x < barWidth {
        if config.isSmoothDrag {
          // the thumb's centre follows the pointer
          thumbPosition := x;
          thumbValue := SmoothValue(track, thumbPosition);
        } else {
          thumbPosition := SteppedPosition(track, x);
          thumbValue := SteppedValue(track, thumbPosition);
        }
        // signed width of the fill, negative when the thumb is left of zero
        var width := thumbPosition - zeroPosition;
        if width >= 0.0 {
          valueWidth := width;
          leftBarPosition := zeroPosition;
        } else {
          valueWidth := Abs(width);
          leftBarPosition := track.PositionOf(thumbValue);
        }
      } else if x <= 0.0 {
        thumbValue := minValue;
      } else if x >= barWidth {
        thumbValue := maxValue;
      }
      DragPreservesFill(track, config.isSmoothDrag, before, x);
    }

    /** A tap on the background track moves the thumb there, but only when it lands within [0, barWidth]. */
    method OnTrackTap(x: real)
      requires Valid()
      modifies this
      ensures Valid()
      ensures State() == if 0.0 <= x <= config.barWidth
                         then Dragged(config.Track(), config.isSmoothDrag, old(State()), x)
                         else old(State())
    {
      if 0.0 <= x <= config.barWidth {
        CalculatePosition(x);
      }
    }
  }

  /**
   * After a stepped drag on a domain of whole-number length the next `body`
   * passes its range check; SteppedDragCanOvershoot shows why the length matters.
   */
  lemma SteppedDragPassesRangeCheck(c: Config, s: SliderState, x: real, span: nat)
    requires c.Track().Valid() && !c.isSmoothDrag
    requires c.maxValue - c.minValue == span as real
    ensures c.Track().Contains(Dragged(c.Track(), c.isSmoothDrag, s, x).thumbValue)
  {
    var t := c.Track();
    if 0.0 < x < t.barWidth {
      SteppedDragStaysInRange(t, s, x, span);
    }
  }

  /** After a smooth drag the next `body` always passes its range check. */
  lemma SmoothDragPassesRangeCheck(c: Config, s: SliderState, x: real)
    requires c.Track().Valid() && c.isSmoothDrag
    ensures c.Track().Contains(Dragged(c.Track(), c.isSmoothDrag, s, x).thumbValue)
  {
    if 0.0 < x < c.barWidth {
      SmoothDragInside(c.Track(), s, x);
    }
  }
}
