/**
 * The package copy of the slider (Sources/PlusMinusSlider/PlusMinusSlider.swift):
 * a smaller configuration with its builder-style setters, no range check
 * before drawing, and the drag handler written inline in the thumb's
 * `DragGesture().onChanged` closure.
 */
module PackageSlider {
  import opened SliderGeometry

  /** The stored configuration of one slider (colours, fonts and font weights are not modelled). */
  datatype Config = Config(
    barWidth: real,
    barHeight: real,
    isHideLimitValue: bool,
    isHideThumbValue: bool,
    isIntThumb: bool,
    isSmoothDrag: bool,
    limitValueOffset: real,
    maxValue: real,
    minValue: real,
    thumbDiameter: real,
    thumbValueOffset: real)
  {
    function Track(): SliderGeometry.Track {
      SliderGeometry.Track(barWidth, minValue, maxValue)
    }

    /** `barWidth(_:)`. */
    function WithBarWidth(width: real): (r: Config)
      ensures r.barWidth == width && r.(barWidth := barWidth) == this
    {
      this.(barWidth := width)
    }

    /** `barHeight(_:)`. */
    function WithBarHeight(height: real): (r: Config)
      ensures r.barHeight == height && r.(barHeight := barHeight) == this
    {
      this.(barHeight := height)
    }

    /** `isHideLimitValue(_:)`. */
    function WithHideLimitValue(b: bool): (r: Config)
      ensures r.isHideLimitValue == b && r.(isHideLimitValue := isHideLimitValue) == this
    {
      this.(isHideLimitValue := b)
    }

    /** `isHideThumbValue(_:)`. */
    function WithHideThumbValue(b: bool): (r: Config)
      ensures r.isHideThumbValue == b && r.(isHideThumbValue := isHideThumbValue) == this
    {
      this.(isHideThumbValue := b)
    }

    /** `isIntThumb(_:)`: unlike the Example copy's `isIntValue`, it leaves the drag mode alone. */
    function WithIntThumb(b: bool): (r: Config)
      ensures r.isIntThumb == b && r.isSmoothDrag == isSmoothDrag
      ensures r.(isIntThumb := isIntThumb) == this
    {
      this.(isIntThumb := b)
    }

    /** `isSmoothDrag(_:)`: leaves the display mode alone. */
    function WithSmoothDrag(b: bool): (r: Config)
      ensures r.isSmoothDrag == b && r.isIntThumb == isIntThumb
      ensures r.(isSmoothDrag := isSmoothDrag) == this
    {
      this.(isSmoothDrag := b)
    }

    /** `limitValueOffset(_:)`. */
    function WithLimitValueOffset(offset: real): (r: Config)
      ensures r.limitValueOffset == offset && r.(limitValueOffset := limitValueOffset) == this
    {
      this.(limitValueOffset := offset)
    }

    /**
     * `thumbDiameter(_:)`: the diameter is clamped to the current track length,
     * the label offset follows the unclamped diameter.
     */
    function WithThumbDiameter(diameter: real): (r: Config)
      ensures r.thumbDiameter <= barWidth && r.thumbDiameter <= diameter
      ensures r.thumbDiameter == barWidth || r.thumbDiameter == diameter
      ensures r.thumbValueOffset == CheckThumbValueOffset(diameter)
      ensures r.(thumbDiameter := thumbDiameter, thumbValueOffset := thumbValueOffset) == this
    {
      var checkedDiameter := CheckValueDiameter(barWidth, diameter);
      var checkedThumbValueOffset := CheckThumbValueOffset(diameter);
      this.(thumbDiameter := checkedDiameter, thumbValueOffset := checkedThumbValueOffset)
    }

    /** `thumbValueOffset(_:)`. */
    function WithThumbValueOffset(offset: real): (r: Config)
      ensures r.thumbValueOffset == offset && r.(thumbValueOffset := thumbValueOffset) == this
    {
      this.(thumbValueOffset := offset)
    }
  }

  /** The public initialiser's defaults: stepped drag, a 30-point thumb with its label 30 points away. */
  function DefaultConfig(barWidth: real, maxValue: real, minValue: real): (c: Config)
    ensures c.Track() == Track(barWidth, minValue, maxValue)
    ensures !c.isSmoothDrag && !c.isIntThumb
    ensures c.thumbDiameter == 30.0 && c.thumbValueOffset == 30.0
    ensures c.thumbValueOffset == CheckThumbValueOffset(c.thumbDiameter)
    ensures c.barHeight == 10.0 && c.limitValueOffset == 10.0
    ensures !c.isHideLimitValue && !c.isHideThumbValue
  {
    Config(
      barWidth := barWidth, barHeight := 10.0,
      isHideLimitValue := false, isHideThumbValue := false, isIntThumb := false,
      isSmoothDrag := false, limitValueOffset := 10.0, maxValue := maxValue,
      minValue := minValue, thumbDiameter := 30.0, thumbValueOffset := 30.0)
  }

  /**
   * One slider view: its configuration and the five numbers it keeps, the four
   * view states and the host's bound value.
   */
  class Slider {
    const config: Config
    var thumbPosition: real
    var leftBarPosition: real
    var zeroPosition: real
    var valueWidth: real
    var thumbValue: real

    function State(): SliderState
      reads this
    {
      SliderState(thumbPosition, leftBarPosition, zeroPosition, valueWidth, thumbValue)
    }

    /**
     * What holds whatever value the host binds: the zero anchor is on the track.
     * The fill spans thumb to zero only once the value was in range or a drag
     * inside the track recomputed it.
     */
    ghost predicate Valid()
      reads this
    {
      config.Track().Valid() && ZeroOnTrack(config.Track(), State())
    }

    /** `init`: the geometry comes from `initialOperation`, and no range check follows. */
    constructor (config: Config, thumbValue: real)
      requires config.Track().Valid()
      ensures Valid()
      ensures this.config == config
      ensures State() == Initialized(config.Track(), thumbValue)
      ensures config.Track().Contains(thumbValue) ==> FillSpansThumbToZero(State())
    {
      this.config := config;
      this.thumbValue := thumbValue;
      var initialized := InitialOperation(config.Track(), thumbValue);
      thumbPosition := initialized.thumbPosition;
      zeroPosition := initialized.zeroPosition;
      leftBarPosition := initialized.leftBarPosition;
      valueWidth := initialized.valueWidth;
      new;
      InitialZeroAlwaysOnTrack(config.Track(), thumbValue);
      if config.Track().Contains(thumbValue) {
        InitialFillSpansThumbToZero(config.Track(), thumbValue);
      }
    }

    /** The thumb's `DragGesture().onChanged` closure, for the pointer's x. */
    method OnDragChanged(x: real)
      requires Valid()
      modifies this
      ensures Valid()
      ensures State() == Dragged(config.Track(), config.isSmoothDrag, old(State()), x)
      ensures zeroPosition == old(zeroPosition)
      ensures 0.0 < x < config.barWidth ==> FillSpansThumbToZero(State())
      ensures x <= 0.0 ==> State() == old(State()).(thumbValue := config.minValue)
      ensures x >= config.barWidth ==> State() == old(State()).(thumbValue := config.maxValue)
    {
      ghost var before := State();
      var track := config.Track();
      var barWidth, minValue, maxValue := track.barWidth, track.minValue, track.maxValue;
      if 0.0 < x < barWidth {
        if config.isSmoothDrag {
          // the thumb's centre follows the pointer
          thumbPosition := x;
          thumbValue := SmoothValue(track, thumbPosition);
        } else {
          thumbPosition := SteppedPosition(track, x);
          thumbValue := SteppedValue(track, thumbPosition);
        }
        // signed width of the fill, negative when the thumb is left of zero
        var width := thumbPosition - zeroPosition;
        if width >= 0.0 {
          valueWidth := width;
          leftBarPosition := zeroPosition;
        } else {
          valueWidth := Abs(width);
          leftBarPosition := track.PositionOf(thumbValue);
        }
        DragInsideSpansThumbToZero(track, config.isSmoothDrag, before, x);
      } else if x <= 0.0 {
        thumbValue := minValue;
      } else if x >= barWidth {
        thumbValue := maxValue;
      }
    }
  }
}
