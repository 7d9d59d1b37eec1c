# Plus/minus slider geometry, in Dafny

This project models the numeric core of the SwiftUI `PlusMinusSlider` control.
The control is a horizontal track whose thumb selects a value in `[minValue, maxValue]`.
A coloured fill runs from the pixel of value 0, the *zero anchor*, to the thumb, so negative values fill leftwards and positive values rightwards.
The repository holds two near-identical copies of the control:

- `Example/PlusMinusSlider.swift`: the drag handler is the method `calculatePosition(x:)`, and `body` refuses to draw a value outside the domain.
- `Sources/PlusMinusSlider/PlusMinusSlider.swift`: the package copy. The same handler is inlined in the thumb's `DragGesture().onChanged` closure. There is no range check, the configuration is smaller, and the default drag mode is stepped.

Swift's `Double` is modelled as Dafny `real`. The layout and drag formulas divide by `maxValue - minValue`, so `initialOperation`, the drag handler and the constructors require `minValue < maxValue`. The setters and the two sizing rules have no precondition. The drag handler divides by `barWidth` only when `0 < x < barWidth`, so it never divides by zero. The model still requires `barWidth > 0` for the drag handler and the classes (`Track.Valid()`). That is a modelling choice: it excludes a degenerate track with no room for the thumb.

Modules:

- `SliderGeometry` (`geometry.dfy`) holds the logic both copies share:
  - `initialOperation`, as `InitialOperation`, with its five-way sign case split `InitialCase`.
  - The drag handler, as the state function `Dragged`.
  - Swift's `round` (nearest integer, halfway cases away from zero).
  - `checkValueDiameter` and `checkThumbValueOffset`.
  - The lemmas about all of these.
  - `Example/PlusMinusSlider.swift:475-518` and `Sources/PlusMinusSlider/PlusMinusSlider.swift:430-480` are the same code apart from debug prints. So are `Example/PlusMinusSlider.swift:520-570` and `Sources/PlusMinusSlider/PlusMinusSlider.swift:139-185`, and the two pairs of check functions. Rows below cite one copy when a member models both.
- `ExampleSlider` (`example_slider.dfy`) is the Example copy:
  - its `Config` datatype with the builder setters, and its defaults;
  - a class `Slider` holding the four view states and the bound value. Its `CalculatePosition` method assigns them in the source's order and is proved equal to `Dragged`.
- `PackageSlider` (`package_slider.dfy`) is the package copy, built the same way, with the method `OnDragChanged`.

Each Swift setter builds a new view through the private initialiser, which runs `initialOperation` again. In the model, the geometry of a reconfigured slider is therefore that of a fresh `Slider` constructed from the new `Config`.

Points about the code's behaviour that a reader might not expect:

- `init` performs no range check. The Example copy's `body` stops with `fatalError` before drawing an out-of-range value, and the package copy has no check at all. The model turns the Example check into the constructor's precondition. The package constructor has none.
- For a diameter above 30, the label offset is `3/4 * diameter` (Example/PlusMinusSlider.swift:284). On the open interval (30, 40) that is below the 30 used for smaller thumbs. `CheckThumbValueOffset` states both.
- In the Example copy, `isIntValue(b)` also sets `isSmoothDrag = !b`, and there is no `isSmoothDrag` setter. In the package copy, `isIntThumb` and `isSmoothDrag` are independent.
- In stepped mode the value is not always kept inside `[min, max]`. That holds when `max - min` is a whole number (`SteppedDragStaysInRange`). When the fractional part of `max - min` is above 1/2, rounding can overshoot the maximum (`SteppedDragCanOvershoot`). After such a drag, the Example copy's range check fails on the next render.

## Model

| member | source | states |
|---|---|---|
| `SliderGeometry.Round` | Example/PlusMinusSlider.swift:534-536 | Swift `round`: the result is within 1/2 of its argument; for a non-negative argument it is non-negative and halfway cases round up; for a negative one, down |
| `SliderGeometry.RoundWhole` | Example/PlusMinusSlider.swift:536 | rounding a whole number gives the same number, which is why the nested `round` of a stepped drag changes nothing |
| `SliderGeometry.CheckValueDiameter` | Example/PlusMinusSlider.swift:262-274 | the thumb diameter is the smaller of the requested diameter and the track length: at most both, and equal to one of them |
| `SliderGeometry.CheckThumbValueOffset` | Example/PlusMinusSlider.swift:276-288 | the label offset is positive and at least 3/4 of the diameter. It is 30 for a diameter up to 30 and exactly `3/4` of the diameter above 30. It is exactly 30 iff the diameter is at most 30 or equals 40, and below 30 iff the diameter is in (30, 40) |
| `SliderGeometry.UnitsRoundTrip` | Example/PlusMinusSlider.swift:530 | converting a pointer x to value units (`x / barWidth * (max - min)`) and back with the scale `barWidth / (max - min)` gives x. A pointer strictly inside the track is strictly between 0 and `max - min` units |
| `SliderGeometry.SteppedIsScaled` | Example/PlusMinusSlider.swift:534-536 | the stepped offset `n * barWidth / (max - min)` equals n times the scale, and converting it back to units gives n |
| `SliderGeometry.PositionOnTrack` | Example/PlusMinusSlider.swift:482 | on a valid track, the offset `barWidth / (max - min) * (v - min)` of any value in [min, max] lies in [0, barWidth] |
| `SliderGeometry.PositionInjective` | Example/PlusMinusSlider.swift:482 | the value-to-offset map is strictly increasing, so two values with the same offset are equal |
| `SliderGeometry.InitialThumbOnTrack` | Example/PlusMinusSlider.swift:482 | for a value in [min, max] (the check at Example/PlusMinusSlider.swift:87-91), the initial thumb offset is the value's offset and lies in [0, barWidth] |
| `SliderGeometry.InitialFillSpansThumbToZero` | Example/PlusMinusSlider.swift:484-513 | for a value in range, one of the four sign branches fires, never the all-zero fallback. The zero anchor is the offset of 0, or the nearer track end when 0 is outside the domain, and lies in [0, barWidth]. The fill's left edge is min(thumb, anchor), and its width is abs(thumb - anchor), which lies in [0, barWidth] |
| `SliderGeometry.FallbackOnlyOutOfRange` | Sources/PlusMinusSlider/PlusMinusSlider.swift:470-476 | if the fallback branch fires, the value is outside [min, max]; it then yields anchor 0 and width 0 |
| `SliderGeometry.OutOfRangeThumbLeavesTrack` | Sources/PlusMinusSlider/PlusMinusSlider.swift:437 | without a range check, value 10 on domain [-5, 5] with a 200-point track takes the third branch and puts the thumb at 300, past the track end |
| `SliderGeometry.InitialZeroAlwaysOnTrack` | Sources/PlusMinusSlider/PlusMinusSlider.swift:439-476 | whatever the bound value, even out of range, the initial zero anchor lies in [0, barWidth] |
| `SliderGeometry.SmoothDragInside` | Example/PlusMinusSlider.swift:524-531 | a smooth drag to 0 < x < barWidth puts the thumb at x and sets the value to `x / barWidth * (max - min) + min`. That value lies strictly in (min, max), and its offset under the initial-layout formula is x again |
| `SliderGeometry.SteppedDragInside` | Example/PlusMinusSlider.swift:532-537 | a stepped drag to 0 < x < barWidth sets the value to min + n, with n = round(x / barWidth * (max - min)) a natural number, and the thumb to `n * barWidth / (max - min)`, the offset of min + n |
| `SliderGeometry.SteppedDragStaysInRange` | Example/PlusMinusSlider.swift:532-537 | when max - min is a whole number, a stepped drag inside the track keeps the value in [min, max] and the thumb in [0, barWidth] |
| `SliderGeometry.SteppedDragCanOvershoot` | Example/PlusMinusSlider.swift:534-536 | on track 100 with domain [0, 2.75], a stepped drag to 99 sets value 3, above the maximum, and thumb offset 1200/11, past the track |
| `SliderGeometry.SteppedDragToGridValue` | Example/PlusMinusSlider.swift:534-536 | a stepped drag to the offset of a value min + n with n a whole number reproduces that value and that offset |
| `SliderGeometry.DragInsideSpansThumbToZero` | Example/PlusMinusSlider.swift:541-556 | after a drag inside the track, in either mode: the anchor is unchanged, the width is non-negative, and the fill spans thumb to anchor. With the thumb at or right of the anchor, the left edge is the anchor. Left of it, the value-based left edge `barWidth / (max - min) * (value - min)` is the thumb offset, and left edge plus width is the anchor |
| `SliderGeometry.DragBeforeTrack` | Example/PlusMinusSlider.swift:558-562 | a pointer at x <= 0 sets the value to min and leaves the four view states unchanged |
| `SliderGeometry.DragAfterTrack` | Example/PlusMinusSlider.swift:563-567 | a pointer at x >= barWidth sets the value to max and leaves the four view states unchanged |
| `SliderGeometry.DragPreservesFill` | Example/PlusMinusSlider.swift:520-570 | the handler never moves the zero anchor and keeps "the fill spans thumb to anchor" for every pointer x |
| `SliderGeometry.DragIdempotent` | Example/PlusMinusSlider.swift:520-570 | handling the same pointer x twice leaves the state the first event produced |
| `SliderGeometry.SmoothDragToInitialThumb` | Example/PlusMinusSlider.swift:475-531 | round trip: for a value in range, a smooth drag to the thumb offset `initialOperation` computed restores the initial state exactly, bound value included. This covers the track ends too, where the clamping branches fire |
| `SliderGeometry.ScenarioLayouts` | Example/PlusMinusSlider.swift:475-518 | worked layouts on a 200-point track: value 0 on [-5, 5] gives thumb 100, anchor 100, width 0. Value 5 gives thumb 200, left edge 100, width 100. Value -5 on [-5, -1] gives anchor 200, width 200. Value 3 on [2, 6] gives thumb 50, anchor 0, width 50 |
| `SliderGeometry.ScenarioSteppedDrag` | Example/PlusMinusSlider.swift:532-556 | a stepped drag to 53 on track 100 with domain [0, 10] and anchor 0 gives thumb 50, value 5, fill 0..50 |
| `ExampleSlider.Config.WithBarWidth` | Example/PlusMinusSlider.swift:291-295 | stores the new track length; every other field is unchanged |
| `ExampleSlider.Config.WithBarHeight` | Example/PlusMinusSlider.swift:298-302 | stores the new bar height; every other field is unchanged |
| `ExampleSlider.Config.WithHideLimitValue` | Example/PlusMinusSlider.swift:305-309 | stores the flag; every other field is unchanged |
| `ExampleSlider.Config.WithHideThumbValue` | Example/PlusMinusSlider.swift:312-316 | stores the flag; every other field is unchanged |
| `ExampleSlider.Config.WithIntValue` | Example/PlusMinusSlider.swift:319-323 | stores `isIntValue = b` and also `isSmoothDrag = !b`; every other field is unchanged |
| `ExampleSlider.Config.WithUnderValue` | Example/PlusMinusSlider.swift:326-330 | stores the flag; every other field is unchanged |
| `ExampleSlider.Config.WithVertical` | Example/PlusMinusSlider.swift:333-337 | stores the flag; every other field is unchanged |
| `ExampleSlider.Config.WithLimitValueOffset` | Example/PlusMinusSlider.swift:340-344 | stores the offset; every other field is unchanged |
| `ExampleSlider.Config.WithMaxSFSymbolsString` | Example/PlusMinusSlider.swift:347-351 | stores the symbol name; every other field is unchanged |
| `ExampleSlider.Config.WithMaxValue` | Example/PlusMinusSlider.swift:354-358 | stores the maximum; every other field is unchanged |
| `ExampleSlider.Config.WithMinSFSymbolsString` | Example/PlusMinusSlider.swift:382-386 | stores the symbol name; every other field is unchanged |
| `ExampleSlider.Config.WithMinValue` | Example/PlusMinusSlider.swift:389-393 | stores the minimum; every other field is unchanged |
| `ExampleSlider.Config.WithThumbDiameter` | Example/PlusMinusSlider.swift:431-438 | the stored diameter is at most the current track length and the request, and equals one of them. The label offset is `CheckThumbValueOffset` of the unclamped request. Every other field is unchanged |
| `ExampleSlider.Config.WithThumbValueOffset` | Example/PlusMinusSlider.swift:462-466 | stores the offset; every other field is unchanged |
| `ExampleSlider.DefaultConfig` | Example/PlusMinusSlider.swift:45-73 | the public initialiser's configuration: the given track and domain, and smooth drag with decimal display. The thumb is 30 points with its label 30 points away, which agrees with the sizing rule. Bar height and limit-label offset are 10. The hide, under-value and vertical flags are off, and both symbol names are empty |
| `ExampleSlider.Slider.constructor` | Example/PlusMinusSlider.swift:45-91 | for a value that passes `body`'s range check, the state is the value plus the `initialOperation` layout, and the class invariant holds: anchor on the track, fill spanning thumb to anchor |
| `ExampleSlider.Slider.CalculatePosition` | Example/PlusMinusSlider.swift:520-570 | the new state is `Dragged` of the old state, and the invariant is kept. The anchor never moves. A smooth drag inside the track puts the thumb at x. A pointer at or beyond an end changes only the value, to min or to max |
| `ExampleSlider.Slider.OnTrackTap` | Example/PlusMinusSlider.swift:118-125 | a tap on the background track at 0 <= x <= barWidth acts as a drag to x; any other tap changes nothing |
| `ExampleSlider.SteppedDragPassesRangeCheck` | Example/PlusMinusSlider.swift:87-91 | with stepped drag and a whole-number domain length, the value is in range after any drag, whatever it was before, so the next `body` does not stop |
| `ExampleSlider.SmoothDragPassesRangeCheck` | Example/PlusMinusSlider.swift:87-91 | with smooth drag, the value is in range after any drag, whatever it was before |
| `PackageSlider.Config.WithBarWidth` | Sources/PlusMinusSlider/PlusMinusSlider.swift:281-285 | stores the new track length; every other field is unchanged |
| `PackageSlider.Config.WithBarHeight` | Sources/PlusMinusSlider/PlusMinusSlider.swift:288-292 | stores the new bar height; every other field is unchanged |
| `PackageSlider.Config.WithHideLimitValue` | Sources/PlusMinusSlider/PlusMinusSlider.swift:295-299 | stores the flag; every other field is unchanged |
| `PackageSlider.Config.WithHideThumbValue` | Sources/PlusMinusSlider/PlusMinusSlider.swift:302-306 | stores the flag; every other field is unchanged |
| `PackageSlider.Config.WithIntThumb` | Sources/PlusMinusSlider/PlusMinusSlider.swift:309-313 | stores the display flag; the drag mode and every other field are unchanged |
| `PackageSlider.Config.WithSmoothDrag` | Sources/PlusMinusSlider/PlusMinusSlider.swift:316-320 | stores the drag mode; the display flag and every other field are unchanged |
| `PackageSlider.Config.WithLimitValueOffset` | Sources/PlusMinusSlider/PlusMinusSlider.swift:323-327 | stores the offset; every other field is unchanged |
| `PackageSlider.Config.WithThumbDiameter` | Sources/PlusMinusSlider/PlusMinusSlider.swift:386-393 | the stored diameter is at most the current track length and the request, and equals one of them. The label offset is `CheckThumbValueOffset` of the unclamped request. Every other field is unchanged |
| `PackageSlider.Config.WithThumbValueOffset` | Sources/PlusMinusSlider/PlusMinusSlider.swift:417-421 | stores the offset; every other field is unchanged |
| `PackageSlider.DefaultConfig` | Sources/PlusMinusSlider/PlusMinusSlider.swift:37-61 | the public initialiser's configuration: the given track and domain, and stepped drag (`isSmoothDrag = false`) with decimal display. The thumb is 30 points with its label 30 points away. Bar height and limit-label offset are 10, and both hide flags are off |
| `PackageSlider.Slider.constructor` | Sources/PlusMinusSlider/PlusMinusSlider.swift:37-72 | for any bound value, with no range check, the state is the value plus the `initialOperation` layout and the anchor lies on the track. The fill spans thumb to anchor when the value is in range |
| `PackageSlider.Slider.OnDragChanged` | Sources/PlusMinusSlider/PlusMinusSlider.swift:137-187 | the new state is `Dragged` of the old state. The anchor never moves and stays on the track. After a drag inside the track the fill spans thumb to anchor, even when the initial value was out of range. A pointer at or beyond an end changes only the value |

## Left out

- Rendering in `body`: capsules, texts, images, offsets, rotation, animation, and the `textParameter`/`thumbParameter` modifiers. This is presentation only.
- Formatting of the value label (`String(format: "%.1f")`, `Int(round(...))`): text formatting with no numeric contract.
- Colours, fonts, font weights and their setters, which store a value and nothing else. These are `maxValueColor`, `maxValueFont`, `maxValueFontWeight`, `minValueColor`, `minValueFont`, `minValueFontWeight`, `sliderColor`, `thumbColor`, `thumbValueColor`, `thumbValueFont`, `thumbValueFontWeight` and `valueColor`. The configuration datatypes have no such fields.
- IEEE-754 behaviour: rounding error, and infinities or NaN when `maxValue == minValue`. Reals are exact, and `minValue < maxValue` is a precondition.
- The `fatalError` of the Example range check is not modelled as a crash. It is the constructor's precondition, and the lemmas `SteppedDragPassesRangeCheck` and `SmoothDragPassesRangeCheck` say when a later render still passes it.
- Gesture recognition, the `isTouchThumb` flag and `onEnded`: they only select label animation. The drag handler is given the pointer's x directly.
- The tap on the coloured value capsule (Example/PlusMinusSlider.swift:133-137). It calls the same `calculatePosition` with a location in that capsule's own coordinates, which depend on SwiftUI layout.
- `@State`/`@Binding` mechanics: the view states and the bound value are plain fields of `Slider`, and the host's later writes to the binding are not modelled.
- The initialiser's default arguments are not modelled: the `UIScreen`-based track width and the default domain [-5, 5] (Example/PlusMinusSlider.swift:45, Sources/PlusMinusSlider/PlusMinusSlider.swift:37). Track width and domain are always explicit parameters of `DefaultConfig`; `ScenarioLayouts` works through the [-5, 5] domain.
- The debug `print` calls at Sources/PlusMinusSlider/PlusMinusSlider.swift:451-456.
- `Package.swift`, the build manifest.
