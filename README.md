# Jester header script, modelled in Dafny

`style.js` positions the "{x}" image of the $JESTER site header. The image sits on a curved
baseline in the gap between the ".on" and ".after" text fragments. The script redraws the curves,
shrinks and clamps the image, and reruns itself on resize, orientation change and menu
open/close. This project models that logic. It proves what each step promises and where the
code's actual behaviour departs from what one might assume.

Modules, in dependency order:

- `Wrappers`, `Geometry` (geometry.dfy). `Option`, points, and the curve as an abstract
  function from arc length to point, with its total length. This curve stands in for
  `getTotalLength`/`getPointAtLength`.
- `Viewport` (viewport.dfy). `adaptTunables`: the breakpoint table as a pure function. The
  module-level tunables are a `Tunables` object that `Adapt` and `SetFineTuneY` overwrite in place.
- `Curves` (curves.dfy). `recomputePathsFixed`: the five integers derived from the 860x300
  reference size, and the two quadratic paths built from them.
- `Placement` (placement.dfy). `placeAndRotateFixed`, in these parts:
  - the gap
  - the nearest-sample scan, a `for` loop proved against an argmin predicate
  - the tangent neighbours
  - the shrink step
  - the clamp
  - the image element, as an `Image` object whose attributes a pass rewrites and the next pass
    reads back
- `Schedule` (schedule.dfy). `fullRun` and the event wiring. A `Page` object holds a virtual clock,
  the pending timers in arming order, the `resizeTimer` handle, whether the window listeners are
  bound yet, and the menu toggle's active flag. Each handler is a method that arms or clears
  timers. `Tick` fires the earliest pending timer, and the first armed one when several are due at
  once.

## Model

| member | source | states |
|---|---|---|
| Viewport.EffectiveWidth | style.js:58 | an inner width of 0 falls back to the client width; the result is at least 320 and equals the reported width whenever that is at least 320 |
| Viewport.SelectProfile | style.js:59-67 | exactly one of the four rows is chosen; each row is chosen iff the width lies in its range, with inclusive upper bounds 360, 420 and 768 |
| Viewport.SelectedProfileWellFormed | style.js:57-67 | every selectable profile has positive padding and sample count, a minimum scale strictly between 0 and 1 and a negative vertical offset |
| Viewport.Tunables.constructor | style.js:23-26 | the tunables start at 8 / 0.3 / 360 / -6 |
| Viewport.Tunables.Adapt | style.js:57-68 | all four tunables are overwritten with the selected row for the effective width |
| Viewport.Tunables.SetFineTuneY | style.js:200 | only FINE_TUNE_Y changes |
| Curves.Round | style.js:46-50 | Math.round: the result is within half a unit of its argument, and halves round up |
| Curves.FixedLayout | style.js:44-50 | the numbers are margin 43, topY 156, topCtrlY -56, bottomY 234, bottomCtrlY 126, whatever the device |
| Curves.RecomputePaths | style.js:37-53 | paths are produced iff the svg root and both path elements exist, and they are then exactly the paths built from the fixed numbers; both curves run from x = 43 to x = 817, are symmetric about x = 430, bulge upwards, and the lower curve's ends lie below the upper curve's |
| Placement.GapOf | style.js:85-90 | onEndX and afterStartX are the padded text edges; available is at least 6 and at least the actual gap, and equals one of the two; centerX is their midpoint |
| Placement.NearestSample | style.js:94-100 | the loop visits samples 0..PATH_SAMPLES inclusive and returns one whose distance in x to centerX is minimal, with every earlier sample strictly farther (ties go to the first) |
| Placement.NearestIsUnique | style.js:99 | because of the strict comparison, the sample the scan keeps is unique |
| Placement.RefinedSampleCoincides | style.js:92-96 | sample i of an n-sample scan is sample k*i of a (k*n)-sample scan |
| Placement.RefinedScanNoFarther | style.js:92-100 | multiplying the sample count by a whole factor never gives a farther nearest sample |
| Placement.MoreSamplesCanBeFarther | style.js:92-100 | a concrete straight path on which 2 samples hit the centre exactly and every one of 3 samples is at least 1 away: a larger PATH_SAMPLES can place the image worse |
| Placement.SampleParamOnPath | style.js:96 | every sample's arc length lies within [0, totalLen] |
| Placement.TangentSpan | style.js:103-105 | the two neighbour arc lengths are clamped into [0, totalLen] around a sample on the path; with d = max(0.5, one sample step), the lower neighbour is 0 iff t - d <= 0 and otherwise exactly t - d, and the upper one is totalLen iff t + d >= totalLen and otherwise exactly t + d |
| Placement.ScaleFactor | style.js:113 | the factor is at least MIN_SCALE and at least (available - 4) / imgW, and equals one of them; with MIN_SCALE below 1 it is below 1 |
| Placement.ScaleSide | style.js:114-115 | a scaled side is at least 8 and at least side * factor, and equals one of them |
| Placement.SideShrinks | style.js:114 | with a factor below 1, a side above 8 strictly shrinks |
| Placement.SideFloored | style.js:114 | with a factor below 1, a side of at most 8 becomes exactly 8 |
| Placement.Fit | style.js:112-115 | a fitting image keeps its size; otherwise both sides are scaled by the same factor and floored at 8, so both end at least 8 |
| Placement.FitWidthAgainstFloor | style.js:112-115 | a width above 8 that does not fit strictly shrinks; a width of at most 8 becomes exactly 8, so it grows when it was below 8 |
| Placement.FitKeepsAspect | style.js:113-115 | above the 8px floor the aspect ratio is kept |
| Placement.ShrinkFitsGap | style.js:113-114 | for available at least 12, when the fitting ratio (available - 4) / imgW is at least MIN_SCALE, the new width is exactly available - 4 |
| Placement.ClampX | style.js:120 | the final x never passes afterStartX - imgW - 2; it is at least onEndX + 2 iff imgW + 4 fits in the gap; inside both bounds the image is centred on the sample; when the centred x is left of onEndX + 2 and the gap is wide enough, x is onEndX + 2; when it is right of afterStartX - imgW - 2 or the image is too wide for the gap, x is afterStartX - imgW - 2 |
| Placement.Dimension | style.js:110-111 | a present (non-zero) attribute is used, and an absent one falls back to the rendered box |
| Placement.WrittenSizeIsReadBack | style.js:110-117 | the size one pass uses is the size the next pass reads back from the attributes |
| Placement.FittingPassIsStable | style.js:110-124 | once the image fits, a second pass over the same scene rewrites identical attributes |
| Placement.ShortShrinkShrinksAgain | style.js:110-117 | when the minimum scale leaves the image still too wide and above 8px, the next pass shrinks it again: passes are not idempotent |
| Placement.MinScaleCompounds | style.js:112-117 | a 100x50 image in a 6px gap with MIN_SCALE 0.3 becomes 30x15, then 9x8, then 8x8 on successive passes |
| Placement.Image.constructor | style.js:110-111 | the image starts with the given attributes |
| Placement.Image.Place | style.js:71-129 | a missing element changes nothing; a failing geometry query changes nothing; otherwise the pass settles on the nearest sample (first on ties), returns its tangent span, writes width and height only when the image did not fit (the scaling step ran, even when it raised a side to 8), clamps x into the gap, and sets y to target.y - imgH/2 + FINE_TUNE_Y |
| Schedule.Retries | style.js:145-146 | the two retries under consecutive new handles are placement-only passes due at +100 and +250 |
| Schedule.PlacementQuery | style.js:72-78 | without the svg root or the bottom path the pass sees a missing element; otherwise it sees the rendered scene |
| Schedule.PathsAfter | style.js:37-42 | the fixed paths are drawn iff the svg root and both path elements exist; otherwise the previous paths stay |
| Schedule.Cancel | style.js:154 | clearTimeout removes exactly the timers with that handle and leaves the list alone when none has it |
| Schedule.ArmedBy | style.js:153-157 | the sub-list of timers one handler armed, holding exactly those timers |
| Schedule.ArmedByAppend | style.js:155 | arming a timer appends it to its own handler's list and leaves the other handlers' lists unchanged |
| Schedule.NoneArmed | style.js:152-155 | with no timer from a handler pending, that handler's list is empty |
| Schedule.CancelClearsHandler | style.js:154 | clearing the one handle a handler's timers carry leaves none of them pending |
| Schedule.Rearm | style.js:154-155 | after clearing the previous handle and arming the new timer, the list holds the new timer and exactly the old timers without that handle |
| Schedule.RearmLeavesOne | style.js:153-156 | when every resize timer pending carries the previous handle, re-arming leaves the new timer as the only resize timer |
| Schedule.NextDue | style.js:145-146 | the timer that fires next is the earliest due, and the first armed among equally due ones |
| Schedule.Page.constructor | style.js:22-26 | as loaded: initial tunables, nothing pending, listeners unbound, menu inactive |
| Schedule.Page.Arm | style.js:145-146 | setTimeout appends one timer due delay ms from now under a new handle and changes nothing else |
| Schedule.Page.RunFull | style.js:140-147 | fullRun adapts the tunables, rewrites the paths when the elements exist, runs one placement pass with the new tunables, and queues two placement-only passes at +100 and +250 under two new handles |
| Schedule.Page.FontsReady | style.js:150-158 | the fonts-ready callback does a full run (tunables, paths redrawn when the elements exist, one pass, two retries under two new handles) and then binds the window listeners with no resize timer pending |
| Schedule.Page.Resize | style.js:153-156 | before the listeners are bound nothing happens; afterwards the previous resize timer is cleared and exactly one resize full run is pending, due 160 ms after this event |
| Schedule.Page.OrientationChange | style.js:157 | a full run is appended at +180, and no earlier timer is cleared |
| Schedule.Page.OpenMenu | style.js:166-172 | past the menu-element guard, the toggle becomes active and a full run is queued at +250 |
| Schedule.Page.CloseMenu | style.js:174-180 | past the menu-element guard, the toggle becomes inactive and a full run is queued at +150, whether or not the menu was open |
| Schedule.Page.ToggleClick | style.js:182-186 | with the menu elements present, the active flag flips and the matching open (+250) or close (+150) run is queued; without them nothing happens |
| Schedule.Page.DocumentClick | style.js:188-190 | a click outside both the toggle and the menu closes the menu (+150), even a closed one; other clicks change nothing |
| Schedule.Page.KeyDown | style.js:192-194 | Escape closes the menu (+150), even a closed one; other keys change nothing |
| Schedule.Page.AdjustY | style.js:200 | after adjustY the tunables are the breakpoint row again, so the offset y does not persist; the full run redraws the paths when the elements exist, runs one pass and queues the two retries under two new handles |
| Schedule.Page.Recalc | style.js:199 | recalc is one full run: breakpoint tunables, paths redrawn when the elements exist, one pass, two retries under two new handles; nothing else changes |
| Schedule.Page.Fire | style.js:145-146 | the earliest pending timer (first armed on ties) leaves the list and the clock moves to its due time; handles, paths and flags are unchanged |
| Schedule.Page.RunTask | style.js:140-147 | a placement-only task runs one pass and changes nothing else; a full-run task runs fullRun, redraws the paths when the elements exist and queues two retries under two new handles |
| Schedule.Page.Tick | style.js:140-147 | the earliest pending timer fires at its due time and leaves the list; a placement-only timer runs a pass with the tunables, paths and handle counter unchanged, and a full-run timer runs fullRun, redraws the paths when the elements exist and queues two retries under two new handles |
| Schedule.IdleThenResize | style.js:153-156 | with two other timers pending before the resize timer, a resize replaces that timer with one due 160 ms after this event and keeps the two (the general fact is `Resize` with `Rearm`) |
| Schedule.Startup | style.js:150-156 | fonts ready at 0 and a resize at 0 leave the two retries and one resize run due at 160 |
| Schedule.ResizeBurst | style.js:150-156 | fonts ready at 0 and resizes at 0, 50 and 100 leave the two retries and a single resize run, due at 260 |
| Schedule.DebounceScenario | style.js:140-158 | after that burst the timers fire at 100 and 250 (placement only) and at 260 (the one resize full run) |

## Where the code differs from a natural reading

- The shrink step floors each side at 8 after scaling, so a side smaller than 8 grows to 8. A width
  of exactly 8 that does not fit stays at 8: only widths above 8 strictly shrink
  (`FitWidthAgainstFloor`).
- The clamp applies `min` last. An image wider than the gap minus 4 therefore starts before
  `onEndX + 2` (`ClampX`).
- The scaled size is written back to the attributes and read again by the next pass. While the
  minimum scale stops a shrink short, every extra pass (the two retries after each full run)
  shrinks the image again, until it fits (width at most available) or reaches the 8px floor (`ShortShrinkShrinksAgain`, `MinScaleCompounds`).
- A larger `PATH_SAMPLES` does not always place the image nearer the centre. Only a sample count
  multiplied by a whole number is never worse (`MoreSamplesCanBeFarther`, `RefinedScanNoFarther`).
- `adjustY`'s value is overwritten by `adaptTunables` in the same full run (`AdjustY`).

## Left out

- DOM lookups and their null guards: a missing element is the `Missing` query in placement and the
  `svg`/`topPath`/`bottomPath` flags in path drawing. The text and image elements are folded into
  the scene query (`PlacementQuery`).
- `getBBox`, `getComputedTextLength`, `getTotalLength` and `getPointAtLength` are browser geometry
  calls. They are inputs: the text boxes and the image box are numbers, and the path is an
  abstract curve.
- `Math.atan2`, the degree conversion and the `transform` attribute (style.js:106-108, 125) are
  floating-point trigonometry and presentation. The pass returns the tangent span they are
  computed from.
- The path `d` strings (style.js:52-53): the model keeps the numbers and points they are written
  from.
- Floating point: all geometry is exact `real` arithmetic. `Math.round` is floor(x + 0.5), which
  agrees with the script on the reference constants. NaN and Infinity are not modelled.
- `Number(attr) || box`: an attribute value of 0 stands for an absent attribute. Non-numeric
  attribute text (NaN) is not modelled.
- The try/catch with `console.warn` (style.js:126-128): a throwing geometry call is the `Throws`
  query. Every such call comes before the first attribute write, so it changes nothing.
- `updateHeaderHeight` (style.js:132-137) is a DOM measurement and a CSS variable write.
- `whenFontsReady`'s promise and its 250 ms fallback (style.js:30-34) are an external async signal.
  `FontsReady` is called once by whoever drives the page.
- Real timers and listener registration: the virtual clock and the pending-timer list replace them.
  The orientation and resize listeners exist from the fonts-ready callback on.
- Class and aria attribute writes in the menu handlers, beyond the toggle's active flag.
  `stopPropagation` is modelled by the toggle click not reaching `DocumentClick`.
- Placement.Image.Place: returns the tangent span but not the rotation angle computed from it.
