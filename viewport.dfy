/**
 * adaptTunables: the viewport width picks one row of a four-row breakpoint
 * table, and the row's values are written into the script's module-level
 * tunables PADDING, MIN_SCALE, PATH_SAMPLES and FINE_TUNE_Y.
 */
module Viewport {

  /** The four tunables, as one value. */
  datatype Profile = Profile(padding: int, minScale: real, samples: nat, fineTuneY: real)

  const NARROW: Profile := Profile(5, 0.22, 160, -8.0)   // width <= 360
  const SMALL: Profile := Profile(6, 0.24, 200, -7.0)    // width <= 420
  const MEDIUM: Profile := Profile(7, 0.26, 260, -6.0)   // width <= 768
  const WIDE: Profile := Profile(8, 0.3, 360, -5.0)      // wider

  /** The values the `let` declarations start with, before any adaptation. */
  const INITIAL: Profile := Profile(8, 0.3, 360, -6.0)

  /** Widths below this (including 0 or negative reports) are read as this. */
  const FLOOR_WIDTH: int := 320

  predicate IsRow(p: Profile) {
    p == NARROW || p == SMALL || p == MEDIUM || p == WIDE
  }

  /**
   * `Math.max(320, window.innerWidth || clientWidth)`: an inner width of 0
   * falls back to the document element's client width; the result is never
   * below 320 and is the reported width whenever that is at least 320.
   */
  function EffectiveWidth(innerWidth: int, clientWidth: int): (w: int)
    ensures w >= FLOOR_WIDTH
    ensures var reported := if innerWidth != 0 then innerWidth else clientWidth;
            (reported >= FLOOR_WIDTH ==> w == reported) && (reported < FLOOR_WIDTH ==> w == FLOOR_WIDTH)
  {
    var reported := if innerWidth != 0 then innerWidth else clientWidth;
    if FLOOR_WIDTH < reported then reported else FLOOR_WIDTH
  }

  /**
   * The breakpoint table. Each upper bound is inclusive, and exactly one row
   * is chosen for every width.
   */
  function SelectProfile(w: int): (p: Profile)
    ensures IsRow(p)
    ensures p == NARROW <==> w <= 360
    ensures p == SMALL <==> 360 < w <= 420
    ensures p == MEDIUM <==> 420 < w <= 768
    ensures p == WIDE <==> 768 < w
  {
    if w <= 360 then NARROW
    else if w <= 420 then SMALL
    else if w <= 768 then MEDIUM
    else WIDE
  }

  /**
   * Every profile adaptTunables can select is usable by the placement pass:
   * a positive padding and sample count, a minimum scale strictly between 0
   * and 1, and an upward (negative) vertical fine-tune.
   */
  lemma SelectedProfileWellFormed(innerWidth: int, clientWidth: int)
    ensures var p := SelectProfile(EffectiveWidth(innerWidth, clientWidth));
            IsRow(p) && p.padding > 0 && p.samples > 0 && 0.0 < p.minScale < 1.0 && p.fineTuneY < 0.0
  {
  }

  /**
   * The script's module-level tunables. adaptTunables and JesterControl.adjustY
   * reassign them in place; placement passes read them.
   */
  class Tunables {
    var padding: int
    var minScale: real
    var pathSamples: nat
    var fineTuneY: real

    constructor ()
      ensures Current() == INITIAL
    {
      padding, minScale, pathSamples, fineTuneY := 8, 0.3, 360, -6.0;
    }

    function Current(): Profile
      reads this
    {
      Profile(padding, minScale, pathSamples, fineTuneY)
    }

    /** adaptTunables: all four tunables are overwritten from the selected row. */
    method Adapt(innerWidth: int, clientWidth: int)
      modifies this
      ensures Current() == SelectProfile(EffectiveWidth(innerWidth, clientWidth))
    {
      var w := EffectiveWidth(innerWidth, clientWidth);
      if w <= 360 {
        padding, minScale, pathSamples, fineTuneY := 5, 0.22, 160, -8.0;
      } else if w <= 420 {
        padding, minScale, pathSamples, fineTuneY := 6, 0.24, 200, -7.0;
      } else if w <= 768 {
        padding, minScale, pathSamples, fineTuneY := 7, 0.26, 260, -6.0;
      } else {
        padding, minScale, pathSamples, fineTuneY := 8, 0.3, 360, -5.0;
      }
    }

    /** The assignment `FINE_TUNE_Y = y` of adjustY; the other three keep their values. */
    method SetFineTuneY(y: real)
      modifies this
      ensures Current() == old(Current()).(fineTuneY := y)
    {
      fineTuneY := y;
    }
  }
}
