/**
 * placeAndRotateFixed: the image is centred on the lower curve in the gap
 * between the ".on" and ".after" text fragments, scaled when it does not fit,
 * and clamped into the gap. Its width and height attributes are written back
 * whenever the scaling step runs and read again by the next pass.
 */
module Placement {
  import opened Geometry
  import opened Viewport

  /** The horizontal gap between the two text fragments. */
  datatype Gap = Gap(onEndX: real, afterStartX: real, available: real, centerX: real)

  /**
   * The gap: from the end of the ".on" text plus padding to the start of the
   * ".after" text minus padding. `available` is its width floored at 6, and
   * centerX is the exact midpoint of the two ends.
   */
  function GapOf(onX: real, onWidth: real, afterX: real, padding: real): (g: Gap)
    ensures g.onEndX == onX + onWidth + padding
    ensures g.afterStartX == afterX - padding
    ensures g.available >= 6.0 && g.available >= g.afterStartX - g.onEndX
    ensures g.available == 6.0 || g.available == g.afterStartX - g.onEndX
    ensures g.centerX - g.onEndX == g.afterStartX - g.centerX
  {
    var onEndX := onX + onWidth + padding;
    var afterStartX := afterX - padding;
    var available := afterStartX - onEndX;
    var available' := if available < 6.0 then 6.0 else available;
    Gap(onEndX, afterStartX, available', (onEndX + afterStartX) / 2.0)
  }

  /** The arc length between two samples: totalLen / PATH_SAMPLES. */
  function Step(c: Curve, n: nat): real
    requires n > 0
  {
    c.totalLen / n as real
  }

  /** The arc length of sample i. */
  function SampleParam(c: Curve, n: nat, i: nat): real
    requires n > 0
  {
    i as real * Step(c, n)
  }

  function SampleAt(c: Curve, n: nat, i: nat): Point
    requires n > 0
  {
    c.pointAt(SampleParam(c, n, i))
  }

  /** |x - centerX| of sample i. */
  function Distance(c: Curve, n: nat, i: nat, centerX: real): real
    requires n > 0
  {
    Abs(SampleAt(c, n, i).x - centerX)
  }

  /**
   * Sample k is the one the scan keeps: among samples 0..n it is nearest to
   * centerX in x, and every earlier sample is strictly farther.
   */
  ghost predicate IsNearest(c: Curve, n: nat, centerX: real, k: nat)
    requires n > 0
  {
    && k <= n
    && (forall j :: 0 <= j <= n ==> Distance(c, n, k, centerX) <= Distance(c, n, j, centerX))
    && (forall j :: 0 <= j < k ==> Distance(c, n, k, centerX) < Distance(c, n, j, centerX))
  }

  /**
   * The sample scan: samples 0..n inclusive; a sample replaces the best so far
   * only when strictly nearer, so ties go to the lowest index. The best starts
   * with distance Infinity, which the first sample always beats (i == 0 below).
   */
  method NearestSample(c: Curve, n: nat, centerX: real) returns (best: nat)
    requires n > 0
    ensures IsNearest(c, n, centerX, best)
  {
    best := 0;
    var bestD := 0.0;
    for i := 0 to n + 1
      invariant best <= n && (i > 0 ==> best < i)
      invariant i > 0 ==> bestD == Distance(c, n, best, centerX)
      invariant forall j :: 0 <= j < i ==> Distance(c, n, best, centerX) <= Distance(c, n, j, centerX)
      invariant forall j :: 0 <= j < best ==> Distance(c, n, best, centerX) < Distance(c, n, j, centerX)
    {
      var pt := SampleAt(c, n, i);
      var diff := Abs(pt.x - centerX);
      if i == 0 || diff < bestD {
        best, bestD := i, diff;
      }
    }
  }

  /** The tie-break makes the kept sample unique. */
  lemma NearestIsUnique(c: Curve, n: nat, centerX: real, k1: nat, k2: nat)
    requires n > 0
    requires IsNearest(c, n, centerX, k1) && IsNearest(c, n, centerX, k2)
    ensures k1 == k2
  {
    var d1, d2 := Distance(c, n, k1, centerX), Distance(c, n, k2, centerX);
    assert d1 <= d2 && d2 <= d1;
    assert k1 < k2 ==> d2 < d1;
    assert k2 < k1 ==> d1 < d2;
  }

  /** Every sample of the n-sample scan is sample k*i of the (k*n)-sample scan. */
  lemma {:induction false} RefinedSampleCoincides(c: Curve, n: nat, k: nat, i: nat)
    requires n > 0 && k > 0
    ensures SampleParam(c, k * n, k * i) == SampleParam(c, n, i)
  {
    var L, kr, nr, ir := c.totalLen, k as real, n as real, i as real;
    assert (k * n) as real == kr * nr;
    assert (k * i) as real == kr * ir;
    calc {
      SampleParam(c, k * n, k * i);
      (kr * ir) * (L / (kr * nr));
      { assert L / (kr * nr) == (L / nr) / kr; }
      (kr * ir) * ((L / nr) / kr);
      ir * (L / nr);
      SampleParam(c, n, i);
    }
  }

  /**
   * Refining the lattice by a whole factor never makes the nearest sample
   * worse. (A sample count that is not a multiple can: see
   * MoreSamplesCanBeFarther.)
   */
  lemma {:induction false} RefinedScanNoFarther(c: Curve, n: nat, k: nat, centerX: real, coarse: nat, fine: nat)
    requires n > 0 && k > 0
    requires IsNearest(c, n, centerX, coarse) && IsNearest(c, k * n, centerX, fine)
    ensures Distance(c, k * n, fine, centerX) <= Distance(c, n, coarse, centerX)
  {
    RefinedSampleCoincides(c, n, k, coarse);
    assert k * coarse <= k * n by {
      assert coarse <= n;
    }
    assert Distance(c, k * n, fine, centerX) <= Distance(c, k * n, k * coarse, centerX);
  }

  /**
   * On the straight path x = t of length 6 with centre 3, two samples
   * (0, 3, 6) hit the centre exactly, while three samples (0, 2, 4, 6) stay
   * at least 1 away: more samples can give a farther nearest point.
   */
  lemma MoreSamplesCanBeFarther()
    ensures var c := Curve(6.0, t => Point(t, 0.0));
            && IsNearest(c, 2, 3.0, 1) && Distance(c, 2, 1, 3.0) == 0.0
            && forall j :: 0 <= j <= 3 ==> Distance(c, 3, j, 3.0) >= 1.0
  {
    var c := Curve(6.0, t => Point(t, 0.0));
    forall j | 0 <= j <= 3
      ensures Distance(c, 3, j, 3.0) >= 1.0
    {
      assert SampleParam(c, 3, j) == 2.0 * j as real;
    }
    forall j | 0 <= j <= 2
      ensures Distance(c, 2, 1, 3.0) <= Distance(c, 2, j, 3.0)
    {
      assert SampleParam(c, 2, j) == 3.0 * j as real;
    }
    assert SampleParam(c, 2, 0) == 0.0;
  }

  /** Every sample's arc length lies on the path. */
  lemma SampleParamOnPath(c: Curve, n: nat, i: nat)
    requires n > 0 && i <= n && c.totalLen >= 0.0
    ensures 0.0 <= SampleParam(c, n, i) <= c.totalLen
  {
    var s := Step(c, n);
    assert s >= 0.0;
    assert s * n as real == c.totalLen;
    assert i as real * s <= n as real * s;
  }

  /** The two arc lengths whose points give the tangent direction. */
  datatype Span = Span(lo: real, hi: real)

  /**
   * The finite-difference neighbours of arc length t: one step of
   * max(0.5, totalLen / n) either side, clamped to [0, totalLen]. A
   * neighbour is clamped to its end exactly when the step would pass it;
   * otherwise it lies exactly one step away, so the two are symmetric about t.
   */
  function TangentSpan(c: Curve, n: nat, t: real): (s: Span)
    requires n > 0
    ensures 0.0 <= t <= c.totalLen ==> 0.0 <= s.lo <= t <= s.hi <= c.totalLen
    ensures s.lo == 0.0 || (t - s.lo >= 0.5 && t - s.lo >= Step(c, n))
    ensures s.hi == c.totalLen || (s.hi - t >= 0.5 && s.hi - t >= Step(c, n))
    ensures s.lo == 0.0 || s.hi == c.totalLen || t - s.lo == s.hi - t
    ensures var d := Max(0.5, Step(c, n));
      && (t - d <= 0.0 ==> s.lo == 0.0) && (t - d > 0.0 ==> t - s.lo == d)
      && (t + d >= c.totalLen ==> s.hi == c.totalLen) && (t + d < c.totalLen ==> s.hi - t == d)
  {
    var delta := Max(0.5, c.totalLen / n as real);
    Span(Max(0.0, t - delta), Min(c.totalLen, t + delta))
  }

  datatype Size = Size(w: real, h: real)

  /**
   * max(MIN_SCALE, (available - 4) / imgW): at least the minimum scale, and
   * below 1 whenever the minimum scale is.
   */
  function ScaleFactor(w: real, available: real, minScale: real): (k: real)
    requires w > available >= 6.0
    ensures k >= minScale && k >= (available - 4.0) / w
    ensures k == minScale || k == (available - 4.0) / w
    ensures minScale < 1.0 ==> k < 1.0
  {
    RatioBelowOne(available - 4.0, w);
    Max(minScale, (available - 4.0) / w)
  }

  lemma RatioBelowOne(x: real, w: real)
    requires 0.0 < w && x < w
    ensures x / w < 1.0
  {
    assert x / w * w == x;
  }

  lemma RatioTimesWhole(x: real, w: real)
    requires w != 0.0
    ensures w * (x / w) == x
  {
  }

  lemma ProductBelow(x: real, k: real)
    requires x > 0.0 && k < 1.0
    ensures x * k < x
  {
    assert x - x * k == x * (1.0 - k);
  }

  /** `Math.max(8, x * k)`: one side scaled by k and floored at 8. */
  function ScaleSide(x: real, k: real): (r: real)
    ensures r >= 8.0 && r >= x * k
    ensures r == 8.0 || r == x * k
  {
    if x * k < 8.0 then 8.0 else x * k
  }

  /** Scaling by a factor below 1 takes a side above 8 strictly down. */
  lemma SideShrinks(x: real, k: real)
    requires x > 8.0 && k < 1.0
    ensures ScaleSide(x, k) < x
  {
    ProductBelow(x, k);
  }

  /** Scaling by a factor below 1 takes a positive side of at most 8 to exactly 8. */
  lemma SideFloored(x: real, k: real)
    requires 0.0 < x <= 8.0 && k < 1.0
    ensures ScaleSide(x, k) == 8.0
  {
    ProductBelow(x, k);
  }

  /**
   * The shrink step. An image that fits is left alone. Otherwise both sides
   * are scaled by the same factor (at least the minimum scale) and floored
   * at 8, so both end at least 8: a side below 8 GROWS to 8, while a width
   * above 8 strictly shrinks; above the floor the aspect ratio is kept.
   */
  function Fit(w: real, h: real, available: real, minScale: real): (s: Size)
    requires available >= 6.0
    ensures w <= available ==> s == Size(w, h)
    ensures w > available ==>
      && s.w == ScaleSide(w, ScaleFactor(w, available, minScale))
      && s.h == ScaleSide(h, ScaleFactor(w, available, minScale))
    ensures w > available ==> s.w >= 8.0 && s.h >= 8.0
  {
    if w > available then
      var k := ScaleFactor(w, available, minScale);
      Size(ScaleSide(w, k), ScaleSide(h, k))
    else
      Size(w, h)
  }

  /**
   * With a minimum scale below 1, a width above 8 that does not fit strictly
   * shrinks, and a width of at most 8 that does not fit becomes exactly 8
   * (growing when it was below 8).
   */
  lemma FitWidthAgainstFloor(w: real, h: real, available: real, minScale: real)
    requires w > available >= 6.0 && minScale < 1.0
    ensures w > 8.0 ==> Fit(w, h, available, minScale).w < w
    ensures w <= 8.0 ==> Fit(w, h, available, minScale).w == 8.0
  {
    var k := ScaleFactor(w, available, minScale);
    if w > 8.0 {
      SideShrinks(w, k);
    } else {
      SideFloored(w, k);
    }
  }

  /** Above the 8px floor, the shrink keeps the aspect ratio. */
  lemma FitKeepsAspect(w: real, h: real, available: real, minScale: real)
    requires w > available >= 6.0
    ensures var s := Fit(w, h, available, minScale);
            s.w > 8.0 && s.h > 8.0 ==> s.w * h == s.h * w
  {
    var k := ScaleFactor(w, available, minScale);
    var s := Fit(w, h, available, minScale);
    if s.w > 8.0 && s.h > 8.0 {
      SameFactor(w, h, k, s.w, s.h);
    }
  }

  lemma SameFactor(w: real, h: real, k: real, sw: real, sh: real)
    requires sw == w * k && sh == h * k
    ensures sw * h == sh * w
  {
  }

  /**
   * When the fitting ratio is at least the minimum scale and available is at
   * least 12 (so that available - 4 clears the 8px floor), the new width is
   * exactly available - 4.
   */
  lemma ShrinkFitsGap(w: real, h: real, available: real, minScale: real)
    requires w > available >= 12.0
    requires (available - 4.0) / w >= minScale
    ensures Fit(w, h, available, minScale).w == available - 4.0
  {
    var k := ScaleFactor(w, available, minScale);
    assert k == (available - 4.0) / w;
    RatioTimesWhole(available - 4.0, w);
  }

  /**
   * The final x: the image centred on the sample, raised to the gap's start
   * plus 2 and then lowered to its end minus the width minus 2. The upper
   * bound always holds; the lower bound holds exactly when the image plus
   * 4px fits between the ends. Inside both bounds the image is centred; left
   * of them it sits at the gap's start plus 2, and right of them, or when it
   * is too wide for the gap, at the gap's end minus its width minus 2.
   */
  function ClampX(targetX: real, w: real, g: Gap): (x: real)
    ensures x <= g.afterStartX - w - 2.0
    ensures x >= g.onEndX + 2.0 <==> w + 4.0 <= g.afterStartX - g.onEndX
    ensures g.onEndX + 2.0 <= targetX - w / 2.0 <= g.afterStartX - w - 2.0 ==>
            x == targetX - w / 2.0
    ensures targetX - w / 2.0 < g.onEndX + 2.0 <= g.afterStartX - w - 2.0 ==>
            x == g.onEndX + 2.0
    ensures targetX - w / 2.0 > g.afterStartX - w - 2.0 || g.afterStartX - w - 2.0 < g.onEndX + 2.0 ==>
            x == g.afterStartX - w - 2.0
  {
    Min(Max(targetX - w / 2.0, g.onEndX + 2.0), g.afterStartX - w - 2.0)
  }

  /** The image's width, height, x and y attributes; a width or height of 0 stands for an absent attribute. */
  datatype Attrs = Attrs(width: real, height: real, x: real, y: real)

  /** The geometry the pass queries: the two text boxes, the lower path and the image's rendered box. */
  datatype Scene = Scene(onX: real, onWidth: real, afterX: real, curve: Curve, boxW: real, boxH: real)

  /** Missing: one of the required elements is absent. Throws: a geometry query raised. */
  datatype Query = Missing | Throws | Rendered(scene: Scene)

  /** Skipped (missing element), Failed (caught exception) or the sample used and its tangent span. */
  datatype Outcome = Skipped | Failed | Placed(index: nat, span: Span)

  /** `Number(attr) || box`: an absent (0) attribute falls back to the rendered box. */
  function Dimension(attr: real, box: real): (d: real)
    ensures attr != 0.0 ==> d == attr
    ensures attr == 0.0 ==> d == box
  {
    if attr != 0.0 then attr else box
  }

  function GapIn(p: Profile, s: Scene): Gap {
    GapOf(s.onX, s.onWidth, s.afterX, p.padding as real)
  }

  /** The size the pass uses: the current size read back, scaled if it does not fit. */
  function UsedSize(p: Profile, s: Scene, a: Attrs): Size {
    Fit(Dimension(a.width, s.boxW), Dimension(a.height, s.boxH), GapIn(p, s).available, p.minScale)
  }

  /**
   * The attributes after a pass that settles on sample k: width and height
   * are rewritten only when the image did not fit (the scaling step ran,
   * whether it shrank the image or raised a side to 8); x is clamped into the gap
   * and y centres the image on the sample, moved by FINE_TUNE_Y.
   */
  function Arranged(p: Profile, s: Scene, a: Attrs, k: nat): Attrs
    requires p.samples > 0
  {
    var g := GapIn(p, s);
    var size := UsedSize(p, s, a);
    var target := SampleAt(s.curve, p.samples, k);
    var tooWide := Dimension(a.width, s.boxW) > g.available;
    Attrs(if tooWide then size.w else a.width,
          if tooWide then size.h else a.height,
          ClampX(target.x, size.w, g),
          target.y - size.h / 2.0 + p.fineTuneY)
  }

  /**
   * What one pass does: nothing on a missing element or a caught exception;
   * otherwise it settles on the nearest sample, takes the tangent span around
   * it, and writes the arranged attributes.
   */
  ghost predicate PassEffect(p: Profile, q: Query, before: Attrs, after: Attrs, r: Outcome)
    requires p.samples > 0
  {
    match q
    case Missing => r == Skipped && after == before
    case Throws => r == Failed && after == before
    case Rendered(s) =>
      && r.Placed?
      && IsNearest(s.curve, p.samples, GapIn(p, s).centerX, r.index)
      && r.span == TangentSpan(s.curve, p.samples, SampleParam(s.curve, p.samples, r.index))
      && after == Arranged(p, s, before, r.index)
  }

  /**
   * The size a pass writes is the size the next pass reads: the attributes
   * carry the image's size from one pass to the next.
   */
  lemma WrittenSizeIsReadBack(p: Profile, s: Scene, a: Attrs, k: nat)
    requires p.samples > 0
    ensures var b := Arranged(p, s, a, k);
            Dimension(b.width, s.boxW) == UsedSize(p, s, a).w && Dimension(b.height, s.boxH) == UsedSize(p, s, a).h
  {
    var g := GapIn(p, s);
    if Dimension(a.width, s.boxW) > g.available {
      assert UsedSize(p, s, a).w >= 8.0 && UsedSize(p, s, a).h >= 8.0;
    }
  }

  /**
   * Once the image fits, a second pass over the same scene and sample keeps
   * its size and position: placement is then idempotent.
   */
  lemma FittingPassIsStable(p: Profile, s: Scene, a: Attrs, k: nat)
    requires p.samples > 0
    requires UsedSize(p, s, a).w <= GapIn(p, s).available
    ensures Arranged(p, s, Arranged(p, s, a, k), k) == Arranged(p, s, a, k)
  {
    var b := Arranged(p, s, a, k);
    WrittenSizeIsReadBack(p, s, a, k);
    assert UsedSize(p, s, b) == UsedSize(p, s, a);
  }

  /**
   * When one shrink still leaves the image wider than the gap (the minimum
   * scale stopped it short) and above the 8px floor, the next pass over the
   * same scene shrinks it again: passes are not idempotent, because each
   * pass scales the size the previous one wrote back.
   */
  lemma ShortShrinkShrinksAgain(p: Profile, s: Scene, a: Attrs, k: nat)
    requires p.samples > 0 && p.minScale < 1.0
    requires UsedSize(p, s, a).w > GapIn(p, s).available
    requires UsedSize(p, s, a).w > 8.0
    ensures UsedSize(p, s, Arranged(p, s, a, k)).w < UsedSize(p, s, a).w
  {
    var g := GapIn(p, s);
    var first := UsedSize(p, s, a);
    WrittenSizeIsReadBack(p, s, a, k);
    var b := Arranged(p, s, a, k);
    assert UsedSize(p, s, b) == Fit(first.w, first.h, g.available, p.minScale);
    FitWidthAgainstFloor(first.w, first.h, g.available, p.minScale);
  }

  /**
   * A 100x50 image in the narrowest gap (6) with minimum scale 0.3: the first
   * pass writes 30x15, the second 9x8, the third 8x8, where it stays.
   */
  lemma MinScaleCompounds()
    ensures Fit(100.0, 50.0, 6.0, 0.3) == Size(30.0, 15.0)
    ensures Fit(30.0, 15.0, 6.0, 0.3) == Size(9.0, 8.0)
    ensures Fit(9.0, 8.0, 6.0, 0.3) == Size(8.0, 8.0)
    ensures Fit(8.0, 8.0, 6.0, 0.3) == Size(8.0, 8.0)
  {
    assert ScaleFactor(100.0, 6.0, 0.3) == 0.3;
    assert ScaleFactor(30.0, 6.0, 0.3) == 0.3;
    assert ScaleFactor(9.0, 6.0, 0.3) == 0.3;
    assert ScaleFactor(8.0, 6.0, 0.3) == 0.3;
  }

  /** The image element, whose attributes the passes rewrite in place. */
  class Image {
    var width: real
    var height: real
    var x: real
    var y: real

    constructor (a: Attrs)
      ensures Current() == a
    {
      width, height, x, y := a.width, a.height, a.x, a.y;
    }

    function Current(): Attrs
      reads this
    {
      Attrs(width, height, x, y)
    }

    /**
     * placeAndRotateFixed with the tunables p. The rotation angle and the
     * transform string are not modelled; the tangent span they come from is
     * returned.
     */
    method Place(p: Profile, q: Query) returns (r: Outcome)
      requires p.samples > 0
      modifies this
      ensures PassEffect(p, q, old(Current()), Current(), r)
    {
      if q.Missing? {
        return Skipped;
      }
      if q.Throws? {
        return Failed;
      }
      var s := q.scene;
      var n := p.samples;
      var g := GapOf(s.onX, s.onWidth, s.afterX, p.padding as real);
      var best := NearestSample(s.curve, n, g.centerX);
      var target := SampleAt(s.curve, n, best);
      var span := TangentSpan(s.curve, n, SampleParam(s.curve, n, best));

      var imgW := Dimension(width, s.boxW);
      var imgH := Dimension(height, s.boxH);
      if imgW > g.available {
        var k := ScaleFactor(imgW, g.available, p.minScale);
        imgW, imgH := ScaleSide(imgW, k), ScaleSide(imgH, k);
        width, height := imgW, imgH;
      }
      x := ClampX(target.x, imgW, g);
      y := target.y - imgH / 2.0 + p.fineTuneY;
      r := Placed(best, span);
      assert Size(imgW, imgH) == UsedSize(p, s, old(Current()));
    }
  }
}
