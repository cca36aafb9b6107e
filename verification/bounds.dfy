/**
 Ring geometry of the timer view (`setupBounds`): the padding that
 centres the drawing in a non-square box, the four ring rectangles and
 the two integer radii.
 */
module Bounds {
  import opened JavaInt
  import opened Geometry
  import Measure

  /** The four rectangles the view keeps: the filled disc, the circle on
      which the rim and the progress bar are stroked, and the two
      hairline contours just inside and just outside it. */
  datatype Rings = Rings(innerCircle: Rect, circle: Rect, innerContour: Rect, outerContour: Rect)

  /** Everything `setupBounds` writes: the view's own padding fields,
      the rings and the radii. */
  datatype Bounds = Bounds(pad: Padding, rings: Rings, fullRadius: int, circleRadius: int)

  /** The padding fields: the host padding plus half (truncated) of the
      amount by which the layout box's longer axis exceeds its shorter
      one, on both sides of that longer axis. */
  function CenteringPadding(host: Padding, layoutWidth: int, layoutHeight: int): (p: Padding)
    ensures p.left - host.left == p.right - host.right >= 0
    ensures p.top - host.top == p.bottom - host.bottom >= 0
    ensures p.left == host.left || p.top == host.top
    ensures layoutWidth >= layoutHeight ==>
              p.top == host.top && 0 <= (layoutWidth - layoutHeight) - 2 * (p.left - host.left) <= 1
    ensures layoutHeight >= layoutWidth ==>
              p.left == host.left && 0 <= (layoutHeight - layoutWidth) - 2 * (p.top - host.top) <= 1
  {
    var minValue := Min(layoutWidth, layoutHeight);
    var xOffset := layoutWidth - minValue;
    var yOffset := layoutHeight - minValue;
    Padding(host.left + Half(xOffset), host.top + Half(yOffset),
            host.right + Half(xOffset), host.bottom + Half(yOffset))
  }

  /** The box inside the padding fields, within a `width` by `height` view. */
  function PaddedBox(p: Padding, width: int, height: int): Rect {
    Rect(p.left as real, p.top as real, (width - p.right) as real, (height - p.bottom) as real)
  }

  /** The rectangle is centred in the view's host-padded area. */
  predicate CenteredIn(r: Rect, host: Padding, width: int, height: int) {
    && r.left + r.right == (host.left + width - host.right) as real
    && r.top + r.bottom == (host.top + height - host.bottom) as real
  }

  /** `setupBounds`: the layout size fixes the centring padding, the
      view's current width and height fix the far edges. */
  function SetupBounds(host: Padding, layoutWidth: int, layoutHeight: int, width: int, height: int,
                       barWidth: int, rimWidth: int, contourSize: int): (b: Bounds)
    ensures b.pad == CenteringPadding(host, layoutWidth, layoutHeight)
    // the rim circle sits a bar width inside the padded box
    ensures b.rings.circle == Inset(PaddedBox(b.pad, width, height), barWidth as real)
    // the disc is half a bar width inside the rim circle, the contours half a rim plus half a contour
    ensures b.rings.innerCircle == Inset(b.rings.circle, (barWidth as real) / 2.0)
    ensures b.rings.innerContour == Inset(b.rings.circle, (rimWidth as real) / 2.0 + (contourSize as real) / 2.0)
    ensures b.rings.outerContour == Inset(b.rings.circle, -((rimWidth as real) / 2.0 + (contourSize as real) / 2.0))
    // all four share one centre
    ensures CenteredIn(b.rings.innerCircle, host, width, height)
    ensures CenteredIn(b.rings.circle, host, width, height)
    ensures CenteredIn(b.rings.innerContour, host, width, height)
    ensures CenteredIn(b.rings.outerContour, host, width, height)
    // nesting
    ensures barWidth >= 0 ==> Contains(b.rings.circle, b.rings.innerCircle)
    ensures rimWidth + contourSize >= 0 ==>
              Contains(b.rings.outerContour, b.rings.circle) && Contains(b.rings.circle, b.rings.innerContour)
    ensures barWidth > 0 ==> StrictlyContains(b.rings.circle, b.rings.innerCircle)
    ensures rimWidth + contourSize > 0 ==>
              StrictlyContains(b.rings.outerContour, b.rings.circle)
              && StrictlyContains(b.rings.circle, b.rings.innerContour)
    // the rim circle is non-empty exactly when the padding and two bar widths fit
    ensures b.rings.circle.left < b.rings.circle.right <==> b.pad.left + b.pad.right + 2 * barWidth < width
    ensures b.rings.circle.top < b.rings.circle.bottom <==> b.pad.top + b.pad.bottom + 2 * barWidth < height
    // radii: half the rim circle's right edge, truncated toward zero, then one bar width less plus one
    ensures b.rings.circle.right >= 0.0 ==> 0.0 <= b.rings.circle.right - (2 * b.fullRadius) as real <= 1.0
    ensures b.rings.circle.right < 0.0 ==> -1.0 <= b.rings.circle.right - (2 * b.fullRadius) as real <= 0.0
    ensures b.circleRadius == b.fullRadius - barWidth + 1
  {
    var pad := CenteringPadding(host, layoutWidth, layoutHeight);
    var bar := barWidth as real;
    var contourOffset := (rimWidth as real) / 2.0 + (contourSize as real) / 2.0;
    var innerCircleBounds := Rect(pad.left as real + 1.5 * bar,
                                  pad.top as real + 1.5 * bar,
                                  (width - pad.right) as real - 1.5 * bar,
                                  (height - pad.bottom) as real - 1.5 * bar);
    var circleBounds := Rect((pad.left + barWidth) as real,
                             (pad.top + barWidth) as real,
                             (width - pad.right - barWidth) as real,
                             (height - pad.bottom - barWidth) as real);
    var circleInnerContour := Rect(circleBounds.left + contourOffset,
                                   circleBounds.top + contourOffset,
                                   circleBounds.right - contourOffset,
                                   circleBounds.bottom - contourOffset);
    var circleOuterContour := Rect(circleBounds.left - contourOffset,
                                   circleBounds.top - contourOffset,
                                   circleBounds.right + contourOffset,
                                   circleBounds.bottom + contourOffset);
    var fullRadius := Half(width - pad.right - barWidth);
    var circleRadius := (fullRadius - barWidth) + 1;
    Bounds(pad, Rings(innerCircleBounds, circleBounds, circleInnerContour, circleOuterContour),
           fullRadius, circleRadius)
  }

  /** The rings of a view whose layout box and frame are both `w` by `h`. */
  function RingsFor(host: Padding, w: int, h: int, barWidth: int, rimWidth: int, contourSize: int): Rings {
    SetupBounds(host, w, h, w, h, barWidth, rimWidth, contourSize).rings
  }

  /** A too-thick bar never faults: once one and a half bar widths exceed
      the space between the padding and the centre, the disc is inverted. */
  lemma ThickBarInvertsDisc(host: Padding, w: int, h: int, barWidth: int, rimWidth: int, contourSize: int)
    requires 2 * (host.left + host.right) + 6 * barWidth >= 2 * w
    ensures var r := RingsFor(host, w, h, barWidth, rimWidth, contourSize).innerCircle;
            r.left >= r.right
  {
  }

  /** Every ring drawn for a view laid out at the size `onMeasure`
      reported is round exactly when the horizontal and vertical padding
      sums differ by at most one: the centring offsets are taken from the
      outer box, so any larger padding imbalance is subtracted twice from
      the longer axis. */
  lemma RoundRingsIffBalancedPadding(measured: Measure.Dimension, widthMode: Measure.Mode,
                                     heightMode: Measure.Mode, host: Padding,
                                     barWidth: int, rimWidth: int, contourSize: int)
    ensures var d := Measure.OnMeasure(measured, widthMode, heightMode, host);
            var rings := RingsFor(host, d.width, d.height, barWidth, rimWidth, contourSize);
            var imbalance := (host.left + host.right) - (host.top + host.bottom);
            && (IsSquare(rings.circle) <==> -1 <= imbalance <= 1)
            && (IsSquare(rings.circle) <==> IsSquare(rings.innerCircle))
            && (IsSquare(rings.circle) <==> IsSquare(rings.innerContour))
            && (IsSquare(rings.circle) <==> IsSquare(rings.outerContour))
  {
    var d := Measure.OnMeasure(measured, widthMode, heightMode, host);
    var size := d.width - host.left - host.right;
    var b := SetupBounds(host, d.width, d.height, d.width, d.height, barWidth, rimWidth, contourSize);
    var imbalance := (host.left + host.right) - (host.top + host.bottom);
    assert d.width - d.height == imbalance;
    var c := b.rings.circle;
    assert c.right - c.left == (size - 2 * (b.pad.left - host.left) - 2 * barWidth) as real;
    assert c.bottom - c.top == (size - 2 * (b.pad.top - host.top) - 2 * barWidth) as real;
  }

  /** A concrete oval: 10 pixels of padding left and right only, 100 by
      100 offered exactly, bar width 20. The view measures 100 by 80, and
      the rim circle it then builds is 20 wide but 40 tall. */
  lemma AsymmetricPaddingGivesOval()
    ensures var host := Padding(10, 0, 10, 0);
            var d := Measure.OnMeasure(Measure.Dimension(100, 100), Measure.Exactly, Measure.Exactly, host);
            var c := RingsFor(host, d.width, d.height, 20, 20, 0).circle;
            && d == Measure.Dimension(100, 80)
            && c == Rect(40.0, 20.0, 60.0, 60.0)
            && !IsSquare(c)
  {
  }
}
