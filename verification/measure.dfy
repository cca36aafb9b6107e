/**
 Size resolution of the timer view (`onMeasure`): whatever space the
 parent offers, the content area reported back is square.
 */
module Measure {
  import opened JavaInt
  import opened Geometry

  /** The mode of a measure spec handed down by the parent. `AtMost`
      constrains the view exactly as `Exactly` does here. */
  datatype Mode = Exactly | AtMost | Unspecified

  /** A width/height pair in pixels. */
  datatype Dimension = Dimension(width: int, height: int)

  /** Neither axis is `Unspecified`. */
  predicate Constrained(widthMode: Mode, heightMode: Mode) {
    widthMode != Unspecified && heightMode != Unspecified
  }

  /** The side of the square content area: the measured width and height
      less the view's padding, then the smaller of the two when both axes
      are constrained and the larger otherwise. */
  function ContentSize(measured: Dimension, widthMode: Mode, heightMode: Mode, host: Padding): (size: int)
    ensures var w := measured.width - host.left - host.right;
            var h := measured.height - host.top - host.bottom;
            && (Constrained(widthMode, heightMode) ==> size <= w && size <= h)
            && (!Constrained(widthMode, heightMode) ==> size >= w && size >= h)
            && (size == w || size == h)
  {
    var widthWithoutPadding := measured.width - host.left - host.right;
    var heightWithoutPadding := measured.height - host.top - host.bottom;
    if heightMode != Unspecified && widthMode != Unspecified then
      if widthWithoutPadding > heightWithoutPadding then heightWithoutPadding else widthWithoutPadding
    else
      Max(heightWithoutPadding, widthWithoutPadding)
  }

  /** The dimension `onMeasure` sets: the square content size plus the
      view's padding on each axis. The content area is always square; the
      outer box is square only when the horizontal and vertical padding
      sums agree. Under constraints it never exceeds the measured size;
      without them it never falls below it. */
  function OnMeasure(measured: Dimension, widthMode: Mode, heightMode: Mode, host: Padding): (r: Dimension)
    ensures r.width - host.left - host.right == r.height - host.top - host.bottom
    ensures Constrained(widthMode, heightMode) ==>
              r.width <= measured.width && r.height <= measured.height
    ensures !Constrained(widthMode, heightMode) ==>
              r.width >= measured.width && r.height >= measured.height
    ensures r.width == measured.width || r.height == measured.height
    ensures r.width == r.height <==> host.left + host.right == host.top + host.bottom
  {
    var size := ContentSize(measured, widthMode, heightMode, host);
    Dimension(size + host.left + host.right, size + host.top + host.bottom)
  }

  /** Both axes fixed, 200 by 100 available, no padding: the content is 100. */
  lemma FixedTakesSmaller()
    ensures OnMeasure(Dimension(200, 100), Exactly, Exactly, Padding(0, 0, 0, 0)) == Dimension(100, 100)
  {
  }

  /** Both axes free, 50 by 300 available, no padding: the content is 300. */
  lemma UnspecifiedTakesLarger()
    ensures OnMeasure(Dimension(50, 300), Unspecified, Unspecified, Padding(0, 0, 0, 0)) == Dimension(300, 300)
  {
  }

  /** Measuring is idempotent: feeding the result back as the measured
      size, in the same modes, reproduces it. */
  lemma MeasureIdempotent(measured: Dimension, widthMode: Mode, heightMode: Mode, host: Padding)
    ensures var r := OnMeasure(measured, widthMode, heightMode, host);
            OnMeasure(r, widthMode, heightMode, host) == r
  {
  }
}
