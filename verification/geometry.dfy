/**
 Axis-aligned rectangles with exact coordinates, and a view's padding.
 A rectangle whose left edge is not left of its right edge (or whose top
 is not above its bottom) is inverted: drawing into it paints nothing,
 and building one is never an error.
 */
module Geometry {

  /** Padding on the four sides of a view, in pixels. */
  datatype Padding = Padding(left: int, top: int, right: int, bottom: int)

  /** A floating-point rectangle; every coordinate the widget builds is an
      integer plus a multiple of one half, so `real` holds it exactly. */
  datatype Rect = Rect(left: real, top: real, right: real, bottom: real)

  /** The rectangle with every side moved inward by `d` (outward when `d` is negative). */
  function Inset(r: Rect, d: real): (s: Rect)
    ensures s.left + s.right == r.left + r.right
    ensures s.top + s.bottom == r.top + r.bottom
    ensures s.right - s.left == r.right - r.left - 2.0 * d
    ensures s.bottom - s.top == r.bottom - r.top - 2.0 * d
  {
    Rect(r.left + d, r.top + d, r.right - d, r.bottom - d)
  }

  /** Every edge of `inner` lies on or inside the matching edge of `outer`. */
  predicate Contains(outer: Rect, inner: Rect) {
    && outer.left <= inner.left
    && outer.top <= inner.top
    && inner.right <= outer.right
    && inner.bottom <= outer.bottom
  }

  /** Every edge of `inner` lies strictly inside the matching edge of `outer`. */
  predicate StrictlyContains(outer: Rect, inner: Rect) {
    && outer.left < inner.left
    && outer.top < inner.top
    && inner.right < outer.right
    && inner.bottom < outer.bottom
  }

  /** The rectangle has positive width and positive height. */
  predicate NonEmpty(r: Rect) {
    r.left < r.right && r.top < r.bottom
  }

  /** Width equals height: an oval drawn in it is a circle. */
  predicate IsSquare(r: Rect) {
    r.right - r.left == r.bottom - r.top
  }

  /** Insetting by a non-negative amount gives a contained rectangle,
      strictly contained when the amount is positive. */
  lemma InsetContained(r: Rect, d: real)
    requires d >= 0.0
    ensures Contains(r, Inset(r, d))
    ensures d > 0.0 ==> StrictlyContains(r, Inset(r, d))
  {
  }
}
