# CircleTimer — a Dafny model of the circular timer view

`CircleTimer` is an Android view that draws a round timer: a filled disc, a
rim ring, a thin outer contour, a progress arc on the rim and a centred
label. This project models its pure arithmetic and its field updates:

- **Size resolution** (`onMeasure`, module `Measure`). The padding is
  subtracted from the measured width and height. The content side is the
  smaller of the two when both axes are constrained (`EXACTLY` or
  `AT_MOST`) and the larger when either is `UNSPECIFIED`. The padding is
  then added back on each axis.
- **Ring geometry** (`setupBounds`, module `Bounds`). The longer axis of the
  layout box gets half its excess (Java integer division) as extra padding
  on both sides. From that padding come the four rectangles (disc, rim
  circle, inner and outer contour) and the two integer radii. Coordinates
  are exact `real`s, since every one is an integer plus a multiple of ½.
- **Draw plan** (`onDraw`, module `Draw`). It is the ordered list of
  `drawArc` calls, then the `drawText` call. The only branch is the
  progress arc's start angle: 0 while running, −90 while paused.
- **State** (module `Widget`). The view's fields form an immutable record.
  Construction builds the first record. `onSizeChanged` and the five
  setters are transitions, and each one carries the host signals it raises
  (`invalidate`, `requestLayout`). `Replay`
  delivers a sequence of such events.

Java `int` division is modelled as truncation toward zero (`JavaInt.Half`);
Dafny's own `/` is Euclidean. Colours are 32-bit patterns (`bv32`).

The proofs bring out several facts about the code as written:

- The content area is always square. The outer measured box is square
  only when the horizontal and vertical padding sums agree.
- The centring padding goes on both sides of the layout box's longer axis.
- The centring offsets are computed from the outer layout box, not from
  the content area. So after a layout at the measured size, the rings are
  round exactly when the two padding sums differ by at most one
  (`Bounds.RoundRingsIffBalancedPadding`). `Bounds.AsymmetricPaddingGivesOval`
  gives a concrete oval.
- `setCircleColor`, `setTextColor` and `setTextSize` store the field only.
  The paints are rebuilt only in `onSizeChanged`, so the drawing does not
  change until the next size change (`Widget.StyleSettersDoNotRepaint`).
- `setRunning` raises no redraw signal.
- No setter exists for bar length, bar width, rim width or contour size.
  The contour size is not read from the attributes, so it is always 0.
  Under the view's own events (size changes and its five setters) the
  cached geometry is therefore never stale once the view has been sized
  (`Widget.Replay`). Padding changed through the inherited `setPadding`
  is not one of those events.
- The inner contour rectangle is computed but never drawn.

## Model

| member | source | states |
|---|---|---|
| JavaInt.Half | app/src/main/java/com/macary/promodoro/CircleTimer.java:137 | Java `int` halving: the remainder is 0 or 1 with the dividend's sign (truncation toward zero) |
| JavaInt.Min | app/src/main/java/com/macary/promodoro/CircleTimer.java:97 | `Math.min` is a lower bound of both operands and equals one of them |
| JavaInt.Max | app/src/main/java/com/macary/promodoro/CircleTimer.java:161 | `Math.max` is an upper bound of both operands and equals one of them |
| Measure.ContentSize | app/src/main/java/com/macary/promodoro/CircleTimer.java:145-162 | the content side is one of the two padding-less measures: their minimum when both axes are constrained, their maximum otherwise |
| Measure.OnMeasure | app/src/main/java/com/macary/promodoro/CircleTimer.java:142-165 | the content area is square; constrained results never exceed the measured size and unconstrained ones never fall below it; one axis keeps its measure; the outer box is square iff the padding sums agree |
| Measure.FixedTakesSmaller | app/src/main/java/com/macary/promodoro/CircleTimer.java:154-159 | 200 by 100 offered exactly gives a 100 by 100 result |
| Measure.UnspecifiedTakesLarger | app/src/main/java/com/macary/promodoro/CircleTimer.java:160-162 | 50 by 300 offered unconstrained gives a 300 by 300 result |
| Measure.MeasureIdempotent | app/src/main/java/com/macary/promodoro/CircleTimer.java:142-165 | measuring the measured result again in the same modes gives it back |
| Geometry.Inset | app/src/main/java/com/macary/promodoro/CircleTimer.java:123-135 | moving every side in by d keeps the centre and shrinks width and height by 2d |
| Geometry.InsetContained | app/src/main/java/com/macary/promodoro/CircleTimer.java:110-135 | an inset by a non-negative amount is contained, strictly for a positive amount |
| Bounds.CenteringPadding | app/src/main/java/com/macary/promodoro/CircleTimer.java:97-105 | both offsets are non-negative and at least one is 0; each side of the longer axis gets the host padding plus half the excess rounded down, the shorter axis the host padding only |
| Bounds.SetupBounds | app/src/main/java/com/macary/promodoro/CircleTimer.java:96-139 | the rim circle is the padded box inset by the bar width; the disc and contours are it inset by half a bar and by ±(rim+contour)/2; all four share the host-padded centre; nesting (strict for positive widths); the rim circle is non-empty iff padding plus two bar widths fit; fullRadius is half the rim circle's right edge truncated, circleRadius one bar width less plus one |
| Bounds.ThickBarInvertsDisc | app/src/main/java/com/macary/promodoro/CircleTimer.java:110-115 | once 1.5 bar widths plus the padding exceed half the width, the disc is inverted (no fault) |
| Bounds.RoundRingsIffBalancedPadding | app/src/main/java/com/macary/promodoro/CircleTimer.java:96-121 | laid out at the measured size, every ring is square iff the horizontal and vertical padding sums differ by at most one |
| Bounds.AsymmetricPaddingGivesOval | app/src/main/java/com/macary/promodoro/CircleTimer.java:99-121 | padding 10 left and right, 100 by 100 offered: the view measures 100 by 80 and its rim circle is 20 wide, 40 tall |
| Draw.ProgressStart | app/src/main/java/com/macary/promodoro/CircleTimer.java:185-189 | start angle is 0 iff running and −90 iff paused |
| Draw.DrawPlan | app/src/main/java/com/macary/promodoro/CircleTimer.java:178-196 | four arcs in order: disc, rim, outer contour as whole circles, then the progress arc on the rim circle with the bar length as sweep and start 0 iff running; the text's advance is centred on half the width, its ascent-to-descent box on half the height |
| Draw.ProgressSpan | app/src/main/java/com/macary/promodoro/CircleTimer.java:186-188 | the progress arc's span begins at the arc's start angle and has the sweep as its length |
| Draw.QuarterSweepSpans | app/src/main/java/com/macary/promodoro/CircleTimer.java:185-189 | a 90° sweep spans [0, 90] running and [−90, 0] paused |
| Draw.RunningMovesOnlyProgressStart | app/src/main/java/com/macary/promodoro/CircleTimer.java:181-195 | running and paused plans differ only in the progress arc's start angle |
| Draw.LabelXIgnoresHeight | app/src/main/java/com/macary/promodoro/CircleTimer.java:191-195 | the text's x does not depend on the view's height |
| Widget.Construct | app/src/main/java/com/macary/promodoro/CircleTimer.java:50-73 | a new view is unsized and paused at size 0 by 0 with the initial bounds and contour size 0; each of bar width, rim width, bar length, text size, the five colours and the text takes its attribute when present and its field default otherwise |
| Widget.SetupPaints | app/src/main/java/com/macary/promodoro/CircleTimer.java:75-94 | bar, rim and contour paints stroke their colour at their width; the circle paint fills its colour; the text paint fills its colour at the text size |
| Widget.OnSizeChanged | app/src/main/java/com/macary/promodoro/CircleTimer.java:167-175 | stores the new size; the geometry and the paints become fresh; only layout size, geometry and paints change; it invalidates but does not request a layout |
| Widget.SetCircleColor | app/src/main/java/com/macary/promodoro/CircleTimer.java:198-202 | changes only the circle colour field and signals both redraw and relayout |
| Widget.SetTextColor | app/src/main/java/com/macary/promodoro/CircleTimer.java:204-208 | changes only the text colour field and signals both |
| Widget.SetTextSize | app/src/main/java/com/macary/promodoro/CircleTimer.java:210-214 | changes only the text size field and signals both |
| Widget.SetText | app/src/main/java/com/macary/promodoro/CircleTimer.java:216-220 | changes only the text field and signals both |
| Widget.SetRunning | app/src/main/java/com/macary/promodoro/CircleTimer.java:222-224 | changes only the running flag and signals nothing |
| Widget.PaintOf | app/src/main/java/com/macary/promodoro/CircleTimer.java:181-195 | a paint is configured iff the view has been sized; each tag selects its own paint (circle, rim, contour, bar, text); fresh paints carry the current colours, stroke widths and text size |
| Widget.OnDraw | app/src/main/java/com/macary/promodoro/CircleTimer.java:177-196 | on the view's stored rings: disc (circle paint), rim circle (rim paint) and outer contour (contour paint) as whole circles, then the progress arc on the rim circle with the bar paint, sweep = bar length, start 0 iff running and −90 iff paused; a sized view's rim circle is the one for its current size; the current text with the text paint, its advance centred on half the width and its ascent-to-descent box on half the height (Java int division) |
| Widget.ApplyKeepsStyle | app/src/main/java/com/macary/promodoro/CircleTimer.java:167-224 | no single event changes the host padding, bar length or stroke widths, un-sizes the view or leaves its geometry stale |
| Widget.Replay | app/src/main/java/com/macary/promodoro/CircleTimer.java:167-224 | after any sequence of the view's own events the host padding, bar length and stroke widths are unchanged, a sized view stays sized, and its geometry stays fresh |
| Widget.ReplayAppend | app/src/main/java/com/macary/promodoro/CircleTimer.java:167-224 | events are applied one at a time, so two batches compose into their concatenation |
| Widget.SetterKeepsGeometryAndPaints | app/src/main/java/com/macary/promodoro/CircleTimer.java:198-224 | no single setter changes the layout size, geometry or paints |
| Widget.SettersKeepGeometryAndPaints | app/src/main/java/com/macary/promodoro/CircleTimer.java:198-224 | without a size change, no sequence of setters changes the layout size, geometry or paints |
| Widget.StyleSettersDoNotRepaint | app/src/main/java/com/macary/promodoro/CircleTimer.java:198-214 | the colour and text-size setters change neither the draw plan nor any paint |
| Widget.CircleColorGoesStale | app/src/main/java/com/macary/promodoro/CircleTimer.java:198-202 | after a new circle colour the fill paint still has the old one |
| Widget.ConstructedViewStaysCoherent | app/src/main/java/com/macary/promodoro/CircleTimer.java:50-73 | any constructed view, after any events, keeps contour size 0, its constructed bar length and host padding, and fresh geometry |
| Widget.SizedViewDrawsCentred | app/src/main/java/com/macary/promodoro/CircleTimer.java:110-135 | after any events every arc of a sized view is centred in its current host-padded box |

## Left out

- Attribute parsing in the constructor (theme lookup, `TypedArray`, `recycle`). The values found become an `Attributes` input. The `(int)` cast of `getDimension`'s float is not modelled, so each dimension is taken as an int.
- `Canvas` and `Paint` calls, anti-aliasing, and a paint's platform defaults before the first size change. The model records only which field feeds which paint, and which paint each primitive uses.
- Font metrics. `measureText`, `ascent` and `descent` are real inputs (`FontMetrics`).
- `invalidate()` and `requestLayout()` are recorded as flags on each transition. The host's redraw and relayout cycle is not modelled, and `onMeasure` is not wired into the state record.
- `super.onMeasure` and `MeasureSpec` decoding. The measured width and height and each axis's mode are inputs.
- `getWidth()` and `getHeight()` are taken to be the size from the last `onSizeChanged`, which the platform sets before calling it. Before the first one they are 0.
- `onSizeChanged`'s old width and old height. The source ignores them.
- `RectF` float rounding. Coordinates are exact reals.
- Java `int` overflow. Integers are unbounded.
- MainActivity.kt is not part of this model. It is activity glue with no logic of the view.
- Host padding changes made through the inherited `View.setPadding`. The model has no such event; when one leaves the measured size unchanged, no `onSizeChanged` follows and the view keeps padding fields and rectangles computed from the old padding, which `Widget.Replay` does not cover.
- A `null` label. `setText(null)` or an attribute lookup that yields null is legal Java, and `onDraw` would then throw in `measureText`; the model's text is always a string.
