/**
 The draw plan of the timer view (`onDraw`): the ordered list of arcs it
 strokes or fills, followed by the label.
 */
module Draw {
  import opened JavaInt
  import opened Geometry
  import opened Bounds

  /** Which of the view's five paints a primitive is drawn with. */
  datatype PaintTag = CirclePaint | RimPaint | ContourPaint | BarPaint | TextPaint

  /** One `drawArc` call; `useCenter` is false in every call the view makes. */
  datatype Arc = Arc(oval: Rect, startAngle: int, sweepAngle: int, useCenter: bool, paint: PaintTag)

  /** The `drawText` call: the string and its baseline origin. */
  datatype TextDraw = TextDraw(text: string, x: real, y: real, paint: PaintTag)

  /** Everything one `onDraw` draws, in drawing order (later over earlier). */
  datatype Plan = Plan(arcs: seq<Arc>, textDraw: TextDraw)

  /** What the text paint reports for the current label: the advance
      width of the text, and the ascent (negative, above the baseline) and
      descent (positive, below it) of the font. */
  datatype FontMetrics = FontMetrics(textWidth: real, ascent: real, descent: real)

  /** A whole-circle arc: it starts at 360 degrees and sweeps 360. */
  predicate FullCircle(a: Arc) {
    a.startAngle == 360 && a.sweepAngle == 360 && !a.useCenter
  }

  /** The start angle of the progress arc: 0 (three o'clock) while the
      timer runs, -90 (twelve o'clock) while it is paused. */
  function ProgressStart(isRunning: bool): (angle: int)
    ensures isRunning <==> angle == 0
    ensures !isRunning <==> angle == -90
  {
    if isRunning then 0 else -90
  }

  /** `onDraw` for a view of `width` by `height` pixels. */
  function DrawPlan(rings: Rings, isRunning: bool, barLength: int, text: string,
                    width: int, height: int, m: FontMetrics): (p: Plan)
    ensures |p.arcs| == 4
    // three whole circles first: disc, rim, outer contour
    ensures forall i :: 0 <= i < 3 ==> FullCircle(p.arcs[i])
    ensures p.arcs[0].oval == rings.innerCircle && p.arcs[0].paint == CirclePaint
    ensures p.arcs[1].oval == rings.circle && p.arcs[1].paint == RimPaint
    ensures p.arcs[2].oval == rings.outerContour && p.arcs[2].paint == ContourPaint
    // then the progress arc on the rim circle, over the rim
    ensures p.arcs[3].oval == rings.circle && p.arcs[3].paint == BarPaint && !p.arcs[3].useCenter
    ensures p.arcs[3].sweepAngle == barLength
    ensures isRunning <==> p.arcs[3].startAngle == 0
    ensures !isRunning <==> p.arcs[3].startAngle == -90
    // the text paint is used for the label only
    ensures forall i :: 0 <= i < |p.arcs| ==> p.arcs[i].paint != TextPaint
    // the label: its advance is centred on half the width (Java int division),
    // its glyph box from ascent to descent is centred on half the height
    ensures p.textDraw.text == text && p.textDraw.paint == TextPaint
    ensures p.textDraw.x + m.textWidth / 2.0 == Half(width) as real
    ensures (p.textDraw.y + m.ascent + p.textDraw.y + m.descent) / 2.0 == Half(height) as real
  {
    var textHeight := m.descent - m.ascent;
    var verticalTextOffset := textHeight / 2.0 - m.descent;
    var horizontalTextOffset := m.textWidth / 2.0;
    Plan([Arc(rings.innerCircle, 360, 360, false, CirclePaint),
          Arc(rings.circle, 360, 360, false, RimPaint),
          Arc(rings.outerContour, 360, 360, false, ContourPaint),
          Arc(rings.circle, ProgressStart(isRunning), barLength, false, BarPaint)],
         TextDraw(text, Half(width) as real - horizontalTextOffset, Half(height) as real + verticalTextOffset, TextPaint))
  }

  /** The angular span of the progress arc, from its start to its end. */
  function ProgressSpan(p: Plan): (span: (int, int))
    requires |p.arcs| == 4
    ensures span.0 == p.arcs[3].startAngle
    ensures span.1 - span.0 == p.arcs[3].sweepAngle
  {
    (p.arcs[3].startAngle, p.arcs[3].startAngle + p.arcs[3].sweepAngle)
  }

  /** A quarter sweep spans 0 to 90 degrees while running and -90 to 0 while paused. */
  lemma QuarterSweepSpans(rings: Rings, text: string, width: int, height: int, m: FontMetrics)
    ensures ProgressSpan(DrawPlan(rings, true, 90, text, width, height, m)) == (0, 90)
    ensures ProgressSpan(DrawPlan(rings, false, 90, text, width, height, m)) == (-90, 0)
  {
  }

  /** Pausing and resuming only moves the progress arc's start: every
      other primitive, and the progress arc's oval, sweep and paint,
      are the same. */
  lemma RunningMovesOnlyProgressStart(rings: Rings, barLength: int, text: string,
                                      width: int, height: int, m: FontMetrics)
    ensures var running := DrawPlan(rings, true, barLength, text, width, height, m);
            var paused := DrawPlan(rings, false, barLength, text, width, height, m);
            && running.arcs[..3] == paused.arcs[..3]
            && running.arcs[3].(startAngle := -90) == paused.arcs[3]
            && running.textDraw == paused.textDraw
  {
  }

  /** The label's horizontal position does not depend on the view's height. */
  lemma LabelXIgnoresHeight(rings: Rings, isRunning: bool, barLength: int, text: string,
                            width: int, h1: int, h2: int, m: FontMetrics)
    ensures DrawPlan(rings, isRunning, barLength, text, width, h1, m).textDraw.x
         == DrawPlan(rings, isRunning, barLength, text, width, h2, m).textDraw.x
  {
  }
}
