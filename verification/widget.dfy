/**
 The timer view as an immutable record of its fields, with construction,
 the size-change callback and the public setters as transitions, and the
 draw plan read off the current record.
 */
module Widget {
  import opened Optional
  import opened JavaInt
  import opened Geometry
  import opened Bounds
  import opened Draw

  /** Colours as Java `int` bit patterns (alpha in the top byte). */
  datatype Colors = Colors(bar: bv32, contour: bv32, circle: bv32, rim: bv32, text: bv32)

  /** What `setupPaints` writes into one paint. */
  datatype Paint =
    | Stroke(color: bv32, strokeWidth: int)
    | Fill(color: bv32)
    | TextFill(color: bv32, textSize: int)

  /** The five paints the view draws with. */
  datatype Paints = Paints(circle: Paint, text: Paint, bar: Paint, rim: Paint, contour: Paint)

  /** The view's fields. `width`/`height` of the view are the layout size
      of the last size change (zero before the first); `host` is the
      padding the view was given. `paints` is absent until the first size
      change configures them. */
  datatype Widget = Widget(
    host: Padding,
    layoutWidth: int,
    layoutHeight: int,
    geometry: Bounds,
    textSize: int,
    barLength: int,
    barWidth: int,
    rimWidth: int,
    contourSize: int,
    colors: Colors,
    isRunning: bool,
    text: string,
    paints: Maybe<Paints>)

  /** The style attributes the constructor may find; absent ones keep the field's default. */
  datatype Attributes = Attributes(
    barWidth: Maybe<int>,
    rimWidth: Maybe<int>,
    barLength: Maybe<int>,
    textSize: Maybe<int>,
    barColor: Maybe<bv32>,
    rimColor: Maybe<bv32>,
    contourColor: Maybe<bv32>,
    circleColor: Maybe<bv32>,
    textColor: Maybe<bv32>,
    text: Maybe<string>)

  /** A transition's new record and the host signals it raises. */
  datatype Step = Step(view: Widget, invalidate: bool, requestLayout: bool)

  /** The field defaults before the attributes are read. */
  const DefaultBarWidth := 20
  const DefaultRimWidth := 20
  const DefaultBarLength := 0
  const DefaultTextSize := 18
  const DefaultColors := Colors(0xAA00_0000, 0x0000_0000, 0xFF00_0000, 0xAADD_DDDD, 0x0000_0000)
  const EmptyRect := Rect(0.0, 0.0, 0.0, 0.0)
  const InitialBounds := Bounds(Padding(5, 5, 5, 5), Rings(EmptyRect, EmptyRect, EmptyRect, EmptyRect), 100, 80)

  /** The constructor: every attribute present overrides its default;
      the contour size is never read and stays 0. The view starts paused,
      unsized and with its paints unconfigured. */
  function Construct(host: Padding, attrs: Attributes): (w: Widget)
    ensures !Sized(w) && !w.isRunning
    ensures w.host == host && w.layoutWidth == 0 && w.layoutHeight == 0
    ensures w.geometry == InitialBounds
    ensures w.contourSize == 0
    ensures attrs.barWidth.Present? ==> w.barWidth == attrs.barWidth.value
    ensures attrs.barWidth.Absent? ==> w.barWidth == DefaultBarWidth
    ensures attrs.rimWidth.Present? ==> w.rimWidth == attrs.rimWidth.value
    ensures attrs.rimWidth.Absent? ==> w.rimWidth == DefaultRimWidth
    ensures attrs.barLength.Present? ==> w.barLength == attrs.barLength.value
    ensures attrs.barLength.Absent? ==> w.barLength == DefaultBarLength
    ensures attrs.textSize.Present? ==> w.textSize == attrs.textSize.value
    ensures attrs.textSize.Absent? ==> w.textSize == DefaultTextSize
    ensures attrs.barColor.Present? ==> w.colors.bar == attrs.barColor.value
    ensures attrs.barColor.Absent? ==> w.colors.bar == DefaultColors.bar
    ensures attrs.rimColor.Present? ==> w.colors.rim == attrs.rimColor.value
    ensures attrs.rimColor.Absent? ==> w.colors.rim == DefaultColors.rim
    ensures attrs.contourColor.Present? ==> w.colors.contour == attrs.contourColor.value
    ensures attrs.contourColor.Absent? ==> w.colors.contour == DefaultColors.contour
    ensures attrs.circleColor.Present? ==> w.colors.circle == attrs.circleColor.value
    ensures attrs.circleColor.Absent? ==> w.colors.circle == DefaultColors.circle
    ensures attrs.textColor.Present? ==> w.colors.text == attrs.textColor.value
    ensures attrs.textColor.Absent? ==> w.colors.text == DefaultColors.text
    ensures attrs.text.Present? ==> w.text == attrs.text.value
    ensures attrs.text.Absent? ==> w.text == ""
  {
    Widget(host, 0, 0, InitialBounds,
           ValueOr(attrs.textSize, DefaultTextSize),
           ValueOr(attrs.barLength, DefaultBarLength),
           ValueOr(attrs.barWidth, DefaultBarWidth),
           ValueOr(attrs.rimWidth, DefaultRimWidth),
           0,
           Colors(ValueOr(attrs.barColor, DefaultColors.bar),
                  ValueOr(attrs.contourColor, DefaultColors.contour),
                  ValueOr(attrs.circleColor, DefaultColors.circle),
                  ValueOr(attrs.rimColor, DefaultColors.rim),
                  ValueOr(attrs.textColor, DefaultColors.text)),
           false,
           ValueOr(attrs.text, ""),
           Absent)
  }

  /** The view has been through at least one size change. */
  predicate Sized(w: Widget) {
    w.paints.Present?
  }

  /** `setupPaints`: which field feeds which paint. */
  function SetupPaints(w: Widget): (p: Paints)
    ensures p.bar.Stroke? && p.rim.Stroke? && p.contour.Stroke? && p.circle.Fill? && p.text.TextFill?
    ensures p.bar.color == w.colors.bar && p.bar.strokeWidth == w.barWidth
    ensures p.rim.color == w.colors.rim && p.rim.strokeWidth == w.rimWidth
    ensures p.contour.color == w.colors.contour && p.contour.strokeWidth == w.contourSize
    ensures p.circle.color == w.colors.circle
    ensures p.text.color == w.colors.text && p.text.textSize == w.textSize
  {
    Paints(Fill(w.colors.circle),
           TextFill(w.colors.text, w.textSize),
           Stroke(w.colors.bar, w.barWidth),
           Stroke(w.colors.rim, w.rimWidth),
           Stroke(w.colors.contour, w.contourSize))
  }

  /** The cached geometry is what `setupBounds` computes from the current
      layout size, host padding and stroke widths. */
  predicate GeometryFresh(w: Widget) {
    w.geometry == SetupBounds(w.host, w.layoutWidth, w.layoutHeight, w.layoutWidth, w.layoutHeight,
                              w.barWidth, w.rimWidth, w.contourSize)
  }

  /** The configured paints reflect the current colours, widths and text size. */
  predicate PaintsFresh(w: Widget) {
    w.paints == Present(SetupPaints(w))
  }

  /** Once sized, the geometry is never stale. */
  predicate Coherent(w: Widget) {
    Sized(w) ==> GeometryFresh(w)
  }

  /** The fields of the record, for stating which a transition touches. */
  datatype Field =
    | Host | LayoutWidth | LayoutHeight | Geometry | TextSize | BarLength | BarWidth | RimWidth
    | ContourSize | BarColor | ContourColor | CircleColor | RimColor | TextColor | Running | Text
    | PaintsField

  /** The two records agree on every field outside `changed`. */
  predicate SameExcept(a: Widget, b: Widget, changed: set<Field>) {
    && (Host in changed || a.host == b.host)
    && (LayoutWidth in changed || a.layoutWidth == b.layoutWidth)
    && (LayoutHeight in changed || a.layoutHeight == b.layoutHeight)
    && (Geometry in changed || a.geometry == b.geometry)
    && (TextSize in changed || a.textSize == b.textSize)
    && (BarLength in changed || a.barLength == b.barLength)
    && (BarWidth in changed || a.barWidth == b.barWidth)
    && (RimWidth in changed || a.rimWidth == b.rimWidth)
    && (ContourSize in changed || a.contourSize == b.contourSize)
    && (BarColor in changed || a.colors.bar == b.colors.bar)
    && (ContourColor in changed || a.colors.contour == b.colors.contour)
    && (CircleColor in changed || a.colors.circle == b.colors.circle)
    && (RimColor in changed || a.colors.rim == b.colors.rim)
    && (TextColor in changed || a.colors.text == b.colors.text)
    && (Running in changed || a.isRunning == b.isRunning)
    && (Text in changed || a.text == b.text)
    && (PaintsField in changed || a.paints == b.paints)
  }

  /** Agreeing on every field is equality. */
  lemma SameExceptNothingIsEquality(a: Widget, b: Widget)
    ensures SameExcept(a, b, {}) <==> a == b
  {
  }

  /** `onSizeChanged`: store the new size, recompute the geometry from it
      and reconfigure every paint, then ask for a redraw. */
  function OnSizeChanged(w: Widget, newWidth: int, newHeight: int): (r: Step)
    ensures r.view.layoutWidth == newWidth && r.view.layoutHeight == newHeight
    ensures Sized(r.view) && GeometryFresh(r.view) && PaintsFresh(r.view)
    ensures SameExcept(w, r.view, {LayoutWidth, LayoutHeight, Geometry, PaintsField})
    ensures r.invalidate && !r.requestLayout
  {
    var sized := w.(layoutWidth := newWidth, layoutHeight := newHeight);
    var bounded := sized.(geometry := SetupBounds(w.host, newWidth, newHeight, newWidth, newHeight,
                                                  w.barWidth, w.rimWidth, w.contourSize));
    Step(bounded.(paints := Present(SetupPaints(bounded))), true, false)
  }

  /** `setCircleColor`: the field only; the fill paint keeps its colour until the next size change. */
  function SetCircleColor(w: Widget, color: bv32): (r: Step)
    ensures r.view.colors.circle == color
    ensures SameExcept(w, r.view, {CircleColor})
    ensures r.invalidate && r.requestLayout
  {
    Step(w.(colors := w.colors.(circle := color)), true, true)
  }

  /** `setTextColor`: the field only; the text paint keeps its colour until the next size change. */
  function SetTextColor(w: Widget, color: bv32): (r: Step)
    ensures r.view.colors.text == color
    ensures SameExcept(w, r.view, {TextColor})
    ensures r.invalidate && r.requestLayout
  {
    Step(w.(colors := w.colors.(text := color)), true, true)
  }

  /** `setTextSize`: the field only; the text paint keeps its size until the next size change. */
  function SetTextSize(w: Widget, textSize: int): (r: Step)
    ensures r.view.textSize == textSize
    ensures SameExcept(w, r.view, {TextSize})
    ensures r.invalidate && r.requestLayout
  {
    Step(w.(textSize := textSize), true, true)
  }

  /** `setText`: the label drawn from the next frame on. */
  function SetText(w: Widget, text: string): (r: Step)
    ensures r.view.text == text
    ensures SameExcept(w, r.view, {Text})
    ensures r.invalidate && r.requestLayout
  {
    Step(w.(text := text), true, true)
  }

  /** `setRunning`: flips the flag and signals nothing to the host. */
  function SetRunning(w: Widget, running: bool): (r: Step)
    ensures r.view.isRunning == running
    ensures SameExcept(w, r.view, {Running})
    ensures !r.invalidate && !r.requestLayout
  {
    Step(w.(isRunning := running), false, false)
  }

  /** The paint a primitive tagged `tag` is drawn with; absence is the
      platform's default paint, before the first size change. */
  function PaintOf(w: Widget, tag: PaintTag): (p: Maybe<Paint>)
    ensures Sized(w) <==> p.Present?
    ensures Sized(w) && tag == CirclePaint ==> p == Present(w.paints.value.circle)
    ensures Sized(w) && tag == RimPaint ==> p == Present(w.paints.value.rim)
    ensures Sized(w) && tag == ContourPaint ==> p == Present(w.paints.value.contour)
    ensures Sized(w) && tag == BarPaint ==> p == Present(w.paints.value.bar)
    ensures Sized(w) && tag == TextPaint ==> p == Present(w.paints.value.text)
    ensures PaintsFresh(w) && tag == CirclePaint ==> p == Present(Fill(w.colors.circle))
    ensures PaintsFresh(w) && tag == RimPaint ==> p == Present(Stroke(w.colors.rim, w.rimWidth))
    ensures PaintsFresh(w) && tag == ContourPaint ==> p == Present(Stroke(w.colors.contour, w.contourSize))
    ensures PaintsFresh(w) && tag == BarPaint ==> p == Present(Stroke(w.colors.bar, w.barWidth))
    ensures PaintsFresh(w) && tag == TextPaint ==> p == Present(TextFill(w.colors.text, w.textSize))
  {
    match w.paints
    case Absent => Absent
    case Present(ps) =>
      match tag
      case CirclePaint => Present(ps.circle)
      case RimPaint => Present(ps.rim)
      case ContourPaint => Present(ps.contour)
      case BarPaint => Present(ps.bar)
      case TextPaint => Present(ps.text)
  }

  /** `onDraw` on the current record: the view is as large as its last layout. */
  function OnDraw(w: Widget, m: FontMetrics): (p: Plan)
    ensures |p.arcs| == 4
    // disc, rim and outer contour as whole circles, each with its own paint
    ensures forall i :: 0 <= i < 3 ==> FullCircle(p.arcs[i])
    ensures p.arcs[0].oval == w.geometry.rings.innerCircle && p.arcs[0].paint == CirclePaint
    ensures p.arcs[1].oval == w.geometry.rings.circle && p.arcs[1].paint == RimPaint
    ensures p.arcs[2].oval == w.geometry.rings.outerContour && p.arcs[2].paint == ContourPaint
    // then the progress arc over the rim
    ensures p.arcs[3].oval == w.geometry.rings.circle && p.arcs[3].paint == BarPaint && !p.arcs[3].useCenter
    ensures p.arcs[3].sweepAngle == w.barLength
    ensures w.isRunning <==> p.arcs[3].startAngle == 0
    ensures !w.isRunning <==> p.arcs[3].startAngle == -90
    // a sized view strokes the rim on the circle of its current size
    ensures Sized(w) && Coherent(w) ==>
              p.arcs[1].oval == RingsFor(w.host, w.layoutWidth, w.layoutHeight,
                                         w.barWidth, w.rimWidth, w.contourSize).circle
    // the label: current text, centred on half the view's width and height
    ensures p.textDraw.text == w.text && p.textDraw.paint == TextPaint
    ensures p.textDraw.x + m.textWidth / 2.0 == Half(w.layoutWidth) as real
    ensures (p.textDraw.y + m.ascent + p.textDraw.y + m.descent) / 2.0 == Half(w.layoutHeight) as real
  {
    DrawPlan(w.geometry.rings, w.isRunning, w.barLength, w.text, w.layoutWidth, w.layoutHeight, m)
  }

  /** The view's own events: a size change or one of its five setters. */
  datatype Event =
    | SizeChanged(newWidth: int, newHeight: int)
    | CircleColorSet(color: bv32)
    | TextColorSet(color: bv32)
    | TextSizeSet(textSize: int)
    | TextSet(text: string)
    | RunningSet(running: bool)

  /** One event, delivered to the view. */
  function Apply(w: Widget, e: Event): Step {
    match e
    case SizeChanged(nw, nh) => OnSizeChanged(w, nw, nh)
    case CircleColorSet(c) => SetCircleColor(w, c)
    case TextColorSet(c) => SetTextColor(w, c)
    case TextSizeSet(n) => SetTextSize(w, n)
    case TextSet(s) => SetText(w, s)
    case RunningSet(b) => SetRunning(w, b)
  }

  /** The fields no transition writes after construction. */
  predicate SameStyle(a: Widget, b: Widget) {
    && a.host == b.host
    && a.barWidth == b.barWidth
    && a.rimWidth == b.rimWidth
    && a.contourSize == b.contourSize
    && a.barLength == b.barLength
  }

  /** The record after delivering `events` in order. Host padding, bar
      length and stroke widths never change; once sized the view stays
      sized; and the cached geometry is never stale. */
  function Replay(w: Widget, events: seq<Event>): (r: Widget)
    ensures SameStyle(w, r)
    ensures Sized(w) ==> Sized(r)
    ensures Coherent(w) ==> Coherent(r)
    decreases |events|
  {
    if |events| == 0 then w
    else
      ApplyKeepsStyle(w, events[0]);
      Replay(Apply(w, events[0]).view, events[1..])
  }

  /** A single event keeps the style, the sizedness and the coherence. */
  lemma ApplyKeepsStyle(w: Widget, e: Event)
    ensures SameStyle(w, Apply(w, e).view)
    ensures Sized(w) ==> Sized(Apply(w, e).view)
    ensures Coherent(w) ==> Coherent(Apply(w, e).view)
  {
    var r := Apply(w, e).view;
    if !e.SizeChanged? {
      assert r.geometry == w.geometry && r.host == w.host;
      assert r.layoutWidth == w.layoutWidth && r.layoutHeight == w.layoutHeight;
    }
  }

  /** Delivering two batches of events is delivering their concatenation. */
  lemma {:induction false} ReplayAppend(w: Widget, first: seq<Event>, second: seq<Event>)
    ensures Replay(w, first + second) == Replay(Replay(w, first), second)
    decreases |first|
  {
    if |first| == 0 {
      assert first + second == second;
    } else {
      assert (first + second)[1..] == first[1..] + second;
      ReplayAppend(Apply(w, first[0]).view, first[1..], second);
    }
  }

  /** Without a size change, neither the layout size, the geometry nor the
      paints move, whatever setters run. */
  lemma {:induction false} SettersKeepGeometryAndPaints(w: Widget, events: seq<Event>)
    requires forall i :: 0 <= i < |events| ==> !events[i].SizeChanged?
    ensures var r := Replay(w, events);
            && r.layoutWidth == w.layoutWidth && r.layoutHeight == w.layoutHeight
            && r.geometry == w.geometry && r.paints == w.paints
    decreases |events|
  {
    if |events| > 0 {
      var next := Apply(w, events[0]).view;
      SetterKeepsGeometryAndPaints(w, events[0]);
      assert Replay(w, events) == Replay(next, events[1..]);
      SettersKeepGeometryAndPaints(next, events[1..]);
    }
  }

  /** One setter leaves the layout size, the geometry and the paints alone. */
  lemma SetterKeepsGeometryAndPaints(w: Widget, e: Event)
    requires !e.SizeChanged?
    ensures var r := Apply(w, e).view;
            && r.layoutWidth == w.layoutWidth && r.layoutHeight == w.layoutHeight
            && r.geometry == w.geometry && r.paints == w.paints
  {
  }

  /** A colour or text-size setter never changes what is drawn, nor the
      paints it is drawn with, until the next size change. */
  lemma StyleSettersDoNotRepaint(w: Widget, color: bv32, textSize: int, m: FontMetrics)
    ensures OnDraw(SetCircleColor(w, color).view, m) == OnDraw(w, m)
    ensures OnDraw(SetTextColor(w, color).view, m) == OnDraw(w, m)
    ensures OnDraw(SetTextSize(w, textSize).view, m) == OnDraw(w, m)
    ensures forall tag :: PaintOf(SetCircleColor(w, color).view, tag) == PaintOf(w, tag)
    ensures forall tag :: PaintOf(SetTextColor(w, color).view, tag) == PaintOf(w, tag)
    ensures forall tag :: PaintOf(SetTextSize(w, textSize).view, tag) == PaintOf(w, tag)
  {
  }

  /** So a new circle colour leaves a sized view's paints stale. */
  lemma CircleColorGoesStale(w: Widget, color: bv32)
    requires PaintsFresh(w) && color != w.colors.circle
    ensures !PaintsFresh(SetCircleColor(w, color).view)
    ensures PaintOf(SetCircleColor(w, color).view, CirclePaint) != Present(Fill(color))
  {
  }

  /** A view built from any attributes and driven by any events keeps its
      construction-time bar length, contour size 0 and fresh geometry. */
  lemma ConstructedViewStaysCoherent(host: Padding, attrs: Attributes, events: seq<Event>)
    ensures var r := Replay(Construct(host, attrs), events);
            && Coherent(r)
            && r.contourSize == 0
            && r.barLength == ValueOr(attrs.barLength, DefaultBarLength)
            && r.host == host
  {
  }

  /** A sized view, once the size has changed to `w` by `h`, draws its
      rings around the centre of the padded `w` by `h` box. */
  lemma SizedViewDrawsCentred(v: Widget, events: seq<Event>, m: FontMetrics)
    requires Coherent(v) && Sized(v)
    ensures var r := Replay(v, events);
            var p := OnDraw(r, m);
            forall i :: 0 <= i < |p.arcs| ==>
              CenteredIn(p.arcs[i].oval, r.host, r.layoutWidth, r.layoutHeight)
  {
    var r := Replay(v, events);
    var b := SetupBounds(r.host, r.layoutWidth, r.layoutHeight, r.layoutWidth, r.layoutHeight,
                         r.barWidth, r.rimWidth, r.contourSize);
    assert r.geometry == b;
  }
}
