/** What `Trend.render` produces from the props, the instance's id and the
    stored marker point. The geometry helpers it calls are not part of this
    model, so the `<path>` records the arguments they receive: the flattened
    values, the normalisation box and the chosen path style. */
module TrendRender {
  import opened Wrappers
  import opened TrendProps
  import opened TrendScore

  // ---------------------------------------------------------------- data

  /** `data.map(point => typeof point === 'number' ? point : point.value)` for
      one item. */
  function PlainValue(d: DataPoint): real {
    match d
    case Bare(n) => n
    case Labeled(v) => v
  }

  /** The flattened data: same length and order as `data`, each bare number
      kept and each object replaced by its `value`. */
  function PlainValues(data: seq<DataPoint>): (r: seq<real>)
    ensures |r| == |data|
    ensures forall i :: 0 <= i < |data| ==>
              r[i] == (if data[i].Bare? then data[i].n else data[i].value)
  {
    if data == [] then [] else [PlainValue(data[0])] + PlainValues(data[1..])
  }

  /** Flattening works item by item, so it distributes over concatenation. */
  lemma {:induction false} PlainValuesAppend(a: seq<DataPoint>, b: seq<DataPoint>)
    ensures PlainValues(a + b) == PlainValues(a) + PlainValues(b)
  {
    if a == [] {
      assert a + b == b;
    } else {
      assert (a + b)[1..] == a[1..] + b;
      PlainValuesAppend(a[1..], b);
    }
  }

  /** The data as an array of numbers, and as an array of `{value}` objects. */
  function AsBare(xs: seq<real>): (r: seq<DataPoint>)
    ensures |r| == |xs| && forall i :: 0 <= i < |xs| ==> r[i] == Bare(xs[i])
  {
    seq(|xs|, i requires 0 <= i < |xs| => Bare(xs[i]))
  }

  function AsLabeled(xs: seq<real>): (r: seq<DataPoint>)
    ensures |r| == |xs| && forall i :: 0 <= i < |xs| ==> r[i] == Labeled(xs[i])
  {
    seq(|xs|, i requires 0 <= i < |xs| => Labeled(xs[i]))
  }

  /** The two accepted forms of `data` are interchangeable: both flatten to the
      numbers they carry. */
  lemma BothDataFormsAgree(xs: seq<real>)
    ensures PlainValues(AsBare(xs)) == xs
    ensures PlainValues(AsLabeled(xs)) == xs
  {
  }

  // ------------------------------------------------------------ view box

  const DefaultViewBoxWidth: real := 300.0
  const DefaultViewBoxHeight: real := 75.0

  /** `value || fallback` for a numeric prop: the value when it is set and
      non-zero, the fallback otherwise. */
  function OrDefault(value: Option<real>, fallback: real): (r: real)
    ensures value.Some? && value.value != 0.0 ==> r == value.value
    ensures value.None? || value.value == 0.0 ==> r == fallback
  {
    if value.Some? && value.value != 0.0 then value.value else fallback
  }

  /** With a non-zero fallback the dimension is never zero, and feeding it back
      in as the prop gives it back. */
  lemma OrDefaultStable(value: Option<real>, fallback: real)
    requires fallback != 0.0
    ensures OrDefault(value, fallback) != 0.0
    ensures OrDefault(Some(OrDefault(value, fallback)), fallback) == OrDefault(value, fallback)
  {
  }

  /** The `<svg>` element's own width or height: absolute units, or the
      percentage a missing dimension defaults to. */
  datatype SvgSize = Units(units: real) | Percent(percent: real)

  function SvgSizeOf(value: Option<real>, percent: real): (r: SvgSize)
    ensures r.Units? <==> value.Some? && value.value != 0.0
    ensures r.Units? ==> r.units == value.value
    ensures r.Percent? ==> r.percent == percent
  {
    if value.Some? && value.value != 0.0 then Units(value.value) else Percent(percent)
  }

  /** The element size and the view box agree: a given dimension is used for
      both, a missing one makes the element relative and the view box nominal. */
  lemma SizeMatchesViewBox(value: Option<real>, fallback: real, percent: real)
    ensures SvgSizeOf(value, percent).Units? ==> SvgSizeOf(value, percent).units == OrDefault(value, fallback)
    ensures SvgSizeOf(value, percent).Percent? ==> OrDefault(value, fallback) == fallback
  {
  }

  // ---------------------------------------------------- normalisation box

  /** The box handed to `normalizeDataset`. */
  datatype Box = Box(minX: real, maxX: real, minY: real, maxY: real)

  /** The view box inset by `padding` on every side, with the Y axis inverted
      because SVG coordinates grow downwards. */
  function NormalizationBox(viewBoxWidth: real, viewBoxHeight: real, padding: real): (b: Box)
    ensures b.minX == padding && viewBoxWidth - b.maxX == padding
    ensures b.maxY == padding && viewBoxHeight - b.minY == padding
    ensures b.maxX - b.minX == viewBoxWidth - 2.0 * padding
    ensures b.minY - b.maxY == viewBoxHeight - 2.0 * padding
    ensures b.minX <= b.maxX <==> 2.0 * padding <= viewBoxWidth
    ensures b.maxY <= b.minY <==> 2.0 * padding <= viewBoxHeight
  {
    Box(padding, viewBoxWidth - padding, viewBoxHeight - padding, padding)
  }

  /** The default 300 x 75 view box with the default padding of 8. */
  lemma DefaultBox()
    ensures NormalizationBox(DefaultViewBoxWidth, DefaultViewBoxHeight, 8.0) == Box(8.0, 292.0, 67.0, 8.0)
  {
  }

  // ------------------------------------------------------------ gradient

  /** A `<stop>`: its offset in percent and its `stopColor`; `gradient[i]` past
      the end of the array is `undefined`, here `None`. */
  datatype Stop = Stop(offset: nat, color: Option<string>)

  function ColorAt(gradient: seq<string>, i: nat): (c: Option<string>)
    ensures c.Some? <==> i < |gradient|
    ensures c.Some? ==> c.value == gradient[i]
  {
    if i < |gradient| then Some(gradient[i]) else None
  }

  /** The six stops of `renderGradientDefinition`: three hard bands, 0-33%,
      33-67% and 67-100%, coloured by the first three gradient entries. */
  function GradientStops(gradient: seq<string>): (r: seq<Stop>)
    ensures |r| == 6
    ensures r[0].offset == 0 && r[1].offset == 33 && r[3].offset == 67 && r[5].offset == 100
    ensures forall i, j :: 0 <= i <= j < |r| ==> r[i].offset <= r[j].offset
    ensures forall i :: 0 <= i < |r| ==> r[i].color == ColorAt(gradient, i / 2)
    ensures forall i :: 0 <= i < |r| - 1 && i % 2 == 1 ==> r[i].offset == r[i + 1].offset
  {
    [Stop(0, ColorAt(gradient, 0)), Stop(33, ColorAt(gradient, 0)),
     Stop(33, ColorAt(gradient, 1)), Stop(67, ColorAt(gradient, 1)),
     Stop(67, ColorAt(gradient, 2)), Stop(100, ColorAt(gradient, 2))]
  }

  /** The gradient `red, blue, green` gives the six stops at 0, 33, 33, 67, 67
      and 100 percent. */
  lemma GradientStopsExample()
    ensures GradientStops(["red", "blue", "green"]) ==
      [Stop(0, Some("red")), Stop(33, Some("red")), Stop(33, Some("blue")),
       Stop(67, Some("blue")), Stop(67, Some("green")), Stop(100, Some("green"))]
  {
  }

  /** `<linearGradient>`: its id, its direction (from x1,y1 to x2,y2, in percent)
      and its stops. */
  datatype LinearGradient = LinearGradient(id: string, x1: nat, y1: nat, x2: nat, y2: nat, stops: seq<Stop>)

  function GradientId(trendId: string): string {
    "react-trend-vertical-gradient-" + trendId
  }

  function PathId(trendId: string): string {
    "react-trend-" + trendId
  }

  /** `renderGradientDefinition`: a left-to-right gradient under the instance's
      gradient id. */
  function GradientDefinition(trendId: string, gradient: seq<string>): (g: LinearGradient)
    ensures g.id == GradientId(trendId)
    ensures g.x1 == 0 && g.x2 == 100 && g.y1 == g.y2 == 0
    ensures g.stops == GradientStops(gradient)
  {
    LinearGradient(GradientId(trendId), 0, 0, 100, 0, GradientStops(gradient))
  }

  // ------------------------------------------------------------ the svg

  /** The call `normalizeDataset(plainValues, box)`. */
  datatype NormalizeRequest = NormalizeRequest(values: seq<real>, box: Box)

  /** The `d` attribute: `buildSmoothPath(normalized, {radius})` or
      `buildLinearPath(normalized)`. */
  datatype PathData =
    | SmoothPath(points: NormalizeRequest, radius: Option<PropValue>)
    | LinearPath(points: NormalizeRequest)
  {
    function Request(): NormalizeRequest {
      match this
      case SmoothPath(p, _) => p
      case LinearPath(p) => p
    }
  }

  /** The `<path>`; its `stroke` is `None` when the attribute is `undefined`. */
  datatype PathElement = PathElement(id: string, d: PathData, fill: string, stroke: Option<string>)

  /** The score marker `<circle>`. */
  datatype Circle = Circle(id: string, cx: real, cy: real, r: real, strokeWidth: Option<PropValue>,
                           fill: string, stroke: string)

  /** The `<svg>`; `viewBox` is `0 0 viewBoxWidth viewBoxHeight`. */
  datatype Svg = Svg(width: SvgSize, height: SvgSize, viewBoxWidth: real, viewBoxHeight: real,
                     attributes: Props, defs: Option<LinearGradient>, path: PathElement,
                     marker: Option<Circle>)

  /** The render guard: `data` is set and has at least two items. */
  predicate DrawsPath(props: Props) {
    PointsProp(props, "data").Some? && |PointsProp(props, "data").value| >= 2
  }

  /** `render`: nothing unless `data` has at least two items; otherwise one
      `<svg>` holding the gradient definition when a gradient is given, exactly
      one `<path>` and, when a point has been stored, the marker. */
  function Render(props: Props, trendId: string, pointPosition: Option<Point>): (r: Option<Svg>)
    ensures r.Some? <==> DrawsPath(props)
    ensures r.Some? ==>
              var svg := r.value;
              var data := PointsProp(props, "data").value;
              && svg.path.d.Request().values == PlainValues(data)
              && svg.path.d.Request().box == NormalizationBox(svg.viewBoxWidth, svg.viewBoxHeight,
                                                              NumericProp(props, "padding").GetOr(8.0))
              && svg.viewBoxWidth == OrDefault(NumberProp(props, "width"), DefaultViewBoxWidth)
              && svg.viewBoxHeight == OrDefault(NumberProp(props, "height"), DefaultViewBoxHeight)
              && svg.width == SvgSizeOf(NumberProp(props, "width"), 100.0)
              && svg.height == SvgSizeOf(NumberProp(props, "height"), 25.0)
              && (svg.path.d.SmoothPath? <==> Truthy(props, "smooth"))
              && (svg.path.d.SmoothPath? ==> svg.path.d.radius == RawProp(props, "radius"))
              && svg.path.id == PathId(trendId) && svg.path.fill == "none"
              && (svg.defs.Some? <==> TextsProp(props, "gradient").Some?)
              && (svg.defs.Some? ==> svg.defs.value == GradientDefinition(trendId, TextsProp(props, "gradient").value))
              && (svg.path.stroke.Some? <==> svg.defs.Some?)
              && (svg.path.stroke.Some? ==> svg.path.stroke.value == "url(#" + svg.defs.value.id + ")")
              && svg.attributes == DelegatedProps(props)
              && (svg.marker.Some? <==> pointPosition.Some?)
              && (svg.marker.Some? ==>
                    && svg.marker.value.cx == pointPosition.value.x
                    && svg.marker.value.cy == pointPosition.value.y
                    && svg.marker.value.stroke == pointPosition.value.color
                    && svg.marker.value.id == "plottedScore"
                    && svg.marker.value.r == 5.0
                    && svg.marker.value.fill == "#fff"
                    && svg.marker.value.strokeWidth == RawProp(props, "strokeWidth"))
  {
    match PointsProp(props, "data")
    case None => None
    case Some(data) =>
      if |data| < 2 then None
      else
        var plainValues := PlainValues(data);
        var width := NumberProp(props, "width");
        var height := NumberProp(props, "height");
        var viewBoxWidth := OrDefault(width, DefaultViewBoxWidth);
        var viewBoxHeight := OrDefault(height, DefaultViewBoxHeight);
        // `padding` always has its default unless the caller gave `null` (read
        // as 0) or a non-number.
        var padding := NumericProp(props, "padding").GetOr(8.0);
        var normalized := NormalizeRequest(plainValues, NormalizationBox(viewBoxWidth, viewBoxHeight, padding));
        var d := if Truthy(props, "smooth") then SmoothPath(normalized, RawProp(props, "radius"))
                 else LinearPath(normalized);
        var gradient := TextsProp(props, "gradient");
        var defs := if gradient.Some? then Some(GradientDefinition(trendId, gradient.value)) else None;
        var stroke := if gradient.Some? then Some("url(#" + GradientId(trendId) + ")") else None;
        var marker :=
          match pointPosition
          case None => None
          case Some(p) => Some(Circle("plottedScore", p.x, p.y, 5.0, RawProp(props, "strokeWidth"), "#fff", p.color));
        Some(Svg(SvgSizeOf(width, 100.0), SvgSizeOf(height, 25.0), viewBoxWidth, viewBoxHeight,
                 DelegatedProps(props), defs, PathElement(PathId(trendId), d, "none", stroke), marker))
  }

  /** Rendering `[1, 2, 3, 2, 1]` with the default props and no size: a
      300 x 75 view box, the box inset by 8, a linear path, no gradient. */
  lemma RenderExample(trendId: string)
    ensures var data := [Bare(1.0), Bare(2.0), Bare(3.0), Bare(2.0), Bare(1.0)];
            var r := Render(ResolveProps(map["data" := Points(data)]), trendId, None);
            && r.Some?
            && r.value.path.d == LinearPath(NormalizeRequest([1.0, 2.0, 3.0, 2.0, 1.0], Box(8.0, 292.0, 67.0, 8.0)))
            && r.value.width == Percent(100.0) && r.value.height == Percent(25.0)
            && r.value.defs.None? && r.value.path.stroke.None? && r.value.marker.None?
  {
    var data := [Bare(1.0), Bare(2.0), Bare(3.0), Bare(2.0), Bare(1.0)];
    var props := ResolveProps(map["data" := Points(data)]);
    assert "data" in props && props["data"] == Points(data);
    assert "padding" in props && props["padding"] == Num(8.0);
    assert "width" !in props && "height" !in props && "smooth" !in props && "gradient" !in props;
    assert PlainValues(data) == [1.0, 2.0, 3.0, 2.0, 1.0] by {
      assert data == AsBare([1.0, 2.0, 3.0, 2.0, 1.0]);
      BothDataFormsAgree([1.0, 2.0, 3.0, 2.0, 1.0]);
    }
  }
}
