/** The state a `Trend` instance keeps across renders and the lifecycle hooks
    that change it: `componentDidMount` (which may start the draw animation),
    `componentDidUpdate`, and the `plottedScore` flag that makes
    `getPointPosition` run at most once per instance.

    `this.path` is set by the `ref` of the rendered `<path>`, so it exists
    exactly when the latest render drew one (`DrawsPath` of the current props).
    A hook that measures the path when none was drawn throws a `TypeError`. */
module TrendLifecycle {
  import opened Wrappers
  import opened TrendProps
  import opened TrendScore
  import opened TrendRender

  /** The arguments handed to `generateAutoDrawCss`, whose result is injected
      as a style tag. */
  datatype AutoDrawCss = AutoDrawCss(id: string, lineLength: real, duration: Option<PropValue>,
                                     easing: Option<PropValue>)

  /** An instance's state as a value: its id, its current props, the
      `plottedScore` flag, `state.pointPosition`, `this.lineLength`, the styles
      it injected, and how many times `getPointPosition` has been entered. */
  datatype Instance = Instance(trendId: string, props: Props, plottedScore: bool,
                               pointPosition: Option<Point>, lineLength: Option<real>,
                               injectedStyles: seq<AutoDrawCss>, plots: nat)

  /** How a hook call ends: it returns, or it throws a `TypeError`, leaving the
      instance as it was when the exception was raised. */
  datatype Outcome = Returned(state: Instance) | Threw(state: Instance)

  /** The score the marker is computed from, as the arithmetic of
      `getPointPosition` reads it: `null` is 0; unset or non-numeric is `NaN`. */
  function Score(s: Instance): Option<real> {
    NumericProp(s.props, "score")
  }

  /** The plot-once invariant: `getPointPosition` has been entered exactly once
      when the flag is set and never before, so no marker exists before it is set. */
  predicate PlotsOnce(s: Instance) {
    s.plots == (if s.plottedScore then 1 else 0) &&
    (!s.plottedScore ==> s.pointPosition.None?)
  }

  /** The constructor: defaults resolved, no marker, nothing plotted or drawn. */
  function Construct(given: Props, trendId: string): (s: Instance)
    ensures PlotsOnce(s) && !s.plottedScore
    ensures s.trendId == trendId && s.props == ResolveProps(given)
    ensures s.pointPosition.None? && s.lineLength.None? && s.injectedStyles == []
  {
    Instance(trendId, ResolveProps(given), false, None, None, [], 0)
  }

  /** `getPointPosition`: without a drawn path `findDOMNode(this.path)` is null
      and measuring it throws; otherwise the stored point becomes the score's
      marker when there is a score, and stays as it was when there is not.
      Nothing else changes but the count of entries. */
  function PlotStep(s: Instance, metrics: PathMetrics): (o: Outcome)
    ensures o.state.plots == s.plots + 1
    ensures o.Threw? <==> !DrawsPath(s.props)
    ensures o.Threw? ==> o.state.pointPosition == s.pointPosition
    ensures o.Returned? && Score(s).Some? ==> o.state.pointPosition == MarkerPoint(Score(s), metrics)
    ensures o.Returned? && Score(s).None? ==> o.state.pointPosition == s.pointPosition
    ensures o.state.(pointPosition := s.pointPosition, plots := s.plots) == s
  {
    if !DrawsPath(s.props) then Threw(s.(plots := s.plots + 1))
    else
      var point := MarkerPoint(Score(s), metrics);
      Returned(s.(pointPosition := if point.Some? then point else s.pointPosition, plots := s.plots + 1))
  }

  /** `if (!this.plottedScore) { this.plottedScore = true; this.getPointPosition(); }`:
      afterwards the flag is set; the marker is computed only if it was not. */
  function PlotOnceStep(s: Instance, metrics: PathMetrics): (o: Outcome)
    ensures o.state.plottedScore
    ensures s.plottedScore ==> o == Returned(s)
    ensures !s.plottedScore ==> o == PlotStep(s.(plottedScore := true), metrics)
    ensures PlotsOnce(s) ==> PlotsOnce(o.state)
  {
    if s.plottedScore then Returned(s) else PlotStep(s.(plottedScore := true), metrics)
  }

  /** The draw animation a mount with `autoDraw` injects: keyed by the
      instance's id, with the measured length, and the duration and easing
      props as they are given (their defaults being 2000 and `ease`). */
  function AutoDraw(s: Instance, metrics: PathMetrics): (css: AutoDrawCss)
    ensures css.id == s.trendId && css.lineLength == metrics.totalLength
    ensures css.duration == RawProp(s.props, "autoDrawDuration")
    ensures css.easing == RawProp(s.props, "autoDrawEasing")
  {
    AutoDrawCss(s.trendId, metrics.totalLength, RawProp(s.props, "autoDrawDuration"),
                RawProp(s.props, "autoDrawEasing"))
  }

  /** `componentDidMount`: with `autoDraw`, measure the path (which throws when
      none was drawn), record its length and inject the draw animation keyed by
      the instance's id; then plot once. */
  function MountStep(s: Instance, metrics: PathMetrics): (o: Outcome)
    ensures o.state.props == s.props && o.state.trendId == s.trendId
    ensures PlotsOnce(s) ==> PlotsOnce(o.state)
    ensures o.Threw? <==> !DrawsPath(s.props) && (Truthy(s.props, "autoDraw") || !s.plottedScore)
    ensures Truthy(s.props, "autoDraw") && !DrawsPath(s.props) ==> o == Threw(s)
    ensures Truthy(s.props, "autoDraw") && DrawsPath(s.props) ==>
              o.state.lineLength == Some(metrics.totalLength) &&
              o.state.injectedStyles == s.injectedStyles + [AutoDraw(s, metrics)]
    ensures !Truthy(s.props, "autoDraw") ==>
              o.state.lineLength == s.lineLength && o.state.injectedStyles == s.injectedStyles
    ensures o.Returned? ==> o.state.plottedScore
    ensures s.plottedScore ==> o.state.pointPosition == s.pointPosition && o.state.plots == s.plots
    ensures !s.plottedScore && DrawsPath(s.props) ==>
              o.state.plots == s.plots + 1 &&
              o.state.pointPosition == (if Score(s).Some? then MarkerPoint(Score(s), metrics) else s.pointPosition)
  {
    if Truthy(s.props, "autoDraw") then
      if !DrawsPath(s.props) then Threw(s)
      else
        var drawn := s.(lineLength := Some(metrics.totalLength),
                        injectedStyles := s.injectedStyles + [AutoDraw(s, metrics)]);
        PlotOnceStep(drawn, metrics)
    else PlotOnceStep(s, metrics)
  }

  /** `componentDidUpdate` after a render with the props `next`: plot once,
      with the new props (which throws when that render drew no path). */
  function UpdateStep(s: Instance, next: Props, metrics: PathMetrics): (o: Outcome)
    ensures o.state.plottedScore && o.state.props == ResolveProps(next)
    ensures o.state.lineLength == s.lineLength && o.state.injectedStyles == s.injectedStyles
    ensures PlotsOnce(s) ==> PlotsOnce(o.state)
    ensures o.Threw? <==> !s.plottedScore && !DrawsPath(ResolveProps(next))
    ensures s.plottedScore ==> o == Returned(s.(props := ResolveProps(next)))
    ensures !s.plottedScore && DrawsPath(ResolveProps(next)) ==>
              var score := NumericProp(ResolveProps(next), "score");
              o.state.plots == s.plots + 1 &&
              o.state.pointPosition == (if score.Some? then MarkerPoint(score, metrics) else s.pointPosition)
  {
    PlotOnceStep(s.(props := ResolveProps(next)), metrics)
  }

  /** A lifecycle hook call, with what the rendered path measures at that time. */
  datatype Event = DidMount(metrics: PathMetrics) | DidUpdate(next: Props, metrics: PathMetrics)

  function Step(s: Instance, e: Event): Outcome {
    match e
    case DidMount(m) => MountStep(s, m)
    case DidUpdate(next, m) => UpdateStep(s, next, m)
  }

  /** The outcome of a sequence of hook calls; an exception ends it. */
  function Replay(s: Instance, events: seq<Event>): Outcome
    decreases |events|
  {
    if events == [] then Returned(s)
    else
      match Step(s, events[0])
      case Threw(t) => Threw(t)
      case Returned(t) => Replay(t, events[1..])
  }

  /** Over any sequence of mounts and updates, `getPointPosition` is entered at
      most once, and after a hook call that returns the flag is set. */
  lemma {:induction false} ReplayPlotsAtMostOnce(s: Instance, events: seq<Event>)
    requires PlotsOnce(s)
    ensures PlotsOnce(Replay(s, events).state)
    ensures Replay(s, events).state.plots <= 1
    ensures events != [] && Replay(s, events).Returned? ==> Replay(s, events).state.plottedScore
    decreases |events|
  {
    if events != [] {
      var first := Step(s, events[0]);
      if first.Returned? {
        ReplayPlotsAtMostOnce(first.state, events[1..]);
        if events[1..] == [] {
          assert Replay(s, events) == first;
        }
      }
    }
  }

  /** Once the flag is set the marker is never recomputed, whatever the later
      props, scores or path measurements, and whether or not a hook throws. */
  lemma {:induction false} ReplayKeepsMarker(s: Instance, events: seq<Event>)
    requires s.plottedScore
    ensures Replay(s, events).state.pointPosition == s.pointPosition
    ensures Replay(s, events).state.plots == s.plots
    decreases |events|
  {
    if events != [] {
      var first := Step(s, events[0]);
      if first.Returned? {
        ReplayKeepsMarker(first.state, events[1..]);
      }
    }
  }

  /** The props in force when an event's hook runs. */
  function PropsAt(s: Instance, e: Event): Props {
    match e
    case DidMount(_) => s.props
    case DidUpdate(next, _) => ResolveProps(next)
  }

  /** From construction: when the first hook's render drew a path, the marker
      after any sequence of hooks is the one that first hook computed from the
      score of its props and its path measurement; when it drew none, the first
      hook throws and no marker is ever stored. */
  lemma MarkerFromFirstHook(given: Props, trendId: string, events: seq<Event>)
    requires events != []
    ensures var s := Construct(given, trendId);
            var props := PropsAt(s, events[0]);
            DrawsPath(props) ==>
              Replay(s, events).state.pointPosition ==
                MarkerPoint(NumericProp(props, "score"), events[0].metrics)
    ensures var s := Construct(given, trendId);
            !DrawsPath(PropsAt(s, events[0])) ==>
              Replay(s, events).Threw? && Replay(s, events).state.pointPosition.None?
  {
    var s := Construct(given, trendId);
    var first := Step(s, events[0]);
    if DrawsPath(PropsAt(s, events[0])) {
      assert first.Returned? && first.state.plottedScore;
      ReplayKeepsMarker(first.state, events[1..]);
    } else {
      assert first.Threw?;
    }
  }

  /** A `null` score is 0 in the arithmetic, so it is drawn at the middle of the
      line in the middle (blue) band, unlike an unset score, which draws nothing. */
  lemma NullScoreMarksMidpoint(s: Instance, metrics: PathMetrics)
    requires "score" in s.props && s.props["score"] == Null
    ensures var p := MarkerPoint(Score(s), metrics);
            && p.Some?
            && (p.value.x, p.value.y) == metrics.pointAtLength(metrics.totalLength / 2.0)
            && p.value.color == "blue"
  {
    ArcPositionAnchors(metrics.totalLength);
    GetColorThresholds(0.0, metrics.totalLength);
  }

  // ------------------------------------------- the crash without a path

  /** `<Trend data={[1]} />`, or no data at all, throws on mount: the render drew
      nothing, so `this.path` was never set, and mounting measures it. */
  lemma MountWithTooFewPointsThrows(given: Props, trendId: string, metrics: PathMetrics)
    requires !DrawsPath(ResolveProps(given))
    ensures MountStep(Construct(given, trendId), metrics).Threw?
    ensures Render(ResolveProps(given), trendId, None).None?
  {
  }

  /** The same for the concrete props `{data: [1], score: 0}`. */
  lemma MountOnePointThrows(trendId: string, metrics: PathMetrics)
    ensures var given := map["data" := Points([Bare(1.0)]), "score" := Num(0.0)];
            MountStep(Construct(given, trendId), metrics).Threw?
  {
    var given := map["data" := Points([Bare(1.0)]), "score" := Num(0.0)];
    assert ResolveProps(given)["data"] == Points([Bare(1.0)]);
    MountWithTooFewPointsThrows(given, trendId, metrics);
  }

  /** The hooks with the evident intent of the render guard: measure the path
      only when one was drawn (`autoDraw && this.path`,
      `!this.plottedScore && this.path`). They never throw, a hook whose render
      drew nothing only adopts its props, and the marker is plotted at the
      first hook that has a path. Where a path is drawn they agree with the
      hooks as written. */
  function GuardedStep(s: Instance, e: Event): (t: Instance)
    ensures DrawsPath(PropsAt(s, e)) ==> Step(s, e) == Returned(t)
    ensures !DrawsPath(PropsAt(s, e)) ==> t == s.(props := PropsAt(s, e))
    ensures PlotsOnce(s) ==> PlotsOnce(t)
    ensures t.plottedScore <==> s.plottedScore || DrawsPath(PropsAt(s, e))
  {
    var props := PropsAt(s, e);
    if DrawsPath(props) then Step(s, e).state else s.(props := props)
  }

  function GuardedReplay(s: Instance, events: seq<Event>): Instance
    decreases |events|
  {
    if events == [] then s else GuardedReplay(GuardedStep(s, events[0]), events[1..])
  }

  /** With the guarded hooks `getPointPosition` is still entered at most once,
      and a marker, once stored, is never moved. */
  lemma {:induction false} GuardedReplayPlotsAtMostOnce(s: Instance, events: seq<Event>)
    requires PlotsOnce(s)
    ensures PlotsOnce(GuardedReplay(s, events))
    ensures GuardedReplay(s, events).plots <= 1
    ensures s.plottedScore ==> GuardedReplay(s, events).pointPosition == s.pointPosition
    decreases |events|
  {
    if events != [] {
      var first := GuardedStep(s, events[0]);
      GuardedReplayPlotsAtMostOnce(first, events[1..]);
      if s.plottedScore {
        assert first.pointPosition == s.pointPosition;
      }
    }
  }

  /** A `Trend` component instance. */
  class Trend {
    const trendId: string
    const gradientId: string
    var props: Props
    var plottedScore: bool
    var pointPosition: Option<Point>
    var lineLength: Option<real>
    var injectedStyles: seq<AutoDrawCss>
    ghost var plots: nat

    /** The instance's state as an `Instance` value. */
    ghost function State(): Instance
      reads this
    {
      Instance(trendId, props, plottedScore, pointPosition, lineLength, injectedStyles, plots)
    }

    /** The state as a hook's outcome, given whether the hook threw. */
    ghost function Ended(threw: bool): Outcome
      reads this
    {
      if threw then Threw(State()) else Returned(State())
    }

    ghost predicate Valid()
      reads this
    {
      PlotsOnce(State()) && gradientId == GradientId(trendId)
    }

    /** `trendId` comes from `generateId()`, a random source, so it is given. */
    constructor (given: Props, id: string)
      ensures Valid() && State() == Construct(given, id)
    {
      trendId := id;
      gradientId := GradientId(id);
      props := ResolveProps(given);
      plottedScore := false;
      pointPosition := None;
      lineLength := None;
      injectedStyles := [];
      plots := 0;
    }

    method GetPointPosition(metrics: PathMetrics) returns (threw: bool)
      modifies this
      ensures Ended(threw) == PlotStep(old(State()), metrics)
    {
      plots := plots + 1;
      if !DrawsPath(props) {
        // `findDOMNode(this.path)` is null: `getTotalLength` throws.
        return true;
      }
      var score := NumericProp(props, "score");
      var length := metrics.totalLength;
      var zLength := ArcLength(score, length);
      if zLength.Some? {
        var (x, y) := metrics.pointAtLength(zLength.value);
        pointPosition := Some(Point(x, y, GetColor(score.value, length)));
      }
      threw := false;
    }

    method ComponentDidMount(metrics: PathMetrics) returns (threw: bool)
      requires Valid()
      modifies this
      ensures Valid() && Ended(threw) == MountStep(old(State()), metrics)
    {
      if Truthy(props, "autoDraw") {
        if !DrawsPath(props) {
          // `this.path` is undefined: `this.path.getTotalLength()` throws.
          return true;
        }
        lineLength := Some(metrics.totalLength);
        var css := AutoDrawCss(trendId, metrics.totalLength, RawProp(props, "autoDrawDuration"),
                               RawProp(props, "autoDrawEasing"));
        injectedStyles := injectedStyles + [css];
      }
      threw := false;
      if !plottedScore {
        plottedScore := true;
        threw := GetPointPosition(metrics);
      }
    }

    /** Called after the instance re-rendered with the props `next` (the same
        props when only its state changed). */
    method ComponentDidUpdate(next: Props, metrics: PathMetrics) returns (threw: bool)
      requires Valid()
      modifies this
      ensures Valid() && Ended(threw) == UpdateStep(old(State()), next, metrics)
    {
      props := ResolveProps(next);
      threw := false;
      if !plottedScore {
        plottedScore := true;
        threw := GetPointPosition(metrics);
      }
    }

    /** `render` with the instance's props, id and stored point. */
    function View(): (r: Option<Svg>)
      reads this
      requires Valid()
      ensures r.Some? <==> DrawsPath(props)
      ensures r.Some? ==> r.value.path.id == PathId(trendId)
      ensures r.Some? && r.value.defs.Some? ==> r.value.defs.value.id == gradientId
      ensures r.Some? ==> (r.value.marker.Some? <==> pointPosition.Some?)
      ensures r.Some? && !plottedScore ==> r.value.marker.None?
    {
      Render(props, trendId, pointPosition)
    }
  }
}
