# react-trend: the `Trend` component, modelled in Dafny

`Trend` is a React component that draws a sparkline: it takes an array of
data points (numbers or `{value}` objects) and renders an `<svg>` with one
`<path>`. It can colour the path with a three-band gradient, animate the line
drawing itself on mount, and place a single score marker along the line.

This project models the component's own logic in
`src/components/Trend/Trend.js`:

- `props.dfy` (`TrendProps`): the props object as a map from key to value,
  the declared keys (`propTypes`), the defaults (`defaultProps`), JavaScript
  truthiness of a prop, and `getDelegatedProps`.
- `score.dfy` (`TrendScore`): where along the line a score is drawn, the
  colour band `getColor` picks, and the marker point `getPointPosition`
  computes. The path's measurements (`getTotalLength`, `getPointAtLength`) are
  the `PathMetrics` parameter.
- `render.dfy` (`TrendRender`): `render` and `renderGradientDefinition`: the
  render guard, flattening of `data`, view-box defaults, the normalisation
  box, the gradient stops, and the choice of path style and stroke.
- `lifecycle.dfy` (`TrendLifecycle`): the constructor, `componentDidMount`,
  `componentDidUpdate` and `getPointPosition` with the `plottedScore` flag.
  These are pure step functions over an `Instance` value, and a `Trend` class
  whose fields the hook methods update. Each method's `ensures` ties the new
  state to the matching step function. A hook ends by returning or by throwing
  (`Outcome`). The lemmas show that the position is computed at most once per
  instance, over any sequence of hook calls.
- `wrappers.dfy` (`Wrappers`): `Option`.

Numbers are `real`. A value that JavaScript would see as `undefined` or `NaN`
is `None`. For example, a missing `score` makes `zLength` `NaN`, and then no
marker is drawn. An explicit `null` prop is its own value (`Null`). It is falsy,
so `width: null` gives the default view box. In arithmetic it is 0, so
`score: null` draws a blue marker at the middle of the line
(`NullScoreMarksMidpoint`).

`normalizeDataset`, `buildSmoothPath`, `buildLinearPath`,
`generateAutoDrawCss`, `injectStyleTag`, `omit` and `generateId` are imported
from files that are not part of this model. The model records the arguments
the component passes to them. The rendered `<path>` carries a `PathData` that
names the path builder, the flattened values and the normalisation box. A
mount with `autoDraw` appends the `generateAutoDrawCss` arguments to the
instance's `injectedStyles`. For `omit`, the model takes the usual meaning:
a copy of the object without the named keys.

Behaviour the model makes explicit:

- The marker is computed on the first hook call only. Changing `score` later
  never moves it (`ReplayKeepsMarker`, `MarkerFromFirstHook`). If the first
  computation had no score, there is never a marker.
- `stroke` and `strokeWidth` have defaults, but `propTypes` does not declare
  them. So they always reach the `<svg>` element (`DefaultStrokeDelegated`).
- `this.path` is set by the `ref` of the rendered `<path>`. When `render` drew
  nothing (fewer than two data items), the first hook measures a path that
  does not exist and throws a `TypeError` (see Findings).
- The gradient colours are indexed without any check on the array's length.
  A gradient with fewer than three colours gives stops whose colour is
  `undefined` (`ColorAt` is `None`).
- The colour bands are asymmetric around zero. Red ends at -1.333336, and
  green starts at 1.333328 (`GetColorThresholds`), from the percent
  thresholds 33.3333 and 66.6666.
- The marker is placed by arc length only. `sortBy` and `findIndex` are
  imported but never used.

## Model

| member | source | states |
|---|---|---|
| `TrendProps.ResolveProps` | src/components/Trend/Trend.js:34-42 | every default fills a key the caller left unset; every key the caller set keeps its value; the keys are the union |
| `TrendProps.ResolvePropsIdempotent` | src/components/Trend/Trend.js:34-42 | resolving defaults twice changes nothing |
| `TrendProps.RawProp` | src/components/Trend/Trend.js:169 | a prop passed on as it is: its value of any type (`null` included) when set, absent (`undefined`) when not |
| `TrendProps.NumericProp` | src/components/Trend/Trend.js:63 | a prop as an arithmetic operand: a number is itself, `null` is 0, anything else is absent (`NaN`) |
| `TrendProps.DelegatedProps` | src/components/Trend/Trend.js:106-108 | the delegated keys are exactly the prop keys that `propTypes` does not declare, each with its value unchanged |
| `TrendProps.DelegatedExcludesDeclared` | src/components/Trend/Trend.js:12-32 | no declared prop (such as `width` or `height`) is ever delegated to the `<svg>` |
| `TrendProps.DelegatedPropsIdempotent` | src/components/Trend/Trend.js:106-108 | delegating twice is delegating once |
| `TrendProps.DefaultStrokeDelegated` | src/components/Trend/Trend.js:34-42 | the `stroke` and `strokeWidth` values, given or defaulted to `black` and 1, are always delegated |
| `TrendScore.ArcLength` | src/components/Trend/Trend.js:60-64 | `zLength` is a number exactly when the score is present; its offset from the midpoint is score times an eighth of the length |
| `TrendScore.ArcPositionRoundTrip` | src/components/Trend/Trend.js:61-63 | on a line of non-zero length, the score can be recovered from its arc position, so distinct scores get distinct positions |
| `TrendScore.ArcPositionAnchors` | src/components/Trend/Trend.js:61-63 | score 0 sits at half the length; -4 and 4 sit at the two ends |
| `TrendScore.ArcPositionIncreasing` | src/components/Trend/Trend.js:61-63 | on a line of positive length, a larger score lies strictly further along |
| `TrendScore.ArcPositionOnLine` | src/components/Trend/Trend.js:61-63 | on a line of positive length, the position is within the line exactly when the score is in [-4, 4] |
| `TrendScore.GetColor` | src/components/Trend/Trend.js:74-83 | the result is red, blue or green; red exactly below 33.3333 percent; green exactly from 66.6666 percent |
| `TrendScore.GetColorThresholds` | src/components/Trend/Trend.js:75-82 | in score terms: red below -1.333336, blue up to 1.333328, green from there on; score 0 is blue; the length does not matter |
| `TrendScore.GetColorMonotone` | src/components/Trend/Trend.js:74-83 | a larger score never yields a lower band, whatever the lengths passed |
| `TrendScore.MarkerPoint` | src/components/Trend/Trend.js:58-71 | a marker exists exactly when the score is present; it is the point at the score's arc position, coloured by the score's band |
| `TrendRender.PlainValues` | src/components/Trend/Trend.js:149 | same length and order as `data`; item i is the number itself or the object's `value` |
| `TrendRender.PlainValuesAppend` | src/components/Trend/Trend.js:149 | flattening distributes over concatenation (it works item by item) |
| `TrendRender.BothDataFormsAgree` | src/components/Trend/Trend.js:142-149 | an array of numbers and the same numbers as `{value}` objects flatten to the same values |
| `TrendRender.OrDefault` | src/components/Trend/Trend.js:155-156 | the view-box dimension is the prop when set and non-zero, otherwise the default (300 or 75) |
| `TrendRender.OrDefaultStable` | src/components/Trend/Trend.js:155-156 | with a non-zero default the dimension is never zero, and feeding it back in as the prop returns it unchanged |
| `TrendRender.SvgSizeOf` | src/components/Trend/Trend.js:157-158 | the element size is the prop in units when set and non-zero, otherwise the default percentage (100% or 25%) |
| `TrendRender.SizeMatchesViewBox` | src/components/Trend/Trend.js:155-158 | a given dimension is used for both the element and the view box; a missing one makes the element relative and the view box nominal |
| `TrendRender.NormalizationBox` | src/components/Trend/Trend.js:160-167 | the box is the view box inset by `padding` on every side with Y inverted; `minY >= maxY` exactly when `2*padding <= height`, and likewise `minX <= maxX` for the width |
| `TrendRender.DefaultBox` | src/components/Trend/Trend.js:155-167 | the default 300 x 75 view box with padding 8 gives the box x 8..292 and y 67..8 |
| `TrendRender.ColorAt` | src/components/Trend/Trend.js:122-127 | `gradient[i]` is defined exactly when i is within the array |
| `TrendRender.GradientStops` | src/components/Trend/Trend.js:121-127 | exactly six stops; offsets non-decreasing from 0 to 100, with 33 and 67 as band edges; stop i has colour `gradient[i/2]`; each colour change happens at a shared offset (hard bands) |
| `TrendRender.GradientStopsExample` | src/components/Trend/Trend.js:121-127 | `red, blue, green` gives the stops red 0, red 33, blue 33, blue 67, green 67, green 100 |
| `TrendRender.GradientDefinition` | src/components/Trend/Trend.js:117-131 | the gradient has the instance's gradient id, runs left to right, and carries the six stops |
| `TrendRender.Render` | src/components/Trend/Trend.js:133-203 | no output exactly when `data` is missing or has fewer than two items; otherwise one path drawn from the flattened data in the normalisation box; the element size and view box from `width`/`height` with their defaults; a smooth path with the `radius` prop exactly when `smooth` is truthy; a gradient definition and a gradient stroke exactly when `gradient` is given; the delegated props on the `<svg>`; and, exactly when a point is stored, the marker circle `plottedScore` of radius 5, white fill, the point's colour and the `strokeWidth` prop as given; `radius` and `strokeWidth` are passed on as given, whatever their type |
| `TrendRender.RenderExample` | src/components/Trend/Trend.js:133-170 | `[1, 2, 3, 2, 1]` with only the defaults gives a linear path over those values in the box 8..292 and 67..8, relative element size, no gradient and no marker |
| `TrendLifecycle.Construct` | src/components/Trend/Trend.js:45-56 | a new instance has its defaults resolved, no marker, no line length, nothing injected, and the plot-once invariant holds |
| `TrendLifecycle.PlotStep` | src/components/Trend/Trend.js:58-72 | `getPointPosition` throws exactly when no path was drawn; otherwise it replaces the stored point by the score's marker when a score is present and leaves it otherwise; nothing else changes |
| `TrendLifecycle.PlotOnceStep` | src/components/Trend/Trend.js:100-103 | afterwards the flag is set; the position is computed only when the flag was clear; the plot-once invariant is preserved |
| `TrendLifecycle.AutoDraw` | src/components/Trend/Trend.js:91-96 | the animation request is keyed by the instance id, carries the measured length, and passes the duration and easing props on as given |
| `TrendLifecycle.MountStep` | src/components/Trend/Trend.js:85-104 | throws exactly when no path was drawn and `autoDraw` is on or the flag is clear; with `autoDraw` and a path, the line length is recorded and one animation keyed by the instance id is injected; without `autoDraw` neither changes; a set flag leaves the marker alone, a clear one with a path plots it |
| `TrendLifecycle.UpdateStep` | src/components/Trend/Trend.js:110-115 | the new props are in force and the flag is set; it throws exactly when the flag was clear and the new render drew no path; with the flag set nothing else changes; with it clear and a path, the marker is plotted from the new score |
| `TrendLifecycle.ReplayPlotsAtMostOnce` | src/components/Trend/Trend.js:100-115 | over any sequence of mounts and updates, `getPointPosition` is entered at most once, and the flag is set after a sequence that returns |
| `TrendLifecycle.ReplayKeepsMarker` | src/components/Trend/Trend.js:100-115 | once the flag is set, no later hook changes the stored point or enters `getPointPosition` again, whether or not a hook throws |
| `TrendLifecycle.MarkerFromFirstHook` | src/components/Trend/Trend.js:58-115 | from construction: if the first hook's render drew a path, the stored point after any hooks is the one that hook computed from its props' score and its path measurements; if it drew none, the first hook throws and no point is ever stored |
| `TrendLifecycle.NullScoreMarksMidpoint` | src/components/Trend/Trend.js:60-66 | a `null` score, being 0 in the arithmetic, gives the point at half the line's length, coloured blue |
| `TrendLifecycle.MountWithTooFewPointsThrows` | src/components/Trend/Trend.js:85-104 | from construction, props whose render draws nothing make the mount throw |
| `TrendLifecycle.MountOnePointThrows` | src/components/Trend/Trend.js:58-104 | the props `{data: [1], score: 0}` make the mount throw |
| `TrendLifecycle.GuardedStep` | src/components/Trend/Trend.js:85-115 | corrected hooks: they never throw; with a drawn path they agree with the hooks as written; without one they only adopt the props; the flag is set exactly once a hook has a path; the plot-once invariant is preserved |
| `TrendLifecycle.GuardedReplayPlotsAtMostOnce` | src/components/Trend/Trend.js:100-115 | with the corrected hooks, `getPointPosition` is entered at most once and a stored marker never moves |
| `TrendLifecycle.Trend.constructor` | src/components/Trend/Trend.js:45-56 | the fields match `Construct`, and the gradient id is derived from the given instance id |
| `TrendLifecycle.Trend.GetPointPosition` | src/components/Trend/Trend.js:58-72 | the fields change, and the method throws or returns, as `PlotStep` says |
| `TrendLifecycle.Trend.ComponentDidMount` | src/components/Trend/Trend.js:85-104 | the fields change, and the method throws or returns, as `MountStep` says, keeping the plot-once invariant |
| `TrendLifecycle.Trend.ComponentDidUpdate` | src/components/Trend/Trend.js:110-115 | the fields change, and the method throws or returns, as `UpdateStep` says, keeping the plot-once invariant |
| `TrendLifecycle.Trend.View` | src/components/Trend/Trend.js:133-203 | an `<svg>` exactly when the data draws a path; the rendered path and gradient carry the instance's ids; a marker is drawn exactly when a point is stored, and never before the first plot |

## Findings

| source | as written | input that shows it | evidently intended | confidence | as-written member | corrected member |
|---|---|---|---|---|---|---|
| src/components/Trend/Trend.js:58-60, 89, 100-103, 138-140 | the mount hook measures `this.path` (for `autoDraw`, and in `getPointPosition`) even when `render` returned nothing, so `this.path` was never set and `getTotalLength` throws a `TypeError` | props `{data: [1], score: 0}`, or no `data` | a chart with too few points renders nothing and its hooks return normally; the marker is plotted at the first hook that has a path | medium, not executed | `TrendLifecycle.MountWithTooFewPointsThrows` | `TrendLifecycle.GuardedStep` |

The `Trend` class and `Replay` follow the code as written. `GuardedStep`,
`GuardedReplay` and `GuardedReplayPlotsAtMostOnce` state the corrected hooks.

## Left out

- The internals of `normalizeDataset`, `buildSmoothPath`, `buildLinearPath`, `generateAutoDrawCss`, `injectStyleTag`, `omit` and `generateId`: they are imported from files that are not part of this model. Only their arguments are modelled.
- DOM geometry (`findDOMNode`, `getTotalLength`, `getPointAtLength`): it is the `PathMetrics` parameter, a length and a point-at-length function. No real path geometry is modelled.
- `generateId`'s randomness: the instance id is a constructor parameter.
- Injecting the style tag into the page: this is a side effect on the whole process. The model keeps the injected animation requests as a per-instance field.
- React semantics: JSX, re-rendering triggered by `setState`, and what React does after a hook throws. The hooks run in whatever order a caller gives them. A hook that throws ends the modelled sequence. `this.path` is taken to exist exactly when the latest render drew a path. `componentDidUpdate` takes the props the instance was re-rendered with.
- The spread order of delegated props: a caller's `viewBox` overrides the computed one. The model keeps the delegated props apart from the computed attributes, on `Svg.attributes`.
- PropTypes runtime checking: a prop of the wrong type is read as absent by the typed readers (`NumberProp`, `NumericProp`, `TextsProp`, `PointsProp`). Values the component only passes on (`radius`, `strokeWidth`, `autoDrawDuration`, `autoDrawEasing`) are kept as given by `RawProp`. Other JavaScript coercions, such as a numeric string used as a number, are not modelled. A non-number `padding` falls back to 8, and a `null` one is read as 0.
- `TrendProps.DataPoint`: an object item without a numeric `value` (JavaScript `undefined`) is not modelled. Every `Labeled` item carries a number.
- `ranges`: the prop is declared but unused. It is only excluded from delegation.
- IEEE floating point: numbers are exact reals. `NaN` appears only as an absent score, and `NaN`-valued props or lengths are not modelled.
- `demo/src/components/App/App.js`: this is the demo application, not part of the component.
