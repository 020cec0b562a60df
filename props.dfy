/** The props object of a `Trend` element: the keys its `propTypes` declare,
    the values its `defaultProps` supply, and the split between the props the
    component consumes and the ones it passes through to the `<svg>`. */
module TrendProps {
  import opened Wrappers

  /** One item of `data`: a bare number, or an object carrying a `value`. */
  datatype DataPoint = Bare(n: real) | Labeled(value: real)

  /** A prop value, by the JavaScript type the component reads it as. */
  datatype PropValue =
    | Num(n: real)
    | Text(s: string)
    | Flag(b: bool)
    | Points(points: seq<DataPoint>)
    | Texts(items: seq<string>)
    | Null    // an explicit `null`: falsy, and 0 in arithmetic
    | Other   // objects, functions or arrays the component only passes along

  /** A props object: the keys that are set (not `undefined`) and their values. */
  type Props = map<string, PropValue>

  /** `Object.keys(propTypes)`. */
  const PropTypeKeys: set<string> :=
    {"data", "smooth", "autoDraw", "autoDrawDuration", "autoDrawEasing",
     "width", "height", "padding", "radius", "score", "ranges", "gradient"}

  /** `defaultProps`. */
  const DefaultProps: Props :=
    map["radius" := Num(10.0), "stroke" := Text("black"), "padding" := Num(8.0),
        "strokeWidth" := Num(1.0), "autoDraw" := Flag(false),
        "autoDrawDuration" := Num(2000.0), "autoDrawEasing" := Text("ease")]

  /** The props the component sees: every default fills a key the caller left
      unset, and everything the caller set is kept as given. */
  function ResolveProps(given: Props): (r: Props)
    ensures r.Keys == given.Keys + DefaultProps.Keys
    ensures forall k :: k in given ==> r[k] == given[k]
    ensures forall k :: k in DefaultProps && k !in given ==> r[k] == DefaultProps[k]
  {
    DefaultProps + given
  }

  /** Resolving the defaults a second time changes nothing. */
  lemma ResolvePropsIdempotent(given: Props)
    ensures ResolveProps(ResolveProps(given)) == ResolveProps(given)
  {
    var once := ResolveProps(given);
    assert ResolveProps(once).Keys == once.Keys;
  }

  /** JavaScript truthiness of a prop: an unset key is falsy, a number is falsy
      only at zero, a string only when empty; arrays and objects are truthy. */
  predicate Truthy(p: Props, key: string) {
    key in p &&
    match p[key]
    case Num(n) => n != 0.0
    case Text(s) => s != ""
    case Flag(b) => b
    case Points(_) => true
    case Texts(_) => true
    case Null => false
    case Other => true
  }

  /** A numeric prop; a key that is unset or holds another type reads as absent. */
  function NumberProp(p: Props, key: string): (r: Option<real>)
    ensures r.Some? <==> key in p && p[key].Num?
    ensures r.Some? ==> p[key] == Num(r.value)
  {
    if key in p && p[key].Num? then Some(p[key].n) else None
  }

  /** A prop the component passes on as it is: its value when the key is set,
      whatever its type (`null` included), and absent (`undefined`) otherwise. */
  function RawProp(p: Props, key: string): (r: Option<PropValue>)
    ensures r.Some? <==> key in p
    ensures r.Some? ==> r.value == p[key]
  {
    if key in p then Some(p[key]) else None
  }

  /** A prop as an operand of arithmetic: a number is itself and `null` is 0;
      an unset key or any other type reads as absent (the result is `NaN`). */
  function NumericProp(p: Props, key: string): (r: Option<real>)
    ensures r.Some? <==> key in p && (p[key].Num? || p[key].Null?)
    ensures r.Some? && p[key].Num? ==> r.value == p[key].n
    ensures r.Some? && p[key].Null? ==> r.value == 0.0
  {
    if key in p && p[key].Num? then Some(p[key].n)
    else if key in p && p[key].Null? then Some(0.0)
    else None
  }

  /** An array-of-strings prop (`gradient`). */
  function TextsProp(p: Props, key: string): (r: Option<seq<string>>)
    ensures r.Some? <==> key in p && p[key].Texts?
    ensures r.Some? ==> p[key] == Texts(r.value)
  {
    if key in p && p[key].Texts? then Some(p[key].items) else None
  }

  /** The `data` array. */
  function PointsProp(p: Props, key: string): (r: Option<seq<DataPoint>>)
    ensures r.Some? <==> key in p && p[key].Points?
    ensures r.Some? ==> p[key] == Points(r.value)
  {
    if key in p && p[key].Points? then Some(p[key].points) else None
  }

  /** `getDelegatedProps`: the props minus every key `propTypes` declares, each
      remaining value untouched. */
  function DelegatedProps(p: Props): (r: Props)
    ensures r.Keys == p.Keys - PropTypeKeys
    ensures forall k :: k in r ==> r[k] == p[k]
  {
    map k | k in p && k !in PropTypeKeys :: p[k]
  }

  /** Nothing the component consumes itself reaches the `<svg>`, so the
      delegated attributes never replace the computed `width` and `height`. */
  lemma DelegatedExcludesDeclared(p: Props, k: string)
    requires k in PropTypeKeys
    ensures k !in DelegatedProps(p)
  {
  }

  /** Delegating twice is delegating once. */
  lemma DelegatedPropsIdempotent(p: Props)
    ensures DelegatedProps(DelegatedProps(p)) == DelegatedProps(p)
  {
    var once := DelegatedProps(p);
    assert DelegatedProps(once).Keys == once.Keys;
  }

  /** `stroke` and `strokeWidth` have defaults but are not declared in
      `propTypes`, so their (default or given) values always reach the `<svg>`. */
  lemma DefaultStrokeDelegated(given: Props)
    ensures var d := DelegatedProps(ResolveProps(given));
            && "stroke" in d && "strokeWidth" in d
            && d["stroke"] == (if "stroke" in given then given["stroke"] else Text("black"))
            && d["strokeWidth"] == (if "strokeWidth" in given then given["strokeWidth"] else Num(1.0))
  {
  }
}
