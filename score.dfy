/** The score marker: where along the rendered line a score is placed
    (`getPointPosition`) and which colour band it falls in (`getColor`). The
    line's own geometry is a measurement the drawing surface provides, so it
    comes in as `PathMetrics`. */
module TrendScore {
  import opened Wrappers

  /** What the rendered `<path>` reports about itself: `getTotalLength()` and
      `getPointAtLength(l)` as its coordinates. */
  datatype PathMetrics = PathMetrics(totalLength: real, pointAtLength: real -> (real, real))

  /** The point stored in `state.pointPosition`, with the colour added to it. */
  datatype Point = Point(x: real, y: real, color: string)

  /** The arc length at which a score is drawn: the mean anchor is the middle
      of the line and one unit of score is an eighth of its length. */
  function ArcPosition(score: real, length: real): real {
    score * (length / 8.0) + length / 2.0
  }

  /** `zLength`: a number exactly when the score reads as one (an unset or
      non-numeric score makes the product `NaN`). */
  function ArcLength(score: Option<real>, length: real): (z: Option<real>)
    ensures z.Some? <==> score.Some?
    ensures z.Some? ==> z.value - length / 2.0 == score.value * (length / 8.0)
  {
    match score
    case None => None
    case Some(s) => Some(ArcPosition(s, length))
  }

  /** The score drawn at a given arc length: the inverse of `ArcPosition`. */
  function ScoreAt(z: real, length: real): real
    requires length != 0.0
  {
    (z - length / 2.0) / (length / 8.0)
  }

  /** Recovering the score from its arc position gives the score back: on a line
      of non-zero length, different scores land at different places. */
  lemma ArcPositionRoundTrip(score: real, length: real)
    requires length != 0.0
    ensures ScoreAt(ArcPosition(score, length), length) == score
  {
    var step := length / 8.0;
    assert step != 0.0;
    assert ArcPosition(score, length) - length / 2.0 == score * step;
  }

  /** A score of zero sits at the middle of the line; -4 and 4 at its two ends. */
  lemma ArcPositionAnchors(length: real)
    ensures ArcPosition(0.0, length) == length / 2.0
    ensures ArcPosition(-4.0, length) == 0.0
    ensures ArcPosition(4.0, length) == length
  {
  }

  /** On a line of positive length a larger score lies further along. */
  lemma ArcPositionIncreasing(s1: real, s2: real, length: real)
    requires length > 0.0
    requires s1 < s2
    ensures ArcPosition(s1, length) < ArcPosition(s2, length)
  {
    var step := length / 8.0;
    assert s1 * step < s2 * step;
  }

  /** On a line of positive length the marker is on the line exactly when the
      score is within [-4, 4]; outside that range it extrapolates past an end. */
  lemma ArcPositionOnLine(score: real, length: real)
    requires length > 0.0
    ensures 0.0 <= ArcPosition(score, length) <= length <==> -4.0 <= score <= 4.0
  {
    ArcPositionAnchors(length);
    if score < -4.0 { ArcPositionIncreasing(score, -4.0, length); }
    if 4.0 < score { ArcPositionIncreasing(4.0, score, length); }
    if -4.0 < score { ArcPositionIncreasing(-4.0, score, length); }
    if score < 4.0 { ArcPositionIncreasing(score, 4.0, length); }
  }

  /** The score as a percentage of the range [-4, 4]. */
  function ScorePercent(score: real): real {
    (4.0 + score) / 8.0 * 100.0
  }

  /** `getColor`: one of three colours; `length` is taken and ignored. */
  function GetColor(score: real, length: real): (c: string)
    ensures c == "red" || c == "blue" || c == "green"
    ensures c == "red" <==> ScorePercent(score) < 33.3333
    ensures c == "green" <==> 66.6666 <= ScorePercent(score)
  {
    var percent := ScorePercent(score);
    if percent < 33.3333 then "red"
    else if percent < 66.6666 then "blue"
    else "green"
  }

  /** The position of a colour in the low-to-high order red, blue, green. */
  function BandRank(c: string): nat {
    if c == "red" then 0 else if c == "blue" then 1 else 2
  }

  /** The bands in terms of the score itself: red below -1.333336, green from
      1.333328 on, blue in between (the two cut points are not symmetric about
      zero); a score of zero is blue. */
  lemma GetColorThresholds(score: real, length: real)
    ensures GetColor(score, length) == "red" <==> score < -1.333336
    ensures GetColor(score, length) == "blue" <==> -1.333336 <= score < 1.333328
    ensures GetColor(score, length) == "green" <==> 1.333328 <= score
    ensures GetColor(0.0, length) == "blue"
  {
  }

  /** A larger score never falls in a lower band, whatever the two lengths. */
  lemma GetColorMonotone(s1: real, s2: real, l1: real, l2: real)
    requires s1 <= s2
    ensures BandRank(GetColor(s1, l1)) <= BandRank(GetColor(s2, l2))
  {
    assert ScorePercent(s1) <= ScorePercent(s2);
  }

  /** The marker `getPointPosition` computes for a score on a measured path:
      nothing without a score, otherwise the point at the score's arc position,
      coloured by its band. */
  function MarkerPoint(score: Option<real>, metrics: PathMetrics): (p: Option<Point>)
    ensures p.Some? <==> score.Some?
    ensures p.Some? ==>
              (p.value.x, p.value.y) == metrics.pointAtLength(ArcPosition(score.value, metrics.totalLength))
              && p.value.color == GetColor(score.value, metrics.totalLength)
  {
    match ArcLength(score, metrics.totalLength)
    case None => None
    case Some(z) =>
      var (x, y) := metrics.pointAtLength(z);
      Some(Point(x, y, GetColor(score.value, metrics.totalLength)))
  }
}
