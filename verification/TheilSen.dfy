/** The robust line fit of the forecasting core and what it guarantees. */
module TheilSen {
  import opened OrderStatistics
  import opened Series

  const MIN_FIT_POINTS := 3

  datatype Point = Point(x: real, y: real)

  datatype Fit = Fit(
    slopePerHour: real,
    slopeLowPerHour: real,
    slopeHighPerHour: real,
    valueAtAnchor: real,
    anchorAt: real,
    residualMad: real,
    points: nat,
    segmentPoints: nat,
    spanSeconds: real,
    truncated: bool)

  /** The rank spread of the slope band as a function of the number of points. The program uses
      z * sqrt(n(n-1)(2n+5)/18); every result below holds for any positive spread. */
  type Spread = f: nat -> real | forall n: nat :: n >= MIN_FIT_POINTS ==> f(n) > 0.0
    witness (n: nat) => 1.0

  /** Hours before the newest sample, so the fitted line is evaluated at x == 0. */
  function Points(samples: seq<Sample>): (ps: seq<Point>)
    requires samples != []
    ensures |ps| == |samples|
  {
    var anchor := samples[|samples| - 1].at;
    seq(|samples|, i requires 0 <= i < |samples| =>
      Point((samples[i].at - anchor) / 3600.0, samples[i].value))
  }

  function Slope(p: Point, q: Point): real
    requires p.x != q.x
  {
    (q.y - p.y) / (q.x - p.x)
  }

  /** Slopes from `p` to each later point; pairs with equal x are skipped. */
  function SlopesFrom(p: Point, rest: seq<Point>): (r: seq<real>)
    ensures |r| <= |rest|
  {
    if rest == [] then [] else
      (if rest[0].x != p.x then [Slope(p, rest[0])] else []) + SlopesFrom(p, rest[1..])
  }

  /** The number of pairs among n points. */
  function Pairs(n: nat): nat {
    if n == 0 then 0 else (n - 1) + Pairs(n - 1)
  }

  lemma {:induction false} PairsClosedForm(n: nat)
    ensures 2 * Pairs(n) == n * (n - 1)
  {
    if n > 0 {
      PairsClosedForm(n - 1);
      assert (n - 1) * (n - 2) + 2 * (n - 1) == n * (n - 1);
    }
  }

  /** All pairwise slopes, in the order of the nested comprehension. */
  function PairSlopes(ps: seq<Point>): (r: seq<real>)
    ensures |r| <= Pairs(|ps|)
  {
    if ps == [] then [] else SlopesFrom(ps[0], ps[1..]) + PairSlopes(ps[1..])
  }

  function Intercept(p: Point, slope: real): real { p.y - slope * p.x }

  function Residual(p: Point, slope: real, intercept: real): real {
    Abs(p.y - (slope * p.x + intercept))
  }

  function Intercepts(ps: seq<Point>, slope: real): (r: seq<real>)
    ensures |r| == |ps|
  {
    seq(|ps|, i requires 0 <= i < |ps| => Intercept(ps[i], slope))
  }

  function Residuals(ps: seq<Point>, slope: real, intercept: real): (r: seq<real>)
    ensures |r| == |ps|
  {
    seq(|ps|, i requires 0 <= i < |ps| => Residual(ps[i], slope, intercept))
  }

  /** min(max(k, 0), m - 1) */
  function ClampRank(k: int, m: nat): (r: nat)
    requires m > 0
    ensures r < m
  {
    var c := if k < 0 then 0 else k;
    if c > m - 1 then m - 1 else c
  }

  function LowRank(m: nat, spread: real): nat
    requires m > 0
  {
    ClampRank(((m as real - spread) / 2.0).Floor, m)
  }

  function HighRank(m: nat, spread: real): nat
    requires m > 0
  {
    ClampRank(-(-((m as real + spread) / 2.0)).Floor, m)
  }

  function MedianSlope(ps: seq<Point>): real
    requires PairSlopes(ps) != []
  {
    Median(Sorted(PairSlopes(ps)))
  }

  /** The fit over points measured from the anchor. */
  function FitPoints(ps: seq<Point>, anchor: real, spread: real): Option<Fit>
    requires ps != []
  {
    var slopes := Sorted(PairSlopes(ps));
    var m := |slopes|;
    if m == 0 then None
    else
      var slope := MedianSlope(ps);
      var intercept := Median(Intercepts(ps, slope));
      Some(Fit(
        slope,
        slopes[LowRank(m, spread)],
        slopes[HighRank(m, spread)],
        intercept,
        anchor,
        Median(Residuals(ps, slope, intercept)),
        |ps|,
        |ps|,
        -ps[0].x * 3600.0,
        false))
  }

  /** Median of pairwise slopes with a rank-based band; None below three points or when
      no two points differ in time. */
  function FitLine(samples: seq<Sample>, spread: Spread): Option<Fit> {
    var n := |samples|;
    if n < MIN_FIT_POINTS then None
    else FitPoints(Points(samples), samples[n - 1].at, spread(n))
  }
}
