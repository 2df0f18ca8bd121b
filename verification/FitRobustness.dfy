/** What the median of pairwise slopes survives: contamination of a minority of the pairs, and
    bounded noise on every value. */
module FitRobustness {
  import opened OrderStatistics
  import opened Series
  import opened TheilSen

  // ---------------------------------------------------------------- contamination

  predicate OnLine(p: Point, slope: real, level: real) {
    p.y == level + slope * p.x
  }

  function CountOnLine(ps: seq<Point>, slope: real, level: real): (c: nat)
    ensures c <= |ps|
  {
    if ps == [] then 0 else
      (if OnLine(ps[0], slope, level) then 1 else 0) + CountOnLine(ps[1..], slope, level)
  }

  ghost predicate LinePointsApart(ps: seq<Point>, slope: real, level: real) {
    forall i, j :: 0 <= i < j < |ps| && OnLine(ps[i], slope, level) && OnLine(ps[j], slope, level)
      ==> ps[i].x != ps[j].x
  }

  lemma SlopeOnLine(p: Point, q: Point, slope: real, level: real)
    requires p.x != q.x
    requires OnLine(p, slope, level) && OnLine(q, slope, level)
    ensures Slope(p, q) == slope
  {
    var dx := q.x - p.x;
    assert q.y - p.y == slope * dx;
    assert (slope * dx) / dx == slope;
  }

  lemma {:induction false} SlopesFromLinePoint(p: Point, rest: seq<Point>, slope: real, level: real)
    requires OnLine(p, slope, level)
    requires forall j :: 0 <= j < |rest| && OnLine(rest[j], slope, level) ==> rest[j].x != p.x
    ensures CountIn(SlopesFrom(p, rest), slope, slope) >= CountOnLine(rest, slope, level)
  {
    if rest != [] {
      var head := if rest[0].x != p.x then [Slope(p, rest[0])] else [];
      CountInConcat(head, SlopesFrom(p, rest[1..]), slope, slope);
      SlopesFromLinePoint(p, rest[1..], slope, level);
      if OnLine(rest[0], slope, level) {
        SlopeOnLine(p, rest[0], slope, level);
        assert head == [slope];
      }
    }
  }

  /** g points on a line contribute at least as many equal slopes as they form pairs. */
  lemma {:induction false} LinePairs(ps: seq<Point>, slope: real, level: real)
    requires LinePointsApart(ps, slope, level)
    ensures CountIn(PairSlopes(ps), slope, slope) >= Pairs(CountOnLine(ps, slope, level))
  {
    hide OnLine, Slope, SlopesFrom;
    if ps != [] {
      var rest := ps[1..];
      assert forall i :: 0 <= i < |rest| ==> rest[i] == ps[i + 1];
      LinePairs(rest, slope, level);
      CountInConcat(SlopesFrom(ps[0], rest), PairSlopes(rest), slope, slope);
      if OnLine(ps[0], slope, level) {
        SlopesFromLinePoint(ps[0], rest, slope, level);
      }
    }
  }

  lemma {:induction false} LineIntercepts(ps: seq<Point>, slope: real, level: real)
    ensures CountIn(Intercepts(ps, slope), level, level) == CountOnLine(ps, slope, level)
  {
    if ps != [] {
      assert Intercepts(ps, slope)[1..] == Intercepts(ps[1..], slope);
      LineIntercepts(ps[1..], slope, level);
    }
  }

  lemma {:induction false} LineResiduals(ps: seq<Point>, slope: real, level: real)
    ensures CountIn(Residuals(ps, slope, level), 0.0, 0.0) == CountOnLine(ps, slope, level)
  {
    if ps != [] {
      assert Residuals(ps, slope, level)[1..] == Residuals(ps[1..], slope, level);
      LineResiduals(ps[1..], slope, level);
    }
  }

  lemma PairMajorityIsPointMajority(g: nat, n: nat)
    requires g <= n
    requires 2 * Pairs(g) > Pairs(n)
    ensures 2 * g > n
  {
    PairsClosedForm(g);
    PairsClosedForm(n);
  }

  lemma MedianSlopeOfLine(ps: seq<Point>, slope: real, level: real)
    requires LinePointsApart(ps, slope, level)
    requires 2 * Pairs(CountOnLine(ps, slope, level)) > Pairs(|ps|)
    ensures PairSlopes(ps) != [] && MedianSlope(ps) == slope
  {
    var slopes := PairSlopes(ps);
    LinePairs(ps, slope, level);
    CountInSorted(slopes, slope, slope);
    MajorityBoundsMedian(Sorted(slopes), slope, slope);
  }

  /** Breakdown point: if the samples on one line form a strict majority of the pairs, the fit is
      that line exactly, wherever the other samples lie. */
  lemma Breakdown(samples: seq<Sample>, spread: Spread, slope: real, level: real)
    requires |samples| >= MIN_FIT_POINTS
    requires LinePointsApart(Points(samples), slope, level)
    requires 2 * Pairs(CountOnLine(Points(samples), slope, level)) > Pairs(|samples|)
    ensures var fit := FitLine(samples, spread);
            && fit.Some?
            && fit.value.slopePerHour == slope
            && fit.value.valueAtAnchor == level
            && fit.value.residualMad == 0.0
  {
    var ps := Points(samples);
    MedianSlopeOfLine(ps, slope, level);
    PairMajorityIsPointMajority(CountOnLine(ps, slope, level), |samples|);
    LineIntercepts(ps, slope, level);
    MajorityBoundsMedian(Intercepts(ps, slope), level, level);
    LineResiduals(ps, slope, level);
    MajorityBoundsMedian(Residuals(ps, slope, level), 0.0, 0.0);
  }

  /** Three points on the line y == 0 and one above it. */
  const HALF_OFF: seq<Point> := [Point(-3.0, 0.0), Point(-2.0, 0.0), Point(-1.0, 0.0), Point(0.0, 1.0)]

  lemma SlopesOfHalfOff()
    ensures PairSlopes(HALF_OFF) == [0.0, 0.0, 1.0 / 3.0, 0.0, 0.5, 1.0]
  {
    var ps := HALF_OFF;
    assert ps[1..] == [ps[1], ps[2], ps[3]];
    assert PairSlopes([ps[3]]) == [];
    assert PairSlopes([ps[2], ps[3]]) == [1.0];
    assert SlopesFrom(ps[1], [ps[2], ps[3]]) == [0.0, 0.5];
    assert PairSlopes([ps[1], ps[2], ps[3]]) == [0.0, 0.5, 1.0];
    assert Slope(ps[0], ps[3]) == 1.0 / 3.0;
    assert SlopesFrom(ps[0], [ps[2], ps[3]]) == [0.0, 1.0 / 3.0];
    assert SlopesFrom(ps[0], [ps[1], ps[2], ps[3]]) == [0.0, 0.0, 1.0 / 3.0];
  }

  lemma SortedHalfOff(third: real)
    requires 0.0 < third < 0.5
    ensures Sorted([0.0, 0.0, third, 0.0, 0.5, 1.0]) == [0.0, 0.0, 0.0, third, 0.5, 1.0]
  {
    hide Insert, Sorted;
    var ascending := [0.0, third, 0.5, 1.0];
    SortedOfAscending([0.0, 0.5, 1.0]);
    InsertThird(third);
    SortedCons(third, [0.0, 0.5, 1.0]);
    assert [third] + [0.0, 0.5, 1.0] == [third, 0.0, 0.5, 1.0];
    SortedCons(0.0, [third, 0.0, 0.5, 1.0]);
    assert [0.0] + [third, 0.0, 0.5, 1.0] == [0.0, third, 0.0, 0.5, 1.0];
    InsertZero(ascending);
    SortedCons(0.0, [0.0, third, 0.0, 0.5, 1.0]);
    assert [0.0] + [0.0, third, 0.0, 0.5, 1.0] == [0.0, 0.0, third, 0.0, 0.5, 1.0];
    InsertZero([0.0] + ascending);
    assert [0.0] + ([0.0] + ascending) == [0.0, 0.0, 0.0, third, 0.5, 1.0];
  }

  lemma MedianOfSix(r: seq<real>)
    requires Ascending(r) && |r| == 6
    ensures Median(r) == (r[2] + r[3]) / 2.0
  {
    SortedOfAscending(r);
  }

  /** A strict majority is needed: with exactly half of the pairs on the line the fit moves off it. */
  lemma HalfThePairsIsNotEnough()
    ensures 2 * Pairs(CountOnLine(HALF_OFF, 0.0, 0.0)) == Pairs(|HALF_OFF|)
    ensures PairSlopes(HALF_OFF) != [] && MedianSlope(HALF_OFF) > 0.0
  {
    hide PairSlopes, Insert, Sorted, Median;
    SlopesOfHalfOff();
    SortedHalfOff(1.0 / 3.0);
    MedianOfSix(Sorted(PairSlopes(HALF_OFF)));
    HalfOnLine();
  }

  lemma HalfOnLine()
    ensures CountOnLine(HALF_OFF, 0.0, 0.0) == 3 && Pairs(3) == 3 && Pairs(4) == 6
  {
    assert HALF_OFF[1..][1..] == [HALF_OFF[2], HALF_OFF[3]];
  }

  lemma SortedCons(x: real, s: seq<real>)
    ensures Sorted([x] + s) == Insert(x, Sorted(s))
  {
    assert ([x] + s)[1..] == s;
  }

  lemma InsertThird(third: real)
    requires 0.0 < third < 0.5
    ensures Insert(third, [0.0, 0.5, 1.0]) == [0.0, third, 0.5, 1.0]
  {
    assert [0.0, 0.5, 1.0][1..] == [0.5, 1.0];
  }

  lemma InsertZero(s: seq<real>)
    requires Ascending(s) && s != [] && s[0] >= 0.0
    ensures Insert(0.0, s) == [0.0] + s
  {
  }

  // ---------------------------------------------------------------- bounded noise

  function LineAt(slope: real, level: real, x: real): real { level + slope * x }

  predicate NearLine(p: Point, slope: real, level: real, e: real) {
    Abs(p.y - LineAt(slope, level, p.x)) <= e
  }

  /** Every point within `e` of the line and within `reach` hours of the anchor. */
  predicate AllNear(ps: seq<Point>, slope: real, level: real, e: real, reach: real) {
    ps == [] || (NearLine(ps[0], slope, level, e) && Abs(ps[0].x) <= reach && AllNear(ps[1..], slope, level, e, reach))
  }

  /** The slope error that noise `e` can cause over `distance` hours. */
  function SlopeBound(e: real, distance: real): real
    requires distance > 0.0
  {
    2.0 * e / distance
  }

  function FarFrom(p: Point, rest: seq<Point>, distance: real): (c: nat)
    ensures c <= |rest|
  {
    if rest == [] then 0 else
      (if Abs(rest[0].x - p.x) >= distance then 1 else 0) + FarFrom(p, rest[1..], distance)
  }

  /** How many pairs of points lie at least `distance` hours apart. */
  function FarPairs(ps: seq<Point>, distance: real): nat {
    if ps == [] then 0 else FarFrom(ps[0], ps[1..], distance) + FarPairs(ps[1..], distance)
  }

  lemma AbsProduct(a: real, b: real)
    ensures Abs(a * b) == Abs(a) * Abs(b)
  {
  }

  lemma ProductMonotone(a: real, b: real, c: real, d: real)
    requires 0.0 <= a <= b && 0.0 <= c <= d
    ensures a * c <= b * d
  {
    assert a * c <= b * c;
    assert b * c <= b * d;
  }

  lemma QuotientOf(a: real, b: real, c: real)
    requires c > 0.0 && a * c <= b
    ensures a <= b / c
  {
    var q := b / c;
    assert q * c == b;
    if a > q {
      assert (a - q) * c > 0.0;
    }
  }

  lemma Distribute(a: real, b: real, c: real)
    ensures (a - b) * c == a * c - b * c
  {
  }

  /** If s * dx differs from slope * dx by at most 2e and |dx| >= distance, s is close to slope. */
  lemma QuotientBound(s: real, slope: real, dx: real, noise: real, e: real, distance: real)
    requires distance > 0.0 && Abs(dx) >= distance
    requires s * dx == slope * dx + noise && Abs(noise) <= 2.0 * e
    ensures Abs(s - slope) <= SlopeBound(e, distance)
  {
    hide Abs;
    var error := s - slope;
    Distribute(s, slope, dx);
    assert error * dx == noise;
    AbsProduct(error, dx);
    ProductMonotone(Abs(error), Abs(error), distance, Abs(dx));
    QuotientOf(Abs(error), 2.0 * e, distance);
  }

  lemma RiseOnLine(p: Point, q: Point, slope: real, level: real)
    requires p.x != q.x
    ensures Slope(p, q) * (q.x - p.x) ==
            slope * (q.x - p.x) + (q.y - LineAt(slope, level, q.x) - (p.y - LineAt(slope, level, p.x)))
  {
    assert Slope(p, q) * (q.x - p.x) == q.y - p.y;
    Distribute(q.x, p.x, slope);
  }

  lemma NoisySlope(p: Point, q: Point, slope: real, level: real, e: real, distance: real)
    requires distance > 0.0 && Abs(q.x - p.x) >= distance
    requires NearLine(p, slope, level, e) && NearLine(q, slope, level, e)
    ensures Abs(Slope(p, q) - slope) <= SlopeBound(e, distance)
  {
    hide LineAt, Slope, SlopeBound;
    var noise := q.y - LineAt(slope, level, q.x) - (p.y - LineAt(slope, level, p.x));
    assert Abs(noise) <= 2.0 * e;
    RiseOnLine(p, q, slope, level);
    QuotientBound(Slope(p, q), slope, q.x - p.x, noise, e, distance);
  }

  lemma {:induction false} NoisySlopesFrom(p: Point, rest: seq<Point>, slope: real, level: real, e: real,
                                           distance: real, reach: real)
    requires distance > 0.0
    requires NearLine(p, slope, level, e) && AllNear(rest, slope, level, e, reach)
    ensures var d := SlopeBound(e, distance);
            CountIn(SlopesFrom(p, rest), slope - d, slope + d) >= FarFrom(p, rest, distance)
  {
    if rest != [] {
      var d := SlopeBound(e, distance);
      var head := if rest[0].x != p.x then [Slope(p, rest[0])] else [];
      CountInConcat(head, SlopesFrom(p, rest[1..]), slope - d, slope + d);
      NoisySlopesFrom(p, rest[1..], slope, level, e, distance, reach);
      if Abs(rest[0].x - p.x) >= distance {
        NoisySlope(p, rest[0], slope, level, e, distance);
        assert CountIn(head, slope - d, slope + d) == 1;
      }
    }
  }

  lemma {:induction false} NoisyPairs(ps: seq<Point>, slope: real, level: real, e: real, distance: real, reach: real)
    requires distance > 0.0 && AllNear(ps, slope, level, e, reach)
    ensures var d := SlopeBound(e, distance);
            CountIn(PairSlopes(ps), slope - d, slope + d) >= FarPairs(ps, distance)
  {
    if ps != [] {
      var d := SlopeBound(e, distance);
      NoisySlopesFrom(ps[0], ps[1..], slope, level, e, distance, reach);
      NoisyPairs(ps[1..], slope, level, e, distance, reach);
      CountInConcat(SlopesFrom(ps[0], ps[1..]), PairSlopes(ps[1..]), slope - d, slope + d);
    }
  }

  lemma NoisyIntercept(p: Point, slope: real, level: real, e: real, fitted: real, d: real, reach: real)
    requires Abs(fitted - slope) <= d
    requires NearLine(p, slope, level, e) && Abs(p.x) <= reach
    ensures Abs(Intercept(p, fitted) - level) <= e + d * reach
  {
    hide Intercept, LineAt, Abs;
    var noise, error := p.y - LineAt(slope, level, p.x), fitted - slope;
    InterceptSplit(p, slope, level, fitted, noise, error);
    ProductMonotone(Abs(error), d, Abs(p.x), reach);
    DifferenceBound(noise, error, p.x, e, d * reach, Intercept(p, fitted) - level);
  }

  lemma InterceptSplit(p: Point, slope: real, level: real, fitted: real, noise: real, error: real)
    requires noise == p.y - LineAt(slope, level, p.x) && error == fitted - slope
    ensures Intercept(p, fitted) - level == noise - error * p.x
  {
    Distribute(fitted, slope, p.x);
  }

  lemma DifferenceBound(a: real, u: real, v: real, e: real, f: real, total: real)
    requires total == a - u * v
    requires Abs(a) <= e && Abs(u) * Abs(v) <= f
    ensures Abs(total) <= e + f
  {
    AbsProduct(u, v);
  }

  lemma {:induction false} NoisyIntercepts(ps: seq<Point>, slope: real, level: real, e: real, fitted: real, d: real,
                                           reach: real)
    requires Abs(fitted - slope) <= d && AllNear(ps, slope, level, e, reach)
    ensures var bound := e + d * reach;
            CountIn(Intercepts(ps, fitted), level - bound, level + bound) == |ps|
  {
    if ps != [] {
      NoisyIntercept(ps[0], slope, level, e, fitted, d, reach);
      assert Intercepts(ps, fitted)[1..] == Intercepts(ps[1..], fitted);
      NoisyIntercepts(ps[1..], slope, level, e, fitted, d, reach);
    }
  }

  lemma MajorityNear(ps: seq<Point>, center: real, d: real, near: nat)
    requires CountIn(PairSlopes(ps), center - d, center + d) >= near
    requires 2 * near > Pairs(|ps|)
    ensures PairSlopes(ps) != [] && Abs(MedianSlope(ps) - center) <= d
  {
    var slopes := PairSlopes(ps);
    CountInSorted(slopes, center - d, center + d);
    MajorityBoundsMedian(Sorted(slopes), center - d, center + d);
  }

  lemma FitOf(samples: seq<Sample>, spread: Spread)
    requires |samples| >= MIN_FIT_POINTS && PairSlopes(Points(samples)) != []
    ensures var ps, fit := Points(samples), FitLine(samples, spread);
            && fit.Some?
            && fit.value.slopePerHour == MedianSlope(ps)
            && fit.value.valueAtAnchor == Median(Intercepts(ps, MedianSlope(ps)))
  {
    SortedOfAscending(Sorted(PairSlopes(Points(samples))));
  }

  lemma NoisyFit(samples: seq<Sample>, spread: Spread, slope: real, level: real, e: real, d: real, reach: real,
                 near: nat)
    requires |samples| >= MIN_FIT_POINTS
    requires AllNear(Points(samples), slope, level, e, reach)
    requires CountIn(PairSlopes(Points(samples)), slope - d, slope + d) >= near
    requires 2 * near > Pairs(|samples|)
    ensures var fit := FitLine(samples, spread);
            && fit.Some?
            && Abs(fit.value.slopePerHour - slope) <= d
            && Abs(fit.value.valueAtAnchor - level) <= e + d * reach
  {
    hide FitLine, AllNear, Intercepts, PairSlopes, Median;
    var ps := Points(samples);
    MajorityNear(ps, slope, d, near);
    FitOf(samples, spread);
    var fitted, bound := MedianSlope(ps), e + d * reach;
    NoisyIntercepts(ps, slope, level, e, fitted, d, reach);
    MajorityBoundsMedian(Intercepts(ps, fitted), level - bound, level + bound);
  }

  /** Bounded noise: if every value is within `e` of a line and a strict majority of the pairs are
      `distance` hours apart, the fitted slope is within 2e/distance of the line's, and the fitted
      value at the anchor within e + 2e/distance times the reach of the samples. */
  lemma BoundedNoise(samples: seq<Sample>, spread: Spread, slope: real, level: real, e: real, distance: real,
                     reach: real)
    requires |samples| >= MIN_FIT_POINTS && distance > 0.0
    requires AllNear(Points(samples), slope, level, e, reach)
    requires 2 * FarPairs(Points(samples), distance) > Pairs(|samples|)
    ensures var fit := FitLine(samples, spread);
            && fit.Some?
            && Abs(fit.value.slopePerHour - slope) <= SlopeBound(e, distance)
            && Abs(fit.value.valueAtAnchor - level) <= e + SlopeBound(e, distance) * reach
  {
    hide FitLine, AllNear, SlopeBound, FarPairs, PairSlopes;
    var ps := Points(samples);
    NoisyPairs(ps, slope, level, e, distance, reach);
    NoisyFit(samples, spread, slope, level, e, SlopeBound(e, distance), reach, FarPairs(ps, distance));
  }

  // ---------------------------------------------------------------- even spacing

  ghost predicate EvenlySpaced(ps: seq<Point>, h: real) {
    forall i :: 0 <= i < |ps| ==> ps[i].x == ps[0].x + i as real * h
  }

  lemma FarByCount(offset: nat, lag: nat, h: real)
    requires h > 0.0
    ensures Abs(offset as real * h) >= lag as real * h <==> offset >= lag
  {
    var steps := offset as real - lag as real;
    assert offset as real * h - lag as real * h == steps * h;
    assert offset as real * h >= 0.0;
  }

  lemma {:induction false} EvenFarFrom(p: Point, rest: seq<Point>, h: real, offset: nat, lag: nat)
    requires h > 0.0
    requires forall j :: 0 <= j < |rest| ==> rest[j].x == p.x + (offset + j) as real * h
    ensures FarFrom(p, rest, lag as real * h) ==
            if offset >= lag then |rest| else if |rest| + offset >= lag then |rest| + offset - lag else 0
  {
    if rest != [] {
      assert rest[0].x - p.x == offset as real * h;
      FarByCount(offset, lag, h);
      assert forall j :: 0 <= j < |rest[1..]| ==> rest[1..][j] == rest[j + 1];
      EvenFarFrom(p, rest[1..], h, offset + 1, lag);
    }
  }

  lemma {:induction false} EvenFarPairs(ps: seq<Point>, h: real, lag: nat)
    requires h > 0.0 && lag >= 1
    requires EvenlySpaced(ps, h)
    ensures FarPairs(ps, lag as real * h) == if |ps| >= lag then Pairs(|ps| - lag + 1) else 0
  {
    if ps != [] {
      var rest := ps[1..];
      forall j | 0 <= j < |rest|
        ensures rest[j].x == ps[0].x + (1 + j) as real * h
        ensures rest[j].x == rest[0].x + j as real * h
      {
        assert rest[j] == ps[j + 1] && rest[0] == ps[1];
      }
      EvenFarFrom(ps[0], rest, h, 1, lag);
      EvenFarPairs(rest, h, lag);
    }
  }

  /** Of n evenly spaced samples, most pairs are at least `lag` samples apart. */
  predicate LagMajority(n: nat, lag: nat) {
    1 <= lag <= n && 2 * (n - lag) * (n - lag + 1) > n * (n - 1)
  }

  /** For n samples taken every `h` hours, "a strict majority of pairs at least `lag` samples apart"
      is an inequality between n and `lag`. */
  lemma EvenSpacingMajority(ps: seq<Point>, h: real, lag: nat)
    requires h > 0.0 && 1 <= lag <= |ps|
    requires EvenlySpaced(ps, h)
    ensures 2 * FarPairs(ps, lag as real * h) > Pairs(|ps|)
       <==> LagMajority(|ps|, lag)
  {
    hide FarPairs, Pairs, EvenlySpaced;
    EvenFarPairs(ps, h, lag);
    PairsClosedForm(|ps| - lag + 1);
    PairsClosedForm(|ps|);
  }

  // ---------------------------------------------------------------- spacing bounded from below

  /** Points k apart in the series are at least k * h hours apart. */
  ghost predicate SpacedAtLeast(ps: seq<Point>, h: real) {
    forall i, j :: 0 <= i < j < |ps| ==> ps[j].x - ps[i].x >= (j - i) as real * h
  }

  lemma FarByLag(gap: real, offset: nat, lag: nat, h: real)
    requires h > 0.0 && offset >= lag && gap >= offset as real * h
    ensures Abs(gap) >= lag as real * h
  {
    FarByCount(offset, lag, h);
    assert offset as real * h >= 0.0;
  }

  lemma {:induction false} SpacedFarFrom(p: Point, rest: seq<Point>, h: real, offset: nat, lag: nat)
    requires h > 0.0
    requires forall j :: 0 <= j < |rest| ==> rest[j].x - p.x >= (offset + j) as real * h
    ensures FarFrom(p, rest, lag as real * h) >=
            if offset >= lag then |rest| else if |rest| + offset >= lag then |rest| + offset - lag else 0
  {
    if rest != [] {
      assert rest[0].x - p.x >= (offset + 0) as real * h;
      if offset >= lag {
        FarByLag(rest[0].x - p.x, offset, lag, h);
      }
      forall j | 0 <= j < |rest[1..]| ensures rest[1..][j].x - p.x >= (offset + 1 + j) as real * h {
        assert rest[1..][j] == rest[j + 1];
      }
      SpacedFarFrom(p, rest[1..], h, offset + 1, lag);
    }
  }

  lemma {:induction false} SpacedFarPairs(ps: seq<Point>, h: real, lag: nat)
    requires h > 0.0 && lag >= 1
    requires SpacedAtLeast(ps, h)
    ensures FarPairs(ps, lag as real * h) >= if |ps| >= lag then Pairs(|ps| - lag + 1) else 0
  {
    if ps != [] {
      var rest := ps[1..];
      forall j | 0 <= j < |rest| ensures rest[j].x - ps[0].x >= (1 + j) as real * h {
        assert rest[j] == ps[j + 1];
      }
      forall i, j | 0 <= i < j < |rest| ensures rest[j].x - rest[i].x >= (j - i) as real * h {
        assert rest[j] == ps[j + 1] && rest[i] == ps[i + 1];
        assert ps[j + 1].x - ps[i + 1].x >= (j + 1 - (i + 1)) as real * h;
      }
      SpacedFarFrom(ps[0], rest, h, 1, lag);
      SpacedFarPairs(rest, h, lag);
    }
  }

  /** Whatever the jitter, with n samples never closer than `h` hours the same inequality gives the
      majority of pairs that are `lag` times `h` hours apart. */
  lemma SpacingMajority(ps: seq<Point>, h: real, lag: nat)
    requires h > 0.0 && SpacedAtLeast(ps, h) && LagMajority(|ps|, lag)
    ensures 2 * FarPairs(ps, lag as real * h) > Pairs(|ps|)
  {
    hide FarPairs, Pairs, SpacedAtLeast;
    SpacedFarPairs(ps, h, lag);
    PairsClosedForm(|ps| - lag + 1);
    PairsClosedForm(|ps|);
  }
}
