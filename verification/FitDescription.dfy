/** The fitted line described from outside: which slopes, which ranks, which medians. */
module FitDescription {
  import opened OrderStatistics
  import opened Series
  import opened TheilSen

  // ---------------------------------------------------------------- the slopes

  /** The place of the pair i < j among n samples, in the order of the nested comprehension. */
  function PairAt(n: nat, i: nat, j: nat): nat
    requires i < j < n
  {
    if i == 0 then j - 1 else n - 1 + PairAt(n - 1, i - 1, j - 1)
  }

  /** One slope per pair of samples: its rise over the hours between them. */
  ghost predicate ArePairSlopes(samples: seq<Sample>, slopes: seq<real>) {
    && |slopes| == Pairs(|samples|)
    && forall i, j :: 0 <= i < j < |samples| ==> HasPairSlope(samples, slopes, i, j)
  }

  ghost predicate HasPairSlope(samples: seq<Sample>, slopes: seq<real>, i: nat, j: nat)
    requires i < j < |samples|
  {
    var k := PairAt(|samples|, i, j);
    k < |slopes| && slopes[k] * ((samples[j].at - samples[i].at) / 3600.0) == samples[j].value - samples[i].value
  }

  lemma {:induction false} PairInRange(n: nat, i: nat, j: nat)
    requires i < j < n
    ensures PairAt(n, i, j) < Pairs(n)
  {
    if i > 0 {
      PairInRange(n - 1, i - 1, j - 1);
    }
  }

  /** Every place belongs to a pair. */
  lemma {:induction false} PairOfPlace(n: nat, k: nat) returns (i: nat, j: nat)
    requires k < Pairs(n)
    ensures i < j < n && PairAt(n, i, j) == k
  {
    if k < n - 1 {
      i, j := 0, k + 1;
    } else {
      i, j := PairOfPlace(n - 1, k - (n - 1));
      i, j := i + 1, j + 1;
    }
  }

  /** So the list of slopes is determined. */
  lemma PairSlopesAreUnique(samples: seq<Sample>, a: seq<real>, b: seq<real>)
    requires IsValidSeries(samples) && ArePairSlopes(samples, a) && ArePairSlopes(samples, b)
    ensures a == b
  {
    forall k | 0 <= k < |a| ensures a[k] == b[k] {
      var i, j := PairOfPlace(|samples|, k);
      TimesIncrease(samples, i, j);
      assert HasPairSlope(samples, a, i, j) && HasPairSlope(samples, b, i, j);
      SameFactor(a[k], b[k], (samples[j].at - samples[i].at) / 3600.0);
    }
  }

  lemma SameFactor(a: real, b: real, x: real)
    requires x > 0.0 && a * x == b * x
    ensures a == b
  {
    assert (a - b) * x == 0.0;
  }

  ghost predicate Apart(ps: seq<Point>) {
    forall i, j :: 0 <= i < j < |ps| ==> ps[i].x != ps[j].x
  }

  lemma {:induction false} SlopesFromAll(p: Point, rest: seq<Point>)
    requires forall j :: 0 <= j < |rest| ==> rest[j].x != p.x
    ensures |SlopesFrom(p, rest)| == |rest|
    ensures forall j :: 0 <= j < |rest| ==> SlopesFrom(p, rest)[j] == Slope(p, rest[j])
  {
    hide Slope;
    if rest != [] {
      SlopesFromAll(p, rest[1..]);
    }
  }

  lemma {:induction false} PairSlopeCount(ps: seq<Point>)
    requires Apart(ps)
    ensures |PairSlopes(ps)| == Pairs(|ps|)
  {
    hide SlopesFrom;
    if ps != [] {
      SlopesFromAll(ps[0], ps[1..]);
      PairSlopeCount(ps[1..]);
    }
  }

  lemma {:induction false} PairSlopeAt(ps: seq<Point>, i: nat, j: nat)
    requires Apart(ps) && i < j < |ps|
    ensures PairAt(|ps|, i, j) < |PairSlopes(ps)| && PairSlopes(ps)[PairAt(|ps|, i, j)] == Slope(ps[i], ps[j])
  {
    hide SlopesFrom, Slope;
    SlopesFromAll(ps[0], ps[1..]);
    PairSlopeCount(ps);
    PairInRange(|ps|, i, j);
    if i > 0 {
      PairSlopeAt(ps[1..], i - 1, j - 1);
    }
  }

  lemma PointsApart(samples: seq<Sample>)
    requires IsValidSeries(samples) && samples != []
    ensures Apart(Points(samples))
  {
    forall i, j | 0 <= i < j < |samples| ensures Points(samples)[i].x != Points(samples)[j].x {
      TimesIncrease(samples, i, j);
    }
  }

  /** The program's slopes are these. */
  lemma SlopesArePairSlopes(samples: seq<Sample>)
    requires IsValidSeries(samples) && samples != []
    ensures ArePairSlopes(samples, PairSlopes(Points(samples)))
  {
    var ps := Points(samples);
    PointsApart(samples);
    PairSlopeCount(ps);
    forall i, j | 0 <= i < j < |samples| ensures HasPairSlope(samples, PairSlopes(ps), i, j) {
      PairSlopeAt(ps, i, j);
      assert ps[j].x - ps[i].x == (samples[j].at - samples[i].at) / 3600.0;
      hide PairSlopes, Apart, PairAt;
    }
  }

  // ---------------------------------------------------------------- the ranks of the band

  /** The rank half the spread below the middle of m slopes, rounded down and kept in range. */
  predicate IsLowRank(m: nat, spread: real, k: nat) {
    && k < m
    && (2.0 * k as real <= m as real - spread || k == 0)
    && (m as real - spread < 2.0 * (k + 1) as real || k == m - 1)
  }

  /** The rank half the spread above the middle, rounded up and kept in range. */
  predicate IsHighRank(m: nat, spread: real, k: nat) {
    && k < m
    && (2.0 * k as real >= m as real + spread || k == m - 1)
    && (m as real + spread > 2.0 * (k as real - 1.0) || k == 0)
  }

  lemma RanksAreExact(m: nat, spread: real, k: nat)
    requires m > 0 && spread > 0.0
    ensures k == LowRank(m, spread) <==> IsLowRank(m, spread, k)
    ensures k == HighRank(m, spread) <==> IsHighRank(m, spread, k)
  {
    var low, high := (m as real - spread) / 2.0, (m as real + spread) / 2.0;
    assert low.Floor as real <= low < low.Floor as real + 1.0;
    assert (-high).Floor as real <= -high < (-high).Floor as real + 1.0;
  }

  // ---------------------------------------------------------------- the fit

  /** Hours from the newest sample, at most zero. */
  function HoursAt(samples: seq<Sample>, i: nat): real
    requires i < |samples|
  {
    (samples[i].at - samples[|samples| - 1].at) / 3600.0
  }

  /** Where each sample puts the level at the anchor, for a given slope. */
  function Levels(samples: seq<Sample>, slope: real): seq<real> {
    seq(|samples|, i requires 0 <= i < |samples| => samples[i].value - slope * HoursAt(samples, i))
  }

  /** How far each sample is from a given line. */
  function Deviations(samples: seq<Sample>, slope: real, level: real): seq<real> {
    seq(|samples|, i requires 0 <= i < |samples| => Abs(samples[i].value - (slope * HoursAt(samples, i) + level)))
  }

  ghost predicate DescribesSlopes(slopes: seq<real>, spread: real, fit: Fit) {
    && IsMedianOf(slopes, fit.slopePerHour)
    && (exists k: nat :: IsLowRank(|slopes|, spread, k) && IsRanked(slopes, k, fit.slopeLowPerHour))
    && (exists k: nat :: IsHighRank(|slopes|, spread, k) && IsRanked(slopes, k, fit.slopeHighPerHour))
  }

  /** The slope is the median of all pair slopes and its band their ranks around the middle; the level is the
      median of the levels, the residual the median of the deviations from that line. */
  ghost predicate DescribesFit(samples: seq<Sample>, spread: real, fit: Fit) {
    && samples != []
    && (exists slopes :: ArePairSlopes(samples, slopes) && DescribesSlopes(slopes, spread, fit))
    && IsMedianOf(Levels(samples, fit.slopePerHour), fit.valueAtAnchor)
    && IsMedianOf(Deviations(samples, fit.slopePerHour, fit.valueAtAnchor), fit.residualMad)
    && fit.anchorAt == samples[|samples| - 1].at
    && fit.spanSeconds == samples[|samples| - 1].at - samples[0].at
    && fit.points == |samples| == fit.segmentPoints && !fit.truncated
  }

  lemma SlopesDescribed(slopes: seq<real>, spread: real, fit: Fit)
    requires slopes != [] && spread > 0.0
    ensures DescribesSlopes(slopes, spread, fit) <==>
            && fit.slopePerHour == Median(slopes)
            && fit.slopeLowPerHour == Sorted(slopes)[LowRank(|slopes|, spread)]
            && fit.slopeHighPerHour == Sorted(slopes)[HighRank(|slopes|, spread)]
  {
    var m := |slopes|;
    var low, high := LowRank(m, spread), HighRank(m, spread);
    assert low < m && high < m;
    hide IsMedianOf, IsRanked, Median, Sorted, LowRank, HighRank, IsLowRank, IsHighRank;
    MedianIsMiddle(slopes, fit.slopePerHour);
    RanksAreExact(m, spread, low);
    RanksAreExact(m, spread, high);
    RankIsUnique(slopes, low, fit.slopeLowPerHour);
    RankIsUnique(slopes, high, fit.slopeHighPerHour);
    forall k: nat
      ensures IsRanked(slopes, k, fit.slopeLowPerHour) <==> k < m && fit.slopeLowPerHour == Sorted(slopes)[k]
      ensures IsRanked(slopes, k, fit.slopeHighPerHour) <==> k < m && fit.slopeHighPerHour == Sorted(slopes)[k]
      ensures IsLowRank(m, spread, k) <==> k == LowRank(m, spread)
      ensures IsHighRank(m, spread, k) <==> k == HighRank(m, spread)
    {
      RankIsUnique(slopes, k, fit.slopeLowPerHour);
      RankIsUnique(slopes, k, fit.slopeHighPerHour);
      RanksAreExact(m, spread, k);
    }
  }

  lemma FitPointsParts(samples: seq<Sample>, spread: Spread)
    requires |samples| >= MIN_FIT_POINTS && PairSlopes(Points(samples)) != []
    ensures var ps, slopes, fit := Points(samples), PairSlopes(Points(samples)), FitLine(samples, spread);
            && fit.Some? && spread(|samples|) > 0.0
            && fit.value.slopePerHour == Median(slopes)
            && fit.value.slopeLowPerHour == Sorted(slopes)[LowRank(|slopes|, spread(|samples|))]
            && fit.value.slopeHighPerHour == Sorted(slopes)[HighRank(|slopes|, spread(|samples|))]
            && fit.value.valueAtAnchor == Median(Intercepts(ps, fit.value.slopePerHour))
            && fit.value.residualMad == Median(Residuals(ps, fit.value.slopePerHour, fit.value.valueAtAnchor))
            && fit.value.anchorAt == samples[|samples| - 1].at && fit.value.spanSeconds == -ps[0].x * 3600.0
            && fit.value.points == fit.value.segmentPoints == |samples| && !fit.value.truncated
  {
    hide Points, PairSlopes, LowRank, HighRank, Intercepts, Residuals;
    SortedOfAscending(Sorted(PairSlopes(Points(samples))));
  }

  lemma OffsetsOfPoints(samples: seq<Sample>, slope: real, level: real)
    requires samples != []
    ensures Intercepts(Points(samples), slope) == Levels(samples, slope)
    ensures Residuals(Points(samples), slope, level) == Deviations(samples, slope, level)
    ensures -Points(samples)[0].x * 3600.0 == samples[|samples| - 1].at - samples[0].at
  {
    var ps := Points(samples);
    forall i | 0 <= i < |samples| ensures ps[i].x == HoursAt(samples, i) && ps[i].y == samples[i].value {
    }
    assert forall i :: 0 <= i < |samples| ==> Intercepts(ps, slope)[i] == Levels(samples, slope)[i];
    assert forall i :: 0 <= i < |samples| ==> Residuals(ps, slope, level)[i] == Deviations(samples, slope, level)[i];
  }

  /** The fit of a valid series is described, and by nothing else. */
  lemma FitIsDescribed(samples: seq<Sample>, spread: Spread, fit: Fit)
    requires IsValidSeries(samples) && |samples| >= MIN_FIT_POINTS
    ensures FitLine(samples, spread) == Some(fit) <==> DescribesFit(samples, spread(|samples|), fit)
  {
    hide FitLine, Points, PairSlopes, Levels, Deviations, IsMedianOf, Median, Sorted, DescribesSlopes, ArePairSlopes,
         Intercepts, Residuals, IsValidSeries;
    var slopes, width := PairSlopes(Points(samples)), spread(|samples|);
    SlopesArePairSlopes(samples);
    PairCountPositive(samples, slopes);
    FitPointsParts(samples, spread);
    SlopesDescribed(slopes, width, fit);
    OffsetsOfPoints(samples, fit.slopePerHour, fit.valueAtAnchor);
    LevelsLong(samples, fit.slopePerHour, fit.valueAtAnchor);
    MedianIsMiddle(Levels(samples, fit.slopePerHour), fit.valueAtAnchor);
    MedianIsMiddle(Deviations(samples, fit.slopePerHour, fit.valueAtAnchor), fit.residualMad);
    forall other | ArePairSlopes(samples, other) ensures other == slopes {
      PairSlopesAreUnique(samples, other, slopes);
    }
    var line := FitLine(samples, spread).value;
    hide LowRank, HighRank;
    OffsetsOfPoints(samples, line.slopePerHour, line.valueAtAnchor);
  }

  /** Ends of the band cut off as many slopes as their ranks say, for any bounds of the slopes. */
  lemma BandCutsOff(samples: seq<Sample>, spread: Spread, slopes: seq<real>, lo: real, hi: real)
    returns (low: nat, high: nat)
    requires IsValidSeries(samples) && |samples| >= MIN_FIT_POINTS && ArePairSlopes(samples, slopes)
    requires forall i :: 0 <= i < |slopes| ==> lo <= slopes[i] <= hi
    ensures var m, fit := |slopes|, FitLine(samples, spread);
            && fit.Some? && IsLowRank(m, spread(|samples|), low) && IsHighRank(m, spread(|samples|), high)
            && CountIn(slopes, lo, fit.value.slopeLowPerHour) >= low + 1
            && CountIn(slopes, fit.value.slopeLowPerHour, hi) >= m - low
            && CountIn(slopes, lo, fit.value.slopeHighPerHour) >= high + 1
            && CountIn(slopes, fit.value.slopeHighPerHour, hi) >= m - high
  {
    hide FitLine, Levels, Deviations, IsMedianOf, IsRanked, ArePairSlopes, IsLowRank, IsHighRank, IsValidSeries,
         PairSlopes;
    SlopesArePairSlopes(samples);
    PairCountPositive(samples, PairSlopes(Points(samples)));
    FitPointsParts(samples, spread);
    var fit := FitLine(samples, spread).value;
    FitIsDescribed(samples, spread, fit);
    var mine :| ArePairSlopes(samples, mine) && DescribesSlopes(mine, spread(|samples|), fit);
    PairSlopesAreUnique(samples, mine, slopes);
    low :| IsLowRank(|slopes|, spread(|samples|), low) && IsRanked(slopes, low, fit.slopeLowPerHour);
    high :| IsHighRank(|slopes|, spread(|samples|), high) && IsRanked(slopes, high, fit.slopeHighPerHour);
    RankCounts(slopes, low, fit.slopeLowPerHour, lo, hi);
    RankCounts(slopes, high, fit.slopeHighPerHour, lo, hi);
  }

  lemma PairCountPositive(samples: seq<Sample>, slopes: seq<real>)
    requires |samples| >= MIN_FIT_POINTS && ArePairSlopes(samples, slopes)
    ensures slopes != []
  {
    PairsClosedForm(|samples|);
  }

  lemma LevelsLong(samples: seq<Sample>, slope: real, level: real)
    ensures |Levels(samples, slope)| == |Deviations(samples, slope, level)| == |samples|
  {
  }
}
