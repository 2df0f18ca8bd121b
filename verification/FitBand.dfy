/** The rank band around the fitted slope always contains it. */
module FitBand {
  import opened OrderStatistics
  import opened Series
  import opened TheilSen

  lemma RanksBracketTheMiddle(m: nat, spread: real)
    requires m > 0 && spread > 0.0
    ensures LowRank(m, spread) <= (m - 1) / 2
    ensures m / 2 <= HighRank(m, spread)
  {
    var low := ((m as real - spread) / 2.0).Floor;
    assert 2 * low < m;
    var negHigh := (-((m as real + spread) / 2.0)).Floor;
    assert 2 * -negHigh > m;
  }

  lemma BandAroundMedian(slopes: seq<real>, spread: real)
    requires Ascending(slopes) && slopes != [] && spread > 0.0
    ensures slopes[LowRank(|slopes|, spread)] <= Median(slopes) <= slopes[HighRank(|slopes|, spread)]
  {
    var m := |slopes|;
    RanksBracketTheMiddle(m, spread);
    SortedOfAscending(slopes);
    assert slopes[(m - 1) / 2] <= Median(slopes) <= slopes[m / 2];
  }

  /** For every number of slopes, odd or even, and every clamped rank. */
  lemma FitBandOrdered(samples: seq<Sample>, spread: Spread)
    ensures var fit := FitLine(samples, spread);
            fit.Some? ==> fit.value.slopeLowPerHour <= fit.value.slopePerHour <= fit.value.slopeHighPerHour
  {
    if |samples| >= MIN_FIT_POINTS {
      var slopes := Sorted(PairSlopes(Points(samples)));
      if slopes != [] {
        BandAroundMedian(slopes, spread(|samples|));
      }
    }
  }
}
