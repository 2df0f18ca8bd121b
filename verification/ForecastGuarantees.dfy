/** What a reader of a forecast may rely on, whatever the samples. */
module ForecastGuarantees {
  import opened FitBand
  import opened FitRobustness
  import opened ForecastModel
  import opened OrderStatistics
  import opened Segmentation
  import opened Series
  import opened TheilSen

  // ---------------------------------------------------------------- crossings and their band

  lemma SteeperIsSooner(excess: real, steep: real, shallow: real)
    requires steep <= shallow < 0.0
    ensures Max(0.0, excess / -steep) <= Max(0.0, excess / -shallow)
  {
    if excess > 0.0 {
      var late := excess / -shallow;
      assert late * -shallow == excess;
      QuotientPositive(excess, -shallow);
      ProductMonotone(late, late, -shallow, -steep);
      QuotientAtMost(excess, -steep, late);
    } else {
      NonPositiveQuotient(excess, -steep);
      NonPositiveQuotient(excess, -shallow);
    }
  }

  lemma QuotientPositive(a: real, b: real)
    requires 0.0 < a && 0.0 < b
    ensures 0.0 < a / b
  {
  }

  lemma QuotientAtMost(a: real, b: real, c: real)
    requires 0.0 < b && a <= c * b
    ensures a / b <= c
  {
    var q := a / b;
    assert q * b == a;
    if q > c {
      assert (q - c) * b > 0.0;
    }
  }

  lemma NonPositiveQuotient(a: real, b: real)
    requires a <= 0.0 < b
    ensures a / b <= 0.0
  {
    var q := a / b;
    assert q * b == a;
  }

  lemma CrossingMonotone(value: real, target: real, steep: real, shallow: real, anchor: real)
    requires steep <= shallow < 0.0
    ensures var early, late := Crossing(value, target, steep, anchor), Crossing(value, target, shallow, anchor);
            early.Some? && late.Some? && anchor <= early.value <= late.value
  {
    SteeperIsSooner(value - target, steep, shallow);
  }

  /** The fit behind a forecast that carries one. */
  lemma ForecastFit(samples: seq<Sample>, metric: Metric, now: real, nowAware: bool, windowStart: Option<real>,
                    spread: Spread)
    requires ForecastOf(samples, metric, now, nowAware, windowStart, spread).fit.Some?
    ensures samples != [] && IsValidSeries(samples)
    ensures var fc := ForecastOf(samples, metric, now, nowAware, windowStart, spread);
            var segment := samples[NewestSegmentStart(samples, metric)..];
            var line := FitLine(Newest(segment, metric.maxFitPoints), spread);
            && line.Some?
            && fc.fit.value == line.value.(segmentPoints := |segment|, truncated := fc.fit.value.truncated)
            && fc == FromFit(metric, samples[|samples| - 1], fc.fit.value)
            && samples[|samples| - 1].value > metric.target
  {
    hide FitLine, CadenceSeconds, LastSplit, GapLimit, IsValidSeries, Crossing, ReachedEdge, StaleAfter;
  }

  /** A crossing is reported exactly for three statuses, never before the watermark, and the fitted
      statuses carry the ordered band around it. */
  lemma CrossingAndBand(samples: seq<Sample>, metric: Metric, now: real, nowAware: bool, windowStart: Option<real>,
                        spread: Spread)
    ensures var fc := ForecastOf(samples, metric, now, nowAware, windowStart, spread);
            && (fc.crossesAt.Some? <==> fc.status in {Ok, BeyondHorizon, AtOrBelowTarget})
            && (fc.crossesAt.Some? ==>
                  && fc.asOf.Some? && fc.asOf.value <= fc.crossesAt.value
                  && fc.crossesAtEarliest.Some?
                  && fc.asOf.value <= fc.crossesAtEarliest.value <= fc.crossesAt.value
                  && (fc.crossesAtLatest.Some? ==> fc.crossesAt.value <= fc.crossesAtLatest.value))
  {
    hide ForecastOf, FromFit, FitLine, NewestSegmentStart;
    var fc := ForecastOf(samples, metric, now, nowAware, windowStart, spread);
    if fc.fit.Some? {
      ForecastFit(samples, metric, now, nowAware, windowStart, spread);
      BandOfFit(samples, metric, spread, fc.fit.value, NewestSegmentStart(samples, metric));
    } else {
      ForecastWithoutFit(samples, metric, now, nowAware, windowStart, spread);
    }
  }

  lemma ForecastWithoutFit(samples: seq<Sample>, metric: Metric, now: real, nowAware: bool, windowStart: Option<real>,
                           spread: Spread)
    requires ForecastOf(samples, metric, now, nowAware, windowStart, spread).fit == None
    ensures var fc := ForecastOf(samples, metric, now, nowAware, windowStart, spread);
            && fc.status !in {Ok, BeyondHorizon, NotDepleting}
            && if fc.status == AtOrBelowTarget
               then fc.asOf.Some? && fc.crossesAt == fc.crossesAtEarliest == fc.crossesAtLatest == fc.asOf
               else fc.crossesAt == None
  {
    hide FitLine, CadenceSeconds, NewestSegmentStart, GapLimit, IsValidSeries, ReachedEdge, StaleAfter, Crossing;
  }

  lemma BandOfFit(samples: seq<Sample>, metric: Metric, spread: Spread, fit: Fit, k: nat)
    requires k < |samples|
    requires var line := FitLine(Newest(samples[k..], metric.maxFitPoints), spread);
             line.Some? && fit == line.value.(segmentPoints := |samples| - k, truncated := fit.truncated)
    ensures var newest := samples[|samples| - 1];
            var fc := FromFit(metric, newest, fit);
            && fc.asOf == Some(newest.at)
            && (fc.crossesAt.Some? <==> fc.status in {Ok, BeyondHorizon})
            && fc.status != AtOrBelowTarget
            && (fc.crossesAt.Some? ==>
                  && fc.crossesAtEarliest.Some?
                  && newest.at <= fc.crossesAtEarliest.value <= fc.crossesAt.value
                  && (fc.crossesAtLatest.Some? ==> fc.crossesAt.value <= fc.crossesAtLatest.value))
  {
    hide FitPoints, Crossing;
    var fitted := Newest(samples[k..], metric.maxFitPoints);
    FitBandOrdered(fitted, spread);
    FitIsSome(fitted, spread);
    hide FitLine;
    assert fit.anchorAt == samples[|samples| - 1].at;
    BandOfSlopes(metric, samples[|samples| - 1], fit);
  }

  lemma BandOfSlopes(metric: Metric, newest: Sample, fit: Fit)
    requires fit.anchorAt == newest.at
    requires fit.slopeLowPerHour <= fit.slopePerHour <= fit.slopeHighPerHour
    ensures var fc := FromFit(metric, newest, fit);
            && (fc.crossesAt.Some? ==>
                  && fc.crossesAtEarliest.Some?
                  && newest.at <= fc.crossesAtEarliest.value <= fc.crossesAt.value
                  && (fc.crossesAtLatest.Some? ==> fc.crossesAt.value <= fc.crossesAtLatest.value))
  {
    var value, target := fit.valueAtAnchor, metric.target;
    if fit.slopePerHour < 0.0 {
      CrossingMonotone(value, target, fit.slopeLowPerHour, fit.slopePerHour, newest.at);
      if fit.slopeHighPerHour < 0.0 {
        CrossingMonotone(value, target, fit.slopePerHour, fit.slopeHighPerHour, newest.at);
      }
      hide Crossing;
    }
  }

  // ---------------------------------------------------------------- the status table

  /** A valid series of at least three samples always has a fit over its whole span. */
  lemma FitExists(samples: seq<Sample>, spread: Spread)
    requires IsValidSeries(samples)
    ensures FitLine(samples, spread).Some? <==> |samples| >= MIN_FIT_POINTS
    ensures var fit := FitLine(samples, spread);
            fit.Some? ==>
              && fit.value.anchorAt == samples[|samples| - 1].at
              && fit.value.spanSeconds == samples[|samples| - 1].at - samples[0].at
              && fit.value.points == |samples|
  {
    if |samples| >= MIN_FIT_POINTS {
      TimesIncrease(samples, 0, 1);
      var ps := Points(samples);
      assert ps[0].x != ps[1].x;
      assert SlopesFrom(ps[0], ps[1..]) != [];
      assert PairSlopes(ps) != [];
      SpanOfPoints(samples);
      hide PairSlopes, SlopesFrom, Median, LowRank, HighRank, Points;
    }
  }

  lemma SpanOfPoints(samples: seq<Sample>)
    requires samples != []
    ensures -Points(samples)[0].x * 3600.0 == samples[|samples| - 1].at - samples[0].at
  {
  }

  predicate IsStale(samples: seq<Sample>, metric: Metric, now: real)
    requires samples != []
  {
    now - samples[|samples| - 1].at > StaleAfter(metric, CadenceSeconds(samples))
  }

  /** The samples the fit would use: the newest segment of the only segmentation, cut to its newest
      points. */
  function Fitted(samples: seq<Sample>, metric: Metric): (fitted: seq<Sample>)
    requires samples != []
  {
    var parts := SplitSegments(samples, metric.refillJump, metric.gapFactor);
    Newest(parts[|parts| - 1], metric.maxFitPoints)
  }

  function NewestLength(samples: seq<Sample>, metric: Metric): nat
    requires samples != []
  {
    var parts := SplitSegments(samples, metric.refillJump, metric.gapFactor);
    |parts[|parts| - 1]|
  }

  /** The three statuses decided without a fit on a non-empty valid series, and those before it. */
  lemma StatusBeforeFit(samples: seq<Sample>, metric: Metric, now: real, nowAware: bool, windowStart: Option<real>,
                        spread: Spread)
    ensures var status := ForecastOf(samples, metric, now, nowAware, windowStart, spread).status;
            && (status == NoData <==> samples == [])
            && (status == InvalidSeries <==> samples != [] && !(IsValidSeries(samples) && nowAware))
            && (samples != [] && IsValidSeries(samples) && nowAware ==>
                  && (status == Stale <==> IsStale(samples, metric, now))
                  && (status == AtOrBelowTarget <==>
                        !IsStale(samples, metric, now) && samples[|samples| - 1].value <= metric.target))
  {
    hide FitLine, CadenceSeconds, NewestSegmentStart, IsValidSeries, ReachedEdge, StaleAfter, Crossing;
  }

  predicate EnoughPoints(samples: seq<Sample>, metric: Metric)
    requires samples != []
  {
    NewestLength(samples, metric) >= metric.minPoints
  }

  predicate EnoughSpan(samples: seq<Sample>, metric: Metric)
    requires samples != []
  {
    var fitted := Fitted(samples, metric);
    fitted != [] && fitted[|fitted| - 1].at - fitted[0].at >= metric.minSpanSeconds
  }

  /** Where the fit gates decide: the documented order of the remaining statuses. */
  lemma StatusFromFit(samples: seq<Sample>, metric: Metric, now: real, windowStart: Option<real>, spread: Spread)
    requires samples != [] && IsValidSeries(samples)
    requires !IsStale(samples, metric, now) && samples[|samples| - 1].value > metric.target
    ensures var fc := ForecastOf(samples, metric, now, true, windowStart, spread);
            var points, span := EnoughPoints(samples, metric), EnoughSpan(samples, metric);
            var fits := |Fitted(samples, metric)| >= MIN_FIT_POINTS;
            && (fc.status == InsufficientPoints <==> !points || (span && !fits))
            && (fc.status == InsufficientSpan <==> points && !span)
            && (fc.status in {NotDepleting, Ok, BeyondHorizon} <==> points && span && fits)
            && (fc.fit.Some? <==> points && span && fits)
  {
    hide ForecastOf, IsStale, CadenceSeconds, GapLimit, NewestSegmentStart, IsValidSeries, SplitSegments, Newest,
         FromSegment, FitLine, ReachedEdge;
    NewestSegment(samples, metric.refillJump, metric.gapFactor);
    var k := NewestSegmentStart(samples, metric);
    StartIsLastSplit(samples, metric);
    var cut := NewestIsSuffix(samples, k, metric.maxFitPoints);
    SuffixIsValid(samples, cut);
    FitExists(samples[cut..], spread);
    var truncated := k == 0 && ReachedEdge(metric, samples[k], CadenceSeconds(samples), windowStart);
    PastTheGates(samples, metric, now, windowStart, spread);
    StatusOfSegment(metric, samples[k..], truncated, spread);
  }

  /** On a valid, fresh series above the target the newest segment decides. */
  lemma PastTheGates(samples: seq<Sample>, metric: Metric, now: real, windowStart: Option<real>, spread: Spread)
    requires samples != [] && IsValidSeries(samples)
    requires !IsStale(samples, metric, now) && samples[|samples| - 1].value > metric.target
    ensures var k := NewestSegmentStart(samples, metric);
            var truncated := k == 0 && ReachedEdge(metric, samples[k], CadenceSeconds(samples), windowStart);
            ForecastOf(samples, metric, now, true, windowStart, spread) ==
            FromSegment(metric, samples[k..], truncated, spread)
  {
    hide CadenceSeconds, NewestSegmentStart, IsValidSeries, StaleAfter, ReachedEdge, FromSegment;
  }

  /** The gates on the newest segment. */
  lemma StatusOfSegment(metric: Metric, segment: seq<Sample>, truncated: bool, spread: Spread)
    requires segment != []
    ensures var fc, fitted := FromSegment(metric, segment, truncated, spread), Newest(segment, metric.maxFitPoints);
            && fitted != []
            && var points, span := |segment| >= metric.minPoints,
                 fitted[|fitted| - 1].at - fitted[0].at >= metric.minSpanSeconds;
               var fits := FitLine(fitted, spread).Some?;
               && (fc.status == InsufficientPoints <==> !points || (span && !fits))
               && (fc.status == InsufficientSpan <==> points && !span)
               && (fc.status in {NotDepleting, Ok, BeyondHorizon} <==> points && span && fits)
               && (fc.fit.Some? <==> points && span && fits)
  {
    hide FitLine, Crossing;
  }

  // ---------------------------------------------------------------- which samples are fitted

  /** The newest segment starts at k: nothing splits behind it, and k itself is a split or the beginning. */
  ghost predicate StartsNewest(samples: seq<Sample>, metric: Metric, k: nat) {
    var limit := GapLimit(samples, metric.gapFactor);
    && k < |samples| && (0 < k ==> SplitsAt(samples, k, metric.refillJump, limit))
    && forall i :: k < i < |samples| ==> !SplitsAt(samples, i, metric.refillJump, limit)
  }

  /** The first fitted sample: the start of the segment, or as many from the end as the cap allows. */
  function FirstFitted(n: nat, start: nat, maxFitPoints: nat): nat {
    if maxFitPoints > 0 && n > start + maxFitPoints then n - maxFitPoints else start
  }

  lemma NewestFrom(samples: seq<Sample>, start: nat, maxFitPoints: nat)
    requires start < |samples|
    ensures FirstFitted(|samples|, start, maxFitPoints) < |samples|
    ensures Newest(samples[start..], maxFitPoints) == samples[FirstFitted(|samples|, start, maxFitPoints)..]
  {
  }

  /** The fit gates and the fit, by indices into the series. */
  ghost predicate FitsFrom(samples: seq<Sample>, metric: Metric, start: nat, windowStart: Option<real>, spread: Spread,
                           fc: Forecast)
    requires start < |samples|
  {
    var n, first := |samples|, FirstFitted(|samples|, start, metric.maxFitPoints);
    && first < n
    && var span, points := samples[n - 1].at - samples[first].at, n - start >= metric.minPoints;
       && (fc.status == InsufficientPoints <==>
           !points || (span >= metric.minSpanSeconds && n - first < MIN_FIT_POINTS))
       && (fc.status == InsufficientSpan <==> points && span < metric.minSpanSeconds)
       && (fc.fit.Some? <==> points && span >= metric.minSpanSeconds && n - first >= MIN_FIT_POINTS)
       && (fc.fit.Some? ==>
             var line := FitLine(samples[first..], spread);
             && line.Some? && fc.fit.value.points == n - first && fc.fit.value.spanSeconds == span
             && fc.fit.value.segmentPoints == n - start
             && (fc.fit.value.truncated <==> start == 0 && AtEdge(samples, metric, windowStart))
             && fc.fit.value == line.value.(segmentPoints := n - start, truncated := fc.fit.value.truncated))
  }

  /** Nothing is known of an older sample that would lie within one gap limit of the first. */
  ghost predicate AtEdge(samples: seq<Sample>, metric: Metric, windowStart: Option<real>)
    requires samples != []
  {
    match (windowStart, CadenceSeconds(samples))
    case (None, _) => true
    case (Some(edge), None) => samples[0].at <= edge
    case (Some(edge), Some(cadence)) => samples[0].at <= edge + metric.gapFactor * cadence
  }

  lemma StartOfNewest(samples: seq<Sample>, metric: Metric, start: nat)
    requires StartsNewest(samples, metric, start)
    ensures NewestSegmentStart(samples, metric) == start
  {
    hide GapLimit, SplitsAt;
    NewestStart(samples, |samples|, start, metric.refillJump, GapLimit(samples, metric.gapFactor));
  }

  lemma EdgeReached(samples: seq<Sample>, metric: Metric, windowStart: Option<real>)
    requires samples != []
    ensures ReachedEdge(metric, samples[0], CadenceSeconds(samples), windowStart) <==>
            AtEdge(samples, metric, windowStart)
  {
    hide CadenceSeconds;
  }

  /** Past the gates before the fit, the forecast is decided and made by exactly these samples. */
  lemma FitsNewestSamples(samples: seq<Sample>, metric: Metric, now: real, windowStart: Option<real>, spread: Spread,
                          start: nat)
    requires IsValidSeries(samples) && StartsNewest(samples, metric, start)
    requires !IsStale(samples, metric, now) && samples[|samples| - 1].value > metric.target
    ensures FitsFrom(samples, metric, start, windowStart, spread,
                     ForecastOf(samples, metric, now, true, windowStart, spread))
  {
    hide ForecastOf, FromFit, IsStale, CadenceSeconds, GapLimit, NewestSegmentStart, IsValidSeries, Newest, FitLine,
         ReachedEdge, AtEdge, StartsNewest;
    StartOfNewest(samples, metric, start);
    EdgeReached(samples, metric, windowStart);
    PastTheGates(samples, metric, now, windowStart, spread);
    NewestFrom(samples, start, metric.maxFitPoints);
    var first := FirstFitted(|samples|, start, metric.maxFitPoints);
    SuffixIsValid(samples, first);
    FitExists(samples[first..], spread);
    var truncated := start == 0 && ReachedEdge(metric, samples[start], CadenceSeconds(samples), windowStart);
    StatusOfSegment(metric, samples[start..], truncated, spread);
    FitOfSegment(metric, samples[start..], truncated, spread);
  }

  lemma FitOfSegment(metric: Metric, segment: seq<Sample>, truncated: bool, spread: Spread)
    requires segment != []
    ensures var fc, line := FromSegment(metric, segment, truncated, spread),
                            FitLine(Newest(segment, metric.maxFitPoints), spread);
            fc.fit.Some? ==>
              line.Some? && fc.fit.value == line.value.(segmentPoints := |segment|, truncated := truncated)
  {
    hide FitLine, Crossing, Newest;
  }

  /** With the shipped settings: 36 samples and 3 hours for water, 144 samples and 12 hours for the battery, both
      over the newest 300 samples. */
  lemma ShippedGates(samples: seq<Sample>, metric: Metric, now: real, windowStart: Option<real>, spread: Spread,
                     start: nat)
    requires metric == WATER || metric == BATTERY
    requires IsValidSeries(samples) && StartsNewest(samples, metric, start)
    requires !IsStale(samples, metric, now) && samples[|samples| - 1].value > metric.target
    ensures var fc, n := ForecastOf(samples, metric, now, true, windowStart, spread), |samples|;
            var span := samples[n - 1].at - samples[if n - start > 300 then n - 300 else start].at;
            var water := metric.kind == Water;
            && (fc.status == InsufficientPoints <==> n - start < if water then 36 else 144)
            && (fc.status == InsufficientSpan <==>
                  n - start >= (if water then 36 else 144) && span < if water then 10800.0 else 43200.0)
  {
    hide ForecastOf, StartsNewest, IsStale, IsValidSeries, FitLine, AtEdge;
    FitsNewestSamples(samples, metric, now, windowStart, spread, start);
  }

  /** What is refused: a value that is not finite, a time without a zone, data time without one, or two neighbours out
      of order. */
  lemma RefusedExactly(samples: seq<Sample>, metric: Metric, now: real, nowAware: bool, windowStart: Option<real>,
                       spread: Spread)
    ensures ForecastOf(samples, metric, now, nowAware, windowStart, spread).status == InvalidSeries <==>
            && samples != []
            && (|| !nowAware
                || (exists i :: 0 <= i < |samples| && !(samples[i].finite && samples[i].aware))
                || (exists i :: 0 <= i < |samples| - 1 && samples[i].at >= samples[i + 1].at))
  {
    StatusBeforeFit(samples, metric, now, nowAware, windowStart, spread);
    hide ForecastOf;
    if exists i :: 0 <= i < |samples| - 1 && samples[i].at >= samples[i + 1].at {
      var i :| 0 <= i < |samples| - 1 && samples[i].at >= samples[i + 1].at;
      assert samples[i + 1 - 1].at >= samples[i + 1].at;
    }
    if !IsValidSeries(samples) && forall i :: 0 <= i < |samples| ==> samples[i].finite && samples[i].aware {
      var i :| 0 < i < |samples| && samples[i - 1].at >= samples[i].at;
      assert samples[i - 1].at >= samples[i - 1 + 1].at;
    }
  }

  /** What every forecast says about its input: the kind and target, the newest sample as far as it is sound, and
      without a fit no time but the watermark of a device that is dry. */
  lemma ForecastReports(samples: seq<Sample>, metric: Metric, now: real, nowAware: bool, windowStart: Option<real>,
                        spread: Spread)
    ensures var fc := ForecastOf(samples, metric, now, nowAware, windowStart, spread);
            && fc.kind == metric.kind && fc.target == metric.target
            && (samples == [] ==> fc.asOf == None && fc.latestValue == None)
            && (samples != [] ==>
                  var newest := samples[|samples| - 1];
                  && fc.asOf == (if newest.aware then Some(newest.at) else None)
                  && fc.latestValue == (if newest.finite then Some(newest.value) else None))
            && (fc.fit == None ==>
                  fc.crossesAt == fc.crossesAtEarliest == fc.crossesAtLatest
                  == if fc.status == AtOrBelowTarget then fc.asOf else None)
  {
    hide FitLine, CadenceSeconds, NewestSegmentStart, ReachedEdge, StaleAfter, Crossing, Newest;
    if samples != [] && IsValidSeries(samples) {
      assert samples[|samples| - 1].finite && samples[|samples| - 1].aware;
    }
  }

  /** Which status a fit gives: by the sign of its slope and the distance of its crossing. */
  lemma StatusAfterFit(samples: seq<Sample>, metric: Metric, now: real, windowStart: Option<real>, spread: Spread)
    requires ForecastOf(samples, metric, now, true, windowStart, spread).fit.Some?
    ensures var fc := ForecastOf(samples, metric, now, true, windowStart, spread);
            && fc.asOf.Some?
            && (fc.status == NotDepleting <==> fc.fit.value.slopePerHour >= 0.0)
            && (fc.status == BeyondHorizon <==>
                  fc.crossesAt.Some? && fc.crossesAt.value - fc.asOf.value > metric.maxHorizonSeconds)
            && (fc.status == Ok <==>
                  fc.crossesAt.Some? && fc.crossesAt.value - fc.asOf.value <= metric.maxHorizonSeconds)
  {
    hide ForecastOf, FitLine, NewestSegmentStart, Newest;
    ForecastFit(samples, metric, now, true, windowStart, spread);
    FitIsSome(Newest(samples[NewestSegmentStart(samples, metric)..], metric.maxFitPoints), spread);
    NewestEndsSeries(samples, NewestSegmentStart(samples, metric), metric.maxFitPoints);
  }

  lemma NewestEndsSeries(samples: seq<Sample>, k: nat, m: nat)
    requires k < |samples|
    ensures var newest := Newest(samples[k..], m); newest != [] && newest[|newest| - 1] == samples[|samples| - 1]
  {
  }

  lemma StartIsLastSplit(samples: seq<Sample>, metric: Metric)
    requires samples != []
    ensures NewestSegmentStart(samples, metric) ==
            LastSplit(samples, |samples|, metric.refillJump, GapLimit(samples, metric.gapFactor))
  {
  }

  /** A series with a split anywhere is never reported as truncated by the window edge. */
  lemma SplitMeansNotTruncated(samples: seq<Sample>, k: nat, metric: Metric, now: real, nowAware: bool,
                               windowStart: Option<real>, spread: Spread)
    requires 0 < k < |samples|
    requires SplitsAt(samples, k, metric.refillJump, GapLimit(samples, metric.gapFactor))
    ensures var fc := ForecastOf(samples, metric, now, nowAware, windowStart, spread);
            fc.fit.Some? ==> !fc.fit.value.truncated
  {
    StartIsLastSplit(samples, metric);
    hide FitLine, CadenceSeconds, NewestSegmentStart, IsValidSeries, ReachedEdge, StaleAfter, Crossing, SplitsAt,
         GapLimit;
  }

  // ---------------------------------------------------------------- the old tank

  /** The same timestamps and flags. */
  ghost predicate SameTimes(a: seq<Sample>, b: seq<Sample>) {
    |a| == |b| &&
    forall i :: 0 <= i < |a| ==> a[i].at == b[i].at && a[i].aware == b[i].aware && a[i].finite == b[i].finite
  }

  lemma {:induction false} GapsDependOnTimes(a: seq<Sample>, b: seq<Sample>)
    requires SameTimes(a, b)
    ensures PositiveGaps(a) == PositiveGaps(b)
  {
    if |a| >= 2 {
      GapsDependOnTimes(a[1..], b[1..]);
    }
  }

  lemma LimitDependsOnGaps(a: seq<Sample>, b: seq<Sample>, gapFactor: real)
    requires PositiveGaps(a) == PositiveGaps(b)
    ensures CadenceSeconds(a) == CadenceSeconds(b)
    ensures GapLimit(a, gapFactor) == GapLimit(b, gapFactor)
  {
    hide PositiveGaps, Median;
  }

  lemma SameNewestStart(a: seq<Sample>, b: seq<Sample>, k: nat, metric: Metric)
    requires SameTimes(a, b) && 0 < k < |a|
    requires forall i :: k <= i < |a| ==> a[i].value == b[i].value
    requires GapLimit(a, metric.gapFactor) == GapLimit(b, metric.gapFactor)
    requires SplitsAt(a, k, metric.refillJump, GapLimit(a, metric.gapFactor))
    requires SplitsAt(b, k, metric.refillJump, GapLimit(b, metric.gapFactor))
    ensures k <= NewestSegmentStart(a, metric) == NewestSegmentStart(b, metric)
  {
    hide GapLimit;
    var start := NewestSegmentStart(a, metric);
    assert k <= start;
    var limit := GapLimit(a, metric.gapFactor);
    forall i | start < i < |b| ensures !SplitsAt(b, i, metric.refillJump, limit) {
      assert !SplitsAt(a, i, metric.refillJump, limit);
    }
    NewestStart(b, |b|, start, metric.refillJump, limit);
  }

  lemma SameValidity(a: seq<Sample>, b: seq<Sample>)
    requires SameTimes(a, b)
    ensures IsValidSeries(a) <==> IsValidSeries(b)
  {
  }

  /** Values from before the newest split never influence the forecast. */
  lemma OldTankNonInterference(a: seq<Sample>, b: seq<Sample>, k: nat, metric: Metric, now: real, nowAware: bool,
                               windowStart: Option<real>, spread: Spread)
    requires SameTimes(a, b) && 0 < k < |a|
    requires forall i :: k <= i < |a| ==> a[i].value == b[i].value
    requires SplitsAt(a, k, metric.refillJump, GapLimit(a, metric.gapFactor))
    requires SplitsAt(b, k, metric.refillJump, GapLimit(b, metric.gapFactor))
    ensures ForecastOf(a, metric, now, nowAware, windowStart, spread)
         == ForecastOf(b, metric, now, nowAware, windowStart, spread)
  {
    GapsDependOnTimes(a, b);
    LimitDependsOnGaps(a, b, metric.gapFactor);
    SameNewestStart(a, b, k, metric);
    SameValidity(a, b);
    hide CadenceSeconds, FromSegment, StaleAfter, PositiveGaps, ReachedEdge, NewestSegmentStart, GapLimit, SplitsAt,
         IsValidSeries;
    var start := NewestSegmentStart(a, metric);
    assert a[start..] == b[start..];
    assert a[|a| - 1] == b[|b| - 1];
  }

  // ---------------------------------------------------------------- lockstep

  /** A depletion run: `level` at time `since`, changing by `slope` per hour. */
  datatype Run = Run(since: real, level: real, slope: real) {
    function At(t: real): real { level + slope * ((t - since) / 3600.0) }

    /** The time at which the run reaches the target. */
    function Reaches(target: real): real
      requires slope < 0.0
    {
      since + (level - target) / -slope * 3600.0
    }
  }

  predicate OnRun(s: Sample, run: Run) {
    s.value == run.At(s.at)
  }

  lemma RunSeenFrom(run: Run, anchor: real, t: real)
    ensures run.At(t) == run.At(anchor) + run.slope * ((t - anchor) / 3600.0)
  {
    var a, b := (t - run.since) / 3600.0, (anchor - run.since) / 3600.0;
    assert run.slope * a - run.slope * b == run.slope * (a - b);
    assert a - b == (t - anchor) / 3600.0;
  }

  lemma {:induction false} AllOnLine(ps: seq<Point>, slope: real, level: real)
    requires forall i :: 0 <= i < |ps| ==> OnLine(ps[i], slope, level)
    ensures CountOnLine(ps, slope, level) == |ps|
  {
    if ps != [] {
      AllOnLine(ps[1..], slope, level);
    }
  }

  /** The fit of samples on one run is that run. */
  lemma FitOfRun(samples: seq<Sample>, run: Run, spread: Spread)
    requires |samples| >= MIN_FIT_POINTS && IsValidSeries(samples)
    requires forall i :: 0 <= i < |samples| ==> OnRun(samples[i], run)
    ensures var fit := FitLine(samples, spread);
            && fit.Some?
            && fit.value.slopePerHour == run.slope
            && fit.value.valueAtAnchor == run.At(samples[|samples| - 1].at)
  {
    hide FitLine;
    var anchor := samples[|samples| - 1].at;
    var ps, level := Points(samples), run.At(anchor);
    forall i | 0 <= i < |ps| ensures OnLine(ps[i], run.slope, level) {
      assert OnRun(samples[i], run);
      RunSeenFrom(run, anchor, samples[i].at);
    }
    forall i, j | 0 <= i < j < |ps| ensures ps[i].x != ps[j].x {
      TimesIncrease(samples, i, j);
    }
    AllOnLine(ps, run.slope, level);
    assert Pairs(|ps|) > 0;
    Breakdown(samples, spread, run.slope, level);
  }

  lemma CrossingOfRun(run: Run, anchor: real, target: real)
    requires run.slope < 0.0 && run.At(anchor) > target
    ensures Crossing(run.At(anchor), target, run.slope, anchor) == Some(run.Reaches(target))
  {
    var rate := -run.slope;
    var elapsed := (anchor - run.since) / 3600.0;
    var now, all := (run.At(anchor) - target) / rate, (run.level - target) / rate;
    assert now * rate == run.level - rate * elapsed - target;
    assert all * rate == run.level - target;
    assert (now - all + elapsed) * rate == 0.0;
    assert now == all - elapsed;
    assert now >= 0.0 by {
      if now < 0.0 {
        ProductNegative(now, rate);
      }
    }
  }

  lemma ProductNegative(a: real, b: real)
    requires a < 0.0 < b
    ensures a * b < 0.0
  {
  }

  /** Cutting the newest segment to its newest points leaves a suffix of the series. */
  lemma NewestIsSuffix(samples: seq<Sample>, k: nat, m: nat) returns (cut: nat)
    requires k < |samples|
    ensures k <= cut < |samples| && Newest(samples[k..], m) == samples[cut..]
  {
    cut := |samples| - |Newest(samples[k..], m)|;
  }

  lemma SuffixIsValid(samples: seq<Sample>, cut: nat)
    requires cut <= |samples| && IsValidSeries(samples)
    ensures IsValidSeries(samples[cut..])
  {
  }

  /** If the newest segment is a falling run and the gates let the fit happen, the forecast gives
      the run's true crossing, even when the fit is cut to the newest points. */
  lemma TrueCrossing(samples: seq<Sample>, run: Run, metric: Metric, now: real, nowAware: bool,
                     windowStart: Option<real>, spread: Spread)
    requires samples != [] && run.slope < 0.0
    requires forall i :: NewestSegmentStart(samples, metric) <= i < |samples| ==> OnRun(samples[i], run)
    requires ForecastOf(samples, metric, now, nowAware, windowStart, spread).fit.Some?
    ensures var fc := ForecastOf(samples, metric, now, nowAware, windowStart, spread);
            && fc.status in {Ok, BeyondHorizon}
            && fc.asOf == Some(samples[|samples| - 1].at)
            && fc.crossesAt == Some(run.Reaches(metric.target))
  {
    hide ForecastOf, FitLine, NewestSegmentStart, Crossing, OnRun, IsValidSeries;
    ForecastFit(samples, metric, now, nowAware, windowStart, spread);
    var k := NewestSegmentStart(samples, metric);
    var fitted := Newest(samples[k..], metric.maxFitPoints);
    var cut := NewestIsSuffix(samples, k, metric.maxFitPoints);
    SuffixIsValid(samples, cut);
    FitIsSome(fitted, spread);
    FitOfRun(fitted, run, spread);
    RunForecast(metric, samples[|samples| - 1], run,
                ForecastOf(samples, metric, now, nowAware, windowStart, spread).fit.value);
  }

  lemma FitIsSome(samples: seq<Sample>, spread: Spread)
    requires FitLine(samples, spread).Some?
    ensures |samples| >= MIN_FIT_POINTS
    ensures FitLine(samples, spread).value.anchorAt == samples[|samples| - 1].at
  {
  }

  lemma RunForecast(metric: Metric, newest: Sample, run: Run, fit: Fit)
    requires run.slope < 0.0 && OnRun(newest, run) && newest.value > metric.target
    requires fit.slopePerHour == run.slope && fit.valueAtAnchor == run.At(newest.at) && fit.anchorAt == newest.at
    ensures var fc := FromFit(metric, newest, fit);
            && fc.status in {Ok, BeyondHorizon}
            && fc.asOf == Some(newest.at)
            && fc.crossesAt == Some(run.Reaches(metric.target))
  {
    CrossingOfRun(run, newest.at, metric.target);
    hide Crossing;
  }

  /** Watermarks inside one depletion run: the window samples[lo..hi] contains the last `refill` only
      as its own start or as a visible jump. */
  lemma WindowOnRun(series: seq<Sample>, refill: nat, lo: nat, hi: nat, run: Run, metric: Metric)
    requires lo < hi <= |series| && refill < hi
    requires forall i :: refill <= i < hi ==> OnRun(series[i], run)
    requires lo < refill ==> series[refill].value - series[refill - 1].value >= metric.refillJump
    ensures var window := series[lo..hi];
            forall i :: NewestSegmentStart(window, metric) <= i < |window| ==> OnRun(window[i], run)
  {
    hide GapLimit, OnRun;
    var window := series[lo..hi];
    if lo < refill {
      assert SplitsAt(window, refill - lo, metric.refillJump, GapLimit(window, metric.gapFactor));
      assert NewestSegmentStart(window, metric) >= refill - lo;
    }
  }

  /** Two forecasts made at watermarks inside the same falling run agree on the crossing time, so
      the horizon shrinks by exactly the device time that passed between them. */
  lemma Lockstep(series: seq<Sample>, refill: nat, run: Run, metric: Metric, spread: Spread,
                 lo: nat, hi: nat, now: real, windowStart: Option<real>,
                 lo': nat, hi': nat, now': real, windowStart': Option<real>)
    requires lo < hi <= |series| && refill < hi && lo' < hi' <= |series| && refill < hi'
    requires run.slope < 0.0 && forall i :: refill <= i < |series| ==> OnRun(series[i], run)
    requires 0 < refill ==> series[refill].value - series[refill - 1].value >= metric.refillJump
    requires ForecastOf(series[lo..hi], metric, now, true, windowStart, spread).fit.Some?
    requires ForecastOf(series[lo'..hi'], metric, now', true, windowStart', spread).fit.Some?
    ensures var fc := ForecastOf(series[lo..hi], metric, now, true, windowStart, spread);
            var fc' := ForecastOf(series[lo'..hi'], metric, now', true, windowStart', spread);
            && fc.crossesAt.Some? && fc'.crossesAt.Some? && fc.asOf.Some? && fc'.asOf.Some?
            && fc.crossesAt == fc'.crossesAt
            && (fc.crossesAt.value - fc.asOf.value) - (fc'.crossesAt.value - fc'.asOf.value)
               == series[hi' - 1].at - series[hi - 1].at
  {
    hide ForecastOf, NewestSegmentStart, OnRun;
    WindowOnRun(series, refill, lo, hi, run, metric);
    WindowOnRun(series, refill, lo', hi', run, metric);
    TrueCrossing(series[lo..hi], run, metric, now, true, windowStart, spread);
    TrueCrossing(series[lo'..hi'], run, metric, now', true, windowStart', spread);
  }

  // ---------------------------------------------------------------- shifting the device clock

  function Shift(samples: seq<Sample>, d: real): (r: seq<Sample>)
    ensures |r| == |samples|
  {
    seq(|samples|, i requires 0 <= i < |samples| => samples[i].(at := samples[i].at + d))
  }

  function ShiftTime(t: Option<real>, d: real): Option<real> {
    match t
    case None => None
    case Some(v) => Some(v + d)
  }

  function ShiftFit(fit: Option<Fit>, d: real): Option<Fit> {
    match fit
    case None => None
    case Some(f) => Some(f.(anchorAt := f.anchorAt + d))
  }

  function ShiftForecast(fc: Forecast, d: real): Forecast {
    fc.(asOf := ShiftTime(fc.asOf, d),
        crossesAt := ShiftTime(fc.crossesAt, d),
        crossesAtEarliest := ShiftTime(fc.crossesAtEarliest, d),
        crossesAtLatest := ShiftTime(fc.crossesAtLatest, d),
        fit := ShiftFit(fc.fit, d))
  }

  lemma {:induction false} ShiftGaps(samples: seq<Sample>, d: real)
    ensures PositiveGaps(Shift(samples, d)) == PositiveGaps(samples)
  {
    if |samples| >= 2 {
      assert Shift(samples, d)[1..] == Shift(samples[1..], d);
      ShiftGaps(samples[1..], d);
    }
  }

  lemma ShiftStart(samples: seq<Sample>, d: real, metric: Metric)
    requires samples != []
    requires GapLimit(Shift(samples, d), metric.gapFactor) == GapLimit(samples, metric.gapFactor)
    ensures NewestSegmentStart(Shift(samples, d), metric) == NewestSegmentStart(samples, metric)
  {
    hide GapLimit;
    var limit := GapLimit(samples, metric.gapFactor);
    var start := NewestSegmentStart(samples, metric);
    forall i | start < i < |samples| ensures !SplitsAt(Shift(samples, d), i, metric.refillJump, limit) {
      assert !SplitsAt(samples, i, metric.refillJump, limit);
    }
    NewestStart(Shift(samples, d), |samples|, start, metric.refillJump, limit);
  }

  lemma ShiftFitLine(samples: seq<Sample>, d: real, spread: Spread)
    ensures FitLine(Shift(samples, d), spread) == ShiftFit(FitLine(samples, spread), d)
  {
    hide FitPoints, Points;
    if |samples| >= MIN_FIT_POINTS {
      ShiftPoints(samples, d);
      ShiftFitPoints(Points(samples), samples[|samples| - 1].at, d, spread(|samples|));
    }
  }

  lemma ShiftPoints(samples: seq<Sample>, d: real)
    requires samples != []
    ensures Points(Shift(samples, d)) == Points(samples)
  {
  }

  lemma ShiftFitPoints(ps: seq<Point>, anchor: real, d: real, spread: real)
    requires ps != []
    ensures FitPoints(ps, anchor + d, spread) == ShiftFit(FitPoints(ps, anchor, spread), d)
  {
    hide Median, PairSlopes, LowRank, HighRank, Intercepts, Residuals, MedianSlope;
  }

  lemma ShiftFromFit(metric: Metric, newest: Sample, fit: Fit, d: real)
    ensures FromFit(metric, newest.(at := newest.at + d), fit.(anchorAt := fit.anchorAt + d))
         == ShiftForecast(FromFit(metric, newest, fit), d)
  {
  }

  lemma NewestNonEmpty(segment: seq<Sample>, k: nat)
    requires segment != []
    ensures Newest(segment, k) != [] && |Newest(segment, k)| <= |segment|
  {
  }

  lemma ShiftNewest(segment: seq<Sample>, k: nat, d: real)
    ensures Newest(Shift(segment, d), k) == Shift(Newest(segment, k), d)
  {
    var cut := |segment| - |Newest(segment, k)|;
    assert Shift(segment, d)[cut..] == Shift(segment[cut..], d);
  }

  lemma ShiftFromSegment(metric: Metric, segment: seq<Sample>, truncated: bool, spread: Spread, d: real)
    requires segment != []
    ensures FromSegment(metric, Shift(segment, d), truncated, spread)
         == ShiftForecast(FromSegment(metric, segment, truncated, spread), d)
  {
    hide FromFit, FitLine, Newest;
    var fitted := Newest(segment, metric.maxFitPoints);
    assert fitted != [] && |fitted| <= |segment| by {
      NewestNonEmpty(segment, metric.maxFitPoints);
    }
    ShiftNewest(segment, metric.maxFitPoints, d);
    ShiftFitLine(fitted, d, spread);
    var newest := segment[|segment| - 1];
    var line := FitLine(fitted, spread);
    if line.Some? {
      ShiftFromFit(metric, newest, line.value.(segmentPoints := |segment|, truncated := truncated), d);
    }
  }

  /** Moving every sample, the data time and the window start by the same offset moves every time
      in the forecast by that offset and changes nothing else. */
  lemma DataTimeEquivariance(samples: seq<Sample>, metric: Metric, now: real, nowAware: bool,
                             windowStart: Option<real>, spread: Spread, d: real)
    ensures ForecastOf(Shift(samples, d), metric, now + d, nowAware, ShiftTime(windowStart, d), spread)
         == ShiftForecast(ForecastOf(samples, metric, now, nowAware, windowStart, spread), d)
  {
    hide FromSegment, CadenceSeconds, NewestSegmentStart, IsValidSeries, StaleAfter, ReachedEdge, PositiveGaps,
         GapLimit;
    if samples != [] {
      ShiftGaps(samples, d);
      LimitDependsOnGaps(Shift(samples, d), samples, metric.gapFactor);
      ShiftStart(samples, d, metric);
      ShiftValid(samples, d);
      var k := NewestSegmentStart(samples, metric);
      assert Shift(samples, d)[k..] == Shift(samples[k..], d);
      var cadence := CadenceSeconds(samples);
      ShiftEdge(metric, samples[k], cadence, windowStart, d);
      var truncated := k == 0 && ReachedEdge(metric, samples[k], cadence, windowStart);
      ShiftFromSegment(metric, samples[k..], truncated, spread, d);
    }
  }

  lemma ShiftEdge(metric: Metric, first: Sample, cadence: Option<real>, windowStart: Option<real>, d: real)
    ensures ReachedEdge(metric, first.(at := first.at + d), cadence, ShiftTime(windowStart, d))
       <==> ReachedEdge(metric, first, cadence, windowStart)
  {
    hide EdgeSlack;
  }

  lemma ShiftValid(samples: seq<Sample>, d: real)
    ensures IsValidSeries(Shift(samples, d)) <==> IsValidSeries(samples)
  {
    var shifted := Shift(samples, d);
    if IsValidSeries(shifted) {
      forall i | 0 < i < |samples| ensures samples[i - 1].at < samples[i].at {
        assert shifted[i - 1].at < shifted[i].at;
      }
      forall i | 0 <= i < |samples| ensures samples[i].finite && samples[i].aware {
        assert shifted[i].finite && shifted[i].aware;
      }
    }
  }
}
