/** The forecasting core: samples in, a dated crossing or an honest status out. */
module ForecastModel {
  import opened Segmentation
  import opened Series
  import opened TheilSen

  datatype Kind = Water | Battery

  datatype Metric = Metric(
    kind: Kind,
    target: real,
    refillJump: real,
    minPoints: nat,
    minSpanSeconds: real,
    maxFitPoints: nat,
    lookbackSeconds: real,
    gapFactor: real,
    staleAfterSeconds: real,
    maxHorizonSeconds: real,
    alertHorizonSeconds: real)

  const WATER: Metric :=
    Metric(Water, 10.0, 5.0, 36, 10800.0, 300, 864000.0, 6.0, 1800.0, 2592000.0, 172800.0)

  const BATTERY: Metric :=
    Metric(Battery, 3.4, 0.05, 144, 43200.0, 300, 3024000.0, 6.0, 1800.0, 5184000.0, 259200.0)

  datatype Status =
    | Ok
    | NoData
    | Stale
    | InvalidSeries
    | InsufficientPoints
    | InsufficientSpan
    | AtOrBelowTarget
    | NotDepleting
    | BeyondHorizon

  datatype Forecast = Forecast(
    kind: Kind,
    status: Status,
    asOf: Option<real>,
    target: real,
    latestValue: Option<real>,
    crossesAt: Option<real>,
    crossesAtEarliest: Option<real>,
    crossesAtLatest: Option<real>,
    fit: Option<Fit>)

  /** When a line from (anchor, value) reaches the target; None when it never falls, and never
      before the anchor. */
  function Crossing(valueNow: real, target: real, slopePerHour: real, anchor: real): Option<real> {
    if slopePerHour >= 0.0 then None
    else Some(anchor + Max(0.0, (valueNow - target) / -slopePerHour) * 3600.0)
  }

  /** The line from (anchor, value) stands at the target at time `t`, or has been below it all along
      and `t` is the anchor. */
  predicate Meets(t: real, valueNow: real, target: real, slopePerHour: real, anchor: real) {
    if valueNow > target then valueNow + slopePerHour * ((t - anchor) / 3600.0) == target else t == anchor
  }

  /** A falling line has exactly one such time, and it is the crossing; other lines have no crossing. */
  lemma CrossingMeetsTarget(t: real, valueNow: real, target: real, slopePerHour: real, anchor: real)
    ensures Crossing(valueNow, target, slopePerHour, anchor) == Some(t)
       <==> slopePerHour < 0.0 && Meets(t, valueNow, target, slopePerHour, anchor)
  {
    if slopePerHour < 0.0 {
      var rate := -slopePerHour;
      var hours, elapsed := (valueNow - target) / rate, (t - anchor) / 3600.0;
      assert hours * rate == valueNow - target;
      SignOfProduct(hours, rate);
      if Meets(t, valueNow, target, slopePerHour, anchor) && valueNow > target {
        assert (hours - elapsed) * rate == 0.0;
        assert hours == elapsed;
      }
    }
  }

  lemma SignOfProduct(a: real, b: real)
    requires b > 0.0
    ensures a * b > 0.0 <==> a > 0.0
  {
  }

  function NoCrossing(metric: Metric, status: Status, asOf: Option<real>, latest: Option<real>): Forecast {
    Forecast(metric.kind, status, asOf, metric.target, latest, None, None, None, None)
  }

  /** `segment[-k:]` of Python, where k == 0 keeps everything. */
  function Newest(segment: seq<Sample>, k: nat): seq<Sample> {
    if k == 0 || k >= |segment| then segment else segment[|segment| - k..]
  }

  function StaleAfter(metric: Metric, cadence: Option<real>): real {
    match cadence
    case None => metric.staleAfterSeconds
    case Some(c) => Max(metric.staleAfterSeconds, c * metric.gapFactor)
  }

  function EdgeSlack(metric: Metric, cadence: Option<real>): real {
    match cadence
    case None => 0.0
    case Some(c) => c * metric.gapFactor
  }

  /** The forecast made from a finished fit over the newest segment. */
  function FromFit(metric: Metric, newest: Sample, fit: Fit): Forecast {
    var crossesAt := Crossing(fit.valueAtAnchor, metric.target, fit.slopePerHour, fit.anchorAt);
    if crossesAt == None then
      NoCrossing(metric, NotDepleting, Some(newest.at), Some(newest.value)).(fit := Some(fit))
    else
      var status := if crossesAt.value - fit.anchorAt > metric.maxHorizonSeconds then BeyondHorizon else Ok;
      Forecast(metric.kind, status, Some(newest.at), metric.target, Some(newest.value), crossesAt,
               Crossing(fit.valueAtAnchor, metric.target, fit.slopeLowPerHour, fit.anchorAt),
               Crossing(fit.valueAtAnchor, metric.target, fit.slopeHighPerHour, fit.anchorAt),
               Some(fit))
  }

  /** The fit gates, on the newest segment and whether it starts at the lookback edge. */
  function FromSegment(metric: Metric, segment: seq<Sample>, truncated: bool, spread: Spread): Forecast
    requires segment != []
  {
    var newest := segment[|segment| - 1];
    var fitSamples := Newest(segment, metric.maxFitPoints);
    if |segment| < metric.minPoints then
      NoCrossing(metric, InsufficientPoints, Some(newest.at), Some(newest.value))
    else if newest.at - fitSamples[0].at < metric.minSpanSeconds then
      NoCrossing(metric, InsufficientSpan, Some(newest.at), Some(newest.value))
    else
      match FitLine(fitSamples, spread)
      case None => NoCrossing(metric, InsufficientPoints, Some(newest.at), Some(newest.value))
      case Some(fit) => FromFit(metric, newest, fit.(segmentPoints := |segment|, truncated := truncated))
  }

  /** Whether the lookback edge, rather than the device's history, chose where the segment begins. */
  predicate ReachedEdge(metric: Metric, first: Sample, cadence: Option<real>, windowStart: Option<real>) {
    windowStart == None || first.at - windowStart.value <= EdgeSlack(metric, cadence)
  }

  function NewestSegmentStart(samples: seq<Sample>, metric: Metric): (k: nat)
    requires samples != []
    ensures k < |samples|
  {
    LastSplit(samples, |samples|, metric.refillJump, GapLimit(samples, metric.gapFactor))
  }

  /** What the program answers for one device and one metric. `nowAware` is whether the supplied
      data time carries a timezone. */
  function ForecastOf(samples: seq<Sample>, metric: Metric, now: real, nowAware: bool,
                      windowStart: Option<real>, spread: Spread): Forecast
  {
    if samples == [] then NoCrossing(metric, NoData, None, None)
    else
      var newest := samples[|samples| - 1];
      if !IsValidSeries(samples) || !nowAware then
        NoCrossing(metric, InvalidSeries, if newest.aware then Some(newest.at) else None,
                   if newest.finite then Some(newest.value) else None)
      else
        var cadence := CadenceSeconds(samples);
        if now - newest.at > StaleAfter(metric, cadence) then
          NoCrossing(metric, Stale, Some(newest.at), Some(newest.value))
        else if newest.value <= metric.target then
          Forecast(metric.kind, AtOrBelowTarget, Some(newest.at), metric.target, Some(newest.value),
                   Some(newest.at), Some(newest.at), Some(newest.at), None)
        else
          var k := NewestSegmentStart(samples, metric);
          var truncated := k == 0 && ReachedEdge(metric, samples[k], cadence, windowStart);
          FromSegment(metric, samples[k..], truncated, spread)
  }

  /** The configured limit is a floor that the observed cadence may raise, and nothing else does. */
  method StaleLimit(metric: Metric, cadence: Option<real>) returns (staleAfter: real)
    ensures staleAfter >= metric.staleAfterSeconds
    ensures cadence.Some? ==> staleAfter >= cadence.value * metric.gapFactor
    ensures staleAfter != metric.staleAfterSeconds ==> cadence.Some? && staleAfter == cadence.value * metric.gapFactor
  {
    staleAfter := metric.staleAfterSeconds;
    if cadence.Some? {
      staleAfter := Max(staleAfter, cadence.value * metric.gapFactor);
    }
  }

  /** The three conditions of `StaleLimit` leave one value. */
  lemma StaleAfterIsTheLimit(metric: Metric, cadence: Option<real>, limit: real)
    ensures StaleAfter(metric, cadence) == limit <==>
              && limit >= metric.staleAfterSeconds
              && (cadence.Some? ==> limit >= cadence.value * metric.gapFactor)
              && (limit != metric.staleAfterSeconds ==> cadence.Some? && limit == cadence.value * metric.gapFactor)
  {
  }

  /** The entry point as the program runs it: gates in order, with `staleAfter` and `status`
      updated on the way. */
  method MakeForecast(samples: seq<Sample>, metric: Metric, now: real, nowAware: bool,
                      windowStart: Option<real>, spread: Spread) returns (fc: Forecast)
    ensures fc == ForecastOf(samples, metric, now, nowAware, windowStart, spread)
  {
    hide CadenceSeconds, FromSegment, NewestSegmentStart, IsValidSeries, StaleAfter, ReachedEdge;
    if samples == [] {
      return NoCrossing(metric, NoData, None, None);
    }
    var newest := samples[|samples| - 1];
    if !IsValidSeries(samples) || !nowAware {
      return NoCrossing(metric, InvalidSeries, if newest.aware then Some(newest.at) else None,
                        if newest.finite then Some(newest.value) else None);
    }
    var cadence := CadenceSeconds(samples);
    var staleAfter := StaleLimit(metric, cadence);
    StaleAfterIsTheLimit(metric, cadence, staleAfter);
    if now - newest.at > staleAfter {
      return NoCrossing(metric, Stale, Some(newest.at), Some(newest.value));
    }
    if newest.value <= metric.target {
      return Forecast(metric.kind, AtOrBelowTarget, Some(newest.at), metric.target, Some(newest.value),
                      Some(newest.at), Some(newest.at), Some(newest.at), None);
    }
    fc := FitNewestSegment(samples, metric, cadence, windowStart, spread);
  }

  /** The second half of the entry point: split, gate the newest segment, fit, extrapolate. */
  method FitNewestSegment(samples: seq<Sample>, metric: Metric, cadence: Option<real>,
                          windowStart: Option<real>, spread: Spread) returns (fc: Forecast)
    requires samples != []
    ensures var k := NewestSegmentStart(samples, metric);
            fc == FromSegment(metric, samples[k..],
                              k == 0 && ReachedEdge(metric, samples[k], cadence, windowStart), spread)
  {
    hide FitLine, FromFit, SplitSegments, LastSplit, GapLimit, ReachedEdge, ExtrapolatesFit;
    var newest := samples[|samples| - 1];
    var segments := SplitSegmentsLoop(samples, metric.refillJump, metric.gapFactor);
    NewestSegment(samples, metric.refillJump, metric.gapFactor);
    var segment := segments[|segments| - 1];
    if |segment| < metric.minPoints {
      return NoCrossing(metric, InsufficientPoints, Some(newest.at), Some(newest.value));
    }
    var fitSamples := Newest(segment, metric.maxFitPoints);
    var spanSeconds := fitSamples[|fitSamples| - 1].at - fitSamples[0].at;
    if spanSeconds < metric.minSpanSeconds {
      return NoCrossing(metric, InsufficientSpan, Some(newest.at), Some(newest.value));
    }
    var line := FitLine(fitSamples, spread);
    if line == None {
      return NoCrossing(metric, InsufficientPoints, Some(newest.at), Some(newest.value));
    }
    var truncated := |segments| == 1 && ReachedEdge(metric, segment[0], cadence, windowStart);
    var fit := line.value.(segmentPoints := |segment|, truncated := truncated);
    fc := Extrapolate(metric, newest, fit);
    OneForecastPerFit(metric, newest, fit, fc);
  }

  /** What a forecast from a finished fit says: a line that does not fall has no crossing and no band;
      otherwise each reported time is where its line meets the target, the band has an end for
      exactly the falling lines, and the crossing is beyond the horizon or within it. */
  ghost predicate ExtrapolatesFit(metric: Metric, newest: Sample, fit: Fit, fc: Forecast) {
    && fc.kind == metric.kind && fc.target == metric.target && fc.fit == Some(fit)
    && fc.asOf == Some(newest.at) && fc.latestValue == Some(newest.value)
    && if fit.slopePerHour >= 0.0 then
         fc.status == NotDepleting && fc.crossesAt == fc.crossesAtEarliest == fc.crossesAtLatest == None
       else
         && ReportsMeeting(fc.crossesAt, fit, fit.slopePerHour, metric.target)
         && ReportsMeeting(fc.crossesAtEarliest, fit, fit.slopeLowPerHour, metric.target)
         && ReportsMeeting(fc.crossesAtLatest, fit, fit.slopeHighPerHour, metric.target)
         && fc.status == if fc.crossesAt.value - fit.anchorAt <= metric.maxHorizonSeconds then Ok else BeyondHorizon
  }

  predicate ReportsMeeting(at: Option<real>, fit: Fit, slopePerHour: real, target: real) {
    match at
    case None => slopePerHour >= 0.0
    case Some(t) => slopePerHour < 0.0 && Meets(t, fit.valueAtAnchor, target, slopePerHour, fit.anchorAt)
  }

  lemma CrossingReported(at: Option<real>, fit: Fit, slopePerHour: real, target: real)
    ensures ReportsMeeting(at, fit, slopePerHour, target)
       <==> at == Crossing(fit.valueAtAnchor, target, slopePerHour, fit.anchorAt)
  {
    var crossing := Crossing(fit.valueAtAnchor, target, slopePerHour, fit.anchorAt);
    if at.Some? {
      CrossingMeetsTarget(at.value, fit.valueAtAnchor, target, slopePerHour, fit.anchorAt);
    }
  }

  /** There is exactly one such forecast. */
  lemma OneForecastPerFit(metric: Metric, newest: Sample, fit: Fit, fc: Forecast)
    ensures ExtrapolatesFit(metric, newest, fit, fc) <==> fc == FromFit(metric, newest, fit)
  {
    CrossingReported(fc.crossesAt, fit, fit.slopePerHour, metric.target);
    CrossingReported(fc.crossesAtEarliest, fit, fit.slopeLowPerHour, metric.target);
    CrossingReported(fc.crossesAtLatest, fit, fit.slopeHighPerHour, metric.target);
    hide Meets;
  }

  /** The end of the entry point: `status` is downgraded when the crossing is too far out. */
  method Extrapolate(metric: Metric, newest: Sample, fit: Fit) returns (fc: Forecast)
    ensures ExtrapolatesFit(metric, newest, fit, fc)
  {
    hide Crossing, ExtrapolatesFit;
    var crossesAt := Crossing(fit.valueAtAnchor, metric.target, fit.slopePerHour, fit.anchorAt);
    OneForecastPerFit(metric, newest, fit, FromFit(metric, newest, fit));
    if crossesAt == None {
      return Forecast(metric.kind, NotDepleting, Some(newest.at), metric.target, Some(newest.value),
                      None, None, None, Some(fit));
    }
    var status := Ok;
    if crossesAt.value - fit.anchorAt > metric.maxHorizonSeconds {
      status := BeyondHorizon;
    }
    return Forecast(metric.kind, status, Some(newest.at), metric.target, Some(newest.value), crossesAt,
                    Crossing(fit.valueAtAnchor, metric.target, fit.slopeLowPerHour, fit.anchorAt),
                    Crossing(fit.valueAtAnchor, metric.target, fit.slopeHighPerHour, fit.anchorAt),
                    Some(fit));
  }
}
