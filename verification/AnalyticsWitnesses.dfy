/** Telemetry that shows the limits of the analytics pass: the skip guard, and ties in the alert log. */
module AnalyticsWitnesses {
  import opened AlertRule
  import opened AnalyticsPass
  import opened AnalyticsStore
  import opened FitRobustness
  import opened ForecastGuarantees
  import opened ForecastModel
  import opened OrderStatistics
  import opened Segmentation
  import opened Series
  import opened TheilSen

  // ---------------------------------------------------------------- the skip guard

  const NEWEST_B: Row := Row("b", 12000.0, 50.0, 4.0)
  const NEWEST_A: Row := Row("a", 10000.0, 50.0, 4.0)
  const LATE_A: Row := Row("a", 9000.0, 50.0, 4.0)

  /** One sample: too old for the fleet. */
  lemma StatusOfOne(at: real, now: real, spread: Spread)
    requires now - at > WATER.staleAfterSeconds
    ensures ForecastOf([Sample(at, 50.0, true, true)], WATER, now, true, Some(WindowStart(WATER, now)), spread).status
         == Stale
  {
  }

  /** Two samples: their gap raises the staleness limit. */
  lemma StatusOfTwo(early: real, late: real, now: real, spread: Spread)
    requires early < late && now - late <= (late - early) * WATER.gapFactor
    ensures var samples := [Sample(early, 50.0, true, true), Sample(late, 50.0, true, true)];
            ForecastOf(samples, WATER, now, true, Some(WindowStart(WATER, now)), spread).status == InsufficientPoints
  {
    var samples := [Sample(early, 50.0, true, true), Sample(late, 50.0, true, true)];
    assert PositiveGaps(samples[1..]) == [];
    assert PositiveGaps(samples) == [late - early];
    MedianWithin([late - early], late - early, late - early);
    assert CadenceSeconds(samples) == Some(late - early);
    hide PositiveGaps, CadenceSeconds, NewestSegmentStart, FitLine, Newest;
  }

  lemma WindowsOfA(start: real)
    requires start < 9000.0
    ensures SamplesSince([NEWEST_A, NEWEST_B], "a", Water, start) == [Sample(10000.0, 50.0, true, true)]
    ensures SamplesSince([LATE_A, NEWEST_A, NEWEST_B], "a", Water, start) ==
            [Sample(9000.0, 50.0, true, true), Sample(10000.0, 50.0, true, true)]
    ensures SamplesSince([NEWEST_B], "a", Water, start) == []
  {
    SamplesAppend([], NEWEST_B, "a", Water, start);
    SamplesAppend([], NEWEST_A, "a", Water, start);
    SamplesAppend([NEWEST_A], NEWEST_B, "a", Water, start);
    SamplesAppend([], LATE_A, "a", Water, start);
    SamplesAppend([LATE_A], NEWEST_A, "a", Water, start);
    SamplesAppend([LATE_A, NEWEST_A], NEWEST_B, "a", Water, start);
    assert [] + [NEWEST_B] == [NEWEST_B] && [] + [NEWEST_A] == [NEWEST_A] && [] + [LATE_A] == [LATE_A];
    assert [NEWEST_A] + [NEWEST_B] == [NEWEST_A, NEWEST_B];
    assert [LATE_A] + [NEWEST_A] == [LATE_A, NEWEST_A];
    assert [LATE_A, NEWEST_A] + [NEWEST_B] == [LATE_A, NEWEST_A, NEWEST_B];
    hide SamplesSince;
  }

  /** A late row, older than the device's newest and the fleet's: it moves no watermark, the guard skips
      the pass, and the latest row keeps a status that the model no longer gives. A full pass over the
      same rows would rewrite that row. */
  lemma LateRowMovesStatus(s: Settings, m: nat, tables: Tables)
    requires ValidSettings(s) && m < |s.metrics| && s.metrics[m] == WATER
    requires Behind([NEWEST_A, NEWEST_B], tables) && Agrees([NEWEST_A, NEWEST_B], 12000.0, s, tables)
    ensures var before, after := [NEWEST_A, NEWEST_B], [LATE_A, NEWEST_A, NEWEST_B];
            && Ordered(before) && Ordered(after) && Grows(before, after)
            && DeviceNewest(before, "a") == DeviceNewest(after, "a") == Some(10000.0)
            && !Agrees(after, 12000.0, s, tables)
            && WritesForecast(At(tables, Channel("a", Water)), JobFor(after, "a", WATER, 12000.0, s.spread).fc)
  {
    hide JobFor, SamplesSince, DeviceNewest, Behind, Agrees, Ordered;
    var before, after := [NEWEST_A, NEWEST_B], [LATE_A, NEWEST_A, NEWEST_B];
    LateRowAnswers(s.spread);
    SkipAgreesIff(before, after, 12000.0, s, tables);
    assert !AnswerKept(before, after, 12000.0, s, "a", s.metrics[m]);
    WasWritten(before, 12000.0, s, tables, "a", m);
  }

  lemma LateRowAnswers(spread: Spread)
    ensures var before, after := [NEWEST_A, NEWEST_B], [LATE_A, NEWEST_A, NEWEST_B];
            && Ordered(before) && Ordered(after) && Grows(before, after)
            && DeviceNewest(before, "a") == DeviceNewest(after, "a") == Some(10000.0)
            && SamplesSince(before, "a", Water, WindowStart(WATER, 12000.0)) != []
            && SamplesSince(after, "a", Water, WindowStart(WATER, 12000.0)) != []
            && var was := JobFor(before, "a", WATER, 12000.0, spread).fc;
               var now := JobFor(after, "a", WATER, 12000.0, spread).fc;
               was.asOf == now.asOf == Some(10000.0) && was.status == Stale && now.status == InsufficientPoints
  {
    hide ForecastOf, SamplesSince, DeviceNewest;
    var before, after := [NEWEST_A, NEWEST_B], [LATE_A, NEWEST_A, NEWEST_B];
    WindowsOfA(WindowStart(WATER, 12000.0));
    StatusOfOne(10000.0, 12000.0, spread);
    StatusOfTwo(9000.0, 10000.0, 12000.0, spread);
    NewestOfA();
    assert NEWEST_A in after && NEWEST_B in after;
    JobWatermark(before, "a", WATER, 12000.0, spread);
    JobWatermark(after, "a", WATER, 12000.0, spread);
  }

  lemma WasWritten(rows: seq<Row>, now: real, s: Settings, tables: Tables, d: string, m: nat)
    requires m < |s.metrics| && Agrees(rows, now, s, tables)
    requires SamplesSince(rows, d, s.metrics[m].kind, WindowStart(s.metrics[m], now)) != []
    ensures var h, fc := At(tables, Channel(d, s.metrics[m].kind)), JobFor(rows, d, s.metrics[m], now, s.spread).fc;
            fc.asOf.Some? && fc.asOf.value in h.forecasts && h.forecasts[fc.asOf.value].status == fc.status
  {
    hide JobFor, SamplesSince;
    assert AgreesOn(rows, now, s, tables, d, s.metrics[m]);
  }

  lemma NewestOfA()
    ensures DeviceNewest([NEWEST_A, NEWEST_B], "a") == Some(10000.0)
    ensures DeviceNewest([LATE_A, NEWEST_A, NEWEST_B], "a") == Some(10000.0)
  {
    assert [NEWEST_A, NEWEST_B][..1] == [NEWEST_A];
    assert [LATE_A, NEWEST_A, NEWEST_B][..2] == [LATE_A, NEWEST_A];
  }

  /** A device whose first row is older than the fleet's newest gets no forecast until that moves. */
  lemma NewDeviceIsSkipped(s: Settings, m: nat, tables: Tables)
    requires ValidSettings(s) && m < |s.metrics| && s.metrics[m] == WATER
    requires Behind([NEWEST_B], tables) && Agrees([NEWEST_B], 12000.0, s, tables)
    ensures var before, after := [NEWEST_B], [NEWEST_A, NEWEST_B];
            && Ordered(before) && Ordered(after) && Grows(before, after)
            && !Agrees(after, 12000.0, s, tables)
  {
    var before, after := [NEWEST_B], [NEWEST_A, NEWEST_B];
    WindowsOfA(WindowStart(WATER, 12000.0));
    hide ForecastOf, SamplesSince, DeviceNewest, Behind, Agrees;
    assert NEWEST_B in after;
    SkipAgreesIff(before, after, 12000.0, s, tables);
    assert !AnswerKept(before, after, 12000.0, s, "a", s.metrics[m]);
  }

  // ---------------------------------------------------------------- a tie in the alert log

  /** A tank read every hour: 0.3 pct per hour for the first 100 hours, 1 pct per hour after that. */
  function WaterAt(i: nat): real {
    if i < 100 then 80.0 - 0.3 * i as real else 50.0 - (i - 100) as real
  }

  function TankRow(i: nat): Row { Row("a", 3600.0 * i as real, WaterAt(i), 4.0) }

  /** The rows of hours lo up to hi. */
  function TankRows(lo: nat, hi: nat): (rows: seq<Row>)
    requires lo <= hi
    ensures |rows| == hi - lo && forall i :: 0 <= i < hi - lo ==> rows[i] == TankRow(lo + i)
  {
    seq(hi - lo, i requires 0 <= i < hi - lo => TankRow(lo + i))
  }

  function TankSample(i: nat): Sample { Sample(3600.0 * i as real, WaterAt(i), true, true) }

  function TankSamples(lo: nat, hi: nat): (samples: seq<Sample>)
    requires lo <= hi
    ensures |samples| == hi - lo
  {
    seq(hi - lo, i requires 0 <= i < hi - lo => TankSample(lo + i))
  }

  lemma {:induction false} TankWindow(lo: nat, hi: nat, start: real)
    requires lo <= hi && start < 0.0
    ensures SamplesSince(TankRows(lo, hi), "a", Water, start) == TankSamples(lo, hi)
  {
    if lo < hi {
      hide TankRows, TankSamples, SamplesSince, WaterAt;
      TankWindow(lo, hi - 1, start);
      TankGrows(lo, hi);
      SamplesAppend(TankRows(lo, hi - 1), TankRow(hi - 1), "a", Water, start);
    }
  }

  lemma TankGrows(lo: nat, hi: nat)
    requires lo < hi
    ensures TankRows(lo, hi) == TankRows(lo, hi - 1) + [TankRow(hi - 1)]
    ensures TankSamples(lo, hi) == TankSamples(lo, hi - 1) + [TankSample(hi - 1)]
  {
    hide WaterAt;
  }

  /** Another device reports ten minutes after hour 135. */
  const OTHER: Row := Row("b", 486600.0, 50.0, 4.0)

  /** What three passes find: the steep hours; then also the hours before them, delivered late, and a
      newer row of another device; then one more hour of the first device. */
  function Telemetry(pass: nat): seq<Row> {
    match pass
    case 0 => TankRows(100, 136)
    case 1 => TankRows(0, 136) + [OTHER]
    case _ => TankRows(0, 137) + [OTHER]
  }

  /** The data time of each pass. */
  function DataTime(pass: nat): real {
    match pass
    case 0 => 486000.0
    case 1 => 486600.0
    case _ => 489600.0
  }

  /** The window of the first device in each pass. */
  function TankWindowOf(pass: nat): seq<Sample> {
    match pass
    case 0 => TankSamples(100, 136)
    case 1 => TankSamples(0, 136)
    case _ => TankSamples(0, 137)
  }

  lemma TankOrdered(lo: nat, hi: nat)
    requires lo <= hi
    ensures Ordered(TankRows(lo, hi)) && Ordered(TankRows(lo, hi) + [OTHER])
  {
    var rows := TankRows(lo, hi);
    forall i, j | 0 <= i < j < |rows| ensures rows[i].at < rows[j].at {
      assert rows[i] == TankRow(lo + i) && rows[j] == TankRow(lo + j);
    }
    assert forall i :: 0 <= i < |rows| ==> (rows + [OTHER])[i] == rows[i] && rows[i].device != OTHER.device;
  }

  lemma NewestIs(rows: seq<Row>, last: nat)
    requires last < |rows| && forall i :: 0 <= i < |rows| ==> rows[i].at <= rows[last].at
    ensures FleetNewest(rows) == Some(rows[last].at)
  {
  }

  lemma TelemetryIsReal(pass: nat)
    requires pass < 3
    ensures Ordered(Telemetry(pass)) && Telemetry(pass) != []
    ensures FleetNewest(Telemetry(pass)) == Some(DataTime(pass))
    ensures pass > 0 ==> Grows(Telemetry(pass - 1), Telemetry(pass))
  {
    hide FleetNewest, Ordered, TankRows;
    var rows := Telemetry(pass);
    if pass == 0 {
      TankOrdered(100, 136);
      NewestIs(rows, 35);
    } else if pass == 1 {
      TankOrdered(0, 136);
      NewestIs(rows, 136);
      forall r | r in Telemetry(0) ensures r in rows {
        var i :| 0 <= i < 36 && Telemetry(0)[i] == r;
        assert rows[100 + i] == r;
      }
    } else {
      TankOrdered(0, 137);
      NewestIs(rows, 136);
      forall r | r in Telemetry(1) ensures r in rows {
        var i :| 0 <= i < 137 && Telemetry(1)[i] == r;
        assert rows[if i < 136 then i else 137] == r;
      }
    }
  }

  lemma WindowOfPass(pass: nat)
    requires pass < 3
    ensures SamplesSince(Telemetry(pass), "a", Water, WindowStart(WATER, DataTime(pass))) == TankWindowOf(pass)
  {
    hide SamplesSince, TankRows, TankSamples;
    var start := WindowStart(WATER, DataTime(pass));
    TankWindow(100, 136, start);
    TankWindow(0, 136, start);
    TankWindow(0, 137, start);
    SamplesAppend(TankRows(0, 136), OTHER, "a", Water, start);
    SamplesAppend(TankRows(0, 137), OTHER, "a", Water, start);
  }

  /** A fresh water series above the target without a split, long enough in both ways, is fitted whole. */
  lemma WholeSeriesFit(samples: seq<Sample>, now: real, windowStart: Option<real>, spread: Spread)
    requires IsValidSeries(samples) && 36 <= |samples| <= 300
    requires samples[|samples| - 1].value > WATER.target
    requires now - samples[|samples| - 1].at <= WATER.staleAfterSeconds
    requires samples[|samples| - 1].at - samples[0].at >= WATER.minSpanSeconds
    requires forall i :: 0 < i < |samples| ==>
               !SplitsAt(samples, i, WATER.refillJump, GapLimit(samples, WATER.gapFactor))
    ensures var fc, line := ForecastOf(samples, WATER, now, true, windowStart, spread), FitLine(samples, spread);
            && line.Some? && fc.asOf == Some(samples[|samples| - 1].at)
            && fc.crossesAt == Crossing(line.value.valueAtAnchor, WATER.target, line.value.slopePerHour,
                                        samples[|samples| - 1].at)
  {
    hide ForecastOf, CadenceSeconds, SplitsAt, GapLimit, IsValidSeries, FitLine, ReachedEdge, Crossing;
    var n := |samples|;
    NewestStart(samples, n, 0, WATER.refillJump, GapLimit(samples, WATER.gapFactor));
    StartIsLastSplit(samples, WATER);
    assert samples[0..] == samples;
    FitExists(samples, spread);
    PastTheGates(samples, WATER, now, windowStart, spread);
  }

  lemma TankIsSmooth(lo: nat, hi: nat)
    requires lo + 2 <= hi
    ensures var samples := TankSamples(lo, hi);
            && IsValidSeries(samples)
            && forall i :: 0 < i < |samples| ==>
                 !SplitsAt(samples, i, WATER.refillJump, GapLimit(samples, WATER.gapFactor))
  {
    hide CadenceSeconds, TankSamples;
    var samples := TankSamples(lo, hi);
    forall i | 0 < i < |samples|
      ensures samples[i].at - samples[i - 1].at == 3600.0 && samples[i].value < samples[i - 1].value
    {
      TankSampleAt(lo, hi, i);
      TankSampleAt(lo, hi, i - 1);
    }
    forall i | 0 <= i < |samples| ensures samples[i].finite && samples[i].aware {
      TankSampleAt(lo, hi, i);
    }
    CadenceAtLeast(samples, 3600.0, 3600.0);
  }

  lemma TankSampleAt(lo: nat, hi: nat, i: nat)
    requires lo <= hi && i < hi - lo
    ensures TankSamples(lo, hi)[i] == TankSample(lo + i)
  {
  }

  /** The first pass sees the steep hours only. */
  lemma SteepFit(spread: Spread)
    ensures var line := FitLine(TankSamples(100, 136), spread);
            line.Some? && line.value.slopePerHour == -1.0 && line.value.valueAtAnchor == 15.0
  {
    var samples, run := TankSamples(100, 136), Run(360000.0, 50.0, -1.0);
    TankIsSmooth(100, 136);
    hide FitLine, IsValidSeries;
    FitOfRun(samples, run, spread);
  }

  lemma {:induction false} FirstOnLine(ps: seq<Point>, count: nat, slope: real, level: real)
    requires count <= |ps| && forall i :: 0 <= i < count ==> OnLine(ps[i], slope, level)
    ensures CountOnLine(ps, slope, level) >= count
  {
    hide OnLine;
    if count > 0 {
      FirstOnLine(ps[1..], count - 1, slope, level);
    }
  }

  lemma ShallowPoints(hi: nat, level: real)
    requires 101 <= hi && level == 80.0 - 0.3 * (hi - 1) as real
    ensures var ps := Points(TankSamples(0, hi));
            && LinePointsApart(ps, -0.3, level)
            && CountOnLine(ps, -0.3, level) >= 101
  {
    hide CountOnLine, TankSamples, WaterAt;
    var ps := Points(TankSamples(0, hi));
    TankSampleAt(0, hi, hi - 1);
    forall i | 0 <= i < |ps| ensures ps[i].x == i as real - (hi - 1) as real && ps[i].y == WaterAt(i) {
      TankSampleAt(0, hi, i);
    }
    forall i | 0 <= i < 101 ensures OnLine(ps[i], -0.3, level) {
      ShallowHours(i);
    }
    FirstOnLine(ps, 101, -0.3, level);
  }

  lemma ShallowHours(i: nat)
    requires i <= 100
    ensures WaterAt(i) == 80.0 - 0.3 * i as real
  {
  }

  lemma HundredIsMajority(g: nat, n: nat)
    requires 101 <= g && n <= 137
    ensures 2 * Pairs(g) > Pairs(n)
  {
    hide Pairs;
    PairsGrow(101, g);
    PairsGrow(n, 137);
    PairsClosedForm(101);
    PairsClosedForm(137);
  }

  lemma {:induction false} PairsGrow(m: nat, n: nat)
    requires m <= n
    ensures Pairs(m) <= Pairs(n)
  {
    if m < n {
      PairsGrow(m, n - 1);
    }
  }

  /** The later ones see a hundred shallow hours before them, which outvote the steep ones. */
  lemma ShallowFit(hi: nat, spread: Spread)
    requires 136 <= hi <= 137
    ensures var line := FitLine(TankSamples(0, hi), spread);
            line.Some? && line.value.slopePerHour == -0.3 && line.value.valueAtAnchor == 80.0 - 0.3 * (hi - 1) as real
  {
    hide FitLine, CountOnLine, Pairs, TankSamples, Points, LinePointsApart;
    var level := 80.0 - 0.3 * (hi - 1) as real;
    ShallowPoints(hi, level);
    HundredIsMajority(CountOnLine(Points(TankSamples(0, hi)), -0.3, level), hi);
    Breakdown(TankSamples(0, hi), spread, -0.3, level);
  }

  /** What the model says in each pass: a horizon of five hours, then two of more than four days. */
  lemma ForecastOfPass(pass: nat, spread: Spread)
    requires pass < 3
    ensures var fc := JobFor(Telemetry(pass), "a", WATER, DataTime(pass), spread).fc;
            && fc.crossesAt.Some? && fc.asOf == Some(if pass == 2 then 489600.0 else 486000.0)
            && if pass == 0 then Horizon(fc) == 18000.0 else Horizon(fc) > 345600.0
  {
    hide SamplesSince, ForecastOf, FitLine, IsValidSeries, TankSamples, Telemetry, SplitsAt, GapLimit;
    var samples, now := TankWindowOf(pass), DataTime(pass);
    WindowOfPass(pass);
    var lo, hi := if pass == 0 then 100 else 0, if pass == 2 then 137 else 136;
    TankIsSmooth(lo, hi);
    TankSampleAt(lo, hi, 0);
    TankSampleAt(lo, hi, hi - lo - 1);
    WholeSeriesFit(samples, now, Some(WindowStart(WATER, now)), spread);
    if pass == 0 {
      SteepFit(spread);
    } else {
      ShallowFit(hi, spread);
    }
  }

  const TANK: Channel := Channel("a", Water)

  function JobsOfPass(pass: nat, s: Settings): seq<Job>
    requires s.metrics != []
  {
    Plan(Telemetry(pass), DataTime(pass), s)
  }

  function AfterPass(tables: Tables, pass: nat, s: Settings, states: map<Channel, AlertState>): Tables
    requires s.metrics != []
  {
    Apply(tables, Writes(JobsOfPass(pass, s)), states, s.rule)
  }

  function TankForecast(pass: nat, s: Settings): Forecast {
    JobFor(Telemetry(pass), "a", WATER, DataTime(pass), s.spread).fc
  }

  lemma LogAfterPass(tables: Tables, pass: nat, s: Settings, m: nat, states: map<Channel, AlertState>)
    requires pass < 3 && ValidSettings(s) && m < |s.metrics| && s.metrics[m] == WATER
    ensures var h, read := At(tables, TANK), Lookup(states, TANK);
            At(AfterPass(tables, pass, s, states), TANK).Log() ==
            RecordAlert(h, WATER, TankForecast(pass, s), read, s.rule).Log()
  {
    hide SamplesSince, Telemetry, ForecastOf, Ordered, Apply, Writes, Plan, TankSamples, AlertTransition;
    TelemetryIsReal(pass);
    WindowOfPass(pass);
    assert |TankWindowOf(pass)| > 0;
    PassDecides(Telemetry(pass), tables, DataTime(pass), s, states, "a", m);
    var h := At(tables, TANK);
    assert RecordForecast(h, TankForecast(pass, s)).Log() == h.Log();
  }

  /** Two passes over real rows record both states at one watermark: the second one, run after rows
      older than the device's newest arrived late, sees another line through the same last sample. */
  lemma TieIsRecorded(s: Settings, m: nat, reads0: map<Channel, AlertState>, reads1: map<Channel, AlertState>)
    requires ValidSettings(s) && m < |s.metrics| && s.metrics[m] == WATER && s.rule.clearFactor <= 2.0
    requires LegalStates(map[], reads0) && LegalStates(AfterPass(map[], 0, s, reads0), reads1)
    ensures At(AfterPass(AfterPass(map[], 0, s, reads0), 1, s, reads1), TANK).Log() ==
            [AlertState(Firing, 486000.0), AlertState(Cleared, 486000.0)]
  {
    hide JobFor, AfterPass, LegalStates;
    var first := AfterPass(map[], 0, s, reads0);
    LogAfterPass(map[], 0, s, m, reads0);
    LogAfterPass(first, 1, s, m, reads1);
    ForecastOfPass(0, s.spread);
    ForecastOfPass(1, s.spread);
    ReadOf(map[], reads0);
    ReadOf(first, reads1);
  }

  lemma ReadOf(tables: Tables, states: map<Channel, AlertState>)
    requires LegalStates(tables, states)
    ensures LegalRead(At(tables, TANK), Lookup(states, TANK))
  {
  }

  /** The third pass may then read the firing decision and record a second cleared one after the first:
      the shape is lost, and with another read the same pass would have recorded nothing. */
  lemma ClearedTwice(s: Settings, m: nat, reads0: map<Channel, AlertState>, reads1: map<Channel, AlertState>)
    returns (reads2: map<Channel, AlertState>)
    requires ValidSettings(s) && m < |s.metrics| && s.metrics[m] == WATER && s.rule.clearFactor <= 2.0
    requires LegalStates(map[], reads0) && LegalStates(AfterPass(map[], 0, s, reads0), reads1)
    ensures var tied := AfterPass(AfterPass(map[], 0, s, reads0), 1, s, reads1);
            && LegalStates(tied, reads2)
            && At(AfterPass(tied, 2, s, reads2), TANK).Log() ==
               [AlertState(Firing, 486000.0), AlertState(Cleared, 486000.0), AlertState(Cleared, 489600.0)]
            && !AllWellShaped(AfterPass(tied, 2, s, reads2), s.rule)
            && !RepeatsQuietly(tied, JobsOfPass(2, s), s.rule)
  {
    hide JobFor, AfterPass, LegalStates, JobsOfPass, RepeatsQuietly;
    var tied := AfterPass(AfterPass(map[], 0, s, reads0), 1, s, reads1);
    TieIsRecorded(s, m, reads0, reads1);
    var h := At(tied, TANK);
    assert h.Log()[0] == AlertState(Firing, 486000.0);
    reads2 := ReadsWith(tied, TANK, AlertState(Firing, 486000.0));
    LogAfterPass(tied, 2, s, m, reads2);
    ForecastOfPass(2, s.spread);
    var log := At(AfterPass(tied, 2, s, reads2), TANK).Log();
    assert !MayFollow(log[1], log[2], s.rule);
    assert IsTopTie(h, 486000.0);
    NotQuiet(tied, s, m, reads0, reads1);
  }

  lemma NotQuiet(tied: Tables, s: Settings, m: nat, reads0: map<Channel, AlertState>, reads1: map<Channel, AlertState>)
    requires ValidSettings(s) && m < |s.metrics| && s.metrics[m] == WATER
    requires tied == AfterPass(AfterPass(map[], 0, s, reads0), 1, s, reads1)
    requires Ambiguous(At(tied, TANK), WATER, TankForecast(2, s), s.rule)
    ensures !RepeatsQuietly(tied, JobsOfPass(2, s), s.rule)
  {
    hide ForecastOf, Ambiguous, Telemetry, RepeatsQuietly, Apply, Writes, Plan, Behind, Ordered, SamplesSince,
         PassReady;
    TelemetryIsReal(0);
    TelemetryIsReal(1);
    TelemetryIsReal(2);
    WindowOfPass(2);
    assert |TankWindowOf(2)| > 0;
    PassKeepsBehind(map[], 0, s, reads0);
    PassKeepsBehind(AfterPass(map[], 0, s, reads0), 1, s, reads1);
    GrowthKeepsBehind(Telemetry(1), Telemetry(2), tied);
    PlanIsReady(Telemetry(2), tied, DataTime(2), s);
    var k := WindowHasJob(Telemetry(2), DataTime(2), s, "a", m);
    DecidingTieRepeats(tied, JobsOfPass(2, s), k, s.rule);
  }

  lemma PassKeepsBehind(tables: Tables, pass: nat, s: Settings, states: map<Channel, AlertState>)
    requires pass < 3 && ValidSettings(s)
    requires if pass == 0 then tables == map[] else Behind(Telemetry(pass - 1), tables)
    ensures Behind(Telemetry(pass), AfterPass(tables, pass, s, states))
  {
    hide Telemetry, Apply, Plan, Ordered;
    var rows, jobs := Telemetry(pass), JobsOfPass(pass, s);
    TelemetryIsReal(pass);
    if pass > 0 {
      TelemetryIsReal(pass - 1);
      GrowthKeepsBehind(Telemetry(pass - 1), rows, tables);
    }
    forall i | 0 <= i < |Writes(jobs)| ensures AtNewest(rows, Writes(jobs)[i].job) {
      WriteJob(jobs, i);
      PlanAtNewest(rows, DataTime(pass), s, i / 2);
    }
    ApplyKeepsBehind(rows, tables, Writes(jobs), states, s.rule);
  }
}
