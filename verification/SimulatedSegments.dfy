/** The simulator and the forecasting core together: the segmenter finds exactly the simulator's
    refills and recharges, and the fit recovers the simulated depletion rate. */
module SimulatedSegments {
  import opened Dynamics
  import opened FitRobustness
  import opened ForecastModel
  import opened Segmentation
  import opened Series
  import opened TheilSen

  function SampleOf(d: Device, n: nat, kind: Kind): Sample
    requires n < |d.draws|
  {
    var r := Report(AwakeAt(d, n), d.draws[n]);
    Sample(r.measuredAt, if kind == Water then r.waterLevel else r.batteryVoltage, true, true)
  }

  /** The samples of wakes lo up to hi, with no check-in missed. */
  function SeriesOf(d: Device, lo: nat, hi: nat, kind: Kind): (r: seq<Sample>)
    requires lo <= hi <= |d.draws|
    ensures |r| == hi - lo
  {
    seq(hi - lo, i requires 0 <= i < hi - lo => SampleOf(d, lo + i, kind))
  }

  lemma SeriesAt(d: Device, lo: nat, hi: nat, kind: Kind, j: nat)
    requires lo <= hi <= |d.draws| && j < hi - lo
    ensures SeriesOf(d, lo, hi, kind)[j] == SampleOf(d, lo + j, kind)
    ensures SeriesOf(d, lo, hi, kind)[j].at == AwakeAt(d, lo + j).at
  {
  }

  // ---------------------------------------------------------------- the gap rule

  /** The longest time between two wakes, with the cadence jitter at its cap. */
  function LongestHours(d: Device): real { 1.25 * d.interval / 3600.0 }

  lemma WakesAreSpaced(d: Device, n: nat)
    requires ValidDevice(d) && 0 < n < |d.draws|
    ensures 0.75 * d.interval <= AwakeAt(d, n).at - AwakeAt(d, n - 1).at <= 1.25 * d.interval
    ensures StateAt(d, n).at - StateAt(d, n).prevAt == AwakeAt(d, n).at - AwakeAt(d, n - 1).at
  {
    assert InRange(d, d.draws[n - 1]);
  }

  lemma SeriesGaps(d: Device, lo: nat, hi: nat, kind: Kind)
    requires ValidDevice(d) && lo <= hi <= |d.draws|
    ensures var series := SeriesOf(d, lo, hi, kind);
            forall j :: 0 < j < |series| ==> 0.75 * d.interval <= series[j].at - series[j - 1].at <= 1.25 * d.interval
  {
    hide AwakeAt, StateAt, SampleOf;
    var series := SeriesOf(d, lo, hi, kind);
    forall j | 0 < j < |series|
      ensures 0.75 * d.interval <= series[j].at - series[j - 1].at <= 1.25 * d.interval
    {
      SeriesAt(d, lo, hi, kind, j);
      SeriesAt(d, lo, hi, kind, j - 1);
      WakesAreSpaced(d, lo + j);
      assert lo + j - 1 == lo + (j - 1);
    }
  }

  lemma LimitCoversGap(cadence: Option<real>, interval: real, gapFactor: real)
    requires cadence.Some? && 0.0 < interval && 0.75 * interval <= cadence.value && gapFactor * 0.75 >= 1.25
    ensures LimitOf(cadence, gapFactor).Some? && 1.25 * interval <= LimitOf(cadence, gapFactor).value
  {
    ProductMonotone(gapFactor, gapFactor, 0.75 * interval, cadence.value);
    ProductMonotone(1.25, gapFactor * 0.75, interval, interval);
  }

  /** No gap between wakes is ever implausible. */
  lemma GapRuleNeverFires(d: Device, lo: nat, hi: nat, kind: Kind, gapFactor: real, i: nat)
    requires ValidDevice(d) && lo <= hi <= |d.draws| && 0 < i < hi - lo
    requires gapFactor * 0.75 >= 1.25
    ensures var series := SeriesOf(d, lo, hi, kind);
            var limit := GapLimit(series, gapFactor);
            limit.Some? && series[i].at - series[i - 1].at <= limit.value
  {
    hide SeriesOf, CadenceSeconds, LimitOf;
    var series := SeriesOf(d, lo, hi, kind);
    SeriesGaps(d, lo, hi, kind);
    CadenceAtLeast(series, 0.75 * d.interval, 1.25 * d.interval);
    LimitCoversGap(CadenceSeconds(series), d.interval, gapFactor);
  }

  // ---------------------------------------------------------------- water

  /** A wake never uses up more than 60 pct of the tank. */
  predicate SlowDepletion(d: Device) {
    d.params.depletionPctPerHour * LongestHours(d) <= 60.0
  }

  lemma ElapsedInRange(d: Device, n: nat)
    requires ValidDevice(d) && 0 < n < |d.draws|
    ensures 0.0 < ElapsedHours(StateAt(d, n)) <= LongestHours(d)
  {
    hide StateAt, AwakeAt;
    WakesAreSpaced(d, n);
  }

  lemma RateTimesElapsed(rate: real, elapsed: real, longest: real, most: real)
    requires 0.0 < rate && 0.0 < elapsed <= longest && rate * longest <= most
    ensures 0.0 < rate * elapsed <= most
  {
    ProductMonotone(rate, rate, elapsed, longest);
  }

  /** A wake starts from what the previous one left. */
  lemma StateStep(d: Device, n: nat)
    requires 0 < n < |d.draws|
    ensures StateAt(d, n).level == AwakeAt(d, n - 1).level && StateAt(d, n).battery == AwakeAt(d, n - 1).battery
    ensures AwakeAt(d, n) == Wake(d, StateAt(d, n), d.draws[n])
  {
  }

  /** Between refills the level never rises; a refill lifts it by more than 7 pct. */
  lemma WaterStep(d: Device, n: nat)
    requires ValidDevice(d) && SlowDepletion(d) && 0 < n < |d.draws|
    ensures var before, after := AwakeAt(d, n - 1).level, AwakeAt(d, n).level;
            if Refills(d, StateAt(d, n), d.draws[n]) then before < 85.0 && after >= 92.0 else after <= before
  {
    hide StateAt, AwakeAt, Refills, Wake, SlowDepletion, WaterUsed;
    StateStep(d, n);
    LevelNonNegative(d, n - 1);
    UsedPerWake(d, n);
    var s := StateAt(d, n);
    assert InRange(d, d.draws[n]);
    LevelStep(d, s, d.draws[n]);
  }

  lemma UsedPerWake(d: Device, n: nat)
    requires ValidDevice(d) && SlowDepletion(d) && 0 < n < |d.draws|
    ensures 0.0 < WaterUsed(d, StateAt(d, n)) <= 60.0
  {
    hide StateAt, AwakeAt, ElapsedHours, LongestHours;
    ElapsedInRange(d, n);
    RateTimesElapsed(d.params.depletionPctPerHour, ElapsedHours(StateAt(d, n)), LongestHours(d), 60.0);
  }

  lemma LevelStep(d: Device, s: State, draw: Draw)
    requires ValidDevice(d) && InRange(d, draw) && s.level >= 0.0 && 0.0 < WaterUsed(d, s) <= 60.0
    ensures if Refills(d, s, draw) then s.level < 85.0 && Wake(d, s, draw).level >= 92.0
            else Wake(d, s, draw).level <= s.level
  {
    hide WaterUsed, VoltsUsed;
  }

  lemma {:induction false} LevelNonNegative(d: Device, n: nat)
    requires ValidDevice(d) && n < |d.draws|
    ensures 0.0 <= AwakeAt(d, n).level
  {
    assert InRange(d, d.draws[n]);
  }

  lemma WaterSplit(d: Device, lo: nat, hi: nat, i: nat)
    requires ValidDevice(d) && SlowDepletion(d) && lo <= hi <= |d.draws| && 0 < i < hi - lo
    ensures var series := SeriesOf(d, lo, hi, Water);
            SplitsAt(series, i, WATER.refillJump, GapLimit(series, WATER.gapFactor))
            <==> Refills(d, StateAt(d, lo + i), d.draws[lo + i])
  {
    hide GapLimit, RoundTo, Refills, AwakeAt, StateAt;
    GapRuleNeverFires(d, lo, hi, Water, WATER.gapFactor, i);
    var n := lo + i;
    WaterStep(d, n);
    var before, after := AwakeAt(d, n - 1).level, AwakeAt(d, n).level;
    assert lo + i - 1 == lo + (i - 1);
    if Refills(d, StateAt(d, n), d.draws[n]) {
      Tenths(before);
      Tenths(after);
      SeriesAt(d, lo, hi, Water, i);
      SeriesAt(d, lo, hi, Water, i - 1);
    } else {
      RoundMonotone(after, before, 10.0);
      SeriesAt(d, lo, hi, Water, i);
      SeriesAt(d, lo, hi, Water, i - 1);
    }
  }

  /** The segments of the reported water series start exactly at the refill wakes. */
  lemma SegmentsAreRefills(d: Device, lo: nat, hi: nat, i: nat)
    requires ValidDevice(d) && SlowDepletion(d) && lo <= hi <= |d.draws| && 0 < i < hi - lo
    ensures StartsAt(SplitSegments(SeriesOf(d, lo, hi, Water), WATER.refillJump, WATER.gapFactor), i)
       <==> Refills(d, StateAt(d, lo + i), d.draws[lo + i])
  {
    WaterSplit(d, lo, hi, i);
    hide SplitsAt, GapLimit, Refills, StateAt, SeriesOf, SplitSegments;
    var series := SeriesOf(d, lo, hi, Water);
    NonEmptySplit(series, WATER.refillJump, WATER.gapFactor);
    SegmentStarts(series, |series|, WATER.refillJump, GapLimit(series, WATER.gapFactor), i);
  }

  // ---------------------------------------------------------------- the message contract

  lemma {:induction false} LevelAtMostFull(d: Device, n: nat)
    requires ValidDevice(d) && n < |d.draws|
    ensures AwakeAt(d, n).level <= 100.0
  {
    assert InRange(d, d.draws[n]);
    if n == 0 {
      assert WaterUsed(d, StateAt(d, 0)) == 0.0;
    } else {
      LevelAtMostFull(d, n - 1);
      StateStep(d, n);
      hide StateAt, AwakeAt, ElapsedHours;
      ElapsedInRange(d, n);
      assert WaterUsed(d, StateAt(d, n)) >= 0.0;
    }
  }

  /** Every simulated reading meets the message contract, so the generator never fails validation. */
  lemma ReadingsMeetContract(d: Device, n: nat)
    requires ValidDevice(d) && n < |d.draws|
    ensures var r := Report(AwakeAt(d, n), d.draws[n]);
            0.0 <= r.waterLevel <= 100.0 && 2.5 <= r.batteryVoltage <= 4.4
  {
    LevelNonNegative(d, n);
    LevelAtMostFull(d, n);
    hide AwakeAt, RoundTo;
    RoundMonotone(0.0, AwakeAt(d, n).level, 10.0);
    RoundMonotone(AwakeAt(d, n).level, 100.0, 10.0);
    RoundEnds();
  }

  lemma RoundEnds()
    ensures RoundTo(0.0, 10.0) == 0.0 && RoundTo(100.0, 10.0) == 100.0
  {
  }

  // ---------------------------------------------------------------- battery

  /** A wake never uses up more than one volt. */
  predicate SlowDecay(d: Device) {
    d.params.batteryDecayVPerHour * LongestHours(d) <= 1.0
  }

  lemma BatteryStep(d: Device, n: nat)
    requires ValidDevice(d) && SlowDecay(d) && 0 < n < |d.draws|
    ensures var before, after := AwakeAt(d, n - 1).battery, AwakeAt(d, n).battery;
            if Recharges(d, StateAt(d, n)) then before < 4.0 && after >= 4.15 else after <= before
  {
    hide StateAt, AwakeAt, SlowDecay, VoltsUsed, Wake, Recharges;
    StateStep(d, n);
    DecayPerWake(d, n);
    assert InRange(d, d.draws[n]);
    var s := StateAt(d, n);
    VoltageStep(d, s, d.draws[n]);
  }

  lemma DecayPerWake(d: Device, n: nat)
    requires ValidDevice(d) && SlowDecay(d) && 0 < n < |d.draws|
    ensures 0.0 < VoltsUsed(d, StateAt(d, n)) <= 1.0
  {
    hide StateAt, AwakeAt, ElapsedHours, LongestHours;
    ElapsedInRange(d, n);
    RateTimesElapsed(d.params.batteryDecayVPerHour, ElapsedHours(StateAt(d, n)), LongestHours(d), 1.0);
  }

  lemma VoltageStep(d: Device, s: State, draw: Draw)
    requires ValidDevice(d) && InRange(d, draw) && 0.0 < VoltsUsed(d, s) <= 1.0
    ensures if Recharges(d, s) then s.battery < 4.0 && Wake(d, s, draw).battery >= 4.15
            else Wake(d, s, draw).battery <= s.battery
  {
    hide WaterUsed, VoltsUsed;
  }

  lemma BatterySplit(d: Device, lo: nat, hi: nat, i: nat)
    requires ValidDevice(d) && SlowDecay(d) && lo <= hi <= |d.draws| && 0 < i < hi - lo
    ensures var series := SeriesOf(d, lo, hi, Battery);
            SplitsAt(series, i, BATTERY.refillJump, GapLimit(series, BATTERY.gapFactor))
            <==> Recharges(d, StateAt(d, lo + i))
  {
    hide GapLimit, RoundTo, Recharges, AwakeAt, StateAt;
    GapRuleNeverFires(d, lo, hi, Battery, BATTERY.gapFactor, i);
    var n := lo + i;
    BatteryStep(d, n);
    assert lo + i - 1 == lo + (i - 1);
    assert InRange(d, d.draws[n]) && InRange(d, d.draws[n - 1]);
    Thousandths(AwakeAt(d, n - 1).battery + d.draws[n - 1].adcNoise);
    Thousandths(AwakeAt(d, n).battery + d.draws[n].adcNoise);
    SeriesAt(d, lo, hi, Battery, i);
    SeriesAt(d, lo, hi, Battery, i - 1);
  }

  /** The segments of the reported battery series start exactly at the recharge wakes, despite the
      noise of the converter. */
  lemma SegmentsAreRecharges(d: Device, lo: nat, hi: nat, i: nat)
    requires ValidDevice(d) && SlowDecay(d) && lo <= hi <= |d.draws| && 0 < i < hi - lo
    ensures StartsAt(SplitSegments(SeriesOf(d, lo, hi, Battery), BATTERY.refillJump, BATTERY.gapFactor), i)
       <==> Recharges(d, StateAt(d, lo + i))
  {
    BatterySplit(d, lo, hi, i);
    hide SplitsAt, GapLimit, Recharges, StateAt, SeriesOf, SplitSegments;
    var series := SeriesOf(d, lo, hi, Battery);
    NonEmptySplit(series, BATTERY.refillJump, BATTERY.gapFactor);
    SegmentStarts(series, |series|, BATTERY.refillJump, GapLimit(series, BATTERY.gapFactor), i);
  }

  /** After every wake the battery stands between the recharge threshold and the highest recharge. */
  lemma {:induction false} BatteryInRange(d: Device, n: nat)
    requires ValidDevice(d) && n < |d.draws|
    ensures 3.0 <= AwakeAt(d, n).battery <= 4.25
  {
    assert InRange(d, d.draws[n]);
    if n == 0 {
      FirstWake(d);
    } else {
      BatteryInRange(d, n - 1);
      hide AwakeAt, StateAt;
      StateStep(d, n);
      WakeFollows(d, n);
      WakesAreSpaced(d, n);
      var hours := (AwakeAt(d, n).at - AwakeAt(d, n - 1).at) / 3600.0;
      assert d.params.batteryDecayVPerHour * hours >= 0.0;
    }
  }

  /** A report is the true state up to rounding and converter noise: the clamp on the voltage never acts. */
  lemma ReportIsClose(d: Device, n: nat)
    requires ValidDevice(d) && n < |d.draws|
    ensures var r, s, noise := Report(AwakeAt(d, n), d.draws[n]), AwakeAt(d, n), d.draws[n].adcNoise;
            && r.measuredAt == s.at
            && Abs(r.waterLevel - s.level) <= 0.05
            && Abs(r.batteryVoltage - (s.battery + noise)) <= 0.0005
            && Abs(r.batteryVoltage - s.battery) <= 0.0055
  {
    hide AwakeAt, RoundTo;
    BatteryInRange(d, n);
    assert InRange(d, d.draws[n]);
    Tenths(AwakeAt(d, n).level);
    Thousandths(AwakeAt(d, n).battery + d.draws[n].adcNoise);
  }

  /** Between recharges the true voltage is exactly linear in time. */
  lemma {:induction false} DecaysLinearly(d: Device, m: nat, n: nat)
    requires m <= n < |d.draws| && forall k :: m < k <= n ==> !Recharges(d, StateAt(d, k))
    ensures AwakeAt(d, n).battery ==
            AwakeAt(d, m).battery - d.params.batteryDecayVPerHour * ((AwakeAt(d, n).at - AwakeAt(d, m).at) / 3600.0)
    decreases n
  {
    hide AwakeAt, StateAt, Recharges;
    if m < n {
      DecayStep(d, n);
      DecaysLinearly(d, m, n - 1);
      RateDistributes(d.params.batteryDecayVPerHour, AwakeAt(d, m).at, AwakeAt(d, n - 1).at, AwakeAt(d, n).at);
    } else {
      assert (AwakeAt(d, n).at - AwakeAt(d, m).at) / 3600.0 == 0.0;
    }
  }

  lemma DecayStep(d: Device, n: nat)
    requires 0 < n < |d.draws| && !Recharges(d, StateAt(d, n))
    ensures AwakeAt(d, n).battery ==
            AwakeAt(d, n - 1).battery
            - d.params.batteryDecayVPerHour * ((AwakeAt(d, n).at - AwakeAt(d, n - 1).at) / 3600.0)
  {
  }

  // ---------------------------------------------------------------- the fitted rate

  /** From wake m on there is no refill and the tank does not run dry. */
  ghost predicate Draining(d: Device, lo: nat, hi: nat)
    requires lo <= hi <= |d.draws|
  {
    && (forall n :: lo < n < hi ==> !Refills(d, StateAt(d, n), d.draws[n]))
    && (forall n :: lo <= n < hi ==> AwakeAt(d, n).level > 0.0)
  }

  lemma DrainStep(d: Device, n: nat)
    requires 0 < n < |d.draws|
    requires !Refills(d, StateAt(d, n), d.draws[n]) && AwakeAt(d, n).level > 0.0
    ensures AwakeAt(d, n).level ==
            AwakeAt(d, n - 1).level
            - d.params.depletionPctPerHour * ((AwakeAt(d, n).at - AwakeAt(d, n - 1).at) / 3600.0)
  {
  }

  lemma RateDistributes(rate: real, a: real, b: real, c: real)
    ensures rate * ((b - a) / 3600.0) + rate * ((c - b) / 3600.0) == rate * ((c - a) / 3600.0)
  {
    assert (b - a) / 3600.0 + (c - b) / 3600.0 == (c - a) / 3600.0;
    Distribute((c - a) / 3600.0, (b - a) / 3600.0, rate);
  }

  /** Within a draining run the true level is exactly linear in time. */
  lemma {:induction false} DrainsLinearly(d: Device, m: nat, n: nat)
    requires m <= n < |d.draws| && Draining(d, m, n + 1)
    ensures AwakeAt(d, n).level ==
            AwakeAt(d, m).level - d.params.depletionPctPerHour * ((AwakeAt(d, n).at - AwakeAt(d, m).at) / 3600.0)
    decreases n
  {
    hide AwakeAt, StateAt, Refills;
    if m < n {
      DrainStep(d, n);
      DrainsLinearly(d, m, n - 1);
      RateDistributes(d.params.depletionPctPerHour, AwakeAt(d, m).at, AwakeAt(d, n - 1).at, AwakeAt(d, n).at);
    } else {
      assert (AwakeAt(d, n).at - AwakeAt(d, m).at) / 3600.0 == 0.0;
    }
  }

  lemma {:induction false} TimesAscend(d: Device, m: nat, n: nat)
    requires ValidDevice(d) && m <= n < |d.draws|
    ensures AwakeAt(d, m).at <= AwakeAt(d, n).at
    decreases n
  {
    hide AwakeAt;
    if m < n {
      TimesAscend(d, m, n - 1);
      WakesAreSpaced(d, n);
    }
  }

  lemma {:induction false} NearOneByOne(ps: seq<Point>, slope: real, level: real, e: real, reach: real)
    requires forall i :: 0 <= i < |ps| ==> NearLine(ps[i], slope, level, e) && Abs(ps[i].x) <= reach
    ensures AllNear(ps, slope, level, e, reach)
  {
    hide NearLine;
    if ps != [] {
      NearOneByOne(ps[1..], slope, level, e, reach);
    }
  }

  /** Hours covered by wakes lo up to hi. */
  function Reach(d: Device, lo: nat, hi: nat): real
    requires lo < hi <= |d.draws|
  {
    (AwakeAt(d, hi - 1).at - AwakeAt(d, lo).at) / 3600.0
  }

  /** Every reported sample of a draining run is within the rounding step of the true line. */
  lemma ReportedNearTruth(d: Device, lo: nat, hi: nat, i: nat)
    requires ValidDevice(d) && lo < hi <= |d.draws| && i < hi - lo
    requires Draining(d, lo, hi)
    ensures var p := Points(SeriesOf(d, lo, hi, Water))[i];
            && NearLine(p, -d.params.depletionPctPerHour, AwakeAt(d, hi - 1).level, 0.05)
            && Abs(p.x) <= Reach(d, lo, hi)
  {
    hide StateAt, RoundTo, AwakeAt, SeriesOf, Refills;
    var m, n := lo + i, hi - 1;
    SeriesAt(d, lo, hi, Water, i);
    SeriesAt(d, lo, hi, Water, hi - lo - 1);
    DrainsLinearly(d, m, n);
    Tenths(AwakeAt(d, m).level);
    TimesAscend(d, lo, m);
    TimesAscend(d, m, n);
    var hours := (AwakeAt(d, n).at - AwakeAt(d, m).at) / 3600.0;
    var p := Points(SeriesOf(d, lo, hi, Water))[i];
    assert p.x == -hours;
    assert -d.params.depletionPctPerHour * p.x == d.params.depletionPctPerHour * hours;
  }

  lemma {:induction false} WakesApart(d: Device, m: nat, n: nat)
    requires ValidDevice(d) && m <= n < |d.draws|
    ensures AwakeAt(d, n).at - AwakeAt(d, m).at >= (n - m) as real * (0.75 * d.interval)
    decreases n
  {
    hide AwakeAt;
    if m < n {
      WakesApart(d, m, n - 1);
      WakesAreSpaced(d, n);
      var step := 0.75 * d.interval;
      assert (n - m) as real == (n - 1 - m) as real + 1.0;
      assert (n - m) as real * step == (n - 1 - m) as real * step + step;
    }
  }

  /** The shortest time between two wakes, in hours. */
  function ShortestHours(d: Device): real { 0.75 * d.interval / 3600.0 }

  lemma SeriesSpaced(d: Device, lo: nat, hi: nat)
    requires ValidDevice(d) && lo < hi <= |d.draws|
    ensures SpacedAtLeast(Points(SeriesOf(d, lo, hi, Water)), ShortestHours(d))
  {
    hide AwakeAt, SeriesOf;
    var series := SeriesOf(d, lo, hi, Water);
    var ps := Points(series);
    forall i, j | 0 <= i < j < |ps| ensures ps[j].x - ps[i].x >= (j - i) as real * ShortestHours(d) {
      SeriesAt(d, lo, hi, Water, i);
      SeriesAt(d, lo, hi, Water, j);
      WakesApart(d, lo + i, lo + j);
      assert (lo + j) - (lo + i) == j - i;
      HoursApart(series[i].at, series[j].at, series[|series| - 1].at, (j - i) as real, 0.75 * d.interval);
    }
  }

  lemma HoursApart(t: real, u: real, anchor: real, count: real, step: real)
    requires u - t >= count * step
    ensures (u - anchor) / 3600.0 - (t - anchor) / 3600.0 >= count * (step / 3600.0)
  {
    assert (u - anchor) / 3600.0 - (t - anchor) / 3600.0 == (u - t) / 3600.0;
    assert count * (step / 3600.0) == count * step / 3600.0;
  }

  /** The time that `lag` wakes take at least, in hours. */
  function LagHours(d: Device, lag: nat): (hours: real)
    requires ValidDevice(d) && lag >= 1
    ensures hours > 0.0
  {
    ProductPositive(lag as real, ShortestHours(d));
    lag as real * ShortestHours(d)
  }

  lemma ProductPositive(a: real, b: real)
    requires a > 0.0 && b > 0.0
    ensures a * b > 0.0
  {
  }

  /** The fitted line is the true one, up to the rounding of the reported values over `distance` hours. */
  ghost predicate Recovers(fit: Fit, d: Device, lo: nat, hi: nat, distance: real)
    requires lo < hi <= |d.draws| && distance > 0.0
  {
    && Abs(fit.slopePerHour - -d.params.depletionPctPerHour) <= SlopeBound(0.05, distance)
    && Abs(fit.valueAtAnchor - AwakeAt(d, hi - 1).level) <= 0.05 + SlopeBound(0.05, distance) * Reach(d, lo, hi)
  }

  /** On a draining run with no missed check-in the fit recovers the configured depletion rate and the
      true level, up to the rounding over any lag that most pairs of samples exceed. */
  lemma FitRecoversDepletion(d: Device, lo: nat, hi: nat, spread: Spread, lag: nat)
    requires ValidDevice(d) && lo + MIN_FIT_POINTS <= hi <= |d.draws|
    requires Draining(d, lo, hi) && LagMajority(hi - lo, lag)
    ensures var fit := FitLine(SeriesOf(d, lo, hi, Water), spread);
            fit.Some? && Recovers(fit.value, d, lo, hi, LagHours(d, lag))
  {
    hide FitLine, FarPairs, NearLine, AllNear, SlopeBound, StateAt, AwakeAt, Draining, Reach, Points, SeriesOf, Pairs,
         Abs, SpacedAtLeast;
    var ps, distance := Points(SeriesOf(d, lo, hi, Water)), LagHours(d, lag);
    var slope, level, reach := -d.params.depletionPctPerHour, AwakeAt(d, hi - 1).level, Reach(d, lo, hi);
    forall i | 0 <= i < |ps| ensures NearLine(ps[i], slope, level, 0.05) && Abs(ps[i].x) <= reach {
      ReportedNearTruth(d, lo, hi, i);
    }
    NearOneByOne(ps, slope, level, 0.05, reach);
    SeriesSpaced(d, lo, hi);
    SpacingMajority(ps, ShortestHours(d), lag);
    BoundedNoise(SeriesOf(d, lo, hi, Water), spread, slope, level, 0.05, distance, reach);
  }
}
