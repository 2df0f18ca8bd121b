/** The poll loop: a pass owns its connection, and a failed pass is retried whole. */
module AnalyticsService {
  import opened AlertRule
  import opened AnalyticsPass
  import opened AnalyticsRun
  import opened AnalyticsStore
  import opened Database
  import opened ForecastModel
  import opened Segmentation
  import opened Series
  import opened TheilSen

  /** One turn of the loop: the telemetry found by the pass, and how its statements end. Statements
      beyond the list succeed. */
  datatype Turn = Turn(rows: seq<Row>, outcomes: seq<DbOutcome>)

  lemma {:induction false} ApplyConcat(tables: Tables, a: seq<Write>, b: seq<Write>, states: map<Channel, AlertState>,
                                       rule: Rule)
    ensures Apply(tables, a + b, states, rule) == Apply(Apply(tables, a, states, rule), b, states, rule)
    ensures RowsWritten(tables, a + b, states, rule) ==
            RowsWritten(tables, a, states, rule).Plus(RowsWritten(Apply(tables, a, states, rule), b, states, rule))
  {
    hide Effect, Bump, Lookup, At;
    if b == [] {
      assert a + b == a;
    } else {
      var n := |b| - 1;
      assert (a + b)[..|a| + n] == a + b[..n];
      ApplyConcat(tables, a, b[..n], states, rule);
    }
  }

  /** Where the job of metric j of device i stands in the plan. */
  lemma {:induction false} PlanIndex(rows: seq<Row>, devices: seq<string>, now: real, s: Settings, i: nat, j: nat)
    requires i < |devices| && j < |s.metrics|
    ensures var p := |JobsOf(rows, devices[..i], now, s)| + j;
            && p < |JobsOf(rows, devices, now, s)|
            && JobsOf(rows, devices, now, s)[p] == JobFor(rows, devices[i], s.metrics[j], now, s.spread)
    ensures |JobsOf(rows, devices[..i + 1], now, s)| == |JobsOf(rows, devices[..i], now, s)| + |s.metrics|
  {
    hide JobFor, DeviceJobs;
    var n := |devices| - 1;
    if i < n {
      PlanIndex(rows, devices[..n], now, s, i, j);
      assert devices[..n][..i] == devices[..i] && devices[..n][..i + 1] == devices[..i + 1];
    } else {
      assert devices[..i + 1] == devices;
    }
  }

  /** The jobs of device i in the plan. */
  lemma DeviceSlice(rows: seq<Row>, devices: seq<string>, now: real, s: Settings, i: nat, p: nat)
    requires s.metrics != [] && i < |devices| && p == |JobsOf(rows, devices[..i], now, s)|
    ensures |JobsOf(rows, devices[..i + 1], now, s)| == p + |s.metrics| <= |JobsOf(rows, devices, now, s)|
    ensures forall j :: 0 <= j < |s.metrics| ==>
              && Longest(s.metrics, now) <= WindowStart(s.metrics[j], now)
              && JobsOf(rows, devices, now, s)[p + j] == JobFor(rows, devices[i], s.metrics[j], now, s.spread)
  {
    hide JobFor, JobsOf;
    forall j | 0 <= j < |s.metrics|
      ensures Longest(s.metrics, now) <= WindowStart(s.metrics[j], now)
      ensures p + j < |JobsOf(rows, devices, now, s)|
      ensures JobsOf(rows, devices, now, s)[p + j] == JobFor(rows, devices[i], s.metrics[j], now, s.spread)
      ensures |JobsOf(rows, devices[..i + 1], now, s)| == p + |s.metrics|
    {
      PlanIndex(rows, devices, now, s, i, j);
      LongestIsEarliest(s.metrics, now, j);
    }
    PlanIndex(rows, devices, now, s, i, |s.metrics| - 1);
  }

  lemma NoDevices(rows: seq<Row>, devices: seq<string>, now: real, s: Settings)
    ensures JobsOf(rows, devices[..0], now, s) == []
  {
  }

  lemma NothingApplied(tables: Tables, jobs: seq<Job>, states: map<Channel, AlertState>, rule: Rule)
    ensures Writes(jobs[..0]) == [] && Writes(jobs)[..0] == []
    ensures Apply(tables, [], states, rule) == tables && RowsWritten(tables, [], states, rule) == NOTHING_WRITTEN
  {
  }

  lemma NothingCounted(c: Counters)
    ensures c.Plus(NOTHING_WRITTEN) == NOTHING_WRITTEN.Plus(c) == c
  {
  }

  lemma CountsNotBelow(a: Counters, b: Counters, c: Counters)
    ensures a.AtLeast(a) && (a.AtLeast(b) && b.AtLeast(c) ==> a.AtLeast(c))
  {
  }

  /** A single statement, executed or not. */
  lemma OneStatement(tables: Tables, w: Write, done: nat, states: map<Channel, AlertState>, rule: Rule)
    requires done <= 1
    ensures var c := w.job.channel;
            && [w][..1] == [w] && [w][..0] == []
            && Apply(tables, [w][..done], states, rule) ==
               (if done == 0 then tables else tables[c := Effect(At(tables, c), w, Lookup(states, c), rule)])
            && RowsWritten(tables, [w], states, rule) == Bump(At(tables, c), w, Lookup(states, c), rule)
  {
    hide Effect, Bump, At, Lookup, Apply, RowsWritten;
    var ws := [w];
    assert ws[..0] == [] && ws[..1] == ws && ws[0] == w && |ws| - 1 == 0;
    NothingApplied(tables, [], states, rule);
    NothingCounted(Bump(At(tables, w.job.channel), w, Lookup(states, w.job.channel), rule));
    LastStatement(tables, ws, states, rule);
  }

  lemma LastStatement(tables: Tables, ws: seq<Write>, states: map<Channel, AlertState>, rule: Rule)
    requires ws != []
    ensures var n, c := |ws| - 1, ws[|ws| - 1].job.channel;
            var before := Apply(tables, ws[..n], states, rule);
            && Apply(tables, ws, states, rule) == before[c := Effect(At(before, c), ws[n], Lookup(states, c), rule)]
            && RowsWritten(tables, ws, states, rule) ==
               RowsWritten(tables, ws[..n], states, rule).Plus(Bump(At(before, c), ws[n], Lookup(states, c), rule))
  {
    hide Effect, Bump, At, Lookup;
  }

  /** The two statements of a job, the second one executed or not. */
  lemma TwoStatements(tables: Tables, job: Job, done: nat, states: map<Channel, AlertState>, rule: Rule, c: Counters)
    requires done <= 1
    ensures Pair(job)[..0] == [] && Pair(job)[..1] == [Write(job, false)] && Pair(job)[..2] == Pair(job)
    ensures var first := Apply(tables, [Write(job, false)], states, rule);
            && Apply(first, [Write(job, true)][..done], states, rule) ==
               Apply(tables, Pair(job)[..1 + done], states, rule)
            && c.Plus(RowsWritten(tables, [Write(job, false)], states, rule))
                .Plus(RowsWritten(first, [Write(job, true)], states, rule))
               == c.Plus(RowsWritten(tables, Pair(job), states, rule))
  {
    hide Apply, RowsWritten;
    ApplyConcat(tables, [Write(job, false)], [Write(job, true)][..done], states, rule);
    ApplyConcat(tables, [Write(job, false)], [Write(job, true)], states, rule);
    assert [Write(job, false)] + [Write(job, true)][..done] == Pair(job)[..1 + done];
    assert [Write(job, false)] + [Write(job, true)] == Pair(job) == Pair(job)[..2];
    assert Pair(job)[..0] == [] && Pair(job)[..1] == [Write(job, false)];
  }

  /** Applying job p after the jobs before it. */
  lemma PlanStep(tables: Tables, jobs: seq<Job>, p: nat, done: nat, states: map<Channel, AlertState>, rule: Rule)
    requires p < |jobs| && done <= 2
    ensures 2 * p + done <= |Writes(jobs)|
    ensures var before := Apply(tables, Writes(jobs[..p]), states, rule);
            Apply(tables, Writes(jobs)[..2 * p + done], states, rule) ==
            Apply(before, Pair(jobs[p])[..done], states, rule)
    ensures var before := Apply(tables, Writes(jobs[..p]), states, rule);
            && Writes(jobs[..p + 1]) == Writes(jobs)[..2 * p + 2]
            && RowsWritten(tables, Writes(jobs[..p + 1]), states, rule) ==
               RowsWritten(tables, Writes(jobs[..p]), states, rule)
               .Plus(RowsWritten(before, Pair(jobs[p]), states, rule))
  {
    hide Apply, RowsWritten;
    WritesPrefix(jobs, p, done);
    WritesPrefix(jobs, p, 2);
    ApplyConcat(tables, Writes(jobs[..p]), Pair(jobs[p])[..done], states, rule);
    ApplyConcat(tables, Writes(jobs[..p]), Pair(jobs[p]), states, rule);
    assert jobs[..p + 1][..p] == jobs[..p];
    assert Pair(jobs[p])[..2] == Pair(jobs[p]);
  }

  lemma ForecastKind(samples: seq<Sample>, metric: Metric, now: real, windowStart: Option<real>, spread: Spread)
    ensures ForecastOf(samples, metric, now, true, windowStart, spread).kind == metric.kind
  {
    hide FitLine, IsValidSeries, StaleAfter, ReachedEdge, Crossing, CadenceSeconds, NewestSegmentStart;
  }

  ghost predicate AllDone(outcomes: seq<DbOutcome>) {
    forall i :: 0 <= i < |outcomes| ==> outcomes[i].Done?
  }

  /** Telemetry only grows from turn to turn. */
  ghost predicate ValidScript(rows: seq<Row>, script: seq<Turn>)
    decreases |script|
  {
    script == [] || (Ordered(script[0].rows) && Grows(rows, script[0].rows) && ValidScript(script[0].rows, script[1..]))
  }

  /** The turn found the scripted telemetry, and failed only if one of its statements did. */
  ghost predicate RunsTurn(step: Step, turn: Turn) {
    step.rows == turn.rows && (step.end.Failed? ==> !AllDone(turn.outcomes))
  }

  /** What the contract of a pass says about the turn that ran it. */
  lemma StepHappened(step: Step, s: Settings)
    requires s.metrics != []
    requires step.end.Skipped? ==>
               && step.since.Some? && Some(step.end.watermark) == FleetNewest(step.rows)
               && step.end.watermark <= step.since.value
    requires step.end.Completed? ==>
               && step.end.dataNow == FleetNewest(step.rows)
               && (step.rows != [] && step.since.Some? ==> FleetNewest(step.rows).value > step.since.value)
    requires step.done > 0 ==>
               && step.rows != [] && LegalStates(step.before, step.states)
               && !(step.since.Some? && FleetNewest(step.rows).value <= step.since.value)
    requires step.done == 0 ==> step.after == step.before
    requires step.rows != [] ==>
               var ws := Writes(Plan(step.rows, FleetNewest(step.rows).value, s));
               && step.done <= |ws| && (step.end.Completed? ==> step.done == |ws|)
               && step.after == Apply(step.before, ws[..step.done], step.states, s.rule)
    requires step.end.Skipped? || (step.end.Completed? && step.done == 0) ==> step.counted == NOTHING_WRITTEN
    requires step.rows != [] && step.end.Completed? ==>
               var ws := Writes(Plan(step.rows, FleetNewest(step.rows).value, s));
               step.counted == RowsWritten(step.before, ws, step.states, s.rule)
    ensures IsStep(step, s)
  {
    hide Plan;
    if step.rows == [] {
      assert Writes(JobsAt(step, s)) == [];
      assert RowsWritten(step.before, [], step.states, s.rule) == NOTHING_WRITTEN;
    }
  }

  lemma EmptyRun(rows: seq<Row>, tables: Tables, s: Settings)
    requires s.metrics != []
    ensures IsRun([], rows, tables, s) && Failures([]) == 0 && Counted([]) == NOTHING_WRITTEN
  {
  }

  /** What any run of the loop keeps. */
  lemma RunKeeps(trace: seq<Step>, rows: seq<Row>, tables: Tables, s: Settings)
    requires ValidSettings(s) && SafeTables(rows, tables, s.rule) && IsRun(trace, rows, tables, s)
    ensures SafeTables(RowsAfter(trace, rows), TablesAfter(trace, tables), s.rule)
    ensures AllWellShaped(TablesAfter(trace, tables), s.rule) <==>
            AllWellShaped(tables, s.rule) && forall i :: 0 <= i < |trace| ==> !StepMisreads(trace[i], s)
    ensures AllWellShaped(tables, s.rule) && AllTieFree(TablesAfter(trace, tables)) ==>
              AllWellShaped(TablesAfter(trace, tables), s.rule)
    ensures forall i :: 0 <= i < |trace| && trace[i].end.Completed? ==> AgreesNow(trace[i].rows, s, trace[i].after)
  {
    hide *;
    RunIsSafe(trace, rows, tables, s);
    RunShapeIff(trace, rows, tables, s);
    if AllWellShaped(tables, s.rule) && AllTieFree(TablesAfter(trace, tables)) {
      RunShapeWithoutTies(trace, rows, tables, s);
    }
    forall i | 0 <= i < |trace| && trace[i].end.Completed? ensures AgreesNow(trace[i].rows, s, trace[i].after) {
      RunAgrees(trace, rows, tables, s, i);
    }
  }

  class Service {
    const store: Store
    const settings: Settings
    var counters: Counters
    var passes: nat
    var passFailures: nat
    var outcomes: seq<DbOutcome>

    constructor (store: Store, settings: Settings)
      ensures this.store == store && this.settings == settings
      ensures counters == Counters(0, 0, 0) && passes == passFailures == 0 && outcomes == []
    {
      this.store, this.settings := store, settings;
      counters, passes, passFailures, outcomes := Counters(0, 0, 0), 0, 0, [];
    }

    /** How the next statement ends. */
    method NextOutcome() returns (db: DbOutcome)
      modifies this`outcomes
      ensures AllDone(old(outcomes)) ==> db.Done? && AllDone(outcomes)
    {
      if outcomes == [] {
        return Done;
      }
      db := outcomes[0];
      outcomes := outcomes[1..];
    }

    /** Applies the alert rule and records the decision, if any. */
    method HandleAlert(job: Job, states: map<Channel, AlertState>) returns (ok: bool, ghost done: nat)
      requires job.channel.kind == job.metric.kind && job.channel in store.tables
      modifies this`counters, this`outcomes, store`tables
      ensures counters.AtLeast(old(counters))
      ensures AllDone(old(outcomes)) ==> ok && AllDone(outcomes)
      ensures done <= 1 && (ok ==> done == 1)
      ensures store.tables == Apply(old(store.tables), [Write(job, true)][..done], states, settings.rule)
      ensures ok ==>
                counters == old(counters).Plus(
                  RowsWritten(old(store.tables), [Write(job, true)], states, settings.rule))
    {
      hide Apply, RowsWritten;
      var fc, c := job.fc, job.channel;
      var transition := AlertTransition(fc, job.metric, Lookup(states, c), settings.rule);
      ghost var w := Write(job, true);
      OneStatement(store.tables, w, 0, states, settings.rule);
      OneStatement(store.tables, w, 1, states, settings.rule);
      if transition == None || fc.asOf == None || fc.crossesAt == None {
        assert store.tables[c := At(store.tables, c)] == store.tables;
        NothingCounted(counters);
        return true, 1;
      }
      var db := NextOutcome();
      var isNew;
      var row := AlertRow(AlertState(transition.value, fc.asOf.value), fc.crossesAt.value, Horizon(fc),
                          job.metric.alertHorizonSeconds);
      ok, isNew := store.InsertAlertEvent(c, row, db);
      done := if db.FailedBefore? then 0 else 1;
      if ok && isNew {
        if transition.value == Firing {
          counters := counters.(alertsFired := counters.alertsFired + 1);
        } else {
          counters := counters.(alertsCleared := counters.alertsCleared + 1);
        }
      }
    }

    /** The two writes of one device and one metric. */
    method RecordJob(job: Job, states: map<Channel, AlertState>) returns (ok: bool, ghost done: nat)
      requires job.channel.kind == job.metric.kind == job.fc.kind
      modifies this`counters, this`outcomes, store`tables
      ensures counters.AtLeast(old(counters))
      ensures AllDone(old(outcomes)) ==> ok && AllDone(outcomes)
      ensures done <= 2 && (ok ==> done == 2)
      ensures store.tables == Apply(old(store.tables), Pair(job)[..done], states, settings.rule)
      ensures ok ==> counters == old(counters).Plus(RowsWritten(old(store.tables), Pair(job), states, settings.rule))
    {
      hide Apply, RowsWritten, Pair;
      ghost var before, counted := store.tables, counters;
      TwoStatements(before, job, 0, states, settings.rule, counted);
      TwoStatements(before, job, 1, states, settings.rule, counted);
      ok, done := RecordFirst(job, states);
      if !ok {
        return;
      }
      ghost var alert;
      ok, alert := HandleAlert(job, states);
      TwoStatements(before, job, alert, states, settings.rule, counted);
      done := 1 + alert;
    }

    /** The forecast of a job. One without a watermark needs no statement. */
    method RecordFirst(job: Job, states: map<Channel, AlertState>) returns (ok: bool, ghost done: nat)
      requires job.channel.kind == job.fc.kind
      modifies this`counters, this`outcomes, store`tables
      ensures counters.AtLeast(old(counters))
      ensures AllDone(old(outcomes)) ==> ok && AllDone(outcomes)
      ensures done <= 1 && (ok ==> done == 1 && job.channel in store.tables)
      ensures store.tables == Apply(old(store.tables), [Write(job, false)][..done], states, settings.rule)
      ensures [Write(job, false)][..1] == [Write(job, false)] && [Write(job, false)][..0] == []
      ensures ok ==>
                counters == old(counters).Plus(
                  RowsWritten(old(store.tables), [Write(job, false)], states, settings.rule))
    {
      hide Apply, RowsWritten;
      OneStatement(store.tables, Write(job, false), 0, states, settings.rule);
      OneStatement(store.tables, Write(job, false), 1, states, settings.rule);
      var db := Done;
      if job.fc.asOf.Some? {
        db := NextOutcome();
      }
      var written;
      ok, written := store.InsertForecast(job.channel.device, job.fc, db);
      done := if db.FailedBefore? then 0 else 1;
      if ok && written {
        counters := counters.(forecastsWritten := counters.forecastsWritten + 1);
      }
    }

    /** Forecasts one device and one metric from the loaded window, and records the result. */
    method RunJob(device: string, metric: Metric, w: Window, longest: real, now: real,
                  states: map<Channel, AlertState>) returns (ok: bool, ghost done: nat)
      requires WindowOf(w, store.telemetry, longest) && device in w.series && longest <= WindowStart(metric, now)
      modifies this`counters, this`outcomes, store`tables
      ensures counters.AtLeast(old(counters))
      ensures AllDone(old(outcomes)) ==> ok && AllDone(outcomes)
      ensures done <= 2 && (ok ==> done == 2)
      ensures var job := JobFor(store.telemetry, device, metric, now, settings.spread);
              var rows := RowsWritten(old(store.tables), Pair(job), states, settings.rule);
              && store.tables == Apply(old(store.tables), Pair(job)[..done], states, settings.rule)
              && (ok ==> counters == old(counters).Plus(rows))
    {
      hide ForecastOf, Apply, RowsWritten;
      var start := WindowStart(metric, now);
      OneReadServesAll(store.telemetry, device, metric.kind, longest, start);
      var samples := FilterNewer(OfKind(w.series[device], metric.kind), start);
      var fc := MakeForecast(samples, metric, now, true, Some(start), settings.spread);
      ForecastKind(samples, metric, now, Some(start), settings.spread);
      ok, done := RecordJob(Job(Channel(device, metric.kind), metric, fc), states);
    }

    /** The list comprehension that gives each metric its own window. */
    method FilterNewer(samples: seq<Sample>, cutoff: real) returns (newer: seq<Sample>)
      ensures newer == NewerThan(samples, cutoff)
    {
      newer := [];
      for i := 0 to |samples|
        invariant newer == NewerThan(samples[..i], cutoff)
      {
        assert samples[..i + 1] == samples[..i] + [samples[i]];
        NewerThanAppend(samples[..i], samples[i], cutoff);
        if samples[i].at > cutoff {
          newer := newer + [samples[i]];
        }
      }
      assert samples[..|samples|] == samples;
    }

    /** The inner loop: all metrics of one device, whose jobs stand at `p` in the plan. */
    method RunDevice(device: string, w: Window, longest: real, now: real, states: map<Channel, AlertState>,
                     ghost before: Tables, ghost jobs: seq<Job>, ghost p: nat, ghost written: Counters)
      returns (ok: bool, ghost done: nat)
      requires WindowOf(w, store.telemetry, longest) && device in w.series
      requires forall j :: 0 <= j < |settings.metrics| ==> longest <= WindowStart(settings.metrics[j], now)
      requires p + |settings.metrics| <= |jobs|
      requires forall j :: 0 <= j < |settings.metrics| ==>
                 jobs[p + j] == JobFor(store.telemetry, device, settings.metrics[j], now, settings.spread)
      requires store.tables == Apply(before, Writes(jobs[..p]), states, settings.rule)
      requires counters == written.Plus(RowsWritten(before, Writes(jobs[..p]), states, settings.rule))
      modifies this`counters, this`outcomes, store`tables
      ensures counters.AtLeast(old(counters))
      ensures AllDone(old(outcomes)) ==> ok && AllDone(outcomes)
      ensures done <= |Writes(jobs)|
      ensures !ok ==> store.tables == Apply(before, Writes(jobs)[..done], states, settings.rule)
      ensures ok ==> var n := p + |settings.metrics|;
                     && store.tables == Apply(before, Writes(jobs[..n]), states, settings.rule)
                     && counters == written.Plus(RowsWritten(before, Writes(jobs[..n]), states, settings.rule))
    {
      hide Apply, RowsWritten, Writes, JobFor, Pair, WindowOf;
      ok, done := true, 0;
      var j := 0;
      while j < |settings.metrics|
        invariant 0 <= j <= |settings.metrics| && ok && done == 0
        invariant AllDone(old(outcomes)) ==> AllDone(outcomes)
        invariant counters.AtLeast(old(counters))
        invariant store.tables == Apply(before, Writes(jobs[..p + j]), states, settings.rule)
        invariant counters == written.Plus(RowsWritten(before, Writes(jobs[..p + j]), states, settings.rule))
      {
        ok, done := RunJob(device, settings.metrics[j], w, longest, now, states);
        PlanStep(before, jobs, p + j, done, states, settings.rule);
        if !ok {
          done := 2 * (p + j) + done;
          return;
        }
        done := 0;
        j := j + 1;
      }
    }

    /** The loop over devices. */
    method RunJobs(w: Window, now: real, states: map<Channel, AlertState>) returns (ok: bool, ghost done: nat)
      requires settings.metrics != [] && WindowOf(w, store.telemetry, Longest(settings.metrics, now))
      requires forall i :: 0 <= i < |w.devices| ==> w.devices[i] in w.series
      modifies this`counters, this`outcomes, store`tables
      ensures counters.AtLeast(old(counters))
      ensures AllDone(old(outcomes)) ==> ok && AllDone(outcomes)
      ensures var ws := Writes(JobsOf(store.telemetry, w.devices, now, settings));
              && done <= |ws| && (ok ==> done == |ws|)
              && store.tables == Apply(old(store.tables), ws[..done], states, settings.rule)
              && (ok ==> counters == old(counters).Plus(RowsWritten(old(store.tables), ws, states, settings.rule)))
    {
      hide *;
      ghost var before, rows, written := store.tables, store.telemetry, counters;
      ghost var jobs := JobsOf(rows, w.devices, now, settings);
      ghost var p := 0;
      var longest := Longest(settings.metrics, now);
      NothingApplied(before, jobs, states, settings.rule);
      NothingCounted(written);
      CountsNotBelow(written, written, written);
      NoDevices(rows, w.devices, now, settings);
      var i := 0;
      while i < |w.devices|
        invariant AllDone(old(outcomes)) ==> AllDone(outcomes)
        invariant counters.AtLeast(old(counters))
        invariant 0 <= i <= |w.devices| && p == |JobsOf(rows, w.devices[..i], now, settings)| <= |jobs|
        invariant store.tables == Apply(before, Writes(jobs[..p]), states, settings.rule)
        invariant counters == written.Plus(RowsWritten(before, Writes(jobs[..p]), states, settings.rule))
      {
        DeviceSlice(rows, w.devices, now, settings, i, p);
        ghost var counted := counters;
        ok, done := RunDevice(w.devices[i], w, longest, now, states, before, jobs, p, written);
        CountsNotBelow(counters, counted, written);
        if !ok {
          return;
        }
        p := p + |settings.metrics|;
        i := i + 1;
      }
      assert w.devices[..i] == w.devices && jobs[..p] == jobs;
      assert Writes(jobs)[..2 * |jobs|] == Writes(jobs);
      return true, 2 * |jobs|;
    }

    /** One pass: connect, read the watermark, skip if it has not moved past `since`, read the window
        and the alert states, then run the plan. Whatever fails, and wherever, the tables are those
        of the first `done` statements of the plan. */
    method RunPass(since: Option<real>) returns (end: PassEnd, ghost states: map<Channel, AlertState>, ghost done: nat)
      requires ValidSettings(settings)
      modifies this`counters, this`outcomes, store`tables
      ensures counters.AtLeast(old(counters))
      ensures AllDone(old(outcomes)) ==> !end.Failed?
      ensures end.Skipped? ==>
                since.Some? && Some(end.watermark) == FleetNewest(store.telemetry) && end.watermark <= since.value
      ensures end.Completed? ==>
                && end.dataNow == FleetNewest(store.telemetry)
                && (store.telemetry != [] && since.Some? ==> FleetNewest(store.telemetry).value > since.value)
      ensures done > 0 ==>
                && store.telemetry != [] && LegalStates(old(store.tables), states)
                && !(since.Some? && FleetNewest(store.telemetry).value <= since.value)
      ensures done == 0 ==> store.tables == old(store.tables)
      ensures !end.Failed? && done == 0 ==> counters == old(counters)
      ensures store.telemetry != [] ==>
                var ws := Writes(Plan(store.telemetry, FleetNewest(store.telemetry).value, settings));
                && done <= |ws| && (end.Completed? ==> done == |ws|)
                && store.tables == Apply(old(store.tables), ws[..done], states, settings.rule)
                && (end.Completed? ==>
                      counters == old(counters).Plus(RowsWritten(old(store.tables), ws, states, settings.rule)))
    {
      hide Apply, RowsWritten, Writes, JobsOf, LegalRead, Ordered;
      ghost var before := store.tables;
      done, states := 0, map[];
      if store.telemetry != [] {
        ghost var jobs := Plan(store.telemetry, FleetNewest(store.telemetry).value, settings);
        NothingApplied(before, jobs, states, settings.rule);
      }
      var db := NextOutcome();
      if !db.Done? {
        return Failed, states, done;
      }
      db := NextOutcome();
      if !db.Done? {
        return Failed, states, done;
      }
      var now := store.DataNow();
      if now == None {
        return Completed(None), states, done;
      }
      if since.Some? && now.value <= since.value {
        return Skipped(now.value), states, done;
      }
      var ok, read;
      ok, read, done := RunPlan(now.value);
      states := read;
      end := if ok then Completed(now) else Failed;
    }

    /** The working part of a pass: read the window and the alert states, then run the plan. */
    method RunPlan(now: real) returns (ok: bool, states: map<Channel, AlertState>, ghost done: nat)
      requires ValidSettings(settings)
      modifies this`counters, this`outcomes, store`tables
      ensures counters.AtLeast(old(counters))
      ensures AllDone(old(outcomes)) ==> ok
      ensures done > 0 ==> LegalStates(old(store.tables), states)
      ensures done == 0 ==> store.tables == old(store.tables)
      ensures ok && done == 0 ==> counters == old(counters)
      ensures var ws := Writes(Plan(store.telemetry, now, settings));
              && done <= |ws| && (ok ==> done == |ws|)
              && store.tables == Apply(old(store.tables), ws[..done], states, settings.rule)
              && (ok ==> counters == old(counters).Plus(RowsWritten(old(store.tables), ws, states, settings.rule)))
    {
      hide Apply, RowsWritten, Writes, JobsOf, LegalRead;
      var longest := Longest(settings.metrics, now);
      states, done := map[], 0;
      NothingApplied(store.tables, Plan(store.telemetry, now, settings), states, settings.rule);
      var db := NextOutcome();
      if !db.Done? {
        return false, states, done;
      }
      var w := store.LoadWindow(longest);
      db := NextOutcome();
      if !db.Done? {
        return false, states, done;
      }
      states := store.LatestAlertStates();
      NothingApplied(store.tables, Plan(store.telemetry, now, settings), states, settings.rule);
      ok, done := RunJobs(w, now, states);
    }

    /** Polls for as long as the script lasts. `trace` is what happened, turn by turn. */
    method Run(script: seq<Turn>) returns (ghost trace: seq<Step>)
      requires ValidSettings(settings) && ValidScript(store.telemetry, script)
      requires SafeTables(store.telemetry, store.tables, settings.rule)
      modifies this, store
      ensures |trace| == |script| && forall i :: 0 <= i < |trace| ==> RunsTurn(trace[i], script[i])
      ensures IsRun(trace, old(store.telemetry), old(store.tables), settings)
      ensures store.telemetry == RowsAfter(trace, old(store.telemetry))
      ensures store.tables == TablesAfter(trace, old(store.tables))
      ensures passFailures == old(passFailures) + Failures(trace)
      ensures passes == old(passes) + |trace| - Failures(trace)
      ensures counters == old(counters).Plus(Counted(trace))
      ensures SafeTables(store.telemetry, store.tables, settings.rule)
      ensures AllWellShaped(store.tables, settings.rule) <==>
                && old(AllWellShaped(store.tables, settings.rule))
                && forall i :: 0 <= i < |trace| ==> !StepMisreads(trace[i], settings)
      ensures old(AllWellShaped(store.tables, settings.rule)) && AllTieFree(store.tables) ==>
                AllWellShaped(store.tables, settings.rule)
      ensures forall i :: 0 <= i < |trace| && trace[i].end.Completed? ==>
                AgreesNow(trace[i].rows, settings, trace[i].after)
    {
      hide IsStep, IsRun, Failures, Counted, Ordered, Grows, SafeTables, AllWellShaped, AllTieFree, AgreesNow,
           StepMisreads,
           AllDone;
      trace := [];
      var lastDataNow: Option<real> := None;
      ghost var rows0, tables0 := store.telemetry, store.tables;
      EmptyRun(rows0, tables0, settings);
      NothingCounted(counters);
      var i := 0;
      while i < |script|
        invariant 0 <= i == |trace| <= |script| && ValidScript(store.telemetry, script[i..])
        invariant forall j :: 0 <= j < i ==> RunsTurn(trace[j], script[j])
        invariant IsRun(trace, rows0, tables0, settings)
        invariant store.telemetry == RowsAfter(trace, rows0) && store.tables == TablesAfter(trace, tables0)
        invariant lastDataNow == SinceAfter(trace)
        invariant passFailures == old(passFailures) + Failures(trace)
        invariant passes == old(passes) + i - Failures(trace)
        invariant counters == old(counters).Plus(Counted(trace))
      {
        ghost var step;
        lastDataNow, step := RunTurn(script[i], lastDataNow);
        RunAppends(trace, step, rows0, tables0, settings);
        trace := trace + [step];
        i := i + 1;
      }
      RunKeeps(trace, rows0, tables0, settings);
    }

    /** One turn: a pass, and the watermark for the next one. A failed pass leaves that untouched. */
    method RunTurn(turn: Turn, since: Option<real>) returns (next: Option<real>, ghost step: Step)
      requires ValidSettings(settings)
      modifies this, store
      ensures RunsTurn(step, turn) && IsStep(step, settings)
      ensures step.since == since && next == NextSince(step)
      ensures step.before == old(store.tables) && step.after == store.tables && store.telemetry == turn.rows
      ensures counters == old(counters).Plus(step.counted)
      ensures passFailures == old(passFailures) + if step.end.Failed? then 1 else 0
      ensures passes == old(passes) + if step.end.Failed? then 0 else 1
    {
      hide IsStep, Plan, Apply, Writes, LegalStates, RowsWritten, AllDone;
      store.telemetry, outcomes := turn.rows, turn.outcomes;
      ghost var states, done;
      var end;
      end, states, done := RunPass(since);
      step := Step(turn.rows, since, old(store.tables), states, done, end, store.tables, counters.Minus(old(counters)));
      StepHappened(step, settings);
      match end {
        case Failed =>
          next := since;
          passFailures := passFailures + 1;
        case Skipped(now) =>
          next := Some(now);
          passes := passes + 1;
        case Completed(now) =>
          next := now;
          passes := passes + 1;
      }
    }
  }
}
