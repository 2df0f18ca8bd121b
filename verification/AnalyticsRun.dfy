/** A whole run of the poll loop as a list of turns, and what every such run keeps. */
module AnalyticsRun {
  import opened AlertRule
  import opened AnalyticsPass
  import opened AnalyticsStore
  import opened ForecastGuarantees
  import opened ForecastModel
  import opened Series
  import opened TheilSen

  datatype PassEnd = Failed | Skipped(watermark: real) | Completed(dataNow: Option<real>)

  /** What every run keeps, crashes and restarts included: nothing recorded is ahead of the telemetry, every alert
      row is on its side of the hysteresis band, every forecast row is honest, and no alert row stands without the
      forecast row of its watermark. */
  ghost predicate SafeTables(rows: seq<Row>, tables: Tables, rule: Rule) {
    Ordered(rows) && Behind(rows, tables) && AllJustified(tables, rule) && AllHonest(tables) && AllBacked(tables)
  }

  ghost predicate AllBacked(tables: Tables) {
    forall c :: Backed(At(tables, c))
  }

  ghost predicate Backed(h: History) {
    forall i :: 0 <= i < |h.alerts| ==> h.alerts[i].key.asOf in h.forecasts
  }

  /** Each alert statement comes right behind the forecast statement of its job. */
  ghost predicate ForecastFirst(ws: seq<Write>) {
    forall i :: 0 <= i < |ws| && ws[i].alert ==> 0 < i && ws[i - 1] == Write(ws[i].job, false)
  }

  /** Wherever a pass is cut off, the forecast of every recorded alert is recorded too. */
  lemma {:induction false} ApplyKeepsBacked(tables: Tables, ws: seq<Write>, states: map<Channel, AlertState>,
                                            rule: Rule)
    requires AllBacked(tables) && ForecastFirst(ws)
    ensures AllBacked(Apply(tables, ws, states, rule))
    ensures ws != [] ==> var w := ws[|ws| - 1];
                         HasForecast(At(Apply(tables, ws, states, rule), w.job.channel), w.job.fc)
  {
    if ws != [] {
      var n := |ws| - 1;
      ApplyKeepsBacked(tables, ws[..n], states, rule);
      var before, w := Apply(tables, ws[..n], states, rule), ws[n];
      var c := w.job.channel;
      assert w.alert ==> ws[..n][n - 1] == Write(w.job, false);
      assert Backed(At(before, c));
      EffectIsBacked(At(before, c), w, Lookup(states, c), rule);
      hide Backed, Effect;
      forall d ensures Backed(At(Apply(tables, ws, states, rule), d)) {
        assert Backed(At(before, d));
      }
    }
  }

  predicate HasForecast(h: History, fc: Forecast) {
    fc.asOf.Some? ==> fc.asOf.value in h.forecasts
  }

  lemma EffectIsBacked(h: History, w: Write, previous: Option<AlertState>, rule: Rule)
    requires Backed(h) && (w.alert ==> HasForecast(h, w.job.fc))
    ensures Backed(Effect(h, w, previous, rule)) && HasForecast(Effect(h, w, previous, rule), w.job.fc)
  {
  }

  ghost predicate AllHonest(tables: Tables) {
    forall c :: HonestHistory(At(tables, c))
  }

  ghost predicate HonestHistory(h: History) {
    forall t :: t in h.forecasts ==> HonestRow(t, h.forecasts[t])
  }

  predicate HonestJob(job: Job) {
    job.fc.asOf.Some? ==> HonestRow(job.fc.asOf.value, RowOf(job.fc))
  }

  lemma JobIsHonest(rows: seq<Row>, device: string, metric: Metric, now: real, spread: Spread)
    ensures HonestJob(JobFor(rows, device, metric, now, spread))
  {
    hide ForecastOf, FromFit, SamplesSince;
    var samples, start := SamplesSince(rows, device, metric.kind, WindowStart(metric, now)), WindowStart(metric, now);
    var fc := ForecastOf(samples, metric, now, true, Some(start), spread);
    CrossingAndBand(samples, metric, now, true, Some(start), spread);
    if fc.fit.Some? {
      FittedStatus(samples, metric, now, Some(start), spread);
    } else {
      ForecastWithoutFit(samples, metric, now, true, Some(start), spread);
    }
  }

  lemma FittedStatus(samples: seq<Sample>, metric: Metric, now: real, windowStart: Option<real>, spread: Spread)
    requires ForecastOf(samples, metric, now, true, windowStart, spread).fit.Some?
    ensures var fc := ForecastOf(samples, metric, now, true, windowStart, spread);
            && fc.status in {NotDepleting, Ok, BeyondHorizon}
            && (fc.fit.value.slopePerHour >= 0.0 <==> fc.status == NotDepleting)
  {
    hide ForecastOf, FitLine, NewestSegmentStart, Newest;
    ForecastFit(samples, metric, now, true, windowStart, spread);
  }

  lemma PlanIsHonest(rows: seq<Row>, now: real, s: Settings, k: nat)
    requires s.metrics != [] && k < |Plan(rows, now, s)|
    ensures HonestJob(Plan(rows, now, s)[k])
  {
    hide HonestJob, JobFor;
    var devices := DevicesSince(rows, Longest(s.metrics, now));
    var d, m := JobOrigin(rows, devices, now, s, k);
    JobIsHonest(rows, devices[d], s.metrics[m], now, s.spread);
  }

  lemma {:induction false} ApplyKeepsHonest(tables: Tables, ws: seq<Write>, states: map<Channel, AlertState>,
                                            rule: Rule)
    requires AllHonest(tables) && forall i :: 0 <= i < |ws| ==> HonestJob(ws[i].job)
    ensures AllHonest(Apply(tables, ws, states, rule))
  {
    if ws != [] {
      var n := |ws| - 1;
      ApplyKeepsHonest(tables, ws[..n], states, rule);
      var before, w := Apply(tables, ws[..n], states, rule), ws[n];
      var c := w.job.channel;
      assert HonestHistory(At(before, c));
      EffectIsHonest(At(before, c), w, Lookup(states, c), rule);
      hide HonestHistory, Effect, HonestJob;
      forall d ensures HonestHistory(At(Apply(tables, ws, states, rule), d)) {
        assert HonestHistory(At(before, d));
      }
    }
  }

  lemma EffectIsHonest(h: History, w: Write, previous: Option<AlertState>, rule: Rule)
    requires HonestHistory(h) && HonestJob(w.job)
    ensures HonestHistory(Effect(h, w, previous, rule))
  {
    hide HonestRow, RowOf;
  }

  /** The first `done` statements of a pass keep the tables safe, and every alert log well shaped
      exactly when none of them decided from the earlier half of a tie that repeats. */
  lemma PrefixIsSafe(rows: seq<Row>, tables: Tables, now: real, s: Settings, states: map<Channel, AlertState>,
                     done: nat)
    requires ValidSettings(s) && SafeTables(rows, tables, s.rule) && LegalStates(tables, states)
    requires done <= |Writes(Plan(rows, now, s))|
    ensures var jobs := Plan(rows, now, s);
            var after := Apply(tables, Writes(jobs)[..done], states, s.rule);
            && SafeTables(rows, after, s.rule)
            && (AllWellShaped(after, s.rule) <==>
                  AllWellShaped(tables, s.rule) && !Misreads(tables, jobs, done, states, s.rule))
  {
    hide AllWellShaped, Behind, AllJustified, AllHonest, AllBacked, Plan, Misreads, Apply, Ordered, PassReady,
         AllInOrder, HonestJob;
    var jobs := Plan(rows, now, s);
    var ws := Writes(jobs);
    forall i | 0 <= i < |ws[..done]| ensures AtNewest(rows, ws[..done][i].job) {
      WriteJob(jobs, i);
      PlanAtNewest(rows, now, s, i / 2);
    }
    forall i | 0 <= i < |ws[..done]| ensures HonestJob(ws[..done][i].job) {
      WriteJob(jobs, i);
      PlanIsHonest(rows, now, s, i / 2);
    }
    ApplyKeepsHonest(tables, ws[..done], states, s.rule);
    forall i | 0 <= i < done && ws[..done][i].alert
      ensures 0 < i && ws[..done][i - 1] == Write(ws[..done][i].job, false)
    {
      WriteJob(jobs, i);
      if i > 0 {
        WriteJob(jobs, i - 1);
      }
    }
    ApplyKeepsBacked(tables, ws[..done], states, s.rule);
    ApplyKeepsBehind(rows, tables, ws[..done], states, s.rule);
    ApplyKeepsJustified(tables, ws[..done], states, s.rule);
    PlanIsReady(rows, tables, now, s);
    BehindIsInOrder(rows, tables);
    if AllWellShaped(tables, s.rule) {
      PrefixShapeIff(tables, jobs, done, states, s.rule);
    } else if AllWellShaped(Apply(tables, ws[..done], states, s.rule), s.rule) {
      ShapeOnlyLost(tables, ws[..done], states, s.rule);
    }
  }

  lemma BehindIsInOrder(rows: seq<Row>, tables: Tables)
    requires Behind(rows, tables)
    ensures AllInOrder(tables)
  {
    forall c ensures InOrder(At(tables, c).Log()) {
      assert HistoryBehind(DeviceNewest(rows, c.device), At(tables, c));
    }
  }

  /** The latest rows agree with the model at the data time of this telemetry. */
  ghost predicate AgreesNow(rows: seq<Row>, s: Settings, tables: Tables) {
    rows != [] ==> Agrees(rows, FleetNewest(rows).value, s, tables)
  }

  lemma GrowthKeepsSafe(before: seq<Row>, after: seq<Row>, tables: Tables, rule: Rule)
    requires Ordered(after) && Grows(before, after) && SafeTables(before, tables, rule)
    ensures SafeTables(after, tables, rule)
  {
    hide Ordered, Grows, Behind, AllJustified, AllHonest, AllBacked;
    GrowthKeepsBehind(before, after, tables);
  }

  // ---------------------------------------------------------------- runs

  /** One turn of the loop as it happened: the telemetry it found, the watermark it was given, the tables
      before and after, the alert states it read, how many statements took effect, how it ended, and by how much
      the counters moved. */
  datatype Step = Step(
    rows: seq<Row>,
    since: Option<real>,
    before: Tables,
    states: map<Channel, AlertState>,
    done: nat,
    end: PassEnd,
    after: Tables,
    counted: Counters)

  /** The plan of the turn's pass. */
  function JobsAt(step: Step, s: Settings): seq<Job>
    requires s.metrics != []
  {
    if step.rows == [] then [] else Plan(step.rows, FleetNewest(step.rows).value, s)
  }

  /** The first `done` statements of the plan took effect, decided from a legal read; all of them when the
      pass completed, none when it was skipped, which happens only at or below the given watermark. */
  ghost predicate IsStep(step: Step, s: Settings)
    requires s.metrics != []
  {
    var ws, newest := Writes(JobsAt(step, s)), FleetNewest(step.rows);
    && step.done <= |ws|
    && step.after == Apply(step.before, ws[..step.done], step.states, s.rule)
    && (step.done > 0 ==> LegalStates(step.before, step.states))
    && (step.done > 0 ==> newest.Some? && !(step.since.Some? && newest.value <= step.since.value))
    && match step.end
       case Failed => true
       case Skipped(w) =>
         && step.done == 0 && newest == Some(w) && step.since.Some? && w <= step.since.value
         && step.counted == NOTHING_WRITTEN
       case Completed(now) =>
         && step.done == |ws| && now == newest
         && (now.Some? && step.since.Some? ==> now.value > step.since.value)
         && step.counted == RowsWritten(step.before, ws, step.states, s.rule)
  }

  /** The watermark handed to the next turn. */
  function NextSince(step: Step): Option<real> {
    match step.end
    case Failed => step.since
    case Skipped(w) => Some(w)
    case Completed(now) => now
  }

  function RowsAfter(trace: seq<Step>, rows: seq<Row>): seq<Row> {
    if trace == [] then rows else trace[|trace| - 1].rows
  }

  function TablesAfter(trace: seq<Step>, tables: Tables): Tables {
    if trace == [] then tables else trace[|trace| - 1].after
  }

  function SinceAfter(trace: seq<Step>): Option<real> {
    if trace == [] then None else NextSince(trace[|trace| - 1])
  }

  /** Each turn starts where the previous one ended, over telemetry that only grew. */
  ghost predicate IsRun(trace: seq<Step>, rows: seq<Row>, tables: Tables, s: Settings)
    requires s.metrics != []
    decreases |trace|
  {
    trace == [] ||
    var front, step := trace[..|trace| - 1], trace[|trace| - 1];
    && IsRun(front, rows, tables, s)
    && step.before == TablesAfter(front, tables) && step.since == SinceAfter(front)
    && Ordered(step.rows) && Grows(RowsAfter(front, rows), step.rows)
    && IsStep(step, s)
  }

  lemma RunAppends(trace: seq<Step>, step: Step, rows: seq<Row>, tables: Tables, s: Settings)
    requires s.metrics != [] && IsRun(trace, rows, tables, s)
    requires step.before == TablesAfter(trace, tables) && step.since == SinceAfter(trace)
    requires Ordered(step.rows) && Grows(RowsAfter(trace, rows), step.rows) && IsStep(step, s)
    ensures IsRun(trace + [step], rows, tables, s)
    ensures Failures(trace + [step]) == Failures(trace) + if step.end.Failed? then 1 else 0
    ensures Counted(trace + [step]) == Counted(trace).Plus(step.counted)
  {
    hide IsStep, Ordered, Grows;
    assert (trace + [step])[..|trace|] == trace;
  }

  function Failures(trace: seq<Step>): (n: nat)
    ensures n <= |trace|
  {
    if trace == [] then 0
    else Failures(trace[..|trace| - 1]) + if trace[|trace| - 1].end.Failed? then 1 else 0
  }

  /** By how much the counters moved in all. */
  function Counted(trace: seq<Step>): Counters {
    if trace == [] then NOTHING_WRITTEN else Counted(trace[..|trace| - 1]).Plus(trace[|trace| - 1].counted)
  }

  /** Some decision of the turn was made from the earlier half of a tie that repeats. */
  ghost predicate StepMisreads(step: Step, s: Settings)
    requires s.metrics != []
  {
    Misreads(step.before, JobsAt(step, s), step.done, step.states, s.rule)
  }

  lemma StepKeeps(step: Step, s: Settings)
    requires ValidSettings(s) && SafeTables(step.rows, step.before, s.rule) && IsStep(step, s)
    ensures SafeTables(step.rows, step.after, s.rule)
    ensures AllWellShaped(step.after, s.rule) <==> AllWellShaped(step.before, s.rule) && !StepMisreads(step, s)
    ensures step.end.Completed? ==> AgreesNow(step.rows, s, step.after)
  {
    hide SafeTables, AllWellShaped, Misreads, Apply, Writes, Plan, Agrees, LegalStates;
    if step.done > 0 {
      PrefixIsSafe(step.rows, step.before, FleetNewest(step.rows).value, s, step.states, step.done);
    } else {
      NothingDone(step, s);
    }
    if step.end.Completed? {
      CompletedAgrees(step, s);
    }
  }

  lemma NothingDone(step: Step, s: Settings)
    requires s.metrics != [] && IsStep(step, s) && step.done == 0
    ensures step.after == step.before && !StepMisreads(step, s)
  {
    assert Writes(JobsAt(step, s))[..0] == [];
    hide Plan, Writes;
  }

  lemma CompletedAgrees(step: Step, s: Settings)
    requires ValidSettings(s) && SafeTables(step.rows, step.before, s.rule) && IsStep(step, s) && step.end.Completed?
    ensures AgreesNow(step.rows, s, step.after)
  {
    hide Agrees, Apply, Plan, Writes, Behind, Ordered, LegalStates, AllJustified, AllHonest, AllBacked;
    if step.rows != [] {
      var now := FleetNewest(step.rows).value;
      var ws := Writes(Plan(step.rows, now, s));
      assert ws[..|ws|] == ws;
      PassAgrees(step.rows, step.before, now, s, step.states);
    }
  }

  /** Nothing recorded is ever ahead of the telemetry, and every alert row is justified. */
  lemma {:induction false} RunIsSafe(trace: seq<Step>, rows: seq<Row>, tables: Tables, s: Settings)
    requires ValidSettings(s) && SafeTables(rows, tables, s.rule) && IsRun(trace, rows, tables, s)
    ensures SafeTables(RowsAfter(trace, rows), TablesAfter(trace, tables), s.rule)
    ensures trace != [] ==> SafeTables(trace[|trace| - 1].rows, trace[|trace| - 1].before, s.rule)
  {
    hide SafeTables, IsStep, Ordered, Grows;
    if trace != [] {
      var n := |trace| - 1;
      RunIsSafe(trace[..n], rows, tables, s);
      GrowthKeepsSafe(RowsAfter(trace[..n], rows), trace[n].rows, trace[n].before, s.rule);
      StepKeeps(trace[n], s);
    }
  }

  lemma {:induction false} PrefixIsRun(trace: seq<Step>, rows: seq<Row>, tables: Tables, s: Settings, n: nat)
    requires s.metrics != [] && IsRun(trace, rows, tables, s) && n <= |trace|
    ensures IsRun(trace[..n], rows, tables, s)
  {
    hide IsStep;
    if n == |trace| {
      assert trace[..n] == trace;
    } else {
      PrefixIsRun(trace[..|trace| - 1], rows, tables, s, n);
      assert trace[..|trace| - 1][..n] == trace[..n];
    }
  }

  /** Turn i of a run. */
  lemma TurnOfRun(trace: seq<Step>, rows: seq<Row>, tables: Tables, s: Settings, i: nat)
    requires ValidSettings(s) && SafeTables(rows, tables, s.rule) && IsRun(trace, rows, tables, s) && i < |trace|
    ensures IsStep(trace[i], s) && Ordered(trace[i].rows) && SafeTables(trace[i].rows, trace[i].before, s.rule)
    ensures i > 0 ==>
              && trace[i].before == trace[i - 1].after && Grows(trace[i - 1].rows, trace[i].rows)
              && SafeTables(trace[i - 1].rows, trace[i - 1].after, s.rule)
              && trace[i].since == SinceAfter(trace[..i])
    ensures i == 0 ==> trace[i].since == None
  {
    hide SafeTables, IsStep, Ordered, Grows;
    PrefixIsRun(trace, rows, tables, s, i + 1);
    assert trace[..i + 1][..i] == trace[..i];
    RunIsSafe(trace[..i + 1], rows, tables, s);
    RunIsSafe(trace[..i], rows, tables, s);
  }

  /** Over a whole run, every alert log stays well shaped exactly when no turn decided from the earlier half
      of a tie that repeats. */
  lemma {:induction false} RunShapeIff(trace: seq<Step>, rows: seq<Row>, tables: Tables, s: Settings)
    requires ValidSettings(s) && SafeTables(rows, tables, s.rule) && IsRun(trace, rows, tables, s)
    ensures AllWellShaped(TablesAfter(trace, tables), s.rule) <==>
            AllWellShaped(tables, s.rule) && forall i :: 0 <= i < |trace| ==> !StepMisreads(trace[i], s)
  {
    hide SafeTables, IsStep, Ordered, Grows, AllWellShaped, StepMisreads;
    if trace != [] {
      var n := |trace| - 1;
      RunShapeIff(trace[..n], rows, tables, s);
      RunIsSafe(trace, rows, tables, s);
      StepKeeps(trace[n], s);
      assert forall i :: 0 <= i < n ==> trace[..n][i] == trace[i];
    }
  }

  ghost predicate AllTieFree(tables: Tables) {
    forall c :: TieFree(At(tables, c))
  }

  lemma TiesStay(before: Tables, after: Tables)
    requires AllTieFree(after) && forall c :: At(before, c).Log() <= At(after, c).Log()
    ensures AllTieFree(before)
  {
    forall c ensures TieFree(At(before, c)) {
      assert TieFree(At(after, c)) && At(before, c).Log() <= At(after, c).Log();
      assert forall r :: r in At(before, c).Log() ==> r in At(after, c).Log();
    }
  }

  lemma TieFreeReadsWell(step: Step, s: Settings)
    requires ValidSettings(s) && SafeTables(step.rows, step.before, s.rule) && AllTieFree(step.before)
    ensures !StepMisreads(step, s)
  {
    hide Plan, Writes;
    var jobs := JobsAt(step, s);
    forall k | 0 <= k < |jobs| ensures !JobMisread(step.before, jobs[k], step.states, s.rule) {
      var h := At(step.before, jobs[k].channel);
      assert TieFree(h) && HistoryBehind(DeviceNewest(step.rows, jobs[k].channel.device), h);
      var log, n := h.Log(), |h.Log()|;
      if n >= 2 {
        assert log[n - 2] in log && log[n - 1] in log && log[n - 2] != log[n - 1];
      }
    }
  }

  /** In particular, when the watermark of a channel advances between its recorded decisions. */
  lemma {:induction false} RunShapeWithoutTies(trace: seq<Step>, rows: seq<Row>, tables: Tables, s: Settings)
    requires ValidSettings(s) && SafeTables(rows, tables, s.rule) && IsRun(trace, rows, tables, s)
    requires AllWellShaped(tables, s.rule) && AllTieFree(TablesAfter(trace, tables))
    ensures AllWellShaped(TablesAfter(trace, tables), s.rule)
  {
    hide SafeTables, Ordered, Grows, AllWellShaped, StepMisreads, AllTieFree, Apply, Writes, JobsAt, LegalStates;
    if trace != [] {
      var n := |trace| - 1;
      var step := trace[n];
      RunIsSafe(trace, rows, tables, s);
      forall c ensures At(step.before, c).Log() <= At(step.after, c).Log() {
        ApplyExtendsLogs(step.before, Writes(JobsAt(step, s))[..step.done], step.states, s.rule, c);
      }
      TiesStay(step.before, step.after);
      TieFreeReadsWell(step, s);
      RunShapeWithoutTies(trace[..n], rows, tables, s);
      StepKeeps(step, s);
    }
  }

  /** After a completed turn the latest rows agree with the model. */
  lemma RunAgrees(trace: seq<Step>, rows: seq<Row>, tables: Tables, s: Settings, i: nat)
    requires ValidSettings(s) && SafeTables(rows, tables, s.rule) && IsRun(trace, rows, tables, s)
    requires i < |trace| && trace[i].end.Completed?
    ensures AgreesNow(trace[i].rows, s, trace[i].after)
  {
    hide SafeTables, AgreesNow;
    TurnOfRun(trace, rows, tables, s, i);
    StepKeeps(trace[i], s);
  }

  /** The watermark handed on is never ahead of the telemetry. */
  lemma {:induction false} SinceBehind(trace: seq<Step>, rows: seq<Row>, tables: Tables, s: Settings)
    requires s.metrics != [] && IsRun(trace, rows, tables, s) && SinceAfter(trace).Some?
    ensures trace != [] && RowsAfter(trace, rows) != []
    ensures SinceAfter(trace).value <= FleetNewest(RowsAfter(trace, rows)).value
  {
    hide Ordered, Apply, Writes, JobsAt, LegalStates;
    var n := |trace| - 1;
    if trace[n].end.Failed? {
      SinceBehind(trace[..n], rows, tables, s);
      FleetGrows(RowsAfter(trace[..n], rows), trace[n].rows);
    }
  }

  lemma FleetGrows(before: seq<Row>, after: seq<Row>)
    requires Grows(before, after) && before != []
    ensures after != [] && FleetNewest(before).value <= FleetNewest(after).value
  {
    var i :| 0 <= i < |before| && before[i].at == FleetNewest(before).value;
    assert before[i] in after;
    var j :| 0 <= j < |after| && after[j] == before[i];
  }

  /** After failed turns the watermark is still the data time of the last turn that did not fail. */
  lemma {:induction false} SinceIsNewest(trace: seq<Step>, rows: seq<Row>, tables: Tables, s: Settings, j: nat)
    requires s.metrics != [] && IsRun(trace, rows, tables, s) && j < |trace| && !trace[j].end.Failed?
    requires forall k :: j < k < |trace| ==> trace[k].end.Failed?
    ensures SinceAfter(trace) == FleetNewest(trace[j].rows)
    ensures Grows(trace[j].rows, RowsAfter(trace, rows))
  {
    hide Ordered, Apply, Writes, JobsAt, LegalStates, RowsWritten;
    var n := |trace| - 1;
    if j < n {
      assert trace[..n][j] == trace[j];
      SinceIsNewest(trace[..n], rows, tables, s, j);
    }
  }

  /** A turn is skipped exactly when the data time is still that of the last turn that did not fail. */
  lemma SkipsIffUnmoved(trace: seq<Step>, rows: seq<Row>, tables: Tables, s: Settings, i: nat, j: nat)
    requires ValidSettings(s) && SafeTables(rows, tables, s.rule) && IsRun(trace, rows, tables, s)
    requires j < i < |trace| && !trace[i].end.Failed? && !trace[j].end.Failed?
    requires forall k :: j < k < i ==> trace[k].end.Failed?
    ensures trace[i].end.Skipped? <==> trace[i].rows != [] && FleetNewest(trace[i].rows) == FleetNewest(trace[j].rows)
  {
    hide IsStep, Grows, Ordered, SafeTables;
    TurnOfRun(trace, rows, tables, s, i);
    PrefixIsRun(trace, rows, tables, s, i);
    hide IsRun;
    SinceIsNewest(trace[..i], rows, tables, s, j);
    GrowsOn(trace[j].rows, RowsAfter(trace[..i], rows), trace[i].rows);
    SkipsAtNewest(trace[i], s, trace[j].rows);
  }

  lemma GrowsOn(a: seq<Row>, b: seq<Row>, c: seq<Row>)
    requires Grows(a, b) && Grows(b, c)
    ensures Grows(a, c)
  {
  }

  lemma SkipsAtNewest(step: Step, s: Settings, was: seq<Row>)
    requires s.metrics != [] && IsStep(step, s) && !step.end.Failed?
    requires step.since == FleetNewest(was) && Grows(was, step.rows)
    ensures step.end.Skipped? <==> step.rows != [] && FleetNewest(step.rows) == FleetNewest(was)
  {
    hide Apply, Writes, Plan, LegalStates, RowsWritten, Grows;
    if was != [] && step.rows != [] && FleetNewest(step.rows).value <= FleetNewest(was).value {
      SkippedAtSameTime(was, step.rows);
    }
  }

  /** A skipped turn keeps that agreement exactly when every answer is the one it was a turn before. */
  lemma RunSkipIff(trace: seq<Step>, rows: seq<Row>, tables: Tables, s: Settings, i: nat)
    requires ValidSettings(s) && SafeTables(rows, tables, s.rule) && IsRun(trace, rows, tables, s)
    requires 0 < i < |trace| && trace[i].end.Skipped?
    requires AgreesNow(trace[i - 1].rows, s, trace[i - 1].after)
    ensures AgreesNow(trace[i].rows, s, trace[i].after) <==>
            AnswersKept(trace[i - 1].rows, trace[i].rows, trace[i].end.watermark, s)
  {
    hide Agrees, AnswersKept, IsRun, Apply, Writes, Plan, LegalStates, Ordered, Grows, Behind;
    TurnOfRun(trace, rows, tables, s, i);
    NothingDone(trace[i], s);
    PrefixIsRun(trace, rows, tables, s, i);
    SinceBehind(trace[..i], rows, tables, s);
    SkippedAtSameTime(trace[i - 1].rows, trace[i].rows);
    SkipAgreesIff(trace[i - 1].rows, trace[i].rows, trace[i].end.watermark, s, trace[i].after);
  }

  /** A turn adds no alert row on a channel whose horizon lies inside the hysteresis band. */
  lemma RunBandAddsNothing(trace: seq<Step>, rows: seq<Row>, tables: Tables, s: Settings, i: nat, k: nat)
    requires ValidSettings(s) && SafeTables(rows, tables, s.rule) && IsRun(trace, rows, tables, s)
    requires i < |trace| && k < |JobsAt(trace[i], s)|
    requires InsideBand(JobsAt(trace[i], s)[k], s.rule)
    ensures var c := JobsAt(trace[i], s)[k].channel; At(trace[i].after, c).alerts == At(trace[i].before, c).alerts
  {
    hide IsRun, Apply, Writes, Plan, LegalStates, Ordered, PassReady, AllJustified, Behind, InsideBand;
    var step, jobs := trace[i], JobsAt(trace[i], s);
    TurnOfRun(trace, rows, tables, s, i);
    PlanIsReady(step.rows, step.before, FleetNewest(step.rows).value, s);
    BandOnChannel(step.before, jobs, step.done, step.states, s.rule, k);
  }

  predicate InsideBand(job: Job, rule: Rule) {
    && job.fc.crossesAt.Some? && job.fc.asOf.Some?
    && job.metric.alertHorizonSeconds < Horizon(job.fc) <= ClearAbove(rule, job.metric)
  }

  lemma BandOnChannel(tables: Tables, jobs: seq<Job>, n: nat, states: map<Channel, AlertState>, rule: Rule, k: nat)
    requires PassReady(tables, jobs, rule) && n <= |Writes(jobs)| && k < |jobs| && InsideBand(jobs[k], rule)
    ensures var c := jobs[k].channel;
            At(Apply(tables, Writes(jobs)[..n], states, rule), c).alerts == At(tables, c).alerts
  {
    hide Apply, Writes, OnChannel, Effects;
    var c, job := jobs[k].channel, jobs[k];
    var h, previous := At(tables, c), Lookup(states, c);
    ApplyAt(tables, Writes(jobs)[..n], states, rule, c);
    PrefixOnChannel(jobs, n, k);
    EffectsOfPair(h, job, previous, rule);
    BandAddsNothing(RecordForecast(h, job.fc), job.metric, job.fc, previous, rule);
  }
}
