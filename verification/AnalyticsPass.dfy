/** One analytics pass as a list of writes, and what crashing and repeating it does to the tables. */
module AnalyticsPass {
  import opened AlertRule
  import opened AnalyticsStore
  import opened ForecastModel
  import opened Series
  import opened TheilSen

  datatype Settings = Settings(metrics: seq<Metric>, rule: Rule, spread: Spread)

  ghost predicate ValidSettings(s: Settings) {
    && s.metrics != []
    && (forall i :: 0 <= i < |s.metrics| ==> ValidRule(s.rule, s.metrics[i]))
    && (forall i, j :: 0 <= i < j < |s.metrics| ==> s.metrics[i].kind != s.metrics[j].kind)
  }

  /** The forecast of one device and one metric within a pass. */
  datatype Job = Job(channel: Channel, metric: Metric, fc: Forecast)

  function WindowStart(metric: Metric, now: real): real { now - metric.lookbackSeconds }

  /** The earliest cutoff any metric asks for. */
  function Longest(metrics: seq<Metric>, now: real): real
    requires metrics != []
  {
    var n := |metrics| - 1;
    if n == 0 then WindowStart(metrics[0], now)
    else Min(Longest(metrics[..n], now), WindowStart(metrics[n], now))
  }

  lemma {:induction false} LongestIsEarliest(metrics: seq<Metric>, now: real, i: nat)
    requires i < |metrics|
    ensures Longest(metrics, now) <= WindowStart(metrics[i], now)
    ensures exists k :: 0 <= k < |metrics| && Longest(metrics, now) == WindowStart(metrics[k], now)
  {
    var n := |metrics| - 1;
    if n > 0 {
      LongestIsEarliest(metrics[..n], now, if i < n then i else 0);
      var k :| 0 <= k < n && Longest(metrics[..n], now) == WindowStart(metrics[..n][k], now);
      assert WindowStart(metrics[k], now) == WindowStart(metrics[..n][k], now);
    } else {
      assert Longest(metrics, now) == WindowStart(metrics[0], now);
    }
  }

  function JobFor(rows: seq<Row>, device: string, metric: Metric, now: real, spread: Spread): Job {
    var start := WindowStart(metric, now);
    Job(Channel(device, metric.kind), metric,
        ForecastOf(SamplesSince(rows, device, metric.kind, start), metric, now, true, Some(start), spread))
  }

  /** A job forecasts exactly the device's rows of the last `lookbackSeconds`, read from the metric's own column. */
  lemma JobSeesWindow(rows: seq<Row>, device: string, metric: Metric, now: real, spread: Spread, samples: seq<Sample>)
    requires Ordered(rows) && IsValidSeries(samples)
    requires forall s :: s in samples <==>
               exists i :: 0 <= i < |rows| && RowGives(rows[i], device, metric.kind, now - metric.lookbackSeconds, s)
    ensures JobFor(rows, device, metric, now, spread) ==
            Job(Channel(device, metric.kind), metric,
                ForecastOf(samples, metric, now, true, Some(now - metric.lookbackSeconds), spread))
  {
    hide ForecastOf, IsValidSeries, Ordered;
    var start := now - metric.lookbackSeconds;
    var mine := SamplesSince(rows, device, metric.kind, start);
    WindowIsValid(rows, device, metric.kind, start);
    forall s ensures s in mine <==> s in samples {
      WindowSamples(rows, device, metric.kind, start, s);
    }
    SameSamplesSameSeries(mine, samples);
  }

  /** The jobs of one device for the first n metrics. */
  function DeviceJobs(rows: seq<Row>, device: string, now: real, s: Settings, n: nat): (jobs: seq<Job>)
    requires n <= |s.metrics|
    ensures |jobs| == n
    ensures forall i :: 0 <= i < n ==> jobs[i] == JobFor(rows, device, s.metrics[i], now, s.spread)
  {
    if n == 0 then []
    else DeviceJobs(rows, device, now, s, n - 1) + [JobFor(rows, device, s.metrics[n - 1], now, s.spread)]
  }

  function JobsOf(rows: seq<Row>, devices: seq<string>, now: real, s: Settings): seq<Job> {
    if devices == [] then []
    else
      var n := |devices| - 1;
      JobsOf(rows, devices[..n], now, s) + DeviceJobs(rows, devices[n], now, s, |s.metrics|)
  }

  /** Everything one pass over these rows decides, in order. */
  function Plan(rows: seq<Row>, now: real, s: Settings): seq<Job>
    requires s.metrics != []
  {
    JobsOf(rows, DevicesSince(rows, Longest(s.metrics, now)), now, s)
  }

  // ---------------------------------------------------------------- writes

  /** One statement of a pass: the forecast of a job, or its alert decision. */
  datatype Write = Write(job: Job, alert: bool)

  /** The two statements of a job. */
  function Pair(job: Job): seq<Write> { [Write(job, false), Write(job, true)] }

  function Writes(jobs: seq<Job>): (ws: seq<Write>)
    ensures |ws| == 2 * |jobs|
  {
    if jobs == [] then []
    else
      var n := |jobs| - 1;
      Writes(jobs[..n]) + Pair(jobs[n])
  }

  function Effect(h: History, w: Write, previous: Option<AlertState>, rule: Rule): History {
    if w.alert then RecordAlert(h, w.job.metric, w.job.fc, previous, rule) else RecordForecast(h, w.job.fc)
  }

  datatype Counters = Counters(forecastsWritten: nat, alertsFired: nat, alertsCleared: nat) {
    function Plus(c: Counters): Counters {
      Counters(forecastsWritten + c.forecastsWritten, alertsFired + c.alertsFired, alertsCleared + c.alertsCleared)
    }

    predicate AtLeast(c: Counters) {
      forecastsWritten >= c.forecastsWritten && alertsFired >= c.alertsFired && alertsCleared >= c.alertsCleared
    }

    function Minus(c: Counters): Counters
      requires AtLeast(c)
    {
      Counters(forecastsWritten - c.forecastsWritten, alertsFired - c.alertsFired, alertsCleared - c.alertsCleared)
    }
  }

  const NOTHING_WRITTEN: Counters := Counters(0, 0, 0)

  /** Whether the statement writes a row, and so bumps a counter. */
  predicate Counts(h: History, w: Write, previous: Option<AlertState>, rule: Rule) {
    if w.alert then WritesAlert(h, w.job.metric, w.job.fc, previous, rule) else WritesForecast(h, w.job.fc)
  }

  /** The statements applied in order, all deciding from the states read at the start of the pass. */
  function Apply(tables: Tables, ws: seq<Write>, states: map<Channel, AlertState>, rule: Rule): Tables {
    if ws == [] then tables
    else
      var n := |ws| - 1;
      var before := Apply(tables, ws[..n], states, rule);
      var c := ws[n].job.channel;
      before[c := Effect(At(before, c), ws[n], Lookup(states, c), rule)]
  }

  /** The counter that one statement bumps. */
  function Bump(h: History, w: Write, previous: Option<AlertState>, rule: Rule): Counters {
    if !Counts(h, w, previous, rule) then NOTHING_WRITTEN
    else if !w.alert then Counters(1, 0, 0)
    else if AlertTransition(w.job.fc, w.job.metric, previous, rule) == Some(Firing) then Counters(0, 1, 0)
    else Counters(0, 0, 1)
  }

  /** The rows written, by kind. */
  function RowsWritten(tables: Tables, ws: seq<Write>, states: map<Channel, AlertState>, rule: Rule): Counters {
    if ws == [] then NOTHING_WRITTEN
    else
      var n := |ws| - 1;
      var c := ws[n].job.channel;
      RowsWritten(tables, ws[..n], states, rule).Plus(
        Bump(At(Apply(tables, ws[..n], states, rule), c), ws[n], Lookup(states, c), rule))
  }

  // ---------------------------------------------------------------- one channel at a time

  function OnChannel(ws: seq<Write>, c: Channel): seq<Write> {
    if ws == [] then []
    else
      var n := |ws| - 1;
      OnChannel(ws[..n], c) + (if ws[n].job.channel == c then [ws[n]] else [])
  }

  function Effects(h: History, ws: seq<Write>, previous: Option<AlertState>, rule: Rule): History {
    if ws == [] then h
    else
      var n := |ws| - 1;
      Effect(Effects(h, ws[..n], previous, rule), ws[n], previous, rule)
  }

  /** What a whole pass does to one channel's history. */
  function Decided(h: History, job: Job, previous: Option<AlertState>, rule: Rule): History {
    RecordAlert(RecordForecast(h, job.fc), job.metric, job.fc, previous, rule)
  }

  lemma EffectsAppend(h: History, front: seq<Write>, w: Write, previous: Option<AlertState>, rule: Rule)
    ensures Effects(h, front + [w], previous, rule) == Effect(Effects(h, front, previous, rule), w, previous, rule)
  {
    assert (front + [w])[..|front|] == front;
  }

  lemma EffectsOfPair(h: History, job: Job, previous: Option<AlertState>, rule: Rule)
    ensures Pair(job)[..0] == [] && Effects(h, Pair(job)[..0], previous, rule) == h
    ensures Effects(h, Pair(job)[..1], previous, rule) == RecordForecast(h, job.fc)
    ensures Pair(job)[..2] == Pair(job) && Effects(h, Pair(job), previous, rule) == Decided(h, job, previous, rule)
  {
    EffectsAppend(h, [], Write(job, false), previous, rule);
    assert [] + [Write(job, false)] == Pair(job)[..1];
    EffectsAppend(h, Pair(job)[..1], Write(job, true), previous, rule);
    assert Pair(job)[..1] + [Write(job, true)] == Pair(job);
  }

  /** A channel sees only its own statements and its own read. */
  lemma {:induction false} ApplyAt(tables: Tables, ws: seq<Write>, states: map<Channel, AlertState>, rule: Rule,
                                   c: Channel)
    ensures At(Apply(tables, ws, states, rule), c) ==
            Effects(At(tables, c), OnChannel(ws, c), Lookup(states, c), rule)
    ensures c in Apply(tables, ws, states, rule) <==> c in tables || OnChannel(ws, c) != []
  {
    if ws != [] {
      var n := |ws| - 1;
      ApplyAt(tables, ws[..n], states, rule, c);
      var front := OnChannel(ws[..n], c);
      EffectsAppend(At(tables, c), front, ws[n], Lookup(states, c), rule);
      assert front + [] == front;
    }
  }

  lemma OnChannelConcat(a: seq<Write>, b: seq<Write>, c: Channel)
    ensures OnChannel(a + b, c) == OnChannel(a, c) + OnChannel(b, c)
  {
    if b == [] {
      assert a + b == a;
    } else {
      var n := |b| - 1;
      assert (a + b)[..|a| + n] == a + b[..n];
      OnChannelConcat(a, b[..n], c);
    }
  }

  ghost predicate Distinct(jobs: seq<Job>) {
    forall i, j :: 0 <= i < j < |jobs| ==> jobs[i].channel != jobs[j].channel
  }

  lemma OnChannelPair(job: Job, c: Channel)
    ensures OnChannel(Pair(job), c) ==
            if job.channel == c then Pair(job) else []
  {
    assert Pair(job)[..1] == [Write(job, false)] && Pair(job)[..1][..0] == [];
    assert OnChannel(Pair(job)[..1], c) == if job.channel == c then [Write(job, false)] else [];
  }

  lemma {:induction false} OtherChannels(jobs: seq<Job>, c: Channel)
    requires forall i :: 0 <= i < |jobs| ==> jobs[i].channel != c
    ensures OnChannel(Writes(jobs), c) == []
  {
    if jobs != [] {
      var n := |jobs| - 1;
      OtherChannels(jobs[..n], c);
      OnChannelPair(jobs[n], c);
      OnChannelConcat(Writes(jobs[..n]), Pair(jobs[n]), c);
    }
  }

  /** With distinct channels, a channel's statements are the two of its job. */
  lemma {:induction false} OwnChannel(jobs: seq<Job>, k: nat)
    requires Distinct(jobs) && k < |jobs|
    ensures OnChannel(Writes(jobs), jobs[k].channel) == Pair(jobs[k])
  {
    var n, c := |jobs| - 1, jobs[k].channel;
    OnChannelPair(jobs[n], c);
    OnChannelConcat(Writes(jobs[..n]), Pair(jobs[n]), c);
    if k == n {
      OtherChannels(jobs[..n], c);
    } else {
      OwnChannel(jobs[..n], k);
    }
  }

  lemma PassOnChannel(tables: Tables, jobs: seq<Job>, states: map<Channel, AlertState>, rule: Rule, k: nat)
    requires Distinct(jobs) && k < |jobs|
    ensures var c := jobs[k].channel;
            At(Apply(tables, Writes(jobs), states, rule), c) == Decided(At(tables, c), jobs[k], Lookup(states, c), rule)
  {
    var c := jobs[k].channel;
    OwnChannel(jobs, k);
    ApplyAt(tables, Writes(jobs), states, rule, c);
    EffectsOfPair(At(tables, c), jobs[k], Lookup(states, c), rule);
  }

  // ---------------------------------------------------------------- the counters

  function CountState(log: seq<AlertState>, t: Transition): nat {
    if log == [] then 0 else CountState(log[..|log| - 1], t) + if log[|log| - 1].state == t then 1 else 0
  }

  /** The decisions of one kind on record for these jobs. */
  function Recorded(tables: Tables, jobs: seq<Job>, t: Transition): nat {
    if jobs == [] then 0
    else
      var n := |jobs| - 1;
      Recorded(tables, jobs[..n], t) + CountState(At(tables, jobs[n].channel).Log(), t)
  }

  lemma CountAppend(log: seq<AlertState>, s: AlertState, t: Transition)
    ensures CountState(log + [s], t) == CountState(log, t) + if s.state == t then 1 else 0
  {
    assert (log + [s])[..|log|] == log;
  }

  /** A statement bumps the forecast counter when it changes a forecast row, and an alert counter when it adds a
      decision of that kind. */
  lemma BumpIsChange(h: History, w: Write, previous: Option<AlertState>, rule: Rule)
    ensures var h', b := Effect(h, w, previous, rule), Bump(h, w, previous, rule);
            && b.forecastsWritten == (if h'.forecasts != h.forecasts then 1 else 0)
            && CountState(h'.Log(), Firing) == CountState(h.Log(), Firing) + b.alertsFired
            && CountState(h'.Log(), Cleared) == CountState(h.Log(), Cleared) + b.alertsCleared
  {
    hide Effect, Bump, CountState;
    if w.alert {
      AlertBump(h, w, previous, rule);
    } else {
      ForecastBump(h, w, previous, rule);
    }
  }

  lemma ForecastBump(h: History, w: Write, previous: Option<AlertState>, rule: Rule)
    requires !w.alert
    ensures var h', b := Effect(h, w, previous, rule), Bump(h, w, previous, rule);
            && h'.alerts == h.alerts && h'.Log() == h.Log() && b.alertsFired == b.alertsCleared == 0
            && b.forecastsWritten == if h'.forecasts != h.forecasts then 1 else 0
  {
    hide RowOf;
    var h' := RecordForecast(h, w.job.fc);
    if WritesForecast(h, w.job.fc) {
      RowCarries(w.job.fc);
      assert h'.forecasts[w.job.fc.asOf.value].status == w.job.fc.status;
    }
  }

  lemma RowCarries(fc: Forecast)
    ensures RowOf(fc).status == fc.status
  {
  }

  lemma AlertBump(h: History, w: Write, previous: Option<AlertState>, rule: Rule)
    requires w.alert
    ensures var h', b := Effect(h, w, previous, rule), Bump(h, w, previous, rule);
            && h'.forecasts == h.forecasts && b.forecastsWritten == 0
            && CountState(h'.Log(), Firing) == CountState(h.Log(), Firing) + b.alertsFired
            && CountState(h'.Log(), Cleared) == CountState(h.Log(), Cleared) + b.alertsCleared
  {
    if WritesAlert(h, w.job.metric, w.job.fc, previous, rule) {
      var s := Decision(h, w.job.metric, w.job.fc, previous, rule);
      hide AlertTransition, CountState;
      CountAppend(h.Log(), s, Firing);
      CountAppend(h.Log(), s, Cleared);
    }
  }

  lemma {:induction false} RecordedElsewhere(tables: Tables, jobs: seq<Job>, c: Channel, h: History, t: Transition)
    requires forall i :: 0 <= i < |jobs| ==> jobs[i].channel != c
    ensures Recorded(tables[c := h], jobs, t) == Recorded(tables, jobs, t)
  {
    if jobs != [] {
      RecordedElsewhere(tables, jobs[..|jobs| - 1], c, h, t);
    }
  }

  lemma {:induction false} RecordedUpdate(tables: Tables, jobs: seq<Job>, k: nat, h: History, t: Transition)
    requires Distinct(jobs) && k < |jobs|
    ensures var c := jobs[k].channel;
            Recorded(tables[c := h], jobs, t) + CountState(At(tables, c).Log(), t) ==
            Recorded(tables, jobs, t) + CountState(h.Log(), t)
  {
    hide CountState;
    var n := |jobs| - 1;
    if k == n {
      RecordedElsewhere(tables, jobs[..n], jobs[n].channel, h, t);
    } else {
      RecordedUpdate(tables, jobs[..n], k, h, t);
    }
  }

  /** After any part of a pass the alert counters have moved by exactly the decisions added to the table. */
  lemma {:induction false} CountersMatchRows(tables: Tables, jobs: seq<Job>, n: nat, states: map<Channel, AlertState>,
                                             rule: Rule)
    requires Distinct(jobs) && n <= |Writes(jobs)|
    ensures var ws := Writes(jobs)[..n];
            var after, counted := Apply(tables, ws, states, rule), RowsWritten(tables, ws, states, rule);
            && Recorded(after, jobs, Firing) == Recorded(tables, jobs, Firing) + counted.alertsFired
            && Recorded(after, jobs, Cleared) == Recorded(tables, jobs, Cleared) + counted.alertsCleared
  {
    hide Writes, Recorded, Effect, Bump;
    var ws := Writes(jobs)[..n];
    if n > 0 {
      CountersMatchRows(tables, jobs, n - 1, states, rule);
      assert ws[..n - 1] == Writes(jobs)[..n - 1];
      WriteJob(jobs, n - 1);
      var before, w, k := Apply(tables, ws[..n - 1], states, rule), ws[n - 1], (n - 1) / 2;
      var c := w.job.channel;
      assert c == jobs[k].channel;
      var h' := Effect(At(before, c), w, Lookup(states, c), rule);
      BumpIsChange(At(before, c), w, Lookup(states, c), rule);
      RecordedUpdate(before, jobs, k, h', Firing);
      RecordedUpdate(before, jobs, k, h', Cleared);
    }
  }

  // ---------------------------------------------------------------- crash and restart

  ghost predicate PassReady(tables: Tables, jobs: seq<Job>, rule: Rule) {
    && Distinct(jobs)
    && forall i :: 0 <= i < |jobs| ==>
         ValidRule(rule, jobs[i].metric) && AlertsBehind(At(tables, jobs[i].channel), jobs[i].fc)
  }

  /** The read an uninterrupted pass would have needed: the first one where the crashed pass recorded
      a decision, the second one elsewhere. */
  function UsedRead(before: History, crashed: History, first: Option<AlertState>,
                    again: Option<AlertState>): Option<AlertState> {
    if crashed.alerts != before.alerts then first else again
  }

  function UsedReads(tables: Tables, crashed: Tables, first: map<Channel, AlertState>, again: map<Channel,
                     AlertState>): map<Channel, AlertState> {
    map c |
      c in first.Keys + again.Keys && UsedRead(At(tables, c), At(crashed, c), Lookup(first, c), Lookup(again, c)).Some?
      :: UsedRead(At(tables, c), At(crashed, c), Lookup(first, c), Lookup(again, c)).value
  }

  /** One channel of the crash: any number of its two statements took effect before the rerun. */
  lemma RerunOnChannel(h: History, job: Job, done: nat, first: Option<AlertState>, again: Option<AlertState>,
                       rule: Rule)
    requires done <= 2
    requires ValidRule(rule, job.metric) && AlertsBehind(h, job.fc)
    requires LegalRead(Effects(h, Pair(job)[..done], first, rule), again)
    ensures var crashed := Effects(h, Pair(job)[..done], first, rule);
            Effects(crashed, Pair(job), again, rule) ==
            Effects(h, Pair(job), UsedRead(h, crashed, first, again), rule)
  {
    var crashed := Effects(h, Pair(job)[..done], first, rule);
    EffectsOfPair(h, job, first, rule);
    EffectsOfPair(h, job, UsedRead(h, crashed, first, again), rule);
    EffectsOfPair(crashed, job, again, rule);
    var recorded := RecordForecast(h, job.fc);
    ForecastTwice(h, job.fc);
    if done == 2 {
      AlertTwice(recorded, job.metric, job.fc, first, again, rule);
      assert RecordForecast(crashed, job.fc) == crashed;
      assert crashed.alerts != h.alerts <==> WritesAlert(recorded, job.metric, job.fc, first, rule);
    }
  }

  lemma {:induction false} WritesPrefix(jobs: seq<Job>, p: nat, k: nat)
    requires p < |jobs| && k <= 2
    ensures Writes(jobs)[..2 * p + k] == Writes(jobs[..p]) + Pair(jobs[p])[..k]
  {
    var n := |jobs| - 1;
    if p < n {
      WritesPrefix(jobs[..n], p, k);
      assert jobs[..n][..p] == jobs[..p];
      assert Writes(jobs)[..2 * p + k] == Writes(jobs[..n])[..2 * p + k];
    }
  }

  /** How many of the two statements of job k are among the first n of the plan. */
  function Executed(n: nat, k: nat): (done: nat)
    ensures done <= 2
  {
    if n <= 2 * k then 0 else if n == 2 * k + 1 then 1 else 2
  }

  lemma PrefixOnChannel(jobs: seq<Job>, n: nat, k: nat)
    requires Distinct(jobs) && k < |jobs| && n <= |Writes(jobs)|
    ensures OnChannel(Writes(jobs)[..n], jobs[k].channel) == Pair(jobs[k])[..Executed(n, k)]
  {
    hide OnChannel, Writes;
    var ws, c, done := Writes(jobs), jobs[k].channel, Executed(n, k);
    var m := 2 * k + done;
    WritesPrefix(jobs, k, done);
    OtherChannels(jobs[..k], c);
    PairPrefix(jobs[k], done);
    OnChannelConcat(Writes(jobs[..k]), Pair(jobs[k])[..done], c);
    assert OnChannel(ws[..m], c) == Pair(jobs[k])[..done];
    OwnChannel(jobs, k);
    if n < m {
      assert ws[..m] == ws[..n] + ws[n..m];
      OnChannelConcat(ws[..n], ws[n..m], c);
    } else {
      assert ws == ws[..n] + ws[n..] && ws[..n] == ws[..m] + ws[m..n];
      OnChannelConcat(ws[..n], ws[n..], c);
      OnChannelConcat(ws[..m], ws[m..n], c);
    }
  }

  lemma PairPrefix(job: Job, done: nat)
    requires done <= 2
    ensures OnChannel(Pair(job)[..done], job.channel) == Pair(job)[..done]
  {
    OnChannelPair(job, job.channel);
    assert Pair(job)[..2] == Pair(job) && Pair(job)[..1] == [Write(job, false)] && Pair(job)[..0] == [];
    assert [Write(job, false)][..0] == [];
  }

  lemma RerunOfChannel(tables: Tables, jobs: seq<Job>, n: nat, first: map<Channel, AlertState>, again: map<Channel,
                       AlertState>,
                       rule: Rule, c: Channel)
    requires PassReady(tables, jobs, rule) && n <= |Writes(jobs)|
    requires var crashed := Apply(tables, Writes(jobs)[..n], first, rule); LegalStates(crashed, again)
    ensures var crashed := Apply(tables, Writes(jobs)[..n], first, rule);
            At(Apply(crashed, Writes(jobs), again, rule), c) ==
            At(Apply(tables, Writes(jobs), UsedReads(tables, crashed, first, again), rule), c)
  {
    hide Writes, Executed, Apply, OnChannel, LegalRead;
    var ws := Writes(jobs);
    var crashed := Apply(tables, ws[..n], first, rule);
    var used := UsedReads(tables, crashed, first, again);
    ApplyAt(tables, ws[..n], first, rule, c);
    ApplyAt(crashed, ws, again, rule, c);
    ApplyAt(tables, ws, used, rule, c);
    if k :| 0 <= k < |jobs| && jobs[k].channel == c {
      PrefixOnChannel(jobs, n, k);
      OwnChannel(jobs, k);
      RerunOnChannel(At(tables, c), jobs[k], Executed(n, k), Lookup(first, c), Lookup(again, c), rule);
    } else {
      OtherChannels(jobs, c);
      assert ws == ws[..n] + ws[n..];
      OnChannelConcat(ws[..n], ws[n..], c);
    }
  }

  /** Crash anywhere, restart, run the whole pass over the same rows: the tables are those of one
      uninterrupted pass, for a legal read of the state before the crash. */
  lemma CrashRestart(tables: Tables, jobs: seq<Job>, n: nat, first: map<Channel, AlertState>, again: map<Channel,
                     AlertState>, rule: Rule)
    requires PassReady(tables, jobs, rule) && n <= |Writes(jobs)|
    requires LegalStates(tables, first)
    requires LegalStates(Apply(tables, Writes(jobs)[..n], first, rule), again)
    ensures var crashed := Apply(tables, Writes(jobs)[..n], first, rule);
            var used := UsedReads(tables, crashed, first, again);
            && LegalStates(tables, used)
            && Apply(crashed, Writes(jobs), again, rule) == Apply(tables, Writes(jobs), used, rule)
  {
    var ws := Writes(jobs);
    var crashed := Apply(tables, ws[..n], first, rule);
    var used := UsedReads(tables, crashed, first, again);
    UsedIsLegal(tables, crashed, first, again);
    var left, right := Apply(crashed, ws, again, rule), Apply(tables, ws, used, rule);
    forall c ensures (c in left <==> c in right) && At(left, c) == At(right, c) {
      RerunOfChannel(tables, jobs, n, first, again, rule, c);
      RerunKeepsChannels(tables, ws, n, first, again, used, rule, c);
    }
    hide Apply;
    assert left == right;
  }

  lemma UsedIsLegal(tables: Tables, crashed: Tables, first: map<Channel, AlertState>, again: map<Channel, AlertState>)
    requires LegalStates(tables, first) && LegalStates(crashed, again)
    ensures LegalStates(tables, UsedReads(tables, crashed, first, again))
  {
    var used := UsedReads(tables, crashed, first, again);
    forall c ensures LegalRead(At(tables, c), Lookup(used, c)) {
      assert LegalRead(At(tables, c), Lookup(first, c));
      assert LegalRead(At(crashed, c), Lookup(again, c));
    }
  }

  lemma RerunKeepsChannels(tables: Tables, ws: seq<Write>, n: nat, first: map<Channel, AlertState>,
                           again: map<Channel, AlertState>, used: map<Channel, AlertState>, rule: Rule, c: Channel)
    requires n <= |ws|
    ensures c in Apply(Apply(tables, ws[..n], first, rule), ws, again, rule) <==> c in Apply(tables, ws, used, rule)
  {
    hide Apply, OnChannel, Effects, At;
    ApplyAt(tables, ws[..n], first, rule, c);
    ApplyAt(Apply(tables, ws[..n], first, rule), ws, again, rule, c);
    ApplyAt(tables, ws, used, rule, c);
    assert ws == ws[..n] + ws[n..];
    OnChannelConcat(ws[..n], ws[n..], c);
  }

  lemma {:induction false} SameReads(tables: Tables, ws: seq<Write>, s: map<Channel, AlertState>, s': map<Channel,
                                     AlertState>, rule: Rule)
    requires forall c :: Lookup(s, c) == Lookup(s', c)
    ensures Apply(tables, ws, s, rule) == Apply(tables, ws, s', rule)
  {
    if ws != [] {
      SameReads(tables, ws[..|ws| - 1], s, s', rule);
    }
  }

  /** Without ties the reads are determined, and the crash leaves no trace at all. */
  lemma CrashRestartExact(tables: Tables, jobs: seq<Job>, n: nat, first: map<Channel, AlertState>, again: map<Channel,
                          AlertState>, rule: Rule)
    requires PassReady(tables, jobs, rule) && n <= |Writes(jobs)|
    requires LegalStates(tables, first)
    requires LegalStates(Apply(tables, Writes(jobs)[..n], first, rule), again)
    requires forall c :: TieFree(At(tables, c))
    ensures Apply(Apply(tables, Writes(jobs)[..n], first, rule), Writes(jobs), again, rule)
         == Apply(tables, Writes(jobs), first, rule)
  {
    var crashed := Apply(tables, Writes(jobs)[..n], first, rule);
    var used := UsedReads(tables, crashed, first, again);
    CrashRestart(tables, jobs, n, first, again, rule);
    forall c ensures Lookup(used, c) == Lookup(first, c) {
      OneLegalRead(At(tables, c), Lookup(used, c), Lookup(first, c));
    }
    SameReads(tables, Writes(jobs), used, first, rule);
  }

  lemma OneLegalRead(h: History, p: Option<AlertState>, q: Option<AlertState>)
    requires TieFree(h) && LegalRead(h, p) && LegalRead(h, q)
    ensures p == q
  {
  }

  // ---------------------------------------------------------------- idempotence

  /** Statements that would write no row leave everything as it is. */
  lemma {:induction false} QuietWrites(tables: Tables, ws: seq<Write>, states: map<Channel, AlertState>, rule: Rule)
    requires forall i :: 0 <= i < |ws| ==>
               var c := ws[i].job.channel;
               c in tables && !Counts(At(tables, c), ws[i], Lookup(states, c), rule)
    ensures Apply(tables, ws, states, rule) == tables && RowsWritten(tables, ws, states, rule) == NOTHING_WRITTEN
  {
    hide Counts, Effect, Bump;
    if ws != [] {
      var n := |ws| - 1;
      QuietWrites(tables, ws[..n], states, rule);
      var c := ws[n].job.channel;
      QuietWrite(At(tables, c), ws[n], Lookup(states, c), rule);
      assert tables[c := At(tables, c)] == tables;
    }
  }

  lemma QuietWrite(h: History, w: Write, previous: Option<AlertState>, rule: Rule)
    requires !Counts(h, w, previous, rule)
    ensures Effect(h, w, previous, rule) == h && Bump(h, w, previous, rule) == NOTHING_WRITTEN
  {
  }

  lemma {:induction false} WriteJob(jobs: seq<Job>, i: nat)
    requires i < |Writes(jobs)|
    ensures i / 2 < |jobs| && Writes(jobs)[i] == Pair(jobs[i / 2])[i % 2]
  {
    var n := |jobs| - 1;
    if i < 2 * n {
      WriteJob(jobs[..n], i);
    }
  }

  lemma DecidedIsQuiet(h: History, job: Job, first: Option<AlertState>, again: Option<AlertState>, rule: Rule)
    requires ValidRule(rule, job.metric) && AlertsBehind(h, job.fc) && !Ambiguous(h, job.metric, job.fc, rule)
    requires LegalRead(h, first) && LegalRead(Decided(h, job, first, rule), again)
    ensures !WritesForecast(Decided(h, job, first, rule), job.fc)
    ensures !WritesAlert(Decided(h, job, first, rule), job.metric, job.fc, again, rule)
  {
    var recorded := RecordForecast(h, job.fc);
    assert recorded.Log() == h.Log();
    assert forall tie :: IsTopTie(recorded, tie) <==> IsTopTie(h, tie);
    UnambiguousIsSettled(recorded, job.metric, job.fc, first, again, rule);
  }

  /** A second pass over unchanged rows writes nothing and bumps no counter, for every tie choice in
      either read, when no channel has a deciding tie below its watermark. */
  lemma PassIdempotent(tables: Tables, jobs: seq<Job>, first: map<Channel, AlertState>, again: map<Channel,
                       AlertState>, rule: Rule)
    requires PassReady(tables, jobs, rule)
    requires forall k :: 0 <= k < |jobs| ==> !Ambiguous(At(tables, jobs[k].channel), jobs[k].metric, jobs[k].fc, rule)
    requires LegalStates(tables, first) && LegalStates(Apply(tables, Writes(jobs), first, rule), again)
    ensures var done := Apply(tables, Writes(jobs), first, rule);
            && Apply(done, Writes(jobs), again, rule) == done
            && RowsWritten(done, Writes(jobs), again, rule) == NOTHING_WRITTEN
  {
    var ws, done := Writes(jobs), Apply(tables, Writes(jobs), first, rule);
    forall i | 0 <= i < |ws|
      ensures var c := ws[i].job.channel; c in done && !Counts(At(done, c), ws[i], Lookup(again, c), rule)
    {
      WriteJob(jobs, i);
      var k := i / 2;
      var c := jobs[k].channel;
      OwnChannel(jobs, k);
      ApplyAt(tables, ws, first, rule, c);
      PassOnChannel(tables, jobs, first, rule, k);
      assert LegalRead(At(tables, c), Lookup(first, c)) && LegalRead(At(done, c), Lookup(again, c));
      DecidedIsQuiet(At(tables, c), jobs[k], Lookup(first, c), Lookup(again, c), rule);
      hide Apply, Writes;
    }
    QuietWrites(done, ws, again, rule);
  }

  lemma {:induction false} TopExists(log: seq<AlertState>)
    requires log != []
    ensures exists s :: IsNewest(log, s)
  {
    var n := |log| - 1;
    if n == 0 {
      assert IsNewest(log, log[0]);
    } else {
      TopExists(log[..n]);
      var s :| IsNewest(log[..n], s);
      assert log == log[..n] + [log[n]];
      assert IsNewest(log, if s.asOf < log[n].asOf then log[n] else s);
    }
  }

  ghost function SomeRead(h: History): (previous: Option<AlertState>)
    ensures LegalRead(h, previous)
  {
    if h.alerts == [] then None
    else
      TopExists(h.Log());
      var s :| IsNewest(h.Log(), s);
      Some(s)
  }

  /** Some legal read of every channel, with a chosen one for channel c. */
  ghost function ReadsWith(tables: Tables, c: Channel, chosen: AlertState): (states: map<Channel, AlertState>)
    requires c in tables && LegalRead(At(tables, c), Some(chosen))
    ensures LegalStates(tables, states) && Lookup(states, c) == Some(chosen)
  {
    (map d | d in tables && SomeRead(tables[d]).Some? :: SomeRead(tables[d]).value)[c := chosen]
  }

  ghost predicate RepeatsQuietly(tables: Tables, jobs: seq<Job>, rule: Rule) {
    forall first, again ::
      LegalStates(tables, first) && LegalStates(Apply(tables, Writes(jobs), first, rule), again) ==>
        Apply(Apply(tables, Writes(jobs), first, rule), Writes(jobs), again, rule) ==
        Apply(tables, Writes(jobs), first, rule)
  }

  lemma DecidingTieRepeats(tables: Tables, jobs: seq<Job>, k: nat, rule: Rule)
    requires PassReady(tables, jobs, rule) && k < |jobs|
    requires Ambiguous(At(tables, jobs[k].channel), jobs[k].metric, jobs[k].fc, rule)
    ensures !RepeatsQuietly(tables, jobs, rule)
  {
    hide Apply, Writes;
    var job, c, ws := jobs[k], jobs[k].channel, Writes(jobs);
    var h := At(tables, c);
    var silent, loud := TiedReads(h, job.metric, job.fc, rule);
    var first := ReadsWith(tables, c, silent);
    var done := Apply(tables, ws, first, rule);
    PassOnChannel(tables, jobs, first, rule, k);
    OwnChannel(jobs, k);
    ApplyAt(tables, ws, first, rule, c);
    var h' := At(done, c);
    assert h'.alerts == h.alerts;
    var again := ReadsWith(done, c, loud);
    PassOnChannel(done, jobs, again, rule, k);
    assert Decided(h', job, Some(loud), rule).alerts != h'.alerts;
  }

  /** The two reads a deciding tie allows: one that adds nothing, one that adds a decision. */
  lemma TiedReads(h: History, metric: Metric, fc: Forecast, rule: Rule) returns (silent: AlertState, loud: AlertState)
    requires ValidRule(rule, metric) && AlertsBehind(h, fc) && Ambiguous(h, metric, fc, rule)
    ensures h.alerts != [] && LegalRead(h, Some(silent)) && LegalRead(h, Some(loud))
    ensures forall h': History :: h'.alerts == h.alerts ==>
              !WritesAlert(h', metric, fc, Some(silent), rule) && WritesAlert(h', metric, fc, Some(loud), rule)
  {
    var tie :| IsTopTie(h, tie) && TieDecides(tie, metric, fc, rule);
    var fires := Horizon(fc) <= metric.alertHorizonSeconds;
    silent := AlertState(if fires then Firing else Cleared, tie);
    loud := AlertState(if fires then Cleared else Firing, tie);
  }

  /** Repeating a pass over unchanged rows changes nothing, for every tie choice in either read,
      exactly when no channel has a deciding tie below its watermark. */
  lemma PassIdempotentIff(tables: Tables, jobs: seq<Job>, rule: Rule)
    requires PassReady(tables, jobs, rule)
    ensures RepeatsQuietly(tables, jobs, rule) <==>
            forall k :: 0 <= k < |jobs| ==> !Ambiguous(At(tables, jobs[k].channel), jobs[k].metric, jobs[k].fc, rule)
  {
    hide Ambiguous, LegalStates, Apply, Writes;
    if k :| 0 <= k < |jobs| && Ambiguous(At(tables, jobs[k].channel), jobs[k].metric, jobs[k].fc, rule) {
      DecidingTieRepeats(tables, jobs, k, rule);
    } else {
      forall first, again | LegalStates(tables, first) && LegalStates(Apply(tables, Writes(jobs), first, rule), again)
        ensures Apply(Apply(tables, Writes(jobs), first, rule), Writes(jobs), again, rule) ==
                Apply(tables, Writes(jobs), first, rule)
      {
        PassIdempotent(tables, jobs, first, again, rule);
      }
    }
  }

  // ---------------------------------------------------------------- plans over real rows

  /** A forecast's watermark is the newest sample it was made from. */
  lemma ForecastWatermark(samples: seq<Sample>, metric: Metric, now: real, windowStart: Option<real>, spread: Spread)
    requires IsValidSeries(samples)
    ensures ForecastOf(samples, metric, now, true, windowStart, spread).asOf ==
            if samples == [] then None else Some(samples[|samples| - 1].at)
  {
    hide FitLine, IsValidSeries, StaleAfter, ReachedEdge, Crossing, NewestSegmentStart, Newest;
  }

  lemma JobWatermark(rows: seq<Row>, device: string, metric: Metric, now: real, spread: Spread)
    requires Ordered(rows)
    ensures var job := JobFor(rows, device, metric, now, spread);
            job.fc.asOf == if SamplesSince(rows, device, metric.kind, WindowStart(metric, now)) == [] then None
                           else DeviceNewest(rows, device)
  {
    WindowIsValid(rows, device, metric.kind, WindowStart(metric, now));
    ForecastWatermark(SamplesSince(rows, device, metric.kind, WindowStart(metric, now)), metric, now,
                      Some(WindowStart(metric, now)), spread);
    hide ForecastOf;
  }

  /** `jobs[k]` is the job of device `d` and metric `m`. */
  lemma {:induction false} JobOrigin(rows: seq<Row>, devices: seq<string>, now: real, s: Settings, k: nat)
    returns (d: nat, m: nat)
    requires k < |JobsOf(rows, devices, now, s)|
    ensures d < |devices| && m < |s.metrics|
    ensures JobsOf(rows, devices, now, s)[k] == JobFor(rows, devices[d], s.metrics[m], now, s.spread)
    ensures k == |JobsOf(rows, devices[..d], now, s)| + m
  {
    hide JobFor;
    var n := |devices| - 1;
    var front := JobsOf(rows, devices[..n], now, s);
    if k < |front| {
      d, m := JobOrigin(rows, devices[..n], now, s, k);
      assert devices[..n][..d] == devices[..d];
    } else {
      d, m := n, k - |front|;
    }
  }

  lemma {:induction false} JobExists(rows: seq<Row>, devices: seq<string>, now: real, s: Settings, d: nat, m: nat)
    returns (k: nat)
    requires d < |devices| && m < |s.metrics|
    ensures k < |JobsOf(rows, devices, now, s)|
    ensures JobsOf(rows, devices, now, s)[k] == JobFor(rows, devices[d], s.metrics[m], now, s.spread)
  {
    hide JobFor;
    var n := |devices| - 1;
    if d < n {
      k := JobExists(rows, devices[..n], now, s, d, m);
    } else {
      k := |JobsOf(rows, devices[..n], now, s)| + m;
    }
  }

  lemma PlanIsDistinct(rows: seq<Row>, devices: seq<string>, now: real, s: Settings)
    requires ValidSettings(s)
    requires forall i, j :: 0 <= i < j < |devices| ==> devices[i] != devices[j]
    ensures Distinct(JobsOf(rows, devices, now, s))
  {
    var jobs := JobsOf(rows, devices, now, s);
    forall i, j | 0 <= i < j < |jobs| ensures jobs[i].channel != jobs[j].channel {
      var d, m := JobOrigin(rows, devices, now, s, i);
      var d', m' := JobOrigin(rows, devices, now, s, j);
      assert d == d' ==> m < m';
      hide ForecastOf, JobsOf;
    }
  }

  /** Nothing recorded is newer than the device's newest row, and decisions are in order. */
  ghost predicate Behind(rows: seq<Row>, tables: Tables) {
    forall c: Channel :: HistoryBehind(DeviceNewest(rows, c.device), At(tables, c))
  }

  ghost predicate HistoryBehind(newest: Option<real>, h: History) {
    && (forall t :: t in h.forecasts ==> newest.Some? && t <= newest.value)
    && (forall r :: r in h.Log() ==> newest.Some? && r.asOf <= newest.value)
    && InOrder(h.Log())
  }

  ghost predicate AtNewest(rows: seq<Row>, job: Job) {
    job.fc.asOf.Some? ==> job.fc.asOf == DeviceNewest(rows, job.channel.device)
  }

  lemma PlanAtNewest(rows: seq<Row>, now: real, s: Settings, k: nat)
    requires ValidSettings(s) && Ordered(rows) && k < |Plan(rows, now, s)|
    ensures AtNewest(rows, Plan(rows, now, s)[k])
    ensures ValidRule(s.rule, Plan(rows, now, s)[k].metric)
  {
    var devices := DevicesSince(rows, Longest(s.metrics, now));
    var d, m := JobOrigin(rows, devices, now, s, k);
    JobWatermark(rows, devices[d], s.metrics[m], now, s.spread);
    hide ForecastOf, JobsOf;
  }

  /** The plan over any ordered rows meets what the crash and idempotence results ask for. */
  lemma PlanIsReady(rows: seq<Row>, tables: Tables, now: real, s: Settings)
    requires ValidSettings(s) && Ordered(rows) && Behind(rows, tables)
    ensures PassReady(tables, Plan(rows, now, s), s.rule)
  {
    var jobs := Plan(rows, now, s);
    PlanIsDistinct(rows, DevicesSince(rows, Longest(s.metrics, now)), now, s);
    forall i | 0 <= i < |jobs|
      ensures ValidRule(s.rule, jobs[i].metric) && AlertsBehind(At(tables, jobs[i].channel), jobs[i].fc)
    {
      PlanAtNewest(rows, now, s, i);
      assert HistoryBehind(DeviceNewest(rows, jobs[i].channel.device), At(tables, jobs[i].channel));
      hide Plan;
    }
  }

  // ---------------------------------------------------------------- what every prefix of a pass keeps

  lemma {:induction false} ApplyKeepsBehind(rows: seq<Row>, tables: Tables, ws: seq<Write>, states: map<Channel,
                                            AlertState>, rule: Rule)
    requires Behind(rows, tables)
    requires forall i :: 0 <= i < |ws| ==> AtNewest(rows, ws[i].job)
    ensures Behind(rows, Apply(tables, ws, states, rule))
  {
    if ws != [] {
      var n := |ws| - 1;
      ApplyKeepsBehind(rows, tables, ws[..n], states, rule);
      var before, after := Apply(tables, ws[..n], states, rule), Apply(tables, ws, states, rule);
      var w, c := ws[n], ws[n].job.channel;
      EffectKeepsBehind(DeviceNewest(rows, c.device), At(before, c), w, Lookup(states, c), rule);
      forall d: Channel ensures HistoryBehind(DeviceNewest(rows, d.device), At(after, d)) {
        assert HistoryBehind(DeviceNewest(rows, d.device), At(before, d));
      }
    }
  }

  lemma EffectKeepsBehind(newest: Option<real>, h: History, w: Write, previous: Option<AlertState>, rule: Rule)
    requires HistoryBehind(newest, h)
    requires w.job.fc.asOf.Some? ==> w.job.fc.asOf == newest
    ensures HistoryBehind(newest, Effect(h, w, previous, rule))
  {
  }

  lemma GrowthKeepsBehind(before: seq<Row>, after: seq<Row>, tables: Tables)
    requires Ordered(before) && Ordered(after) && Grows(before, after)
    requires Behind(before, tables)
    ensures Behind(after, tables)
  {
    forall c: Channel ensures HistoryBehind(DeviceNewest(after, c.device), At(tables, c)) {
      assert HistoryBehind(DeviceNewest(before, c.device), At(tables, c));
      if DeviceNewest(before, c.device).Some? {
        NewestGrows(before, after, c.device);
      }
    }
  }

  ghost predicate AllJustified(tables: Tables, rule: Rule) {
    forall c :: Justified(At(tables, c), rule)
  }

  lemma {:induction false} ApplyKeepsJustified(tables: Tables, ws: seq<Write>, states: map<Channel, AlertState>,
                                               rule: Rule)
    requires AllJustified(tables, rule)
    ensures AllJustified(Apply(tables, ws, states, rule), rule)
  {
    if ws != [] {
      var n := |ws| - 1;
      ApplyKeepsJustified(tables, ws[..n], states, rule);
      var before, w := Apply(tables, ws[..n], states, rule), ws[n];
      var c := w.job.channel;
      assert Justified(At(before, c), rule);
      EffectIsJustified(At(before, c), w, Lookup(states, c), rule);
      hide Justified, Effect;
      forall d ensures Justified(At(Apply(tables, ws, states, rule), d), rule) {
        assert Justified(At(before, d), rule);
      }
    }
  }

  lemma EffectIsJustified(h: History, w: Write, previous: Option<AlertState>, rule: Rule)
    requires Justified(h, rule)
    ensures Justified(Effect(h, w, previous, rule), rule)
  {
    DecisionIsJustified(h, w.job.metric, w.job.fc, previous, rule);
    hide RecordAlert;
  }

  ghost predicate AllInOrder(tables: Tables) {
    forall c :: InOrder(At(tables, c).Log())
  }

  ghost predicate AllWellShaped(tables: Tables, rule: Rule) {
    forall c :: WellShaped(At(tables, c).Log(), rule)
  }

  /** The job decides from the earlier half of a tie that repeats. */
  predicate JobMisread(tables: Tables, job: Job, states: map<Channel, AlertState>, rule: Rule) {
    Misread(At(tables, job.channel).Log(), job.metric, job.fc, Lookup(states, job.channel), rule)
  }

  /** One of the decisions among the first n statements is such a job's. */
  ghost predicate Misreads(tables: Tables, jobs: seq<Job>, n: nat, states: map<Channel, AlertState>, rule: Rule) {
    exists k :: 0 <= k < |jobs| && 2 * k + 2 <= n && JobMisread(tables, jobs[k], states, rule)
  }

  lemma EffectsShape(h: History, job: Job, done: nat, previous: Option<AlertState>, rule: Rule)
    requires done <= 2 && ValidRule(rule, job.metric) && AlertsBehind(h, job.fc)
    requires InOrder(h.Log()) && WellShaped(h.Log(), rule) && LegalRead(h, previous)
    ensures WellShaped(Effects(h, Pair(job)[..done], previous, rule).Log(), rule)
       <==> !(done == 2 && Misread(h.Log(), job.metric, job.fc, previous, rule))
  {
    hide WellShaped, InOrder, Misread, Effects;
    EffectsOfPair(h, job, previous, rule);
    var recorded := RecordForecast(h, job.fc);
    assert recorded.Log() == h.Log();
    if done == 2 {
      ShapeKeptIffNotMisread(recorded, job.metric, job.fc, previous, rule);
    }
  }

  lemma ShapeOfOwn(tables: Tables, jobs: seq<Job>, n: nat, states: map<Channel, AlertState>, rule: Rule, k: nat)
    requires PassReady(tables, jobs, rule) && n <= |Writes(jobs)| && k < |jobs|
    requires LegalStates(tables, states) && AllWellShaped(tables, rule) && AllInOrder(tables)
    ensures WellShaped(At(Apply(tables, Writes(jobs)[..n], states, rule), jobs[k].channel).Log(), rule)
       <==> !(2 * k + 2 <= n && JobMisread(tables, jobs[k], states, rule))
  {
    hide WellShaped, InOrder, Misread, Writes, LegalRead, Apply, OnChannel, At, AlertsBehind;
    var c := jobs[k].channel;
    assert LegalRead(At(tables, c), Lookup(states, c));
    ApplyAt(tables, Writes(jobs)[..n], states, rule, c);
    PrefixOnChannel(jobs, n, k);
    EffectsShape(At(tables, c), jobs[k], Executed(n, k), Lookup(states, c), rule);
  }

  lemma ShapeOfOther(tables: Tables, jobs: seq<Job>, n: nat, states: map<Channel, AlertState>, rule: Rule, c: Channel)
    requires n <= |Writes(jobs)| && AllWellShaped(tables, rule)
    requires forall k :: 0 <= k < |jobs| ==> jobs[k].channel != c
    ensures WellShaped(At(Apply(tables, Writes(jobs)[..n], states, rule), c).Log(), rule)
  {
    hide WellShaped, Writes, Apply, At;
    var ws := Writes(jobs);
    ApplyAt(tables, ws[..n], states, rule, c);
    OtherChannels(jobs, c);
    assert ws == ws[..n] + ws[n..];
    OnChannelConcat(ws[..n], ws[n..], c);
  }

  /** Any prefix of a pass, hence any crash, keeps every alert log well shaped exactly when no
      decision in it was made from the earlier half of a tie that repeats. */
  lemma PrefixShapeIff(tables: Tables, jobs: seq<Job>, n: nat, states: map<Channel, AlertState>, rule: Rule)
    requires PassReady(tables, jobs, rule) && n <= |Writes(jobs)|
    requires LegalStates(tables, states) && AllWellShaped(tables, rule) && AllInOrder(tables)
    ensures AllWellShaped(Apply(tables, Writes(jobs)[..n], states, rule), rule)
       <==> !Misreads(tables, jobs, n, states, rule)
  {
    hide WellShaped, AllInOrder, JobMisread, Writes, Apply, LegalStates, PassReady, At;
    if k :| 0 <= k < |jobs| && 2 * k + 2 <= n && JobMisread(tables, jobs[k], states, rule) {
      ShapeOfOwn(tables, jobs, n, states, rule, k);
    } else {
      forall c ensures WellShaped(At(Apply(tables, Writes(jobs)[..n], states, rule), c).Log(), rule) {
        if k :| 0 <= k < |jobs| && jobs[k].channel == c {
          ShapeOfOwn(tables, jobs, n, states, rule, k);
        } else {
          ShapeOfOther(tables, jobs, n, states, rule, c);
        }
      }
    }
  }

  /** A pass keeps every alert log well shaped, for every legal read, exactly when no channel ends in
      a tie that repeats. */
  lemma PassShapeIff(tables: Tables, jobs: seq<Job>, rule: Rule)
    requires PassReady(tables, jobs, rule) && AllWellShaped(tables, rule) && AllInOrder(tables)
    ensures (forall states :: LegalStates(tables, states) ==>
               AllWellShaped(Apply(tables, Writes(jobs), states, rule), rule))
       <==> forall k :: 0 <= k < |jobs| ==>
              !TieRepeats(At(tables, jobs[k].channel).Log(), jobs[k].metric, jobs[k].fc, rule)
  {
    hide AllWellShaped, Writes, Apply, LegalStates, TieRepeats, PassReady;
    var ws := Writes(jobs);
    assert ws[..|ws|] == ws;
    forall states | LegalStates(tables, states)
      ensures AllWellShaped(Apply(tables, ws, states, rule), rule) <==> !Misreads(tables, jobs, |ws|, states, rule)
    {
      PrefixShapeIff(tables, jobs, |ws|, states, rule);
    }
    if k :| 0 <= k < |jobs| && TieRepeats(At(tables, jobs[k].channel).Log(), jobs[k].metric, jobs[k].fc, rule) {
      var states := MisreadingStates(tables, jobs[k], rule);
      assert Misreads(tables, jobs, |ws|, states, rule);
    }
  }

  lemma MisreadingStates(tables: Tables, job: Job, rule: Rule) returns (states: map<Channel, AlertState>)
    requires InOrder(At(tables, job.channel).Log())
    requires TieRepeats(At(tables, job.channel).Log(), job.metric, job.fc, rule)
    ensures LegalStates(tables, states) && JobMisread(tables, job, states, rule)
  {
    var h := At(tables, job.channel);
    EarlierIsLegal(h);
    states := ReadsWith(tables, job.channel, h.Log()[|h.Log()| - 2]);
  }

  /** Alert logs are append-only. */
  lemma {:induction false} ApplyExtendsLogs(tables: Tables, ws: seq<Write>, states: map<Channel, AlertState>,
                                            rule: Rule, c: Channel)
    ensures At(tables, c).Log() <= At(Apply(tables, ws, states, rule), c).Log()
  {
    if ws != [] {
      ApplyExtendsLogs(tables, ws[..|ws| - 1], states, rule, c);
      var h := At(Apply(tables, ws[..|ws| - 1], states, rule), c);
      var w := ws[|ws| - 1];
      assert RecordForecast(h, w.job.fc).Log() == h.Log();
      assert h.Log() <= Effect(h, w, Lookup(states, c), rule).Log();
    }
  }

  /** So a misshapen log stays misshapen. */
  lemma ShapeOnlyLost(tables: Tables, ws: seq<Write>, states: map<Channel, AlertState>, rule: Rule)
    requires AllWellShaped(Apply(tables, ws, states, rule), rule)
    ensures AllWellShaped(tables, rule)
  {
    hide Apply;
    var after := Apply(tables, ws, states, rule);
    forall c ensures WellShaped(At(tables, c).Log(), rule) {
      ApplyExtendsLogs(tables, ws, states, rule, c);
      assert WellShaped(At(after, c).Log(), rule);
      PrefixIsShaped(At(tables, c).Log(), At(after, c).Log(), rule);
    }
  }

  lemma PrefixIsShaped(front: seq<AlertState>, log: seq<AlertState>, rule: Rule)
    requires front <= log && WellShaped(log, rule)
    ensures WellShaped(front, rule)
  {
    assert forall i :: 0 <= i < |front| ==> front[i] == log[i];
  }

  // ---------------------------------------------------------------- the latest forecast row

  ghost predicate IsLatest(h: History, at: real) {
    at in h.forecasts && forall t :: t in h.forecasts ==> t <= at
  }

  /** For every device and metric with samples in its window, the latest forecast row has the
      device's newest timestamp and the status the model returns now. */
  ghost predicate Agrees(rows: seq<Row>, now: real, s: Settings, tables: Tables) {
    forall d, m :: 0 <= m < |s.metrics| ==> AgreesOn(rows, now, s, tables, d, s.metrics[m])
  }

  ghost predicate AgreesOn(rows: seq<Row>, now: real, s: Settings, tables: Tables, d: string, metric: Metric) {
    SamplesSince(rows, d, metric.kind, WindowStart(metric, now)) != [] ==>
      var h, fc := At(tables, Channel(d, metric.kind)), JobFor(rows, d, metric, now, s.spread).fc;
      && fc.asOf.Some? && fc.asOf == DeviceNewest(rows, d)
      && IsLatest(h, fc.asOf.value)
      && h.forecasts[fc.asOf.value].status == fc.status
  }

  /** A window with samples has a job in the plan. */
  lemma WindowHasJob(rows: seq<Row>, now: real, s: Settings, d: string, m: nat) returns (k: nat)
    requires ValidSettings(s) && Ordered(rows) && m < |s.metrics|
    requires SamplesSince(rows, d, s.metrics[m].kind, WindowStart(s.metrics[m], now)) != []
    ensures k < |Plan(rows, now, s)| && Plan(rows, now, s)[k] == JobFor(rows, d, s.metrics[m], now, s.spread)
  {
    hide JobFor;
    var start, longest := WindowStart(s.metrics[m], now), Longest(s.metrics, now);
    WindowIsValid(rows, d, s.metrics[m].kind, start);
    LongestIsEarliest(s.metrics, now, m);
    DeviceListed(rows, longest, d);
    var devices := DevicesSince(rows, longest);
    var i :| 0 <= i < |devices| && devices[i] == d;
    k := JobExists(rows, devices, now, s, i, m);
  }

  /** What a pass leaves on a channel whose window has samples. */
  lemma PassDecides(rows: seq<Row>, tables: Tables, now: real, s: Settings, states: map<Channel, AlertState>,
                    d: string, m: nat)
    requires ValidSettings(s) && Ordered(rows) && m < |s.metrics|
    requires SamplesSince(rows, d, s.metrics[m].kind, WindowStart(s.metrics[m], now)) != []
    ensures var job := JobFor(rows, d, s.metrics[m], now, s.spread);
            var c := Channel(d, s.metrics[m].kind);
            At(Apply(tables, Writes(Plan(rows, now, s)), states, s.rule), c) ==
            Decided(At(tables, c), job, Lookup(states, c), s.rule)
  {
    hide ForecastOf, Apply, Writes, Decided, Ordered;
    var k := WindowHasJob(rows, now, s, d, m);
    PlanIsDistinct(rows, DevicesSince(rows, Longest(s.metrics, now)), now, s);
    PassOnChannel(tables, Plan(rows, now, s), states, s.rule, k);
  }

  lemma DecidedIsLatest(h: History, job: Job, previous: Option<AlertState>, rule: Rule)
    requires HistoryBehind(job.fc.asOf, h) && job.fc.asOf.Some?
    ensures var h' := Decided(h, job, previous, rule);
            IsLatest(h', job.fc.asOf.value) && h'.forecasts[job.fc.asOf.value].status == job.fc.status
  {
  }

  lemma PassAgreesOn(rows: seq<Row>, tables: Tables, now: real, s: Settings, states: map<Channel, AlertState>,
                     d: string, m: nat)
    requires ValidSettings(s) && Ordered(rows) && Behind(rows, tables) && m < |s.metrics|
    ensures AgreesOn(rows, now, s, Apply(tables, Writes(Plan(rows, now, s)), states, s.rule), d, s.metrics[m])
  {
    hide ForecastOf, Apply, Writes, Plan, Decided, IsLatest, HistoryBehind, Ordered;
    var metric := s.metrics[m];
    if SamplesSince(rows, d, metric.kind, WindowStart(metric, now)) != [] {
      JobWatermark(rows, d, metric, now, s.spread);
      WindowIsValid(rows, d, metric.kind, WindowStart(metric, now));
      PassDecides(rows, tables, now, s, states, d, m);
      var c := Channel(d, metric.kind);
      assert HistoryBehind(DeviceNewest(rows, d), At(tables, c));
      DecidedIsLatest(At(tables, c), JobFor(rows, d, metric, now, s.spread), Lookup(states, c), s.rule);
    }
  }

  /** After a completed pass the latest rows agree with the model, stale devices included. */
  lemma PassAgrees(rows: seq<Row>, tables: Tables, now: real, s: Settings, states: map<Channel, AlertState>)
    requires ValidSettings(s) && Ordered(rows) && Behind(rows, tables)
    ensures Agrees(rows, now, s, Apply(tables, Writes(Plan(rows, now, s)), states, s.rule))
  {
    forall d, m | 0 <= m < |s.metrics|
      ensures AgreesOn(rows, now, s, Apply(tables, Writes(Plan(rows, now, s)), states, s.rule), d, s.metrics[m])
    {
      PassAgreesOn(rows, tables, now, s, states, d, m);
    }
  }

  // ---------------------------------------------------------------- the skip guard

  /** The model answers as it did before for one device and metric: if its window has samples now, it
      had samples before, ending at the same time and giving the same status. */
  ghost predicate AnswerKept(before: seq<Row>, after: seq<Row>, now: real, s: Settings, d: string, metric: Metric) {
    SamplesSince(after, d, metric.kind, WindowStart(metric, now)) != [] ==>
      && SamplesSince(before, d, metric.kind, WindowStart(metric, now)) != []
      && DeviceNewest(before, d) == DeviceNewest(after, d)
      && JobFor(before, d, metric, now, s.spread).fc.status == JobFor(after, d, metric, now, s.spread).fc.status
  }

  ghost predicate AnswersKept(before: seq<Row>, after: seq<Row>, now: real, s: Settings) {
    forall d, m :: 0 <= m < |s.metrics| ==> AnswerKept(before, after, now, s, d, s.metrics[m])
  }

  lemma SkipOnChannel(before: seq<Row>, after: seq<Row>, now: real, s: Settings, tables: Tables, d: string,
                      metric: Metric)
    requires Ordered(before) && Ordered(after) && Grows(before, after) && Behind(before, tables)
    requires AgreesOn(before, now, s, tables, d, metric)
    ensures AgreesOn(after, now, s, tables, d, metric) <==> AnswerKept(before, after, now, s, d, metric)
  {
    hide ForecastOf, SamplesSince, Ordered, DeviceNewest;
    var start, h := WindowStart(metric, now), At(tables, Channel(d, metric.kind));
    if SamplesSince(after, d, metric.kind, start) != [] {
      JobWatermark(before, d, metric, now, s.spread);
      JobWatermark(after, d, metric, now, s.spread);
      WindowIsValid(after, d, metric.kind, start);
      assert HistoryBehind(DeviceNewest(before, d), h);
      if IsLatest(h, DeviceNewest(after, d).value) {
        NewestGrows(before, after, d);
        WindowStaysOpen(before, after, d, metric.kind, start);
      }
    }
  }

  lemma WindowStaysOpen(before: seq<Row>, after: seq<Row>, d: string, kind: Kind, start: real)
    requires Ordered(before) && Ordered(after) && SamplesSince(after, d, kind, start) != []
    requires DeviceNewest(before, d).Some? && DeviceNewest(before, d) == DeviceNewest(after, d)
    ensures SamplesSince(before, d, kind, start) != []
  {
    WindowIsValid(before, d, kind, start);
    WindowIsValid(after, d, kind, start);
    NewestIsMaximum(before, d);
    NewestIsMaximum(after, d);
  }

  /** The skip guard looks only at the fleet's newest row. A skipped pass leaves the latest rows in
      agreement with the model exactly when every answer is the one it gave before. */
  lemma SkipAgreesIff(before: seq<Row>, after: seq<Row>, now: real, s: Settings, tables: Tables)
    requires Ordered(before) && Ordered(after) && Grows(before, after)
    requires Behind(before, tables) && Agrees(before, now, s, tables)
    ensures Agrees(after, now, s, tables) <==> AnswersKept(before, after, now, s)
  {
    hide Ordered, Grows, Behind, AgreesOn, AnswerKept;
    forall d, m | 0 <= m < |s.metrics|
      ensures AgreesOn(after, now, s, tables, d, s.metrics[m]) <==> AnswerKept(before, after, now, s, d, s.metrics[m])
    {
      assert AgreesOn(before, now, s, tables, d, s.metrics[m]);
      SkipOnChannel(before, after, now, s, tables, d, s.metrics[m]);
    }
  }

  /** A pass is skipped only when the data time is the one of the last pass. */
  lemma SkippedAtSameTime(before: seq<Row>, after: seq<Row>)
    requires Grows(before, after) && before != [] && after != []
    requires FleetNewest(after).value <= FleetNewest(before).value
    ensures FleetNewest(after) == FleetNewest(before)
  {
    var i :| 0 <= i < |before| && before[i].at == FleetNewest(before).value;
    assert before[i] in after;
    var j :| 0 <= j < |after| && after[j] == before[i];
  }
}
