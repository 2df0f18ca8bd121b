/** The alert rule, the rows it leaves in the tables, and what repeating it does. */
module AlertRule {
  import opened ForecastModel
  import opened Series

  datatype Transition = Firing | Cleared

  /** A recorded alert decision: with the device and kind, the unique key of its row. */
  datatype AlertState = AlertState(state: Transition, asOf: real)

  datatype Rule = Rule(cooldownSeconds: real, clearFactor: real)

  predicate ValidRule(rule: Rule, metric: Metric) {
    rule.cooldownSeconds > 0.0 && rule.clearFactor >= 1.0 && metric.alertHorizonSeconds > 0.0
  }

  function Horizon(fc: Forecast): real
    requires fc.crossesAt.Some? && fc.asOf.Some?
  {
    Max(fc.crossesAt.value - fc.asOf.value, 0.0)
  }

  function ClearAbove(rule: Rule, metric: Metric): real {
    metric.alertHorizonSeconds * rule.clearFactor
  }

  /** Whether this forecast changes the alert state. */
  function AlertTransition(fc: Forecast, metric: Metric, previous: Option<AlertState>, rule: Rule): Option<Transition> {
    if fc.crossesAt == None || fc.asOf == None then None
    else if Horizon(fc) <= metric.alertHorizonSeconds then
      if previous == None || previous.value.state == Cleared then Some(Firing)
      else if fc.asOf.value - previous.value.asOf >= rule.cooldownSeconds then Some(Firing)
      else None
    else if previous.Some? && previous.value.state == Firing && Horizon(fc) > ClearAbove(rule, metric) then
      Some(Cleared)
    else None
  }

  /** The rule as a table. It fires when the crossing is within the threshold and nothing is firing or the cooldown is
      over, clears what is firing when the crossing is beyond the clearing level, and is silent otherwise. */
  lemma RuleTable(fc: Forecast, metric: Metric, previous: Option<AlertState>, rule: Rule)
    requires ValidRule(rule, metric)
    ensures AlertTransition(fc, metric, previous, rule) == Some(Firing) <==>
              && fc.crossesAt.Some? && fc.asOf.Some?
              && fc.crossesAt.value <= fc.asOf.value + metric.alertHorizonSeconds
              && (previous.Some? && previous.value.state == Firing ==>
                    fc.asOf.value >= previous.value.asOf + rule.cooldownSeconds)
    ensures AlertTransition(fc, metric, previous, rule) == Some(Cleared) <==>
              && fc.crossesAt.Some? && fc.asOf.Some?
              && fc.crossesAt.value > fc.asOf.value + metric.alertHorizonSeconds * rule.clearFactor
              && previous.Some? && previous.value.state == Firing
  {
    assert metric.alertHorizonSeconds * rule.clearFactor >= metric.alertHorizonSeconds;
  }

  // ---------------------------------------------------------------- rows

  datatype ForecastRow = ForecastRow(
    status: Status,
    target: real,
    latestValue: Option<real>,
    crossesAt: Option<real>,
    crossesAtEarliest: Option<real>,
    crossesAtLatest: Option<real>,
    slopePerHour: Option<real>,
    residualMad: Option<real>,
    fitPoints: Option<nat>,
    segmentPoints: Option<nat>,
    fitSpanSeconds: Option<real>,
    truncated: bool)

  /** One row of alert_events: its key and its columns. */
  datatype AlertRow = AlertRow(key: AlertState, crossesAt: real, horizonSeconds: real, thresholdSeconds: real)

  /** The rows of one (device, kind): forecasts by watermark, alert decisions in the order of their
      insertion. Row ids, wall-clock columns and delivery columns are not part of it. */
  datatype History = History(forecasts: map<real, ForecastRow>, alerts: seq<AlertRow>) {
    /** The alert log: the recorded decisions in the order of their insertion. */
    function Log(): (log: seq<AlertState>)
      ensures |log| == |alerts|
      ensures forall i :: 0 <= i < |log| ==> log[i] == alerts[i].key
    {
      seq(|alerts|, i requires 0 <= i < |alerts| => alerts[i].key)
    }
  }

  const EMPTY: History := History(map[], [])

  function RowOf(fc: Forecast): ForecastRow {
    match fc.fit
    case None =>
      ForecastRow(fc.status, fc.target, fc.latestValue, fc.crossesAt, fc.crossesAtEarliest, fc.crossesAtLatest,
                  None, None, None, None, None, false)
    case Some(fit) =>
      ForecastRow(fc.status, fc.target, fc.latestValue, fc.crossesAt, fc.crossesAtEarliest, fc.crossesAtLatest,
                  Some(fit.slopePerHour), Some(fit.residualMad), Some(fit.points), Some(fit.segmentPoints),
                  Some(fit.spanSeconds), fit.truncated)
  }

  /** The row holds what the forecast says, column by column. */
  predicate Carries(row: ForecastRow, fc: Forecast) {
    && row.status == fc.status && row.target == fc.target && row.latestValue == fc.latestValue
    && row.crossesAt == fc.crossesAt
    && row.crossesAtEarliest == fc.crossesAtEarliest && row.crossesAtLatest == fc.crossesAtLatest
    && match fc.fit
       case None =>
         && row.slopePerHour == None && row.residualMad == None && row.fitSpanSeconds == None
         && row.fitPoints == None && row.segmentPoints == None && !row.truncated
       case Some(fit) =>
         && row.slopePerHour == Some(fit.slopePerHour) && row.residualMad == Some(fit.residualMad)
         && row.fitSpanSeconds == Some(fit.spanSeconds) && row.fitPoints == Some(fit.points)
         && row.segmentPoints == Some(fit.segmentPoints) && row.truncated == fit.truncated
  }

  /** What a reader of the table may rely on: a crossing exactly for the three statuses that promise one, never
      before the watermark and inside its band, and fit columns exactly for the fitted statuses. */
  predicate HonestRow(at: real, row: ForecastRow) {
    && (row.crossesAt.Some? <==> row.status in {Ok, BeyondHorizon, AtOrBelowTarget})
    && (row.crossesAt.Some? ==>
          && row.crossesAtEarliest.Some? && at <= row.crossesAtEarliest.value <= row.crossesAt.value
          && (row.crossesAtLatest.Some? ==> row.crossesAt.value <= row.crossesAtLatest.value))
    && (row.slopePerHour.Some? <==> row.status in {NotDepleting, Ok, BeyondHorizon})
    && (row.slopePerHour.Some? ==> (row.slopePerHour.value >= 0.0 <==> row.status == NotDepleting))
  }

  /** Whether the status-gated upsert writes: not for a forecast without a watermark, nor for a
      watermark that already carries this status. */
  predicate WritesForecast(h: History, fc: Forecast) {
    fc.asOf.Some? && !(fc.asOf.value in h.forecasts && h.forecasts[fc.asOf.value].status == fc.status)
  }

  function RecordForecast(h: History, fc: Forecast): History {
    if WritesForecast(h, fc) then h.(forecasts := h.forecasts[fc.asOf.value := RowOf(fc)]) else h
  }

  /** Whether the decision is new: a conflict on the unique key writes nothing. */
  predicate WritesAlert(h: History, metric: Metric, fc: Forecast, previous: Option<AlertState>, rule: Rule) {
    var transition := AlertTransition(fc, metric, previous, rule);
    transition.Some? && AlertState(transition.value, fc.asOf.value) !in h.Log()
  }

  /** The decision that is written. */
  function Decision(h: History, metric: Metric, fc: Forecast, previous: Option<AlertState>, rule: Rule): AlertState
    requires WritesAlert(h, metric, fc, previous, rule)
  {
    AlertState(AlertTransition(fc, metric, previous, rule).value, fc.asOf.value)
  }

  function RecordAlert(h: History, metric: Metric, fc: Forecast, previous: Option<AlertState>,
                       rule: Rule): (h': History)
    ensures h'.Log() == if WritesAlert(h, metric, fc, previous, rule)
                        then h.Log() + [Decision(h, metric, fc, previous, rule)] else h.Log()
  {
    if WritesAlert(h, metric, fc, previous, rule) then
      var row := AlertRow(Decision(h, metric, fc, previous, rule), fc.crossesAt.value, Horizon(fc),
                          metric.alertHorizonSeconds);
      h.(alerts := h.alerts + [row])
    else h
  }

  /** What the read of the latest decision may return. Ties on the watermark are broken arbitrarily. */
  ghost predicate LegalRead(h: History, previous: Option<AlertState>) {
    match previous
    case None => h.alerts == []
    case Some(s) => s in h.Log() && forall r :: r in h.Log() ==> r.asOf <= s.asOf
  }

  /** No recorded decision is newer than the forecast. */
  ghost predicate AlertsBehind(h: History, fc: Forecast) {
    fc.asOf.Some? ==> forall r :: r in h.Log() ==> r.asOf <= fc.asOf.value
  }

  // ---------------------------------------------------------------- repeating a decision

  lemma ForecastTwice(h: History, fc: Forecast)
    ensures RecordForecast(RecordForecast(h, fc), fc) == RecordForecast(h, fc)
  {
  }

  /** After a decision is recorded at the watermark, deciding again with any legal read adds nothing. */
  lemma RecordedIsSettled(h: History, metric: Metric, fc: Forecast, first: Option<AlertState>,
                          again: Option<AlertState>, rule: Rule)
    requires ValidRule(rule, metric) && AlertsBehind(h, fc)
    requires WritesAlert(h, metric, fc, first, rule)
    requires LegalRead(RecordAlert(h, metric, fc, first, rule), again)
    ensures !WritesAlert(RecordAlert(h, metric, fc, first, rule), metric, fc, again, rule)
  {
    assert Decision(h, metric, fc, first, rule) in RecordAlert(h, metric, fc, first, rule).Log();
    assert again.Some? && again.value.asOf == fc.asOf.value;
    assert ClearAbove(rule, metric) >= metric.alertHorizonSeconds;
  }

  /** Deciding twice on the same forecast is deciding once: with the first read if it wrote, with
      the second otherwise. */
  lemma AlertTwice(h: History, metric: Metric, fc: Forecast, first: Option<AlertState>,
                   again: Option<AlertState>, rule: Rule)
    requires ValidRule(rule, metric) && AlertsBehind(h, fc)
    requires LegalRead(RecordAlert(h, metric, fc, first, rule), again)
    ensures RecordAlert(RecordAlert(h, metric, fc, first, rule), metric, fc, again, rule) ==
            RecordAlert(h, metric, fc, if WritesAlert(h, metric, fc, first, rule) then first else again, rule)
  {
    if WritesAlert(h, metric, fc, first, rule) {
      RecordedIsSettled(h, metric, fc, first, again, rule);
    }
  }

  /** Both states recorded at the greatest watermark, below the forecast's, and a horizon for which
      the rule answers one of them and not the other. */
  predicate TieDecides(tie: real, metric: Metric, fc: Forecast, rule: Rule) {
    && fc.crossesAt.Some? && fc.asOf.Some? && tie < fc.asOf.value
    && if Horizon(fc) <= metric.alertHorizonSeconds then fc.asOf.value - tie < rule.cooldownSeconds
       else Horizon(fc) > ClearAbove(rule, metric)
  }

  ghost predicate Ambiguous(h: History, metric: Metric, fc: Forecast, rule: Rule) {
    exists tie :: IsTopTie(h, tie) && TieDecides(tie, metric, fc, rule)
  }

  ghost predicate IsTopTie(h: History, tie: real) {
    && AlertState(Firing, tie) in h.Log() && AlertState(Cleared, tie) in h.Log()
    && forall r :: r in h.Log() ==> r.asOf <= tie
  }

  ghost predicate Idempotent(h: History, metric: Metric, fc: Forecast, rule: Rule) {
    forall first, again ::
      LegalRead(h, first) && LegalRead(RecordAlert(h, metric, fc, first, rule), again) ==>
        !WritesAlert(RecordAlert(h, metric, fc, first, rule), metric, fc, again, rule)
  }

  lemma UnambiguousIsSettled(h: History, metric: Metric, fc: Forecast, first: Option<AlertState>,
                             again: Option<AlertState>, rule: Rule)
    requires ValidRule(rule, metric) && AlertsBehind(h, fc) && !Ambiguous(h, metric, fc, rule)
    requires LegalRead(h, first) && LegalRead(RecordAlert(h, metric, fc, first, rule), again)
    ensures !WritesAlert(RecordAlert(h, metric, fc, first, rule), metric, fc, again, rule)
  {
    if WritesAlert(h, metric, fc, first, rule) {
      RecordedIsSettled(h, metric, fc, first, again, rule);
    } else if first != again && first.Some? {
      var tie := first.value.asOf;
      assert again.value.asOf == tie;
      var a, b := first.value, again.value;
      assert a.state != b.state;
      var firing, cleared := if a.state == Firing then a else b, if a.state == Firing then b else a;
      assert firing == AlertState(Firing, tie) && cleared == AlertState(Cleared, tie);
      assert IsTopTie(h, tie);
      assert !TieDecides(tie, metric, fc, rule);
      assert ClearAbove(rule, metric) >= metric.alertHorizonSeconds;
    }
  }

  /** Deciding again over unchanged data adds nothing, whatever the ties, exactly when no tie below
      the watermark decides. */
  lemma IdempotentIffUnambiguous(h: History, metric: Metric, fc: Forecast, rule: Rule)
    requires ValidRule(rule, metric) && AlertsBehind(h, fc)
    ensures Idempotent(h, metric, fc, rule) <==> !Ambiguous(h, metric, fc, rule)
  {
    if Ambiguous(h, metric, fc, rule) {
      var tie :| IsTopTie(h, tie) && TieDecides(tie, metric, fc, rule);
      var fires := Horizon(fc) <= metric.alertHorizonSeconds;
      var silent := Some(AlertState(if fires then Firing else Cleared, tie));
      var loud := Some(AlertState(if fires then Cleared else Firing, tie));
      assert LegalRead(h, silent) && LegalRead(h, loud);
      assert RecordAlert(h, metric, fc, silent, rule) == h;
      assert WritesAlert(h, metric, fc, loud, rule);
    } else {
      forall first, again | LegalRead(h, first) && LegalRead(RecordAlert(h, metric, fc, first, rule), again)
        ensures !WritesAlert(RecordAlert(h, metric, fc, first, rule), metric, fc, again, rule)
      {
        UnambiguousIsSettled(h, metric, fc, first, again, rule);
      }
    }
  }

  /** After a decision the log tracks the horizon: in the alerting condition there is a firing
      decision younger than the cooldown, and beyond the clearing level the newest decision on
      record, if any, is a cleared one. */
  lemma LogTracksHorizon(h: History, metric: Metric, fc: Forecast, previous: Option<AlertState>, rule: Rule)
    requires ValidRule(rule, metric) && AlertsBehind(h, fc) && LegalRead(h, previous)
    requires fc.crossesAt.Some? && fc.asOf.Some?
    ensures var log := RecordAlert(h, metric, fc, previous, rule).Log();
            && (Horizon(fc) <= metric.alertHorizonSeconds ==>
                  exists r :: r in log && r.state == Firing && fc.asOf.value - r.asOf < rule.cooldownSeconds)
            && (Horizon(fc) > ClearAbove(rule, metric) ==>
                  log == [] || exists r :: IsNewest(log, r) && r.state == Cleared)
  {
    var log := RecordAlert(h, metric, fc, previous, rule).Log();
    assert ClearAbove(rule, metric) >= metric.alertHorizonSeconds;
    if Horizon(fc) <= metric.alertHorizonSeconds {
      if AlertTransition(fc, metric, previous, rule) == Some(Firing) {
        DecidedIsRecorded(h, metric, fc, previous, rule);
      } else {
        assert !WritesAlert(h, metric, fc, previous, rule) && previous.value in log;
      }
    } else if Horizon(fc) > ClearAbove(rule, metric) && previous.Some? {
      if previous.value.state == Firing {
        DecidedIsRecorded(h, metric, fc, previous, rule);
        assert IsNewest(log, AlertState(Cleared, fc.asOf.value));
      } else {
        assert !WritesAlert(h, metric, fc, previous, rule) && IsNewest(log, previous.value);
      }
    }
  }

  /** What the rule answers is on record afterwards, and nothing newer is. */
  lemma DecidedIsRecorded(h: History, metric: Metric, fc: Forecast, previous: Option<AlertState>, rule: Rule)
    requires AlertsBehind(h, fc) && AlertTransition(fc, metric, previous, rule).Some?
    ensures IsNewest(RecordAlert(h, metric, fc, previous, rule).Log(),
                     AlertState(AlertTransition(fc, metric, previous, rule).value, fc.asOf.value))
  {
    var log := RecordAlert(h, metric, fc, previous, rule).Log();
    if WritesAlert(h, metric, fc, previous, rule) {
      assert log[|log| - 1] == Decision(h, metric, fc, previous, rule);
      assert forall q :: q in log ==> q in h.Log() || q == log[|log| - 1];
    }
  }

  ghost predicate IsNewest(log: seq<AlertState>, s: AlertState) {
    s in log && forall q :: q in log ==> q.asOf <= s.asOf
  }

  /** Every row keeps its side of the hysteresis band. */
  ghost predicate Justified(h: History, rule: Rule) {
    forall i :: 0 <= i < |h.alerts| ==> RowJustified(h.alerts[i], rule)
  }

  predicate RowJustified(row: AlertRow, rule: Rule) {
    && row.horizonSeconds == (if row.crossesAt > row.key.asOf then row.crossesAt - row.key.asOf else 0.0)
    && match row.key.state
       case Firing => row.horizonSeconds <= row.thresholdSeconds
       case Cleared => row.horizonSeconds > row.thresholdSeconds * rule.clearFactor
  }

  /** The columns of a new alert row. */
  lemma NewAlertRow(h: History, metric: Metric, fc: Forecast, previous: Option<AlertState>, rule: Rule)
    requires WritesAlert(h, metric, fc, previous, rule)
    ensures var h' := RecordAlert(h, metric, fc, previous, rule);
            && h'.forecasts == h.forecasts && |h'.alerts| == |h.alerts| + 1 && h.alerts <= h'.alerts
            && var row := h'.alerts[|h.alerts|];
               && Some(row.key.asOf) == fc.asOf && Some(row.crossesAt) == fc.crossesAt
               && row.thresholdSeconds == metric.alertHorizonSeconds && RowJustified(row, rule)
  {
  }

  lemma DecisionIsJustified(h: History, metric: Metric, fc: Forecast, previous: Option<AlertState>, rule: Rule)
    requires Justified(h, rule)
    ensures Justified(RecordAlert(h, metric, fc, previous, rule), rule)
  {
  }

  /** A horizon between the threshold and the clearing level adds no event. */
  lemma BandAddsNothing(h: History, metric: Metric, fc: Forecast, previous: Option<AlertState>, rule: Rule)
    requires fc.crossesAt.Some? && fc.asOf.Some?
    requires metric.alertHorizonSeconds < Horizon(fc) <= ClearAbove(rule, metric)
    ensures RecordAlert(h, metric, fc, previous, rule) == h
  {
  }

  // ---------------------------------------------------------------- the shape of the log

  /** No two decisions share a watermark. */
  ghost predicate TieFree(h: History) {
    forall r, s :: r in h.Log() && s in h.Log() && r.asOf == s.asOf ==> r == s
  }

  /** Decisions are inserted in the order of their watermarks, each under its own key. */
  ghost predicate InOrder(log: seq<AlertState>) {
    forall i, j :: 0 <= i < j < |log| ==> log[i].asOf <= log[j].asOf && log[i] != log[j]
  }

  /** Whether `s` may come next after `r`: cleared never follows cleared, and firing follows firing
      only after the cooldown. */
  predicate MayFollow(r: AlertState, s: AlertState, rule: Rule) {
    match s.state
    case Cleared => r.state == Firing
    case Firing => r.state == Cleared || s.asOf - r.asOf >= rule.cooldownSeconds
  }

  /** The log starts with firing, no two cleared are adjacent, and adjacent firings are at least the
      cooldown apart. */
  ghost predicate WellShaped(log: seq<AlertState>, rule: Rule) {
    && (log != [] ==> log[0].state == Firing)
    && forall i :: 0 < i < |log| ==> MayFollow(log[i - 1], log[i], rule)
  }

  /** The last two decisions share a watermark below the forecast's, and the rule, when it reads the
      earlier of them, answers the state of the later one once more. */
  predicate TieRepeats(log: seq<AlertState>, metric: Metric, fc: Forecast, rule: Rule) {
    var n := |log|;
    && n >= 2 && log[n - 2].asOf == log[n - 1].asOf
    && TieDecides(log[n - 1].asOf, metric, fc, rule)
    && (log[n - 1].state == Firing <==> Horizon(fc) <= metric.alertHorizonSeconds)
  }

  /** The read returned the earlier decision of such a tie. */
  predicate Misread(log: seq<AlertState>, metric: Metric, fc: Forecast, previous: Option<AlertState>, rule: Rule) {
    TieRepeats(log, metric, fc, rule) && previous == Some(log[|log| - 2])
  }

  /** A legal read is the last decision, or the last but one when the two share a watermark. */
  lemma ReadIsLast(h: History, s: AlertState)
    requires InOrder(h.Log()) && LegalRead(h, Some(s))
    ensures var log, n := h.Log(), |h.Log()|;
            && n > 0 && s.asOf == log[n - 1].asOf
            && (s == log[n - 1] || (n >= 2 && s == log[n - 2]))
  {
    var log, n := h.Log(), |h.Log()|;
    var i :| 0 <= i < n && log[i] == s;
    assert log[n - 1] in log;
    if i < n - 2 {
      AtMostTwo(s, log[n - 2], log[n - 1]);
      assert false;
    }
  }

  /** One watermark has room for two decisions. */
  lemma AtMostTwo(a: AlertState, b: AlertState, c: AlertState)
    ensures a == b || b == c || a == c || a.asOf != b.asOf || b.asOf != c.asOf
  {
    assert a.state == Firing || a.state == Cleared;
    assert b.state == Firing || b.state == Cleared;
    assert c.state == Firing || c.state == Cleared;
  }

  /** Appending to a log keeps its shape exactly when the new decision may follow the last. */
  lemma ShapeOfAppend(log: seq<AlertState>, s: AlertState, rule: Rule)
    requires WellShaped(log, rule)
    ensures WellShaped(log + [s], rule) <==>
            if log == [] then s.state == Firing else MayFollow(log[|log| - 1], s, rule)
  {
    var longer := log + [s];
    if log != [] {
      assert longer[|log| - 1] == log[|log| - 1] && longer[|log|] == s && longer[0] == log[0];
      assert forall i :: 0 < i < |log| ==> longer[i] == log[i];
    }
  }

  /** For the read that was returned: a decision keeps the log well shaped exactly when that read is
      not the earlier half of a tie that repeats. */
  lemma ShapeKeptIffNotMisread(h: History, metric: Metric, fc: Forecast, previous: Option<AlertState>, rule: Rule)
    requires ValidRule(rule, metric) && AlertsBehind(h, fc)
    requires InOrder(h.Log()) && WellShaped(h.Log(), rule) && LegalRead(h, previous)
    ensures WellShaped(RecordAlert(h, metric, fc, previous, rule).Log(), rule)
       <==> !Misread(h.Log(), metric, fc, previous, rule)
  {
    var log, n := h.Log(), |h.Log()|;
    if previous.Some? {
      ReadIsLast(h, previous.value);
    }
    if WritesAlert(h, metric, fc, previous, rule) {
      var s := Decision(h, metric, fc, previous, rule);
      ShapeOfAppend(log, s, rule);
      if previous.Some? {
        MayFollowUnlessMisread(h, metric, fc, previous.value, rule);
      }
    } else if Misread(log, metric, fc, previous, rule) {
      MisreadWrites(h, metric, fc, previous, rule);
    }
  }

  lemma MayFollowUnlessMisread(h: History, metric: Metric, fc: Forecast, s: AlertState, rule: Rule)
    requires ValidRule(rule, metric) && AlertsBehind(h, fc) && InOrder(h.Log()) && LegalRead(h, Some(s))
    requires WritesAlert(h, metric, fc, Some(s), rule)
    ensures h.Log() != []
    ensures MayFollow(h.Log()[|h.Log()| - 1], Decision(h, metric, fc, Some(s), rule), rule)
       <==> !Misread(h.Log(), metric, fc, Some(s), rule)
  {
    var log, n := h.Log(), |h.Log()|;
    ReadIsLast(h, s);
    assert ClearAbove(rule, metric) >= metric.alertHorizonSeconds;
    assert log[n - 1] in log;
    if s != log[n - 1] {
      assert log[n - 2] in log && log[n - 2].state != log[n - 1].state;
    }
  }

  lemma MisreadWrites(h: History, metric: Metric, fc: Forecast, previous: Option<AlertState>, rule: Rule)
    requires ValidRule(rule, metric) && AlertsBehind(h, fc) && InOrder(h.Log()) && LegalRead(h, previous)
    requires Misread(h.Log(), metric, fc, previous, rule)
    ensures WritesAlert(h, metric, fc, previous, rule)
  {
    var log, n := h.Log(), |h.Log()|;
    ReadIsLast(h, previous.value);
    assert ClearAbove(rule, metric) >= metric.alertHorizonSeconds;
  }

  /** A decision keeps the log well shaped for every legal read exactly when no tie repeats. */
  lemma ShapeKeptIff(h: History, metric: Metric, fc: Forecast, rule: Rule)
    requires ValidRule(rule, metric) && AlertsBehind(h, fc)
    requires InOrder(h.Log()) && WellShaped(h.Log(), rule)
    ensures (forall previous :: LegalRead(h, previous) ==>
               WellShaped(RecordAlert(h, metric, fc, previous, rule).Log(), rule))
       <==> !TieRepeats(h.Log(), metric, fc, rule)
  {
    forall previous | LegalRead(h, previous)
      ensures WellShaped(RecordAlert(h, metric, fc, previous, rule).Log(), rule)
         <==> !Misread(h.Log(), metric, fc, previous, rule)
    {
      ShapeKeptIffNotMisread(h, metric, fc, previous, rule);
    }
    if TieRepeats(h.Log(), metric, fc, rule) {
      EarlierIsLegal(h);
    }
  }

  lemma EarlierIsLegal(h: History)
    requires InOrder(h.Log()) && |h.Log()| >= 2
    requires h.Log()[|h.Log()| - 2].asOf == h.Log()[|h.Log()| - 1].asOf
    ensures LegalRead(h, Some(h.Log()[|h.Log()| - 2]))
  {
  }
}
