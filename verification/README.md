# Planter telemetry: a verified model

The repository collects water and battery readings from planters over MQTT, stores them, and
forecasts when each planter runs dry. This project models four parts of it in Dafny and proves what
they promise:

- **the forecasting core** (`Series`, `OrderStatistics`, `Segmentation`, `TheilSen`,
  `FitDescription`, `FitRobustness`, `FitBand`, `ForecastModel`, `ForecastGuarantees`): segments, the median-of-slopes line, its rank
  band, nine statuses;
- **the ingestion loop** (`Database`, `IngestionTables`, `Delivery`, `IngestionService`): a consumer that
  acknowledges messages before it writes them, over a database whose every statement may fail before
  its effect, or after it without the client knowing;
- **the analytics pass** (`AlertRule`, `AnalyticsStore`, `AnalyticsPass`, `AnalyticsRun`,
  `AnalyticsService`, `AnalyticsWitnesses`): forecast rows behind a status gate, alert decisions whose state is read from
  the table, crashes and restarts, and telemetry that shows where the promises end;
- **the simulator** (`Dynamics`, `Stream`, `SimulatedSegments`, `Fleet`): device physics, imperfection
  injection, and how the segmenter and the fit see them.

Times are seconds on the device clock, values and times are exact reals, and the random draws of the
simulator are arbitrary inputs within their ranges. A list the code mutates is a `seq` field or
variable that the methods reassign; tables are maps held by a class. Functions such as `ForecastOf`,
`Handled`, `Apply` and `AwakeAt` are the specifications of the methods `MakeForecast`, `Consumer.Run`,
`Service.RunPass` and `DeviceReadings`; the lemmas are about these functions.

## What the code does not promise

Four statements in the documentation are stronger than the code. The model follows the code, and for
each it proves exactly when the statement holds and gives an input for which it does not.

- "Stopping mid-burst loses nothing" (docs/ingestion.md:144). The shutdown drain handles the newly read
  message but removes the head of `pending` (`src/planter_telemetry/ingestion/service.py:241-246`). If
  the stop finds items left in the backlog, the head is a different, unhandled message.
  `Consumer.Drain` proves that messages are conserved if and only if the drain starts without a backlog
  or writes nothing. `Consumer.Run` says of every run which message was handled at which place: in its
  turn, but for the ones a drain wrote over a backlog, which lay as many places further on; how the
  tables follow from that order; and which messages were never handled. Without a failing statement
  nothing is lost. `DrainOverBacklogLosesAMessage` is a reading that never gets its row, unreported.
- "Re-running an analytics pass over the same data window changes neither `forecasts` nor
  `alert_events`" (docs/analytics.md:216). The latest-state read breaks ties between a firing and a
  cleared row at one watermark arbitrarily (`src/planter_telemetry/analytics/db.py:73-77`).
  `PassIdempotentIff` proves that a repeated pass is quiet for every tie choice if and only if no channel
  has a tie below its watermark for which the rule answers one state and not the other.
- Alerts fire "on the transition into the alerting condition", clear with hysteresis "and repeat only
  after a data-time cooldown" (docs/analytics.md:157-161). `ShapeKeptIff` and `PassShapeIff` prove that
  this shape of the log is kept for every legal read if and only if no log ends in two decisions at one
  watermark of which the rule, reading the earlier, would answer the later one once more.
  `TieIsRecorded` shows two passes over real rows that record such a tie, and `ClearedTwice` a third one
  that breaks the shape and the previous statement.
- "Unchanged data cannot change a forecast", so a pass whose fleet watermark has not advanced is skipped
  (docs/analytics.md:113-118), and a late reading "moves neither the watermark nor the status"
  (`src/planter_telemetry/analytics/db.py:43-44`). An unmoved watermark does not mean unchanged data:
  `SkipAgreesIff` proves that after a skipped pass the latest rows agree with the model if and only if
  every non-empty window had samples before, ends where it did and gives the status it gave.
  `LateRowMovesStatus` is a late row that changes a status, `NewDeviceIsSkipped` a new device without a
  forecast.

## Model

| member | source | states |
|---|---|---|
| OrderStatistics.SortedIsPermutation | src/planter_telemetry/analytics/model.py:291-296 | The sorted slopes are the same values with the same multiplicities, in ascending order |
| OrderStatistics.MajorityBoundsMedian | src/planter_telemetry/analytics/model.py:300-300 | A median, odd or even, cannot leave an interval that holds a strict majority of the values |
| OrderStatistics.MedianIsMiddle | src/planter_telemetry/analytics/model.py:300-300 | A value is the median if and only if it is the middle one, or the mean of the two middle ones, of every ascending arrangement of the values |
| OrderStatistics.RankCounts | src/planter_telemetry/analytics/model.py:314-316 | The value at rank k has at least k + 1 values up to it and at least m - k values from it on |
| FitDescription.FitIsDescribed | src/planter_telemetry/analytics/model.py:284-324 | A fit is the answer if and only if: its slope is the median over one rise per hour for each pair of samples, its band ends are the slopes at the two ranks, its level is the median of the levels and its residual the median of the deviations from that line, anchored at the newest sample and spanning the series |
| FitDescription.RanksAreExact | src/planter_telemetry/analytics/model.py:304-316 | The band ranks are half the spread below and above the middle, rounded outwards and kept in range, and no other rank is |
| FitDescription.BandCutsOff | src/planter_telemetry/analytics/model.py:314-316 | The ends of the band have at least as many pair slopes on either side as these ranks say |
| FitRobustness.Breakdown | src/planter_telemetry/analytics/model.py:284-324 | If the samples on one line form a strict majority of the pairs, the fit has exactly that slope, that level at the anchor and residual 0, wherever the other samples are |
| TheilSen.PairsClosedForm | src/planter_telemetry/analytics/model.py:275-278 | n points form n(n-1)/2 pairs, so the breakdown condition reads 2g(g-1) > n(n-1) for g points on the line |
| FitRobustness.HalfThePairsIsNotEnough | src/planter_telemetry/analytics/model.py:291-300 | The strict majority is needed: with exactly half of the pairs on a line the fitted slope leaves it |
| FitRobustness.BoundedNoise | src/planter_telemetry/analytics/model.py:291-312 | If every value is within e of a line and most pairs are D hours apart, the slope is within 2e/D and the level within e plus 2e/D times the reach |
| FitRobustness.EvenSpacingMajority | src/planter_telemetry/analytics/model.py:291-300 | For even spacing the majority condition at a lag L is exactly 2(n-L)(n-L+1) > n(n-1) |
| FitRobustness.SpacingMajority | src/planter_telemetry/analytics/model.py:291-300 | The same inequality is enough for any jittered spacing bounded from below |
| FitBand.FitBandOrdered | src/planter_telemetry/analytics/model.py:302-316 | The rank band contains the fitted slope for every number of slopes, both parities and every clamped rank; which ranks these are is stated by the two rows on ranks above |
| ForecastGuarantees.FitExists | src/planter_telemetry/analytics/model.py:284-324 | A valid series has a fit exactly from three samples on, anchored at the newest and spanning the whole series |
| Segmentation.CadenceIsMedian | src/planter_telemetry/analytics/model.py:204-213 | On a valid series the cadence is missing only below two samples, and is otherwise the median of the differences of consecutive times |
| Segmentation.CadenceWithin | src/planter_telemetry/analytics/model.py:204-213 | Missed check-ins do not move it: it stays within any bounds that hold for most of these differences |
| Segmentation.SplitRule | src/planter_telemetry/analytics/model.py:236-246 | A valid series splits exactly at a rise of the jump or more, or at a gap of more than the gap factor times the median difference |
| Segmentation.SplitSegmentsLoop | src/planter_telemetry/analytics/model.py:236-249 | The splitting loop computes the specified segments, which split as the row above says |
| Segmentation.SegmentationUnique | src/planter_telemetry/analytics/model.py:216-249 | The result is the only division into non-empty runs that concatenate to the series, start anew at every jump or over-limit gap and nowhere else |
| Segmentation.SegmentStarts | src/planter_telemetry/analytics/model.py:242-249 | An index starts a segment if and only if the series splits there |
| Segmentation.NewestSegment | src/planter_telemetry/analytics/model.py:242-249 | The newest segment runs from the last split to the end, and is the only one exactly when nothing splits |
| ForecastModel.MakeForecast | src/planter_telemetry/analytics/model.py:388-483 | The entry point with its gates in order, staleness limit and status updated on the way, computes the specified forecast |
| ForecastModel.StaleLimit | src/planter_telemetry/analytics/model.py:405-407 | The limit is at least the configured one and at least the cadence times the gap factor, and it is one of the two |
| ForecastModel.FitNewestSegment | src/planter_telemetry/analytics/model.py:423-448 | Split, gate, fit and flag of the newest segment compute the specified forecast |
| ForecastGuarantees.FitsNewestSamples | src/planter_telemetry/analytics/model.py:423-448 | Past the first gates, a forecast is fitted over exactly the samples from the later of the last split and the cap counted from the end: the gates on points and span, the reported counts and span, the line and the flag are stated by these indices |
| ForecastGuarantees.ShippedGates | src/planter_telemetry/analytics/model.py:76-111 | With the shipped settings: 36 samples and 3 hours for water, 144 samples and 12 hours for the battery, over the newest 300 samples |
| ForecastGuarantees.ForecastReports | src/planter_telemetry/analytics/model.py:388-421 | Every forecast carries its kind, target and as much of the newest sample as is sound, and without a fit no time but the watermark of a dry device |
| ForecastModel.CrossingMeetsTarget | src/planter_telemetry/analytics/model.py:327-338 | A reported crossing is the one time at which a falling line stands at the target, or the anchor when it is already below; other lines have none |
| ForecastModel.Extrapolate | src/planter_telemetry/analytics/model.py:450-483 | A line that does not fall reports no time at all; otherwise each reported time is where its own line meets the target, the band ends exist for exactly the falling lines, and the status says whether the crossing is within the horizon |
| ForecastModel.OneForecastPerFit | src/planter_telemetry/analytics/model.py:450-483 | Only one forecast says this about a fit |
| ForecastGuarantees.StatusBeforeFit | src/planter_telemetry/analytics/model.py:388-421 | When exactly each of the four statuses decided before a fit is returned |
| ForecastGuarantees.RefusedExactly | src/planter_telemetry/analytics/model.py:189-201 | A series is refused exactly for a value that is not finite, a time or data time without a zone, or two neighbours out of order |
| ForecastGuarantees.StatusFromFit | src/planter_telemetry/analytics/model.py:423-434 | When exactly the newest segment is too short in points or in time, and when exactly a fit is made |
| ForecastGuarantees.StatusAfterFit | src/planter_telemetry/analytics/model.py:450-466 | Which status a fit gives: by the sign of its slope and the distance of its crossing |
| ForecastGuarantees.CrossingAndBand | src/planter_telemetry/analytics/model.py:144-145 | A crossing is reported exactly for three statuses, never before the watermark, with earliest <= crossing <= latest when the latest exists |
| ForecastGuarantees.CrossingMonotone | src/planter_telemetry/analytics/model.py:327-338 | A steeper falling line crosses no later, and no line crosses before the anchor |
| ForecastGuarantees.OldTankNonInterference | src/planter_telemetry/analytics/model.py:367-372 | Two series that share timestamps and agree from a common split on get the same forecast, however their earlier values differ |
| ForecastGuarantees.SplitMeansNotTruncated | src/planter_telemetry/analytics/model.py:444-448 | A series with a refill in its window is never reported as cut by the window edge |
| ForecastGuarantees.FitOfRun | src/planter_telemetry/analytics/model.py:284-324 | The fit of samples on one depletion run is that run |
| ForecastGuarantees.TrueCrossing | src/planter_telemetry/analytics/model.py:423-483 | If the newest segment is exactly linear and falling, every fitted forecast gives the true crossing, even when cut to the newest points |
| ForecastGuarantees.Lockstep | src/planter_telemetry/analytics/model.py:423-483 | Forecasts from two watermarks inside one falling run agree on the crossing, so the horizon shrinks by exactly the elapsed device time |
| ForecastGuarantees.DataTimeEquivariance | src/planter_telemetry/analytics/model.py:10-14 | Shifting samples, data time and window start by one offset shifts every time in the forecast by it and changes nothing else |
| IngestionTables.Writer.InsertReading | src/planter_telemetry/ingestion/db.py:59-71 | First write wins; the answer is whether the key was new; a failed statement has its whole effect or none |
| IngestionTables.Writer.UpsertDevice | src/planter_telemetry/ingestion/db.py:73-78 | The registry row spans the old row and the reading |
| IngestionTables.Writer.RecordDedupe | src/planter_telemetry/ingestion/db.py:80-85 | One row is appended to the event log and nothing else changes |
| IngestionTables.Writer.InsertDeadLetter | src/planter_telemetry/ingestion/db.py:87-91 | One row is appended to the dead letters and nothing else changes |
| IngestionTables.RetryCompletes | src/planter_telemetry/ingestion/service.py:126-135 | Writing a reading on top of any part of an earlier attempt gives exactly one complete write |
| IngestionTables.KeyOutcome | src/planter_telemetry/ingestion/db.py:9-13 | After any ingest, stored rows are kept, every ingested key is present, and each new row is one of the ingested readings |
| IngestionTables.DeviceOutcome | src/planter_telemetry/ingestion/db.py:29-38 | After any ingest, a device's row spans exactly its earliest and latest time |
| IngestionTables.ReplayChangesNothing | src/planter_telemetry/ingestion/db.py:9-38 | Ingesting readings whose keys are all stored leaves telemetry and registry unchanged |
| IngestionTables.OrderIndependence | src/planter_telemetry/ingestion/db.py:29-38 | With one content per key, any reordering with any duplicates gives the same tables |
| IngestionTables.StoredAllKeepsCover | src/planter_telemetry/ingestion/service.py:126-130 | Every telemetry row has a device row with first_seen <= measured_at <= last_seen |
| IngestionService.Consumer.HandleOne | src/planter_telemetry/ingestion/service.py:104-146 | A completed call performs exactly one write of its message, whatever earlier attempts left: a reading, with its key logged exactly when it was stored before, or one dead letter at the end of the log; a failed call leaves a part of it; exactly the counter of what happened moves, and the out-of-order counter exactly on an older arrival |
| IngestionService.Consumer.NoteArrival | src/planter_telemetry/ingestion/service.py:113-125 | The newest time per device is remembered, and an arrival counts as out of order exactly when it is older |
| IngestionService.Consumer.Salvage | src/planter_telemetry/ingestion/service.py:87-101 | Everything buffered goes to `pending` in order, and the queue ends empty |
| IngestionService.Consumer.NextMessage | src/planter_telemetry/ingestion/service.py:62-84 | A queued message wins over a lost broker, which wins over a stop; a loss surfaces only with an empty queue |
| IngestionService.Consumer.Backlog | src/planter_telemetry/ingestion/service.py:226-228 | Replays the backlog head first, keeping the order of handling and the tables that follow from it |
| IngestionService.Consumer.Consume | src/planter_telemetry/ingestion/service.py:229-236 | The main loop keeps the order of handling and the tables that follow from it |
| IngestionService.Consumer.Drain | src/planter_telemetry/ingestion/service.py:237-246 | Messages are conserved if and only if the drain finds no backlog or writes nothing |
| Delivery.InTurnIff | src/planter_telemetry/ingestion/service.py:241-246 | Messages are handled in their turn exactly when the drain found no backlog or wrote nothing |
| Delivery.LostExactly | src/planter_telemetry/ingestion/service.py:241-246 | Once the line is gone through, the messages never handled are exactly the first of the backlog, as many as the drain wrote while it lasted |
| Delivery.UndisplacedRefines | src/planter_telemetry/ingestion/service.py:104-146 | Without a backlog the tables are those of a failure-free consumer of the same messages, up to an unfinished write of the next one |
| Delivery.TablesHold | src/planter_telemetry/ingestion/db.py:9-13 | In every run: rows are never changed or removed, every handled reading has its row, and every new row is an acknowledged reading |
| Delivery.LoggedAllHolds | src/planter_telemetry/ingestion/service.py:143-146 | The tables of a failure-free consumer hold the stored readings and, after the dead letters they held before, the letter of every rejected message in order |
| Delivery.LogsHandled | src/planter_telemetry/ingestion/service.py:133-146 | In every run both logs only grow, every handled rejected message has its letter among the new ones, and every new entry belongs to a message that was received: handling one more message keeps this |
| IngestionService.CountedStep | src/planter_telemetry/ingestion/service.py:126-146 | A failure moves none of the three counters of handled messages; a completed message moves exactly one, `deduplicated` exactly when its key was logged |
| IngestionService.StopOverBacklog | src/planter_telemetry/ingestion/service.py:226-246 | A stop with a backlog and buffered messages: the buffered ones are written, as many leave the head of `pending`, the flush writes the rest, the tables are exactly those of these writes, nothing is reported; conserved exactly without backlog or without buffer |
| IngestionService.DrainOverBacklogLosesAMessage | src/planter_telemetry/ingestion/service.py:241-246 | For any two readings of different keys, one left pending and one delivered with the stop on the next connection: at exit the second has its row, the first has none, and none is reported |
| IngestionService.Consumer.Session | src/planter_telemetry/ingestion/service.py:197-266 | One connection, on which queued messages may arrive before the backlog is replayed, keeps the order of handling and the tables that follow from it however it ends, and leaves no message in the client; everything the broker sends from the subscription on until a stop is acknowledged, or still to come when the connection is lost; without a failing statement it leaves nothing pending, and without a lost broker it ends in a clean stop |
| IngestionService.Consumer.FinalFlush | src/planter_telemetry/ingestion/service.py:280-295 | The flush handles pending messages from the head; what is left is what is reported as dropped, nothing when no statement fails |
| IngestionService.Consumer.Run | src/planter_telemetry/ingestion/service.py:155-303 | For every schedule of arrivals, failures, reconnects and stops: each acknowledged message is handled in its turn but for those a drain wrote from further down the line; the tables are exactly those of this order of writes, up to three unfinished ones, and the logs hold a letter for every handled rejected message; the messages lost without a report are exactly the skipped ones; with no failing statement everything is handled once, in order, and stored, and the dead letters are the old ones followed by those of all rejected messages in order; if also the broker is not lost, everything it sends until the stop is acknowledged; with no failing statement from the first stop request on nothing is reported as dropped |
| AlertRule.LogTracksHorizon | src/planter_telemetry/analytics/model.py:524-539 | After a decision, an alerting horizon has a firing row younger than the cooldown, and a cleared horizon has a cleared row on top |
| AlertRule.RuleTable | src/planter_telemetry/analytics/model.py:524-539 | Fires exactly when the crossing is within the threshold and nothing is firing or the cooldown is over; clears exactly when something is firing and the crossing is beyond the factor times the threshold; is silent otherwise |
| AlertRule.NewAlertRow | src/planter_telemetry/analytics/service.py:99-113 | A new alert row carries the watermark, the crossing, the threshold and the time between watermark and crossing, at least zero, on the side of the band its state says |
| AlertRule.ShapeKeptIff | src/planter_telemetry/analytics/model.py:497-539 | First firing, no two adjacent cleared, adjacent firings a cooldown apart, in the order of insertion: a decision keeps this for every legal read exactly when the log does not end in a tie that repeats |
| AlertRule.ShapeKeptIffNotMisread | src/planter_telemetry/analytics/model.py:521-538 | For the read that was returned, exactly when it is not the earlier half of such a tie |
| AlertRule.AlertTwice | src/planter_telemetry/analytics/db.py:79-89 | Deciding twice on one forecast is deciding once, with the first read if it wrote and the second otherwise |
| AlertRule.IdempotentIffUnambiguous | src/planter_telemetry/analytics/db.py:73-89 | For one channel, repeating is quiet under all tie choices exactly when no tie below the watermark decides |
| AnalyticsStore.Store.DataNow | src/planter_telemetry/analytics/db.py:111-120 | The fleet-wide newest timestamp, None on an empty table |
| AnalyticsStore.Store.LoadWindow | src/planter_telemetry/analytics/db.py:122-138 | Each device of the window, in query order; a sample is in its water series exactly when it is the time and water level of one of its rows newer than the cutoff, and in its battery series exactly when it is the time and voltage of one |
| AnalyticsStore.OneReadServesAll | src/planter_telemetry/analytics/service.py:181-194 | One read at the earliest cutoff, filtered, gives each metric exactly its own window |
| AnalyticsPass.JobSeesWindow | src/planter_telemetry/analytics/service.py:187-195 | A job forecasts exactly the device's rows of the last lookback period, read from the column of its metric, whatever list of samples holds just these |
| AnalyticsStore.WindowIsValid | src/planter_telemetry/analytics/model.py:189-201 | A window read from the table is a valid series that ends at the device's newest row |
| AnalyticsStore.Store.LatestAlertStates | src/planter_telemetry/analytics/db.py:140-145 | A newest decision per channel, with nothing promised among ties |
| AnalyticsStore.Store.InsertForecast | src/planter_telemetry/analytics/db.py:147-173 | The status-gated upsert and whether it wrote; a row it writes carries the forecast column by column |
| AnalyticsStore.Store.InsertAlertEvent | src/planter_telemetry/analytics/db.py:175-192 | The insert at the end of the log under the unique key, and whether it was new |
| AnalyticsPass.ApplyAt | src/planter_telemetry/analytics/service.py:192-211 | A channel's history after any part of a pass depends only on its own statements and its own read |
| AnalyticsPass.CrashRestart | src/planter_telemetry/analytics/service.py:142-219 | Any prefix of a pass, a crash, and a full pass over the same rows give the tables of one uninterrupted pass for a legal read of the state before the crash |
| AnalyticsPass.CrashRestartExact | src/planter_telemetry/analytics/service.py:142-219 | Without ties it is the same uninterrupted pass |
| AnalyticsPass.PassIdempotent | src/planter_telemetry/analytics/service.py:178-211 | A second pass over unchanged rows writes no row and bumps no counter, for every tie choice, when no tie decides |
| AnalyticsPass.PassIdempotentIff | src/planter_telemetry/analytics/service.py:178-211 | A second pass is quiet for every tie choice if and only if no channel has a deciding tie below its watermark |
| AnalyticsPass.PlanIsReady | src/planter_telemetry/analytics/service.py:185-211 | A plan over ordered rows has one job per channel, none behind a recorded decision |
| AnalyticsPass.JobWatermark | src/planter_telemetry/analytics/service.py:194-195 | A forecast's watermark is the device's newest timestamp, absent exactly when the window is empty |
| AnalyticsPass.PrefixShapeIff | src/planter_telemetry/analytics/service.py:142-219 | Any prefix of a pass keeps every alert log well shaped exactly when no decision in it was made from the earlier half of a tie that repeats |
| AnalyticsPass.PassShapeIff | src/planter_telemetry/analytics/service.py:142-219 | A pass keeps every alert log well shaped for all legal reads exactly when no channel ends in a tie that repeats |
| AnalyticsPass.ApplyExtendsLogs | src/planter_telemetry/analytics/db.py:79-89 | Alert logs are append-only through any statements of a pass |
| AnalyticsPass.BumpIsChange | src/planter_telemetry/analytics/service.py:196-211 | Each statement moves exactly the counter of the row it adds or changes: forecasts written, alerts fired, alerts cleared |
| AnalyticsRun.ApplyKeepsHonest | src/planter_telemetry/analytics/model.py:144-145 | Through any statements, every forecast row in the table has a crossing exactly for the three statuses that promise one, never before its watermark and inside its band, and fit columns exactly for the fitted statuses |
| AnalyticsRun.ApplyKeepsBacked | src/planter_telemetry/analytics/service.py:192-211 | Wherever a pass is cut off, no alert row stands without the forecast row of its watermark |
| AnalyticsWitnesses.TieIsRecorded | src/planter_telemetry/analytics/db.py:73-89 | Two passes over real rows, the second after older rows arrived late, record firing and cleared at one watermark |
| AnalyticsWitnesses.ClearedTwice | src/planter_telemetry/analytics/db.py:73-89 | A third pass may then record cleared after cleared, and is not idempotent |
| AnalyticsPass.PassAgrees | src/planter_telemetry/analytics/db.py:45-68 | After a completed pass the latest row of every non-empty window has the device's newest timestamp and the model's current status, stale devices included |
| AnalyticsPass.SkippedAtSameTime | src/planter_telemetry/analytics/service.py:178-180 | Telemetry only grows, so a pass is skipped only at the data time of the last one |
| AnalyticsPass.SkipAgreesIff | src/planter_telemetry/analytics/service.py:178-180 | A skipped pass keeps that agreement exactly when every window with samples had samples before, ends where it did and gives the status it gave |
| AnalyticsWitnesses.LateRowMovesStatus | src/planter_telemetry/analytics/db.py:43-44 | A late row that moves no watermark changes a status: the skipped pass leaves the old one, a full pass would rewrite the row |
| AnalyticsWitnesses.NewDeviceIsSkipped | src/planter_telemetry/analytics/service.py:178-180 | A device whose first row is below the fleet maximum has no forecast after a skipped pass |
| AnalyticsService.Service.HandleAlert | src/planter_telemetry/analytics/service.py:87-139 | One alert statement of the plan, and a counter bumped exactly when a row is new |
| AnalyticsService.Service.RunPass | src/planter_telemetry/analytics/service.py:142-219 | Wherever it fails, the tables are those of a prefix of the plan; completed, of the whole plan, with one counter step per row written; skipped only at or below `since`, and completed only above it |
| AnalyticsRun.RunShapeIff | src/planter_telemetry/analytics/service.py:228-293 | Over every run, alert logs stay well shaped exactly when no turn decided from the earlier half of a tie that repeats |
| AnalyticsRun.RunShapeWithoutTies | src/planter_telemetry/analytics/service.py:228-293 | In particular whenever no two recorded decisions of a channel share a watermark |
| AnalyticsRun.RunAgrees | src/planter_telemetry/analytics/service.py:228-293 | After every completed turn of a run the latest rows agree with the model, after any mix of ingests, failed and skipped turns before it |
| AnalyticsRun.SkipsIffUnmoved | src/planter_telemetry/analytics/service.py:178-180 | Over every run, a turn that does not fail is skipped exactly when the data time is still that of the last turn that did not fail, whatever failed in between |
| AnalyticsRun.RunSkipIff | src/planter_telemetry/analytics/service.py:178-180 | A skipped turn keeps that agreement exactly when every answer is the one of the turn before |
| AnalyticsRun.RunBandAddsNothing | src/planter_telemetry/analytics/model.py:514-516 | No turn adds an alert row on a channel whose horizon lies inside the hysteresis band |
| AnalyticsService.Service.Run | src/planter_telemetry/analytics/service.py:228-293 | The loop performs, turn by turn, prefixes of the plans over the telemetry it finds, each decided from a legal read; it fails only on a failing statement, skips only at or below the last watermark; the counters move by what the turns report; at the end nothing recorded is ahead of the telemetry, every alert row is justified and has its forecast row, every forecast row is honest, and the two shape results and the agreement hold |
| AnalyticsRun.PrefixIsSafe | src/planter_telemetry/analytics/service.py:263-285 | A failed pass leaves tables the next pass can start from, well shaped exactly when they were and no decision so far was misread |
| Dynamics.DeviceReadings | src/planter_telemetry/simulator/dynamics.py:47-89 | The generator loop reports, wake by wake, the state of the specified trajectory |
| Dynamics.WakeFollows | src/planter_telemetry/simulator/dynamics.py:68-89 | Each wake follows from the one before, one interval and the jitter drawn then later: the level and the voltage left by the hours since, refilled or recharged by their own rules |
| Dynamics.FirstWake | src/planter_telemetry/simulator/dynamics.py:61-80 | The first wake reports the initial state, but for a refill |
| Dynamics.RoundIsNearest | src/planter_telemetry/simulator/dynamics.py:85-86 | Rounding gives the nearest multiple, and of two equally near ones the even one; no other does |
| Dynamics.RoundMonotone | src/planter_telemetry/simulator/dynamics.py:85-85 | Rounding preserves order, so quantization keeps the series non-increasing |
| SimulatedSegments.WaterStep | src/planter_telemetry/simulator/dynamics.py:74-80 | Between refills the level never rises; a refill lifts it from below 85 to at least 92 pct |
| SimulatedSegments.GapRuleNeverFires | src/planter_telemetry/simulator/dynamics.py:63-64 | With the jitter cap no gap between wakes exceeds the segmenter's limit |
| SimulatedSegments.SegmentsAreRefills | src/planter_telemetry/simulator/dynamics.py:61-89 | The water segments start exactly at the refill wakes |
| SimulatedSegments.SegmentsAreRecharges | src/planter_telemetry/simulator/dynamics.py:75-86 | The battery segments start exactly at the recharge wakes, despite converter noise and rounding |
| SimulatedSegments.DrainsLinearly | src/planter_telemetry/simulator/dynamics.py:74-75 | Between refills the true level is exactly linear in device time |
| SimulatedSegments.DecaysLinearly | src/planter_telemetry/simulator/dynamics.py:76-78 | Between recharges the true voltage is exactly linear in device time |
| SimulatedSegments.ReportIsClose | src/planter_telemetry/simulator/dynamics.py:82-87 | A report is the true level within half a tenth and the voltage within the noise and half a thousandth: the battery never leaves 3.0 to 4.25 V, so the clamp never acts |
| SimulatedSegments.FitRecoversDepletion | src/planter_telemetry/simulator/dynamics.py:36-43 | On a run without refill of n samples the fit recovers the configured depletion rate and the true level, up to the rounding step over the least time of any lag L with 2(n-L)(n-L+1) > n(n-1) |
| SimulatedSegments.ReadingsMeetContract | src/planter_telemetry/contract.py:76-77 | Every simulated reading is within the message contract's ranges |
| Stream.Release | src/planter_telemetry/simulator/stream.py:66-73 | Only due heads leave, each 1 to 3 wakes late, at the first wake by which it and all those deferred before it are due, and unchanged but for time and kind |
| Stream.DeviceEmissions | src/planter_telemetry/simulator/stream.py:41-99 | Every wake is exactly one of missed, sent promptly, sent late or still held; it is held exactly while it or one deferred before it is not due; nothing is sent twice in one way; duplicates follow their original; at most three readings are held |
| Stream.FateOfWake | src/planter_telemetry/simulator/stream.py:58-99 | What the four draws of a wake decide, each against its own rate: missed, corrupted, deferred, sent twice |
| Stream.ModesRotate | src/planter_telemetry/simulator/stream.py:55-80 | The first malformed wake is truncated, and each next one carries the mode that follows in the cycle of three |
| Stream.QueueIsShort | src/planter_telemetry/simulator/stream.py:56-73 | Head-of-line blocking never holds more than three readings |
| Stream.PublishTimesAscend | src/planter_telemetry/simulator/stream.py:66-99 | Publish times never decrease |
| Stream.MergedInOrder | src/planter_telemetry/simulator/stream.py:102-104 | Merging ordered device streams loses nothing, adds nothing and publishes in order |
| Stream.MergeKeepsEach | src/planter_telemetry/simulator/stream.py:102-104 | The merge keeps the order in which each device sends |
| Fleet.BuildStreams | src/planter_telemetry/simulator/stream.py:107-130 | Whatever the draws, the stream of the whole fleet is exactly what its devices send, published in order |

## Left out

- MQTT, psycopg, asyncio scheduling, signals, the HTTP ops servers, notification delivery, logging and metrics: represented only as scripts of environment steps, or not at all. Row ids, wall-clock columns and delivery columns are not in the tables.
- Validation of payloads: classification is an arbitrary total function from topic and payload to a reading or a dead letter.
- Floating-point rounding: values and times are exact reals, so the 1e-12 tolerances of the original do not appear; timestamps have no microsecond grain.
- RoundTo: rounds the exact real to even on ties; the original rounds the decimal expansion of a binary double.
- FitLine: takes the rank spread as any function that is positive from three points on, not the square-root formula.
- MakeForecast: one function in the source, three methods here (`MakeForecast`, `FitNewestSegment`, `Extrapolate`) in the same order.
- IsValidSeries: NaN, infinities and missing timezones are flags on a sample.
- Consumer.Run: a run follows a finite script, after which the environment is quiet and asks for a stop; backoff delays and health flags are not modelled. Messages arrive only over a connection that gets subscribed: a failed connect or subscribe leaves nothing acknowledged, and nothing is acknowledged between the last emptiness check and the teardown of the client.
- Consumer.HandleOne: statement failures are operational errors; a database error of another class would end the process.
- Service.Run: telemetry changes between passes, not between the reads of one pass.
- ByKind: telemetry carries the two shipped kinds, so the guard against a metric without a column has no counterpart.
- Tables: forecast and alert rows are grouped by (device, kind), the prefix of both keys; the order of insertion is kept within a group, not across groups.
- WaterStep: assumes no check-in is missed, refill threshold <= 25 pct and at most 60 pct per wake; the battery counterpart assumes at most 1 V per wake.
- Stream.Sent: the model annotates each emission with the wakes it belongs to and is sent at.
- Seeding and phase of the fleet: library behaviour of the random generator.
- The capture codec, replay schedule, topic parsing, settings, migrations, continuous aggregates and dashboards: only easy properties, or meaning that lives in other systems.
