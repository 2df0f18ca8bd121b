/** The analytics side of the database: reading the telemetry window and the alert states, and the
    idempotent writes. */
module AnalyticsStore {
  import opened AlertRule
  import opened Database
  import opened ForecastModel
  import opened Series

  /** One telemetry row. */
  datatype Row = Row(device: string, at: real, water: real, battery: real)

  /** What every analytics row is keyed by, together with its watermark. */
  datatype Channel = Channel(device: string, kind: Kind)

  /** The forecasts and alert_events tables, grouped by device and kind. */
  type Tables = map<Channel, History>

  function At(tables: Tables, c: Channel): History {
    if c in tables then tables[c] else EMPTY
  }

  /** The rows in query order: within a device, strictly increasing in time. */
  ghost predicate Ordered(rows: seq<Row>) {
    forall i, j :: 0 <= i < j < |rows| && rows[i].device == rows[j].device ==> rows[i].at < rows[j].at
  }

  // ---------------------------------------------------------------- the newest row

  function FleetNewest(rows: seq<Row>): (now: Option<real>)
    ensures now == None <==> rows == []
    ensures forall i :: 0 <= i < |rows| ==> rows[i].at <= now.value
    ensures now.Some? ==> exists i :: 0 <= i < |rows| && rows[i].at == now.value
  {
    if rows == [] then None
    else
      var n := |rows| - 1;
      match FleetNewest(rows[..n])
      case None => Some(rows[n].at)
      case Some(t) =>
        assert exists i :: 0 <= i < n && rows[..n][i].at == t;
        Some(Max(t, rows[n].at))
  }

  /** The newest row of one device. */
  function DeviceNewest(rows: seq<Row>, device: string): Option<real> {
    if rows == [] then None
    else
      var n := |rows| - 1;
      if rows[n].device == device then Some(rows[n].at) else DeviceNewest(rows[..n], device)
  }

  lemma {:induction false} NewestIsMaximum(rows: seq<Row>, device: string)
    requires Ordered(rows)
    ensures var newest := DeviceNewest(rows, device);
            && (newest == None <==> forall i :: 0 <= i < |rows| ==> rows[i].device != device)
            && (newest.Some? ==>
                  && (exists i :: 0 <= i < |rows| && rows[i].device == device && rows[i].at == newest.value)
                  && forall i :: 0 <= i < |rows| && rows[i].device == device ==> rows[i].at <= newest.value)
  {
    if rows != [] {
      var n := |rows| - 1;
      NewestIsMaximum(rows[..n], device);
      assert forall i :: 0 <= i < n ==> rows[..n][i] == rows[i];
    }
  }

  /** Rows are only ever added. */
  ghost predicate Grows(before: seq<Row>, after: seq<Row>) {
    forall r :: r in before ==> r in after
  }

  lemma NewestGrows(before: seq<Row>, after: seq<Row>, device: string)
    requires Ordered(before) && Ordered(after) && Grows(before, after)
    requires DeviceNewest(before, device).Some?
    ensures DeviceNewest(after, device).Some?
    ensures DeviceNewest(before, device).value <= DeviceNewest(after, device).value
  {
    NewestIsMaximum(before, device);
    NewestIsMaximum(after, device);
    var i :| 0 <= i < |before| && before[i].device == device && before[i].at == DeviceNewest(before, device).value;
    assert before[i] in after;
  }

  // ---------------------------------------------------------------- the window

  function ValueOf(r: Row, kind: Kind): real {
    match kind
    case Water => r.water
    case Battery => r.battery
  }

  /** One device's samples of one kind, newer than the cutoff, in order. */
  function SamplesSince(rows: seq<Row>, device: string, kind: Kind, cutoff: real): seq<Sample> {
    if rows == [] then []
    else
      var n := |rows| - 1;
      var front := SamplesSince(rows[..n], device, kind, cutoff);
      if rows[n].device == device && rows[n].at > cutoff then
        front + [Sample(rows[n].at, ValueOf(rows[n], kind), true, true)]
      else front
  }

  lemma SamplesAppend(front: seq<Row>, r: Row, device: string, kind: Kind, cutoff: real)
    ensures SamplesSince(front + [r], device, kind, cutoff) ==
            SamplesSince(front, device, kind, cutoff) +
            if r.device == device && r.at > cutoff then [Sample(r.at, ValueOf(r, kind), true, true)] else []
  {
    assert (front + [r])[..|front|] == front;
    var samples := SamplesSince(front, device, kind, cutoff);
    assert samples + [] == samples;
  }

  /** Row r gives sample s of this device and kind: the kind's own column, newer than the cutoff. */
  predicate RowGives(r: Row, device: string, kind: Kind, cutoff: real, s: Sample) {
    && r.device == device && r.at > cutoff && s.at == r.at && s.aware && s.finite
    && s.value == (if kind == Water then r.water else r.battery)
  }

  /** The samples of a window are exactly those its rows give. */
  lemma {:induction false} WindowSamples(rows: seq<Row>, device: string, kind: Kind, cutoff: real, s: Sample)
    ensures s in SamplesSince(rows, device, kind, cutoff) <==>
            exists i :: 0 <= i < |rows| && RowGives(rows[i], device, kind, cutoff, s)
  {
    if rows != [] {
      var n := |rows| - 1;
      WindowSamples(rows[..n], device, kind, cutoff, s);
      assert forall i :: 0 <= i < n ==> rows[..n][i] == rows[i];
      assert rows[n].device == device && rows[n].at > cutoff ==>
               SamplesSince(rows, device, kind, cutoff)[|SamplesSince(rows[..n], device, kind, cutoff)|]
               == Sample(rows[n].at, ValueOf(rows[n], kind), true, true);
    }
  }

  /** A valid series is determined by its samples. */
  lemma {:induction false} SameSamplesSameSeries(a: seq<Sample>, b: seq<Sample>)
    requires IsValidSeries(a) && IsValidSeries(b) && forall s :: s in a <==> s in b
    ensures a == b
  {
    hide IsValidSeries;
    FirstIsMember(a);
    FirstIsMember(b);
    if a != [] && b != [] {
      var m, n := |a| - 1, |b| - 1;
      LastIsNewest(a);
      LastIsNewest(b);
      assert a[m] in a && b[n] in b && a[m] == b[n];
      FrontSamples(a, a[m]);
      FrontSamples(b, b[n]);
      forall s ensures s in a[..m] <==> s in b[..n] {
        FrontSamples(a, s);
        FrontSamples(b, s);
      }
      SameSamplesSameSeries(a[..m], b[..n]);
    }
  }

  lemma FirstIsMember(a: seq<Sample>)
    ensures a == [] || a[0] in a
  {
  }

  lemma LastIsNewest(a: seq<Sample>)
    requires IsValidSeries(a) && a != []
    ensures forall s :: s in a ==> s == a[|a| - 1] || s.at < a[|a| - 1].at
  {
    forall i | 0 <= i < |a| - 1 ensures a[i].at < a[|a| - 1].at {
      TimesIncrease(a, i, |a| - 1);
    }
  }

  lemma FrontSamples(a: seq<Sample>, s: Sample)
    requires IsValidSeries(a) && a != []
    ensures IsValidSeries(a[..|a| - 1])
    ensures s in a[..|a| - 1] <==> s in a && s != a[|a| - 1]
  {
    LastIsNewest(a);
    forall i | 0 <= i < |a| - 1 ensures a[i].at < a[|a| - 1].at {
      TimesIncrease(a, i, |a| - 1);
    }
    assert a == a[..|a| - 1] + [a[|a| - 1]];
  }

  /** The devices with rows newer than the cutoff, in order of first appearance. */
  function DevicesSince(rows: seq<Row>, cutoff: real): (devices: seq<string>)
    ensures forall i, j :: 0 <= i < j < |devices| ==> devices[i] != devices[j]
  {
    if rows == [] then []
    else
      var n := |rows| - 1;
      var front := DevicesSince(rows[..n], cutoff);
      if rows[n].at > cutoff && rows[n].device !in front then front + [rows[n].device] else front
  }

  /** `[s for s in samples if s.at > cutoff]` */
  function NewerThan(samples: seq<Sample>, cutoff: real): seq<Sample> {
    if samples == [] then []
    else
      var n := |samples| - 1;
      NewerThan(samples[..n], cutoff) + (if samples[n].at > cutoff then [samples[n]] else [])
  }

  lemma NewerThanAppend(front: seq<Sample>, s: Sample, cutoff: real)
    ensures NewerThan(front + [s], cutoff) == NewerThan(front, cutoff) + (if s.at > cutoff then [s] else [])
  {
    assert (front + [s])[..|front|] == front;
  }

  /** Reading once at the earliest cutoff and filtering gives each metric exactly its own window. */
  lemma {:induction false} OneReadServesAll(rows: seq<Row>, device: string, kind: Kind, longest: real, cutoff: real)
    requires longest <= cutoff
    ensures NewerThan(SamplesSince(rows, device, kind, longest), cutoff) == SamplesSince(rows, device, kind, cutoff)
  {
    if rows != [] {
      var n := |rows| - 1;
      OneReadServesAll(rows[..n], device, kind, longest, cutoff);
      NewerThanAppend(SamplesSince(rows[..n], device, kind, longest),
                      Sample(rows[n].at, ValueOf(rows[n], kind), true, true), cutoff);
    }
  }

  lemma {:induction false} DeviceListed(rows: seq<Row>, cutoff: real, device: string)
    ensures device in DevicesSince(rows, cutoff) <==>
            exists i :: 0 <= i < |rows| && rows[i].device == device && rows[i].at > cutoff
  {
    if rows != [] {
      var n := |rows| - 1;
      DeviceListed(rows[..n], cutoff, device);
      assert forall i :: 0 <= i < n ==> rows[..n][i] == rows[i];
      if rows[n].device == device && rows[n].at > cutoff {
        assert device in DevicesSince(rows, cutoff);
      }
    }
  }

  /** A window read from the table is a valid series that ends at the device's newest row. */
  lemma WindowIsValid(rows: seq<Row>, device: string, kind: Kind, cutoff: real)
    requires Ordered(rows)
    ensures var samples := SamplesSince(rows, device, kind, cutoff);
            && IsValidSeries(samples)
            && (samples != [] ==> DeviceNewest(rows, device) == Some(samples[|samples| - 1].at))
            && (samples != [] <==> exists i :: 0 <= i < |rows| && rows[i].device == device && rows[i].at > cutoff)
  {
    WindowIsOpen(rows, device, kind, cutoff);
    WindowEnds(rows, device, kind, cutoff);
  }

  lemma {:induction false} WindowIsOpen(rows: seq<Row>, device: string, kind: Kind, cutoff: real)
    ensures SamplesSince(rows, device, kind, cutoff) != [] <==>
            exists i :: 0 <= i < |rows| && rows[i].device == device && rows[i].at > cutoff
  {
    if rows != [] {
      var n := |rows| - 1;
      WindowIsOpen(rows[..n], device, kind, cutoff);
      assert forall i :: 0 <= i < n ==> rows[..n][i] == rows[i];
    }
  }

  lemma {:induction false} WindowEnds(rows: seq<Row>, device: string, kind: Kind, cutoff: real)
    requires Ordered(rows)
    ensures var samples := SamplesSince(rows, device, kind, cutoff);
            && IsValidSeries(samples)
            && (samples != [] ==> DeviceNewest(rows, device) == Some(samples[|samples| - 1].at))
  {
    if rows != [] {
      hide IsValidSeries;
      var n := |rows| - 1;
      WindowEnds(rows[..n], device, kind, cutoff);
      WindowIsOpen(rows[..n], device, kind, cutoff);
      NewestIsMaximum(rows[..n], device);
      var front := SamplesSince(rows[..n], device, kind, cutoff);
      if rows[n].device == device {
        if front != [] {
          var i :| 0 <= i < n && rows[..n][i].device == device && rows[..n][i].at == front[|front| - 1].at;
          assert rows[i].at < rows[n].at;
        }
        ValidAppend(front, Sample(rows[n].at, ValueOf(rows[n], kind), true, true));
      }
    } else {
      assert IsValidSeries([]);
    }
  }

  lemma ValidAppend(front: seq<Sample>, s: Sample)
    requires IsValidSeries(front) && s.finite && s.aware
    requires front != [] ==> front[|front| - 1].at < s.at
    ensures IsValidSeries(front + [s])
  {
  }

  // ---------------------------------------------------------------- the store

  datatype ByKind = ByKind(water: seq<Sample>, battery: seq<Sample>)

  datatype Window = Window(devices: seq<string>, series: map<string, ByKind>)

  function OfKind(b: ByKind, kind: Kind): seq<Sample> {
    match kind
    case Water => b.water
    case Battery => b.battery
  }

  ghost predicate WindowOf(w: Window, rows: seq<Row>, cutoff: real) {
    && w.devices == DevicesSince(rows, cutoff)
    && (forall d :: d in w.series <==> d in w.devices)
    && (forall d, k :: d in w.series ==> OfKind(w.series[d], k) == SamplesSince(rows, d, k, cutoff))
  }

  class Store {
    var telemetry: seq<Row>
    var tables: Tables

    constructor (telemetry: seq<Row>, tables: Tables)
      ensures this.telemetry == telemetry && this.tables == tables
    {
      this.telemetry, this.tables := telemetry, tables;
    }

    method DataNow() returns (now: Option<real>)
      ensures now == FleetNewest(telemetry)
    {
      now := None;
      var i := 0;
      while i < |telemetry|
        invariant 0 <= i <= |telemetry|
        invariant now == FleetNewest(telemetry[..i])
      {
        assert telemetry[..i + 1][..i] == telemetry[..i];
        now := Some(if now == None then telemetry[i].at else Max(now.value, telemetry[i].at));
        i := i + 1;
      }
      assert telemetry[..i] == telemetry;
    }

    /** Fills the nested dictionary row by row. */
    method LoadWindow(cutoff: real) returns (w: Window)
      ensures WindowOf(w, telemetry, cutoff)
      ensures forall d, s :: d in w.series ==>
                && (s in w.series[d].water <==>
                      exists i :: 0 <= i < |telemetry| && RowGives(telemetry[i], d, Water, cutoff, s))
                && (s in w.series[d].battery <==>
                      exists i :: 0 <= i < |telemetry| && RowGives(telemetry[i], d, Battery, cutoff, s))
    {
      w := Window([], map[]);
      var i := 0;
      while i < |telemetry|
        invariant 0 <= i <= |telemetry|
        invariant WindowOf(w, telemetry[..i], cutoff)
        invariant forall d, k :: d !in w.series ==> SamplesSince(telemetry[..i], d, k, cutoff) == []
      {
        assert telemetry[..i + 1][..i] == telemetry[..i];
        var r := telemetry[i];
        if r.at > cutoff {
          var b := if r.device in w.series then w.series[r.device] else ByKind([], []);
          b := ByKind(b.water + [Sample(r.at, r.water, true, true)], b.battery + [Sample(r.at, r.battery, true, true)]);
          w := Window(if r.device in w.series then w.devices else w.devices + [r.device], w.series[r.device := b]);
        }
        i := i + 1;
      }
      assert telemetry[..i] == telemetry;
      forall d, s | d in w.series
        ensures s in w.series[d].water <==>
                exists i :: 0 <= i < |telemetry| && RowGives(telemetry[i], d, Water, cutoff, s)
        ensures s in w.series[d].battery <==>
                exists i :: 0 <= i < |telemetry| && RowGives(telemetry[i], d, Battery, cutoff, s)
      {
        assert w.series[d].water == OfKind(w.series[d], Water) && w.series[d].battery == OfKind(w.series[d], Battery);
        WindowSamples(telemetry, d, Water, cutoff, s);
        WindowSamples(telemetry, d, Battery, cutoff, s);
      }
    }

    /** The latest decision per channel; nothing is promised about which of two tied rows is read. */
    method LatestAlertStates() returns (states: map<Channel, AlertState>)
      ensures LegalStates(tables, states)
    {
      states := map[];
      var left := tables.Keys;
      while left != {}
        invariant left <= tables.Keys
        invariant forall c :: c in states ==> c in tables && c !in left
        invariant forall c :: c in tables && c !in left ==> LegalRead(tables[c], Lookup(states, c))
      {
        var c :| c in left;
        left := left - {c};
        var latest := LatestOf(tables[c]);
        if latest.Some? {
          states := states[c := latest.value];
        }
      }
    }

    /** False when this watermark already carried this status. */
    method InsertForecast(device: string, fc: Forecast, db: DbOutcome) returns (ok: bool, written: bool)
      modifies this`tables
      ensures ok == db.Done?
      ensures var c := Channel(device, fc.kind);
              && written == WritesForecast(At(old(tables), c), fc)
              && tables == if db.FailedBefore? then old(tables)
                           else old(tables)[c := RecordForecast(At(old(tables), c), fc)]
      ensures written && !db.FailedBefore? ==>
                var rows := At(tables, Channel(device, fc.kind)).forecasts;
                fc.asOf.Some? && fc.asOf.value in rows && Carries(rows[fc.asOf.value], fc)
    {
      var c := Channel(device, fc.kind);
      var h := At(tables, c);
      written := false;
      if fc.asOf.Some? {
        written := fc.asOf.value !in h.forecasts || h.forecasts[fc.asOf.value].status != fc.status;
        if written {
          h := h.(forecasts := h.forecasts[fc.asOf.value := RowOf(fc)]);
        }
      }
      if !db.FailedBefore? {
        tables := tables[c := h];
      }
      ok := db.Done?;
    }

    /** False when the same decision is already recorded. */
    method InsertAlertEvent(c: Channel, row: AlertRow, db: DbOutcome) returns (ok: bool, isNew: bool)
      modifies this`tables
      ensures ok == db.Done?
      ensures var h := At(old(tables), c);
              && isNew == (row.key !in h.Log())
              && tables == if db.FailedBefore? then old(tables)
                           else old(tables)[c := if isNew then h.(alerts := h.alerts + [row]) else h]
    {
      var h := At(tables, c);
      isNew := row.key !in h.Log();
      if isNew {
        h := h.(alerts := h.alerts + [row]);
      }
      if !db.FailedBefore? {
        tables := tables[c := h];
      }
      ok := db.Done?;
    }
  }

  function Lookup(states: map<Channel, AlertState>, c: Channel): Option<AlertState> {
    if c in states then Some(states[c]) else None
  }

  ghost predicate LegalStates(tables: Tables, states: map<Channel, AlertState>) {
    forall c :: LegalRead(At(tables, c), Lookup(states, c))
  }

  method LatestOf(h: History) returns (latest: Option<AlertState>)
    ensures LegalRead(h, latest)
  {
    latest := None;
    var i := 0;
    while i < |h.alerts|
      invariant 0 <= i <= |h.alerts|
      invariant latest == None <==> i == 0
      invariant latest.Some? ==> latest.value in h.Log()
      invariant forall k :: 0 <= k < i ==> h.Log()[k].asOf <= latest.value.asOf
    {
      var key := h.alerts[i].key;
      assert h.Log()[i] == key;
      if latest == None || latest.value.asOf <= key.asOf {
        latest := Some(key);
      }
      i := i + 1;
    }
  }
}
