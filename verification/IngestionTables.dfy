/** The ingestion tables and the statements that change them. */
module IngestionTables {
  import opened Database
  import opened Series

  newtype byte = x: int | 0 <= x < 256

  datatype Key = Key(deviceId: string, measuredAt: real)

  /** The columns that are not part of the key. */
  datatype Content = Content(waterLevel: real, batteryVoltage: real, schemaVersion: int)

  datatype Reading = Reading(key: Key, content: Content)

  datatype DeadLetter = DeadLetter(topic: string, payload: seq<byte>, reason: string)

  /** The registry row of a device. */
  datatype Seen = Seen(first: real, last: real)

  /** Pipeline state: the two tables that replays must leave unchanged. */
  datatype Core = Core(telemetry: map<Key, Content>, devices: map<string, Seen>)

  /** Pipeline state plus the two arrival logs. */
  datatype Tables = Tables(core: Core, deadLetters: seq<DeadLetter>, dedupes: seq<Key>)

  /** First write wins. */
  function Inserted(core: Core, r: Reading): Core {
    if r.key in core.telemetry then core else core.(telemetry := core.telemetry[r.key := r.content])
  }

  /** LEAST/GREATEST on conflict. */
  function Upserted(core: Core, r: Reading): Core {
    var d, at := r.key.deviceId, r.key.measuredAt;
    core.(devices := core.devices[d :=
      if d in core.devices then Seen(Min(core.devices[d].first, at), Max(core.devices[d].last, at))
      else Seen(at, at)])
  }

  /** What a completed write of one reading does to the pipeline state. */
  function Stored(core: Core, r: Reading): Core {
    Inserted(Upserted(core, r), r)
  }

  function StoredAll(core: Core, readings: seq<Reading>): Core {
    if readings == [] then core
    else Stored(StoredAll(core, readings[..|readings| - 1]), readings[|readings| - 1])
  }

  /** A reading never exists without a device row that covers its time. */
  ghost predicate RegistryCovers(core: Core) {
    forall k :: k in core.telemetry ==>
      k.deviceId in core.devices && Covers(core.devices[k.deviceId], k.measuredAt)
  }

  predicate Covers(seen: Seen, at: real) {
    seen.first <= at <= seen.last
  }

  class Writer {
    var tables: Tables

    constructor (tables: Tables)
      ensures this.tables == tables
    {
      this.tables := tables;
    }

    /** `inserted` is false when the idempotency key already existed. */
    method InsertReading(r: Reading, db: DbOutcome) returns (ok: bool, inserted: bool)
      modifies this
      ensures ok == db.Done?
      ensures inserted == (r.key !in old(tables).core.telemetry)
      ensures tables == if db.FailedBefore? then old(tables)
                        else old(tables).(core := Inserted(old(tables).core, r))
    {
      inserted := r.key !in tables.core.telemetry;
      if !db.FailedBefore? && inserted {
        var telemetry := tables.core.telemetry[r.key := r.content];
        tables := tables.(core := tables.core.(telemetry := telemetry));
      }
      ok := db.Done?;
    }

    method UpsertDevice(r: Reading, db: DbOutcome) returns (ok: bool)
      modifies this
      ensures ok == db.Done?
      ensures tables == if db.FailedBefore? then old(tables)
                        else old(tables).(core := Upserted(old(tables).core, r))
    {
      if !db.FailedBefore? {
        var d, at := r.key.deviceId, r.key.measuredAt;
        var devices := tables.core.devices;
        if d in devices {
          devices := devices[d := Seen(Min(devices[d].first, at), Max(devices[d].last, at))];
        } else {
          devices := devices[d := Seen(at, at)];
        }
        tables := tables.(core := tables.core.(devices := devices));
      }
      ok := db.Done?;
    }

    method RecordDedupe(r: Reading, db: DbOutcome) returns (ok: bool)
      modifies this
      ensures ok == db.Done?
      ensures tables == if db.FailedBefore? then old(tables)
                        else old(tables).(dedupes := old(tables).dedupes + [r.key])
    {
      if !db.FailedBefore? {
        tables := tables.(dedupes := tables.dedupes + [r.key]);
      }
      ok := db.Done?;
    }

    method InsertDeadLetter(d: DeadLetter, db: DbOutcome) returns (ok: bool)
      modifies this
      ensures ok == db.Done?
      ensures tables == if db.FailedBefore? then old(tables)
                        else old(tables).(deadLetters := old(tables).deadLetters + [d])
    {
      if !db.FailedBefore? {
        tables := tables.(deadLetters := tables.deadLetters + [d]);
      }
      ok := db.Done?;
    }
  }

  // ---------------------------------------------------------------- retries

  /** The states a failed write of `r` may leave behind, starting from `core`. */
  predicate PartlyStored(core: Core, r: Reading, now: Core) {
    now == core || now == Upserted(core, r) || now == Stored(core, r)
  }

  /** Writing a reading again, on top of any part of an earlier write, completes that write. */
  lemma RetryCompletes(core: Core, r: Reading, now: Core)
    requires PartlyStored(core, r, now)
    ensures PartlyStored(core, r, Upserted(now, r))
    ensures Stored(now, r) == Stored(core, r)
    ensures PartlyStored(core, r, Stored(core, r))
  {
    UpsertTwice(core, r);
    if now == Stored(core, r) {
      assert Upserted(now, r).devices == Upserted(core, r).devices;
    }
  }

  /** The two statements of a write, one after the other. */
  lemma WriteInParts(core: Core, r: Reading)
    ensures Upserted(core, r).telemetry == core.telemetry
    ensures PartlyStored(core, r, core) && PartlyStored(core, r, Upserted(core, r))
    ensures PartlyStored(core, r, Stored(core, r))
    ensures Stored(core, r) == Inserted(Upserted(core, r), r)
  {
  }

  lemma UpsertTwice(core: Core, r: Reading)
    ensures Upserted(Upserted(core, r), r) == Upserted(core, r)
  {
    var d := r.key.deviceId;
    var once := Upserted(core, r);
    assert Upserted(once, r).devices == once.devices;
  }

  lemma UpsertKeepsCover(core: Core, r: Reading)
    requires RegistryCovers(core)
    ensures RegistryCovers(Upserted(core, r))
    ensures var devices := Upserted(core, r).devices;
            r.key.deviceId in devices && Covers(devices[r.key.deviceId], r.key.measuredAt)
  {
  }

  lemma InsertKeepsCover(core: Core, r: Reading)
    requires RegistryCovers(core)
    requires r.key.deviceId in core.devices && Covers(core.devices[r.key.deviceId], r.key.measuredAt)
    ensures RegistryCovers(Inserted(core, r))
  {
  }

  lemma {:induction false} StoredAllKeepsCover(core: Core, readings: seq<Reading>)
    requires RegistryCovers(core)
    ensures RegistryCovers(StoredAll(core, readings))
  {
    if readings != [] {
      StoredAllKeepsCover(core, readings[..|readings| - 1]);
      UpsertKeepsCover(StoredAll(core, readings[..|readings| - 1]), readings[|readings| - 1]);
    }
  }

  // ---------------------------------------------------------------- replay and order

  /** Ingesting readings whose keys are all stored changes nothing. */
  lemma {:induction false} ReplayChangesNothing(core: Core, readings: seq<Reading>)
    requires RegistryCovers(core)
    requires forall i :: 0 <= i < |readings| ==> readings[i].key in core.telemetry
    ensures StoredAll(core, readings) == core
  {
    if readings != [] {
      var r := readings[|readings| - 1];
      ReplayChangesNothing(core, readings[..|readings| - 1]);
      assert Upserted(core, r).devices == core.devices;
    }
  }

  /** The times a device's registry row is built from. */
  ghost function TimesOf(core: Core, readings: seq<Reading>, d: string): set<real> {
    (if d in core.devices then {core.devices[d].first, core.devices[d].last} else {}) +
    set r | r in readings && r.key.deviceId == d :: r.key.measuredAt
  }

  /** A device's final registry row, described without the order of arrival: it spans exactly the
      earliest and the latest time, and exists when there is a time at all. */
  ghost predicate SpansTimes(final: Core, d: string, times: set<real>) {
    && (d in final.devices <==> times != {})
    && (d in final.devices ==>
          && (forall t :: t in times ==> Covers(final.devices[d], t))
          && final.devices[d].first in times && final.devices[d].last in times)
  }

  lemma {:induction false} DeviceOutcome(core: Core, readings: seq<Reading>, d: string)
    requires d in core.devices ==> core.devices[d].first <= core.devices[d].last
    ensures SpansTimes(StoredAll(core, readings), d, TimesOf(core, readings, d))
  {
    if readings != [] {
      var n := |readings| - 1;
      var front, r := readings[..n], readings[n];
      DeviceOutcome(core, front, d);
      assert readings == front + [r];
      assert TimesOf(core, readings, d) ==
             TimesOf(core, front, d) + (if r.key.deviceId == d then {r.key.measuredAt} else {});
    }
  }

  lemma {:induction false} KeyOutcome(core: Core, readings: seq<Reading>, k: Key)
    ensures var final := StoredAll(core, readings).telemetry;
            && (k in core.telemetry ==> k in final && final[k] == core.telemetry[k])
            && (k !in core.telemetry && k in final ==> Reading(k, final[k]) in readings)
            && (forall r :: r in readings && r.key == k ==> k in final)
  {
    if readings != [] {
      var n := |readings| - 1;
      KeyOutcome(core, readings[..n], k);
      assert readings == readings[..n] + [readings[n]];
    }
  }

  ghost predicate OneContentPerKey(readings: seq<Reading>) {
    forall r, s :: r in readings && s in readings && r.key == s.key ==> r == s
  }

  lemma SameTelemetry(core: Core, a: seq<Reading>, b: seq<Reading>, k: Key)
    requires forall r :: r in a <==> r in b
    requires OneContentPerKey(a)
    ensures var x, y := StoredAll(core, a).telemetry, StoredAll(core, b).telemetry;
            (k in x ==> k in y && y[k] == x[k]) && (k in y ==> k in x)
  {
    KeyOutcome(core, a, k);
    KeyOutcome(core, b, k);
    var x, y := StoredAll(core, a).telemetry, StoredAll(core, b).telemetry;
    if k in x && k !in core.telemetry {
      assert Reading(k, x[k]) in b;
    }
  }

  lemma SameDevices(core: Core, a: seq<Reading>, b: seq<Reading>, d: string)
    requires forall r :: r in a <==> r in b
    requires d in core.devices ==> core.devices[d].first <= core.devices[d].last
    ensures var x, y := StoredAll(core, a).devices, StoredAll(core, b).devices;
            (d in x <==> d in y) && (d in x ==> x[d] == y[d])
  {
    DeviceOutcome(core, a, d);
    DeviceOutcome(core, b, d);
    assert TimesOf(core, a, d) == TimesOf(core, b, d);
  }

  /** Arrival order and duplicates do not matter when every key comes with a single content. */
  lemma OrderIndependence(core: Core, a: seq<Reading>, b: seq<Reading>)
    requires forall d :: d in core.devices ==> core.devices[d].first <= core.devices[d].last
    requires forall r :: r in a <==> r in b
    requires OneContentPerKey(a)
    ensures StoredAll(core, a) == StoredAll(core, b)
  {
    var x, y := StoredAll(core, a), StoredAll(core, b);
    forall k ensures k in x.telemetry <==> k in y.telemetry
      ensures k in x.telemetry ==> x.telemetry[k] == y.telemetry[k]
    {
      SameTelemetry(core, a, b, k);
    }
    forall d ensures d in x.devices <==> d in y.devices
      ensures d in x.devices ==> x.devices[d] == y.devices[d]
    {
      SameDevices(core, a, b, d);
    }
    assert x.telemetry == y.telemetry && x.devices == y.devices;
  }
}
