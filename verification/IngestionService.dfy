/** The delivery loop: messages are acknowledged before they are written, so every acknowledged
    message must stay in `pending`, in the client's queue, or in the database. */
module IngestionService {
  import opened Database
  import opened Delivery
  import opened IngestionTables
  import opened Series

  datatype Counters = Counters(ingested: nat, deduplicated: nat, deadLettered: nat, outOfOrder: nat)

  /** What the environment does at one await: messages that arrive (and are acknowledged), a stop
      request, the loss of the broker, and how the awaited database call ends. */
  datatype Tick = Tick(arrivals: seq<(string, seq<byte>)>, stop: bool, brokerLost: bool, db: DbOutcome)

  /** After the script of a run is used up the environment is quiet and asks for a stop. */
  const QUIET: Tick := Tick([], true, false, Done)

  datatype Next = Message(item: Item) | Stopped | BrokerLost

  datatype ConsumeEnd = StopRequested | BrokerGone | DatabaseGone

  datatype SessionEnd = Clean | ConnectionLost

  /** No database statement fails. */
  ghost predicate FailureFree(script: seq<Tick>) {
    forall i :: 0 <= i < |script| ==> script[i].db.Done?
  }

  /** No database statement fails from the first stop request on. */
  ghost predicate Calm(script: seq<Tick>, stop: bool)
    decreases |script|
  {
    if stop || script == [] || script[0].stop then FailureFree(script) else Calm(script[1..], false)
  }

  lemma CalmNext(script: seq<Tick>, stop: bool)
    requires script != [] && Calm(script, stop)
    ensures Calm(script[1..], stop || script[0].stop)
  {
  }

  /** The broker is never lost. */
  ghost predicate Linked(script: seq<Tick>) {
    forall i :: 0 <= i < |script| ==> !script[i].brokerLost
  }

  /** What the broker sends up to and including the tick of the first stop request. */
  function Due(script: seq<Tick>, stop: bool): seq<(string, seq<byte>)>
    decreases |script|
  {
    if stop || script == [] then [] else script[0].arrivals + Due(script[1..], script[0].stop)
  }

  /** What the broker sends to a service that connects with the first three ticks: from the subscription on. */
  function Subscribed(script: seq<Tick>, stop: bool): seq<(string, seq<byte>)> {
    if |script| < 3 || !script[0].db.Done? || script[1].brokerLost || script[2].brokerLost then []
    else script[2].arrivals + Due(script[3..], stop || script[0].stop || script[1].stop || script[2].stop)
  }

  /** While connected, what was expected at the start is acknowledged or still to come. */
  ghost predicate Promised(online: bool, expected: seq<Item>, acked: seq<Item>, script: seq<Tick>, stop: bool) {
    online ==> expected <= acked + Arrived(|acked|, Due(script, stop))
  }

  lemma ArrivedConcat(first: nat, a: seq<(string, seq<byte>)>, b: seq<(string, seq<byte>)>)
    ensures Arrived(first, a + b) == Arrived(first, a) + Arrived(first + |a|, b)
  {
  }

  lemma PromiseKept(online: bool, expected: seq<Item>, acked: seq<Item>, script: seq<Tick>, stop: bool)
    requires script != [] && Promised(online, expected, acked, script, stop)
    ensures Promised(online, expected, acked + Arrived(|acked|, script[0].arrivals), script[1..],
                     stop || script[0].stop)
  {
    var more := Arrived(|acked|, script[0].arrivals);
    var rest := Due(script[1..], script[0].stop);
    ArrivedConcat(|acked|, script[0].arrivals, rest);
    assert acked + (more + Arrived(|acked| + |more|, rest)) == (acked + more) + Arrived(|acked| + |more|, rest);
    assert stop ==> Due(script, stop) == [] && acked + [] == acked;
  }

  lemma NothingMore(online: bool, expected: seq<Item>, acked: seq<Item>, stop: bool)
    ensures acked + Arrived(|acked|, []) == acked
    ensures Promised(online, expected, acked, [], stop) <==> Promised(online, expected, acked, [], true)
  {
  }

  lemma DueNothing(stop: bool)
    ensures Due([], stop) == []
  {
  }

  lemma PromiseBegins(acked: seq<Item>, script: seq<Tick>, stop: bool)
    ensures Promised(true, acked + Arrived(|acked|, Due(script, stop)), acked, script, stop)
  {
  }

  lemma PromiseEnds(expected: seq<Item>, acked: seq<Item>, script: seq<Tick>, stop: bool)
    requires Promised(true, expected, acked, script, stop)
    ensures expected <= acked + Arrived(|acked|, Due(script, stop))
    ensures Promised(false, expected, acked, script, stop)
  {
  }

  lemma NothingPromised(expected: seq<Item>, acked: seq<Item>, script: seq<Tick>, stop: bool)
    ensures Promised(false, expected, acked, script, stop)
  {
  }

  /** The newest measured_at seen per device. */
  function NextLatest(latest: map<string, real>, outcome: Outcome): map<string, real> {
    match outcome
    case Rejected(_) => latest
    case ValidReading(r) =>
      var d, at := r.key.deviceId, r.key.measuredAt;
      latest[d := if d in latest then Max(latest[d], at) else at]
  }

  /** Arrivals in the order of their acknowledgement, numbered from `first`. */
  function Arrived(first: nat, arrivals: seq<(string, seq<byte>)>): (items: seq<Item>)
    ensures |items| == |arrivals|
  {
    seq(|arrivals|, i requires 0 <= i < |arrivals| => Item(first + i, arrivals[i].0, arrivals[i].1))
  }

  /** What one handled or failed message does to the counters. */
  function CountedOne(c: Counters, latest: map<string, real>, tables: Tables, outcome: Outcome,
                      failed: bool): Counters
  {
    match outcome
    case Rejected(_) => if failed then c else c.(deadLettered := c.deadLettered + 1)
    case ValidReading(r) =>
      var d, at := r.key.deviceId, r.key.measuredAt;
      StoredOne(if d in latest && at < latest[d] then c.(outOfOrder := c.outOfOrder + 1) else c, tables, r, failed)
  }

  function StoredOne(c: Counters, tables: Tables, r: Reading, failed: bool): Counters {
    if failed then c
    else if r.key in tables.core.telemetry then c.(deduplicated := c.deduplicated + 1)
    else c.(ingested := c.ingested + 1)
  }

  /** A failure moves none of the three counters of handled messages; a completed message moves one of them,
      `deduplicated` exactly when its key is logged. */
  lemma CountedStep(classify: Classifier, c: Counters, latest: map<string, real>, tables: Tables, item: Item,
                    failed: bool)
    ensures var outcome := Classified(classify, item);
            var n := CountedOne(c, latest, tables, outcome, failed);
            var done := if failed then 0 else 1;
            && n.deadLettered == c.deadLettered + (if outcome.Rejected? then done else 0)
            && n.ingested + n.deduplicated == c.ingested + c.deduplicated + (if outcome.Rejected? then 0 else done)
            && (failed ==> n.deduplicated == c.deduplicated)
            && (!failed ==> |Logged(classify, tables, item).dedupes| - |tables.dedupes| ==
                              n.deduplicated - c.deduplicated)
  {
  }

  class Consumer {
    const classify: Classifier
    const writer: Writer
    var pending: seq<Item>
    var queue: seq<Item>
    var latest: map<string, real>
    var counters: Counters
    var stop: bool
    var script: seq<Tick>
    var received: nat
    /** The tables the consumer started from. */
    ghost const origin: Tables
    ghost var acked: seq<Item>
    /** Items removed from the head of `pending`. */
    ghost var popped: seq<Item>
    /** Items whose handling completed. */
    ghost var handled: seq<Item>
    /** Where the shutdown drain stood, if there was one. */
    ghost var course: Course
    /** Whether a connection is up, and what it was to deliver: see `Promised`. */
    ghost var online: bool
    ghost var expected: seq<Item>

    constructor (classify: Classifier, writer: Writer, script: seq<Tick>)
      requires RegistryCovers(writer.tables.core)
      ensures this.classify == classify && this.writer == writer && this.script == script
      ensures acked == [] && handled == [] && pending == [] && queue == [] && received == 0
      ensures !stop && !online && course == Undrained(origin.core) && origin == writer.tables
      ensures Sound([]) && Faithful() && Counted() && Exact()
    {
      this.classify := classify;
      this.writer := writer;
      this.script := script;
      pending, queue, latest, stop, received := [], [], map[], false, 0;
      counters := Counters(0, 0, 0, 0);
      origin := writer.tables;
      acked, popped, handled, expected, online := [], [], [], [], false;
      course := Undrained(writer.tables.core);
      RecordBegins(classify, writer.tables);
    }

    /** What holds at every await, and so at every point where the process can be killed: every
        acknowledged message is popped, pending, held by the loop or queued, in order. */
    ghost predicate Sound(held: seq<Item>)
      reads this, writer
    {
      Kept(held) && Promised(online, expected, acked, script, stop)
    }

    ghost predicate Kept(held: seq<Item>)
      reads this, writer
    {
      && Numbered(acked) && received == |acked|
      && acked == popped + pending + held + queue
      && |handled| == |popped|
      && RegistryCovers(writer.tables.core)
    }

    /** No acknowledged message is lost, duplicated or reordered. */
    ghost predicate Conserved()
      reads this
    {
      acked == handled + pending + queue
    }

    /** The messages handled and the tables are those of the course, for the line of all messages that
        ever entered `pending`. */
    ghost predicate Faithful()
      reads this, writer
    {
      Recorded(classify, origin, popped + pending, handled, course, writer.tables)
    }

    /** All tables, the arrival logs included, are those of a failure-free consumer of `handled`. */
    ghost predicate Exact()
      reads this, writer
    {
      && writer.tables == LoggedAll(classify, origin, handled)
      && |writer.tables.dedupes| == |origin.dedupes| + counters.deduplicated
    }

    lemma ConservedIffInTurn()
      requires Sound([]) && Faithful()
      ensures Conserved() <==> course.backlog == 0 || course.written == 0
    {
      hide RegistryCovers, Leaves, LogsKept;
      var line := popped + pending;
      assert acked[..|line|] == line;
      InTurnIff(line, handled, course);
      hide Displaced, Numbered;
      assert line[..|handled|] == popped;
      if Conserved() {
        assert handled == acked[..|handled|] == popped;
      }
    }

    /** One await. While connected, arrivals enter the queue and are acknowledged at once. */
    method Await(connected: bool, ghost held: seq<Item>) returns (tick: Tick)
      requires Sound(held) && (online ==> connected)
      modifies this`script, this`stop, this`queue, this`received, this`acked
      ensures Sound(held)
      ensures old(script) != [] ==> tick == old(script)[0] && script == old(script)[1..]
      ensures stop == (old(stop) || tick.stop)
      ensures old(acked) <= acked && old(queue) <= queue
      ensures !connected || old(script) == [] ==> queue == old(queue) && acked == old(acked)
      ensures Progress(old(script), old(stop))
      ensures old(script) == [] ==> tick == QUIET
      ensures FailureFree(old(script)) ==> tick.db.Done?
      ensures Linked(old(script)) ==> !tick.brokerLost
    {
      hide Promised, Arrived;
      if script == [] {
        tick := QUIET;
        NothingMore(online, expected, acked, stop);
      } else {
        tick := script[0];
        if Calm(script, stop) {
          CalmNext(script, stop);
        }
        PromiseKept(online, expected, acked, script, stop);
        script := script[1..];
      }
      stop := stop || tick.stop;
      if connected {
        Deliver(tick.arrivals, held);
      } else {
        NothingPromised(expected, acked, script, stop);
      }
    }

    method Deliver(arrivals: seq<(string, seq<byte>)>, ghost held: seq<Item>)
      requires Kept(held)
      modifies this`queue, this`received, this`acked
      ensures Kept(held)
      ensures acked == old(acked) + Arrived(old(received), arrivals)
      ensures queue == old(queue) + Arrived(old(received), arrivals)
    {
      hide RegistryCovers;
      var i := 0;
      while i < |arrivals|
        invariant 0 <= i <= |arrivals|
        invariant Kept(held)
        invariant received == old(received) + i
        invariant acked == old(acked) + Arrived(old(received), arrivals)[..i]
        invariant queue == old(queue) + Arrived(old(received), arrivals)[..i]
      {
        var item := Item(received, arrivals[i].0, arrivals[i].1);
        acked := acked + [item];
        queue := queue + [item];
        received := received + 1;
        i := i + 1;
      }
      assert Arrived(old(received), arrivals)[..i] == Arrived(old(received), arrivals);
    }

    /** Every await uses up the script, or finds it used up and stops. */
    ghost predicate Progress(before: seq<Tick>, stopped: bool)
      reads this
    {
      Onward(before, stopped) && (|script| < |before| || (before == script == [] && stop))
    }

    ghost predicate Onward(before: seq<Tick>, stopped: bool)
      reads this
    {
      && |script| <= |before| && (stopped ==> stop)
      && (FailureFree(before) ==> FailureFree(script)) && (Linked(before) ==> Linked(script))
      && (Calm(before, stopped) ==> Calm(script, stop))
    }

    /** Handles one message: registry first, then the reading, then the log of a duplicate; or the
        dead letter. `base` is the state before the first attempt at this message. */
    method HandleOne(item: Item, connected: bool, ghost base: Core) returns (failed: bool)
      requires Sound([]) && (online ==> connected)
      requires PartlyHandled(classify, base, item, writer.tables.core)
      modifies this`script, this`stop, this`queue, this`received, this`acked, this`latest, this`counters, writer
      ensures Sound([])
      ensures old(acked) <= acked && old(queue) <= queue
      ensures !connected || old(script) == [] ==> queue == old(queue) && acked == old(acked)
      ensures Progress(old(script), old(stop))
      ensures FailureFree(old(script)) ==> !failed
      ensures failed ==> PartlyHandled(classify, base, item, writer.tables.core)
      ensures !failed ==> writer.tables.core == AfterHandling(classify, base, item)
      ensures failed ==> PartlyLogged(classify, old(writer.tables), item, writer.tables)
      ensures !failed ==> writer.tables == Logged(classify, old(writer.tables), item)
      ensures latest == NextLatest(old(latest), Classified(classify, item))
      ensures counters == CountedOne(old(counters), old(latest), old(writer.tables), Classified(classify, item), failed)
    {
      match classify(item.topic, item.payload) {
        case ValidReading(r) =>
          failed := HandleReading(r, connected, base);
        case Rejected(letter) =>
          var tick := Await(connected, []);
          var ok := writer.InsertDeadLetter(letter, tick.db);
          if !ok {
            return true;
          }
          counters := counters.(deadLettered := counters.deadLettered + 1);
          return false;
      }
    }

    method HandleReading(r: Reading, connected: bool, ghost base: Core) returns (failed: bool)
      requires Sound([]) && (online ==> connected)
      requires PartlyStored(base, r, writer.tables.core)
      modifies this`script, this`stop, this`queue, this`received, this`acked, this`latest, this`counters, writer
      ensures Sound([])
      ensures old(acked) <= acked && old(queue) <= queue
      ensures !connected || old(script) == [] ==> queue == old(queue) && acked == old(acked)
      ensures Progress(old(script), old(stop))
      ensures FailureFree(old(script)) ==> !failed
      ensures failed ==> PartlyStored(base, r, writer.tables.core)
      ensures !failed ==> writer.tables.core == Stored(base, r)
      ensures failed ==> PartlyLoggedReading(old(writer.tables), r, writer.tables)
      ensures !failed ==> writer.tables == LoggedReading(old(writer.tables), r)
      ensures latest == NextLatest(old(latest), ValidReading(r))
      ensures counters == CountedOne(old(counters), old(latest), old(writer.tables), ValidReading(r), failed)
    {
      hide Upserted, Inserted, Numbered, Promised, RegistryCovers, Covers, PartlyStored, StoredOne, PartlyLoggedReading,
           LoggedReading, Stored;
      NoteArrival(r);
      failed := StoreReading(r, connected, base);
    }

    method StoreReading(r: Reading, connected: bool, ghost base: Core) returns (failed: bool)
      requires Sound([]) && (online ==> connected)
      requires PartlyStored(base, r, writer.tables.core)
      modifies this`script, this`stop, this`queue, this`received, this`acked, this`counters, writer
      ensures Sound([])
      ensures old(acked) <= acked && old(queue) <= queue
      ensures !connected || old(script) == [] ==> queue == old(queue) && acked == old(acked)
      ensures Progress(old(script), old(stop))
      ensures FailureFree(old(script)) ==> !failed
      ensures failed ==> PartlyStored(base, r, writer.tables.core)
      ensures !failed ==> writer.tables.core == Stored(base, r)
      ensures failed ==> PartlyLoggedReading(old(writer.tables), r, writer.tables)
      ensures !failed ==> writer.tables == LoggedReading(old(writer.tables), r)
      ensures counters == StoredOne(old(counters), old(writer.tables), r, failed)
    {
      hide Upserted, Inserted, NextLatest, Numbered, Promised, RegistryCovers, Covers, PartlyStored, Calm;
      RetryCompletes(base, r, writer.tables.core);
      WriteInParts(writer.tables.core, r);
      UpsertKeepsCover(writer.tables.core, r);
      InsertKeepsCover(Upserted(writer.tables.core, r), r);
      var tick := Await(connected, []);
      var ok := writer.UpsertDevice(r, tick.db);
      if !ok {
        return true;
      }
      hide Stored;
      failed := StoreRow(r, connected);
    }

    /** The row itself, on a registry that covers it. */
    method StoreRow(r: Reading, connected: bool) returns (failed: bool)
      requires Sound([]) && (online ==> connected)
      requires RegistryCovers(Inserted(writer.tables.core, r))
      modifies this`script, this`stop, this`queue, this`received, this`acked, this`counters, writer
      ensures Sound([])
      ensures old(acked) <= acked && old(queue) <= queue
      ensures !connected || old(script) == [] ==> queue == old(queue) && acked == old(acked)
      ensures Progress(old(script), old(stop))
      ensures FailureFree(old(script)) ==> !failed
      ensures writer.tables.core == Inserted(old(writer.tables.core), r) ||
              (failed && writer.tables.core == old(writer.tables.core))
      ensures writer.tables.deadLetters == old(writer.tables.deadLetters)
      ensures var logged := old(writer.tables.dedupes) + [r.key];
              if r.key in old(writer.tables.core.telemetry)
              then writer.tables.dedupes == logged || (failed && writer.tables.dedupes == old(writer.tables.dedupes))
              else writer.tables.dedupes == old(writer.tables.dedupes)
      ensures counters == StoredOne(old(counters), old(writer.tables), r, failed)
    {
      hide Upserted, Inserted, NextLatest, Numbered, Promised, RegistryCovers, Covers, PartlyStored, Calm;
      var tick := Await(connected, []);
      var ok, inserted := writer.InsertReading(r, tick.db);
      if !ok {
        return true;
      }
      if inserted {
        counters := counters.(ingested := counters.ingested + 1);
        return false;
      }
      failed := LogDuplicate(r, connected);
    }

    method LogDuplicate(r: Reading, connected: bool) returns (failed: bool)
      requires Sound([]) && (online ==> connected)
      modifies this`script, this`stop, this`queue, this`received, this`acked, this`counters, writer
      ensures Sound([])
      ensures old(acked) <= acked && old(queue) <= queue
      ensures !connected || old(script) == [] ==> queue == old(queue) && acked == old(acked)
      ensures Progress(old(script), old(stop))
      ensures FailureFree(old(script)) ==> !failed
      ensures failed ==> writer.tables == old(writer.tables) ||
                         writer.tables == old(writer.tables).(dedupes := old(writer.tables.dedupes) + [r.key])
      ensures !failed ==> writer.tables == old(writer.tables).(dedupes := old(writer.tables.dedupes) + [r.key])
      ensures counters == old(counters).(deduplicated := old(counters).deduplicated + if failed then 0 else 1)
    {
      hide Numbered, Promised, RegistryCovers;
      var tick := Await(connected, []);
      var ok := writer.RecordDedupe(r, tick.db);
      if !ok {
        return true;
      }
      counters := counters.(deduplicated := counters.deduplicated + 1);
      return false;
    }

    /** An arrival older than the newest seen for its device is counted, not remembered. */
    method NoteArrival(r: Reading)
      modifies this`latest, this`counters
      ensures latest == NextLatest(old(latest), ValidReading(r))
      ensures var d, at := r.key.deviceId, r.key.measuredAt;
              && counters == old(counters).(outOfOrder := old(counters).outOfOrder +
                   if d in old(latest) && at < old(latest)[d] then 1 else 0)
              && (latest[d] == at <==> counters.outOfOrder == old(counters).outOfOrder)
    {
      var d := r.key.deviceId;
      if d in latest && r.key.measuredAt < latest[d] {
        counters := counters.(outOfOrder := counters.outOfOrder + 1);
      } else {
        latest := latest[d := r.key.measuredAt];
      }
    }

    /** `anext` on a non-empty queue: the head, with whatever arrives meanwhile queued behind. */
    method TakeQueued() returns (item: Item)
      requires Sound([]) && queue != []
      modifies this`script, this`stop, this`queue, this`received, this`acked
      ensures Sound([item])
      ensures item == old(queue)[0] && old(acked) <= acked && old(queue)[1..] <= queue
      ensures old(script) == [] ==> queue == old(queue)[1..]
      ensures Progress(old(script), old(stop))
    {
      item := queue[0];
      queue := queue[1..];
      var _ := Await(true, [item]);
    }

    /** The head of the queue goes to the end of `pending`. */
    method QueuedToPending()
      requires Sound([]) && queue != []
      modifies this`script, this`stop, this`queue, this`received, this`acked, this`pending
      ensures Sound([])
      ensures pending == old(pending) + [old(queue)[0]] && old(acked) <= acked && old(queue)[1..] <= queue
      ensures old(script) == [] ==> queue == old(queue)[1..]
      ensures Progress(old(script), old(stop))
    {
      hide Numbered, Promised, RegistryCovers;
      var item := TakeQueued();
      pending := pending + [item];
    }

    /** Moves everything the client has buffered into `pending`. */
    method Salvage()
      requires Sound([]) && Faithful()
      modifies this`script, this`stop, this`queue, this`received, this`acked, this`pending
      ensures Sound([]) && Faithful() && queue == []
      ensures old(pending) <= pending && old(acked) <= acked
      ensures Onward(old(script), old(stop))
      ensures old(script) == [] ==> pending == old(pending) + old(queue) && acked == old(acked)
    {
      hide Recorded, LoggedAll, Letters, Readings, Numbered, Promised, RegistryCovers;
      while queue != []
        invariant Sound([]) && Faithful()
        invariant old(script) == [] ==> script == [] && pending + queue == old(pending) + old(queue)
        invariant old(pending) <= pending && old(acked) <= acked
        invariant Onward(old(script), old(stop))
        decreases |script|, |queue|
      {
        ghost var line, item := popped + pending, queue[0];
        QueuedToPending();
        RecordAppends(classify, origin, line, handled, course, writer.tables, item);
        assert popped + pending == line + [item];
      }
    }

    /** Each handled message was counted once, a rejected one as a dead letter. */
    ghost predicate Counted()
      reads this
    {
      && counters.deadLettered == |Letters(classify, handled)|
      && counters.ingested + counters.deduplicated == |Readings(classify, handled)|
    }

    /** Handles the head of `pending` and, if that succeeds, removes it. */
    method HandleHead(connected: bool) returns (failed: bool)
      requires Sound([]) && Faithful() && Counted() && pending != [] && (online ==> connected)
      modifies this`script, this`stop, this`queue, this`received, this`acked, this`latest, this`counters,
               this`pending, this`popped, this`handled, writer
      ensures FailureFree(old(script)) && old(Exact()) ==> Exact()
      ensures Sound([]) && Faithful() && Counted()
      ensures old(acked) <= acked
      ensures !connected ==> queue == old(queue) && acked == old(acked)
      ensures Progress(old(script), old(stop))
      ensures FailureFree(old(script)) ==> !failed
      ensures pending == if failed then old(pending) else old(pending)[1..]
      ensures handled == if failed then old(handled) else old(handled) + [old(pending)[0]]
      ensures popped == if failed then old(popped) else old(popped) + [old(pending)[0]]
    {
      hide Recorded, PartlyHandled, PartlyLogged, Logged, LoggedAll, Letters, Readings, AfterHandling, NextLatest,
           CountedOne, Numbered, Promised, RegistryCovers, Classified, FailureFree, Linked, Calm;
      var item := pending[0];
      ghost var line, core, before := popped + pending, writer.tables.core, writer.tables;
      assert line[|handled|] == item;
      AnyStateIsPartlyHandled(classify, core, item);
      CountedStep(classify, counters, latest, writer.tables, item, false);
      CountedStep(classify, counters, latest, writer.tables, item, true);
      failed := HandleOne(item, connected, core);
      if failed {
        RecordFails(classify, origin, line, handled, course, before, writer.tables);
        return;
      }
      RecordHandles(classify, origin, line, handled, course, before);
      LoggedStep(classify, origin, handled, item);
      pending := pending[1..];
      popped := popped + [item];
      handled := handled + [item];
      assert popped + pending == line;
    }

    /** Replays what earlier sessions left behind, until it is written or a stop is requested. */
    method Backlog() returns (failed: bool)
      requires Sound([]) && Faithful() && Counted()
      modifies this`script, this`stop, this`queue, this`received, this`acked, this`latest, this`counters,
               this`pending, this`popped, this`handled, writer
      ensures FailureFree(old(script)) && old(Exact()) ==> Exact()
      ensures Sound([]) && Faithful() && Counted()
      ensures old(acked) <= acked
      ensures Onward(old(script), old(stop))
      ensures !failed && !stop ==> pending == []
      ensures FailureFree(old(script)) ==> !failed
      ensures old(stop) || old(pending) == [] ==> !failed && unchanged(this, writer)
    {
      hide Exact, Recorded, Numbered, Promised, RegistryCovers;
      failed := false;
      while pending != [] && !stop
        invariant FailureFree(old(script)) && old(Exact()) ==> Exact()
        invariant Sound([]) && Faithful() && Counted()
        invariant old(stop) || old(pending) == [] ==> unchanged(this, writer)
        invariant old(acked) <= acked
        invariant Onward(old(script), old(stop))
        decreases |pending|
      {
        failed := HandleHead(true);
        if failed {
          return;
        }
      }
    }

    /** A queued message wins over the loss of the broker, which wins over a stop request. */
    method NextMessage() returns (next: Next)
      requires Sound([])
      modifies this`script, this`stop, this`queue, this`received, this`acked
      ensures old(acked) <= acked
      ensures Progress(old(script), old(stop))
      ensures next.Message? ==> Sound([next.item])
      ensures !next.Message? ==> Sound([])
      ensures next.Stopped? ==> stop
      ensures next.BrokerLost? ==> queue == [] && !Linked(old(script))
    {
      var tick := Await(true, []);
      var lost := tick.brokerLost;
      while queue == [] && !lost && !stop
        invariant Sound([])
        invariant old(acked) <= acked
        invariant Progress(old(script), old(stop))
        invariant Linked(old(script)) ==> !lost
        decreases |script|, !stop
      {
        tick := Await(true, []);
        lost := tick.brokerLost;
      }
      if queue != [] {
        var item := TakeQueued();
        next := Message(item);
      } else if lost {
        next := BrokerLost;
      } else {
        next := Stopped;
        var _ := Await(true, []);
      }
    }

    /** The main loop: each message is put in `pending` before it is handled. */
    method Consume() returns (end: ConsumeEnd)
      requires Sound([]) && Faithful() && Counted()
      requires !stop ==> pending == []
      modifies this`script, this`stop, this`queue, this`received, this`acked, this`latest, this`counters,
               this`pending, this`popped, this`handled, writer
      ensures FailureFree(old(script)) && old(Exact()) ==> Exact()
      ensures Sound([]) && Faithful() && Counted()
      ensures old(acked) <= acked
      ensures Onward(old(script), old(stop))
      ensures end.StopRequested? ==> stop && pending == if old(stop) then old(pending) else []
      ensures end.BrokerGone? ==> queue == [] && pending == [] && !Linked(old(script))
      ensures FailureFree(old(script)) ==> !end.DatabaseGone?
      ensures old(stop) ==> end.StopRequested? && unchanged(this, writer)
    {
      hide Recorded, LoggedAll, Letters, Readings, Numbered, Promised, RegistryCovers, FailureFree, Linked,
           Calm;
      while !stop
        invariant FailureFree(old(script)) && old(Exact()) ==> Exact()
        invariant Sound([]) && Faithful() && Counted()
        invariant old(acked) <= acked
        invariant Onward(old(script), old(stop))
        invariant pending == if old(stop) then old(pending) else []
        invariant old(stop) ==> stop && unchanged(this, writer)
        decreases |script|, !stop
      {
        var next := NextMessage();
        match next {
          case Stopped =>
            return StopRequested;
          case BrokerLost =>
            return BrokerGone;
          case Message(item) =>
            ghost var line := popped + pending;
            pending := pending + [item];
            RecordAppends(classify, origin, line, handled, course, writer.tables, item);
            assert popped + pending == line + [item];
            var failed := HandleHead(true);
            if failed {
              return DatabaseGone;
            }
        }
      }
      return StopRequested;
    }

    /** From here on the drain may run ahead of the backlog. */
    ghost method BeginDrain()
      requires Sound([]) && Faithful() && Counted() && course == Undrained(origin.core)
      modifies this`course
      ensures Sound([]) && Faithful() && Counted() && (old(Exact()) ==> Exact())
      ensures course == Course(|handled|, |pending|, 0, writer.tables.core, writer.tables.core)
    {
      hide Recorded, LoggedAll, Letters, Readings, Numbered, Promised, RegistryCovers;
      RecordDrains(classify, origin, popped + pending, handled, writer.tables);
      course := Course(|handled|, |pending|, 0, writer.tables.core, writer.tables.core);
    }

    /** The shutdown drain writes out what the client has buffered, and after each write removes
        the head of `pending`. Messages are handled in their turn exactly when the drain finds no
        backlog, or writes nothing. */
    method Drain() returns (failed: bool, ghost drained: seq<Item>)
      requires Sound([]) && Faithful() && Counted() && course == Undrained(origin.core)
      modifies this`script, this`stop, this`queue, this`received, this`acked, this`latest, this`counters,
               this`pending, this`popped, this`handled, this`course, writer
      ensures FailureFree(old(script)) && old(Exact()) ==> Exact()
      ensures Sound([]) && Faithful() && Counted()
      ensures old(acked) <= acked
      ensures Onward(old(script), old(stop))
      ensures handled == old(handled) + drained
      ensures course == Course(|old(handled)|, |old(pending)|, |drained|, old(writer.tables.core), writer.tables.core)
      ensures Conserved() <==> old(pending) == [] || drained == []
      ensures FailureFree(old(script)) ==> !failed
      ensures old(script) == [] ==> script == [] && drained == old(queue) && acked == old(acked)
      ensures old(queue) == [] ==> !failed && drained == []
      ensures !failed ==> queue == [] && |old(queue)| <= |drained| && |pending| == |old(pending)|
    {
      hide Exact, Counted, Sound, Faithful, Conserved;
      BeginDrain();
      failed, drained := DrainQueue();
      ConservedIffInTurn();
    }

    /** The drain loop. */
    method DrainQueue() returns (failed: bool, ghost drained: seq<Item>)
      requires Sound([]) && Faithful() && Counted()
      requires |handled| == course.at + course.written && |pending| == course.backlog
      requires course.exit == writer.tables.core
      modifies this`script, this`stop, this`queue, this`received, this`acked, this`latest, this`counters,
               this`pending, this`popped, this`handled, this`course, writer
      ensures FailureFree(old(script)) && old(Exact()) ==> Exact()
      ensures Sound([]) && Faithful() && Counted()
      ensures old(acked) <= acked && Onward(old(script), old(stop))
      ensures handled == old(handled) + drained
      ensures course == old(course).(written := old(course).written + |drained|, exit := writer.tables.core)
      ensures FailureFree(old(script)) ==> !failed
      ensures old(script) == [] ==> script == [] && drained == old(queue) && acked == old(acked)
      ensures old(queue) == [] ==> !failed && drained == []
      ensures !failed ==> queue == [] && |old(queue)| <= |drained| && |pending| == |old(pending)|
    {
      hide Exact, Sound, Faithful, Counted;
      failed, drained := false, [];
      while queue != []
        invariant FailureFree(old(script)) && old(Exact()) ==> Exact()
        invariant Sound([]) && Faithful() && Counted()
        invariant old(acked) <= acked && Onward(old(script), old(stop))
        invariant handled == old(handled) + drained && |pending| == |old(pending)|
        invariant course == old(course).(written := old(course).written + |drained|, exit := writer.tables.core)
        invariant |old(queue)| <= |drained| + |queue|
        invariant old(script) == [] ==> script == [] && drained + queue == old(queue) && acked == old(acked)
        invariant old(queue) == [] ==> queue == [] && drained == []
        decreases |script|, |queue|
      {
        ghost var item;
        failed, item := DrainNext();
        if failed {
          return;
        }
        drained := drained + [item];
      }
    }

    /** One turn of the drain: the new message is handled, the head of `pending` is removed. */
    method DrainNext() returns (failed: bool, ghost item: Item)
      requires Sound([]) && Faithful() && Counted() && queue != []
      requires |handled| == course.at + course.written && |pending| == course.backlog
      requires course.exit == writer.tables.core
      modifies this`script, this`stop, this`queue, this`received, this`acked, this`latest, this`counters,
               this`pending, this`popped, this`handled, this`course, writer
      ensures FailureFree(old(script)) && old(Exact()) ==> Exact()
      ensures Sound([]) && Faithful() && Counted()
      ensures old(acked) <= acked && |old(queue)| <= |queue| + 1
      ensures item == old(queue)[0]
      ensures old(script) == [] ==> queue == old(queue)[1..] && acked == old(acked)
      ensures Progress(old(script), old(stop))
      ensures FailureFree(old(script)) ==> !failed
      ensures handled == if failed then old(handled) else old(handled) + [item]
      ensures |pending| == |old(pending)| + if failed then 1 else 0
      ensures course == old(course).(written := old(course).written + (if failed then 0 else 1),
                                     exit := writer.tables.core)
    {
      hide Recorded, LoggedAll, Letters, Readings, Numbered, Promised, RegistryCovers, FailureFree, Linked, Calm;
      ghost var line := popped + pending;
      item := queue[0];
      QueuedToPending();
      assert popped + pending == line + [item];
      failed := DrainOne(line);
    }

    /** The last of `pending` is handled, and its head removed. `line` is without that message. */
    method DrainOne(ghost line: seq<Item>) returns (failed: bool)
      requires Sound([]) && Counted() && pending != [] && popped + pending == line + [pending[|pending| - 1]]
      requires Recorded(classify, origin, line, handled, course, writer.tables)
      requires |handled| == course.at + course.written && |pending| == course.backlog + 1
      requires course.exit == writer.tables.core
      modifies this`script, this`stop, this`queue, this`received, this`acked, this`latest, this`counters,
               this`pending, this`popped, this`handled, this`course, writer
      ensures FailureFree(old(script)) && old(Exact()) ==> Exact()
      ensures Sound([]) && Faithful() && Counted()
      ensures old(acked) <= acked && old(queue) <= queue
      ensures old(script) == [] ==> queue == old(queue) && acked == old(acked)
      ensures Progress(old(script), old(stop))
      ensures FailureFree(old(script)) ==> !failed
      ensures handled == if failed then old(handled) else old(handled) + [old(pending)[|old(pending)| - 1]]
      ensures |pending| == |old(pending)| - if failed then 0 else 1
      ensures course == old(course).(written := old(course).written + (if failed then 0 else 1),
                                     exit := writer.tables.core)
    {
      hide Recorded, PartlyHandled, PartlyLogged, Logged, LoggedAll, Letters, Readings, AfterHandling, NextLatest,
           CountedOne, Numbered, Promised, RegistryCovers, Classified, FailureFree, Linked, Calm;
      ghost var core, before := writer.tables.core, writer.tables;
      var message := pending[|pending| - 1];
      AnyStateIsPartlyHandled(classify, core, message);
      CountedStep(classify, counters, latest, writer.tables, message, false);
      CountedStep(classify, counters, latest, writer.tables, message, true);
      failed := HandleOne(message, true, core);
      ghost var now := writer.tables.core;
      if failed {
        DrainRecordFails(classify, origin, line, handled, course, before, message, writer.tables);
        course := course.(exit := now);
        return;
      }
      DrainRecordHandles(classify, origin, line, handled, course, before, message);
      LoggedStep(classify, origin, handled, message);
      popped := popped + [pending[0]];
      pending := pending[1..];
      handled := handled + [message];
      course := course.(written := course.written + 1, exit := now);
      assert popped + pending == line + [message];
    }

    /** The database, the broker, and the subscription, in that order. */
    method Connect() returns (up: bool)
      requires Sound([]) && !online && queue == []
      modifies this`script, this`stop, this`queue, this`received, this`acked, this`online, this`expected
      ensures Sound([]) && old(acked) <= acked && online == up
      ensures Progress(old(script), old(stop))
      ensures FailureFree(old(script)) && Linked(old(script)) ==> up
      ensures up ==> expected == old(acked) + Arrived(|old(acked)|, Subscribed(old(script), old(stop)))
      ensures !up ==> queue == [] && acked == old(acked) && Subscribed(old(script), old(stop)) == []
    {
      hide Promised, Arrived, Due, Numbered, RegistryCovers, FailureFree, Linked, Calm;
      up := false;
      NothingMore(false, expected, acked, stop);
      DueNothing(true);
      var tick := Await(false, []);
      if !tick.db.Done? {
        return;
      }
      tick := Await(false, []);
      if tick.brokerLost {
        return;
      }
      up := Subscribe();
      ArrivedConcat(|old(acked)|, [], []);
    }

    /** The third step of connecting: queued messages may arrive at once. */
    method Subscribe() returns (up: bool)
      requires Sound([]) && !online && queue == []
      modifies this`script, this`stop, this`queue, this`received, this`acked, this`online, this`expected
      ensures Sound([]) && old(acked) <= acked && online == up
      ensures Progress(old(script), old(stop))
      ensures Linked(old(script)) ==> up
      ensures up <==> old(script) == [] || !old(script)[0].brokerLost
      ensures up ==>
                expected == old(acked) + Arrived(|old(acked)|,
                  if old(script) == [] then []
                  else old(script)[0].arrivals + Due(old(script)[1..], old(stop) || old(script)[0].stop))
      ensures !up ==> queue == [] && acked == old(acked)
    {
      hide Promised, Arrived, Due, Numbered, RegistryCovers, FailureFree, Linked, Calm;
      up := false;
      NothingMore(false, expected, acked, stop);
      DueNothing(true);
      var tick := Await(false, []);
      if tick.brokerLost {
        return;
      }
      Deliver(tick.arrivals, []);
      ArrivedConcat(|old(acked)|, tick.arrivals, Due(script, stop));
      up, online, expected := true, true, acked + Arrived(|acked|, Due(script, stop));
      PromiseBegins(acked, script, stop);
    }

    /** One connection to both services, until a stop or the loss of either. */
    method Session() returns (end: SessionEnd)
      requires Sound([]) && Faithful() && Counted() && course == Undrained(origin.core) && queue == []
      requires !online
      modifies this`script, this`stop, this`queue, this`received, this`acked, this`latest, this`counters,
               this`pending, this`popped, this`handled, this`course, this`online, this`expected, writer
      ensures old(acked) + Arrived(|old(acked)|, Subscribed(old(script), old(stop))) <=
              acked + Arrived(|acked|, Due(script, stop))
      ensures !online && (FailureFree(old(script)) && Linked(old(script)) ==> end.Clean?)
      ensures FailureFree(old(script)) && old(Exact()) ==> Exact()
      ensures Sound([]) && Faithful() && Counted() && queue == []
      ensures Conserved() <==> course.backlog == 0 || course.written == 0
      ensures old(acked) <= acked
      ensures Progress(old(script), old(stop))
      ensures end.Clean? || course != Undrained(origin.core) ==> stop
      ensures old(pending) == [] ==> course.backlog == 0
      ensures FailureFree(old(script)) && old(pending) == [] ==> pending == []
    {
      hide Recorded, LoggedAll, Letters, Readings, Numbered, Promised, RegistryCovers, FailureFree, Linked;
      ConservedIffInTurn();
      var up := Connect();
      if !up {
        return ConnectionLost;
      }
      var consumed := Converse();
      if consumed.DatabaseGone? {
        Salvage();
      }
      PromiseEnds(expected, acked, script, stop);
      online := false;
      ConservedIffInTurn();
      return if consumed.StopRequested? then Clean else ConnectionLost;
    }

    /** What happens while both connections are up: the three loops. */
    method Converse() returns (end: ConsumeEnd)
      requires Sound([]) && Faithful() && Counted() && course == Undrained(origin.core)
      modifies this`script, this`stop, this`queue, this`received, this`acked, this`latest, this`counters,
               this`pending, this`popped, this`handled, this`course, writer
      ensures FailureFree(old(script)) && old(Exact()) ==> Exact()
      ensures Sound([]) && Faithful() && Counted()
      ensures old(acked) <= acked
      ensures Onward(old(script), old(stop))
      ensures !end.DatabaseGone? ==> queue == []
      ensures end.StopRequested? || course != Undrained(origin.core) ==> stop
      ensures old(pending) == [] ==> course.backlog == 0
      ensures FailureFree(old(script)) ==> !end.DatabaseGone? && (old(pending) == [] ==> pending == [])
      ensures end.BrokerGone? ==> !Linked(old(script))
      ensures old(stop) && old(script) == [] ==>
                && end.StopRequested? && script == [] && acked == old(acked)
                && handled == old(handled) + old(queue)
                && course == Course(|old(handled)|, |old(pending)|, |old(queue)|, old(writer.tables.core),
                                    writer.tables.core)
    {
      hide Exact, Counted, Recorded, Numbered, Promised, RegistryCovers;
      var failed := Backlog();
      if failed {
        return DatabaseGone;
      }
      end := Consume();
      if end.StopRequested? {
        ghost var drained;
        failed, drained := Drain();
        if failed {
          end := DatabaseGone;
        }
      }
    }

    /** Runs until a stop is requested, then makes one attempt to write what is still pending.
        `dropped` is the number of messages reported lost. */
    method Run() returns (dropped: nat)
      requires Sound([]) && Faithful() && Counted() && course == Undrained(origin.core) && queue == [] && !online
      modifies this`script, this`stop, this`queue, this`received, this`acked, this`latest, this`counters,
               this`pending, this`popped, this`handled, this`course, this`online, this`expected, writer
      ensures !old(stop) && FailureFree(old(script)) && Linked(old(script)) ==>
                old(acked) + Arrived(|old(acked)|, Subscribed(old(script), false)) <= acked
      ensures stop && old(acked) <= acked
      ensures Sound([]) && Counted() && queue == [] && |pending| == dropped
      ensures TracedBy(classify, origin.core, acked, handled, course, writer.tables.core)
      ensures Conserved() <==> course.backlog == 0 || course.written == 0
      ensures course.backlog == 0 ==>
                Residue(classify, Handled(classify, origin.core, handled), acked, |handled|, writer.tables.core)
      ensures dropped == 0 ==> forall j :: 0 <= j < |acked| ==>
                (acked[j] !in handled <==> Skipped(course, j))
      ensures RowsFrom(classify, origin.core, acked, writer.tables.core)
      ensures AllStored(classify, handled, writer.tables.core)
      ensures LogsKept(classify, origin, acked, handled, writer.tables)
      ensures FailureFree(old(script)) && old(pending) == [] ==>
                dropped == 0 && handled == acked && writer.tables.core == Handled(classify, origin.core, acked)
      ensures FailureFree(old(script)) && old(pending) == [] && old(Exact()) ==>
                && writer.tables.deadLetters == origin.deadLetters + Letters(classify, acked)
                && |writer.tables.dedupes| == |origin.dedupes| + counters.deduplicated
      ensures Calm(old(script), old(stop)) ==> dropped == 0
    {
      hide Recorded, LoggedAll, Letters, Readings, Numbered, Promised, RegistryCovers, FailureFree, Linked, TracedBy,
           Handled, RowsFrom, AllStored, LogsKept, Skipped, Arrived, Subscribed;
      Serve();
      dropped := 0;
      if pending != [] {
        dropped := FinalFlush();
      }
      RunOutcome();
      if Exact() {
        LoggedAllHolds(classify, origin, handled);
      }
    }

    /** The loop over connections. */
    method Serve()
      requires Sound([]) && Faithful() && Counted() && course == Undrained(origin.core) && queue == [] && !online
      modifies this`script, this`stop, this`queue, this`received, this`acked, this`latest, this`counters,
               this`pending, this`popped, this`handled, this`course, this`online, this`expected, writer
      ensures stop && old(acked) <= acked
      ensures Sound([]) && Faithful() && Counted() && queue == [] && !online
      ensures !old(stop) && FailureFree(old(script)) && Linked(old(script)) ==>
                old(acked) + Arrived(|old(acked)|, Subscribed(old(script), false)) <= acked
      ensures Onward(old(script), old(stop))
      ensures FailureFree(old(script)) && old(pending) == [] ==> pending == [] && course.backlog == 0
      ensures FailureFree(old(script)) && old(Exact()) ==> Exact()
    {
      hide Recorded, LoggedAll, Letters, Readings, Numbered, Promised, RegistryCovers, FailureFree, Linked, Calm;
      while !stop
        invariant Sound([]) && Faithful() && Counted() && queue == [] && !online
        invariant !old(stop) && FailureFree(old(script)) && Linked(old(script)) ==>
                    if stop then old(acked) + Arrived(|old(acked)|, Subscribed(old(script), false)) <= acked
                    else script == old(script) && acked == old(acked)
        invariant old(acked) <= acked
        invariant course != Undrained(origin.core) ==> stop
        invariant Onward(old(script), old(stop))
        invariant FailureFree(old(script)) && old(pending) == [] ==> pending == [] && course.backlog == 0
        invariant FailureFree(old(script)) && old(Exact()) ==> Exact()
        decreases |script|, !stop
      {
        var end := Session();
        if end.ConnectionLost? {
          if stop {
            break;
          }
          var _ := Await(false, []);
        }
      }
    }

    /** What the record says once the queue is empty. */
    lemma RunOutcome()
      requires Sound([]) && Faithful() && queue == []
      ensures TracedBy(classify, origin.core, acked, handled, course, writer.tables.core)
      ensures LogsKept(classify, origin, acked, handled, writer.tables)
      ensures Conserved() <==> course.backlog == 0 || course.written == 0
      ensures course.backlog == 0 ==>
                && handled == acked[..|handled|]
                && Residue(classify, Handled(classify, origin.core, handled), acked, |handled|, writer.tables.core)
      ensures |handled| == |acked| ==> forall j :: 0 <= j < |acked| ==> (acked[j] !in handled <==> Skipped(course, j))
      ensures RowsFrom(classify, origin.core, acked, writer.tables.core)
      ensures AllStored(classify, handled, writer.tables.core)
    {
      hide Handled, Residue, TracedBy, LogsKept, RegistryCovers, RowsFrom, AllStored, Skipped;
      assert popped + pending == acked;
      ConservedIffInTurn();
      hide Numbered;
      TablesHold(classify, origin.core, acked, handled, course, writer.tables.core);
      if course.backlog == 0 {
        UndisplacedRefines(classify, origin.core, acked, handled, course, writer.tables.core);
      }
      if |handled| == |acked| {
        forall j | 0 <= j < |acked| ensures acked[j] !in handled <==> Skipped(course, j) {
          TraceDisplaces(classify, origin.core, acked, handled, course, writer.tables.core);
          LostExactly(acked, handled, course, j);
        }
      }
    }

    /** The bounded flush at exit; a failure or a timeout reports what is left. */
    method FinalFlush() returns (dropped: nat)
      requires Sound([]) && Faithful() && Counted() && queue == [] && !online
      modifies this`script, this`stop, this`queue, this`received, this`acked, this`latest, this`counters,
               this`pending, this`popped, this`handled, writer
      ensures FailureFree(old(script)) && old(Exact()) ==> Exact()
      ensures Sound([]) && Faithful() && Counted() && queue == [] && acked == old(acked)
      ensures |pending| == dropped && handled + pending == old(handled) + old(pending)
      ensures old(stop) ==> stop
      ensures FailureFree(old(script)) ==> dropped == 0
    {
      hide Recorded, LoggedAll, Letters, Readings, Numbered, Promised, RegistryCovers, FailureFree, Linked;
      var tick := Await(false, []);
      dropped := |pending|;
      if tick.db.Done? {
        dropped := FlushPending();
      }
    }

    /** The flush loop. */
    method FlushPending() returns (left: nat)
      requires Sound([]) && Faithful() && Counted() && queue == [] && !online
      modifies this`script, this`stop, this`queue, this`received, this`acked, this`latest, this`counters,
               this`pending, this`popped, this`handled, writer
      ensures FailureFree(old(script)) && old(Exact()) ==> Exact()
      ensures Sound([]) && Faithful() && Counted() && queue == [] && acked == old(acked)
      ensures |pending| == left && handled + pending == old(handled) + old(pending)
      ensures old(stop) ==> stop
      ensures FailureFree(old(script)) ==> left == 0
    {
      hide Exact, Sound, Faithful, Counted, FailureFree;
      while pending != []
        invariant FailureFree(old(script)) && old(Exact()) ==> Exact()
        invariant Sound([]) && Faithful() && Counted() && queue == [] && acked == old(acked)
        invariant handled + pending == old(handled) + old(pending)
        invariant FailureFree(old(script)) ==> FailureFree(script)
        invariant old(stop) ==> stop
        decreases |pending|
      {
        assert handled + pending == (handled + [pending[0]]) + pending[1..];
        var failed := HandleHead(false);
        if failed {
          return |pending|;
        }
      }
      return 0;
    }
  }

  /** A stop that finds a backlog and buffered messages, with no further failure: the buffered messages
      are written, as many messages leave the head of `pending`, the flush writes what is left, and
      nothing is reported as dropped. All is well exactly when there is no backlog or no buffer. */
  method StopOverBacklog(c: Consumer) returns (dropped: nat)
    requires c.Sound([]) && c.Faithful() && c.Counted() && c.course == Undrained(c.origin.core)
    requires c.stop && c.script == [] && !c.online
    modifies c, c.writer
    ensures c.acked == old(c.acked) && c.pending == [] && c.queue == [] && dropped == 0
    ensures var written := old(c.queue) + (old(c.pending) + old(c.queue))[|old(c.queue)|..];
            && c.handled == old(c.handled) + written
            && c.writer.tables.core == Handled(c.classify, old(c.writer.tables.core), written)
    ensures c.Conserved() <==> old(c.pending) == [] || old(c.queue) == []
  {
    hide Recorded, LoggedAll, Letters, Readings, Numbered, Promised, RegistryCovers, TracedBy, LogsKept;
    ghost var base, all, core, front := c.popped, c.pending + c.queue, c.writer.tables.core, c.handled;
    ghost var buffered := c.queue;
    var _ := c.Converse();
    PendingIsRest(base, all, c.popped, c.pending, c.acked, |buffered|);
    ghost var course, rest := c.course, c.pending;
    dropped := c.FinalFlush();
    assert c.popped + c.pending == c.acked && c.handled + c.pending == c.handled;
    assert c.handled == front + buffered + rest == front + (buffered + rest);
    c.RunOutcome();
    WrittenInFull(c.classify, c.origin.core, c.acked, front, buffered, rest, course, c.writer.tables.core);
  }

  /** Gone through without a failure, the tables are those the drain found with its messages and the rest. */
  lemma WrittenInFull(classify: Classifier, start: Core, line: seq<Item>, front: seq<Item>, drained: seq<Item>,
                      rest: seq<Item>, c: Course, core: Core)
    requires TracedBy(classify, start, line, front + drained + rest, c, core)
    requires c.at == |front| && c.written == |drained| && |line| == |front| + |drained| + |rest|
    requires |line| == |front| + c.written + c.backlog
    ensures core == Handled(classify, c.entry, drained + rest)
  {
    hide Handled;
    var handled := front + drained + rest;
    var f := |front + drained|;
    assert handled[|front|..f] == drained && handled[f..] == rest;
    BehindTheLine(classify, Handled(classify, c.entry, drained), line, f + c.backlog, c.exit);
    BehindTheLine(classify, Handled(classify, c.exit, rest), line, |handled|, core);
    HandledConcat(classify, c.entry, drained, rest);
  }

  lemma PendingIsRest(base: seq<Item>, all: seq<Item>, popped: seq<Item>, pending: seq<Item>, acked: seq<Item>, n: nat)
    requires acked == base + all && acked == popped + pending
    requires |popped| == |base| + n
    ensures n <= |all| && pending == all[n..]
  {
    assert pending == acked[|popped|..];
  }

  /** One message is left pending by a session that lost the database; the next connection delivers another
      one and a stop. */
  method OnePendingOneBuffered(classify: Classifier, writer: Writer, first: (string, seq<byte>),
                               second: (string, seq<byte>)) returns (c: Consumer)
    requires RegistryCovers(writer.tables.core)
    ensures fresh(c) && c.classify == classify && c.writer == writer
    ensures c.Sound([]) && c.Faithful() && c.Counted() && c.course == Undrained(c.origin.core)
    ensures c.stop && c.script == [] && !c.online
    ensures c.pending == [Item(0, first.0, first.1)] && c.queue == [Item(1, second.0, second.1)] && c.handled == []
    ensures c.acked == c.pending + c.queue
  {
    hide Recorded, RegistryCovers;
    c := new Consumer(classify, writer, []);
    c.Deliver([first], []);
    c.Salvage();
    assert c.acked == c.pending == [Item(0, first.0, first.1)];
    c.Deliver([second], []);
    assert c.queue == [Item(1, second.0, second.1)];
    c.stop := true;
  }

  /** The excluded case is real, for any two valid readings of different keys. The second gets its row, the
      first never does, and nothing is reported. */
  method DrainOverBacklogLosesAMessage(classify: Classifier, writer: Writer, first: (string, seq<byte>),
                                       second: (string, seq<byte>)) returns (c: Consumer, dropped: nat)
    requires RegistryCovers(writer.tables.core)
    requires classify(first.0, first.1).ValidReading? && classify(second.0, second.1).ValidReading?
    requires var lost := classify(first.0, first.1).reading.key;
             lost != classify(second.0, second.1).reading.key && lost !in writer.tables.core.telemetry
    modifies writer
    ensures fresh(c) && c.writer == writer && c.pending == [] && c.queue == [] && dropped == 0
    ensures var lost, kept := Item(0, first.0, first.1), Item(1, second.0, second.1);
            c.acked == [lost, kept] && c.handled == [kept, kept] && !c.Conserved()
    ensures classify(second.0, second.1).reading.key in writer.tables.core.telemetry
    ensures classify(first.0, first.1).reading.key !in writer.tables.core.telemetry
  {
    ghost var before, kept := writer.tables.core, Item(1, second.0, second.1);
    hide Recorded, Numbered, Promised, RegistryCovers, Handled;
    c := OnePendingOneBuffered(classify, writer, first, second);
    dropped := StopOverBacklog(c);
    assert ([Item(0, first.0, first.1)] + [kept])[1..] == [kept] && [kept] + [kept] == [kept, kept];
    HandledHolds(classify, before, [kept, kept]);
    assert Classified(classify, [kept, kept][0]).ValidReading?;
  }
}
