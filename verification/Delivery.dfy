/** What a consumer of acknowledged messages has written: the order in which messages were handled, and
    the tables that this order leaves behind. */
module Delivery {
  import opened IngestionTables
  import opened Series

  /** A received message. `serial` is its place in the order of acknowledgement; it stands for the
      identity of the tuple and is not read by the program. */
  datatype Item = Item(serial: nat, topic: string, payload: seq<byte>)

  datatype Outcome = ValidReading(reading: Reading) | Rejected(letter: DeadLetter)

  /** Message classification: total and pure. */
  type Classifier = (string, seq<byte>) -> Outcome

  function Classified(classify: Classifier, item: Item): Outcome {
    classify(item.topic, item.payload)
  }

  predicate Numbered(items: seq<Item>) {
    forall i :: 0 <= i < |items| ==> items[i].serial == i
  }

  // ---------------------------------------------------------------- handling messages

  /** The readings among some items, in order. */
  function Readings(classify: Classifier, items: seq<Item>): seq<Reading> {
    if items == [] then []
    else
      var front := Readings(classify, items[..|items| - 1]);
      match Classified(classify, items[|items| - 1])
      case ValidReading(r) => front + [r]
      case Rejected(_) => front
  }

  /** The pipeline state a failure-free consumer reaches by handling the items in order. */
  function Handled(classify: Classifier, core: Core, items: seq<Item>): Core {
    StoredAll(core, Readings(classify, items))
  }

  function AfterHandling(classify: Classifier, core: Core, item: Item): Core {
    match Classified(classify, item)
    case ValidReading(r) => Stored(core, r)
    case Rejected(_) => core
  }

  /** The states a failed handling of `item` may leave behind. */
  predicate PartlyHandled(classify: Classifier, core: Core, item: Item, now: Core) {
    match Classified(classify, item)
    case ValidReading(r) => PartlyStored(core, r, now)
    case Rejected(_) => now == core
  }

  lemma HandledStep(classify: Classifier, core: Core, items: seq<Item>, item: Item)
    ensures Handled(classify, core, items + [item]) == AfterHandling(classify, Handled(classify, core, items), item)
  {
    assert (items + [item])[..|items|] == items;
    if Classified(classify, item).ValidReading? {
      var front := Readings(classify, items);
      assert (front + [Classified(classify, item).reading])[..|front|] == front;
    }
  }

  lemma {:induction false} HandledConcat(classify: Classifier, core: Core, a: seq<Item>, b: seq<Item>)
    ensures Handled(classify, core, a + b) == Handled(classify, Handled(classify, core, a), b)
  {
    if b == [] {
      assert a + b == a;
    } else {
      hide Handled, AfterHandling;
      var n := |b| - 1;
      assert a + b == (a + b[..n]) + [b[n]] && b == b[..n] + [b[n]];
      HandledConcat(classify, core, a, b[..n]);
      HandledStep(classify, core, a + b[..n], b[n]);
      HandledStep(classify, Handled(classify, core, a), b[..n], b[n]);
    }
  }

  lemma AnyStateIsPartlyHandled(classify: Classifier, core: Core, item: Item)
    ensures PartlyHandled(classify, core, item, core)
  {
  }

  /** Handling a message again, on top of any part of an earlier attempt, completes that attempt. */
  lemma RetryHandled(classify: Classifier, base: Core, item: Item, now: Core)
    requires PartlyHandled(classify, base, item, now)
    ensures AfterHandling(classify, now, item) == AfterHandling(classify, base, item)
  {
    if Classified(classify, item).ValidReading? {
      RetryCompletes(base, Classified(classify, item).reading, now);
    }
  }

  lemma PartOfPart(classify: Classifier, base: Core, item: Item, mid: Core, now: Core)
    requires PartlyHandled(classify, base, item, mid) && PartlyHandled(classify, mid, item, now)
    ensures PartlyHandled(classify, base, item, now)
  {
    if Classified(classify, item).ValidReading? {
      RetryCompletes(base, Classified(classify, item).reading, mid);
    }
  }

  // ---------------------------------------------------------------- the arrival logs

  /** What a completed write of a reading does to all tables: a duplicate is also logged. */
  function LoggedReading(tables: Tables, r: Reading): Tables {
    var stored := tables.(core := Stored(tables.core, r));
    if r.key in tables.core.telemetry then stored.(dedupes := tables.dedupes + [r.key]) else stored
  }

  /** What completed handling of a message does to all tables: a rejected one leaves its letter. */
  function Logged(classify: Classifier, tables: Tables, item: Item): Tables {
    match Classified(classify, item)
    case ValidReading(r) => LoggedReading(tables, r)
    case Rejected(letter) => tables.(deadLetters := tables.deadLetters + [letter])
  }

  /** What failed handling may leave. */
  predicate PartlyLoggedReading(before: Tables, r: Reading, now: Tables) {
    && now.deadLetters == before.deadLetters && PartlyStored(before.core, r, now.core)
    && (now.dedupes == before.dedupes ||
        (r.key in before.core.telemetry && now.dedupes == before.dedupes + [r.key]))
  }

  predicate PartlyLogged(classify: Classifier, before: Tables, item: Item, now: Tables) {
    match Classified(classify, item)
    case ValidReading(r) => PartlyLoggedReading(before, r, now)
    case Rejected(_) => now == before || now == Logged(classify, before, item)
  }

  /** The tables a failure-free consumer reaches. */
  function LoggedAll(classify: Classifier, tables: Tables, items: seq<Item>): Tables {
    if items == [] then tables
    else Logged(classify, LoggedAll(classify, tables, items[..|items| - 1]), items[|items| - 1])
  }

  /** The letters of the rejected ones among some items, in order. */
  function Letters(classify: Classifier, items: seq<Item>): seq<DeadLetter> {
    if items == [] then []
    else
      var front := Letters(classify, items[..|items| - 1]);
      match Classified(classify, items[|items| - 1])
      case ValidReading(_) => front
      case Rejected(letter) => front + [letter]
  }

  lemma LoggedStep(classify: Classifier, tables: Tables, items: seq<Item>, item: Item)
    ensures LoggedAll(classify, tables, items + [item]) == Logged(classify, LoggedAll(classify, tables, items), item)
    ensures |Letters(classify, items + [item])| ==
            |Letters(classify, items)| + if Classified(classify, item).Rejected? then 1 else 0
    ensures |Readings(classify, items + [item])| ==
            |Readings(classify, items)| + if Classified(classify, item).Rejected? then 0 else 1
  {
    assert (items + [item])[..|items|] == items;
  }

  /** These tables: the failure-free pipeline state, and the letters of all rejected messages in order. */
  lemma {:induction false} LoggedAllHolds(classify: Classifier, tables: Tables, items: seq<Item>)
    ensures var now := LoggedAll(classify, tables, items);
            && now.core == Handled(classify, tables.core, items)
            && now.deadLetters == tables.deadLetters + Letters(classify, items)
  {
    hide Handled, AfterHandling, Logged;
    if items == [] {
      NothingHandled(classify, tables.core);
    } else {
      var n := |items| - 1;
      var front, item := items[..n], items[n];
      LoggedAllHolds(classify, tables, front);
      HandledStep(classify, tables.core, front, item);
      LoggedCore(classify, LoggedAll(classify, tables, front), item);
      LoggedLetter(classify, LoggedAll(classify, tables, front), item);
      LoggedStep(classify, tables, front, item);
      LettersStep(classify, items);
      hide LoggedAll, Letters;
      assert items == front + [item];
    }
  }

  lemma LettersStep(classify: Classifier, items: seq<Item>)
    requires items != []
    ensures var n := |items| - 1;
            Letters(classify, items) == Letters(classify, items[..n]) +
              match Classified(classify, items[n])
              case ValidReading(_) => []
              case Rejected(letter) => [letter]
  {
    var front := Letters(classify, items[..|items| - 1]);
    assert front + [] == front;
  }

  lemma LoggedLetter(classify: Classifier, tables: Tables, item: Item)
    ensures Logged(classify, tables, item).deadLetters ==
            tables.deadLetters +
              match Classified(classify, item)
              case ValidReading(_) => []
              case Rejected(letter) => [letter]
  {
    assert tables.deadLetters + [] == tables.deadLetters;
  }

  /** In every run: both logs only grow, every handled rejected message has its letter, every new letter is the
      letter of a rejected message and every logged duplicate the key of a valid one. */
  ghost predicate LogsKept(classify: Classifier, before: Tables, line: seq<Item>, handled: seq<Item>, now: Tables) {
    && before.deadLetters <= now.deadLetters && before.dedupes <= now.dedupes
    && (forall i :: 0 <= i < |handled| && Classified(classify, handled[i]).Rejected? ==>
          Classified(classify, handled[i]).letter in now.deadLetters[|before.deadLetters|..])
    && (forall k :: |before.deadLetters| <= k < |now.deadLetters| ==> IsLetterOf(classify, line, now.deadLetters[k]))
    && (forall k :: |before.dedupes| <= k < |now.dedupes| ==> IsKeyOf(classify, line, now.dedupes[k]))
  }

  ghost predicate IsLetterOf(classify: Classifier, line: seq<Item>, letter: DeadLetter) {
    exists i :: 0 <= i < |line| && Rejects(classify, line[i], letter)
  }

  ghost predicate IsKeyOf(classify: Classifier, line: seq<Item>, key: Key) {
    exists i :: 0 <= i < |line| && HasKey(classify, line[i], key)
  }

  predicate Rejects(classify: Classifier, item: Item, letter: DeadLetter) {
    Classified(classify, item) == Rejected(letter)
  }

  predicate HasKey(classify: Classifier, item: Item, key: Key) {
    Classified(classify, item).ValidReading? && Classified(classify, item).reading.key == key
  }

  lemma LogsAppend(classify: Classifier, before: Tables, line: seq<Item>, handled: seq<Item>, now: Tables, item: Item)
    requires LogsKept(classify, before, line, handled, now)
    ensures LogsKept(classify, before, line + [item], handled, now)
  {
    forall k | |before.deadLetters| <= k < |now.deadLetters|
      ensures IsLetterOf(classify, line + [item], now.deadLetters[k])
    {
      StillOfLine(classify, line, item, now.deadLetters[k], Key("", 0.0));
    }
    forall k | |before.dedupes| <= k < |now.dedupes| ensures IsKeyOf(classify, line + [item], now.dedupes[k]) {
      StillOfLine(classify, line, item, DeadLetter("", [], ""), now.dedupes[k]);
    }
  }

  lemma StillOfLine(classify: Classifier, line: seq<Item>, item: Item, letter: DeadLetter, key: Key)
    ensures IsLetterOf(classify, line, letter) ==> IsLetterOf(classify, line + [item], letter)
    ensures IsKeyOf(classify, line, key) ==> IsKeyOf(classify, line + [item], key)
  {
    var longer := line + [item];
    if i :| 0 <= i < |line| && Rejects(classify, line[i], letter) {
      assert longer[i] == line[i];
    }
    if i :| 0 <= i < |line| && HasKey(classify, line[i], key) {
      assert longer[i] == line[i];
    }
  }

  /** Neither log loses an entry, and what is added belongs to the message. */
  ghost predicate LogsMove(classify: Classifier, mid: Tables, item: Item, now: Tables) {
    && (now.deadLetters == mid.deadLetters ||
        (Classified(classify, item).Rejected? &&
         now.deadLetters == mid.deadLetters + [Classified(classify, item).letter]))
    && (now.dedupes == mid.dedupes ||
        (Classified(classify, item).ValidReading? &&
         now.dedupes == mid.dedupes + [Classified(classify, item).reading.key]))
  }

  lemma PartMovesLogs(classify: Classifier, before: Tables, item: Item, now: Tables)
    requires PartlyLogged(classify, before, item, now)
    ensures LogsMove(classify, before, item, now)
  {
  }

  lemma LogsKeptBy(classify: Classifier, before: Tables, line: seq<Item>, handled: seq<Item>, mid: Tables, n: nat,
                   now: Tables)
    requires LogsKept(classify, before, line, handled, mid) && n < |line|
    requires LogsMove(classify, mid, line[n], now)
    ensures LogsKept(classify, before, line, handled, now)
  {
    var skip := |before.deadLetters|;
    assert now.deadLetters[..|mid.deadLetters|] == mid.deadLetters;
    forall i | 0 <= i < |handled| && Classified(classify, handled[i]).Rejected?
      ensures Classified(classify, handled[i]).letter in now.deadLetters[skip..]
    {
      var letter := Classified(classify, handled[i]).letter;
      var k :| 0 <= k < |mid.deadLetters[skip..]| && mid.deadLetters[skip..][k] == letter;
      assert now.deadLetters[skip..][k] == mid.deadLetters[skip..][k];
    }
    forall k | skip <= k < |now.deadLetters|
      ensures IsLetterOf(classify, line, now.deadLetters[k])
    {
      if k < |mid.deadLetters| {
        assert now.deadLetters[k] == mid.deadLetters[k];
      } else {
        assert Rejects(classify, line[n], now.deadLetters[k]);
      }
    }
    forall k | |before.dedupes| <= k < |now.dedupes|
      ensures IsKeyOf(classify, line, now.dedupes[k])
    {
      if k < |mid.dedupes| {
        assert now.dedupes[k] == mid.dedupes[k];
      } else {
        assert HasKey(classify, line[n], now.dedupes[k]);
      }
    }
  }

  lemma LogsHandled(classify: Classifier, before: Tables, line: seq<Item>, handled: seq<Item>, mid: Tables, n: nat)
    requires LogsKept(classify, before, line, handled, mid) && n < |line|
    ensures LogsKept(classify, before, line, handled + [line[n]], Logged(classify, mid, line[n]))
  {
    var now, longer, skip := Logged(classify, mid, line[n]), handled + [line[n]], |before.deadLetters|;
    LogsKeptBy(classify, before, line, handled, mid, n, now);
    forall i | 0 <= i < |longer| && Classified(classify, longer[i]).Rejected?
      ensures Classified(classify, longer[i]).letter in now.deadLetters[skip..]
    {
      if i < |handled| {
        assert longer[i] == handled[i];
      } else {
        assert now.deadLetters[skip..][|mid.deadLetters| - skip] == Classified(classify, line[n]).letter;
      }
    }
  }

  // ---------------------------------------------------------------- a whole run

  /** `now` is `base`, up to an unfinished write of the message at index i. */
  predicate Residue(classify: Classifier, base: Core, line: seq<Item>, i: nat, now: Core) {
    if i < |line| then PartlyHandled(classify, base, line[i], now) else now == base
  }

  /** Where the shutdown drain stood: after `at` handled messages and with the tables at `entry` it found
      `backlog` messages pending, wrote the next `written` buffered ones, and left the tables at `exit`. */
  datatype Course = Course(at: nat, backlog: nat, written: nat, entry: Core, exit: Core)

  /** No drain yet. */
  function Undrained(start: Core): Course { Course(0, 0, 0, start, start) }

  /** The messages are handled in their turn, but for those the drain wrote: these lay `backlog` places
      further down the line. */
  ghost predicate Displaced(line: seq<Item>, handled: seq<Item>, c: Course) {
    var f := c.at + c.written;
    && f <= |handled| <= |line| && f + c.backlog <= |line|
    && forall i :: 0 <= i < |handled| ==> handled[i] == line[if c.at <= i < f then i + c.backlog else i]
  }

  /** The tables come from `start` by handling exactly these messages in exactly this order, up to an
      unfinished write at three places: of the message the drain found first in line, of the message it
      failed to write, and of the message that is next now. */
  ghost predicate Leaves(classify: Classifier, start: Core, line: seq<Item>, handled: seq<Item>, c: Course, core: Core)
    requires c.at + c.written <= |handled|
  {
    var f := c.at + c.written;
    && Residue(classify, Handled(classify, start, handled[..c.at]), line, c.at, c.entry)
    && Residue(classify, Handled(classify, c.entry, handled[c.at..f]), line, f + c.backlog, c.exit)
    && Residue(classify, Handled(classify, c.exit, handled[f..]), line, |handled|, core)
  }

  ghost predicate TracedBy(classify: Classifier, start: Core, line: seq<Item>, handled: seq<Item>, c: Course,
                           core: Core)
  {
    Displaced(line, handled, c) && Leaves(classify, start, line, handled, c, core)
  }

  lemma TraceBegins(classify: Classifier, start: Core)
    ensures TracedBy(classify, start, [], [], Undrained(start), start)
  {
  }

  /** Messages join the line at its end. */
  lemma TraceAppends(classify: Classifier, start: Core, line: seq<Item>, handled: seq<Item>, c: Course, core: Core,
                     item: Item)
    requires TracedBy(classify, start, line, handled, c, core)
    ensures TracedBy(classify, start, line + [item], handled, c, core)
  {
    hide Handled, Residue;
    var f := c.at + c.written;
    ResidueAppends(classify, Handled(classify, start, handled[..c.at]), line, c.at, c.entry, item);
    ResidueAppends(classify, Handled(classify, c.entry, handled[c.at..f]), line, f + c.backlog, c.exit, item);
    ResidueAppends(classify, Handled(classify, c.exit, handled[f..]), line, |handled|, core, item);
  }

  lemma ResidueAppends(classify: Classifier, base: Core, line: seq<Item>, i: nat, now: Core, item: Item)
    requires Residue(classify, base, line, i, now)
    ensures Residue(classify, base, line + [item], i, now)
  {
    AnyStateIsPartlyHandled(classify, base, item);
  }

  /** A part of the next message in line was handled. */
  lemma TraceFails(classify: Classifier, start: Core, line: seq<Item>, handled: seq<Item>, c: Course, core: Core,
                   now: Core)
    requires TracedBy(classify, start, line, handled, c, core) && |handled| < |line|
    requires PartlyHandled(classify, core, line[|handled|], now)
    ensures TracedBy(classify, start, line, handled, c, now)
  {
    hide Handled, PartlyHandled;
    PartOfPart(classify, Handled(classify, c.exit, handled[c.at + c.written..]), line[|handled|], core, now);
  }

  /** The next message in line was handled. */
  lemma TraceHandles(classify: Classifier, start: Core, line: seq<Item>, handled: seq<Item>, c: Course, core: Core)
    requires TracedBy(classify, start, line, handled, c, core) && |handled| < |line|
    ensures var item := line[|handled|];
            TracedBy(classify, start, line, handled + [item], c, AfterHandling(classify, core, item))
  {
    hide Handled, PartlyHandled, AfterHandling;
    var f, item := c.at + c.written, line[|handled|];
    var longer, now := handled + [item], AfterHandling(classify, core, item);
    RetryHandled(classify, Handled(classify, c.exit, handled[f..]), item, core);
    HandledStep(classify, c.exit, handled[f..], item);
    assert longer[..c.at] == handled[..c.at] && longer[c.at..f] == handled[c.at..f];
    assert longer[f..] == handled[f..] + [item];
    ExactResidue(classify, line, |longer|, now);
  }

  lemma ExactResidue(classify: Classifier, line: seq<Item>, i: nat, core: Core)
    ensures Residue(classify, core, line, i, core)
  {
  }

  lemma DrainBegins(classify: Classifier, start: Core, line: seq<Item>, handled: seq<Item>, core: Core)
    requires TracedBy(classify, start, line, handled, Undrained(start), core)
    ensures TracedBy(classify, start, line, handled, Course(|handled|, |line| - |handled|, 0, core, core), core)
  {
    var n := |handled|;
    assert handled[0..] == handled[..n] == handled && handled[n..n] == [] && handled[n..] == [];
    assert Handled(classify, core, []) == core;
    hide Handled, PartlyHandled;
    if n < |line| {
      AnyStateIsPartlyHandled(classify, core, line[n]);
    }
  }

  /** The drain took the message behind the whole line and handled a part of it. */
  lemma DrainFails(classify: Classifier, start: Core, line: seq<Item>, handled: seq<Item>, c: Course, core: Core,
                   item: Item, now: Core)
    requires TracedBy(classify, start, line, handled, c, core) && c.exit == core
    requires |handled| == c.at + c.written && |line| == |handled| + c.backlog
    requires PartlyHandled(classify, core, item, now)
    ensures TracedBy(classify, start, line + [item], handled, c.(exit := now), now)
  {
    hide PartlyHandled;
    assert handled[|handled|..] == [] && Handled(classify, now, []) == now;
    hide Handled;
    TraceAppends(classify, start, line, handled, c, core, item);
    ExactResidue(classify, line + [item], |handled|, now);
  }

  /** The drain took the message behind the whole line and handled it. */
  lemma DrainHandles(classify: Classifier, start: Core, line: seq<Item>, handled: seq<Item>, c: Course, core: Core,
                     item: Item)
    requires TracedBy(classify, start, line, handled, c, core) && c.exit == core
    requires |handled| == c.at + c.written && |line| == |handled| + c.backlog
    ensures var now := AfterHandling(classify, core, item);
            TracedBy(classify, start, line + [item], handled + [item], c.(written := c.written + 1, exit := now), now)
  {
    hide PartlyHandled, AfterHandling, Displaced;
    var f, longer, now := |handled|, handled + [item], AfterHandling(classify, core, item);
    DrainDisplaces(line, handled, c, item, now);
    hide Leaves;
    DrainLeaves(classify, start, line, handled, c, core, item);
  }

  lemma DrainDisplaces(line: seq<Item>, handled: seq<Item>, c: Course, item: Item, now: Core)
    requires Displaced(line, handled, c)
    requires |handled| == c.at + c.written && |line| == |handled| + c.backlog
    ensures Displaced(line + [item], handled + [item], c.(written := c.written + 1, exit := now))
  {
  }

  lemma DrainLeaves(classify: Classifier, start: Core, line: seq<Item>, handled: seq<Item>, c: Course, core: Core,
                    item: Item)
    requires |handled| == c.at + c.written && |line| == |handled| + c.backlog && c.exit == core
    requires Leaves(classify, start, line, handled, c, core)
    ensures var now := AfterHandling(classify, core, item);
            Leaves(classify, start, line + [item], handled + [item], c.(written := c.written + 1, exit := now), now)
  {
    hide AfterHandling, Residue, Handled;
    var now, part := AfterHandling(classify, core, item), handled[c.at..];
    LongerSlices(handled, item, c.at);
    NothingHandled(classify, now);
    BehindTheLine(classify, Handled(classify, c.entry, part), line, |line|, core);
    HandledStep(classify, c.entry, part, item);
    ResidueAppends(classify, Handled(classify, start, handled[..c.at]), line, c.at, c.entry, item);
    ExactResidue(classify, line + [item], |line| + 1, now);
    ExactResidue(classify, line + [item], |handled| + 1, now);
  }

  lemma LongerSlices(handled: seq<Item>, item: Item, m: nat)
    requires m <= |handled|
    ensures var n, longer := |handled|, handled + [item];
            && handled[m..n] == handled[m..] && longer[..m] == handled[..m]
            && longer[m..n + 1] == handled[m..] + [item] && longer[n + 1..] == []
  {
  }

  lemma NothingHandled(classify: Classifier, core: Core)
    ensures Handled(classify, core, []) == core
  {
  }

  lemma BehindTheLine(classify: Classifier, base: Core, line: seq<Item>, i: nat, now: Core)
    requires Residue(classify, base, line, i, now) && i >= |line|
    ensures now == base
  {
  }

  // ---------------------------------------------------------------- the record of a run

  /** The pipeline tables follow from the order of handling, and the arrival logs from the messages. */
  ghost predicate Recorded(classify: Classifier, origin: Tables, line: seq<Item>, handled: seq<Item>, c: Course,
                           tables: Tables)
  {
    && TracedBy(classify, origin.core, line, handled, c, tables.core)
    && LogsKept(classify, origin, line, handled, tables)
  }

  lemma RecordBegins(classify: Classifier, origin: Tables)
    ensures Recorded(classify, origin, [], [], Undrained(origin.core), origin)
  {
    TraceBegins(classify, origin.core);
  }

  lemma RecordAppends(classify: Classifier, origin: Tables, line: seq<Item>, handled: seq<Item>, c: Course,
                      tables: Tables, item: Item)
    requires Recorded(classify, origin, line, handled, c, tables)
    ensures Recorded(classify, origin, line + [item], handled, c, tables)
  {
    hide TracedBy, LogsKept;
    TraceAppends(classify, origin.core, line, handled, c, tables.core, item);
    LogsAppend(classify, origin, line, handled, tables, item);
  }

  lemma RecordFails(classify: Classifier, origin: Tables, line: seq<Item>, handled: seq<Item>, c: Course,
                    tables: Tables, now: Tables)
    requires Recorded(classify, origin, line, handled, c, tables) && |handled| < |line|
    requires PartlyLogged(classify, tables, line[|handled|], now)
    requires PartlyHandled(classify, tables.core, line[|handled|], now.core)
    ensures Recorded(classify, origin, line, handled, c, now)
  {
    PartMovesLogs(classify, tables, line[|handled|], now);
    hide TracedBy, LogsKept, PartlyLogged, PartlyHandled;
    TraceFails(classify, origin.core, line, handled, c, tables.core, now.core);
    LogsKeptBy(classify, origin, line, handled, tables, |handled|, now);
  }

  lemma LoggedCore(classify: Classifier, tables: Tables, item: Item)
    ensures Logged(classify, tables, item).core == AfterHandling(classify, tables.core, item)
  {
  }

  lemma RecordHandles(classify: Classifier, origin: Tables, line: seq<Item>, handled: seq<Item>, c: Course,
                      tables: Tables)
    requires Recorded(classify, origin, line, handled, c, tables) && |handled| < |line|
    ensures var item := line[|handled|];
            Recorded(classify, origin, line, handled + [item], c, Logged(classify, tables, item))
  {
    hide TracedBy, LogsKept, Logged, AfterHandling;
    LoggedCore(classify, tables, line[|handled|]);
    TraceHandles(classify, origin.core, line, handled, c, tables.core);
    LogsHandled(classify, origin, line, handled, tables, |handled|);
  }

  lemma RecordDrains(classify: Classifier, origin: Tables, line: seq<Item>, handled: seq<Item>, tables: Tables)
    requires Recorded(classify, origin, line, handled, Undrained(origin.core), tables)
    ensures var c := Course(|handled|, |line| - |handled|, 0, tables.core, tables.core);
            |handled| <= |line| && Recorded(classify, origin, line, handled, c, tables)
  {
    hide LogsKept;
    DrainBegins(classify, origin.core, line, handled, tables.core);
    hide Leaves;
  }

  /** The drain takes the message behind the whole line, and fails. */
  lemma DrainRecordFails(classify: Classifier, origin: Tables, line: seq<Item>, handled: seq<Item>, c: Course,
                         tables: Tables, item: Item, now: Tables)
    requires Recorded(classify, origin, line, handled, c, tables) && c.exit == tables.core
    requires |handled| == c.at + c.written && |line| == |handled| + c.backlog
    requires PartlyLogged(classify, tables, item, now) && PartlyHandled(classify, tables.core, item, now.core)
    ensures Recorded(classify, origin, line + [item], handled, c.(exit := now.core), now)
  {
    PartMovesLogs(classify, tables, item, now);
    hide TracedBy, LogsKept, PartlyLogged, PartlyHandled;
    DrainFails(classify, origin.core, line, handled, c, tables.core, item, now.core);
    LogsAppend(classify, origin, line, handled, tables, item);
    assert (line + [item])[|line|] == item;
    LogsKeptBy(classify, origin, line + [item], handled, tables, |line|, now);
  }

  /** The drain takes the message behind the whole line, and handles it. */
  lemma DrainRecordHandles(classify: Classifier, origin: Tables, line: seq<Item>, handled: seq<Item>, c: Course,
                           tables: Tables, item: Item)
    requires Recorded(classify, origin, line, handled, c, tables) && c.exit == tables.core
    requires |handled| == c.at + c.written && |line| == |handled| + c.backlog
    ensures var now := Logged(classify, tables, item);
            Recorded(classify, origin, line + [item], handled + [item],
                     c.(written := c.written + 1, exit := now.core), now)
  {
    hide TracedBy, LogsKept, Logged, AfterHandling;
    LoggedCore(classify, tables, item);
    DrainHandles(classify, origin.core, line, handled, c, tables.core, item);
    LogsAppend(classify, origin, line, handled, tables, item);
    assert (line + [item])[|line|] == item;
    LogsHandled(classify, origin, line + [item], handled, tables, |line|);
  }

  // ---------------------------------------------------------------- what the order means

  /** The messages are handled in their turn exactly when the drain found no backlog or wrote nothing. */
  lemma InTurnIff(line: seq<Item>, handled: seq<Item>, c: Course)
    requires Displaced(line, handled, c) && Numbered(line)
    ensures handled == line[..|handled|] <==> c.backlog == 0 || c.written == 0
  {
    if c.backlog > 0 && c.written > 0 {
      assert handled[c.at] == line[c.at + c.backlog];
      assert line[..|handled|][c.at].serial == c.at;
    }
  }

  /** One of the first messages of the backlog, as many as the drain wrote messages while it lasted. */
  predicate Skipped(c: Course, j: nat) {
    c.at <= j < c.at + if c.backlog < c.written then c.backlog else c.written
  }

  lemma TraceDisplaces(classify: Classifier, start: Core, line: seq<Item>, handled: seq<Item>, c: Course, core: Core)
    requires TracedBy(classify, start, line, handled, c, core)
    ensures Displaced(line, handled, c)
  {
  }

  /** When the line has been gone through, the messages that were never handled are exactly the skipped
      ones. */
  lemma LostExactly(line: seq<Item>, handled: seq<Item>, c: Course, j: nat)
    requires Displaced(line, handled, c) && Numbered(line) && |handled| == |line| && j < |line|
    ensures line[j] !in handled <==> Skipped(c, j)
  {
    var f := c.at + c.written;
    if line[j] in handled {
      var i :| 0 <= i < |handled| && handled[i] == line[j];
      assert line[if c.at <= i < f then i + c.backlog else i].serial == j;
    }
    if j < c.at || f <= j {
      assert handled[j] == line[j];
    } else if c.at + c.backlog <= j {
      assert handled[j - c.backlog] == line[j];
    }
  }

  /** An unfinished write is completed by going on with the line. */
  lemma Resumed(classify: Classifier, base: Core, line: seq<Item>, i: nat, mid: Core, j: nat, now: Core)
    requires i <= j <= |line| && Residue(classify, base, line, i, mid)
    requires Residue(classify, Handled(classify, mid, line[i..j]), line, j, now)
    ensures Residue(classify, Handled(classify, base, line[i..j]), line, j, now)
  {
    if i == j {
      assert line[i..j] == [];
      assert Handled(classify, mid, []) == mid && Handled(classify, base, []) == base;
      if j < |line| {
        PartOfPart(classify, base, line[j], mid, now);
      }
    } else {
      FirstResumed(classify, base, line[i], line[i + 1..j], mid);
      assert line[i..j] == [line[i]] + line[i + 1..j];
    }
  }

  lemma FirstResumed(classify: Classifier, base: Core, item: Item, rest: seq<Item>, mid: Core)
    requires PartlyHandled(classify, base, item, mid)
    ensures Handled(classify, mid, [item] + rest) == Handled(classify, base, [item] + rest)
  {
    RetryHandled(classify, base, item, mid);
    assert [] + [item] == [item];
    HandledStep(classify, mid, [], item);
    HandledStep(classify, base, [], item);
    assert Handled(classify, mid, []) == mid && Handled(classify, base, []) == base;
    HandledConcat(classify, mid, [item], rest);
    HandledConcat(classify, base, [item], rest);
  }

  /** Without a backlog the tables are those of a failure-free consumer of the same messages, up to an
      unfinished write of the next one. */
  lemma UndisplacedRefines(classify: Classifier, start: Core, line: seq<Item>, handled: seq<Item>, c: Course,
                           core: Core)
    requires TracedBy(classify, start, line, handled, c, core) && c.backlog == 0
    ensures handled == line[..|handled|]
    ensures Residue(classify, Handled(classify, start, handled), line, |handled|, core)
  {
    hide Handled, Residue;
    var m, f, n := c.at, c.at + c.written, |handled|;
    assert handled == line[..n];
    assert handled[..m] == line[..m] && handled[m..f] == line[m..f] && handled[f..] == line[f..n];
    Resumed(classify, Handled(classify, start, line[..m]), line, m, c.entry, f, c.exit);
    HandledConcat(classify, start, line[..m], line[m..f]);
    assert line[..m] + line[m..f] == line[..f];
    Resumed(classify, Handled(classify, start, line[..f]), line, f, c.exit, n, core);
    HandledConcat(classify, start, line[..f], line[f..n]);
    assert line[..f] + line[f..n] == line[..n];
  }

  // ---------------------------------------------------------------- what the tables hold

  /** Rows are kept, and every new row is one of these messages. */
  ghost predicate RowsFrom(classify: Classifier, before: Core, items: seq<Item>, after: Core) {
    && (forall k :: k in before.telemetry ==> k in after.telemetry && after.telemetry[k] == before.telemetry[k])
    && (forall k :: k in after.telemetry && k !in before.telemetry ==>
          exists i :: 0 <= i < |items| && Gives(classify, items[i], Reading(k, after.telemetry[k])))
  }

  predicate Gives(classify: Classifier, item: Item, r: Reading) {
    Classified(classify, item) == ValidReading(r)
  }

  /** Every valid one of these messages has its row. */
  ghost predicate AllStored(classify: Classifier, items: seq<Item>, core: Core) {
    forall i :: 0 <= i < |items| && Classified(classify, items[i]).ValidReading? ==>
      Classified(classify, items[i]).reading.key in core.telemetry
  }

  lemma {:induction false} HandledHolds(classify: Classifier, core: Core, items: seq<Item>)
    ensures RowsFrom(classify, core, items, Handled(classify, core, items))
    ensures AllStored(classify, items, Handled(classify, core, items))
  {
    if items != [] {
      var n := |items| - 1;
      HandledHolds(classify, core, items[..n]);
      HandledStep(classify, core, items[..n], items[n]);
      assert items == items[..n] + [items[n]];
      hide Handled;
      StepHolds(classify, core, items[..n], Handled(classify, core, items[..n]), items[n]);
    }
  }

  lemma StepHolds(classify: Classifier, core: Core, front: seq<Item>, mid: Core, item: Item)
    requires RowsFrom(classify, core, front, mid) && AllStored(classify, front, mid)
    ensures var now := AfterHandling(classify, mid, item);
            RowsFrom(classify, core, front + [item], now) && AllStored(classify, front + [item], now)
  {
    var items, now := front + [item], AfterHandling(classify, mid, item);
    assert items[|front|] == item && forall i :: 0 <= i < |front| ==> items[i] == front[i];
    forall k | k in now.telemetry && k !in core.telemetry
      ensures exists i :: 0 <= i < |items| && Gives(classify, items[i], Reading(k, now.telemetry[k]))
    {
      if k in mid.telemetry {
        var i :| 0 <= i < |front| && Gives(classify, front[i], Reading(k, mid.telemetry[k]));
        assert items[i] == front[i];
      } else {
        assert Gives(classify, items[|front|], Reading(k, now.telemetry[k]));
      }
    }
  }

  lemma ResidueHolds(classify: Classifier, base: Core, line: seq<Item>, i: nat, now: Core)
    requires Residue(classify, base, line, i, now)
    ensures RowsFrom(classify, base, line, now)
  {
  }

  lemma RowsCompose(classify: Classifier, a: Core, b: Core, c: Core, items: seq<Item>, line: seq<Item>)
    requires RowsFrom(classify, a, items, b) && RowsFrom(classify, b, line, c)
    requires Within(items, line)
    ensures RowsFrom(classify, a, line, c)
  {
    forall k | k in c.telemetry && k !in a.telemetry
      ensures exists i :: 0 <= i < |line| && Gives(classify, line[i], Reading(k, c.telemetry[k]))
    {
      if k in b.telemetry {
        var i :| 0 <= i < |items| && Gives(classify, items[i], Reading(k, b.telemetry[k]));
        var j :| 0 <= j < |line| && line[j] == items[i];
        assert Gives(classify, line[j], Reading(k, c.telemetry[k]));
      }
    }
  }

  lemma SegmentHolds(classify: Classifier, base: Core, part: seq<Item>, line: seq<Item>, i: nat, now: Core)
    requires Residue(classify, Handled(classify, base, part), line, i, now)
    requires Within(part, line)
    ensures RowsFrom(classify, base, line, now) && AllStored(classify, part, now)
  {
    hide Handled, Residue;
    HandledHolds(classify, base, part);
    ResidueHolds(classify, Handled(classify, base, part), line, i, now);
    RowsCompose(classify, base, Handled(classify, base, part), now, part, line);
  }

  ghost predicate Within(part: seq<Item>, line: seq<Item>) {
    forall i :: 0 <= i < |part| ==> part[i] in line
  }

  /** In every run: rows are never changed or removed, every handled reading has its row, and every new row
      is one of the acknowledged readings. */
  lemma TablesHold(classify: Classifier, start: Core, line: seq<Item>, handled: seq<Item>, c: Course, core: Core)
    requires TracedBy(classify, start, line, handled, c, core)
    ensures RowsFrom(classify, start, line, core) && AllStored(classify, handled, core)
  {
    hide Handled, Residue, RowsFrom, AllStored, Within;
    var m, f := c.at, c.at + c.written;
    HandledWithin(line, handled, c);
    PartsWithin(line, handled, m, f);
    hide Displaced;
    ThreeParts(classify, start, line, handled[..m], m, c.entry, handled[m..f], f + c.backlog, c.exit, handled[f..],
               |handled|, core);
  }

  lemma PartsWithin(line: seq<Item>, handled: seq<Item>, m: nat, f: nat)
    requires m <= f <= |handled| && Within(handled, line)
    ensures handled[..m] + handled[m..f] + handled[f..] == handled
    ensures Within(handled[..m], line) && Within(handled[m..f], line) && Within(handled[f..], line)
  {
  }

  lemma HandledWithin(line: seq<Item>, handled: seq<Item>, c: Course)
    requires Displaced(line, handled, c)
    ensures Within(handled, line)
  {
    forall i | 0 <= i < |handled| ensures handled[i] in line {
      assert handled[i] == line[if c.at <= i < c.at + c.written then i + c.backlog else i];
    }
  }

  lemma ThreeParts(classify: Classifier, start: Core, line: seq<Item>, a: seq<Item>, i: nat, entry: Core,
                   b: seq<Item>, j: nat, exit: Core, d: seq<Item>, k: nat, core: Core)
    requires Within(a, line) && Within(b, line) && Within(d, line)
    requires Residue(classify, Handled(classify, start, a), line, i, entry)
    requires Residue(classify, Handled(classify, entry, b), line, j, exit)
    requires Residue(classify, Handled(classify, exit, d), line, k, core)
    ensures RowsFrom(classify, start, line, core) && AllStored(classify, a + b + d, core)
  {
    hide Handled, Residue, RowsFrom, AllStored;
    SegmentHolds(classify, start, a, line, i, entry);
    SegmentHolds(classify, entry, b, line, j, exit);
    SegmentHolds(classify, exit, d, line, k, core);
    RowsCompose(classify, start, entry, exit, line, line);
    RowsCompose(classify, start, exit, core, line, line);
    RowsCompose(classify, entry, exit, core, line, line);
    StillStored(classify, a, line, entry, core);
    StillStored(classify, b, line, exit, core);
    StoredTogether(classify, a, b, core);
    StoredTogether(classify, a + b, d, core);
  }

  lemma StoredTogether(classify: Classifier, a: seq<Item>, b: seq<Item>, core: Core)
    requires AllStored(classify, a, core) && AllStored(classify, b, core)
    ensures AllStored(classify, a + b, core)
  {
  }

  lemma StillStored(classify: Classifier, items: seq<Item>, line: seq<Item>, before: Core, after: Core)
    requires AllStored(classify, items, before) && RowsFrom(classify, before, line, after)
    ensures AllStored(classify, items, after)
  {
  }
}
