/** Imperfection injection: late, duplicate, malformed and missed readings of one device. */
module Stream {
  import opened Dynamics
  import opened Series

  datatype CorruptionMode = Truncated | WrongType | MissingField

  datatype EmissionKind = Normal | Duplicate | Late

  datatype Emission = Emission(
    publishAt: real,
    reading: Reading,
    corruption: Option<CorruptionMode>,
    kind: EmissionKind)

  /** The imperfection draws of one wake. */
  datatype Roll = Roll(missed: real, malformed: real, duplicate: real, defer: real, deferWakes: nat)

  datatype Rates = Rates(missedCheckin: real, malformed: real, duplicate: real, outOfOrder: real)

  /** One device's clean series with its draws. */
  datatype Source = Source(readings: seq<Reading>, rolls: seq<Roll>, rates: Rates)

  /** An emission together with the wake its reading belongs to and the wake it is sent at. */
  datatype Sent = Sent(emission: Emission, origin: nat, wake: nat)

  /** A deferred emission, due at a later wake. */
  datatype Held = Held(due: nat, origin: nat, emission: Emission)

  ghost predicate ValidSource(s: Source) {
    |s.readings| == |s.rolls| && forall w :: 0 <= w < |s.rolls| ==> 1 <= s.rolls[w].deferWakes <= 3
  }

  predicate Missed(s: Source, w: nat)
    requires w < |s.rolls|
  {
    s.rolls[w].missed < s.rates.missedCheckin
  }

  predicate Malformed(s: Source, w: nat)
    requires w < |s.rolls|
  {
    !Missed(s, w) && s.rolls[w].malformed < s.rates.malformed
  }

  predicate Deferred(s: Source, w: nat)
    requires w < |s.rolls|
  {
    !Missed(s, w) && s.rolls[w].defer < s.rates.outOfOrder
  }

  predicate Prompt(s: Source, w: nat)
    requires w < |s.rolls|
  {
    !Missed(s, w) && !Deferred(s, w)
  }

  predicate Duplicated(s: Source, w: nat)
    requires w < |s.rolls|
  {
    Prompt(s, w) && s.rolls[w].duplicate < s.rates.duplicate
  }

  /** Malformed wakes before w; the corruption modes rotate over them. */
  function MalformedBefore(s: Source, w: nat): nat
    requires w <= |s.rolls|
  {
    if w == 0 then 0 else MalformedBefore(s, w - 1) + if Malformed(s, w - 1) then 1 else 0
  }

  function ModeAt(k: nat): CorruptionMode {
    if k % 3 == 0 then Truncated else if k % 3 == 1 then WrongType else MissingField
  }

  function CorruptionOf(s: Source, w: nat): Option<CorruptionMode>
    requires w < |s.rolls|
  {
    if Malformed(s, w) then Some(ModeAt(MalformedBefore(s, w))) else None
  }

  /** What wake w's own reading looks like on the wire. */
  function OwnEmission(s: Source, w: nat, kind: EmissionKind): Emission
    requires w < |s.rolls| == |s.readings|
  {
    Emission(s.readings[w].measuredAt, s.readings[w], CorruptionOf(s, w), kind)
  }

  /** A deferred reading is sent unchanged, 1 to 3 wakes late, as soon as its turn has come; any other is sent at
      its own wake. */
  ghost predicate Faithful(s: Source, e: Sent)
    requires ValidSource(s)
  {
    && e.origin <= e.wake < |s.rolls|
    && e.emission == OwnEmission(s, e.origin, e.emission.kind).(publishAt := s.readings[e.wake].measuredAt)
    && match e.emission.kind
       case Late => Deferred(s, e.origin) && 1 <= e.wake - e.origin <= 3 && LeavesAt(s, e.origin, e.wake)
       case Normal => Prompt(s, e.origin) && e.wake == e.origin
       case Duplicate => Duplicated(s, e.origin) && e.wake == e.origin
  }

  /** The wake at which a deferred reading is due. */
  function Due(s: Source, w: nat): nat
    requires w < |s.rolls|
  {
    w + s.rolls[w].deferWakes
  }

  /** Every reading deferred up to wake w is due by wake n. */
  ghost predicate DueBy(s: Source, w: nat, n: int)
    requires w < |s.rolls|
  {
    forall v :: 0 <= v <= w && Deferred(s, v) ==> Due(s, v) <= n
  }

  /** The readings wait in line: the one of wake w leaves at the first wake by which it and all those deferred
      before it are due. */
  ghost predicate LeavesAt(s: Source, w: nat, n: nat)
    requires w < |s.rolls|
  {
    DueBy(s, w, n) && !DueBy(s, w, n - 1)
  }

  ghost predicate Has(out: seq<Sent>, w: nat, kind: EmissionKind) {
    exists i :: 0 <= i < |out| && out[i].origin == w && out[i].emission.kind == kind
  }

  ghost predicate Holds(deferred: seq<Held>, w: nat) {
    exists i :: 0 <= i < |deferred| && deferred[i].origin == w
  }

  /** The log: faithful entries in order of sending, nothing sent twice in the same way, every
      duplicate right behind its original. */
  ghost predicate ValidLog(s: Source, out: seq<Sent>)
    requires ValidSource(s)
  {
    && (forall i :: 0 <= i < |out| ==> Faithful(s, out[i]))
    && (forall i, j :: 0 <= i < j < |out| ==> out[i].wake <= out[j].wake)
    && (forall i, j :: 0 <= i < j < |out| ==>
          !(out[i].origin == out[j].origin && out[i].emission.kind == out[j].emission.kind))
    && (forall i :: 0 <= i < |out| && out[i].emission.kind == Duplicate ==>
          0 < i && out[i - 1] == out[i].(emission := out[i].emission.(kind := Normal)))
  }

  /** The queue before wake n: first in, first out, nothing older than three wakes. */
  ghost predicate ValidQueue(s: Source, deferred: seq<Held>, n: nat)
    requires ValidSource(s) && n <= |s.rolls|
  {
    && (forall i :: 0 <= i < |deferred| ==>
          && deferred[i].origin < n <= deferred[i].origin + 3
          && Deferred(s, deferred[i].origin)
          && deferred[i].due == deferred[i].origin + s.rolls[deferred[i].origin].deferWakes
          && deferred[i].emission == OwnEmission(s, deferred[i].origin, Normal))
    && (forall i, j :: 0 <= i < j < |deferred| ==> deferred[i].origin < deferred[j].origin)
  }

  /** Every wake before n is missed, sent, or still held; exactly one of them. */
  ghost predicate Accounted(s: Source, out: seq<Sent>, deferred: seq<Held>, n: nat)
    requires ValidSource(s) && n <= |s.rolls|
  {
    forall w :: 0 <= w < n ==>
      && (Has(out, w, Normal) <==> Prompt(s, w))
      && (Has(out, w, Duplicate) <==> Duplicated(s, w))
      && (Has(out, w, Late) <==> Deferred(s, w) && !Holds(deferred, w))
      && (Holds(deferred, w) ==> Deferred(s, w))
  }

  /** The head of the queue is not overdue at wake n, unless it was held up by one that leaves now. */
  ghost predicate Timely(s: Source, deferred: seq<Held>, n: nat)
    requires ValidSource(s) && n <= |s.rolls| && ValidQueue(s, deferred, n)
  {
    deferred != [] ==> !DueBy(s, deferred[0].origin, n - 1)
  }

  /** Nothing later than wake n has been sent. */
  ghost predicate SentBefore(out: seq<Sent>, n: nat) {
    forall i :: 0 <= i < |out| ==> out[i].wake <= n && (out[i].wake == n ==> out[i].emission.kind == Late)
  }

  lemma AppendHas(out: seq<Sent>, e: Sent, w: nat, kind: EmissionKind)
    ensures Has(out + [e], w, kind) <==> Has(out, w, kind) || (e.origin == w && e.emission.kind == kind)
  {
    var longer := out + [e];
    assert longer[|out|] == e && forall i :: 0 <= i < |out| ==> longer[i] == out[i];
  }

  lemma PopHolds(deferred: seq<Held>, w: nat)
    requires deferred != []
    requires forall i, j :: 0 <= i < j < |deferred| ==> deferred[i].origin < deferred[j].origin
    ensures Holds(deferred[1..], w) <==> Holds(deferred, w) && w != deferred[0].origin
  {
    if Holds(deferred, w) && w != deferred[0].origin {
      var i :| 0 <= i < |deferred| && deferred[i].origin == w;
      assert deferred[1..][i - 1].origin == w;
    }
  }

  lemma PushHolds(deferred: seq<Held>, h: Held, w: nat)
    ensures Holds(deferred + [h], w) <==> Holds(deferred, w) || h.origin == w
  {
    var longer := deferred + [h];
    assert longer[|deferred|] == h && forall i :: 0 <= i < |deferred| ==> longer[i] == deferred[i];
  }

  /** Strictly increasing origins within three wakes: the queue never holds more than three. */
  lemma QueueIsShort(s: Source, deferred: seq<Held>, n: nat)
    requires ValidSource(s) && n <= |s.rolls| && ValidQueue(s, deferred, n)
    ensures |deferred| <= 3
  {
    if deferred != [] {
      OriginsSpread(deferred, |deferred| - 1);
    }
  }

  lemma {:induction false} OriginsSpread(deferred: seq<Held>, i: nat)
    requires i < |deferred|
    requires forall i, j :: 0 <= i < j < |deferred| ==> deferred[i].origin < deferred[j].origin
    ensures deferred[0].origin + i <= deferred[i].origin
  {
    if i > 0 {
      OriginsSpread(deferred, i - 1);
    }
  }

  /** Sends the held emissions at the head of the queue that are due at this wake. */
  method Release(s: Source, wake: nat, out0: seq<Sent>, deferred0: seq<Held>) returns (out: seq<Sent>,
                 deferred: seq<Held>)
    requires ValidSource(s) && wake < |s.rolls|
    requires ValidLog(s, out0) && ValidQueue(s, deferred0, wake) && Accounted(s, out0, deferred0, wake)
    requires Timely(s, deferred0, wake)
    requires forall i :: 0 <= i < |out0| ==> out0[i].wake < wake
    ensures ValidLog(s, out) && ValidQueue(s, deferred, wake) && Accounted(s, out, deferred, wake)
    ensures SentBefore(out, wake)
    ensures deferred == [] || wake < deferred[0].due
  {
    out, deferred := out0, deferred0;
    while deferred != [] && deferred[0].due <= wake
      invariant ValidLog(s, out) && ValidQueue(s, deferred, wake) && Accounted(s, out, deferred, wake)
      invariant SentBefore(out, wake) && Timely(s, deferred, wake)
      decreases |deferred|
    {
      var held := deferred[0];
      var e := Sent(held.emission.(publishAt := s.readings[wake].measuredAt, kind := Late), held.origin, wake);
      LateKeepsLog(s, out, deferred, wake, e);
      out := out + [e];
      deferred := deferred[1..];
    }
  }

  lemma LateKeepsLog(s: Source, out: seq<Sent>, deferred: seq<Held>, wake: nat, e: Sent)
    requires ValidSource(s) && wake < |s.rolls| && deferred != []
    requires ValidLog(s, out) && ValidQueue(s, deferred, wake)
    requires Accounted(s, out, deferred, wake) && SentBefore(out, wake)
    requires Timely(s, deferred, wake) && deferred[0].due <= wake
    requires var late := deferred[0].emission.(publishAt := s.readings[wake].measuredAt, kind := Late);
             e == Sent(late, deferred[0].origin, wake)
    ensures ValidLog(s, out + [e]) && ValidQueue(s, deferred[1..], wake) && Accounted(s, out + [e], deferred[1..], wake)
    ensures SentBefore(out + [e], wake) && Timely(s, deferred[1..], wake)
  {
    hide LeavesAt, DueBy;
    assert Holds(deferred, e.origin);
    HeadLeaves(s, out, deferred, wake);
    AppendKeepsLog(s, out, e);
    forall w, k | 0 <= w < wake ensures Has(out + [e], w, k) <==> Has(out, w, k) || (e.origin == w && k == Late) {
      AppendHas(out, e, w, k);
    }
    forall w | 0 <= w < wake ensures Holds(deferred[1..], w) <==> Holds(deferred, w) && w != e.origin {
      PopHolds(deferred, w);
    }
  }

  /** What was deferred before the head of the queue has left, so it is due. */
  lemma HeadLeaves(s: Source, out: seq<Sent>, deferred: seq<Held>, wake: nat)
    requires ValidSource(s) && wake < |s.rolls| && deferred != []
    requires ValidLog(s, out) && ValidQueue(s, deferred, wake)
    requires Accounted(s, out, deferred, wake) && SentBefore(out, wake)
    requires Timely(s, deferred, wake) && deferred[0].due <= wake
    ensures LeavesAt(s, deferred[0].origin, wake) && Timely(s, deferred[1..], wake)
  {
    var head := deferred[0].origin;
    forall v | 0 <= v <= head && Deferred(s, v) ensures Due(s, v) <= wake {
      if v < head {
        assert !Holds(deferred, v);
        var i :| 0 <= i < |out| && out[i].origin == v && out[i].emission.kind == Late;
        assert DueBy(s, v, out[i].wake);
      }
    }
    var v :| 0 <= v <= head && Deferred(s, v) && Due(s, v) > wake - 1;
    assert |deferred| > 1 ==> head <= deferred[1].origin;
  }

  /** A deferred reading is still held exactly while it, or one deferred before it, is not yet due. */
  lemma HeldUntilDue(s: Source, out: seq<Sent>, deferred: seq<Held>, n: nat, w: nat)
    requires ValidSource(s) && w < n <= |s.rolls| && Deferred(s, w)
    requires ValidLog(s, out) && ValidQueue(s, deferred, n) && Accounted(s, out, deferred, n) && Timely(s, deferred, n)
    requires forall i :: 0 <= i < |out| ==> out[i].wake < n
    ensures Holds(deferred, w) <==> !DueBy(s, w, n - 1)
    ensures Has(out, w, Late) <==> DueBy(s, w, n - 1)
  {
    if Holds(deferred, w) {
      var v :| 0 <= v <= deferred[0].origin && Deferred(s, v) && Due(s, v) > n - 1;
      var i :| 0 <= i < |deferred| && deferred[i].origin == w;
      assert deferred[0].origin <= w;
    } else {
      var i :| 0 <= i < |out| && out[i].origin == w && out[i].emission.kind == Late;
      assert DueBy(s, w, out[i].wake);
    }
  }

  lemma AppendKeepsLog(s: Source, out: seq<Sent>, e: Sent)
    requires ValidSource(s) && ValidLog(s, out) && Faithful(s, e)
    requires forall i :: 0 <= i < |out| ==> out[i].wake <= e.wake
    requires !Has(out, e.origin, e.emission.kind)
    requires e.emission.kind == Duplicate ==> out != [] && out[|out| - 1] == e.(emission := e.emission.(kind := Normal))
    ensures ValidLog(s, out + [e])
  {
  }

  lemma NextQueue(s: Source, deferred: seq<Held>, wake: nat)
    requires ValidSource(s) && wake < |s.rolls| && ValidQueue(s, deferred, wake)
    requires deferred == [] || wake < deferred[0].due
    ensures ValidQueue(s, deferred, wake + 1) && Timely(s, deferred, wake + 1)
  {
    if deferred != [] {
      assert Due(s, deferred[0].origin) <= deferred[0].origin + 3;
    }
  }

  /** Before wake n sends its own reading, nothing of it is in the log or the queue. */
  lemma NothingYet(s: Source, out: seq<Sent>, deferred: seq<Held>, wake: nat, kind: EmissionKind)
    requires ValidSource(s) && wake < |s.rolls|
    requires ValidLog(s, out) && ValidQueue(s, deferred, wake) && SentBefore(out, wake)
    ensures !Has(out, wake, kind) && !Holds(deferred, wake)
  {
  }

  /** A wake that sends or defers nothing of its own. */
  lemma SkipWake(s: Source, out: seq<Sent>, deferred: seq<Held>, wake: nat)
    requires ValidSource(s) && wake < |s.rolls| && Missed(s, wake)
    requires ValidLog(s, out) && ValidQueue(s, deferred, wake)
    requires SentBefore(out, wake) && Accounted(s, out, deferred, wake)
    ensures Accounted(s, out, deferred, wake + 1)
  {
    NothingYet(s, out, deferred, wake, Normal);
    NothingYet(s, out, deferred, wake, Duplicate);
    NothingYet(s, out, deferred, wake, Late);
  }

  lemma DeferWake(s: Source, out: seq<Sent>, deferred: seq<Held>, wake: nat, held: Held)
    requires ValidSource(s) && wake < |s.rolls| && Deferred(s, wake)
    requires ValidLog(s, out) && ValidQueue(s, deferred, wake)
    requires SentBefore(out, wake) && Accounted(s, out, deferred, wake)
    requires deferred == [] || wake < deferred[0].due
    requires held == Held(wake + s.rolls[wake].deferWakes, wake, OwnEmission(s, wake, Normal))
    ensures ValidQueue(s, deferred + [held], wake + 1) && Accounted(s, out, deferred + [held], wake + 1)
    ensures Timely(s, deferred + [held], wake + 1)
  {
    NextQueue(s, deferred, wake);
    assert Due(s, wake) > wake;
    NothingYet(s, out, deferred, wake, Normal);
    NothingYet(s, out, deferred, wake, Duplicate);
    NothingYet(s, out, deferred, wake, Late);
    forall w ensures Holds(deferred + [held], w) <==> Holds(deferred, w) || w == wake {
      PushHolds(deferred, held, w);
    }
  }

  /** What a prompt wake sends: its reading, and a copy when duplicated. */
  function OwnSends(s: Source, wake: nat): seq<Sent>
    requires wake < |s.rolls| == |s.readings|
  {
    [Sent(OwnEmission(s, wake, Normal), wake, wake)] +
    if Duplicated(s, wake) then [Sent(OwnEmission(s, wake, Duplicate), wake, wake)] else []
  }

  lemma PromptWake(s: Source, out: seq<Sent>, deferred: seq<Held>, wake: nat)
    requires ValidSource(s) && wake < |s.rolls| && Prompt(s, wake)
    requires ValidLog(s, out) && ValidQueue(s, deferred, wake)
    requires SentBefore(out, wake) && Accounted(s, out, deferred, wake)
    ensures ValidLog(s, out + OwnSends(s, wake)) && Accounted(s, out + OwnSends(s, wake), deferred, wake + 1)
  {
    PromptKeepsLog(s, out, deferred, wake);
    var all := out + OwnSends(s, wake);
    hide ValidLog, OwnEmission, LeavesAt, DueBy, Missed;
    forall w: nat, k
      ensures Has(all, w, k) <==>
              Has(out, w, k) || (w == wake && (k == Normal || (k == Duplicate && Duplicated(s, wake))))
    {
      PromptHas(s, out, wake, w, k);
    }
    NothingYet(s, out, deferred, wake, Normal);
    NothingYet(s, out, deferred, wake, Duplicate);
    NothingYet(s, out, deferred, wake, Late);
    hide Has, OwnSends, Holds;
  }

  lemma PromptHas(s: Source, out: seq<Sent>, wake: nat, w: nat, k: EmissionKind)
    requires wake < |s.rolls| == |s.readings|
    ensures Has(out + OwnSends(s, wake), w, k) <==>
            Has(out, w, k) || (w == wake && (k == Normal || (k == Duplicate && Duplicated(s, wake))))
  {
    var first := Sent(OwnEmission(s, wake, Normal), wake, wake);
    var copy := Sent(OwnEmission(s, wake, Duplicate), wake, wake);
    AppendHas(out, first, w, k);
    AppendHas(out + [first], copy, w, k);
    assert out + ([first] + [copy]) == (out + [first]) + [copy] && out + ([first] + []) == out + [first];
    hide Has;
  }

  lemma PromptKeepsLog(s: Source, out: seq<Sent>, deferred: seq<Held>, wake: nat)
    requires ValidSource(s) && wake < |s.rolls| && Prompt(s, wake)
    requires ValidLog(s, out) && ValidQueue(s, deferred, wake) && SentBefore(out, wake)
    ensures ValidLog(s, out + OwnSends(s, wake))
  {
    hide LeavesAt, DueBy;
    var first := Sent(OwnEmission(s, wake, Normal), wake, wake);
    var copy := Sent(OwnEmission(s, wake, Duplicate), wake, wake);
    NothingYet(s, out, deferred, wake, Normal);
    NothingYet(s, out, deferred, wake, Duplicate);
    AppendKeepsLog(s, out, first);
    var once := out + [first];
    AppendHas(out, first, wake, Duplicate);
    assert out + ([first] + [copy]) == once + [copy] && out + ([first] + []) == once;
    if Duplicated(s, wake) {
      hide Has;
      AppendKeepsLog(s, once, copy);
    }
  }

  /** The generator loop over a finite run of wakes. */
  method DeviceEmissions(s: Source) returns (out: seq<Sent>, deferred: seq<Held>)
    requires ValidSource(s)
    ensures ValidLog(s, out)
    ensures ValidQueue(s, deferred, |s.rolls|) && |deferred| <= 3
    ensures Accounted(s, out, deferred, |s.rolls|)
    ensures forall w :: 0 <= w < |s.rolls| && Deferred(s, w) ==> (Has(out, w, Late) <==> DueBy(s, w, |s.rolls| - 1))
  {
    hide ValidLog, ValidQueue, Accounted, Missed, CorruptionOf, Timely, DueBy;
    out, deferred := [], [];
    EmptyLog(s);
    var modes, wake := 0, 0;
    while wake < |s.rolls|
      invariant 0 <= wake <= |s.rolls| && modes == MalformedBefore(s, wake)
      invariant ValidLog(s, out) && ValidQueue(s, deferred, wake) && Accounted(s, out, deferred, wake)
      invariant Timely(s, deferred, wake)
      invariant forall i :: 0 <= i < |out| ==> out[i].wake < wake
    {
      var roll := s.rolls[wake];
      out, deferred := Release(s, wake, out, deferred);
      NextQueue(s, deferred, wake);
      if Missed(s, wake) {
        SkipWake(s, out, deferred, wake);
      } else {
        var corruption := None;
        if roll.malformed < s.rates.malformed {
          corruption := Some(ModeAt(modes));
          modes := modes + 1;
        }
        CorruptionIs(s, wake, corruption);
        var emission := Emission(s.readings[wake].measuredAt, s.readings[wake], corruption, Normal);
        if roll.defer < s.rates.outOfOrder {
          var held := Held(wake + roll.deferWakes, wake, emission);
          DeferWake(s, out, deferred, wake, held);
          deferred := deferred + [held];
        } else {
          PromptWake(s, out, deferred, wake);
          ghost var before := out;
          out := out + [Sent(emission, wake, wake)];
          if roll.duplicate < s.rates.duplicate {
            out := out + [Sent(emission.(kind := Duplicate), wake, wake)];
          }
          assert out == before + OwnSends(s, wake);
        }
      }
      wake := wake + 1;
    }
    QueueIsShort(s, deferred, |s.rolls|);
    forall w | 0 <= w < |s.rolls| && Deferred(s, w) ensures Has(out, w, Late) <==> DueBy(s, w, |s.rolls| - 1) {
      HeldUntilDue(s, out, deferred, |s.rolls|, w);
    }
  }

  lemma CorruptionIs(s: Source, wake: nat, corruption: Option<CorruptionMode>)
    requires wake < |s.rolls| && !Missed(s, wake)
    requires corruption ==
             if s.rolls[wake].malformed < s.rates.malformed then Some(ModeAt(MalformedBefore(s, wake))) else None
    ensures corruption == CorruptionOf(s, wake)
  {
  }

  lemma EmptyLog(s: Source)
    requires ValidSource(s)
    ensures ValidLog(s, []) && ValidQueue(s, [], 0) && Accounted(s, [], [], 0) && Timely(s, [], 0)
  {
  }

  /** What the draws of a wake decide, whatever the other wakes do. */
  lemma FateOfWake(s: Source, out: seq<Sent>, deferred: seq<Held>, w: nat)
    requires ValidSource(s) && w < |s.rolls|
    requires ValidLog(s, out) && Accounted(s, out, deferred, |s.rolls|)
    ensures var roll, rates := s.rolls[w], s.rates;
            var awake := roll.missed >= rates.missedCheckin;
            && (Has(out, w, Normal) <==> awake && roll.defer >= rates.outOfOrder)
            && (Has(out, w, Duplicate) <==>
                awake && roll.defer >= rates.outOfOrder && roll.duplicate < rates.duplicate)
            && (Has(out, w, Late) || Holds(deferred, w) <==> awake && roll.defer < rates.outOfOrder)
            && forall i :: 0 <= i < |out| && out[i].origin == w ==>
                 && (out[i].emission.corruption == None <==> roll.malformed >= rates.malformed)
                 && out[i].emission.reading == s.readings[w]
  {
    assert forall i :: 0 <= i < |out| ==> Faithful(s, out[i]);
  }

  /** Two malformed wakes with no other between them. */
  ghost predicate NextMalformed(s: Source, v: nat, w: nat) {
    && v < w < |s.rolls| && Malformed(s, v) && Malformed(s, w)
    && forall x :: v < x < w ==> !Malformed(s, x)
  }

  lemma {:induction false} NoneMalformed(s: Source, v: nat, w: nat)
    requires v <= w <= |s.rolls| && forall x :: v <= x < w ==> !Malformed(s, x)
    ensures MalformedBefore(s, w) == MalformedBefore(s, v)
  {
    if v < w {
      NoneMalformed(s, v, w - 1);
    }
  }

  /** The first malformed wake is truncated, and each next one carries the mode that follows in the cycle. */
  lemma ModesRotate(s: Source, v: nat, w: nat)
    requires v < |s.rolls| && Malformed(s, v)
    ensures (forall x :: 0 <= x < v ==> !Malformed(s, x)) ==> CorruptionOf(s, v) == Some(Truncated)
    ensures NextMalformed(s, v, w) ==>
              match CorruptionOf(s, v).value
              case Truncated => CorruptionOf(s, w) == Some(WrongType)
              case WrongType => CorruptionOf(s, w) == Some(MissingField)
              case MissingField => CorruptionOf(s, w) == Some(Truncated)
  {
    if forall x :: 0 <= x < v ==> !Malformed(s, x) {
      NoneMalformed(s, 0, v);
    }
    if NextMalformed(s, v, w) {
      NoneMalformed(s, v + 1, w);
    }
  }

  /** Publish times never decrease. */
  lemma PublishTimesAscend(s: Source, out: seq<Sent>, i: nat, j: nat)
    requires ValidSource(s) && ValidLog(s, out) && i < j < |out|
    requires forall v, w :: 0 <= v < w < |s.readings| ==> s.readings[v].measuredAt <= s.readings[w].measuredAt
    ensures out[i].emission.publishAt <= out[j].emission.publishAt
  {
    assert Faithful(s, out[i]) && Faithful(s, out[j]);
  }

  // ---------------------------------------------------------------- the fleet

  /** The stream whose head is published first; the earliest such stream on ties. */
  function LeastHead(streams: seq<seq<Emission>>): (least: Option<nat>)
    ensures least == None <==> forall j :: 0 <= j < |streams| ==> streams[j] == []
    ensures least.Some? ==>
              && least.value < |streams| && streams[least.value] != []
              && forall j :: 0 <= j < |streams| && streams[j] != [] ==>
                   && streams[least.value][0].publishAt <= streams[j][0].publishAt
                   && (j < least.value ==> streams[least.value][0].publishAt < streams[j][0].publishAt)
  {
    if streams == [] then None
    else
      var n := |streams| - 1;
      var front := LeastHead(streams[..n]);
      assert forall j :: 0 <= j < n ==> streams[..n][j] == streams[j];
      if streams[n] == [] then front
      else if front == None || streams[n][0].publishAt < streams[front.value][0].publishAt then Some(n)
      else front
  }

  function All(streams: seq<seq<Emission>>): multiset<Emission> {
    if streams == [] then multiset{} else All(streams[..|streams| - 1]) + multiset(streams[|streams| - 1])
  }

  lemma {:induction false} AllUpdate(streams: seq<seq<Emission>>, i: nat)
    requires i < |streams| && streams[i] != []
    ensures All(streams) == All(streams[i := streams[i][1..]]) + multiset{streams[i][0]}
  {
    var n := |streams| - 1;
    var updated := streams[i := streams[i][1..]];
    if i == n {
      assert updated[..n] == streams[..n];
      assert streams[n] == [streams[n][0]] + streams[n][1..];
    } else {
      AllUpdate(streams[..n], i);
      assert updated[..n] == streams[..n][i := streams[i][1..]];
    }
  }

  /** The lazy merge by publish time. */
  function Merged(streams: seq<seq<Emission>>): seq<Emission>
    decreases |All(streams)|
  {
    match LeastHead(streams)
    case None => []
    case Some(i) =>
      AllUpdate(streams, i);
      [streams[i][0]] + Merged(streams[i := streams[i][1..]])
  }

  ghost predicate InPublishOrder(s: seq<Emission>) {
    forall i, j :: 0 <= i < j < |s| ==> s[i].publishAt <= s[j].publishAt
  }

  ghost predicate AllInOrder(streams: seq<seq<Emission>>) {
    forall j :: 0 <= j < |streams| ==> InPublishOrder(streams[j])
  }

  lemma {:induction false} AllMember(streams: seq<seq<Emission>>, e: Emission)
    requires e in All(streams)
    ensures exists j :: 0 <= j < |streams| && e in streams[j]
  {
    var n := |streams| - 1;
    if e in streams[n] {
    } else {
      AllMember(streams[..n], e);
      var j :| 0 <= j < n && e in streams[..n][j];
      assert e in streams[j];
    }
  }

  lemma {:induction false} AllOfEmpty(streams: seq<seq<Emission>>)
    requires forall j :: 0 <= j < |streams| ==> streams[j] == []
    ensures All(streams) == multiset{} && InPublishOrder([])
  {
    if streams != [] {
      AllOfEmpty(streams[..|streams| - 1]);
    }
  }

  lemma HeadIsLeast(streams: seq<seq<Emission>>, i: nat, e: Emission)
    requires AllInOrder(streams)
    requires LeastHead(streams) == Some(i)
    requires e in All(streams[i := streams[i][1..]])
    ensures streams[i][0].publishAt <= e.publishAt
  {
    hide All;
    var rest := streams[i := streams[i][1..]];
    AllMember(rest, e);
    var j :| 0 <= j < |rest| && e in rest[j];
    assert e in streams[j];
    var m :| 0 <= m < |streams[j]| && streams[j][m] == e;
    assert streams[j][0].publishAt <= streams[j][m].publishAt;
  }

  lemma TailsInOrder(streams: seq<seq<Emission>>, i: nat)
    requires AllInOrder(streams)
    requires i < |streams| && streams[i] != []
    ensures AllInOrder(streams[i := streams[i][1..]])
  {
    assert InPublishOrder(streams[i]);
  }

  lemma ConsInOrder(head: Emission, tail: seq<Emission>)
    requires InPublishOrder(tail) && forall k :: 0 <= k < |tail| ==> head.publishAt <= tail[k].publishAt
    ensures InPublishOrder([head] + tail) && multiset([head] + tail) == multiset(tail) + multiset{head}
  {
  }

  /** The elements of `a` appear in `b` in their order. */
  predicate Within(a: seq<Emission>, b: seq<Emission>) {
    a == [] || (b != [] && Within(if a[0] == b[0] then a[1..] else a, b[1..]))
  }

  lemma {:induction false} WithinWithoutFirst(a: seq<Emission>, b: seq<Emission>)
    requires a != [] && Within(a, b)
    ensures Within(a[1..], b)
  {
    if a[0] != b[0] {
      WithinWithoutFirst(a, b[1..]);
      if a[1..] != [] && a[1] == b[0] {
        WithinWithoutFirst(a[1..], b[1..]);
      }
    } else if a[1..] != [] && a[1] == b[0] {
      WithinWithoutFirst(a[1..], b[1..]);
    }
  }

  /** The merge keeps the order in which each device sends. */
  lemma {:induction false} MergeKeepsEach(streams: seq<seq<Emission>>, j: nat)
    requires j < |streams|
    ensures Within(streams[j], Merged(streams))
    decreases |All(streams)|
  {
    hide All;
    match LeastHead(streams)
    case None =>
    case Some(i) =>
      AllUpdate(streams, i);
      var rest := streams[i := streams[i][1..]];
      MergeKeepsEach(rest, j);
      if i != j && streams[j] != [] {
        WithinWithoutFirst(streams[j], Merged(rest));
      }
  }

  /** Merging ordered streams loses nothing, adds nothing, and publishes in order. */
  lemma {:induction false} MergedInOrder(streams: seq<seq<Emission>>)
    requires AllInOrder(streams)
    ensures multiset(Merged(streams)) == All(streams)
    ensures InPublishOrder(Merged(streams))
    decreases |All(streams)|
  {
    hide All, LeastHead, AllInOrder, InPublishOrder;
    if LeastHead(streams) == None {
      AllOfEmpty(streams);
    } else {
      var i := LeastHead(streams).value;
      var rest := streams[i := streams[i][1..]];
      AllUpdate(streams, i);
      TailsInOrder(streams, i);
      MergedInOrder(rest);
      var tail := Merged(rest);
      forall k | 0 <= k < |tail| ensures streams[i][0].publishAt <= tail[k].publishAt {
        assert tail[k] in multiset(tail);
        HeadIsLeast(streams, i, tail[k]);
      }
      ConsInOrder(streams[i][0], tail);
    }
  }
}
