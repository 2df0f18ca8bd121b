/** The simulated fleet: every device's physics, its imperfections, and the merged stream. */
module Fleet {
  import opened Dynamics
  import opened Series
  import opened SimulatedSegments
  import opened Stream

  /** One planter with all its draws. */
  datatype Planter = Planter(device: Device, rolls: seq<Roll>, rates: Rates)

  ghost predicate ValidPlanter(p: Planter) {
    && ValidDevice(p.device) && |p.rolls| == |p.device.draws|
    && forall w :: 0 <= w < |p.rolls| ==> 1 <= p.rolls[w].deferWakes <= 3
  }

  /** The clean series of a planter, wake by wake, with its imperfection draws. */
  function SourceOf(p: Planter): (s: Source)
    ensures |s.readings| == |p.device.draws| && s.rolls == p.rolls && s.rates == p.rates
    ensures forall i :: 0 <= i < |s.readings| ==> s.readings[i] == Report(AwakeAt(p.device, i), p.device.draws[i])
  {
    var d := p.device;
    Source(seq(|d.draws|, i requires 0 <= i < |d.draws| => Report(AwakeAt(d, i), d.draws[i])), p.rolls, p.rates)
  }

  function Emissions(log: seq<Sent>): (emissions: seq<Emission>)
    ensures |emissions| == |log| && forall i :: 0 <= i < |log| ==> emissions[i] == log[i].emission
  {
    seq(|log|, i requires 0 <= i < |log| => log[i].emission)
  }

  function StreamsOf(logs: seq<seq<Sent>>): (streams: seq<seq<Emission>>)
    ensures |streams| == |logs| && forall i :: 0 <= i < |logs| ==> streams[i] == Emissions(logs[i])
  {
    seq(|logs|, i requires 0 <= i < |logs| => Emissions(logs[i]))
  }

  /** The log of one planter: everything accounted for, at most three readings still held. */
  ghost predicate IsLogOf(p: Planter, log: seq<Sent>) {
    ValidPlanter(p) &&
    exists held :: LogAccounts(p, log, held)
  }

  ghost predicate LogAccounts(p: Planter, log: seq<Sent>, held: seq<Held>)
    requires ValidPlanter(p)
  {
    && ValidLog(SourceOf(p), log) && |held| <= 3
    && ValidQueue(SourceOf(p), held, |p.rolls|) && Accounted(SourceOf(p), log, held, |p.rolls|)
  }

  /** A planter publishes in order, since its wakes do. */
  lemma LogInOrder(p: Planter, log: seq<Sent>)
    requires IsLogOf(p, log)
    ensures InPublishOrder(Emissions(log))
  {
    hide Accounted, ValidQueue, ValidLog, AwakeAt;
    var s, d := SourceOf(p), p.device;
    forall v, w | 0 <= v < w < |s.readings| ensures s.readings[v].measuredAt <= s.readings[w].measuredAt {
      TimesAscend(d, v, w);
    }
    forall i, j | 0 <= i < j < |log| ensures log[i].emission.publishAt <= log[j].emission.publishAt {
      PublishTimesAscend(s, log, i, j);
    }
  }

  /** Wires the fleet together. Whatever the draws, the merged stream is exactly what the devices send, in
      order of publication. */
  method BuildStreams(fleet: seq<Planter>) returns (merged: seq<Emission>, ghost logs: seq<seq<Sent>>)
    requires forall i :: 0 <= i < |fleet| ==> ValidPlanter(fleet[i])
    ensures |logs| == |fleet| && forall i :: 0 <= i < |logs| ==> IsLogOf(fleet[i], logs[i])
    ensures multiset(merged) == All(StreamsOf(logs))
    ensures InPublishOrder(merged)
  {
    hide LogAccounts, All, InPublishOrder, ValidPlanter;
    var streams := [];
    logs := [];
    var i := 0;
    while i < |fleet|
      invariant 0 <= i == |logs| <= |fleet|
      invariant streams == StreamsOf(logs)
      invariant forall j :: 0 <= j < i ==> IsLogOf(fleet[j], logs[j])
    {
      ghost var log;
      var stream;
      stream, log := DeviceStream(fleet[i]);
      assert StreamsOf(logs + [log]) == StreamsOf(logs) + [stream];
      streams := streams + [stream];
      logs := logs + [log];
      i := i + 1;
    }
    forall j | 0 <= j < |streams| ensures InPublishOrder(streams[j]) {
      LogInOrder(fleet[j], logs[j]);
    }
    MergedInOrder(streams);
    merged := Merged(streams);
  }

  /** One device of the fleet. */
  method DeviceStream(p: Planter) returns (stream: seq<Emission>, ghost log: seq<Sent>)
    requires ValidPlanter(p)
    ensures IsLogOf(p, log) && stream == Emissions(log)
  {
    hide Accounted, ValidQueue, ValidLog, AwakeAt, StateAt;
    var readings := DeviceReadings(p.device);
    var s := Source(readings, p.rolls, p.rates);
    assert readings == SourceOf(p).readings;
    var out, held := DeviceEmissions(s);
    assert LogAccounts(p, out, held);
    stream, log := Emissions(out), out;
  }
}
