/** Per-device physics of the simulator, with the random draws as inputs. */
module Dynamics {
  import opened Series

  const BATTERY_RECHARGE_BELOW_V: real := 3.0
  const BATTERY_FULL_V: real := 4.2

  datatype DeviceParams = DeviceParams(
    depletionPctPerHour: real,
    refillThresholdPct: real,
    refillProbPerWake: real,
    batteryDecayVPerHour: real,
    jitterSeconds: real)

  /** The values drawn at one wake, in order. */
  datatype Draw = Draw(jitter: real, refillRoll: real, refillTarget: real, rechargeTarget: real, adcNoise: real)

  datatype Reading = Reading(measuredAt: real, waterLevel: real, batteryVoltage: real)

  /** The loop variables at the top of an iteration, or after its physics. */
  datatype State = State(level: real, battery: real, at: real, prevAt: real)

  /** One simulated device: fixed characteristics, initial draws and the draws of each wake. */
  datatype Device = Device(
    params: DeviceParams,
    draws: seq<Draw>,
    level0: real,
    battery0: real,
    start: real,
    interval: real)

  function JitterLimit(d: Device): real { Min(d.params.jitterSeconds, d.interval / 4.0) }

  predicate InRange(d: Device, draw: Draw) {
    && -JitterLimit(d) <= draw.jitter <= JitterLimit(d)
    && 0.0 <= draw.refillRoll < 1.0
    && 92.0 <= draw.refillTarget <= 100.0
    && 4.15 <= draw.rechargeTarget <= 4.25
    && -0.005 <= draw.adcNoise <= 0.005
  }

  ghost predicate ValidDevice(d: Device) {
    && d.interval > 0.0 && d.params.jitterSeconds >= 0.0
    && d.params.depletionPctPerHour > 0.0 && d.params.batteryDecayVPerHour > 0.0
    && d.params.refillThresholdPct <= 25.0
    && 40.0 <= d.level0 <= 100.0 && 3.7 <= d.battery0 <= BATTERY_FULL_V
    && forall i :: 0 <= i < |d.draws| ==> InRange(d, d.draws[i])
  }

  /** Python's `round` to a multiple of 1/scale: to nearest, ties to even. */
  function RoundTo(x: real, scale: real): real
    requires scale > 0.0
  {
    var t := x * scale;
    var f := t.Floor;
    var nearest := if t - f as real < 0.5 || (t - f as real == 0.5 && f % 2 == 0) then f else f + 1;
    nearest as real / scale
  }

  function ElapsedHours(s: State): real { (s.at - s.prevAt) / 3600.0 }

  function WaterUsed(d: Device, s: State): real { d.params.depletionPctPerHour * ElapsedHours(s) }

  function VoltsUsed(d: Device, s: State): real { d.params.batteryDecayVPerHour * ElapsedHours(s) }

  function Depleted(d: Device, s: State): real { Max(0.0, s.level - WaterUsed(d, s)) }

  function Decayed(d: Device, s: State): real { s.battery - VoltsUsed(d, s) }

  predicate Refills(d: Device, s: State, draw: Draw) {
    Depleted(d, s) < d.params.refillThresholdPct && draw.refillRoll < d.params.refillProbPerWake
  }

  predicate Recharges(d: Device, s: State) {
    Decayed(d, s) < BATTERY_RECHARGE_BELOW_V
  }

  /** The state after the physics of a wake. */
  function Wake(d: Device, s: State, draw: Draw): State {
    s.(level := if Refills(d, s, draw) then draw.refillTarget else Depleted(d, s),
       battery := if Recharges(d, s) then draw.rechargeTarget else Decayed(d, s))
  }

  /** The state at the top of iteration n. */
  function StateAt(d: Device, n: nat): State
    requires n <= |d.draws|
    decreases n, 0
  {
    if n == 0 then State(d.level0, d.battery0, d.start, d.start)
    else
      var s := AwakeAt(d, n - 1);
      s.(prevAt := s.at, at := s.at + d.interval + d.draws[n - 1].jitter)
  }

  /** The state reported by wake n. */
  function AwakeAt(d: Device, n: nat): State
    requires n < |d.draws|
    decreases n, 1
  {
    Wake(d, StateAt(d, n), d.draws[n])
  }

  function Report(s: State, draw: Draw): Reading {
    Reading(s.at, RoundTo(s.level, 10.0), Min(4.4, Max(2.5, RoundTo(s.battery + draw.adcNoise, 1000.0))))
  }

  /** The generator loop, for as many wakes as there are draws. */
  method DeviceReadings(d: Device) returns (readings: seq<Reading>)
    ensures |readings| == |d.draws|
    ensures forall i :: 0 <= i < |readings| ==> readings[i] == Report(AwakeAt(d, i), d.draws[i])
  {
    hide RoundTo, Depleted, Decayed;
    readings := [];
    var level, battery := d.level0, d.battery0;
    var at, prevAt := d.start, d.start;
    var n := 0;
    while n < |d.draws|
      invariant n == |readings| <= |d.draws|
      invariant State(level, battery, at, prevAt) == StateAt(d, n)
      invariant forall i :: 0 <= i < n ==> readings[i] == Report(AwakeAt(d, i), d.draws[i])
    {
      var draw := d.draws[n];
      ghost var top := State(level, battery, at, prevAt);
      var depleted := Depleted(d, State(level, battery, at, prevAt));
      battery := Decayed(d, State(level, battery, at, prevAt));
      level := depleted;
      if battery < BATTERY_RECHARGE_BELOW_V {
        battery := draw.rechargeTarget;
      }
      if level < d.params.refillThresholdPct && draw.refillRoll < d.params.refillProbPerWake {
        level := draw.refillTarget;
      }
      assert State(level, battery, at, prevAt) == AwakeAt(d, n);
      readings := readings + [Report(State(level, battery, at, prevAt), draw)];
      prevAt := at;
      at := at + d.interval + draw.jitter;
      n := n + 1;
    }
  }

  /** The first wake reports the initial state, but for a refill. */
  lemma FirstWake(d: Device)
    requires ValidDevice(d) && d.draws != []
    ensures var now, draw, p := AwakeAt(d, 0), d.draws[0], d.params;
            && now.at == d.start && now.battery == d.battery0
            && now.level == if d.level0 < p.refillThresholdPct && draw.refillRoll < p.refillProbPerWake
                            then draw.refillTarget else d.level0
  {
    assert ElapsedHours(StateAt(d, 0)) == 0.0;
  }

  /** What some hours of use leave of a level and a voltage, with the refill and the recharge this may bring. */
  ghost predicate UsedUp(p: DeviceParams, was: State, now: State, draw: Draw, hours: real) {
    var left := Max(0.0, was.level - p.depletionPctPerHour * hours);
    var volts := was.battery - p.batteryDecayVPerHour * hours;
    && now.level == (if left < p.refillThresholdPct && draw.refillRoll < p.refillProbPerWake
                     then draw.refillTarget else left)
    && now.battery == if volts < 3.0 then draw.rechargeTarget else volts
  }

  lemma WakeUses(d: Device, s: State, draw: Draw)
    ensures UsedUp(d.params, s, Wake(d, s, draw), draw, ElapsedHours(s))
  {
    hide ElapsedHours;
  }

  /** Each further wake follows from the one before and the time since: one interval and the jitter drawn then. */
  lemma WakeFollows(d: Device, n: nat)
    requires 0 < n < |d.draws|
    ensures var was, now := AwakeAt(d, n - 1), AwakeAt(d, n);
            && now.at == was.at + d.interval + d.draws[n - 1].jitter
            && UsedUp(d.params, was, now, d.draws[n], (now.at - was.at) / 3600.0)
  {
    hide UsedUp;
    var was, s := AwakeAt(d, n - 1), StateAt(d, n);
    assert s == was.(prevAt := was.at, at := was.at + d.interval + d.draws[n - 1].jitter);
    assert AwakeAt(d, n) == Wake(d, s, d.draws[n]);
    WakeUses(d, s, d.draws[n]);
    SameUse(d.params, s, was, AwakeAt(d, n), d.draws[n], ElapsedHours(s));
  }

  lemma SameUse(p: DeviceParams, s: State, was: State, now: State, draw: Draw, hours: real)
    requires UsedUp(p, s, now, draw, hours) && s.level == was.level && s.battery == was.battery
    ensures UsedUp(p, was, now, draw, hours)
  {
  }

  // ---------------------------------------------------------------- rounding

  lemma RoundNear(x: real, scale: real)
    requires scale > 0.0
    ensures -0.5 <= RoundTo(x, scale) * scale - x * scale <= 0.5
  {
    var t := x * scale;
    var f := t.Floor;
    var nearest := if t - f as real < 0.5 || (t - f as real == 0.5 && f % 2 == 0) then f else f + 1;
    assert (nearest as real / scale) * scale == nearest as real;
  }

  lemma NearestIs(t: real, k: int)
    ensures var f := t.Floor;
            k == (if t - f as real < 0.5 || (t - f as real == 0.5 && f % 2 == 0) then f else f + 1) <==>
            -0.5 <= k as real - t <= 0.5 && (Abs(k as real - t) == 0.5 ==> k % 2 == 0)
  {
  }

  /** The nearest multiple, and the even one of two that are equally near. */
  lemma RoundIsNearest(x: real, scale: real, k: int)
    requires scale > 0.0
    ensures RoundTo(x, scale) * scale == k as real <==>
            && -0.5 <= k as real - x * scale <= 0.5
            && (Abs(k as real - x * scale) == 0.5 ==> k % 2 == 0)
  {
    var t := x * scale;
    NearestIs(t, k);
    var f := t.Floor;
    var nearest := if t - f as real < 0.5 || (t - f as real == 0.5 && f % 2 == 0) then f else f + 1;
    assert RoundTo(x, scale) * scale == nearest as real;
    assert nearest as real == k as real <==> nearest == k;
    hide RoundTo, Abs;
  }

  lemma NearestMonotone(t: real, u: real)
    requires t <= u
    ensures var f, g := t.Floor, u.Floor;
            (if t - f as real < 0.5 || (t - f as real == 0.5 && f % 2 == 0) then f else f + 1) <=
            (if u - g as real < 0.5 || (u - g as real == 0.5 && g % 2 == 0) then g else g + 1)
  {
  }

  lemma RoundMonotone(x: real, y: real, scale: real)
    requires scale > 0.0 && x <= y
    ensures RoundTo(x, scale) <= RoundTo(y, scale)
  {
    assert x * scale <= y * scale;
    NearestMonotone(x * scale, y * scale);
    var a, b := RoundTo(x, scale), RoundTo(y, scale);
    assert a * scale <= b * scale;
  }

  lemma Tenths(x: real)
    ensures x - 0.05 <= RoundTo(x, 10.0) <= x + 0.05
  {
    RoundNear(x, 10.0);
  }

  lemma Thousandths(x: real)
    ensures x - 0.0005 <= RoundTo(x, 1000.0) <= x + 0.0005
  {
    RoundNear(x, 1000.0);
  }
}
