/** Values shared by the forecasting modules. Times are seconds on the device clock. */
module Series {

  datatype Option<+T> = None | Some(value: T)

  /** One (device time, value) observation. `aware` is false for a datetime without a
      timezone, `finite` is false for NaN and the infinities. */
  datatype Sample = Sample(at: real, value: real, aware: bool, finite: bool)

  function Max(a: real, b: real): real { if a < b then b else a }

  function Min(a: real, b: real): real { if b < a then b else a }

  function Abs(a: real): (r: real)
    ensures r >= 0.0
  {
    if a < 0.0 then -a else a
  }

  /** Finite values, aware datetimes, strictly increasing timestamps. */
  predicate IsValidSeries(samples: seq<Sample>) {
    && (forall i :: 0 <= i < |samples| ==> samples[i].finite && samples[i].aware)
    && (forall i :: 0 < i < |samples| ==> samples[i - 1].at < samples[i].at)
  }

  lemma {:induction false} TimesIncrease(samples: seq<Sample>, i: nat, j: nat)
    requires IsValidSeries(samples)
    requires i < j < |samples|
    ensures samples[i].at < samples[j].at
    decreases j
  {
    if i + 1 < j {
      TimesIncrease(samples, i, j - 1);
    }
    assert samples[j - 1].at < samples[j].at;
  }
}
