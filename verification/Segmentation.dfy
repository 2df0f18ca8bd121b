/** Breaking a series at refills and at implausible time gaps. */
module Segmentation {
  import opened OrderStatistics
  import opened Series

  /** The positive gaps between consecutive samples, in order. */
  function PositiveGaps(samples: seq<Sample>): (gaps: seq<real>)
    ensures forall i :: 0 <= i < |gaps| ==> gaps[i] > 0.0
  {
    if |samples| < 2 then [] else
      var gap := samples[1].at - samples[0].at;
      (if gap > 0.0 then [gap] else []) + PositiveGaps(samples[1..])
  }

  /** The observed check-in interval: median gap, None when there is no positive gap. */
  function CadenceSeconds(samples: seq<Sample>): Option<real> {
    var gaps := PositiveGaps(samples);
    if gaps == [] then None else Some(Median(gaps))
  }

  lemma {:induction false} GapsWithin(samples: seq<Sample>, low: real, high: real)
    requires 0.0 < low
    requires forall i :: 0 < i < |samples| ==> low <= samples[i].at - samples[i - 1].at <= high
    ensures var gaps := PositiveGaps(samples);
            && (|samples| >= 2 ==> gaps != [])
            && forall i :: 0 <= i < |gaps| ==> low <= gaps[i] <= high
  {
    if |samples| >= 2 {
      assert samples[1].at - samples[0].at >= low;
      forall i | 0 < i < |samples[1..]|
        ensures low <= samples[1..][i].at - samples[1..][i - 1].at <= high
      {
        assert low <= samples[i + 1].at - samples[i + 1 - 1].at <= high;
      }
      GapsWithin(samples[1..], low, high);
    }
  }

  lemma CadenceAtLeast(samples: seq<Sample>, low: real, high: real)
    requires 0.0 < low && |samples| >= 2
    requires forall i :: 0 < i < |samples| ==> low <= samples[i].at - samples[i - 1].at <= high
    ensures CadenceSeconds(samples).Some? && CadenceSeconds(samples).value >= low
  {
    GapsWithin(samples, low, high);
    MedianWithin(PositiveGaps(samples), low, high);
  }

  /** The time from each sample to the next one. */
  function Differences(samples: seq<Sample>): (r: seq<real>)
    ensures |r| == if samples == [] then 0 else |samples| - 1
  {
    if samples == [] then []
    else seq(|samples| - 1, i requires 0 <= i < |samples| - 1 => samples[i + 1].at - samples[i].at)
  }

  /** On a valid series every difference is a gap. */
  lemma {:induction false} GapsAreDifferences(samples: seq<Sample>)
    requires IsValidSeries(samples)
    ensures PositiveGaps(samples) == Differences(samples)
  {
    if |samples| >= 2 {
      TailDifferences(samples);
      TailIsValid(samples);
      assert samples[1 - 1].at < samples[1].at;
      hide Differences, IsValidSeries;
      GapsAreDifferences(samples[1..]);
    }
  }

  lemma DifferenceAt(samples: seq<Sample>, i: nat)
    requires i + 1 < |samples|
    ensures Differences(samples)[i] == samples[i + 1].at - samples[i].at
  {
  }

  lemma TailDifferences(samples: seq<Sample>)
    requires |samples| >= 2
    ensures Differences(samples) == [samples[1].at - samples[0].at] + Differences(samples[1..])
  {
    hide Differences;
    var rest := samples[1..];
    var all, later := Differences(samples), Differences(rest);
    forall i | 0 <= i < |later| ensures all[1..][i] == later[i] {
      DifferenceAt(samples, i + 1);
      DifferenceAt(rest, i);
    }
    DifferenceAt(samples, 0);
    assert all[1..] == later;
    assert all == [all[0]] + all[1..];
  }

  lemma TailIsValid(samples: seq<Sample>)
    requires IsValidSeries(samples) && |samples| >= 1
    ensures IsValidSeries(samples[1..])
  {
    var rest := samples[1..];
    forall i | 0 < i < |rest| ensures rest[i - 1].at < rest[i].at {
      assert samples[i + 1 - 1].at < samples[i + 1].at;
    }
  }

  /** The cadence is the median of the differences, and missing only when there is none. */
  lemma CadenceIsMedian(samples: seq<Sample>)
    requires IsValidSeries(samples)
    ensures CadenceSeconds(samples).Some? <==> |samples| >= 2
    ensures |samples| >= 2 ==> IsMedianOf(Differences(samples), CadenceSeconds(samples).value)
  {
    hide IsMedianOf, Median;
    GapsAreDifferences(samples);
    if |samples| >= 2 {
      MedianIsMiddle(Differences(samples), Median(Differences(samples)));
    }
  }

  /** Missed check-ins do not move it: it stays within any bounds that hold for most of the differences. */
  lemma CadenceWithin(samples: seq<Sample>, low: real, high: real)
    requires IsValidSeries(samples)
    requires 2 * CountIn(Differences(samples), low, high) > |Differences(samples)|
    ensures CadenceSeconds(samples).Some? && low <= CadenceSeconds(samples).value <= high
  {
    GapsAreDifferences(samples);
    MajorityBoundsMedian(Differences(samples), low, high);
  }

  /** None stands for an infinite limit. */
  function LimitOf(cadence: Option<real>, gapFactor: real): Option<real> {
    match cadence
    case None => None
    case Some(c) => Some(c * gapFactor)
  }

  function GapLimit(samples: seq<Sample>, gapFactor: real): Option<real> {
    LimitOf(CadenceSeconds(samples), gapFactor)
  }

  predicate Splits(a: Sample, b: Sample, jump: real, limit: Option<real>) {
    b.value - a.value >= jump || (limit.Some? && b.at - a.at > limit.value)
  }

  predicate SplitsAt(series: seq<Sample>, i: int, jump: real, limit: Option<real>)
    requires 0 < i < |series|
  {
    Splits(series[i - 1], series[i], jump, limit)
  }

  /** Where a valid series splits: at a jump, or at a gap of more than `gapFactor` median differences. */
  lemma SplitRule(series: seq<Sample>, i: nat, jump: real, gapFactor: real, median: real)
    requires IsValidSeries(series) && 0 < i < |series| && IsMedianOf(Differences(series), median)
    ensures SplitsAt(series, i, jump, GapLimit(series, gapFactor)) <==>
            series[i].value >= series[i - 1].value + jump || series[i].at > series[i - 1].at + median * gapFactor
  {
    hide IsMedianOf, Median, Differences, CadenceSeconds, IsValidSeries;
    CadenceIsMedian(series);
    MedianIsMiddle(Differences(series), median);
    MedianIsMiddle(Differences(series), CadenceSeconds(series).value);
    assert CadenceSeconds(series) == Some(median);
  }

  /** The last index below n at which the series splits; 0 when it never does. */
  function LastSplit(series: seq<Sample>, n: nat, jump: real, limit: Option<real>): (k: nat)
    requires 0 < n <= |series|
    ensures k < n
    ensures 0 < k ==> SplitsAt(series, k, jump, limit)
    ensures forall i :: k < i < n ==> !SplitsAt(series, i, jump, limit)
  {
    if n == 1 then 0
    else if SplitsAt(series, n - 1, jump, limit) then n - 1
    else LastSplit(series, n - 1, jump, limit)
  }

  /** The segments of the first n samples. */
  function Segments(series: seq<Sample>, n: nat, jump: real, limit: Option<real>): (r: seq<seq<Sample>>)
    requires 0 < n <= |series|
    ensures r != []
  {
    var k := LastSplit(series, n, jump, limit);
    (if k == 0 then [] else Segments(series, k, jump, limit)) + [series[k..n]]
  }

  function SplitSegments(series: seq<Sample>, jump: real, gapFactor: real): (r: seq<seq<Sample>>)
    ensures series != [] ==> r != []
  {
    if series == [] then [] else
    if |series| == 1 then [series] else Segments(series, |series|, jump, GapLimit(series, gapFactor))
  }

  /** The last split is the only index where the series splits and never splits again. */
  lemma NewestStart(series: seq<Sample>, n: nat, start: nat, jump: real, limit: Option<real>)
    requires start < n <= |series|
    requires 0 < start ==> SplitsAt(series, start, jump, limit)
    requires forall i :: start < i < n ==> !SplitsAt(series, i, jump, limit)
    ensures LastSplit(series, n, jump, limit) == start
  {
    var k := LastSplit(series, n, jump, limit);
  }

  /** The splitting loop of the program. */
  method SplitSegmentsLoop(series: seq<Sample>, jump: real, gapFactor: real) returns (segments: seq<seq<Sample>>)
    ensures segments == SplitSegments(series, jump, gapFactor)
  {
    hide GapLimit, Splits;
    if |series| < 2 {
      return if series != [] then [series] else [];
    }
    var limit := GapLimit(series, gapFactor);
    segments := [];
    var start := 0;
    var index := 1;
    while index < |series|
      invariant 0 <= start < index <= |series|
      invariant segments == if start == 0 then [] else Segments(series, start, jump, limit)
      invariant 0 < start ==> SplitsAt(series, start, jump, limit)
      invariant forall i :: start < i < index ==> !SplitsAt(series, i, jump, limit)
    {
      if SplitsAt(series, index, jump, limit) {
        NewestStart(series, index, start, jump, limit);
        segments := segments + [series[start..index]];
        start := index;
      }
      index := index + 1;
    }
    NewestStart(series, |series|, start, jump, limit);
    assert series[start..] == series[start..|series|];
    segments := segments + [series[start..]];
  }

  // ---------------------------------------------------------------- what a segmentation is

  function Flatten<T>(parts: seq<seq<T>>): seq<T> {
    if parts == [] then [] else Flatten(parts[..|parts| - 1]) + parts[|parts| - 1]
  }

  /** The index at which part k starts. */
  function StartOf<T>(parts: seq<seq<T>>, k: nat): nat
    requires k <= |parts|
  {
    |Flatten(parts[..k])|
  }

  /** Some part but the first starts at index i. */
  ghost predicate StartsAt<T>(parts: seq<seq<T>>, i: nat) {
    exists k :: 0 < k < |parts| && StartOf(parts, k) == i
  }

  /** Non-empty runs that concatenate to the series, with a split at the start of every run but
      the first and nowhere else. */
  ghost predicate IsSegmentation(parts: seq<seq<Sample>>, series: seq<Sample>, jump: real, limit: Option<real>) {
    && Flatten(parts) == series
    && (forall k :: 0 <= k < |parts| ==> parts[k] != [])
    && (forall i :: 0 < i < |series| ==>
          (SplitsAt(series, i, jump, limit) <==> StartsAt(parts, i)))
  }

  lemma {:induction false} FlattenSplit<T>(parts: seq<seq<T>>, k: nat)
    requires k <= |parts|
    ensures Flatten(parts) == Flatten(parts[..k]) + Flatten(parts[k..])
  {
    var m := |parts|;
    if k == m {
      assert parts[..k] == parts && parts[k..] == [];
    } else {
      FlattenSplit(parts[..m - 1], k);
      assert parts[..m - 1][..k] == parts[..k];
      assert parts[k..][..m - 1 - k] == parts[..m - 1][k..];
    }
  }

  lemma FlattenAppend<T>(front: seq<seq<T>>, last: seq<T>)
    ensures Flatten(front + [last]) == Flatten(front) + last
  {
    assert (front + [last])[..|front|] == front;
  }

  lemma {:induction false} SegmentsFlatten(series: seq<Sample>, n: nat, jump: real, limit: Option<real>)
    requires 0 < n <= |series|
    ensures Flatten(Segments(series, n, jump, limit)) == series[..n]
  {
    hide SplitsAt;
    var k := LastSplit(series, n, jump, limit);
    var front := if k == 0 then [] else Segments(series, k, jump, limit);
    FlattenAppend(front, series[k..n]);
    if k > 0 {
      SegmentsFlatten(series, k, jump, limit);
      assert series[..n] == series[..k] + series[k..n];
    }
  }

  lemma {:induction false} SegmentsNonEmpty(series: seq<Sample>, n: nat, jump: real, limit: Option<real>)
    requires 0 < n <= |series|
    ensures forall k :: 0 <= k < |Segments(series, n, jump, limit)| ==> Segments(series, n, jump, limit)[k] != []
  {
    hide SplitsAt;
    var k := LastSplit(series, n, jump, limit);
    if k > 0 {
      SegmentsNonEmpty(series, k, jump, limit);
    }
  }

  /** Index i is a start exactly when the series splits there. */
  lemma {:induction false} SegmentStarts(series: seq<Sample>, n: nat, jump: real, limit: Option<real>, i: nat)
    requires 0 < i < n <= |series|
    ensures var parts := Segments(series, n, jump, limit);
            SplitsAt(series, i, jump, limit) <==> StartsAt(parts, i)
  {
    hide Splits;
    var parts := Segments(series, n, jump, limit);
    var last, m := LastSplit(series, n, jump, limit), |parts| - 1;
    if last > 0 {
      var front := Segments(series, last, jump, limit);
      assert parts[..m] == front;
      SegmentsFlatten(series, last, jump, limit);
      SegmentsNonEmpty(series, last, jump, limit);
      assert front[..m] == front;
      assert StartOf(parts, m) == last;
      forall k | 0 < k < m ensures StartOf(parts, k) == StartOf(front, k) < last {
        assert parts[..k] == front[..k];
        StartsIncrease(front, k, m);
      }
      if i < last {
        SegmentStarts(series, last, jump, limit, i);
        if StartsAt(front, i) {
          var k :| 0 < k < m && StartOf(front, k) == i;
          assert StartOf(parts, k) == i;
        }
        if StartsAt(parts, i) {
          var k :| 0 < k < |parts| && StartOf(parts, k) == i;
          assert k < m && StartOf(front, k) == i;
        }
      } else if i == last {
        assert StartOf(parts, m) == i;
      }
    }
  }

  lemma FlattenNonEmpty<T>(parts: seq<seq<T>>)
    requires parts != [] && parts[|parts| - 1] != []
    ensures Flatten(parts) != []
  {
  }

  /** What the splitting loop returns is a segmentation. */
  lemma SegmentsIsSegmentation(series: seq<Sample>, jump: real, limit: Option<real>)
    requires series != []
    ensures IsSegmentation(Segments(series, |series|, jump, limit), series, jump, limit)
  {
    hide Splits;
    SegmentsFlatten(series, |series|, jump, limit);
    SegmentsNonEmpty(series, |series|, jump, limit);
    forall i | 0 < i < |series|
      ensures var parts := Segments(series, |series|, jump, limit);
              SplitsAt(series, i, jump, limit) <==> StartsAt(parts, i)
    {
      SegmentStarts(series, |series|, jump, limit, i);
    }
  }

  lemma {:induction false} StartsIncrease<T>(parts: seq<seq<T>>, j: nat, k: nat)
    requires forall i :: 0 <= i < |parts| ==> parts[i] != []
    requires j < k <= |parts|
    ensures StartOf(parts, j) < StartOf(parts, k)
  {
    FlattenSplit(parts[..k], j);
    assert parts[..k][..j] == parts[..j];
    FlattenNonEmpty(parts[..k][j..]);
  }

  lemma MiddleSlice<T>(a: seq<T>, b: seq<T>, c: seq<T>)
    ensures ((a + b) + c)[|a|..|a + b|] == b
  {
  }

  lemma PartIsSlice<T>(parts: seq<seq<T>>, k: nat)
    requires 0 < k <= |parts|
    ensures StartOf(parts, k - 1) <= StartOf(parts, k) <= |Flatten(parts)|
    ensures parts[k - 1] == Flatten(parts)[StartOf(parts, k - 1)..StartOf(parts, k)]
  {
    FlattenSplit(parts, k);
    assert parts[..k] == parts[..k - 1] + [parts[k - 1]];
    FlattenAppend(parts[..k - 1], parts[k - 1]);
    MiddleSlice(Flatten(parts[..k - 1]), parts[k - 1], Flatten(parts[k..]));
  }

  lemma StartsSkip<T>(parts: seq<seq<T>>, k: nat, i: nat)
    requires forall j :: 0 <= j < |parts| ==> parts[j] != []
    requires 0 < k <= |parts|
    requires StartOf(parts, k - 1) < i < StartOf(parts, k)
    ensures !StartsAt(parts, i)
  {
    forall j | 0 < j < |parts| ensures StartOf(parts, j) != i {
      if j < k - 1 {
        StartsIncrease(parts, j, k - 1);
      } else if j > k {
        StartsIncrease(parts, k, j);
      }
    }
  }

  /** The parts of a segmentation up to part k are the segments of the samples before its start. */
  lemma {:induction false} PrefixUnique(parts: seq<seq<Sample>>, series: seq<Sample>, jump: real, limit: Option<real>,
                                        k: nat)
    requires series != [] && 0 < k <= |parts|
    requires IsSegmentation(parts, series, jump, limit)
    ensures 0 < StartOf(parts, k) <= |series|
    ensures parts[..k] == Segments(series, StartOf(parts, k), jump, limit)
  {
    hide SplitsAt;
    var n, start := StartOf(parts, k), StartOf(parts, k - 1);
    PartIsSlice(parts, k);
    assert parts[..k] == parts[..k - 1] + [series[start..n]];
    StartsIncrease(parts, k - 1, k);
    if k == 1 {
      assert start == 0;
    } else {
      PrefixUnique(parts, series, jump, limit, k - 1);
      assert SplitsAt(series, start, jump, limit);
    }
    forall i | start < i < n ensures !SplitsAt(series, i, jump, limit) {
      StartsSkip(parts, k, i);
    }
    NewestStart(series, n, start, jump, limit);
  }

  /** The program's split is a segmentation, and there is no other one. */
  lemma SegmentationUnique(parts: seq<seq<Sample>>, series: seq<Sample>, jump: real, gapFactor: real)
    requires series != []
    ensures IsSegmentation(parts, series, jump, GapLimit(series, gapFactor))
       <==> parts == SplitSegments(series, jump, gapFactor)
  {
    hide Splits, GapLimit;
    var limit := GapLimit(series, gapFactor);
    NonEmptySplit(series, jump, gapFactor);
    SegmentsIsSegmentation(series, jump, limit);
    if IsSegmentation(parts, series, jump, limit) {
      assert parts[..|parts|] == parts;
      PrefixUnique(parts, series, jump, limit, |parts|);
    }
  }

  lemma NonEmptySplit(series: seq<Sample>, jump: real, gapFactor: real)
    requires series != []
    ensures SplitSegments(series, jump, gapFactor) == Segments(series, |series|, jump, GapLimit(series, gapFactor))
  {
    hide GapLimit;
    assert series[0..|series|] == series;
  }

  /** The newest segment runs from the last split; it is the only one when there is no split. */
  lemma NewestSegment(series: seq<Sample>, jump: real, gapFactor: real)
    requires series != []
    ensures var parts := SplitSegments(series, jump, gapFactor);
            var k := LastSplit(series, |series|, jump, GapLimit(series, gapFactor));
            parts[|parts| - 1] == series[k..] && (|parts| == 1 <==> k == 0)
  {
    hide GapLimit;
    NonEmptySplit(series, jump, gapFactor);
  }
}
