/** Sorting, the median and the counting argument every robustness claim rests on. */
module OrderStatistics {

  ghost predicate Ascending(s: seq<real>) {
    forall i, j :: 0 <= i <= j < |s| ==> s[i] <= s[j]
  }

  function Insert(x: real, s: seq<real>): (r: seq<real>)
    requires Ascending(s)
    ensures Ascending(r)
    ensures |r| == |s| + 1
    ensures forall i :: 0 <= i < |r| ==> r[i] == x || r[i] in s
  {
    if s == [] || x <= s[0] then [x] + s else [s[0]] + Insert(x, s[1..])
  }

  lemma {:induction false} InsertMultiset(x: real, s: seq<real>)
    requires Ascending(s)
    ensures multiset(Insert(x, s)) == multiset(s) + multiset{x}
  {
    if s != [] && x > s[0] {
      InsertMultiset(x, s[1..]);
      assert s == [s[0]] + s[1..];
    }
  }

  /** Python's `sorted` on reals: the ascending arrangement of the same values. */
  function Sorted(s: seq<real>): (r: seq<real>)
    ensures Ascending(r)
    ensures |r| == |s|
  {
    if s == [] then [] else Insert(s[0], Sorted(s[1..]))
  }

  lemma {:induction false} SortedIsPermutation(s: seq<real>)
    ensures multiset(Sorted(s)) == multiset(s)
  {
    if s != [] {
      SortedIsPermutation(s[1..]);
      InsertMultiset(s[0], Sorted(s[1..]));
      assert s == [s[0]] + s[1..];
    }
  }

  /** `statistics.median`: the middle value, or the mean of the two middle values. */
  function Median(s: seq<real>): real
    requires s != []
  {
    var r := Sorted(s);
    if |r| % 2 == 1 then r[|r| / 2] else (r[|r| / 2 - 1] + r[|r| / 2]) / 2.0
  }

  /** How many entries of `s` lie in the closed interval [lo, hi]. */
  function CountIn(s: seq<real>, lo: real, hi: real): (c: nat)
    ensures c <= |s|
  {
    if s == [] then 0 else (if lo <= s[0] <= hi then 1 else 0) + CountIn(s[1..], lo, hi)
  }

  lemma {:induction false} CountInConcat(a: seq<real>, b: seq<real>, lo: real, hi: real)
    ensures CountIn(a + b, lo, hi) == CountIn(a, lo, hi) + CountIn(b, lo, hi)
  {
    if a == [] {
      assert a + b == b;
    } else {
      assert (a + b)[1..] == a[1..] + b;
      CountInConcat(a[1..], b, lo, hi);
    }
  }

  lemma {:induction false} CountInInsert(x: real, s: seq<real>, lo: real, hi: real)
    requires Ascending(s)
    ensures CountIn(Insert(x, s), lo, hi) == CountIn(s, lo, hi) + (if lo <= x <= hi then 1 else 0)
  {
    if s == [] || x <= s[0] {
      assert ([x] + s)[1..] == s;
    } else {
      var tail := Insert(x, s[1..]);
      assert Insert(x, s) == [s[0]] + tail;
      assert ([s[0]] + tail)[1..] == tail;
      CountInInsert(x, s[1..], lo, hi);
    }
  }

  lemma {:induction false} CountInSorted(s: seq<real>, lo: real, hi: real)
    ensures CountIn(Sorted(s), lo, hi) == CountIn(s, lo, hi)
  {
    if s != [] {
      CountInSorted(s[1..], lo, hi);
      CountInInsert(s[0], Sorted(s[1..]), lo, hi);
    }
  }

  lemma {:induction false} CountInNone(s: seq<real>, lo: real, hi: real)
    requires forall i :: 0 <= i < |s| ==> s[i] < lo || hi < s[i]
    ensures CountIn(s, lo, hi) == 0
  {
    if s != [] {
      CountInNone(s[1..], lo, hi);
    }
  }

  lemma {:induction false} CountInAll(s: seq<real>, lo: real, hi: real)
    requires forall i :: 0 <= i < |s| ==> lo <= s[i] <= hi
    ensures CountIn(s, lo, hi) == |s|
  {
    if s != [] {
      CountInAll(s[1..], lo, hi);
    }
  }

  /** When a strict majority of values lies in [lo, hi], both middle ranks do. */
  lemma MiddleRanks(r: seq<real>, lo: real, hi: real)
    requires Ascending(r)
    requires 2 * CountIn(r, lo, hi) > |r|
    ensures r[|r| / 2] <= hi && lo <= r[(|r| - 1) / 2]
  {
    var m, k := |r| / 2, (|r| - 1) / 2;
    if r[m] > hi {
      CountInFront(r, m, lo, hi);
    }
    if r[k] < lo {
      CountInBack(r, k + 1, lo, hi);
    }
  }

  lemma CountInFront(r: seq<real>, m: nat, lo: real, hi: real)
    requires Ascending(r) && m < |r| && r[m] > hi
    ensures CountIn(r, lo, hi) <= m
  {
    assert r == r[..m] + r[m..];
    CountInConcat(r[..m], r[m..], lo, hi);
    CountInNone(r[m..], lo, hi);
  }

  lemma CountInBack(r: seq<real>, m: nat, lo: real, hi: real)
    requires Ascending(r) && 0 < m <= |r| && r[m - 1] < lo
    ensures CountIn(r, lo, hi) <= |r| - m
  {
    assert r == r[..m] + r[m..];
    CountInConcat(r[..m], r[m..], lo, hi);
    CountInNone(r[..m], lo, hi);
  }

  /** The median cannot leave an interval that holds a strict majority of the values,
      wherever the other values are. */
  lemma MajorityBoundsMedian(s: seq<real>, lo: real, hi: real)
    requires 2 * CountIn(s, lo, hi) > |s|
    ensures lo <= Median(s) <= hi
  {
    var r := Sorted(s);
    CountInSorted(s, lo, hi);
    MiddleRanks(r, lo, hi);
    if |r| % 2 == 1 {
      assert (|r| - 1) / 2 == |r| / 2;
    } else {
      assert (|r| - 1) / 2 == |r| / 2 - 1;
      assert r[|r| / 2 - 1] <= r[|r| / 2];
    }
  }

  lemma MedianWithin(s: seq<real>, lo: real, hi: real)
    requires s != []
    requires forall i :: 0 <= i < |s| ==> lo <= s[i] <= hi
    ensures lo <= Median(s) <= hi
  {
    CountInAll(s, lo, hi);
    MajorityBoundsMedian(s, lo, hi);
  }

  /** Sorting an ascending list changes nothing. */
  lemma {:induction false} SortedOfAscending(s: seq<real>)
    requires Ascending(s)
    ensures Sorted(s) == s
  {
    if s != [] {
      SortedOfAscending(s[1..]);
      if |s| > 1 {
        assert s[0] <= s[1];
      }
    }
  }

  // ---------------------------------------------------------------- ranks, described from outside

  lemma LeastFirst(r: seq<real>, s: seq<real>)
    requires Ascending(r) && Ascending(s) && r != [] && multiset(r) == multiset(s)
    ensures s != [] && r[0] == s[0]
  {
    assert r[0] in multiset(r) && |multiset(r)| == |r| == |multiset(s)|;
    assert s[0] in multiset(s);
    var i :| 0 <= i < |s| && s[i] == r[0];
    var j :| 0 <= j < |r| && r[j] == s[0];
  }

  /** A list has one ascending arrangement. */
  lemma {:induction false} OneArrangement(r: seq<real>, s: seq<real>)
    requires Ascending(r) && Ascending(s) && multiset(r) == multiset(s)
    ensures r == s
  {
    if r == [] {
      assert |multiset(s)| == 0;
    } else {
      LeastFirst(r, s);
      RestOf(r);
      RestOf(s);
      OneArrangement(r[1..], s[1..]);
      assert r == [r[0]] + r[1..] && s == [s[0]] + s[1..];
    }
  }

  lemma RestOf(r: seq<real>)
    requires Ascending(r) && r != []
    ensures Ascending(r[1..]) && multiset(r[1..]) == multiset(r) - multiset{r[0]}
  {
    assert r == [r[0]] + r[1..];
  }

  /** x has rank k among the values: it stands at place k of their ascending arrangement. */
  ghost predicate IsRanked(s: seq<real>, k: nat, x: real) {
    exists r :: IsArrangement(r, s) && k < |r| && r[k] == x
  }

  ghost predicate IsArrangement(r: seq<real>, s: seq<real>) {
    Ascending(r) && multiset(r) == multiset(s)
  }

  /** m is the middle of the values: the mean of the two middle ranks, which are one for an odd number. */
  ghost predicate IsMedianOf(s: seq<real>, m: real) {
    s != [] && exists a, b :: HasMiddles(s, a, b) && 2.0 * m == a + b
  }

  ghost predicate HasMiddles(s: seq<real>, a: real, b: real)
    requires s != []
  {
    IsRanked(s, (|s| - 1) / 2, a) && IsRanked(s, |s| / 2, b)
  }

  lemma SortedIsArrangement(s: seq<real>)
    ensures IsArrangement(Sorted(s), s)
  {
    SortedIsPermutation(s);
  }

  /** Rank k is held by one value: the one the program finds there after sorting. */
  lemma RankIsUnique(s: seq<real>, k: nat, x: real)
    ensures IsRanked(s, k, x) <==> k < |s| && x == Sorted(s)[k]
  {
    SortedIsArrangement(s);
    if IsRanked(s, k, x) {
      var r :| IsArrangement(r, s) && k < |r| && r[k] == x;
      OneArrangement(r, Sorted(s));
    }
  }

  /** The program's median is the median, and there is no other. */
  lemma MedianIsMiddle(s: seq<real>, m: real)
    requires s != []
    ensures IsMedianOf(s, m) <==> m == Median(s)
  {
    hide IsRanked, Sorted, IsArrangement;
    var low, high := (|s| - 1) / 2, |s| / 2;
    var a, b := Sorted(s)[low], Sorted(s)[high];
    RankIsUnique(s, low, a);
    RankIsUnique(s, high, b);
    assert HasMiddles(s, a, b);
    forall x, y | HasMiddles(s, x, y) ensures x == a && y == b {
      RankIsUnique(s, low, x);
      RankIsUnique(s, high, y);
    }
    assert 2.0 * Median(s) == a + b;
  }

  lemma CountInArrangement(r: seq<real>, s: seq<real>, lo: real, hi: real)
    requires IsArrangement(r, s)
    ensures CountIn(r, lo, hi) == CountIn(s, lo, hi)
  {
    SortedIsArrangement(s);
    OneArrangement(r, Sorted(s));
    CountInSorted(s, lo, hi);
  }

  /** What a rank says: at least k + 1 of the values are not above x, and at least |s| - k not below it. */
  lemma RankCounts(s: seq<real>, k: nat, x: real, lo: real, hi: real)
    requires IsRanked(s, k, x) && forall i :: 0 <= i < |s| ==> lo <= s[i] <= hi
    ensures k < |s| && CountIn(s, lo, x) >= k + 1 && CountIn(s, x, hi) >= |s| - k
  {
    var r :| IsArrangement(r, s) && k < |r| && r[k] == x;
    ArrangementBounds(r, s, lo, hi);
    CountInArrangement(r, s, lo, x);
    CountInArrangement(r, s, x, hi);
    hide IsArrangement, CountIn;
    CountUpTo(r, k, lo);
    CountFrom(r, k, hi);
  }

  lemma CountUpTo(r: seq<real>, k: nat, lo: real)
    requires Ascending(r) && k < |r| && forall i :: 0 <= i < |r| ==> lo <= r[i]
    ensures CountIn(r, lo, r[k]) >= k + 1
  {
    var head := r[..k + 1];
    assert r == head + r[k + 1..];
    CountInConcat(head, r[k + 1..], lo, r[k]);
    CountInAll(head, lo, r[k]);
  }

  lemma CountFrom(r: seq<real>, k: nat, hi: real)
    requires Ascending(r) && k < |r| && forall i :: 0 <= i < |r| ==> r[i] <= hi
    ensures CountIn(r, r[k], hi) >= |r| - k
  {
    var tail := r[k..];
    assert r == r[..k] + tail;
    CountInConcat(r[..k], tail, r[k], hi);
    CountInAll(tail, r[k], hi);
  }

  lemma ArrangementBounds(r: seq<real>, s: seq<real>, lo: real, hi: real)
    requires IsArrangement(r, s) && forall i :: 0 <= i < |s| ==> lo <= s[i] <= hi
    ensures Ascending(r) && |r| == |s| && forall i :: 0 <= i < |r| ==> lo <= r[i] <= hi
  {
    assert |r| == |multiset(r)| == |s|;
    forall i | 0 <= i < |r| ensures lo <= r[i] <= hi {
      assert r[i] in multiset(s);
      var j :| 0 <= j < |s| && s[j] == r[i];
    }
  }
}
