/**
 The coverage audit of a campaign: static slices, taken as intervals around their centres, must
 cover the reference length without gap or overlap beyond a relative tolerance.
 */
module SliceCoverage {
  import opened Wrappers
  import opened Vectors

  const TOLERANCE := 1.0e-12

  datatype Slice = Slice(id: int, centre: real, length: real)

  datatype Interval = Interval(id: int, start: real, end: real, centre: real, length: real)

  datatype CoverageError = OutsideReference(id: int) | LowerGap | Overlap(left: int, right: int)
    | Gap(left: int, right: int) | UpperGap

  predicate Close(left: real, right: real) {
    Abs(left - right) <= TOLERANCE * Max(Max(1.0, Abs(left)), Abs(right))
  }

  function IntervalOf(s: Slice): Interval {
    Interval(s.id, s.centre - 0.5 * s.length, s.centre + 0.5 * s.length, s.centre, s.length)
  }

  function Intervals(slices: seq<Slice>): (intervals: seq<Interval>)
    ensures |intervals| == |slices|
  {
    seq(|slices|, i requires 0 <= i < |slices| => IntervalOf(slices[i]))
  }

  // ----- sorting by start

  predicate Ascending(s: seq<Interval>) {
    forall i, j :: 0 <= i < j < |s| ==> s[i].start <= s[j].start
  }

  /** Inserts behind every interval that does not start later, as a stable sort does. */
  function Insert(s: seq<Interval>, x: Interval): (r: seq<Interval>)
    ensures |r| == |s| + 1
  {
    if s == [] || s[|s| - 1].start <= x.start then s + [x]
    else Insert(s[..|s| - 1], x) + [s[|s| - 1]]
  }

  function Sorted(s: seq<Interval>): (r: seq<Interval>)
    ensures |r| == |s|
  {
    if s == [] then [] else Insert(Sorted(s[..|s| - 1]), s[|s| - 1])
  }

  lemma {:induction false} InsertAscends(s: seq<Interval>, x: Interval)
    requires Ascending(s)
    ensures Ascending(Insert(s, x)) && multiset(Insert(s, x)) == multiset(s) + multiset{x}
    decreases |s|
  {
    if s != [] && s[|s| - 1].start > x.start {
      var front, last := s[..|s| - 1], s[|s| - 1];
      assert s == front + [last];
      InsertAscends(front, x);
      InsertedBefore(Insert(front, x), front, x, last);
    }
  }

  /** What stands in front of the last interval does not start after it, and so the last one can stay last. */
  lemma InsertedBefore(r: seq<Interval>, front: seq<Interval>, x: Interval, last: Interval)
    requires Ascending(r) && multiset(r) == multiset(front) + multiset{x}
    requires Ascending(front + [last]) && x.start < last.start
    ensures Ascending(r + [last])
  {
    forall i | 0 <= i < |r|
      ensures r[i].start <= last.start
    {
      assert r[i] in multiset(r);
      if r[i] in front {
        var j :| 0 <= j < |front| && front[j] == r[i];
        assert (front + [last])[j].start <= (front + [last])[|front|].start;
      }
    }
  }

  /** Sorting gives the same intervals in ascending order. */
  lemma {:induction false} SortedAscends(s: seq<Interval>)
    ensures Ascending(Sorted(s)) && multiset(Sorted(s)) == multiset(s)
    decreases |s|
  {
    if s != [] {
      SortedAscends(s[..|s| - 1]);
      InsertAscends(Sorted(s[..|s| - 1]), s[|s| - 1]);
      assert s == s[..|s| - 1] + [s[|s| - 1]];
    }
  }

  function TotalLength(s: seq<Interval>): real {
    SumOf(s, (x: Interval) => x.length)
  }

  lemma {:induction false} InsertTotal(s: seq<Interval>, x: Interval)
    ensures TotalLength(Insert(s, x)) == TotalLength(s) + x.length
    decreases |s|
  {
    if s == [] || s[|s| - 1].start <= x.start {
      assert (s + [x])[..|s|] == s;
    } else {
      InsertTotal(s[..|s| - 1], x);
      var r := Insert(s[..|s| - 1], x);
      assert (r + [s[|s| - 1]])[..|r|] == r;
    }
  }

  lemma {:induction false} SortedTotal(s: seq<Interval>)
    ensures TotalLength(Sorted(s)) == TotalLength(s)
    decreases |s|
  {
    if s != [] {
      SortedTotal(s[..|s| - 1]);
      InsertTotal(Sorted(s[..|s| - 1]), s[|s| - 1]);
    }
  }

  // ----- the audit

  predicate Inside(x: Interval, reference: real) {
    -TOLERANCE <= x.start && x.end <= reference + TOLERANCE
  }

  predicate Joins(left: Interval, right: Interval) {
    left.end - TOLERANCE <= right.start && Close(right.start, left.end)
  }

  ghost predicate Covers(s: seq<Interval>, reference: real) {
    && s != []
    && (forall i :: 0 <= i < |s| ==> Inside(s[i], reference))
    && Close(s[0].start, 0.0)
    && (forall i :: 0 < i < |s| ==> Joins(s[i - 1], s[i]))
    && Close(s[|s| - 1].end, reference)
  }

  datatype Report = Report(sum: real, intervals: seq<Interval>)

  /** The audit of a manifest's slices, which a manifest never leaves empty. */
  method ValidateCoverage(slices: seq<Slice>, reference: real) returns (r: Result<Report, CoverageError>)
    requires slices != []
    ensures r.Ok? <==> Covers(Sorted(Intervals(slices)), reference)
    ensures r.Ok? ==> r.value == Report(TotalLength(Intervals(slices)), Sorted(Intervals(slices)))
  {
    hide Close, Inside, Joins, TotalLength, Sorted;
    var intervals: seq<Interval> := [];
    for i: nat := 0 to |slices|
      invariant intervals == Intervals(slices)[..i]
      invariant forall k :: 0 <= k < i ==> Inside(intervals[k], reference)
    {
      var interval := IntervalOf(slices[i]);
      if !Inside(interval, reference) {
        OutsideStays(Intervals(slices), i, reference);
        return Err(OutsideReference(slices[i].id));
      }
      intervals := intervals + [interval];
    }
    assert intervals == Intervals(slices);
    InsideStays(intervals, reference);
    var sorted := Sorted(intervals);
    var defect := CheckJoints(sorted, reference);
    if defect.Some? {
      return Err(defect.value);
    }
    var sum := SumLengths(sorted);
    SortedTotal(intervals);
    return Ok(Report(sum, sorted));
  }

  /** The checks of the sorted intervals: both ends, and every neighbouring pair. */
  method CheckJoints(sorted: seq<Interval>, reference: real) returns (defect: Option<CoverageError>)
    requires sorted != []
    ensures defect.None? <==>
      && Close(sorted[0].start, 0.0) && Close(sorted[|sorted| - 1].end, reference)
      && forall i :: 0 < i < |sorted| ==> Joins(sorted[i - 1], sorted[i])
  {
    hide Close, Joins;
    if !Close(sorted[0].start, 0.0) {
      return Some(LowerGap);
    }
    for i: nat := 1 to |sorted|
      invariant forall k :: 0 < k < i ==> Joins(sorted[k - 1], sorted[k])
    {
      if sorted[i].start < sorted[i - 1].end - TOLERANCE {
        assert !Joins(sorted[i - 1], sorted[i]) by {
          OverlapDoesNotJoin(sorted[i - 1], sorted[i]);
        }
        return Some(Overlap(sorted[i - 1].id, sorted[i].id));
      }
      if !Close(sorted[i].start, sorted[i - 1].end) {
        assert !Joins(sorted[i - 1], sorted[i]) by {
          GapDoesNotJoin(sorted[i - 1], sorted[i]);
        }
        return Some(Gap(sorted[i - 1].id, sorted[i].id));
      }
      MeetingJoins(sorted[i - 1], sorted[i]);
    }
    if !Close(sorted[|sorted| - 1].end, reference) {
      return Some(UpperGap);
    }
    return None;
  }

  method SumLengths(s: seq<Interval>) returns (sum: real)
    ensures sum == TotalLength(s)
  {
    sum := 0.0;
    for i: nat := 0 to |s|
      invariant sum == TotalLength(s[..i])
    {
      assert s[..i + 1][..i] == s[..i];
      sum := sum + s[i].length;
    }
    assert s[..|s|] == s;
  }

  lemma OverlapDoesNotJoin(left: Interval, right: Interval)
    requires right.start < left.end - TOLERANCE
    ensures !Joins(left, right)
  {
  }

  lemma GapDoesNotJoin(left: Interval, right: Interval)
    requires !Close(right.start, left.end)
    ensures !Joins(left, right)
  {
  }

  lemma MeetingJoins(left: Interval, right: Interval)
    requires right.start >= left.end - TOLERANCE && Close(right.start, left.end)
    ensures Joins(left, right)
  {
  }

  lemma InsideStays(s: seq<Interval>, reference: real)
    requires forall i :: 0 <= i < |s| ==> Inside(s[i], reference)
    ensures forall i :: 0 <= i < |s| ==> Inside(Sorted(s)[i], reference)
  {
    SortedAscends(s);
    forall i | 0 <= i < |s|
      ensures Inside(Sorted(s)[i], reference)
    {
      assert Sorted(s)[i] in multiset(Sorted(s));
      assert Sorted(s)[i] in s;
    }
  }

  lemma OutsideStays(s: seq<Interval>, i: nat, reference: real)
    requires i < |s| && !Inside(s[i], reference)
    ensures !Covers(Sorted(s), reference)
  {
    SortedAscends(s);
    assert s[i] in multiset(s);
    assert s[i] in Sorted(s);
  }

  // ----- what acceptance means

  /** The bound on every closeness check inside the reference length. */
  function Slack(reference: real): real {
    TOLERANCE * Max(1.0, reference + TOLERANCE)
  }

  lemma CloseWithin(left: real, right: real, reference: real)
    requires Close(left, right)
    requires -TOLERANCE <= left <= reference + TOLERANCE && -TOLERANCE <= right <= reference + TOLERANCE
      && reference > 0.0
    ensures Abs(left - right) <= Slack(reference)
  {
    var m, bound := Max(Max(1.0, Abs(left)), Abs(right)), Max(1.0, reference + TOLERANCE);
    assert m <= bound;
  }

  ghost predicate Proper(s: seq<Interval>) {
    forall i :: 0 <= i < |s| ==> s[i].length > 0.0 && s[i].end == s[i].start + s[i].length
  }

  lemma {:induction false} PartialCover(s: seq<Interval>, reference: real, k: nat)
    requires Covers(s, reference) && Proper(s) && 0 < k <= |s| && reference > 0.0
    ensures Abs(TotalLength(s[..k]) - s[k - 1].end) <= Times(k, Slack(reference))
    decreases k
  {
    hide Close, Slack, Times, TotalLength, Inside, Joins;
    LengthNext(s, k);
    SumOfTimes(k - 1, Slack(reference));
    if k == 1 {
      FirstStart(s, reference);
    } else {
      PartialCover(s, reference, k - 1);
      NeighboursMeet(s, reference, k - 1);
    }
  }

  function Times(k: nat, x: real): real {
    k as real * x
  }

  lemma SumOfTimes(k: nat, x: real)
    ensures Times(k + 1, x) == Times(k, x) + x && Times(0, x) == 0.0
  {
    var a, b := k as real, (k + 1) as real;
    assert b == a + 1.0;
    assert (a + 1.0) * x == a * x + x;
  }

  lemma LengthNext(s: seq<Interval>, k: nat)
    requires 0 < k <= |s|
    ensures TotalLength(s[..k]) == TotalLength(s[..k - 1]) + s[k - 1].length && TotalLength(s[..0]) == 0.0
  {
    assert s[..k][..k - 1] == s[..k - 1];
  }

  lemma FirstStart(s: seq<Interval>, reference: real)
    requires Covers(s, reference) && Proper(s) && reference > 0.0
    ensures Abs(s[0].start - 0.0) <= Slack(reference)
  {
    hide Close, Slack;
    assert Inside(s[0], reference) && s[0].length > 0.0;
    CloseWithin(s[0].start, 0.0, reference);
  }

  lemma NeighboursMeet(s: seq<Interval>, reference: real, i: nat)
    requires Covers(s, reference) && Proper(s) && reference > 0.0 && 0 < i < |s|
    ensures Abs(s[i].start - s[i - 1].end) <= Slack(reference)
  {
    hide Close, Slack;
    assert Inside(s[i], reference) && s[i].length > 0.0;
    assert Joins(s[i - 1], s[i]) && Inside(s[i - 1], reference) && s[i - 1].length > 0.0;
    CloseWithin(s[i].start, s[i - 1].end, reference);
  }

  /** Slice lengths of an accepted manifest sum to the reference length within n + 1 tolerances, for any number and
      order of slices. */
  lemma LengthsSumToReference(slices: seq<Slice>, reference: real)
    requires reference > 0.0 && forall i :: 0 <= i < |slices| ==> slices[i].length > 0.0
    requires Covers(Sorted(Intervals(slices)), reference)
    ensures Abs(TotalLength(Intervals(slices)) - reference) <= (|slices| + 1) as real * Slack(reference)
  {
    hide Close, Slack, Sorted, TotalLength;
    var s, n := Sorted(Intervals(slices)), |slices|;
    ProperSorted(slices);
    PartialCover(s, reference, n);
    assert s[..n] == s;
    SortedTotal(Intervals(slices));
    assert Inside(s[n - 1], reference) && s[n - 1].length > 0.0;
    CloseWithin(s[n - 1].end, reference, reference);
    SumOfTimes(n, Slack(reference));
  }

  lemma ProperSorted(slices: seq<Slice>)
    requires forall i :: 0 <= i < |slices| ==> slices[i].length > 0.0
    ensures Proper(Sorted(Intervals(slices)))
  {
    var s := Intervals(slices);
    SortedAscends(s);
    forall i | 0 <= i < |s|
      ensures Sorted(s)[i].length > 0.0 && Sorted(s)[i].end == Sorted(s)[i].start + Sorted(s)[i].length
    {
      assert Sorted(s)[i] in multiset(Sorted(s));
      assert Sorted(s)[i] in s;
    }
  }

  ghost predicate Near(s: seq<Interval>, i: nat, x: real, slack: real) {
    i < |s| && s[i].start - slack <= x <= s[i].end + slack
  }

  lemma {:induction false} CoveredUpTo(s: seq<Interval>, reference: real, x: real, k: nat) returns (i: nat)
    requires Covers(s, reference) && Proper(s) && reference > 0.0 && k < |s|
    requires 0.0 <= x <= s[k].end + Slack(reference)
    ensures Near(s, i, x, Slack(reference))
    decreases k
  {
    hide Close, Slack;
    assert Inside(s[k], reference) && s[k].length > 0.0;
    i := k;
    if k == 0 {
      CloseWithin(s[0].start, 0.0, reference);
    } else if x < s[k].start - Slack(reference) {
      assert Joins(s[k - 1], s[k]) && Inside(s[k - 1], reference) && s[k - 1].length > 0.0;
      CloseWithin(s[k].start, s[k - 1].end, reference);
      i := CoveredUpTo(s, reference, x, k - 1);
    }
  }

  /** Every point of the reference length lies in one of the intervals, within the tolerance. */
  lemma EveryPointIsCovered(s: seq<Interval>, reference: real, x: real)
    requires Covers(s, reference) && Proper(s) && reference > 0.0 && 0.0 <= x <= reference
    ensures exists i :: Near(s, i, x, Slack(reference))
  {
    hide Close, Slack;
    var last := |s| - 1;
    assert Inside(s[last], reference) && s[last].length > 0.0;
    CloseWithin(s[last].end, reference, reference);
    var i := CoveredUpTo(s, reference, x, last);
  }
}
