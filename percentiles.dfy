/**
 * The order statistics of `AggregatedSamples.calculatePercentils` (median and
 * 90th percentile of `sorted(self.timeTable)`) and the sum of squared
 * deviations of `calculateStdDev`.
 */
module Percentiles {

  predicate Sorted(s: seq<int>) {
    forall i, j :: 0 <= i <= j < |s| ==> s[i] <= s[j]
  }

  /** The first element of a sorted sequence is its least. */
  lemma SortedHeadLeast(s: seq<int>, y: int)
    requires Sorted(s) && y in s
    ensures s[0] <= y
  {
  }

  /** `x` placed into a sorted sequence in front of the first element not below it. */
  function Insert(x: int, s: seq<int>): (r: seq<int>)
    requires Sorted(s)
    ensures Sorted(r) && multiset(r) == multiset(s) + multiset{x}
  {
    if s == [] || x <= s[0] then [x] + s
    else
      var rest := Insert(x, s[1..]);
      InsertBehindHead(x, s, rest);
      [s[0]] + rest
  }

  /** The head of `s`, below `x`, stays in front of `x` inserted into the tail. */
  lemma InsertBehindHead(x: int, s: seq<int>, rest: seq<int>)
    requires Sorted(s) && s != [] && s[0] < x
    requires Sorted(rest) && multiset(rest) == multiset(s[1..]) + multiset{x}
    ensures Sorted([s[0]] + rest) && multiset([s[0]] + rest) == multiset(s) + multiset{x}
  {
    assert s == [s[0]] + s[1..];
    forall j | 0 <= j < |rest| ensures s[0] <= rest[j] {
      var y := rest[j];
      assert y in multiset(rest);
      if y != x {
        assert y in multiset(s[1..]);
        assert y in s;
        SortedHeadLeast(s, y);
      }
    }
  }

  /** Python's `sorted()` on a list of integers. */
  function SortAsc(s: seq<int>): (r: seq<int>)
    ensures Sorted(r) && multiset(r) == multiset(s)
  {
    if s == [] then []
    else
      assert s == [s[0]] + s[1..];
      Insert(s[0], SortAsc(s[1..]))
  }

  /** Two nonempty sorted sequences with the same elements start with the same element. */
  lemma SortedSameHead(a: seq<int>, b: seq<int>)
    requires |a| > 0 && |b| > 0 && Sorted(a) && Sorted(b) && multiset(a) == multiset(b)
    ensures a[0] == b[0]
  {
    assert a[0] in multiset(a);
    assert b[0] in multiset(b);
    SortedHeadLeast(b, a[0]);
    SortedHeadLeast(a, b[0]);
  }

  /** Dropping the first element of a sequence removes it from the multiset. */
  lemma TailMultiset(a: seq<int>)
    requires |a| > 0
    ensures multiset(a[1..]) == multiset(a) - multiset{a[0]}
  {
    assert a == [a[0]] + a[1..];
  }

  /** Two sorted sequences with the same elements are equal. */
  lemma {:induction false} SortedUnique(a: seq<int>, b: seq<int>)
    requires Sorted(a) && Sorted(b) && multiset(a) == multiset(b)
    ensures a == b
    decreases |a|
  {
    assert |a| == |multiset(a)| == |multiset(b)| == |b|;
    if a != [] {
      SortedSameHead(a, b);
      TailMultiset(a);
      TailMultiset(b);
      SortedUnique(a[1..], b[1..]);
      assert a == [a[0]] + a[1..] && b == [b[0]] + b[1..];
    }
  }

  /** `sorted()` depends only on the elements, not on their order. */
  lemma SortAscPermutationInvariant(a: seq<int>, b: seq<int>)
    requires multiset(a) == multiset(b)
    ensures SortAsc(a) == SortAsc(b)
  {
    SortedUnique(SortAsc(a), SortAsc(b));
  }

  /** Python 3's `int(x / 2)`: halving, truncated toward zero. */
  function HalfTowardZero(x: int): int {
    if x >= 0 then x / 2 else -((-x) / 2)
  }

  /**
   * The median step of `calculatePercentils`: for an even count the
   * truncated mean of the two middle values, for an odd count the middle
   * value; `current` (the field's old value) is kept where the index test fails.
   */
  function MedianOf(sorted: seq<int>, samples: nat, current: int): int {
    if samples % 2 == 0 then
      var m := samples / 2;
      if |sorted| > m && m - 1 >= 0 then HalfTowardZero(sorted[m] + sorted[m - 1]) else current
    else
      var m := if samples > 1 then samples / 2 else 0;
      if |sorted| > m then sorted[m] else current
  }

  /**
   * `round(0.9 * n + 0.5)` in exact arithmetic, halves rounded to even as
   * Python 3's `round` does; a tie occurs only when `n` is a multiple of 10.
   */
  function Perc90Rounded(n: nat): nat {
    var q := (9 * n + 5) / 10;
    var r := (9 * n + 5) % 10;
    if r > 5 then q + 1
    else if r < 5 then q
    else if q % 2 == 0 then q
    else q + 1
  }

  /** The index `calculatePercentils` reads: the rounded value, moved back by one when it equals the length. */
  function Perc90Index(len: nat, samples: nat): int {
    var idx := Perc90Rounded(samples);
    if len == idx then idx - 1 else idx
  }

  /**
   * The 90th-percentile step of `calculatePercentils`.  With an empty table
   * and a sample count of 0 the index is -1 and the read raises `IndexError`;
   * every group the analysis finalizes holds a sample.
   */
  function Perc90Of(sorted: seq<int>, samples: nat, current: int): int
    requires |sorted| > 0 || samples > 0
  {
    var idx := Perc90Index(|sorted|, samples);
    if |sorted| > idx then sorted[idx] else current
  }

  /** For every non-empty table the 90% index lies inside it. */
  lemma Perc90IndexInRange(n: nat)
    requires n > 0
    ensures 0 <= Perc90Index(n, n) < n
    ensures 10 * (Perc90Index(n, n) + 1) >= 9 * n
  {
    var q := (9 * n + 5) / 10;
    assert 10 * q <= 9 * n + 5 < 10 * q + 10;
  }

  /**
   * The 90th percentile of a sorted table is one of its elements (the default
   * is never kept), and the first 90% of the table is at or below it.
   */
  lemma Perc90IsElement(sorted: seq<int>)
    requires |sorted| > 0 && Sorted(sorted)
    ensures Perc90Of(sorted, |sorted|, 0) in sorted
    ensures forall i :: 0 <= i < |sorted| && 10 * i < 9 * |sorted| ==> sorted[i] <= Perc90Of(sorted, |sorted|, 0)
  {
    Perc90IndexInRange(|sorted|);
  }

  /** The median of a sorted table lies between its two middle elements; for an odd count it is the middle element. */
  lemma MedianBetweenMiddles(sorted: seq<int>)
    requires |sorted| > 0 && Sorted(sorted)
    ensures var n := |sorted|; sorted[(n - 1) / 2] <= MedianOf(sorted, n, 0) <= sorted[n / 2]
    ensures |sorted| % 2 == 1 ==> MedianOf(sorted, |sorted|, 0) == sorted[|sorted| / 2]
  {
    var n := |sorted|;
    if n % 2 == 0 {
      var a, b := sorted[n / 2 - 1], sorted[n / 2];
      assert a <= b;
      if a + b < 0 {
        assert -b <= (-(a + b)) / 2 <= -a;
      }
    }
  }

  /** For non-negative times the truncated mean of the two middle values is the floor of their mean. */
  lemma MedianEvenFloor(sorted: seq<int>)
    requires |sorted| >= 2 && |sorted| % 2 == 0
    requires sorted[|sorted| / 2] + sorted[|sorted| / 2 - 1] >= 0
    ensures MedianOf(sorted, |sorted|, 0) == (sorted[|sorted| / 2] + sorted[|sorted| / 2 - 1]) / 2
  {
  }

  /** The median never exceeds the 90th percentile. */
  lemma MedianAtMostPerc90(sorted: seq<int>)
    requires |sorted| > 0 && Sorted(sorted)
    ensures MedianOf(sorted, |sorted|, 0) <= Perc90Of(sorted, |sorted|, 0)
  {
    var n := |sorted|;
    MedianBetweenMiddles(sorted);
    Perc90IndexInRange(n);
    assert Perc90Index(n, n) >= n / 2;
  }

  /** Median and 90th percentile of `sorted(times)` do not depend on the order the times were recorded in. */
  lemma PercentilesOrderInvariant(a: seq<int>, b: seq<int>, current: int)
    requires multiset(a) == multiset(b) && |a| > 0
    ensures MedianOf(SortAsc(a), |a|, current) == MedianOf(SortAsc(b), |b|, current)
    ensures Perc90Of(SortAsc(a), |a|, current) == Perc90Of(SortAsc(b), |b|, current)
  {
    SortAscPermutationInvariant(a, b);
    assert |a| == |multiset(a)| == |multiset(b)| == |b|;
    assert |SortAsc(a)| == |multiset(SortAsc(a))| == |a|;
  }

  /** `x ** 2`. */
  function Square(x: real): real {
    x * x
  }

  /** Σ (t - mean)² over a list of times: the running sum `squares` of `calculateStdDev`. */
  function SquaredDeviations(times: seq<int>, mean: real): real
    decreases |times|
  {
    if times == [] then 0.0
    else
      SquaredDeviations(times[..|times| - 1], mean) + Square(times[|times| - 1] as real - mean)
  }

  /** One more term of the running sum over a longer prefix. */
  lemma SquaredDeviationsStep(times: seq<int>, mean: real, i: nat)
    requires i < |times|
    ensures SquaredDeviations(times[..i + 1], mean) ==
      SquaredDeviations(times[..i], mean) + Square(times[i] as real - mean)
  {
    assert times[..i + 1][..i] == times[..i];
  }

  /** The sum of squared deviations is never negative. */
  lemma {:induction false} SquaredDeviationsNonnegative(times: seq<int>, mean: real)
    ensures SquaredDeviations(times, mean) >= 0.0
    decreases |times|
  {
    if times != [] {
      SquaredDeviationsNonnegative(times[..|times| - 1], mean);
      var d := times[|times| - 1] as real - mean;
      assert Square(d) >= 0.0;
    }
  }

  /** A table of equal times, measured against their own value, deviates by nothing. */
  lemma {:induction false} SquaredDeviationsConstant(times: seq<int>, c: int)
    requires forall i :: 0 <= i < |times| ==> times[i] == c
    ensures SquaredDeviations(times, c as real) == 0.0
    decreases |times|
  {
    if times != [] {
      SquaredDeviationsConstant(times[..|times| - 1], c);
    }
  }
}
