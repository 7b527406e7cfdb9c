/** Questions asked of a histogram of scores: how many at or above, which threshold, which percentile. */
module Histogram {

  const TOP: int := 100

  /** How many recorded values lie between lo and hi. */
  function Between(counts: multiset<int>, lo: int, hi: int): nat
    decreases hi - lo
  {
    if lo > hi then 0 else counts[lo] + Between(counts, lo + 1, hi)
  }

  function Clamped(threshold: int): (r: int)
    ensures 0 <= r <= TOP
  {
    if threshold < 0 then 0 else if threshold > TOP then TOP else threshold
  }

  function CountsGe(counts: multiset<int>, threshold: int): nat {
    Between(counts, Clamped(threshold), TOP)
  }

  function Larger(a: int, b: int): int {
    if a >= b then a else b
  }

  /** Rows at or above v that exist at all once the decision threshold has been applied. */
  function BoundedPassing(counts: multiset<int>, v: int, threshold: int): nat {
    CountsGe(counts, Larger(v, threshold))
  }

  lemma {:induction false} BetweenOneMore(counts: multiset<int>, x: int, lo: int, hi: int)
    ensures Between(counts + multiset{x}, lo, hi) == Between(counts, lo, hi) + if lo <= x <= hi then 1 else 0
    decreases hi - lo
  {
    if lo <= hi {
      BetweenOneMore(counts, x, lo + 1, hi);
    }
  }

  lemma {:induction false} BetweenSplits(counts: multiset<int>, lo: int, mid: int, hi: int)
    requires lo <= mid <= hi + 1
    ensures Between(counts, lo, hi) == Between(counts, lo, mid - 1) + Between(counts, mid, hi)
    decreases mid - lo
  {
    if lo < mid {
      BetweenSplits(counts, lo + 1, mid, hi);
    }
  }

  /** How many entries of the series lie between lo and hi. */
  function Entries(values: seq<int>, lo: int, hi: int): nat {
    if values == [] then 0
    else
      var last := values[|values| - 1];
      Entries(values[..|values| - 1], lo, hi) + if lo <= last <= hi then 1 else 0
  }

  /** The histogram answers range counts exactly as the series it was made from does. */
  lemma {:induction false} HistogramCountsEntries(values: seq<int>, lo: int, hi: int)
    ensures Between(multiset(values), lo, hi) == Entries(values, lo, hi)
    decreases |values|
  {
    if values == [] {
      NothingBetween(lo, hi);
    } else {
      var last := values[|values| - 1];
      assert values == values[..|values| - 1] + [last];
      HistogramCountsEntries(values[..|values| - 1], lo, hi);
      BetweenOneMore(multiset(values[..|values| - 1]), last, lo, hi);
    }
  }

  lemma {:induction false} NothingBetween(lo: int, hi: int)
    ensures Between(multiset{}, lo, hi) == 0
    decreases hi - lo
  {
    if lo <= hi {
      NothingBetween(lo + 1, hi);
    }
  }

  /** On the 0-100 scale nothing falls outside the histogram. */
  lemma {:induction false} AllOnScale(counts: multiset<int>, hi: int)
    requires forall x :: x in counts ==> 0 <= x <= hi
    ensures Between(counts, 0, hi) == |counts|
    decreases |counts|
  {
    if |counts| == 0 {
      assert counts == multiset{};
      NothingBetween(0, hi);
    } else {
      assert (forall x :: x !in counts) ==> counts == multiset{};
      var x :| x in counts;
      var rest := counts - multiset{x};
      assert counts == rest + multiset{x};
      AllOnScale(rest, hi);
      BetweenOneMore(rest, x, 0, hi);
    }
  }

  /** A part of the rows never counts more. */
  lemma {:induction false} BetweenOfPart(part: multiset<int>, whole: multiset<int>, lo: int, hi: int)
    requires part <= whole
    ensures Between(part, lo, hi) <= Between(whole, lo, hi)
    decreases hi - lo
  {
    if lo <= hi {
      BetweenOfPart(part, whole, lo + 1, hi);
    }
  }

  lemma CountsGeAntitone(counts: multiset<int>, low: int, high: int)
    requires low <= high
    ensures CountsGe(counts, high) <= CountsGe(counts, low)
  {
    BetweenSplits(counts, Clamped(low), Clamped(high), TOP);
  }

  /**
   * What a calibrated threshold is: the least one on the scale that keeps the count within the budget,
   * or the strictest one when even that does not.
   */
  ghost predicate Calibrated(counts: multiset<int>, budget: int, r: int) {
    && 0 <= r <= TOP
    && (CountsGe(counts, TOP) > budget ==> r == TOP)
    && (CountsGe(counts, TOP) <= budget ==> CountsGe(counts, r) <= budget)
    && (forall v :: 0 <= v < r ==> CountsGe(counts, v) > budget)
  }

  method ThresholdFor(counts: multiset<int>, targetPerDay: int, days: int) returns (r: int)
    ensures Calibrated(counts, targetPerDay * days, r)
  {
    var budget := targetPerDay * days;
    var running := 0;
    var value := TOP;
    while value >= 0
      invariant -1 <= value <= TOP
      invariant running == Between(counts, value + 1, TOP)
      invariant value < TOP ==> running <= budget
    {
      running := running + counts[value];
      if running > budget {
        forall v | 0 <= v <= value ensures CountsGe(counts, v) > budget {
          CountsGeAntitone(counts, v, value);
        }
        if value < TOP {
          CountsGeAntitone(counts, value + 1, TOP);
        }
        return if value + 1 < TOP then value + 1 else TOP;
      }
      value := value - 1;
    }
    CountsGeAntitone(counts, 0, TOP);
    return 0;
  }

  /** The threshold is determined by the budget, and a larger budget never asks for a stricter one. */
  lemma CalibratedAntitone(counts: multiset<int>, budget: int, budget': int, r: int, r': int)
    requires Calibrated(counts, budget, r) && Calibrated(counts, budget', r') && budget <= budget'
    ensures r' <= r
    ensures budget == budget' ==> r == r'
  {
  }

  /** The least value whose cumulative count reaches the rank; 100 if none does; 0 on an empty histogram. */
  ghost predicate IsPercentile(counts: multiset<int>, pct: real, r: int) {
    && 0 <= r <= TOP
    && (|counts| == 0 ==> r == 0)
    && (|counts| > 0 ==>
          && (Reaches(counts, pct, r) || r == TOP)
          && forall v :: 0 <= v < r ==> !Reaches(counts, pct, v))
  }

  predicate Reaches(counts: multiset<int>, pct: real, v: int) {
    Between(counts, 0, v) as real >= Rank(|counts|, pct)
  }

  function Rank(total: nat, pct: real): real {
    total as real * pct / 100.0
  }

  method Percentile(counts: multiset<int>, pct: real) returns (r: int)
    ensures IsPercentile(counts, pct, r)
  {
    if |counts| == 0 {
      return 0;
    }
    var target := Rank(|counts|, pct);
    var running := 0;
    var value := 0;
    while value <= TOP
      invariant 0 <= value <= TOP + 1
      invariant running == Between(counts, 0, value - 1)
      invariant forall v :: 0 <= v < value ==> !Reaches(counts, pct, v)
    {
      BetweenSplits(counts, 0, value, value);
      assert Between(counts, value, value) == counts[value] + Between(counts, value + 1, value);
      running := running + counts[value];
      if running as real >= target {
        return value;
      }
      value := value + 1;
    }
    return TOP;
  }

  lemma RankMonotone(total: nat, pct: real, pct': real)
    requires pct <= pct'
    ensures Rank(total, pct) <= Rank(total, pct')
  {
    var n := total as real;
    assert n * pct <= n * pct';
  }

  /** A higher percentile is never a lower score. */
  lemma PercentileMonotone(counts: multiset<int>, pct: real, pct': real, r: int, r': int)
    requires IsPercentile(counts, pct, r) && IsPercentile(counts, pct', r') && pct <= pct'
    ensures r <= r'
  {
    RankMonotone(|counts|, pct, pct');
    assert |counts| > 0 && r' < TOP ==> Reaches(counts, pct, r');
  }

  /** Up to the hundredth percentile, the answer never exceeds the greatest value recorded. */
  lemma PercentileWithinScores(counts: multiset<int>, pct: real, r: int, max: int)
    requires IsPercentile(counts, pct, r) && pct <= 100.0
    requires max in counts && max <= TOP && forall x :: x in counts ==> 0 <= x <= max
    ensures r <= max
  {
    AllOnScale(counts, max);
    RankMonotone(|counts|, pct, 100.0);
    assert Reaches(counts, pct, max);
  }

  /** On a series of scores, the percentile is the least value at or under which that many percent of the entries lie. */
  lemma PercentileInFull(values: seq<int>, pct: real, r: int)
    requires values != [] && 0.0 <= pct <= 100.0 && forall i :: 0 <= i < |values| ==> 0 <= values[i] <= TOP
    requires IsPercentile(multiset(values), pct, r)
    ensures 100.0 * Entries(values, 0, r) as real >= |values| as real * pct
    ensures forall v :: 0 <= v < r ==> 100.0 * Entries(values, 0, v) as real < |values| as real * pct
  {
    forall v ensures Between(multiset(values), 0, v) == Entries(values, 0, v) {
      HistogramCountsEntries(values, 0, v);
    }
    AllEntriesOnScale(values);
    RankMonotone(|values|, pct, 100.0);
    forall v | 0 <= v < r ensures 100.0 * Entries(values, 0, v) as real < |values| as real * pct {
      assert !Reaches(multiset(values), pct, v);
    }
  }

  lemma {:induction false} AllEntriesOnScale(values: seq<int>)
    requires forall i :: 0 <= i < |values| ==> 0 <= values[i] <= TOP
    ensures Entries(values, 0, TOP) == |values|
    decreases |values|
  {
    if values != [] {
      AllEntriesOnScale(values[..|values| - 1]);
    }
  }
}
