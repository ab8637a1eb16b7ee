/** Performance metrics over daily snapshots (src/report/metrics.py): maximum drawdown and daily returns. */
module Metrics {
  import opened Wrappers
  import opened Decimals
  import opened Enums
  import opened MarketData
  import opened Simulator
  import opened Backtest
  import opened Sorting

  // ---- sorted(snapshots, key=lambda s: s.snapshot_date) ----

  function ByDate(): (Snapshot, Snapshot) -> bool {
    (x: Snapshot, y: Snapshot) => x.date <= y.date
  }

  function SortByDate(s: seq<Snapshot>): seq<Snapshot> {
    Sort(ByDate(), s)
  }

  lemma SortSnapshots(s: seq<Snapshot>)
    ensures |SortByDate(s)| == |s|
  {
    SortSorts(ByDate(), s);
  }

  ghost predicate DatesDistinct(s: seq<Snapshot>) {
    forall i, j :: 0 <= i < j < |s| ==> s[i].date != s[j].date
  }

  // ---- Maximum drawdown ----

  function Totals(s: seq<Snapshot>): (r: seq<real>)
    ensures |r| == |s| && forall i :: 0 <= i < |s| ==> r[i] == s[i].totalValue
  {
    seq(|s|, i requires 0 <= i < |s| => s[i].totalValue)
  }

  /** The highest value so far. */
  function Peak(values: seq<real>): real
    requires values != []
  {
    if |values| == 1 then values[0] else Max(Peak(values[..|values| - 1]), values[|values| - 1])
  }

  function DropFrom(peak: real, value: real): real {
    if peak > 0.0 then PctOf(peak - value, peak) else 0.0
  }

  /** One pass: the largest drop of a value from the highest value up to it. */
  function RunningDrawdown(values: seq<real>): real {
    if values == [] then 0.0
    else Max(RunningDrawdown(values[..|values| - 1]), DropFrom(Peak(values), values[|values| - 1]))
  }

  function MaxDrawdown(snapshots: seq<Snapshot>): real {
    Cents(RunningDrawdown(Totals(SortByDate(snapshots))))
  }

  /** What one more value does to the peak and to the drawdown. */
  lemma RunningStep(values: seq<real>, i: nat)
    requires i < |values|
    ensures Peak(values[..i + 1]) == if i == 0 then values[0] else Max(Peak(values[..i]), values[i])
    ensures RunningDrawdown(values[..i + 1])
            == Max(RunningDrawdown(values[..i]), DropFrom(Peak(values[..i + 1]), values[i]))
    ensures RunningDrawdown(values[..i]) >= 0.0
  {
    assert values[..i + 1][..i] == values[..i];
    DrawdownNonNegative(values[..i]);
  }

  method CalculateMaxDrawdown(snapshots: seq<Snapshot>) returns (r: real)
    ensures r == MaxDrawdown(snapshots)
  {
    if snapshots == [] {
      return 0.0;
    }
    var sortedSnaps := SortByDate(snapshots);
    SortSnapshots(snapshots);
    ghost var values := Totals(sortedSnaps);
    var peak := sortedSnaps[0].totalValue;
    var maxDd := 0.0;
    for i := 0 to |sortedSnaps|
      invariant peak == if i == 0 then values[0] else Peak(values[..i])
      invariant maxDd == RunningDrawdown(values[..i])
    {
      var value := sortedSnaps[i].totalValue;
      RunningStep(values, i);
      if value > peak {
        peak := value;
      }
      if peak > 0.0 {
        var dd := PctOf(peak - value, peak);
        if dd > maxDd {
          maxDd := dd;
        }
      }
    }
    assert values[..|sortedSnaps|] == values;
    r := Cents(maxDd);
  }

  /** The drop in percent of the peak; none from a peak that is not positive. */
  lemma DropIsPercentage(peak: real, value: real)
    ensures peak > 0.0 ==> DropFrom(peak, value) * peak == (peak - value) * 100.0
    ensures peak <= 0.0 ==> DropFrom(peak, value) == 0.0
  {
    if peak > 0.0 { DivTimes(peak - value, peak); }
  }

  /** The maximum drawdown is the single pass over the values in date order, in hundredths of a percent. */
  lemma MaxDrawdownRounds(snapshots: seq<Snapshot>)
    ensures NearestCent(MaxDrawdown(snapshots), RunningDrawdown(Totals(SortByDate(snapshots))))
    ensures multiset(SortByDate(snapshots)) == multiset(snapshots) && Ordered(ByDate(), SortByDate(snapshots))
  {
    CentsNearest(RunningDrawdown(Totals(SortByDate(snapshots))));
    SortSorts(ByDate(), snapshots);
  }

  lemma DrawdownNonNegative(values: seq<real>)
    ensures RunningDrawdown(values) >= 0.0
  {
  }

  lemma {:induction false} PeakIsMaximum(values: seq<real>)
    requires values != []
    ensures forall i :: 0 <= i < |values| ==> values[i] <= Peak(values)
    ensures Peak(values) in values
  {
    var n := |values| - 1;
    if n > 0 {
      PeakIsMaximum(values[..n]);
      assert forall i :: 0 <= i < n ==> values[..n][i] == values[i];
    }
  }

  /** m is the largest percentage drop from any value to a later one; a zero value drops by nothing. */
  ghost predicate IsMaxDrop(values: seq<real>, m: real) {
    && (forall i, j :: 0 <= i <= j < |values| ==> DropFrom(values[i], values[j]) <= m)
    && (exists i, j :: 0 <= i <= j < |values| && DropFrom(values[i], values[j]) == m)
  }

  /** From a higher start the drop to a non-negative value is larger. */
  lemma DropMonotone(low: real, high: real, value: real)
    requires low <= high && 0.0 <= value <= high
    ensures DropFrom(low, value) <= DropFrom(high, value) && DropFrom(high, value) >= 0.0
  {
    if low > 0.0 {
      DropAsShare(low, value);
      DropAsShare(high, value);
      QuotientShrinks(value, low, high);
    }
    if high > 0.0 {
      DropAsShare(high, value);
      DivMonotone(value, high, high);
    }
  }

  lemma DropAsShare(peak: real, value: real)
    requires peak > 0.0
    ensures DropFrom(peak, value) == (1.0 - value / peak) * 100.0
  {
    DivTimes(value, peak);
    DivTimes(peak - value, peak);
    ZeroFactor(1.0 - value / peak - (peak - value) / peak, peak);
  }

  lemma ZeroFactor(x: real, y: real)
    requires x * y == 0.0 && y > 0.0
    ensures x == 0.0
  {
    if x > 0.0 {
      MulPositive(x, y);
    } else if x < 0.0 {
      MulPositive(-x, y);
    }
  }

  lemma QuotientShrinks(value: real, low: real, high: real)
    requires 0.0 < low <= high && value >= 0.0
    ensures value / high <= value / low
  {
    var a, b := value / high, value / low;
    DivTimes(value, high);
    DivTimes(value, low);
    DivMonotone(0.0, value, low);
    MulMonotone(low, high, b);
    if a > b {
      MulPositive(a - b, high);
    }
  }

  /** The largest drop of a prefix, in terms of the whole. */
  lemma MaxDropPrefix(values: seq<real>, n: nat, m: real)
    requires n <= |values| && IsMaxDrop(values[..n], m)
    ensures forall i, j :: 0 <= i <= j < n ==> DropFrom(values[i], values[j]) <= m
    ensures exists i, j :: 0 <= i <= j < n && DropFrom(values[i], values[j]) == m
  {
    var before := values[..n];
    forall i, j | 0 <= i <= j < n ensures DropFrom(values[i], values[j]) <= m {
      assert DropFrom(before[i], before[j]) <= m;
    }
    var i, j :| 0 <= i <= j < |before| && DropFrom(before[i], before[j]) == m;
    assert DropFrom(values[i], values[j]) == m;
  }

  lemma NegativeQuotient(x: real, y: real)
    requires x < 0.0 && y > 0.0
    ensures x / y < 0.0
  {
    DivTimes(x, y);
    if x / y >= 0.0 {
      MulMonotone(0.0, x / y, y);
    }
  }

  /** Below zero the drop is larger from a lower start. */
  lemma DropFallsBelowZero(low: real, high: real, value: real)
    requires 0.0 < low < high && value < 0.0
    ensures DropFrom(low, value) > DropFrom(high, value)
  {
    DropAsShare(low, value);
    DropAsShare(high, value);
    QuotientGrowsBelowZero(value, low, high);
  }

  lemma QuotientGrowsBelowZero(value: real, low: real, high: real)
    requires 0.0 < low < high && value < 0.0
    ensures value / low < value / high
  {
    var a, b := value / low, value / high;
    DivTimes(value, low);
    DivTimes(value, high);
    NegativeQuotient(value, high);
    Stretch(b, low, high);
    assert a * low == value;
    if a >= b {
      MulMonotone(b, a, low);
    }
  }

  lemma Stretch(x: real, low: real, high: real)
    requires x < 0.0 && low < high
    ensures x * low > x * high
  {
    MulPositive(-x, high - low);
    assert -x * (high - low) == x * low - x * high;
  }

  /** A negative value never follows a positive one that lies below the peak so far. */
  ghost predicate PeakSuffices(values: seq<real>)
    requires values != []
  {
    values[|values| - 1] >= 0.0 || forall i :: 0 <= i < |values| && values[i] > 0.0 ==> values[i] == Peak(values)
  }

  /** On one day the drop from the peak is the largest one to that day if and only if the peak suffices. */
  lemma PeakDropIsLargest(values: seq<real>)
    requires values != []
    ensures var last := values[|values| - 1];
            PeakSuffices(values) <==>
              forall i :: 0 <= i < |values| ==> DropFrom(values[i], last) <= DropFrom(Peak(values), last)
  {
    var last := values[|values| - 1];
    PeakIsMaximum(values);
    if last >= 0.0 {
      forall i | 0 <= i < |values| ensures DropFrom(values[i], last) <= DropFrom(Peak(values), last) {
        DropMonotone(values[i], Peak(values), last);
      }
    } else {
      forall i | 0 <= i < |values|
        ensures values[i] > 0.0 && values[i] != Peak(values) ==>
                  DropFrom(values[i], last) > DropFrom(Peak(values), last)
      {
        if values[i] > 0.0 && values[i] != Peak(values) { DropFallsBelowZero(values[i], Peak(values), last); }
      }
      PeakDropNonNegative(values);
    }
  }

  lemma PeakDropNonNegative(values: seq<real>)
    requires values != []
    ensures DropFrom(Peak(values), values[|values| - 1]) >= 0.0
  {
    var last := values[|values| - 1];
    PeakIsMaximum(values);
    if Peak(values) > 0.0 {
      DropAsShare(Peak(values), last);
      DivMonotone(last, Peak(values), Peak(values));
    }
  }

  /**
    The single pass finds the largest drop over all pairs in date order, if the peak suffices every day; it does when
    no value is negative.
  */
  lemma {:induction false} RunningIsMaxDrop(values: seq<real>)
    requires values != [] && forall i :: 0 < i <= |values| ==> PeakSuffices(values[..i])
    ensures IsMaxDrop(values, RunningDrawdown(values))
  {
    var n := |values| - 1;
    var m := RunningDrawdown(values);
    var last := values[n];
    PeakIsMaximum(values);
    var k :| 0 <= k < |values| && values[k] == Peak(values);
    assert DropFrom(values[k], last) == DropFrom(Peak(values), last);
    assert values[..n + 1] == values;
    PeakDropIsLargest(values);
    PeakDropNonNegative(values);
    if n > 0 {
      var before := values[..n];
      assert forall i :: 0 < i <= n ==> before[..i] == values[..i];
      RunningIsMaxDrop(before);
      MaxDropPrefix(values, n, RunningDrawdown(before));
      forall i, j | 0 <= i <= j < |values| ensures DropFrom(values[i], values[j]) <= m {
        if j == n { assert DropFrom(values[i], last) <= m; }
      }
    }
  }

  /** What the single pass compares on a day. */
  function PeakDrop(values: seq<real>, j: int): real
    requires 0 <= j < |values|
  {
    DropFrom(Peak(values[..j + 1]), values[j])
  }

  /** It is the drop of one pair. */
  lemma PeakDropIsPair(values: seq<real>, j: int) returns (i: int)
    requires 0 <= j < |values|
    ensures 0 <= i <= j && DropFrom(values[i], values[j]) == PeakDrop(values, j)
  {
    var upTo := values[..j + 1];
    PeakIsMaximum(upTo);
    i :| 0 <= i <= j && upTo[i] == Peak(upTo);
  }

  /** And the largest of that day if and only if the peak suffices. */
  lemma PeakDropOfDay(values: seq<real>, j: int)
    requires 0 <= j < |values|
    ensures PeakSuffices(values[..j + 1]) <==>
              forall i :: 0 <= i <= j ==> DropFrom(values[i], values[j]) <= PeakDrop(values, j)
  {
    var upTo := values[..j + 1];
    PeakDropIsLargest(upTo);
    assert forall i :: 0 <= i <= j ==> DropFrom(upTo[i], upTo[j]) == DropFrom(values[i], values[j]);
  }

  /** The single pass is the largest of what it compares. */
  lemma {:induction false} RunningIsLargest(values: seq<real>) returns (k: int)
    requires values != []
    ensures 0 <= k < |values| && RunningDrawdown(values) == PeakDrop(values, k)
    ensures forall j :: 0 <= j < |values| ==> PeakDrop(values, j) <= RunningDrawdown(values)
  {
    var n := |values| - 1;
    assert values[..n + 1] == values;
    PeakDropNonNegative(values);
    k := n;
    if n > 0 {
      var before := values[..n];
      var earlier := RunningIsLargest(before);
      forall j | 0 <= j < n ensures PeakDrop(before, j) == PeakDrop(values, j) {
        assert before[..j + 1] == values[..j + 1];
      }
      if RunningDrawdown(before) > PeakDrop(values, n) { k := earlier; }
    }
  }

  /** The largest drop over all pairs ends on this day. */
  ghost predicate LargestOn(values: seq<real>, j: int)
    requires 0 <= j < |values|
  {
    exists i :: 0 <= i <= j && IsMaxDrop(values, DropFrom(values[i], values[j]))
  }

  /**
    The single pass finds the largest drop over all pairs if and only if the peak suffices on some day on which the
    largest drop ends.
  */
  lemma RunningFindsLargest(values: seq<real>)
    requires values != []
    ensures IsMaxDrop(values, RunningDrawdown(values)) <==>
              exists j :: 0 <= j < |values| && LargestOn(values, j) && PeakSuffices(values[..j + 1])
  {
    if IsMaxDrop(values, RunningDrawdown(values)) { FoundSuffices(values); }
    if j :| 0 <= j < |values| && LargestOn(values, j) && PeakSuffices(values[..j + 1]) { SufficesFinds(values, j); }
  }

  lemma FoundSuffices(values: seq<real>)
    requires values != [] && IsMaxDrop(values, RunningDrawdown(values))
    ensures exists j :: 0 <= j < |values| && LargestOn(values, j) && PeakSuffices(values[..j + 1])
  {
    var k := RunningIsLargest(values);
    var i := PeakDropIsPair(values, k);
    forall i | 0 <= i <= k ensures DropFrom(values[i], values[k]) <= PeakDrop(values, k) {
      assert DropFrom(values[i], values[k]) <= RunningDrawdown(values);
    }
    PeakDropOfDay(values, k);
    assert LargestOn(values, k);
  }

  lemma SufficesFinds(values: seq<real>, j: int)
    requires 0 <= j < |values| && LargestOn(values, j) && PeakSuffices(values[..j + 1])
    ensures IsMaxDrop(values, RunningDrawdown(values))
  {
    var i :| 0 <= i <= j && IsMaxDrop(values, DropFrom(values[i], values[j]));
    PeakDropOfDay(values, j);
    var k := RunningIsLargest(values);
    var h := PeakDropIsPair(values, k);
    assert DropFrom(values[h], values[k]) <= DropFrom(values[i], values[j]) <= PeakDrop(values, j);
  }

  lemma NonNegativeSuffices(values: seq<real>)
    requires forall i :: 0 <= i < |values| ==> values[i] >= 0.0
    ensures forall i :: 0 < i <= |values| ==> PeakSuffices(values[..i])
  {
  }

  /**
    A negative value after a positive one below the peak can hide the largest drop: 10, 20, -10 falls by 200% from 10.
  */
  lemma NegativeValuesBreakIt()
    ensures !IsMaxDrop([10.0, 20.0, -10.0], RunningDrawdown([10.0, 20.0, -10.0]))
  {
    var values := [10.0, 20.0, -10.0];
    assert values[..2] == [10.0, 20.0] && values[..2][..1] == [10.0] && values[..1][..0] == [];
    assert Peak([10.0]) == 10.0 && Peak([10.0, 20.0]) == 20.0 && Peak(values) == 20.0;
    assert RunningDrawdown([10.0]) == 0.0;
    assert RunningDrawdown([10.0, 20.0]) == 0.0;
    assert RunningDrawdown(values) == 150.0;
    assert DropFrom(values[0], values[2]) == 200.0;
  }

  /** The maximum drawdown does not depend on the order in which snapshots of distinct dates are given. */
  lemma {:induction false} OrderDoesNotMatter(a: seq<Snapshot>, b: seq<Snapshot>)
    requires multiset(a) == multiset(b) && DatesDistinct(a)
    ensures MaxDrawdown(a) == MaxDrawdown(b)
  {
    SortOfPermutation(ByDate(), a, b);
  }

  // ---- Against the drawdowns the engine recorded ----

  /** Snapshots as the engine writes them: dates ascend, the peak runs from the capital, the drawdown is from it. */
  ghost predicate EngineSnapshots(s: seq<Snapshot>, capital: real) {
    && (forall i, j :: 0 <= i < j < |s| ==> s[i].date < s[j].date)
    && (forall i :: 0 <= i < |s| ==> s[i].drawdownPct == DrawdownPct(s[i].peakValue, s[i].totalValue))
    && (forall i, j :: 0 <= i <= j < |s| ==> s[i].totalValue <= s[j].peakValue)
    && (forall i :: 0 <= i < |s| ==> capital <= s[i].peakValue)
  }

  lemma RecordedIsDrop(peak: real, total: real)
    ensures DrawdownPct(peak, total) == Cents(DropFrom(peak, total))
  {
    RoundOfInteger(0);
  }

  /** One recorded drawdown bounds a drop that ends on its day. */
  lemma RecordedBounds(peak: real, total: real, start: real)
    requires 0.0 <= total <= peak && start <= peak
    ensures Cents(DropFrom(start, total)) <= DrawdownPct(peak, total)
  {
    RecordedIsDrop(peak, total);
    DropMonotone(start, peak, total);
    CentsMonotone(DropFrom(start, total), DropFrom(peak, total));
  }

  /** The calculated maximum drawdown never exceeds the largest drawdown the engine recorded. */
  lemma WithinRecordedDrawdown(s: seq<Snapshot>, capital: real)
    requires s != [] && EngineSnapshots(s, capital) && forall i :: 0 <= i < |s| ==> s[i].totalValue >= 0.0
    ensures exists k :: 0 <= k < |s| && MaxDrawdown(s) <= s[k].drawdownPct
  {
    SortedStays(ByDate(), s);
    var values := Totals(s);
    NonNegativeSuffices(values);
    RunningIsMaxDrop(values);
    DropWithinRecorded(s, capital, RunningDrawdown(values));
  }

  lemma DropWithinRecorded(s: seq<Snapshot>, capital: real, m: real)
    requires EngineSnapshots(s, capital) && IsMaxDrop(Totals(s), m)
    requires forall i :: 0 <= i < |s| ==> s[i].totalValue >= 0.0
    ensures exists k :: 0 <= k < |s| && Cents(m) <= s[k].drawdownPct
  {
    var values := Totals(s);
    var i, j :| 0 <= i <= j < |values| && DropFrom(values[i], values[j]) == m;
    RecordedBounds(s[j].peakValue, values[j], values[i]);
  }

  // ---- Daily returns ----

  function DailyReturn(previous: real, current: real): real
    requires previous != 0.0
  {
    PctOf(current - previous, previous)
  }

  function ReturnsOf(values: seq<real>): seq<real> {
    if |values| < 2 then []
    else
      var n := |values| - 1;
      ReturnsOf(values[..n]) + if values[n - 1] == 0.0 then [] else [DailyReturn(values[n - 1], values[n])]
  }

  method DailyReturnsFromSnapshots(snapshots: seq<Snapshot>) returns (returns': seq<real>)
    ensures returns' == ReturnsOf(Totals(SortByDate(snapshots)))
  {
    returns' := [];
    SortSnapshots(snapshots);
    if |snapshots| < 2 {
      return;
    }
    var sortedSnaps := SortByDate(snapshots);
    ghost var values := Totals(sortedSnaps);
    for i := 1 to |sortedSnaps|
      invariant returns' == ReturnsOf(values[..i])
    {
      assert values[..i + 1][..i] == values[..i];
      var previous := sortedSnaps[i - 1].totalValue;
      if previous == 0.0 {
        continue;
      }
      returns' := returns' + [DailyReturn(previous, sortedSnaps[i].totalValue)];
    }
    assert values[..|sortedSnaps|] == values;
  }

  /** A value after some percentage returns. */
  function Compounded(start: real, returns': seq<real>): real {
    if returns' == [] then start
    else
      var n := |returns'| - 1;
      Compounded(start, returns'[..n]) * (1.0 + returns'[n] / 100.0)
  }

  lemma CompoundedAppend(start: real, returns': seq<real>, r: real)
    ensures Compounded(start, returns' + [r]) == Compounded(start, returns') * (1.0 + r / 100.0)
  {
    assert (returns' + [r])[..|returns'|] == returns';
  }

  lemma OneReturn(previous: real, current: real)
    requires previous != 0.0
    ensures previous * (1.0 + DailyReturn(previous, current) / 100.0) == current
  {
    DivTimes(current - previous, previous);
  }

  /** Compounding the first value with the daily returns gives the last value. */
  lemma {:induction false} ReturnsCompound(values: seq<real>)
    requires values != [] && forall i :: 0 <= i < |values| ==> values[i] != 0.0
    ensures Compounded(values[0], ReturnsOf(values)) == values[|values| - 1]
    ensures |ReturnsOf(values)| == |values| - 1
  {
    var n := |values| - 1;
    if n > 0 {
      ReturnsCompound(values[..n]);
      CompoundedAppend(values[0], ReturnsOf(values[..n]), DailyReturn(values[n - 1], values[n]));
      OneReturn(values[n - 1], values[n]);
    }
  }
}
