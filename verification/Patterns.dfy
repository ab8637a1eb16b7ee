/**
  Local extrema and price-level clustering (src/analysis/technical/patterns.py). Floats are exact reals; a NaN is
  `None`.
*/
module Patterns {
  import opened Wrappers
  import opened Decimals
  import opened Sorting

  // ---- _find_local_extrema ----

  /** The neighbours at distance j are numbers strictly below the value at i. */
  predicate Tops(values: seq<Option<real>>, i: int, j: int) {
    && 0 <= i - j < |values| && 0 <= i + j < |values| && 0 <= i < |values|
    && values[i].Some? && values[i - j].Some? && values[i + j].Some?
    && values[i - j].value < values[i].value && values[i + j].value < values[i].value
  }

  /** The neighbours at distance j are numbers strictly above the value at i. */
  predicate Bottoms(values: seq<Option<real>>, i: int, j: int) {
    && 0 <= i - j < |values| && 0 <= i + j < |values| && 0 <= i < |values|
    && values[i].Some? && values[i - j].Some? && values[i + j].Some?
    && values[i - j].value > values[i].value && values[i + j].value > values[i].value
  }

  /** An interior number strictly above the `order` neighbours on both sides. */
  ghost predicate IsHigh(values: seq<Option<real>>, order: nat, i: int) {
    order <= i < |values| - order && values[i].Some? && forall j :: 1 <= j <= order ==> Tops(values, i, j)
  }

  ghost predicate IsLow(values: seq<Option<real>>, order: nat, i: int) {
    order <= i < |values| - order && values[i].Some? && forall j :: 1 <= j <= order ==> Bottoms(values, i, j)
  }

  ghost predicate Ascending(s: seq<int>) {
    forall i, j :: 0 <= i < j < |s| ==> s[i] < s[j]
  }

  /** Exactly the interior strict extrema, in increasing order. */
  method FindLocalExtrema(values: seq<Option<real>>, order: nat) returns (highs: seq<int>, lows: seq<int>)
    ensures Ascending(highs) && Ascending(lows)
    ensures forall i :: i in highs <==> IsHigh(values, order, i)
    ensures forall i :: i in lows <==> IsLow(values, order, i)
  {
    highs, lows := [], [];
    var i: int := order;
    while i < |values| - order
      invariant forall k :: k in highs <==> k < i && IsHigh(values, order, k)
      invariant forall k :: k in lows <==> k < i && IsLow(values, order, k)
      invariant Ascending(highs) && Ascending(lows)
      invariant order <= i
      decreases |values| - order - i
    {
      if values[i].Some? {
        var isHigh, isLow := CompareNeighbours(values, order, i);
        if isHigh {
          highs := Appended(highs, i);
        }
        if isLow {
          lows := Appended(lows, i);
        }
      }
      i := i + 1;
    }
  }

  function Appended(s: seq<int>, i: int): (r: seq<int>)
    requires forall k :: k in s ==> k < i
    ensures Ascending(s) ==> Ascending(r)
    ensures forall k :: k in r <==> k in s || k == i
  {
    assert forall j :: 0 <= j < |s| ==> s[j] in s;
    s + [i]
  }

  /** The inner loop: both flags fall as soon as a neighbour is missing. */
  method CompareNeighbours(values: seq<Option<real>>, order: nat, i: int) returns (isHigh: bool, isLow: bool)
    requires order <= i < |values| - order && values[i].Some?
    ensures isHigh <==> IsHigh(values, order, i)
    ensures isLow <==> IsLow(values, order, i)
  {
    isHigh, isLow := true, true;
    var v := values[i].value;
    for j := 1 to order + 1
      invariant isHigh <==> forall m :: 1 <= m < j ==> Tops(values, i, m)
      invariant isLow <==> forall m :: 1 <= m < j ==> Bottoms(values, i, m)
    {
      var left, right := values[i - j], values[i + j];
      if left.None? || right.None? {
        assert !Tops(values, i, j) && !Bottoms(values, i, j);
        return false, false;
      }
      if v <= left.value || v <= right.value {
        assert !Tops(values, i, j);
        isHigh := false;
      }
      if v >= left.value || v >= right.value {
        assert !Bottoms(values, i, j);
        isLow := false;
      }
    }
  }

  /** With an order of at least one, highs and lows are disjoint and two of a kind lie more than `order` apart. */
  lemma ExtremaApart(values: seq<Option<real>>, order: nat, i: int, k: int)
    requires order >= 1
    ensures !(IsHigh(values, order, i) && IsLow(values, order, i))
    ensures IsHigh(values, order, i) && IsHigh(values, order, k) && i < k ==> k - i > order
    ensures IsLow(values, order, i) && IsLow(values, order, k) && i < k ==> k - i > order
  {
    var d := k - i;
    assert IsHigh(values, order, i) ==> Tops(values, i, 1);
    assert IsLow(values, order, i) ==> Bottoms(values, i, 1);
    if 1 <= d <= order {
      assert IsHigh(values, order, i) ==> Tops(values, i, d);
      assert IsHigh(values, order, k) ==> Tops(values, k, d);
      assert IsLow(values, order, i) ==> Bottoms(values, i, d);
      assert IsLow(values, order, k) ==> Bottoms(values, k, d);
    }
  }

  // ---- _cluster ----

  function Rising(): (real, real) -> bool {
    (x: real, y: real) => x <= y
  }

  /** The relative gap test between two neighbouring values. */
  predicate Close(previous: real, v: real, tolerance: real) {
    Abs(v - previous) / Max(Abs(previous), 0.0000000001) <= tolerance
  }

  /** Close values differ by at most the tolerance times the previous one, or times a tiny number if that is tinier. */
  lemma CloseExactly(previous: real, v: real, tolerance: real)
    ensures var size := if previous < 0.0 then -previous else previous;
            var gap := if v < previous then previous - v else v - previous;
            Close(previous, v, tolerance) <==>
              gap <= tolerance * (if size < 0.0000000001 then 0.0000000001 else size)
  {
    var scale := Max(Abs(previous), 0.0000000001);
    var share := Abs(v - previous) / scale;
    DivTimes(Abs(v - previous), scale);
    if share <= tolerance {
      MulMonotone(share, tolerance, scale);
    } else {
      MulPositive(share - tolerance, scale);
    }
  }

  function Last<T>(s: seq<T>): T
    requires s != []
  {
    s[|s| - 1]
  }

  function Concat<T>(clusters: seq<seq<T>>): seq<T> {
    if clusters == [] then [] else Concat(clusters[..|clusters| - 1]) + Last(clusters)
  }

  /** Neighbours inside a cluster are close. */
  ghost predicate Tight(cluster: seq<real>, tolerance: real) {
    cluster != [] && forall i :: 0 < i < |cluster| ==> Close(cluster[i - 1], cluster[i], tolerance)
  }

  /** Clusters are tight, and the step from one cluster to the next is not. */
  ghost predicate Clustering(clusters: seq<seq<real>>, tolerance: real) {
    && (forall i :: 0 <= i < |clusters| ==> Tight(clusters[i], tolerance))
    && (forall i :: 0 < i < |clusters| ==> !Close(Last(clusters[i - 1]), clusters[i][0], tolerance))
  }

  function JoinLast(clusters: seq<seq<real>>, v: real): seq<seq<real>>
    requires clusters != []
  {
    clusters[..|clusters| - 1] + [Last(clusters) + [v]]
  }

  lemma JoinKeepsClustering(clusters: seq<seq<real>>, v: real, tolerance: real)
    requires clusters != [] && Clustering(clusters, tolerance) && Close(Last(Last(clusters)), v, tolerance)
    ensures Clustering(JoinLast(clusters, v), tolerance) && Concat(JoinLast(clusters, v)) == Concat(clusters) + [v]
  {
    var n := |clusters| - 1;
    var joined := JoinLast(clusters, v);
    assert joined[..n] == clusters[..n];
    assert Tight(clusters[n], tolerance);
    assert Tight(joined[n], tolerance);
    forall i | 0 <= i < n ensures joined[i] == clusters[i] && Tight(joined[i], tolerance) {
      assert Tight(clusters[i], tolerance);
    }
    forall i | 0 < i < |joined| ensures !Close(Last(joined[i - 1]), joined[i][0], tolerance) {
      assert !Close(Last(clusters[i - 1]), clusters[i][0], tolerance);
    }
  }

  lemma OpenKeepsClustering(clusters: seq<seq<real>>, v: real, tolerance: real)
    requires clusters != [] && Clustering(clusters, tolerance) && !Close(Last(Last(clusters)), v, tolerance)
    ensures Clustering(clusters + [[v]], tolerance) && Concat(clusters + [[v]]) == Concat(clusters) + [v]
  {
    var grown := clusters + [[v]];
    assert grown[..|clusters|] == clusters;
    forall i | 0 <= i < |grown| ensures Tight(grown[i], tolerance) {
      assert i < |clusters| ==> Tight(clusters[i], tolerance);
    }
    forall i | 0 < i < |grown| ensures !Close(Last(grown[i - 1]), grown[i][0], tolerance) {
      if i < |clusters| {
        assert !Close(Last(clusters[i - 1]), clusters[i][0], tolerance);
      }
    }
  }

  /** The greedy pass: each value joins the last cluster when it is close to its last value. */
  method Clusters(values: seq<real>, tolerance: real) returns (clusters: seq<seq<real>>)
    requires values != []
    ensures clusters != [] && Clustering(clusters, tolerance) && Concat(clusters) == values
  {
    clusters := [[values[0]]];
    for k := 1 to |values|
      invariant clusters != [] && Clustering(clusters, tolerance)
      invariant Concat(clusters) == values[..k]
    {
      var v := values[k];
      if Close(Last(Last(clusters)), v, tolerance) {
        JoinKeepsClustering(clusters, v, tolerance);
        clusters := JoinLast(clusters, v);
      } else {
        OpenKeepsClustering(clusters, v, tolerance);
        clusters := clusters + [[v]];
      }
    }
    assert values[..|values|] == values;
  }

  function SumOf(s: seq<real>): real {
    if s == [] then 0.0 else SumOf(s[..|s| - 1]) + Last(s)
  }

  function Mean(s: seq<real>): real
    requires s != []
  {
    SumOf(s) / |s| as real
  }

  /** The mean times the number of values is their sum: one more value adds itself. */
  lemma MeanExactly(s: seq<real>, v: real)
    ensures Mean([v]) == v
    ensures s != [] ==> Mean(s + [v]) * (|s| + 1) as real == Mean(s) * |s| as real + v
  {
    assert [v][..0] == [] && SumOf([v]) == v;
    if s != [] {
      assert (s + [v])[..|s|] == s && Last(s + [v]) == v;
      DivTimes(SumOf(s + [v]), (|s| + 1) as real);
      DivTimes(SumOf(s), |s| as real);
    }
  }

  function RoundHalfEven(x: real): int {
    var rest := x - x.Floor as real;
    if rest < 0.5 || (rest == 0.5 && x.Floor % 2 == 0) then x.Floor else x.Floor + 1
  }

  /** Python's `round(x, 2)`: nearest hundredth, ties to the even one. */
  function Round2(x: real): real {
    RoundHalfEven(x * 100.0) as real / 100.0
  }

  /** A whole number at most one half away, and an even one at one half. */
  lemma Round2Exactly(x: real)
    ensures var n := RoundHalfEven(x * 100.0);
            && Round2(x) * 100.0 == n as real
            && n as real - 0.5 <= x * 100.0 <= n as real + 0.5
            && (x * 100.0 == n as real - 0.5 || x * 100.0 == n as real + 0.5 ==> n % 2 == 0)
  {
    var y := x * 100.0;
    assert y.Floor as real <= y < y.Floor as real + 1.0;
  }

  /** The rounded mean of every cluster of two or more values; when there is none, that of the first cluster. */
  function LevelsOf(clusters: seq<seq<real>>): seq<real>
    requires forall i :: 0 <= i < |clusters| ==> clusters[i] != []
  {
    if clusters == [] then []
    else
      LevelsOf(clusters[..|clusters| - 1]) + if |Last(clusters)| >= 2 then [Round2(Mean(Last(clusters)))] else []
  }

  /** The levels are those of some clustering of the sorted values, and they never decrease. */
  method Cluster(points: seq<real>, tolerance: real) returns (levels: seq<real>)
    ensures points == [] ==> levels == []
    ensures points != [] ==> exists clusters ::
      && clusters != [] && Clustering(clusters, tolerance) && Concat(clusters) == Sort(Rising(), points)
      && levels == if LevelsOf(clusters) != [] then LevelsOf(clusters) else [Round2(Mean(clusters[0]))]
    ensures Ordered(Rising(), levels)
  {
    if points == [] {
      return [];
    }
    SortSorts(Rising(), points);
    var values := Sort(Rising(), points);
    var clusters := Clusters(values, tolerance);
    levels := [];
    for i := 0 to |clusters|
      invariant levels == LevelsOf(clusters[..i])
    {
      assert clusters[..i + 1][..i] == clusters[..i];
      if |clusters[i]| >= 2 {
        levels := levels + [Round2(Mean(clusters[i]))];
      }
    }
    assert clusters[..|clusters|] == clusters;
    OrderedBounds(values);
    LevelsRise(clusters, Last(values));
    if levels == [] {
      levels := [Round2(Mean(clusters[0]))];
    }
  }

  lemma HalfEvenMonotone(x: real, y: real)
    requires x <= y
    ensures RoundHalfEven(x) <= RoundHalfEven(y)
  {
    assert x.Floor <= y.Floor;
    if x.Floor < y.Floor {
      assert RoundHalfEven(x) <= x.Floor + 1 <= y.Floor <= RoundHalfEven(y);
    }
  }

  lemma RoundTwoMonotone(x: real, y: real)
    requires x <= y
    ensures Round2(x) <= Round2(y)
  {
    HalfEvenMonotone(x * 100.0, y * 100.0);
  }

  lemma {:induction false} SumWithin(s: seq<real>, low: real, high: real)
    requires forall v :: v in s ==> low <= v <= high
    ensures Amount(low, |s|) <= SumOf(s) <= Amount(high, |s|)
  {
    if s != [] {
      var n := |s| - 1;
      assert forall v :: v in s[..n] ==> v in s;
      SumWithin(s[..n], low, high);
      AmountSum(low, n, 1);
      AmountSum(high, n, 1);
      assert Last(s) in s;
    }
  }

  lemma MeanBounds(s: seq<real>, low: real, high: real)
    requires s != [] && forall v :: v in s ==> low <= v <= high
    ensures low <= Mean(s) <= high
  {
    SumWithin(s, low, high);
    DivTimes(SumOf(s), |s| as real);
    MulCancel(low, Mean(s), |s| as real);
    MulCancel(Mean(s), high, |s| as real);
  }

  lemma OrderedParts(a: seq<real>, b: seq<real>)
    requires Ordered(Rising(), a + b)
    ensures Ordered(Rising(), a) && Ordered(Rising(), b)
    ensures forall x, y :: x in a && y in b ==> x <= y
  {
    var s := a + b;
    forall i, j | 0 <= i < j < |a| ensures Rising()(a[i], a[j]) {
      assert s[i] == a[i] && s[j] == a[j];
    }
    forall i, j | 0 <= i < j < |b| ensures Rising()(b[i], b[j]) {
      assert s[|a| + i] == b[i] && s[|a| + j] == b[j];
    }
    forall x, y | x in a && y in b ensures x <= y {
      var i :| 0 <= i < |a| && a[i] == x;
      var j :| 0 <= j < |b| && b[j] == y;
      assert Rising()(s[i], s[|a| + j]);
    }
  }

  lemma OrderedBounds(s: seq<real>)
    requires s != [] && Ordered(Rising(), s)
    ensures forall v :: v in s ==> s[0] <= v <= Last(s)
  {
    forall v | v in s ensures s[0] <= v <= Last(s) {
      var i :| 0 <= i < |s| && s[i] == v;
      assert i > 0 ==> Rising()(s[0], s[i]);
      assert i < |s| - 1 ==> Rising()(s[i], s[|s| - 1]);
    }
  }

  ghost predicate BoundedBy(values: seq<real>, bound: real) {
    forall v :: v in values ==> v <= bound
  }

  /** Means of consecutive pieces of a rising sequence rise, and so do their rounded values. */
  lemma {:induction false} LevelsRise(clusters: seq<seq<real>>, bound: real)
    requires forall i :: 0 <= i < |clusters| ==> clusters[i] != []
    requires Ordered(Rising(), Concat(clusters)) && BoundedBy(Concat(clusters), bound)
    ensures Ordered(Rising(), LevelsOf(clusters)) && BoundedBy(LevelsOf(clusters), Round2(bound))
  {
    if clusters != [] {
      var head, tail := clusters[..|clusters| - 1], Last(clusters);
      assert Concat(clusters) == Concat(head) + tail;
      OrderedParts(Concat(head), tail);
      assert tail[0] in tail && Last(tail) in Concat(clusters);
      LevelsRise(head, tail[0]);
      OrderedBounds(tail);
      MeanBounds(tail, tail[0], Last(tail));
      var level := Round2(Mean(tail));
      RoundTwoMonotone(tail[0], Mean(tail));
      RoundTwoMonotone(Mean(tail), bound);
      AppendLevel(LevelsOf(head), level);
    }
  }

  lemma AppendLevel(levels: seq<real>, level: real)
    requires Ordered(Rising(), levels) && BoundedBy(levels, level)
    ensures Ordered(Rising(), levels + [level])
  {
    var r := levels + [level];
    forall i, j | 0 <= i < j < |r| ensures Rising()(r[i], r[j]) {
      assert r[i] == levels[i] && r[i] in levels;
    }
  }
}
