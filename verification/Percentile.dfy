/** Percentiles as the call-home report computes them, over exact reals. */
module Percentile {
  import opened Wrappers

  predicate Sorted(s: seq<nat>) {
    forall i, j :: 0 <= i <= j < |s| ==> s[i] <= s[j]
  }

  // ---------------------------------------------------------------- interpolation

  function Ceiling(x: real): int {
    -((-x).Floor)
  }

  /** The value at a fractional position between two neighbours. */
  function Interpolate(lower: nat, upper: nat, pos: real): real {
    lower as real + (pos - pos.Floor as real) * (upper as real - lower as real)
  }

  /** The value at position `pos`, counted from 1, of data that is only there at whole positions. */
  function ValueAt(s: seq<nat>, pos: real): real
    requires 1.0 < pos < |s| as real
  {
    Interpolate(s[pos.Floor - 1], s[Ceiling(pos) - 1], pos)
  }

  /** Positions before the first data point count as the first, those beyond the last as the last. */
  function PercentileAt(s: seq<nat>, pos: real): real
    requires |s| > 0
  {
    if pos <= 1.0 then s[0] as real
    else if pos >= |s| as real then s[|s| - 1] as real
    else ValueAt(s, pos)
  }

  function Position(n: nat, percentile: real): real {
    (n as real + 1.0) * percentile / 100.0
  }

  function PercentileExclusive(s: seq<nat>, percentile: real): Option<real> {
    if |s| == 0 then None
    else if |s| == 1 then Some(s[0] as real)
    else Some(PercentileAt(s, Position(|s|, percentile)))
  }

  // ---------------------------------------------------------------- bounds and monotonicity

  lemma {:induction false} ScaledBetween(f: real, d: real)
    requires 0.0 <= f <= 1.0 && 0.0 <= d
    ensures 0.0 <= f * d <= d
  {
    assert f * d <= 1.0 * d;
  }

  lemma {:induction false} ScaledMonotone(f: real, g: real, d: real)
    requires f <= g && 0.0 <= d
    ensures f * d <= g * d
  {
  }

  lemma {:induction false} CeilingOf(p: real)
    ensures Ceiling(p) == if p == p.Floor as real then p.Floor else p.Floor + 1
  {
  }

  /** An interpolated value lies between its two neighbours. */
  lemma {:induction false} ValueBetweenNeighbours(s: seq<nat>, pos: real)
    requires Sorted(s) && 1.0 < pos < |s| as real
    ensures s[pos.Floor - 1] as real <= ValueAt(s, pos) <= s[Ceiling(pos) - 1] as real
  {
    CeilingOf(pos);
    var lower, upper := s[pos.Floor - 1], s[Ceiling(pos) - 1];
    assert lower <= upper;
    ScaledBetween(pos - pos.Floor as real, upper as real - lower as real);
  }

  /** Between two neighbours the value grows with the position. */
  lemma {:induction false} InterpolateMonotone(lower: nat, upper: nat, p: real, q: real)
    requires lower <= upper && p <= q && p.Floor == q.Floor
    ensures Interpolate(lower, upper, p) <= Interpolate(lower, upper, q)
  {
    ScaledMonotone(p - p.Floor as real, q - q.Floor as real, upper as real - lower as real);
  }

  /** Two positions that are not between the same neighbours. */
  lemma {:induction false} CeilingBelowFloor(p: real, q: real)
    requires p <= q && p.Floor != q.Floor
    ensures Ceiling(p) <= q.Floor
  {
    assert p.Floor + 1 <= q.Floor;
    assert -p >= -(p.Floor as real) - 1.0;
  }

  lemma {:induction false} ValueAtMonotone(s: seq<nat>, p: real, q: real)
    requires Sorted(s) && 1.0 < p <= q < |s| as real
    ensures ValueAt(s, p) <= ValueAt(s, q)
  {
    CeilingOf(p);
    CeilingOf(q);
    if p.Floor != q.Floor {
      ValueBetweenNeighbours(s, p);
      ValueBetweenNeighbours(s, q);
      CeilingBelowFloor(p, q);
    } else if p == p.Floor as real {
      assert ValueAt(s, p) == s[q.Floor - 1] as real;
      ValueBetweenNeighbours(s, q);
    } else {
      InterpolateMonotone(s[q.Floor - 1], s[Ceiling(q) - 1], p, q);
    }
  }

  /** Any percentile, at any position, stays between the first and the last value. */
  lemma {:induction false} PercentileAtBounded(s: seq<nat>, pos: real)
    requires Sorted(s) && |s| > 0
    ensures s[0] as real <= PercentileAt(s, pos) <= s[|s| - 1] as real
  {
    if 1.0 < pos < |s| as real {
      ValueBetweenNeighbours(s, pos);
    }
  }

  lemma {:induction false} PercentileAtMonotone(s: seq<nat>, p: real, q: real)
    requires Sorted(s) && |s| > 0 && p <= q
    ensures PercentileAt(s, p) <= PercentileAt(s, q)
  {
    PercentileAtBounded(s, p);
    PercentileAtBounded(s, q);
    if 1.0 < p && q < |s| as real {
      ValueAtMonotone(s, p, q);
    }
  }

  lemma {:induction false} PositionMonotone(n: nat, a: real, b: real)
    requires a <= b
    ensures Position(n, a) <= Position(n, b)
  {
    assert (n as real + 1.0) * a <= (n as real + 1.0) * b;
  }

  /** For sorted data, the percentile is defined, stays within the data, and grows with the percentage. */
  lemma {:induction false} PercentileLaws(s: seq<nat>, a: real, b: real)
    requires Sorted(s) && |s| > 0 && a <= b
    ensures PercentileExclusive(s, a).Some? && PercentileExclusive(s, b).Some?
    ensures s[0] as real <= PercentileExclusive(s, a).value <= PercentileExclusive(s, b).value <= s[|s| - 1] as real
  {
    if |s| > 1 {
      PositionMonotone(|s|, a, b);
      PercentileAtBounded(s, Position(|s|, a));
      PercentileAtBounded(s, Position(|s|, b));
      PercentileAtMonotone(s, Position(|s|, a), Position(|s|, b));
    }
  }

  /** Where the position is a whole number within the data, the percentile is that data point. */
  lemma {:induction false} PercentileOfWholePosition(s: seq<nat>, k: nat)
    requires 1 <= k <= |s|
    ensures PercentileAt(s, k as real) == s[k - 1] as real
  {
    if 1 < k < |s| {
      assert (k as real).Floor == k && Ceiling(k as real) == k;
    }
  }

  /** Data that grows by the same step from one point to the next. */
  predicate EvenlySpaced(s: seq<nat>, first: nat, step: nat) {
    forall i :: 0 <= i < |s| ==> s[i] == first + step * i
  }

  lemma {:induction false} StepsAsReals(step: nat, k: int)
    requires k >= 0
    ensures (step * k) as real == step as real * k as real
  {
  }

  /** Between two neighbours that are one step apart. */
  lemma {:induction false} LineBetween(lower: nat, upper: nat, first: real, step: real, pos: real)
    requires lower as real == first + step * (pos.Floor as real - 1.0)
    requires upper as real - lower as real == step || pos == pos.Floor as real
    ensures Interpolate(lower, upper, pos) == first + step * (pos - 1.0)
  {
    var f := pos - pos.Floor as real;
    var d := upper as real - lower as real;
    assert f * d == f * step;
    assert step * (pos.Floor as real - 1.0) + f * step == step * (pos - 1.0);
  }

  lemma {:induction false} EvenlySpacedAt(s: seq<nat>, first: nat, step: nat, i: nat, x: real)
    requires EvenlySpaced(s, first, step) && i < |s| && x == i as real
    ensures s[i] as real == first as real + step as real * x
  {
    StepsAsReals(step, i);
  }

  lemma {:induction false} NeighboursDiffer(s: seq<nat>, first: nat, step: nat, i: nat)
    requires EvenlySpaced(s, first, step) && i + 1 < |s|
    ensures s[i + 1] as real - s[i] as real == step as real
  {
    assert step * (i + 1) == step * i + step;
  }

  /** On evenly spaced data the percentile lies on the straight line through the data, at any position within. */
  lemma {:induction false} PercentileIsLinear(s: seq<nat>, first: nat, step: nat, pos: real)
    requires EvenlySpaced(s, first, step) && 1.0 <= pos <= |s| as real
    ensures PercentileAt(s, pos) == first as real + step as real * (pos - 1.0)
  {
    if pos == 1.0 {
      EvenlySpacedAt(s, first, step, 0, pos - 1.0);
    } else if pos == |s| as real {
      EvenlySpacedAt(s, first, step, |s| - 1, pos - 1.0);
    } else {
      InnerPositionIsLinear(s, first, step, pos);
    }
  }

  lemma {:induction false} InnerPositionIsLinear(s: seq<nat>, first: nat, step: nat, pos: real)
    requires EvenlySpaced(s, first, step) && 1.0 < pos < |s| as real
    ensures ValueAt(s, pos) == first as real + step as real * (pos - 1.0)
  {
    var k := pos.Floor - 1;
    CeilingOf(pos);
    EvenlySpacedAt(s, first, step, k, pos.Floor as real - 1.0);
    if pos != pos.Floor as real {
      NeighboursDiffer(s, first, step, k);
    }
    LineBetween(s[k], s[Ceiling(pos) - 1], first as real, step as real, pos);
  }

  // ---------------------------------------------------------------- which position a percentage stands for

  lemma {:induction false} PositionOf(n: nat, p: real, pos: real)
    requires 100.0 * pos == (n as real + 1.0) * p
    ensures Position(n, p) == pos
  {
  }

  /**
    The p-th percentile of n values is the value at position (n + 1) p / 100, counted from 1:
    the first or the last value if that lies outside, and on the line between its two
    neighbours otherwise.
   */
  lemma {:induction false} PercentileInterpolates(s: seq<nat>, p: real, pos: real)
    requires |s| >= 2 && 100.0 * pos == (|s| as real + 1.0) * p
    ensures pos <= 1.0 ==> PercentileExclusive(s, p) == Some(s[0] as real)
    ensures pos >= |s| as real ==> PercentileExclusive(s, p) == Some(s[|s| - 1] as real)
    ensures forall k :: 1 <= k < |s| && k as real <= pos < k as real + 1.0 ==>
              PercentileExclusive(s, p) == Some(s[k - 1] as real + (pos - k as real) * (s[k] as real - s[k - 1] as real))
  {
    PositionOf(|s|, p, pos);
    forall k | 1 <= k < |s| && k as real <= pos < k as real + 1.0
      ensures PercentileAt(s, pos) == s[k - 1] as real + (pos - k as real) * (s[k] as real - s[k - 1] as real)
    {
      InterpolatesBetween(s, pos, k);
    }
  }

  lemma {:induction false} InterpolatesBetween(s: seq<nat>, pos: real, k: int)
    requires 1 <= k < |s| && k as real <= pos < k as real + 1.0
    ensures PercentileAt(s, pos) == s[k - 1] as real + (pos - k as real) * (s[k] as real - s[k - 1] as real)
  {
    assert pos.Floor == k;
    CeilingOf(pos);
    if pos == k as real {
      PercentileOfWholePosition(s, k);
      assert (pos - k as real) * (s[k] as real - s[k - 1] as real) == 0.0;
    }
  }

  /** Where the position is a whole number within the data, the percentile is that data point. */
  lemma {:induction false} PercentileOfWholeRank(s: seq<nat>, p: real, k: nat)
    requires |s| >= 2 && 1 <= k <= |s| && (|s| as real + 1.0) * p == 100.0 * k as real
    ensures PercentileExclusive(s, p) == Some(s[k - 1] as real)
  {
    PositionOf(|s|, p, k as real);
    PercentileOfWholePosition(s, k);
  }

  /** On evenly spaced data the percentile grows in proportion to the percentage. */
  lemma {:induction false} PercentileOfEvenData(s: seq<nat>, first: nat, step: nat, p: real, pos: real)
    requires |s| >= 2 && EvenlySpaced(s, first, step)
    requires 100.0 * pos == (|s| as real + 1.0) * p && 1.0 <= pos <= |s| as real
    ensures PercentileExclusive(s, p) == Some(first as real + step as real * (pos - 1.0))
  {
    PositionOf(|s|, p, pos);
    PercentileIsLinear(s, first, step, pos);
  }

  // ---------------------------------------------------------------- the reported percentiles

  function Insert(x: nat, s: seq<nat>): seq<nat> {
    if s == [] || x <= s[0] then [x] + s else [s[0]] + Insert(x, s[1..])
  }

  function Sort(s: seq<nat>): seq<nat> {
    if s == [] then [] else Insert(s[0], Sort(s[1..]))
  }

  lemma {:induction false} SortedCons(x: nat, s: seq<nat>)
    requires Sorted(s) && forall y :: y in s ==> x <= y
    ensures Sorted([x] + s)
  {
    assert forall i :: 0 <= i < |s| ==> s[i] in s;
  }

  lemma {:induction false} InsertKeepsValues(x: nat, s: seq<nat>)
    ensures multiset(Insert(x, s)) == multiset(s) + multiset{x}
  {
    if s != [] && x > s[0] {
      InsertKeepsValues(x, s[1..]);
      assert s == [s[0]] + s[1..];
    }
  }

  lemma {:induction false} InsertSorts(x: nat, s: seq<nat>)
    requires Sorted(s)
    ensures Sorted(Insert(x, s))
  {
    if s == [] || x <= s[0] {
      SortedCons(x, s);
    } else {
      var rest := Insert(x, s[1..]);
      InsertSorts(x, s[1..]);
      InsertKeepsValues(x, s[1..]);
      forall y | y in rest ensures s[0] <= y {
        assert y in multiset(rest);
        assert y == x || y in s[1..];
      }
      SortedCons(s[0], rest);
    }
  }

  lemma {:induction false} SortSorts(s: seq<nat>)
    ensures Sorted(Sort(s)) && multiset(Sort(s)) == multiset(s) && |Sort(s)| == |s|
  {
    if s != [] {
      SortSorts(s[1..]);
      InsertSorts(s[0], Sort(s[1..]));
      InsertKeepsValues(s[0], Sort(s[1..]));
      assert s == [s[0]] + s[1..];
    }
    assert |multiset(Sort(s))| == |multiset(s)|;
  }

  lemma {:induction false} FirstIsLeast(s: seq<nat>, x: nat)
    requires Sorted(s) && x in multiset(s)
    ensures s != [] && s[0] <= x
  {
    var i :| 0 <= i < |s| && s[i] == x;
  }

  lemma {:induction false} DropFirst(s: seq<nat>)
    requires s != []
    ensures multiset(s[1..]) == multiset(s) - multiset{s[0]}
  {
    assert s == [s[0]] + s[1..];
  }

  lemma {:induction false} SameFirst(a: seq<nat>, b: seq<nat>)
    requires Sorted(a) && Sorted(b) && multiset(a) == multiset(b) && a != []
    ensures b != [] && a[0] == b[0]
  {
    assert a[0] in multiset(a);
    FirstIsLeast(b, a[0]);
    assert b[0] in multiset(b);
    FirstIsLeast(a, b[0]);
  }

  lemma {:induction false} SortedTail(s: seq<nat>, tail: seq<nat>)
    requires Sorted(s) && s != [] && tail == s[1..]
    ensures Sorted(tail) && multiset(tail) == multiset(s) - multiset{s[0]} && s == [s[0]] + tail
  {
    DropFirst(s);
  }

  /** There is only one way to sort a collection of numbers. */
  lemma {:induction false} SortedIsUnique(a: seq<nat>, b: seq<nat>)
    requires Sorted(a) && Sorted(b) && multiset(a) == multiset(b)
    ensures a == b
    decreases |a|
  {
    if a == [] {
      assert |multiset(b)| == 0;
    } else {
      var a', b' := a[1..], b[1..];
      SameFirst(a, b);
      SortedTail(a, a');
      SortedTail(b, b');
      SortedIsUnique(a', b');
    }
  }

  /** Rounds half away from zero, for values that are not negative. */
  function Round(x: real): int {
    (x + 0.5).Floor
  }

  function GetPercentile(values: seq<nat>, percentile: nat): int {
    var p := PercentileExclusive(Sort(values), percentile as real);
    if p.Some? then Round(p.value) else 0
  }

  datatype Percentiles = Percentiles(p50: int, p75: int, p90: int)

  function NewPercentiles(values: seq<nat>): Percentiles {
    Percentiles(GetPercentile(values, 50), GetPercentile(values, 75), GetPercentile(values, 90))
  }

  /** Rounding goes to the nearest whole number, and upwards from the middle. */
  lemma {:induction false} RoundIsNearest(x: real)
    ensures x - 0.5 < Round(x) as real <= x + 0.5
  {
  }

  lemma {:induction false} SortedStaysSorted(s: seq<nat>)
    requires Sorted(s)
    ensures Sort(s) == s
  {
    SortSorts(s);
    SortedIsUnique(Sort(s), s);
  }

  lemma {:induction false} ReportedRank(s: seq<nat>, percentile: nat, k: nat)
    requires Sorted(s) && |s| >= 2 && 1 <= k <= |s| && (|s| + 1) * percentile == 100 * k
    ensures GetPercentile(s, percentile) == s[k - 1]
  {
    SortedStaysSorted(s);
    assert ((|s| + 1) * percentile) as real == (|s| as real + 1.0) * percentile as real;
    PercentileOfWholeRank(s, percentile as real, k);
    RoundWhole(s[k - 1]);
  }

  lemma {:induction false} ReportedLast(s: seq<nat>, percentile: nat)
    requires Sorted(s) && |s| >= 2 && (|s| + 1) * percentile >= 100 * |s|
    ensures GetPercentile(s, percentile) == s[|s| - 1]
  {
    SortedStaysSorted(s);
    var pos := (|s| as real + 1.0) * percentile as real / 100.0;
    assert ((|s| + 1) * percentile) as real == (|s| as real + 1.0) * percentile as real;
    PercentileInterpolates(s, percentile as real, pos);
    RoundWhole(s[|s| - 1]);
  }

  /** Of seven values the report has the 4th, the 6th and the last. */
  lemma {:induction false} PercentilesOfSeven(s: seq<nat>)
    requires Sorted(s) && |s| == 7
    ensures NewPercentiles(s) == Percentiles(s[3], s[5], s[6])
  {
    ReportedRank(s, 50, 4);
    ReportedRank(s, 75, 6);
    ReportedLast(s, 90);
  }

  lemma {:induction false} RoundMonotone(x: real, y: real)
    requires x <= y
    ensures Round(x) <= Round(y)
  {
  }

  lemma {:induction false} RoundWhole(n: nat)
    ensures Round(n as real) == n
  {
  }

  lemma {:induction false} SortedStaysWithin(values: seq<nat>, low: nat, high: nat)
    requires forall v :: v in values ==> low <= v <= high
    ensures forall i :: 0 <= i < |Sort(values)| ==> low <= Sort(values)[i] <= high
  {
    SortSorts(values);
    var s := Sort(values);
    forall i | 0 <= i < |s| ensures low <= s[i] <= high {
      assert s[i] in multiset(s);
      assert s[i] in values;
    }
  }

  lemma {:induction false} PercentileRounded(values: seq<nat>, a: nat, b: nat, low: nat, high: nat)
    requires values != [] && a <= b && forall v :: v in values ==> low <= v <= high
    ensures low <= GetPercentile(values, a) <= GetPercentile(values, b) <= high
  {
    var s := Sort(values);
    SortSorts(values);
    SortedStaysWithin(values, low, high);
    PercentileLaws(s, a as real, b as real);
    var p, q := PercentileExclusive(s, a as real).value, PercentileExclusive(s, b as real).value;
    RoundMonotone(s[0] as real, p);
    RoundMonotone(p, q);
    RoundMonotone(q, s[|s| - 1] as real);
    RoundWhole(s[0]);
    RoundWhole(s[|s| - 1]);
  }

  /** The reported values are ordered and stay between the least and the greatest value, rounded as they are. */
  lemma {:induction false} ReportedPercentilesAreOrdered(values: seq<nat>, low: nat, high: nat)
    requires values != [] && forall v :: v in values ==> low <= v <= high
    ensures var r := NewPercentiles(values); low <= r.p50 <= r.p75 <= r.p90 <= high
  {
    PercentileRounded(values, 50, 75, low, high);
    PercentileRounded(values, 75, 90, low, high);
  }

  /** The reported values do not depend on the order of the input. */
  lemma {:induction false} ReportedPercentilesIgnoreOrder(a: seq<nat>, b: seq<nat>)
    requires multiset(a) == multiset(b)
    ensures NewPercentiles(a) == NewPercentiles(b)
  {
    SortSorts(a);
    SortSorts(b);
    SortedIsUnique(Sort(a), Sort(b));
  }

  /** A percentile is missing only without data, which the report shows as 0. */
  lemma {:induction false} NoDataNoPercentiles(s: seq<nat>, p: real)
    ensures PercentileExclusive(s, p) == None <==> s == []
    ensures NewPercentiles([]) == Percentiles(0, 0, 0)
  {
  }
}
