/**
 * The per-column statistics of the summary: min, max, mean, median and the
 * spread of a numeric column, and the distinct-value count and the five most
 * frequent values of a categorical column.
 *
 * The spread is kept as the population variance (mean squared deviation from
 * the mean); the summary reports its square root.
 */
module Stats {
  import opened Values
  import opened Seqs

  // ---------------------------------------------------------------- numeric

  /** The column's present cells that `Number` accepts, as numbers, in row order. */
  function ParsedValues(rows: seq<Row>, column: string): (vs: seq<real>)
    ensures |vs| <= |rows|
  {
    if rows == [] then []
    else
      var v := Cell(rows[|rows| - 1], column);
      ParsedValues(rows[..|rows| - 1], column) + if !IsMissing(v) && ToNumber(v).Some? then [ToNumber(v).value] else []
  }

  /** Extraction distributes over concatenation: order is preserved. */
  lemma {:induction false} ParsedValuesAppend(a: seq<Row>, b: seq<Row>, column: string)
    ensures ParsedValues(a + b, column) == ParsedValues(a, column) + ParsedValues(b, column)
  {
    if b == [] {
      assert a + b == a;
    } else {
      var b' := b[..|b| - 1];
      assert (a + b)[..|a + b| - 1] == a + b';
      assert (a + b)[|a + b| - 1] == b[|b| - 1];
      ParsedValuesAppend(a, b', column);
      var v := Cell(b[|b| - 1], column);
      var tail := if !IsMissing(v) && ToNumber(v).Some? then [ToNumber(v).value] else [];
      assert ParsedValues(a + b, column) == ParsedValues(a + b', column) + tail;
      assert ParsedValues(b, column) == ParsedValues(b', column) + tail;
    }
  }

  /** One row contributes its number, or nothing when its cell is missing or unparseable. */
  lemma ParsedValuesSingle(row: Row, column: string)
    ensures var v := Cell(row, column);
      ParsedValues([row], column) == if !IsMissing(v) && ToNumber(v).Some? then [ToNumber(v).value] else []
  {
    assert [row][..0] == [];
  }

  predicate SortedAsc(s: seq<real>) {
    forall i, j :: 0 <= i <= j < |s| ==> s[i] <= s[j]
  }

  function InsertAsc(x: real, s: seq<real>): (r: seq<real>)
    requires SortedAsc(s)
    ensures |r| == |s| + 1
    ensures SortedAsc(r)
    ensures multiset(r) == multiset(s) + multiset{x}
  {
    if s == [] || x <= s[0] then
      ConsAsc(x, s);
      [x] + s
    else
      var t := InsertAsc(x, s[1..]);
      assert s == [s[0]] + s[1..];
      AboveFirst(s, x, t);
      ConsAsc(s[0], t);
      [s[0]] + t
  }

  lemma ConsAsc(y: real, t: seq<real>)
    requires SortedAsc(t)
    requires forall k :: 0 <= k < |t| ==> y <= t[k]
    ensures SortedAsc([y] + t)
  {
  }

  /** What goes after the head of a sorted sequence, together with a larger `x`, is not below the head. */
  lemma AboveFirst(s: seq<real>, x: real, t: seq<real>)
    requires SortedAsc(s) && |s| > 0 && s[0] < x
    requires multiset(t) == multiset(s[1..]) + multiset{x}
    ensures forall k :: 0 <= k < |t| ==> s[0] <= t[k]
  {
    forall k | 0 <= k < |t|
      ensures s[0] <= t[k]
    {
      assert t[k] in multiset(t);
      if t[k] != x {
        assert t[k] in multiset(s[1..]);
        var j :| 0 <= j < |s[1..]| && s[1..][j] == t[k];
        assert s[j + 1] == t[k];
      }
    }
  }

  /** `values.sort((a, b) => a - b)`: sorted ascending, a permutation of its input. */
  function SortAsc(s: seq<real>): (r: seq<real>)
    ensures SortedAsc(r) && multiset(r) == multiset(s)
  {
    if s == [] then []
    else
      assert s == [s[0]] + s[1..];
      InsertAsc(s[0], SortAsc(s[1..]))
  }

  datatype NumericStats = NumericStats(min: real, max: real, mean: real, median: real, variance: real)

  function SquaredDeviations(s: seq<real>, m: real): (d: seq<real>)
    ensures |d| == |s|
    ensures forall i :: 0 <= i < |s| ==> d[i] == (s[i] - m) * (s[i] - m) && d[i] >= 0.0
  {
    seq(|s|, i requires 0 <= i < |s| => (s[i] - m) * (s[i] - m))
  }

  function Mean(s: seq<real>): real
    requires s != []
  {
    SumReals(s) / |s| as real
  }

  /** The middle element, or the mean of the two middle elements when the count is even. */
  function Median(sorted: seq<real>): real
    requires sorted != []
  {
    var mid := |sorted| / 2;
    if |sorted| % 2 == 0 then (sorted[mid - 1] + sorted[mid]) / 2.0 else sorted[mid]
  }

  /** The mean squared deviation from `mean`, over the count (population variance). */
  function Variance(s: seq<real>, mean: real): real
    requires s != []
  {
    SumReals(SquaredDeviations(s, mean)) / |s| as real
  }

  /** The statistics of a numeric column (all zero when it has no values). */
  function StatsOf(values: seq<real>): NumericStats {
    if values == [] then NumericStats(0.0, 0.0, 0.0, 0.0, 0.0)
    else
      var sorted := SortAsc(values);
      assert |sorted| == |multiset(values)| == |values|;
      var n := |sorted|;
      NumericStats(sorted[0], sorted[n - 1], Mean(sorted), Median(sorted), Variance(sorted, Mean(sorted)))
  }

  lemma SortedLength(s: seq<real>)
    ensures |SortAsc(s)| == |s|
  {
    assert |multiset(SortAsc(s))| == |multiset(s)|;
  }

  /** min and max are the least and the greatest of the values. */
  lemma StatsExtremes(values: seq<real>)
    requires values != []
    ensures StatsOf(values).min in values && StatsOf(values).max in values
    ensures forall i :: 0 <= i < |values| ==> StatsOf(values).min <= values[i] <= StatsOf(values).max
  {
    var sorted := SortAsc(values);
    SortedLength(values);
    assert sorted[0] in multiset(sorted) && sorted[|sorted| - 1] in multiset(sorted);
    forall i | 0 <= i < |values|
      ensures sorted[0] <= values[i] <= sorted[|sorted| - 1]
    {
      assert values[i] in multiset(values);
      var k :| 0 <= k < |sorted| && sorted[k] == values[i];
    }
  }

  /** The median lies between min and max. */
  lemma StatsMedian(values: seq<real>)
    requires values != []
    ensures StatsOf(values).min <= StatsOf(values).median <= StatsOf(values).max
  {
    SortedLength(values);
  }

  lemma {:induction false} SumBounds(s: seq<real>, lo: real, hi: real)
    requires forall i :: 0 <= i < |s| ==> lo <= s[i] <= hi
    ensures |s| as real * lo <= SumReals(s) <= |s| as real * hi
  {
    if s != [] {
      SumBounds(s[..|s| - 1], lo, hi);
      assert |s| as real * lo == (|s| - 1) as real * lo + lo;
      assert |s| as real * hi == (|s| - 1) as real * hi + hi;
    }
  }

  lemma QuotientBounds(total: real, n: real, lo: real, hi: real)
    requires n > 0.0 && n * lo <= total <= n * hi
    ensures lo <= total / n <= hi
  {
    var q := total / n;
    assert q * n == total;
    assert n * (q - lo) >= 0.0;
    assert n * (hi - q) >= 0.0;
  }

  /** The mean lies between min and max. */
  lemma StatsMean(values: seq<real>)
    requires values != []
    ensures StatsOf(values).min <= StatsOf(values).mean <= StatsOf(values).max
  {
    var sorted := SortAsc(values);
    SortedLength(values);
    MeanBounds(sorted, sorted[0], sorted[|sorted| - 1]);
  }

  /** A mean lies within any bounds of its values. */
  lemma MeanBounds(s: seq<real>, lo: real, hi: real)
    requires s != []
    requires forall i :: 0 <= i < |s| ==> lo <= s[i] <= hi
    ensures lo <= Mean(s) <= hi
  {
    SumBounds(s, lo, hi);
    QuotientBounds(SumReals(s), |s| as real, lo, hi);
  }

  lemma {:induction false} SumNonNegative(s: seq<real>)
    requires forall i :: 0 <= i < |s| ==> s[i] >= 0.0
    ensures SumReals(s) >= 0.0
  {
    if s != [] {
      SumNonNegative(s[..|s| - 1]);
    }
  }

  /** The variance is never negative. */
  lemma StatsVarianceNonNegative(values: seq<real>)
    ensures StatsOf(values).variance >= 0.0
  {
    if values != [] {
      var sorted := SortAsc(values);
      SortedLength(values);
      VarianceNonNegative(sorted, Mean(sorted));
    }
  }

  lemma VarianceNonNegative(s: seq<real>, mean: real)
    requires s != []
    ensures Variance(s, mean) >= 0.0
  {
    var d := SquaredDeviations(s, mean);
    forall i | 0 <= i < |d| ensures d[i] >= 0.0 {
      var x := s[i] - mean;
      assert d[i] == x * x;
    }
    SumNonNegative(d);
  }

  lemma {:induction false} SumConstant(s: seq<real>, c: real)
    requires forall i :: 0 <= i < |s| ==> s[i] == c
    ensures SumReals(s) == |s| as real * c
  {
    if s != [] {
      SumConstant(s[..|s| - 1], c);
      assert |s| as real * c == (|s| - 1) as real * c + c;
    }
  }

  /** When every value is the same, mean, median, min and max are that value and the variance is 0. */
  lemma StatsConstant(values: seq<real>, c: real)
    requires values != []
    requires forall i :: 0 <= i < |values| ==> values[i] == c
    ensures StatsOf(values) == NumericStats(c, c, c, c, 0.0)
  {
    var sorted := SortAsc(values);
    SortedLength(values);
    forall k | 0 <= k < |sorted| ensures sorted[k] == c {
      assert sorted[k] in multiset(values);
      var i :| 0 <= i < |values| && values[i] == sorted[k];
    }
    ConstantMeanAndVariance(sorted, c);
  }

  lemma ConstantMeanAndVariance(s: seq<real>, c: real)
    requires s != []
    requires forall i :: 0 <= i < |s| ==> s[i] == c
    ensures Mean(s) == c && Variance(s, Mean(s)) == 0.0 && Median(s) == c
  {
    SumConstant(s, c);
    MeanOfConstant(SumReals(s), |s| as real, c);
    var d := SquaredDeviations(s, c);
    forall i | 0 <= i < |d| ensures d[i] == 0.0 {
      assert s[i] - c == 0.0;
      assert d[i] == (s[i] - c) * (s[i] - c);
    }
    SumConstant(d, 0.0);
  }

  lemma MeanOfConstant(total: real, n: real, c: real)
    requires n > 0.0 && total == n * c
    ensures total / n == c
  {
  }

  // ------------------------------------------------------------ categorical

  /** `String(v)` of the column's present cells, in row order. */
  function PresentKeys(rows: seq<Row>, column: string): (ks: seq<string>)
    ensures |ks| <= |rows|
  {
    if rows == [] then []
    else
      var v := Cell(rows[|rows| - 1], column);
      PresentKeys(rows[..|rows| - 1], column) + if IsMissing(v) then [] else [Stringify(v)]
  }

  datatype ValueCount = ValueCount(value: string, count: nat)

  datatype CategoricalStats = CategoricalStats(uniqueValues: nat, mostCommon: seq<ValueCount>)

  /** `Object.entries(valueCounts)`: each key with its number of occurrences in `all`. */
  function Entries(keys: seq<string>, all: seq<string>): (e: seq<ValueCount>)
    ensures |e| == |keys|
  {
    seq(|keys|, i requires 0 <= i < |keys| => ValueCount(keys[i], multiset(all)[keys[i]]))
  }

  predicate ByCountDesc(e: seq<ValueCount>) {
    forall i, j :: 0 <= i <= j < |e| ==> e[i].count >= e[j].count
  }

  /** Puts `x` before the first entry whose count is not above its own (keeping earlier entries first on ties). */
  function InsertByCount(x: ValueCount, e: seq<ValueCount>): (r: seq<ValueCount>)
    requires ByCountDesc(e)
    ensures |r| == |e| + 1
    ensures ByCountDesc(r)
    ensures multiset(r) == multiset(e) + multiset{x}
  {
    if e == [] || x.count >= e[0].count then
      ConsByCount(x, e);
      [x] + e
    else
      var t := InsertByCount(x, e[1..]);
      assert e == [e[0]] + e[1..];
      BelowFirst(e, x, t);
      ConsByCount(e[0], t);
      [e[0]] + t
  }

  lemma ConsByCount(y: ValueCount, t: seq<ValueCount>)
    requires ByCountDesc(t)
    requires forall k :: 0 <= k < |t| ==> y.count >= t[k].count
    ensures ByCountDesc([y] + t)
  {
  }

  /** What goes after the head of a ranked sequence, together with a rarer `x`, is not above the head. */
  lemma BelowFirst(e: seq<ValueCount>, x: ValueCount, t: seq<ValueCount>)
    requires ByCountDesc(e) && |e| > 0 && x.count < e[0].count
    requires multiset(t) == multiset(e[1..]) + multiset{x}
    ensures forall k :: 0 <= k < |t| ==> e[0].count >= t[k].count
  {
    forall k | 0 <= k < |t|
      ensures e[0].count >= t[k].count
    {
      assert t[k] in multiset(t);
      if t[k] != x {
        assert t[k] in multiset(e[1..]);
        var j :| 0 <= j < |e[1..]| && e[1..][j] == t[k];
        assert e[j + 1] == t[k];
      }
    }
  }

  /** `.sort((a, b) => b[1] - a[1])`, a stable sort by decreasing count. */
  function SortByCount(e: seq<ValueCount>): (r: seq<ValueCount>)
    ensures ByCountDesc(r) && multiset(r) == multiset(e)
  {
    if e == [] then []
    else
      assert e == [e[0]] + e[1..];
      InsertByCount(e[0], SortByCount(e[1..]))
  }

  function HasCount(c: nat): ValueCount -> bool {
    (x: ValueCount) => x.count == c
  }

  /** Inserting `x` puts it ahead of the entries with its count, and no other entry moves past an equal one. */
  lemma {:induction false} InsertByCountStable(x: ValueCount, e: seq<ValueCount>, c: nat)
    requires ByCountDesc(e)
    ensures Filter(InsertByCount(x, e), HasCount(c)) == Filter([x], HasCount(c)) + Filter(e, HasCount(c))
  {
    if e == [] || x.count >= e[0].count {
      FilterAppend([x], e, HasCount(c));
    } else {
      assert x.count < e[0].count;
      var t := InsertByCount(x, e[1..]);
      assert e == [e[0]] + e[1..];
      InsertByCountStable(x, e[1..], c);
      FilterAppend([e[0]], t, HasCount(c));
      FilterAppend([e[0]], e[1..], HasCount(c));
      FilterOne(e[0], HasCount(c));
      FilterOne(x, HasCount(c));
    }
  }

  /** The sort by count is stable: the entries with any one count keep their order in `Object.entries`. */
  lemma {:induction false} SortByCountStable(e: seq<ValueCount>, c: nat)
    ensures Filter(SortByCount(e), HasCount(c)) == Filter(e, HasCount(c))
  {
    if e != [] {
      assert e == [e[0]] + e[1..];
      SortByCountStable(e[1..], c);
      InsertByCountStable(e[0], SortByCount(e[1..]), c);
      FilterAppend([e[0]], e[1..], HasCount(c));
    }
  }

  const TopValues: nat := 5

  /** `.slice(0, 5)`. */
  function Top<T>(s: seq<T>): (t: seq<T>)
    ensures |t| == if |s| < TopValues then |s| else TopValues
    ensures forall i :: 0 <= i < |t| ==> t[i] == s[i]
  {
    s[..if |s| < TopValues then |s| else TopValues]
  }

  /** The distribution of a categorical column. */
  function CategoricalStatsOf(rows: seq<Row>, column: string): CategoricalStats {
    var all := PresentKeys(rows, column);
    var keys := Distinct(all);
    CategoricalStats(|keys|, Top(SortByCount(Entries(keys, all))))
  }

  lemma {:induction false} NoRepeatInNoDup<T>(s: seq<T>, x: T)
    requires NoDup(s)
    ensures multiset(s)[x] <= 1
  {
    if x in s {
      CountInNoDup(s, x);
    }
  }

  /** A permutation of a sequence without duplicates has none either. */
  lemma NoDupPermutation<T>(a: seq<T>, b: seq<T>)
    requires NoDup(a) && multiset(a) == multiset(b)
    ensures NoDup(b)
  {
    forall i, j | 0 <= i < j < |b| ensures b[i] != b[j] {
      if b[i] == b[j] {
        assert b == b[..j] + [b[j]] + b[j + 1..];
        assert b[i] in b[..j];
        assert multiset(b)[b[i]] >= multiset(b[..j])[b[i]] + 1 >= 2;
        NoRepeatInNoDup(a, b[i]);
        assert false;
      }
    }
  }

  /** The ranked entries: one per key, each with its key's true count, no key twice. */
  lemma RankedEntries(keys: seq<string>, all: seq<string>)
    requires NoDup(keys)
    ensures var r := SortByCount(Entries(keys, all));
      && |r| == |keys|
      && (forall i :: 0 <= i < |r| ==> r[i].value in keys && r[i].count == multiset(all)[r[i].value])
      && (forall i, j :: 0 <= i < j < |r| ==> r[i].value != r[j].value)
  {
    var e := Entries(keys, all);
    var r := SortByCount(e);
    assert |r| == |multiset(e)| == |e|;
    forall i | 0 <= i < |r|
      ensures r[i].value in keys && r[i].count == multiset(all)[r[i].value]
    {
      assert r[i] in multiset(e);
      var k :| 0 <= k < |e| && e[k] == r[i];
    }
    assert NoDup(e) by {
      forall p, q | 0 <= p < q < |e| ensures e[p] != e[q] {
        assert e[p].value == keys[p] && e[q].value == keys[q];
      }
    }
    NoDupPermutation(e, r);
  }

  /**
   * The distribution: as many unique values as distinct present keys; at most
   * five most common entries, in non-increasing count order, each with the
   * key's true count, and no key twice.
   */
  lemma CategoricalDistribution(rows: seq<Row>, column: string)
    ensures var all := PresentKeys(rows, column);
      var cs := CategoricalStatsOf(rows, column);
      && cs.uniqueValues == |set k | k in all|
      && |cs.mostCommon| == (if cs.uniqueValues < TopValues then cs.uniqueValues else TopValues)
      && ByCountDesc(cs.mostCommon)
      && (forall i :: 0 <= i < |cs.mostCommon| ==>
            cs.mostCommon[i].value in all && cs.mostCommon[i].count == multiset(all)[cs.mostCommon[i].value])
      && (forall i, j :: 0 <= i < j < |cs.mostCommon| ==> cs.mostCommon[i].value != cs.mostCommon[j].value)
  {
    var all := PresentKeys(rows, column);
    var keys := Distinct(all);
    DistinctCardinality(all);
    RankedEntries(keys, all);
    var r := SortByCount(Entries(keys, all));
    assert CategoricalStatsOf(rows, column) == CategoricalStats(|keys|, Top(r));
    TopOfRanked(r, keys, all);
  }

  /** The first five of a ranked list keep its order, its counts and its distinct values. */
  lemma TopOfRanked(r: seq<ValueCount>, keys: seq<string>, all: seq<string>)
    requires ByCountDesc(r)
    requires forall i :: 0 <= i < |keys| ==> keys[i] in all
    requires forall i :: 0 <= i < |r| ==> r[i].value in keys && r[i].count == multiset(all)[r[i].value]
    requires forall i, j :: 0 <= i < j < |r| ==> r[i].value != r[j].value
    ensures ByCountDesc(Top(r))
    ensures forall i :: 0 <= i < |Top(r)| ==> Top(r)[i].value in all && Top(r)[i].count == multiset(all)[Top(r)[i].value]
    ensures forall i, j :: 0 <= i < j < |Top(r)| ==> Top(r)[i].value != Top(r)[j].value
  {
  }

  /** A key left out of the five most common occurs at most as often as every listed one. */
  lemma MostCommonAreTop(rows: seq<Row>, column: string, k: string)
    requires k in PresentKeys(rows, column)
    requires forall i :: 0 <= i < |CategoricalStatsOf(rows, column).mostCommon| ==>
      CategoricalStatsOf(rows, column).mostCommon[i].value != k
    ensures forall i :: 0 <= i < |CategoricalStatsOf(rows, column).mostCommon| ==>
      multiset(PresentKeys(rows, column))[k] <= CategoricalStatsOf(rows, column).mostCommon[i].count
  {
    var all := PresentKeys(rows, column);
    var keys := Distinct(all);
    var j :| 0 <= j < |all| && all[j] == k;
    assert k in keys;
    assert CategoricalStatsOf(rows, column).mostCommon == Top(SortByCount(Entries(keys, all)));
    RankedLeftOut(keys, all, k);
  }

  lemma RankedLeftOut(keys: seq<string>, all: seq<string>, k: string)
    requires k in keys
    requires forall i :: 0 <= i < |Top(SortByCount(Entries(keys, all)))| ==> Top(SortByCount(Entries(keys, all)))[i].value != k
    ensures forall i :: 0 <= i < |Top(SortByCount(Entries(keys, all)))| ==>
      multiset(all)[k] <= Top(SortByCount(Entries(keys, all)))[i].count
  {
    var e := Entries(keys, all);
    var r := SortByCount(e);
    var q :| 0 <= q < |keys| && keys[q] == k;
    assert e[q] == ValueCount(k, multiset(all)[k]);
    assert e[q] in multiset(r);
    var p :| 0 <= p < |r| && r[p] == e[q];
  }
}
