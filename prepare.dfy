/**
 * `prepareChartData`: the rows are filtered, then shaped by the chart
 * specification into table rows, histogram values, a grouped and aggregated
 * series, scatter points, a pie fallback counting the first column, or an
 * empty "No data" series. `ChartDataOf` states the result declaratively;
 * `PrepareChartData` computes it with the dictionary-building loops.
 */
module Prepare {
  import opened Values
  import opened Seqs
  import opened Types
  import opened Colors
  import opened Stats

  const TableRowLimit: nat := 100

  // ---------------------------------------------------------------- filters

  /** One filter predicate on a row. */
  predicate Passes(row: Row, filter: ChartFilter) {
    var value := Cell(row, filter.column);
    match filter.operation
    case EqualsOp => value == filter.value
    case NotEqualsOp => value != filter.value
    case GreaterThanOp =>
      var a, b := ToNumber(value), ToNumber(filter.value);
      a.Some? && b.Some? && a.value > b.value
    case LessThanOp =>
      var a, b := ToNumber(value), ToNumber(filter.value);
      a.Some? && b.Some? && a.value < b.value
    case ContainsOp => Includes(ToLower(Stringify(value)), ToLower(Stringify(filter.value)))
    case Other(_) => true
  }

  /** `filters.every(...)`. */
  predicate PassesAll(row: Row, filters: seq<ChartFilter>) {
    forall i :: 0 <= i < |filters| ==> Passes(row, filters[i])
  }

  function Keeps(filters: seq<ChartFilter>): Row -> bool {
    row => PassesAll(row, filters)
  }

  /** The filtering step: applied only when the list of filters is not empty. */
  function ApplyFilters(rows: seq<Row>, filters: seq<ChartFilter>): seq<Row> {
    if |filters| > 0 then Filter(rows, Keeps(filters)) else rows
  }

  /** The kept rows are exactly the rows that satisfy every filter, and a longer input keeps its order. */
  lemma FilteringKeepsExactly(rows: seq<Row>, more: seq<Row>, filters: seq<ChartFilter>)
    ensures forall r :: r in ApplyFilters(rows, filters) <==> r in rows && PassesAll(r, filters)
    ensures forall i :: 0 <= i < |ApplyFilters(rows, filters)| ==> PassesAll(ApplyFilters(rows, filters)[i], filters)
    ensures ApplyFilters(rows + more, filters) == ApplyFilters(rows, filters) + ApplyFilters(more, filters)
  {
    FilterMembers(rows, Keeps(filters));
    FilterAll(rows, Keeps(filters));
    FilterAppend(rows, more, Keeps(filters));
  }

  /** Skipping the step for an empty list changes nothing: no filter means every row passes. */
  lemma NoFiltersKeepAll(rows: seq<Row>)
    ensures Filter(rows, Keeps([])) == rows
    ensures ApplyFilters(rows, []) == rows
  {
    FilterAll(rows, Keeps([]));
  }

  /** An operation the transformer does not know lets every row through. */
  lemma UnknownOperationPasses(row: Row, column: string, name: string, value: Value)
    ensures Passes(row, ChartFilter(column, Other(name), value))
  {
  }

  /** `contains` does not see the case of its needle: needles equal once lowered pass the same rows. */
  lemma ContainsIgnoresCase(row: Row, column: string, n: string, m: string)
    requires ToLower(n) == ToLower(m)
    ensures Passes(row, ChartFilter(column, ContainsOp, Str(n))) == Passes(row, ChartFilter(column, ContainsOp, Str(m)))
    ensures Passes(row, ChartFilter(column, ContainsOp, Str(n))) == Passes(row, ChartFilter(column, ContainsOp, Str(ToLower(n))))
  {
    ToLowerIdempotent(n);
  }

  /** `name contains "ALI"` keeps a row whose name is `"Alice"`. */
  lemma AliceContainsAli()
    ensures Passes([Field("name", Str("Alice"))], ChartFilter("name", ContainsOp, Str("ALI")))
  {
    assert Cell([Field("name", Str("Alice"))], "name") == Str("Alice");
    assert ToLower("Alice") == "alice";
    assert ToLower("ALI") == "ali";
    assert "alice"[..3] == "ali";
  }

  function AgeRow(age: real): Row {
    [Field("age", Num(age))]
  }

  /** `age greaterThan 30` over ages 25, 35, 40 keeps the last two rows. */
  lemma AgeAboveThirty()
    ensures ApplyFilters([AgeRow(25.0), AgeRow(35.0), AgeRow(40.0)], [ChartFilter("age", GreaterThanOp, Num(30.0))])
      == [AgeRow(35.0), AgeRow(40.0)]
  {
    var rows := [AgeRow(25.0), AgeRow(35.0), AgeRow(40.0)];
    var f := ChartFilter("age", GreaterThanOp, Num(30.0));
    var p := Keeps([f]);
    assert Cell(rows[0], "age") == Num(25.0) && Cell(rows[1], "age") == Num(35.0) && Cell(rows[2], "age") == Num(40.0);
    assert !Passes(rows[0], f) && Passes(rows[1], f) && Passes(rows[2], f);
    assert [f][0] == f;
    assert !PassesAll(rows[0], [f]);
    assert PassesAll(rows[1], [f]) && PassesAll(rows[2], [f]);
    assert p(rows[0]) == PassesAll(rows[0], [f]) && p(rows[1]) == PassesAll(rows[1], [f]) && p(rows[2]) == PassesAll(rows[2], [f]);
    assert rows[..2][..1] == [rows[0]] && rows[..2] == rows[..1] + [rows[1]];
    assert Filter(rows[..1], p) == [];
    assert Filter(rows[..2], p) == [rows[1]];
    assert rows[..2] == rows[..|rows| - 1];
  }

  // -------------------------------------------------------------- grouping

  /** Each row's grouping key, in row order. */
  function GroupKeys(rows: seq<Row>, keyOf: Row -> string): (ks: seq<string>)
    ensures |ks| == |rows|
  {
    if rows == [] then [] else GroupKeys(rows[..|rows| - 1], keyOf) + [keyOf(rows[|rows| - 1])]
  }

  /** The `i`-th key is the key of the `i`-th row. */
  lemma {:induction false} GroupKeysAt(rows: seq<Row>, keyOf: Row -> string)
    ensures forall i :: 0 <= i < |rows| ==> GroupKeys(rows, keyOf)[i] == keyOf(rows[i])
  {
    if rows != [] {
      var init := rows[..|rows| - 1];
      GroupKeysAt(init, keyOf);
      assert forall i :: 0 <= i < |init| ==> rows[i] == init[i];
    }
  }

  /** `String(row[column])`, the key both grouping loops and the pie count use. */
  function ColumnKey(column: string): Row -> string {
    row => Stringify(Cell(row, column))
  }

  function HasKey(keyOf: Row -> string, key: string): Row -> bool {
    row => keyOf(row) == key
  }

  /** The rows whose key is `key`, in row order. */
  function GroupOf(rows: seq<Row>, keyOf: Row -> string, key: string): seq<Row> {
    Filter(rows, HasKey(keyOf, key))
  }

  /** `Number(row[column]) || 0` for every row. */
  function ColumnNumbers(rows: seq<Row>, column: string): (ns: seq<real>)
    ensures |ns| == |rows|
    ensures forall i :: 0 <= i < |rows| ==> ns[i] == NumOrZero(Cell(rows[i], column))
  {
    seq(|rows|, i requires 0 <= i < |rows| => NumOrZero(Cell(rows[i], column)))
  }

  /** A group has as many rows as its key occurs among the row keys. */
  lemma {:induction false} GroupSize(rows: seq<Row>, keyOf: Row -> string, key: string)
    ensures |GroupOf(rows, keyOf, key)| == multiset(GroupKeys(rows, keyOf))[key]
  {
    if rows != [] {
      var init := rows[..|rows| - 1];
      GroupSize(init, keyOf, key);
      assert GroupKeys(rows, keyOf) == GroupKeys(init, keyOf) + [keyOf(rows[|rows| - 1])];
    }
  }

  /** `groupedData` after grouping `rows`: its keys in insertion order, and each key's rows. */
  ghost predicate Grouped(labels: seq<string>, groups: map<string, seq<Row>>, rows: seq<Row>, keyOf: Row -> string) {
    && labels == Distinct(GroupKeys(rows, keyOf))
    && (forall k :: k in groups <==> k in labels)
    && (forall k :: k in groups ==> groups[k] == GroupOf(rows, keyOf, k))
  }

  /** Appending a row appends its key. */
  lemma GroupKeysStep(rows: seq<Row>, row: Row, keyOf: Row -> string)
    ensures GroupKeys(rows + [row], keyOf) == GroupKeys(rows, keyOf) + [keyOf(row)]
  {
    assert (rows + [row])[..|rows|] == rows;
  }

  lemma GroupKeysPrefix(rows: seq<Row>, i: nat, keyOf: Row -> string)
    requires i < |rows|
    ensures GroupKeys(rows[..i + 1], keyOf) == GroupKeys(rows[..i], keyOf) + [keyOf(rows[i])]
  {
    assert rows[..i + 1] == rows[..i] + [rows[i]];
    GroupKeysStep(rows[..i], rows[i], keyOf);
  }

  /** Appending a row adds it to the group of its own key and to no other. */
  lemma GroupOfStep(rows: seq<Row>, row: Row, keyOf: Row -> string, key: string)
    ensures GroupOf(rows + [row], keyOf, key)
      == GroupOf(rows, keyOf, key) + if key == keyOf(row) then [row] else []
  {
    assert (rows + [row])[..|rows|] == rows;
  }

  /** `if (!groupedData[key]) groupedData[key] = []; groupedData[key].push(row)`. */
  method AddToGroup(labels: seq<string>, groups: map<string, seq<Row>>, row: Row, keyOf: Row -> string, ghost rows: seq<Row>)
    returns (labels': seq<string>, groups': map<string, seq<Row>>)
    requires Grouped(labels, groups, rows, keyOf)
    ensures Grouped(labels', groups', rows + [row], keyOf)
  {
    var key := keyOf(row);
    var group := if key in groups then groups[key] else [];
    groups' := groups[key := group + [row]];
    labels' := if key in labels then labels else labels + [key];
    LabelsStep(labels, rows, row, keyOf);
    GroupsStep(labels, groups, rows, row, keyOf);
  }

  /** The keys of the dictionary grow by the row's key when it is new. */
  lemma LabelsStep(labels: seq<string>, rows: seq<Row>, row: Row, keyOf: Row -> string)
    requires labels == Distinct(GroupKeys(rows, keyOf))
    ensures (if keyOf(row) in labels then labels else labels + [keyOf(row)]) == Distinct(GroupKeys(rows + [row], keyOf))
  {
    GroupKeysStep(rows, row, keyOf);
    DistinctSnoc(GroupKeys(rows, keyOf), keyOf(row));
  }

  /** The row is pushed onto its key's group, which starts empty for a new key. */
  lemma GroupsStep(labels: seq<string>, groups: map<string, seq<Row>>, rows: seq<Row>, row: Row, keyOf: Row -> string)
    requires Grouped(labels, groups, rows, keyOf)
    ensures var key := keyOf(row);
      var groups' := groups[key := (if key in groups then groups[key] else []) + [row]];
      forall k :: k in groups' ==> groups'[k] == GroupOf(rows + [row], keyOf, k)
  {
    var key := keyOf(row);
    if key !in groups {
      GroupSize(rows, keyOf, key);
    }
    var groups' := groups[key := (if key in groups then groups[key] else []) + [row]];
    forall k | k in groups'
      ensures groups'[k] == GroupOf(rows + [row], keyOf, k)
    {
      GroupOfStep(rows, row, keyOf, k);
    }
  }

  /** The grouping loop over the filtered rows. */
  method GroupRows(rows: seq<Row>, keyOf: Row -> string) returns (labels: seq<string>, groups: map<string, seq<Row>>)
    ensures Grouped(labels, groups, rows, keyOf)
  {
    labels, groups := [], map[];
    for i := 0 to |rows|
      invariant Grouped(labels, groups, rows[..i], keyOf)
    {
      assert rows[..i] + [rows[i]] == rows[..i + 1];
      labels, groups := AddToGroup(labels, groups, rows[i], keyOf, rows[..i]);
    }
    assert rows[..|rows|] == rows;
  }

  // ----------------------------------------------------------- aggregation

  function MinOf(s: seq<real>): (m: real)
    requires |s| > 0
    ensures m in s && forall i :: 0 <= i < |s| ==> m <= s[i]
  {
    if |s| == 1 then s[0]
    else
      var rest := MinOf(s[..|s| - 1]);
      assert s[..|s| - 1][|s| - 2] == s[|s| - 2];
      if s[|s| - 1] < rest then s[|s| - 1] else rest
  }

  function MaxOf(s: seq<real>): (m: real)
    requires |s| > 0
    ensures m in s && forall i :: 0 <= i < |s| ==> s[i] <= m
  {
    if |s| == 1 then s[0]
    else
      var rest := MaxOf(s[..|s| - 1]);
      assert s[..|s| - 1][|s| - 2] == s[|s| - 2];
      if s[|s| - 1] > rest then s[|s| - 1] else rest
  }

  /** One aggregate over the numbers of a non-empty group. */
  function Aggregate(fn: AggFunction, values: seq<real>): real
    requires |values| > 0
  {
    match fn
    case SumAgg => SumReals(values)
    case AverageAgg => SumReals(values) / |values| as real
    case CountAgg => |values| as real
    case MinAgg => MinOf(values)
    case MaxAgg => MaxOf(values)
  }

  /** Minimum, average and maximum of a group are ordered. */
  lemma AggregateBounds(values: seq<real>)
    requires |values| > 0
    ensures Aggregate(MinAgg, values) <= Aggregate(AverageAgg, values) <= Aggregate(MaxAgg, values)
    ensures Aggregate(MinAgg, values) in values && Aggregate(MaxAgg, values) in values
  {
    MeanBounds(values, MinOf(values), MaxOf(values));
  }

  /** A missing cell counts as 0, so a group of a missing value and 5 has minimum 0. */
  lemma MissingCountsAsZeroInMin()
    ensures Aggregate(MinAgg, ColumnNumbers([[Field("v", Null)], [Field("v", Num(5.0))]], "v")) == 0.0
    ensures Aggregate(MinAgg, ColumnNumbers([[], [Field("v", Num(5.0))]], "v")) == 0.0
  {
  }

  /** One group's aggregate over its `valueColumn` numbers. */
  function GroupAggregate(group: seq<Row>, fn: AggFunction, valueColumn: string): real
    requires |group| > 0
  {
    Aggregate(fn, ColumnNumbers(group, valueColumn))
  }

  /** The aggregate of each label's group, label by label. */
  function GroupValues(rows: seq<Row>, keyOf: Row -> string, labels: seq<string>, fn: AggFunction, valueColumn: string): (vs: seq<real>)
    requires forall i :: 0 <= i < |labels| ==> |GroupOf(rows, keyOf, labels[i])| > 0
    ensures |vs| == |labels|
  {
    seq(|labels|, i requires 0 <= i < |labels| => GroupAggregate(GroupOf(rows, keyOf, labels[i]), fn, valueColumn))
  }

  /** Every label names a non-empty group. */
  lemma LabelsHaveRows(rows: seq<Row>, keyOf: Row -> string)
    ensures forall i :: 0 <= i < |Distinct(GroupKeys(rows, keyOf))| ==>
      |GroupOf(rows, keyOf, Distinct(GroupKeys(rows, keyOf))[i])| > 0
  {
    var keys := GroupKeys(rows, keyOf);
    var labels := Distinct(keys);
    forall i | 0 <= i < |labels|
      ensures |GroupOf(rows, keyOf, labels[i])| > 0
    {
      GroupSize(rows, keyOf, labels[i]);
      assert labels[i] in multiset(keys);
    }
  }

  /** `Object.entries(groupedData).forEach(...)`: one aggregate per group, in label order. */
  method AggregateGroups(groups: map<string, seq<Row>>, labels: seq<string>, fn: AggFunction, valueColumn: string,
                         ghost rows: seq<Row>, ghost keyOf: Row -> string)
    returns (values: seq<real>)
    requires Grouped(labels, groups, rows, keyOf)
    ensures forall i :: 0 <= i < |labels| ==> |GroupOf(rows, keyOf, labels[i])| > 0
    ensures values == GroupValues(rows, keyOf, labels, fn, valueColumn)
  {
    GroupLookup(labels, groups, rows, keyOf);
    values := AggregateEach(groups, labels, fn, valueColumn);
  }

  /** The `forEach` loop itself: one aggregate per label, read from the dictionary. */
  method AggregateEach(groups: map<string, seq<Row>>, labels: seq<string>, fn: AggFunction, valueColumn: string)
    returns (values: seq<real>)
    requires forall i :: 0 <= i < |labels| ==> labels[i] in groups && |groups[labels[i]]| > 0
    ensures |values| == |labels|
    ensures forall j :: 0 <= j < |labels| ==> values[j] == GroupAggregate(groups[labels[j]], fn, valueColumn)
  {
    values := [];
    for i := 0 to |labels|
      invariant |values| == i
      invariant forall j :: 0 <= j < i ==> values[j] == GroupAggregate(groups[labels[j]], fn, valueColumn)
    {
      values := values + [GroupAggregate(groups[labels[i]], fn, valueColumn)];
    }
  }

  /** Each label's group is non-empty and holds exactly the rows with that key. */
  lemma GroupLookup(labels: seq<string>, groups: map<string, seq<Row>>, rows: seq<Row>, keyOf: Row -> string)
    requires Grouped(labels, groups, rows, keyOf)
    ensures forall i :: 0 <= i < |labels| ==>
      labels[i] in groups && groups[labels[i]] == GroupOf(rows, keyOf, labels[i]) && |groups[labels[i]]| > 0
  {
    LabelsHaveRows(rows, keyOf);
  }

  // -------------------------------------------------------------- results

  datatype Point = Point(x: real, y: real)

  /** The chart-ready data; every series dataset also carries `borderWidth: 1`, which is not modelled. */
  datatype ChartData =
    | TableRows(rows: seq<Row>)
    | HistogramValues(values: seq<real>)
    | Series(labels: seq<string>, legend: Option<string>, values: seq<real>, backgroundColor: seq<Color>, borderColor: Option<Color>)
    | ScatterSeries(scatterLegend: string, points: seq<Point>, color: Color)

  /** The labelled series of `rows` grouped by `column`, each group aggregated by `fn` over `valueColumn`. */
  function GroupedSeries(rows: seq<Row>, column: string, fn: AggFunction, valueColumn: string, legend: Option<string>, kind: ChartType): ChartData {
    var keyOf := ColumnKey(column);
    var labels := Distinct(GroupKeys(rows, keyOf));
    LabelsHaveRows(rows, keyOf);
    Series(labels, legend, GroupValues(rows, keyOf, labels, fn, valueColumn), Palette(|labels|),
      if kind == Line then Some(ColorAt(0)) else None)
  }

  /** One `{x, y}` point per row, missing or unparseable coordinates at 0. */
  function ScatterPoints(rows: seq<Row>, xAxis: string, yAxis: string): (ps: seq<Point>)
    ensures |ps| == |rows|
  {
    seq(|rows|, i requires 0 <= i < |rows| => Point(NumOrZero(Cell(rows[i], xAxis)), NumOrZero(Cell(rows[i], yAxis))))
  }

  /** `file.columns[0]`, which is `undefined` (read as the key "undefined") for a file without columns. */
  function FirstColumn(columns: seq<string>): string {
    if columns == [] then "undefined" else columns[0]
  }

  const NoData: ChartData := Series([], Some("No data"), [], [], None)

  /** What `prepareChartData(file, config)` returns. */
  function ChartDataOf(data: seq<Row>, columns: seq<string>, config: ChartConfig): ChartData {
    var rows := ApplyFilters(data, config.filters);
    if config.kind == Table then
      TableRows(rows[..if |rows| < TableRowLimit then |rows| else TableRowLimit])
    else if config.kind == Histogram && Present(config.xAxis) then
      HistogramValues(ParsedValues(rows, config.xAxis.value))
    else if Present(config.groupBy) then
      match config.aggregation
      case Some(agg) => GroupedSeries(rows, config.groupBy.value, agg.fn, agg.column, Some(config.title), config.kind)
      case None => GroupedSeries(rows, config.groupBy.value, CountAgg, config.groupBy.value, Some(config.title), config.kind)
    else if Present(config.xAxis) && Present(config.yAxis) then
      if config.kind == Scatter then
        ScatterSeries(config.title, ScatterPoints(rows, config.xAxis.value, config.yAxis.value), ColorAt(0))
      else
        var fn := if config.aggregation.Some? then config.aggregation.value.fn else SumAgg;
        GroupedSeries(rows, config.xAxis.value, fn, config.yAxis.value, config.yAxis, config.kind)
    else if config.kind == Pie || config.kind == Doughnut then
      var column := FirstColumn(columns);
      GroupedSeries(rows, column, CountAgg, column, None, Pie)
    else
      NoData
  }

  /** The pie fallback's `counts[key] = (counts[key] || 0) + 1` loop. */
  method CountKeys(rows: seq<Row>, keyOf: Row -> string) returns (labels: seq<string>, counts: map<string, nat>)
    ensures Tallies(labels, counts, GroupKeys(rows, keyOf))
  {
    labels, counts := [], map[];
    for i := 0 to |rows|
      invariant Tallies(labels, counts, GroupKeys(rows[..i], keyOf))
    {
      GroupKeysPrefix(rows, i, keyOf);
      labels, counts := CountValue(labels, counts, keyOf(rows[i]), GroupKeys(rows[..i], keyOf));
    }
    assert rows[..|rows|] == rows;
  }

  /** The pie fallback's `counts` dictionary, turned into per-label counts. */
  method CountFirstColumn(rows: seq<Row>, column: string) returns (labels: seq<string>, values: seq<real>)
    ensures labels == Distinct(GroupKeys(rows, ColumnKey(column)))
    ensures forall i :: 0 <= i < |labels| ==> |GroupOf(rows, ColumnKey(column), labels[i])| > 0
    ensures values == GroupValues(rows, ColumnKey(column), labels, CountAgg, column)
  {
    var keyOf := ColumnKey(column);
    var counts;
    labels, counts := CountKeys(rows, keyOf);
    LabelsHaveRows(rows, keyOf);
    TalliedGroupSizes(labels, counts, rows, keyOf);
    values := seq(|labels|, i requires 0 <= i < |labels| => counts[labels[i]] as real);
    forall i | 0 <= i < |labels|
      ensures values[i] == GroupAggregate(GroupOf(rows, keyOf, labels[i]), CountAgg, column)
    {
      CountAggregate(GroupOf(rows, keyOf, labels[i]), column);
    }
  }

  lemma CountAggregate(group: seq<Row>, valueColumn: string)
    requires |group| > 0
    ensures GroupAggregate(group, CountAgg, valueColumn) == |group| as real
  {
  }

  /** A tally of the row keys counts each label's group. */
  lemma TalliedGroupSizes(labels: seq<string>, counts: map<string, nat>, rows: seq<Row>, keyOf: Row -> string)
    requires Tallies(labels, counts, GroupKeys(rows, keyOf))
    ensures forall i :: 0 <= i < |labels| ==> labels[i] in counts && counts[labels[i]] == |GroupOf(rows, keyOf, labels[i])|
  {
    forall i | 0 <= i < |labels|
      ensures labels[i] in counts && counts[labels[i]] == |GroupOf(rows, keyOf, labels[i])|
    {
      GroupSize(rows, keyOf, labels[i]);
    }
  }

  /** The grouped branches: group, aggregate, colour. */
  method SeriesOf(rows: seq<Row>, column: string, fn: AggFunction, valueColumn: string, legend: Option<string>, kind: ChartType)
    returns (result: ChartData)
    ensures result == GroupedSeries(rows, column, fn, valueColumn, legend, kind)
  {
    var labels, groups := GroupRows(rows, ColumnKey(column));
    var values := AggregateGroups(groups, labels, fn, valueColumn, rows, ColumnKey(column));
    var backgroundColor := GetChartColors(|labels|);
    var borderColor: Option<Color> := None;
    if kind == Line {
      var one := GetChartColors(1);
      borderColor := Some(one[0]);
    }
    result := Series(labels, legend, values, backgroundColor, borderColor);
  }

  /** `prepareChartData(file, config)`. */
  method PrepareChartData(file: DataFile, config: ChartConfig) returns (result: ChartData)
    ensures result == ChartDataOf(file.data, file.columns, config)
  {
    var processedData := file.data;
    if |config.filters| > 0 {
      processedData := Filter(processedData, Keeps(config.filters));
    }

    if config.kind == Table {
      var n := if |processedData| < TableRowLimit then |processedData| else TableRowLimit;
      return TableRows(processedData[..n]);
    }

    if config.kind == Histogram && Present(config.xAxis) {
      return HistogramValues(ParsedValues(processedData, config.xAxis.value));
    }

    if Present(config.groupBy) {
      var fn, valueColumn := CountAgg, config.groupBy.value;
      if config.aggregation.Some? {
        fn, valueColumn := config.aggregation.value.fn, config.aggregation.value.column;
      }
      result := SeriesOf(processedData, config.groupBy.value, fn, valueColumn, Some(config.title), config.kind);
    } else if Present(config.xAxis) && Present(config.yAxis) {
      var fn := if config.aggregation.Some? then config.aggregation.value.fn else SumAgg;
      var grouped := SeriesOf(processedData, config.xAxis.value, fn, config.yAxis.value, config.yAxis, config.kind);
      if config.kind == Scatter {
        var one := GetChartColors(1);
        result := ScatterSeries(config.title, ScatterPoints(processedData, config.xAxis.value, config.yAxis.value), one[0]);
      } else {
        result := grouped;
      }
    } else if config.kind == Pie || config.kind == Doughnut {
      var column := FirstColumn(file.columns);
      var labels, values := CountFirstColumn(processedData, column);
      var backgroundColor := GetChartColors(|labels|);
      result := Series(labels, None, values, backgroundColor, None);
    } else {
      result := NoData;
    }
  }

  // --------------------------------------------------------------- results

  /** A table holds the first `min(100, n)` of the `n` filtered rows. */
  lemma TableIsFirstRows(data: seq<Row>, columns: seq<string>, config: ChartConfig)
    requires config.kind == Table
    ensures var rows := ApplyFilters(data, config.filters);
      var r := ChartDataOf(data, columns, config);
      && r.TableRows?
      && |r.rows| == (if |rows| < TableRowLimit then |rows| else TableRowLimit)
      && forall i :: 0 <= i < |r.rows| ==> r.rows[i] == rows[i]
  {
  }

  /** A histogram holds the filtered column's present, parseable values in row order. */
  lemma HistogramIsParsedValues(data: seq<Row>, columns: seq<string>, config: ChartConfig)
    requires config.kind == Histogram && Present(config.xAxis)
    ensures var rows := ApplyFilters(data, config.filters);
      var r := ChartDataOf(data, columns, config);
      && r.HistogramValues?
      && |r.values| <= |rows|
      && r.values == ParsedValues(rows, config.xAxis.value)
  {
  }

  /** What one row adds to the histogram values. */
  function ParsedCell(row: Row, column: string): seq<real> {
    var v := Cell(row, column);
    if !IsMissing(v) && ToNumber(v).Some? then [ToNumber(v).value] else []
  }

  lemma ParsedStep(rows: seq<Row>, row: Row, column: string)
    ensures ParsedValues(rows + [row], column) == ParsedValues(rows, column) + ParsedCell(row, column)
  {
    assert (rows + [row])[..|rows|] == rows;
  }

  function VRow(v: Value): Row {
    [Field("v", v)]
  }

  lemma ExampleCells()
    ensures ParsedCell(VRow(Num(1.0)), "v") == [1.0] && ParsedCell(VRow(Num(2.0)), "v") == [2.0]
    ensures ParsedCell(VRow(Str("x")), "v") == [] && ParsedCell(VRow(Null), "v") == []
    ensures ParsedCell(VRow(Num(4.0)), "v") == [4.0]
  {
    assert ParseNumber("x") == None;
  }

  /** `[1, 2, "x", null, 4]` gives the histogram values `[1, 2, 4]`. */
  lemma HistogramDropsInvalid()
    ensures ParsedValues([VRow(Num(1.0)), VRow(Num(2.0)), VRow(Str("x")), VRow(Null), VRow(Num(4.0))], "v") == [1.0, 2.0, 4.0]
  {
    ExampleCells();
    var a := [VRow(Num(1.0))];
    var b := a + [VRow(Num(2.0))];
    var c := b + [VRow(Str("x"))];
    var d := c + [VRow(Null)];
    var e := d + [VRow(Num(4.0))];
    ParsedStep([], VRow(Num(1.0)), "v");
    ParsedStep(a, VRow(Num(2.0)), "v");
    ParsedStep(b, VRow(Str("x")), "v");
    ParsedStep(c, VRow(Null), "v");
    ParsedStep(d, VRow(Num(4.0)), "v");
    assert [] + [VRow(Num(1.0))] == a;
    assert e == [VRow(Num(1.0)), VRow(Num(2.0)), VRow(Str("x")), VRow(Null), VRow(Num(4.0))];
  }

  /** A grouped series has one distinct label per distinct key, one value and one colour per label. */
  lemma GroupedSeriesShape(rows: seq<Row>, column: string, fn: AggFunction, valueColumn: string, legend: Option<string>, kind: ChartType)
    ensures var r := GroupedSeries(rows, column, fn, valueColumn, legend, kind);
      && r.Series?
      && NoDup(r.labels)
      && (forall k :: k in r.labels <==> k in GroupKeys(rows, ColumnKey(column)))
      && |r.values| == |r.labels| && |r.backgroundColor| == |r.labels|
      && (forall i :: 0 <= i < |r.labels| ==> r.backgroundColor[i] == ColorAt(i))
      && (r.borderColor.Some? <==> kind == Line)
  {
    var keys := GroupKeys(rows, ColumnKey(column));
    var labels := Distinct(keys);
    forall k | k in keys
      ensures k in labels
    {
      var i :| 0 <= i < |keys| && keys[i] == k;
    }
  }

  /** With counting, the per-label values add up to the number of rows grouped. */
  lemma CountsAddUpToRows(rows: seq<Row>, column: string, valueColumn: string, legend: Option<string>, kind: ChartType)
    ensures var r := GroupedSeries(rows, column, CountAgg, valueColumn, legend, kind);
      SumReals(r.values) == |rows| as real
  {
    GroupCountsAddUp(rows, ColumnKey(column), valueColumn);
  }

  lemma GroupCountsAddUp(rows: seq<Row>, keyOf: Row -> string, valueColumn: string)
    ensures var labels := Distinct(GroupKeys(rows, keyOf));
      && (forall i :: 0 <= i < |labels| ==> |GroupOf(rows, keyOf, labels[i])| > 0)
      && SumReals(GroupValues(rows, keyOf, labels, CountAgg, valueColumn)) == |rows| as real
  {
    var keys := GroupKeys(rows, keyOf);
    var labels := Distinct(keys);
    LabelsHaveRows(rows, keyOf);
    var values := GroupValues(rows, keyOf, labels, CountAgg, valueColumn);
    forall i | 0 <= i < |values|
      ensures values[i] == multiset(keys)[labels[i]] as real
    {
      GroupSize(rows, keyOf, labels[i]);
      CountAggregate(GroupOf(rows, keyOf, labels[i]), valueColumn);
    }
    SumRealsOfCounts(values, labels, keys);
    SumCountsOfKeys(labels, keys);
  }

  /** A scatter chart has one point per filtered row, coordinates read with `Number(v) || 0`. */
  lemma OnePointPerRow(data: seq<Row>, columns: seq<string>, config: ChartConfig)
    requires config.kind == Scatter && !Present(config.groupBy) && Present(config.xAxis) && Present(config.yAxis)
    ensures var rows := ApplyFilters(data, config.filters);
      var r := ChartDataOf(data, columns, config);
      && r.ScatterSeries?
      && |r.points| == |rows|
      && forall i :: 0 <= i < |rows| ==>
           r.points[i] == Point(NumOrZero(Cell(rows[i], config.xAxis.value)), NumOrZero(Cell(rows[i], config.yAxis.value)))
  {
  }

  /** Without groupBy, the x/y branch sums `Number(y) || 0` per x category unless told otherwise. */
  lemma XYDefaultsToSum(data: seq<Row>, columns: seq<string>, config: ChartConfig)
    requires config.kind != Table && config.kind != Histogram && config.kind != Scatter
    requires !Present(config.groupBy) && Present(config.xAxis) && Present(config.yAxis) && config.aggregation.None?
    ensures var rows := ApplyFilters(data, config.filters);
      var r := ChartDataOf(data, columns, config);
      && r.Series? && r.legend == config.yAxis
      && r.labels == Distinct(GroupKeys(rows, ColumnKey(config.xAxis.value)))
      && forall i :: 0 <= i < |r.labels| ==>
           r.values[i] == SumReals(ColumnNumbers(GroupOf(rows, ColumnKey(config.xAxis.value), r.labels[i]), config.yAxis.value))
  {
  }

  /** A grouped chart without an aggregation counts, so its values add up to the filtered row count. */
  lemma GroupByDefaultsToCount(data: seq<Row>, columns: seq<string>, config: ChartConfig)
    requires config.kind != Table && config.kind != Histogram
    requires Present(config.groupBy) && config.aggregation.None?
    ensures var r := ChartDataOf(data, columns, config);
      && r.Series? && r.legend == Some(config.title)
      && SumReals(r.values) == |ApplyFilters(data, config.filters)| as real
  {
    CountsAddUpToRows(ApplyFilters(data, config.filters), config.groupBy.value, config.groupBy.value, Some(config.title), config.kind);
  }

  /** The pie fallback counts the first column's stringified values: one slice per value, slices adding up to the rows. */
  lemma PieFallbackCounts(data: seq<Row>, columns: seq<string>, config: ChartConfig)
    requires config.kind == Pie || config.kind == Doughnut
    requires !Present(config.groupBy) && !(Present(config.xAxis) && Present(config.yAxis))
    ensures var rows := ApplyFilters(data, config.filters);
      var r := ChartDataOf(data, columns, config);
      && r.Series? && r.legend == None && r.borderColor == None
      && r.labels == Distinct(GroupKeys(rows, ColumnKey(FirstColumn(columns))))
      && SumReals(r.values) == |rows| as real
  {
    CountsAddUpToRows(ApplyFilters(data, config.filters), FirstColumn(columns), FirstColumn(columns), None, Pie);
  }

  /** Anything else gets the empty "No data" series. */
  lemma OtherwiseNoData(data: seq<Row>, columns: seq<string>, config: ChartConfig)
    requires config.kind !in {Table, Pie, Doughnut}
    requires !(config.kind == Histogram && Present(config.xAxis))
    requires !Present(config.groupBy) && !(Present(config.xAxis) && Present(config.yAxis))
    ensures ChartDataOf(data, columns, config) == Series([], Some("No data"), [], [], None)
  {
  }
}
