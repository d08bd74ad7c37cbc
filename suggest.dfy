/**
 * `suggestCharts`: the columns are split into numeric and categorical ones by
 * a 20-row majority vote, and a fixed-priority rule set then proposes bar,
 * line, pie, scatter and histogram charts, always closing with a data table.
 * Chart identifiers come from the caller (`ids[k]` is the k-th generated id);
 * timestamps are not modelled.
 */
module Suggest {
  import opened Values
  import opened Seqs
  import opened Types
  import opened Classify

  const SuggestSample: nat := 20

  /** The most specifications the rule set emits, hence the most identifiers it draws. */
  const MaxSuggestions: nat := 6

  function IsNumericIn(data: seq<Row>): string -> bool {
    c => IsNumericColumn(data, c, SuggestSample)
  }

  function IsCategoricalIn(data: seq<Row>): string -> bool {
    c => !IsNumericColumn(data, c, SuggestSample)
  }

  /** The numeric columns, in column order. */
  function NumericColumnsOf(data: seq<Row>, columns: seq<string>): seq<string> {
    Filter(columns, IsNumericIn(data))
  }

  /** The categorical columns, in column order. */
  function CategoricalColumnsOf(data: seq<Row>, columns: seq<string>): seq<string> {
    Filter(columns, IsCategoricalIn(data))
  }

  /** The classification loop, pushing each column onto one of the two lists. */
  method PartitionColumns(data: seq<Row>, columns: seq<string>) returns (numericColumns: seq<string>, categoricalColumns: seq<string>)
    ensures numericColumns == NumericColumnsOf(data, columns)
    ensures categoricalColumns == CategoricalColumnsOf(data, columns)
  {
    numericColumns, categoricalColumns := [], [];
    for j := 0 to |columns|
      invariant numericColumns == Filter(columns[..j], IsNumericIn(data))
      invariant categoricalColumns == Filter(columns[..j], IsCategoricalIn(data))
    {
      assert columns[..j + 1][..j] == columns[..j];
      var isNumeric, _ := ClassifyColumn(data, columns[j], SuggestSample);
      if isNumeric {
        numericColumns := numericColumns + [columns[j]];
      } else {
        categoricalColumns := categoricalColumns + [columns[j]];
      }
    }
    assert columns[..|columns|] == columns;
  }

  /** The two lists split the columns: every column lands in exactly one, by its classification, in column order. */
  lemma PartitionOfColumns(data: seq<Row>, columns: seq<string>)
    ensures multiset(NumericColumnsOf(data, columns)) + multiset(CategoricalColumnsOf(data, columns)) == multiset(columns)
    ensures forall c :: c in NumericColumnsOf(data, columns) <==> c in columns && IsNumericColumn(data, c, SuggestSample)
    ensures forall c :: c in CategoricalColumnsOf(data, columns) <==> c in columns && !IsNumericColumn(data, c, SuggestSample)
  {
    FilterSplit(columns, IsNumericIn(data), IsCategoricalIn(data));
    FilterMembers(columns, IsNumericIn(data));
    FilterMembers(columns, IsCategoricalIn(data));
  }

  /** Classifying a longer column list extends both lists in place: column order is kept. */
  lemma PartitionKeepsOrder(data: seq<Row>, a: seq<string>, b: seq<string>)
    ensures NumericColumnsOf(data, a + b) == NumericColumnsOf(data, a) + NumericColumnsOf(data, b)
    ensures CategoricalColumnsOf(data, a + b) == CategoricalColumnsOf(data, a) + CategoricalColumnsOf(data, b)
  {
    FilterAppend(a, b, IsNumericIn(data));
    FilterAppend(a, b, IsCategoricalIn(data));
  }

  /** The chart kinds proposed, in order, for a dataset of `rows` records. */
  function SuggestedKinds(rows: nat, numericCount: nat, categoricalCount: nat): (kinds: seq<ChartType>)
    ensures 1 <= |kinds| <= 6 && kinds[|kinds| - 1] == Table
  {
    (if categoricalCount > 0 && numericCount > 0 then [Bar] + (if rows > 5 then [Line] else []) else [])
      + (if categoricalCount > 0 then [Pie] else [])
      + (if numericCount >= 2 then [Scatter, Histogram] else [])
      + [Table]
  }

  /** Position of a kind in the rule set's priority order. */
  function Priority(kind: ChartType): nat {
    match kind
    case Bar => 0
    case Line => 1
    case Pie => 2
    case Scatter => 3
    case Histogram => 4
    case _ => 5
  }

  /** `numericColumns[0]` as JavaScript sees it: `undefined` for an empty list. */
  function First(s: seq<string>): Option<string> {
    if s == [] then None else Some(s[0])
  }

  predicate Suggestible(kind: ChartType, numericColumns: seq<string>, categoricalColumns: seq<string>) {
    match kind
    case Bar => |categoricalColumns| > 0 && |numericColumns| > 0
    case Line => |categoricalColumns| > 0 && |numericColumns| > 0
    case Pie => |categoricalColumns| > 0
    case Scatter => |numericColumns| >= 2
    case Histogram => |numericColumns| >= 1
    case Table => true
    case _ => false
  }

  /** The chart specification the rule set emits for `kind`. */
  function Suggestion(kind: ChartType, numericColumns: seq<string>, categoricalColumns: seq<string>, id: string): ChartConfig
    requires Suggestible(kind, numericColumns, categoricalColumns)
  {
    match kind
    case Bar =>
      ChartConfig(id, Bar, categoricalColumns[0] + " by " + numericColumns[0],
        Some(categoricalColumns[0]), Some(numericColumns[0]), [], None, None)
    case Line =>
      ChartConfig(id, Line, numericColumns[0] + " Trend by " + categoricalColumns[0],
        Some(categoricalColumns[0]), Some(numericColumns[0]), [], None, None)
    case Pie =>
      var firstNumeric := First(numericColumns);
      ChartConfig(id, Pie, "Distribution of " + categoricalColumns[0],
        Some(categoricalColumns[0]),
        Some(if Present(firstNumeric) then firstNumeric.value else "count"),
        [],
        Some(if Present(firstNumeric) then Aggregation(SumAgg, firstNumeric.value) else Aggregation(CountAgg, categoricalColumns[0])),
        None)
    case Scatter =>
      ChartConfig(id, Scatter, numericColumns[0] + " vs " + numericColumns[1],
        Some(numericColumns[0]), Some(numericColumns[1]), [], None, None)
    case Histogram =>
      ChartConfig(id, Histogram, "Distribution of " + numericColumns[0], Some(numericColumns[0]), None, [], None, None)
    case Table =>
      ChartConfig(id, Table, "Data Table", None, None, [], None, None)
  }

  /** Every kind the rule set proposes has the columns its specification needs. */
  lemma SuggestedKindsSuggestible(rows: nat, numericColumns: seq<string>, categoricalColumns: seq<string>)
    ensures forall i :: 0 <= i < |SuggestedKinds(rows, |numericColumns|, |categoricalColumns|)| ==>
      Suggestible(SuggestedKinds(rows, |numericColumns|, |categoricalColumns|)[i], numericColumns, categoricalColumns)
  {
  }

  /** `suggestions` holds, in order, the specifications for `kinds`, the k-th with the k-th generated id. */
  ghost predicate Emitted(suggestions: seq<ChartConfig>, kinds: seq<ChartType>, numericColumns: seq<string>,
                          categoricalColumns: seq<string>, ids: seq<string>)
  {
    && |suggestions| == |kinds| <= |ids|
    && (kinds != [] ==>
         var k := |kinds| - 1;
         && Emitted(suggestions[..k], kinds[..k], numericColumns, categoricalColumns, ids)
         && Suggestible(kinds[k], numericColumns, categoricalColumns)
         && suggestions[k] == Suggestion(kinds[k], numericColumns, categoricalColumns, ids[k]))
  }

  lemma EmitStep(suggestions: seq<ChartConfig>, kinds: seq<ChartType>, numericColumns: seq<string>,
                 categoricalColumns: seq<string>, ids: seq<string>, kind: ChartType, config: ChartConfig)
    requires Emitted(suggestions, kinds, numericColumns, categoricalColumns, ids)
    requires Suggestible(kind, numericColumns, categoricalColumns)
    requires |suggestions| < |ids|
    requires config == Suggestion(kind, numericColumns, categoricalColumns, ids[|suggestions|])
    ensures Emitted(suggestions + [config], kinds + [kind], numericColumns, categoricalColumns, ids)
  {
    assert (suggestions + [config])[..|suggestions|] == suggestions;
    assert (kinds + [kind])[..|kinds|] == kinds;
  }

  /** Position by position: the i-th suggestion is the specification of the i-th kind with the i-th id. */
  lemma {:induction false} EmittedAt(suggestions: seq<ChartConfig>, kinds: seq<ChartType>, numericColumns: seq<string>,
                                     categoricalColumns: seq<string>, ids: seq<string>)
    requires Emitted(suggestions, kinds, numericColumns, categoricalColumns, ids)
    ensures |suggestions| == |kinds|
    ensures forall i :: 0 <= i < |kinds| ==>
      Suggestible(kinds[i], numericColumns, categoricalColumns)
      && suggestions[i] == Suggestion(kinds[i], numericColumns, categoricalColumns, ids[i])
  {
    if kinds != [] {
      var k := |kinds| - 1;
      EmittedAt(suggestions[..k], kinds[..k], numericColumns, categoricalColumns, ids);
    }
  }

  /** `suggestCharts(file)`: the k-th specification is the one for the k-th kind the rules select, with the k-th id. */
  method SuggestCharts(file: DataFile, ids: seq<string>) returns (suggestions: seq<ChartConfig>)
    requires |ids| >= MaxSuggestions
    ensures var numericColumns := NumericColumnsOf(file.data, file.columns);
      var categoricalColumns := CategoricalColumnsOf(file.data, file.columns);
      var kinds := SuggestedKinds(|file.data|, |numericColumns|, |categoricalColumns|);
      && |suggestions| == |kinds|
      && forall i :: 0 <= i < |kinds| ==>
           Suggestible(kinds[i], numericColumns, categoricalColumns)
           && suggestions[i] == Suggestion(kinds[i], numericColumns, categoricalColumns, ids[i])
  {
    var numericColumns, categoricalColumns := PartitionColumns(file.data, file.columns);
    suggestions := EmitSuggestions(|file.data|, numericColumns, categoricalColumns, ids);
    EmittedAt(suggestions, SuggestedKinds(|file.data|, |numericColumns|, |categoricalColumns|), numericColumns, categoricalColumns, ids);
  }

  /** The rule set proper, applied to the classified columns of a file with `rows` records. */
  method EmitSuggestions(rows: nat, numericColumns: seq<string>, categoricalColumns: seq<string>, ids: seq<string>)
    returns (suggestions: seq<ChartConfig>)
    requires |ids| >= MaxSuggestions
    ensures Emitted(suggestions, SuggestedKinds(rows, |numericColumns|, |categoricalColumns|), numericColumns, categoricalColumns, ids)
  {
    suggestions := [];
    ghost var kinds: seq<ChartType> := [];
    if |categoricalColumns| > 0 && |numericColumns| > 0 {
      suggestions, kinds := Emit(suggestions, kinds, numericColumns, categoricalColumns, ids, Bar);
      if rows > 5 {
        suggestions, kinds := Emit(suggestions, kinds, numericColumns, categoricalColumns, ids, Line);
      }
    }
    ghost var n, c := |numericColumns|, |categoricalColumns|;
    ghost var barLine := kinds;
    if |categoricalColumns| > 0 {
      suggestions, kinds := Emit(suggestions, kinds, numericColumns, categoricalColumns, ids, Pie);
    }
    ghost var pieKinds := kinds;
    if |numericColumns| >= 2 {
      suggestions, kinds := Emit(suggestions, kinds, numericColumns, categoricalColumns, ids, Scatter);
      suggestions, kinds := Emit(suggestions, kinds, numericColumns, categoricalColumns, ids, Histogram);
      AppendTwo(pieKinds, Scatter, Histogram);
    }
    StagedKinds(rows, n, c, barLine, pieKinds, kinds);
    suggestions, kinds := Emit(suggestions, kinds, numericColumns, categoricalColumns, ids, Table);
  }

  method Emit(suggestions: seq<ChartConfig>, ghost kinds: seq<ChartType>, numericColumns: seq<string>,
                 categoricalColumns: seq<string>, ids: seq<string>, kind: ChartType)
    returns (suggestions': seq<ChartConfig>, ghost kinds': seq<ChartType>)
    requires Emitted(suggestions, kinds, numericColumns, categoricalColumns, ids)
    requires Suggestible(kind, numericColumns, categoricalColumns)
    requires |suggestions| < |ids|
    ensures kinds' == kinds + [kind]
    ensures suggestions' == suggestions + [Suggestion(kind, numericColumns, categoricalColumns, ids[|suggestions|])]
    ensures Emitted(suggestions', kinds', numericColumns, categoricalColumns, ids)
  {
    var config := Suggestion(kind, numericColumns, categoricalColumns, ids[|suggestions|]);
    EmitStep(suggestions, kinds, numericColumns, categoricalColumns, ids, kind, config);
    suggestions', kinds' := suggestions + [config], kinds + [kind];
  }

  lemma AppendTwo<T>(s: seq<T>, a: T, b: T)
    ensures s + [a] + [b] == s + [a, b]
  {
  }

  lemma StagedKinds(rows: nat, n: nat, c: nat, barLine: seq<ChartType>, pieKinds: seq<ChartType>, pairKinds: seq<ChartType>)
    requires barLine == if c > 0 && n > 0 then [Bar] + (if rows > 5 then [Line] else []) else []
    requires pieKinds == barLine + if c > 0 then [Pie] else []
    requires pairKinds == pieKinds + if n >= 2 then [Scatter, Histogram] else []
    ensures pairKinds + [Table] == SuggestedKinds(rows, n, c)
  {
  }

  /** Kinds listed in strictly increasing priority: the rule set's fixed order, no kind twice. */
  predicate InPriorityOrder(kinds: seq<ChartType>) {
    forall i, j :: 0 <= i < j < |kinds| ==> Priority(kinds[i]) < Priority(kinds[j])
  }

  /** Each rule fires exactly under its condition. */
  lemma SuggestionRules(rows: nat, numericCount: nat, categoricalCount: nat)
    ensures var kinds := SuggestedKinds(rows, numericCount, categoricalCount);
      && (Bar in kinds <==> categoricalCount > 0 && numericCount > 0)
      && (Line in kinds <==> categoricalCount > 0 && numericCount > 0 && rows > 5)
      && (Pie in kinds <==> categoricalCount > 0)
      && (Scatter in kinds <==> numericCount >= 2)
      && (Histogram in kinds <==> numericCount >= 2)
      && kinds[|kinds| - 1] == Table
  {
    KindLists(rows, numericCount, categoricalCount);
  }

  /** The lists of kinds the rule set can produce, one per combination of its conditions. */
  lemma KindLists(rows: nat, numericCount: nat, categoricalCount: nat)
    ensures var kinds := SuggestedKinds(rows, numericCount, categoricalCount);
      if categoricalCount > 0 && numericCount > 0 then
        if rows > 5 then
          kinds == (if numericCount >= 2 then [Bar, Line, Pie, Scatter, Histogram, Table] else [Bar, Line, Pie, Table])
        else
          kinds == (if numericCount >= 2 then [Bar, Pie, Scatter, Histogram, Table] else [Bar, Pie, Table])
      else if categoricalCount > 0 then kinds == [Pie, Table]
      else if numericCount >= 2 then kinds == [Scatter, Histogram, Table]
      else kinds == [Table]
  {
  }

  /** Whatever fires, the kinds come out in the rule set's priority order. */
  lemma SuggestionOrder(rows: nat, numericCount: nat, categoricalCount: nat)
    ensures InPriorityOrder(SuggestedKinds(rows, numericCount, categoricalCount))
  {
    KindLists(rows, numericCount, categoricalCount);
    PriorityOrderOfLists();
  }

  lemma PriorityOrderOfLists()
    ensures InPriorityOrder([Bar, Line, Pie, Scatter, Histogram, Table]) && InPriorityOrder([Bar, Line, Pie, Table])
    ensures InPriorityOrder([Bar, Pie, Scatter, Histogram, Table]) && InPriorityOrder([Bar, Pie, Table])
    ensures InPriorityOrder([Pie, Table]) && InPriorityOrder([Scatter, Histogram, Table]) && InPriorityOrder([Table])
  {
  }

  /** Every axis a suggestion names is one of the file's columns (or `'count'` for the pie), of the type its role needs. */
  lemma SuggestionAxes(kind: ChartType, data: seq<Row>, columns: seq<string>, id: string)
    requires Suggestible(kind, NumericColumnsOf(data, columns), CategoricalColumnsOf(data, columns))
    ensures var s := Suggestion(kind, NumericColumnsOf(data, columns), CategoricalColumnsOf(data, columns), id);
      && s.kind == kind && s.id == id
      && (s.xAxis.Some? ==> s.xAxis.value in columns)
      && (s.yAxis.Some? ==> s.yAxis.value in columns || s.yAxis.value == "count")
      && (kind in {Bar, Line, Pie} ==> !IsNumericColumn(data, s.xAxis.value, SuggestSample))
      && (kind in {Bar, Line, Scatter} ==> IsNumericColumn(data, s.yAxis.value, SuggestSample))
      && (kind in {Scatter, Histogram} ==> IsNumericColumn(data, s.xAxis.value, SuggestSample))
      && (s.aggregation.Some? ==> kind == Pie && s.aggregation.value.column in columns)
  {
    PartitionOfColumns(data, columns);
    var ns, cs := NumericColumnsOf(data, columns), CategoricalColumnsOf(data, columns);
    if |ns| > 0 {
      assert ns[0] in ns;
    }
    if |ns| > 1 {
      assert ns[1] in ns;
    }
    if |cs| > 0 {
      assert cs[0] in cs;
    }
  }

  /** One categorical and one numeric column over six rows: bar, line, pie and table, in that order. */
  lemma SixRowsTwoColumns()
    ensures SuggestedKinds(6, 1, 1) == [Bar, Line, Pie, Table]
  {
    KindLists(6, 1, 1);
  }

  /** Whatever the file, the data table is suggested, and last. */
  lemma TableAlwaysLast(rows: nat, numericCount: nat, categoricalCount: nat)
    ensures var kinds := SuggestedKinds(rows, numericCount, categoricalCount);
      Table in kinds && kinds[|kinds| - 1] == Table && forall i :: 0 <= i < |kinds| - 1 ==> kinds[i] != Table
  {
    KindLists(rows, numericCount, categoricalCount);
  }

  /** A file without columns, or without rows and columns, gets the data table alone. */
  lemma NoColumnsOnlyTable(data: seq<Row>)
    ensures NumericColumnsOf(data, []) == [] && CategoricalColumnsOf(data, []) == []
    ensures SuggestedKinds(|data|, 0, 0) == [Table]
  {
  }

  /** Without rows every column is categorical, so each non-empty column list yields a pie chart and the table only. */
  lemma NoRowsPieAndTable(columns: seq<string>)
    requires columns != []
    ensures NumericColumnsOf([], columns) == []
    ensures CategoricalColumnsOf([], columns) == columns
    ensures SuggestedKinds(0, 0, |columns|) == [Pie, Table]
  {
    forall c | c in columns
      ensures !IsNumericColumn([], c, SuggestSample)
    {
      AllMissingIsCategorical([], c, SuggestSample);
    }
    FilterAll(columns, IsNumericIn([]));
    FilterAll(columns, IsCategoricalIn([]));
  }
}
