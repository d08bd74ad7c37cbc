/**
 * `getDataSummary`: a first pass over the columns classifies each one (10-row
 * sample) and tallies the missing cells of the sample; a second pass computes
 * numeric statistics or the categorical distribution, the categorical scan
 * adding every missing cell of the whole column to the tally once more.
 */
module Summary {
  import opened Values
  import opened Seqs
  import opened Types
  import opened Classify
  import opened Stats

  const SummarySample: nat := 10

  datatype StatsSummary = StatsSummary(
    count: nat,
    numeric: map<string, NumericStats>,
    categorical: map<string, CategoricalStats>,
    missingValues: map<string, nat>)

  /** Where a column's missing-value tally ends: the sample's missing cells, plus all of them again when categorical. */
  function ExpectedMissing(data: seq<Row>, column: string): nat {
    MissingCount(data[..SampleSize(|data|, SummarySample)], column)
      + if IsNumericColumn(data, column, SummarySample) then 0 else MissingCount(data, column)
  }

  /** The categorical scan of one column: the value counts of its present cells, and its missing cells. */
  method CountCategorical(data: seq<Row>, column: string) returns (keys: seq<string>, counts: map<string, nat>, missing: nat)
    ensures Tallies(keys, counts, PresentKeys(data, column))
    ensures missing == MissingCount(data, column)
  {
    keys, counts, missing := [], map[], 0;
    assert data[..0] == [];
    for i := 0 to |data|
      invariant Tallies(keys, counts, PresentKeys(data[..i], column))
      invariant missing == MissingCount(data[..i], column)
    {
      MissingStep(data, column, i);
      PresentStep(data, column, i);
      var value := Cell(data[i], column);
      if IsMissing(value) {
        missing := missing + 1;
        continue;
      }
      keys, counts := CountValue(keys, counts, Stringify(value), PresentKeys(data[..i], column));
    }
    assert data[..|data|] == data;
  }

  /** The categorical branch: the distinct-value count and the five most frequent values, after the scan. */
  method CategoricalColumn(data: seq<Row>, column: string) returns (stats: CategoricalStats, missing: nat)
    ensures stats == CategoricalStatsOf(data, column)
    ensures missing == MissingCount(data, column)
  {
    var keys, counts;
    keys, counts, missing := CountCategorical(data, column);
    var entries := seq(|keys|, i requires 0 <= i < |keys| => ValueCount(keys[i], counts[keys[i]]));
    assert entries == Entries(keys, PresentKeys(data, column));
    stats := CategoricalStats(|keys|, Top(SortByCount(entries)));
  }

  lemma PresentStep(data: seq<Row>, column: string, i: nat)
    requires i < |data|
    ensures var v := Cell(data[i], column);
      && (IsMissing(v) ==> PresentKeys(data[..i + 1], column) == PresentKeys(data[..i], column))
      && (!IsMissing(v) ==> PresentKeys(data[..i + 1], column) == PresentKeys(data[..i], column) + [Stringify(v)])
  {
    assert data[..i + 1][..i] == data[..i];
    var ks := PresentKeys(data[..i], column);
    assert ks + [] == ks;
  }

  lemma MissingStep(data: seq<Row>, column: string, i: nat)
    requires i < |data|
    ensures MissingCount(data[..i + 1], column) == MissingCount(data[..i], column) + (if IsMissing(Cell(data[i], column)) then 1 else 0)
  {
    assert data[..i + 1][..i] == data[..i];
  }

  /** `getDataSummary(file)`. */
  method GetDataSummary(file: DataFile) returns (summary: StatsSummary)
    requires NoDup(file.columns)
    ensures summary.count == |file.data|
    ensures forall c :: c in summary.missingValues <==> c in file.columns
    ensures forall c :: c in summary.numeric <==> c in file.columns && IsNumericColumn(file.data, c, SummarySample)
    ensures forall c :: c in summary.categorical <==> c in file.columns && !IsNumericColumn(file.data, c, SummarySample)
    ensures forall c :: c in summary.numeric ==> summary.numeric[c] == StatsOf(ParsedValues(file.data, c))
    ensures forall c :: c in summary.categorical ==> summary.categorical[c] == CategoricalStatsOf(file.data, c)
    ensures forall c :: c in summary.missingValues ==> summary.missingValues[c] == ExpectedMissing(file.data, c)
  {
    var missingValues := ZeroTallies(file.columns);
    var columnTypes;
    columnTypes, missingValues := ClassifyColumns(file.data, file.columns, missingValues);
    var numeric, categorical;
    numeric, categorical, missingValues := SummarizeColumns(file.data, file.columns, columnTypes, missingValues);
    summary := StatsSummary(|file.data|, numeric, categorical, missingValues);
  }

  /** `columns.forEach(col => missingValues[col] = 0)`. */
  method ZeroTallies(columns: seq<string>) returns (missingValues: map<string, nat>)
    ensures forall c :: c in missingValues <==> c in columns
    ensures forall c :: c in missingValues ==> missingValues[c] == 0
  {
    missingValues := map[];
    for j := 0 to |columns|
      invariant forall c :: c in missingValues <==> c in columns[..j]
      invariant forall c :: c in missingValues ==> missingValues[c] == 0
    {
      assert columns[..j + 1] == columns[..j] + [columns[j]];
      missingValues := missingValues[columns[j] := 0];
    }
    assert columns[..|columns|] == columns;
  }

  /** The first pass after the columns `done`: each has its type, and its sample's missing cells in its tally. */
  ghost predicate Classified(data: seq<Row>, columns: seq<string>, done: seq<string>, missingValues: map<string, nat>,
                             columnTypes: map<string, bool>, missingValues': map<string, nat>)
    requires forall c :: c in missingValues <==> c in columns
  {
    && (forall c :: c in missingValues' <==> c in columns)
    && (forall c :: c in columnTypes <==> c in done)
    && (forall c :: c in columnTypes ==> columnTypes[c] == IsNumericColumn(data, c, SummarySample))
    && (forall c :: c in missingValues' ==>
          missingValues'[c] == missingValues[c] + if c in columnTypes then MissingCount(data[..SampleSize(|data|, SummarySample)], c) else 0)
  }

  /** First pass: each column's type, and the missing cells of its 10-row sample added to its tally. */
  method ClassifyColumns(data: seq<Row>, columns: seq<string>, missingValues: map<string, nat>)
    returns (columnTypes: map<string, bool>, missingValues': map<string, nat>)
    requires NoDup(columns)
    requires forall c :: c in missingValues <==> c in columns
    ensures forall c :: c in missingValues' <==> c in columns
    ensures forall c :: c in columnTypes <==> c in columns
    ensures forall c :: c in columnTypes ==> columnTypes[c] == IsNumericColumn(data, c, SummarySample)
    ensures forall c :: c in missingValues' ==>
      missingValues'[c] == missingValues[c] + MissingCount(data[..SampleSize(|data|, SummarySample)], c)
  {
    columnTypes, missingValues' := map[], missingValues;
    for j := 0 to |columns|
      invariant Classified(data, columns, columns[..j], missingValues, columnTypes, missingValues')
    {
      assert columns[..j + 1] == columns[..j] + [columns[j]];
      assert columns[j] !in columns[..j];
      columnTypes, missingValues' := ClassifyOne(data, columns, columns[..j], columns[j], missingValues, columnTypes, missingValues');
    }
    assert columns[..|columns|] == columns;
  }

  /** One step of the first pass: classify `column` and add its sample's missing cells. */
  method ClassifyOne(data: seq<Row>, columns: seq<string>, done: seq<string>, column: string, missingValues: map<string, nat>,
                     columnTypes: map<string, bool>, missingValues': map<string, nat>)
    returns (columnTypes'': map<string, bool>, missingValues'': map<string, nat>)
    requires forall c :: c in missingValues <==> c in columns
    requires column in columns && column !in done
    requires Classified(data, columns, done, missingValues, columnTypes, missingValues')
    ensures Classified(data, columns, done + [column], missingValues, columnTypes'', missingValues'')
  {
    var isNumeric, missing := ClassifyColumn(data, column, SummarySample);
    missingValues'' := missingValues'[column := missingValues'[column] + missing];
    columnTypes'' := columnTypes[column := isNumeric];
  }

  /** Second pass: numeric statistics or the categorical distribution, by column type. */
  method SummarizeColumns(data: seq<Row>, columns: seq<string>, columnTypes: map<string, bool>, missingValues: map<string, nat>)
    returns (numeric: map<string, NumericStats>, categorical: map<string, CategoricalStats>, missingValues': map<string, nat>)
    requires NoDup(columns)
    requires forall c :: c in missingValues <==> c in columns
    requires forall c :: c in columnTypes <==> c in columns
    requires forall c :: c in columnTypes ==> columnTypes[c] == IsNumericColumn(data, c, SummarySample)
    ensures forall c :: c in missingValues' <==> c in columns
    ensures forall c :: c in numeric <==> c in columns && IsNumericColumn(data, c, SummarySample)
    ensures forall c :: c in categorical <==> c in columns && !IsNumericColumn(data, c, SummarySample)
    ensures forall c :: c in numeric ==> numeric[c] == StatsOf(ParsedValues(data, c))
    ensures forall c :: c in categorical ==> categorical[c] == CategoricalStatsOf(data, c)
    ensures forall c :: c in missingValues' ==>
      missingValues'[c] == missingValues[c] + if IsNumericColumn(data, c, SummarySample) then 0 else MissingCount(data, c)
  {
    numeric, categorical, missingValues' := map[], map[], missingValues;
    for j := 0 to |columns|
      invariant forall c :: c in missingValues' <==> c in columns
      invariant forall c :: c in numeric <==> c in columns[..j] && IsNumericColumn(data, c, SummarySample)
      invariant forall c :: c in categorical <==> c in columns[..j] && !IsNumericColumn(data, c, SummarySample)
      invariant forall c :: c in numeric ==> numeric[c] == StatsOf(ParsedValues(data, c))
      invariant forall c :: c in categorical ==> categorical[c] == CategoricalStatsOf(data, c)
      invariant forall c :: c in missingValues' ==>
        missingValues'[c] == missingValues[c] + if c in categorical then MissingCount(data, c) else 0
    {
      var column := columns[j];
      assert columns[..j + 1] == columns[..j] + [column];
      assert column !in columns[..j];
      if columnTypes[column] {
        var values := ParsedValues(data, column);
        numeric := numeric[column := StatsOf(values)];
      } else {
        var stats, missing := CategoricalColumn(data, column);
        missingValues' := missingValues'[column := missingValues'[column] + missing];
        categorical := categorical[column := stats];
      }
    }
    assert columns[..|columns|] == columns;
  }

  /** Every tally is at least the sample's missing cells; a numeric column's tally never exceeds the 10-row sample. */
  lemma MissingTallyBounds(data: seq<Row>, column: string)
    ensures ExpectedMissing(data, column) >= MissingCount(data[..SampleSize(|data|, SummarySample)], column)
    ensures IsNumericColumn(data, column, SummarySample) ==> ExpectedMissing(data, column) <= SummarySample
    ensures !IsNumericColumn(data, column, SummarySample) ==> ExpectedMissing(data, column) >= MissingCount(data, column)
  {
  }

  /** A one-row dataset whose only cell is null: the categorical tally counts that cell twice. */
  lemma MissingTallyCountsSampleTwice()
    ensures ExpectedMissing([[Field("c", Null)]], "c") == 2
  {
    var data := [[Field("c", Null)]];
    assert data[..1] == data;
    assert data[..0] == [];
    assert NumericVotes(data, "c") == 0;
    assert MissingCount(data, "c") == 1;
  }
}
