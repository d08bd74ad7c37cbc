# Data analysis core, modelled and verified in Dafny

This project models a browser data-analysis tool:
- **Summary.** `getDataSummary` gives descriptive statistics of an uploaded CSV/JSON dataset. First it sorts columns into numeric and categorical ones by a majority vote over a 10-row sample. Then it computes min, max, mean, median and spread, or the distinct-value count and the five most common values. It also keeps missing-value tallies.
- **Suggestions.** `suggestCharts` gives chart suggestions from a fixed set of rules over a 20-row vote.
- **Chart data.** `prepareChartData` filters the rows and shapes them for a table, a histogram, a grouped and aggregated series, a scatter plot, a pie fallback, or an empty "No data" series. `getChartColors` supplies the palette.
- **Shared state.** A store holds the uploaded files, the active file and each file's chart configurations.
- **Data table.** The table view formats cells, pages through rows 10 at a time and clamps navigation.

The dataset is a `seq<Row>`. A row is an association list in key-insertion order. Cells are `Null | Undefined | Num(real) | Str | Bool`. `Values` models the JavaScript coercions the code relies on:
- `Number(v)`, returning `None` for NaN;
- `String(v)`;
- `Number(v) || 0`;
- the "missing" test (`null`, `undefined` or `''`).

Modules:
- `Values`, `Types`, `Seqs`: cells and coercions, the records, and sequence helpers (`Filter`, `Distinct`, tallies).
- `Classify`: the sample vote. `ClassifyColumn` is the sampling loop.
- `Stats`: numeric statistics and the categorical distribution, specified as functions.
- `Summary`: the two passes of `getDataSummary`, written as loops over the columns.
- `Suggest`: the column split and the rule set, proved against `SuggestedKinds` / `Suggestion`.
- `Prepare`: `ChartDataOf` states what `prepareChartData` returns. `PrepareChartData` computes it with the dictionary-building loops (`GroupRows`, `AggregateGroups`, `CountKeys`).
- `Colors`: `getChartColors` as a loop proved against `ColorAt`.
- `Session`: the provider state as a class `DataStore` with `modifies` clauses. Pure functions (`WithFile`, `WithoutId`, `ActiveAfterRemove`) say what its operations compute.
- `DataTable`: the table's paging and formatting, with the current page given as a parameter.

Some behaviours of the code are easy to miss. The model follows the code in each:
- **`["1","2","3","x"]` is numeric.** Three of four sampled values parse, so the column counts as numeric (`Classify.ThreeOfFourIsMajority`). Exactly half is not a majority (`Classify.HalfIsNoMajority`).
- **Missing cells can be counted twice.** For a categorical column, the tally is the missing cells of the 10-row sample plus every missing cell of the whole column again. So a missing cell inside the sample counts twice (`Summary.ExpectedMissing`, `Summary.MissingTallyCountsSampleTwice`).
- **Missing values become 0.** Min/max/sum/average read missing or unparseable cells as 0 (`Prepare.MissingCountsAsZeroInMin`).
- **The pie fallback with no columns** groups by the key `"undefined"`.

## Model

| member | source | states |
|---|---|---|
| Values.Cell | project/src/utils/dataAnalysis.ts:29 | `row[column]` is `undefined` or the value of some field with that key; it is `undefined` when the row has no such key |
| Values.CellIsFirstMatch | project/src/utils/dataAnalysis.ts:29 | when the row has the key, `row[column]` is the value of the first field with that key |
| Values.KeysLookUpTheirFields | project/src/components/DataTable.tsx:20-58 | with distinct keys, looking up each key that `Object.keys` lists gives that key's own field value |
| Values.NatRoundTrip | project/src/utils/dataAnalysis.ts:36 | `Number` reads back what `String` writes for every natural number: `Number(String(n))` is `n` |
| Values.ForeignCharIsNaN | project/src/utils/dataAnalysis.ts:36 | in the decimal grammar the model reads, a string holding any character other than a digit, a sign or a point, at any position, is NaN |
| Values.IntegerLiteral | project/src/utils/dataAnalysis.ts:36 | `Number("42")` is 42 |
| Values.SignedDecimalLiteral | project/src/utils/dataAnalysis.ts:36 | `Number("-12.5")` is -12.5 |
| Values.TwoPointsLiteral | project/src/utils/dataAnalysis.ts:36 | `Number("1.2.3")` is NaN |
| Values.ToLower | project/src/utils/dataAnalysis.ts:262 | `toLowerCase` lowers each of `A`-`Z` to its small letter, keeps every other character and the length, and leaves no capital behind |
| Values.ToLowerIdempotent | project/src/utils/dataAnalysis.ts:262 | lowering an already lowered string changes nothing |
| Seqs.CountValue | project/src/utils/dataAnalysis.ts:104 | `counts[key] = (counts[key] \|\| 0) + 1` (also at line 442): after counting `key`, the dictionary's keys are still the distinct values seen, in first-insertion order, and each maps to its number of occurrences in `seen + [key]` |
| Classify.SampleSize | project/src/utils/dataAnalysis.ts:23 | `Math.min(limit, data.length)`: no more than either, and equal to one of them |
| Classify.NumericVotes | project/src/utils/dataAnalysis.ts:36-38 | the numeric-vote count never exceeds the rows sampled |
| Classify.MissingCount | project/src/utils/dataAnalysis.ts:31-34 | the missing-cell count never exceeds the rows sampled |
| Classify.ClassifyColumn | project/src/utils/dataAnalysis.ts:21-43 | the sampling loop returns the majority verdict over the first `min(limit, n)` rows and the missing cells in that sample |
| Classify.VotesAndMissingBound | project/src/utils/dataAnalysis.ts:31-38 | missing cells never vote: votes plus missing cells are at most the sample size |
| Classify.NoVotesWhenAllMissing | project/src/utils/dataAnalysis.ts:31-34 | a sample of missing cells casts no numeric vote |
| Classify.AllMissingIsCategorical | project/src/utils/dataAnalysis.ts:42 | an all-missing column, and any column of an empty dataset, is categorical |
| Classify.AllVotesCount | project/src/utils/dataAnalysis.ts:36-42 | when every sampled cell votes numeric, the count is the sample size, a majority of any non-empty sample |
| Classify.HalfIsNoMajority | project/src/utils/dataAnalysis.ts:42 | two numeric votes in a sample of four are not a majority (`>` not `>=`) |
| Classify.ThreeOfFourIsMajority | project/src/utils/dataAnalysis.ts:42 | `["1","2","3","x"]` is numeric |
| Stats.ParsedValues | project/src/utils/dataAnalysis.ts:50-53 | the parsed present values are at most one per row |
| Stats.ParsedValuesAppend | project/src/utils/dataAnalysis.ts:50-53 | extracting values distributes over concatenation, so row order is kept |
| Stats.ParsedValuesSingle | project/src/utils/dataAnalysis.ts:50-53 | one row contributes its number, or nothing when its cell is missing or unparseable |
| Stats.InsertAsc | project/src/utils/dataAnalysis.ts:67 | inserting into a sorted list yields a sorted list with one more copy of the value |
| Stats.SortAsc | project/src/utils/dataAnalysis.ts:67 | the ascending sort is sorted and a permutation of its input |
| Stats.SquaredDeviations | project/src/utils/dataAnalysis.ts:81 | one entry per value: its squared deviation `(v - mean)^2` from the centre, never negative |
| Stats.StatsExtremes | project/src/utils/dataAnalysis.ts:69-70 | `min`/`max` are values of the column and bound every value |
| Stats.StatsMedian | project/src/utils/dataAnalysis.ts:75-78 | the median lies between min and max |
| Stats.StatsMean | project/src/utils/dataAnalysis.ts:71-72 | the mean lies between min and max |
| Stats.MeanBounds | project/src/utils/dataAnalysis.ts:71-72 | a mean lies within any bounds of its values |
| Stats.StatsVarianceNonNegative | project/src/utils/dataAnalysis.ts:81-82 | the mean squared deviation is never negative |
| Stats.VarianceNonNegative | project/src/utils/dataAnalysis.ts:81-82 | the average of squared deviations from any centre is non-negative |
| Stats.StatsConstant | project/src/utils/dataAnalysis.ts:55-91 | a constant column has min = max = mean = median = that value and zero spread |
| Stats.ConstantMeanAndVariance | project/src/utils/dataAnalysis.ts:71-82 | the mean, median and spread of constant values |
| Stats.PresentKeys | project/src/utils/dataAnalysis.ts:96-105 | at most one key per row: missing cells are skipped |
| Stats.Entries | project/src/utils/dataAnalysis.ts:110 | `Object.entries(valueCounts)` has one entry per key |
| Stats.InsertByCount | project/src/utils/dataAnalysis.ts:111 | inserting into a list ranked by count keeps it ranked and adds exactly that entry |
| Stats.SortByCount | project/src/utils/dataAnalysis.ts:111 | the sort by count is non-increasing and a permutation of the entries |
| Stats.InsertByCountStable | project/src/utils/dataAnalysis.ts:111 | an inserted entry goes ahead of the entries with its own count, and those keep their order |
| Stats.SortByCountStable | project/src/utils/dataAnalysis.ts:110-112 | the sort is stable, as `Array.prototype.sort` is since ES2019: the entries with any one count appear in their `Object.entries` order, so ties in the top five go to the earlier keys |
| Stats.RankedEntries | project/src/utils/dataAnalysis.ts:104-111 | the ranked entries are one per distinct key with its true count, no key twice |
| Stats.CategoricalDistribution | project/src/utils/dataAnalysis.ts:94-118 | `uniqueValues` is the number of distinct present values; `mostCommon` holds `min(5, unique)` entries, ranked by count, each a present value with its true count, none repeated |
| Stats.TopOfRanked | project/src/utils/dataAnalysis.ts:110-113 | the first five of a ranked list stay ranked, with true counts and distinct values |
| Stats.MostCommonAreTop | project/src/utils/dataAnalysis.ts:110-113 | any value left out of `mostCommon` occurs at most as often as every listed one |
| Stats.RankedLeftOut | project/src/utils/dataAnalysis.ts:110-113 | a key missing from the top five counts no more than each of them |
| Summary.CountCategorical | project/src/utils/dataAnalysis.ts:94-105 | the categorical scan counts the present values of each key and the column's missing cells |
| Summary.CategoricalColumn | project/src/utils/dataAnalysis.ts:92-119 | the categorical branch yields the distribution `CategoricalStatsOf` and the column's missing count |
| Summary.GetDataSummary | project/src/utils/dataAnalysis.ts:4-123 | `count` is the row count; every column gets a tally; numeric columns get `StatsOf` of their parsed values and categorical ones their distribution, both exactly as the 10-row vote decides; each tally is `ExpectedMissing` |
| Summary.ZeroTallies | project/src/utils/dataAnalysis.ts:14-16 | every column's tally starts at 0, and there is no other key |
| Summary.ClassifyColumns | project/src/utils/dataAnalysis.ts:21-43 | the first pass records every column's type as the vote decides and adds its sample's missing cells to its tally |
| Summary.ClassifyOne | project/src/utils/dataAnalysis.ts:21-43 | one column of the first pass keeps the pass's invariant for one more column |
| Summary.SummarizeColumns | project/src/utils/dataAnalysis.ts:46-120 | the second pass fills `numeric` with exactly the numeric columns and `categorical` with exactly the others, and adds each categorical column's missing cells once more |
| Summary.MissingTallyBounds | project/src/utils/dataAnalysis.ts:31-32 | a tally is at least the sample's missing cells and, for a numeric column, at most 10; a categorical column's tally is at least its missing cells |
| Summary.MissingTallyCountsSampleTwice | project/src/utils/dataAnalysis.ts:31-32 | one null cell in a one-row categorical column is tallied twice |
| Suggest.PartitionColumns | project/src/utils/dataAnalysis.ts:133-154 | the classification loop pushes exactly the numeric columns and the categorical ones, in column order |
| Suggest.PartitionOfColumns | project/src/utils/dataAnalysis.ts:149-153 | the two lists split the columns: each column lands in exactly one, by its 20-row vote |
| Suggest.PartitionKeepsOrder | project/src/utils/dataAnalysis.ts:133-154 | classifying concatenated column lists concatenates the results |
| Suggest.SuggestedKinds | project/src/utils/dataAnalysis.ts:163-236 | there are 1 to 6 suggestions and the last is the table |
| Suggest.SuggestedKindsSuggestible | project/src/utils/dataAnalysis.ts:163-236 | every proposed kind has the columns its specification reads |
| Suggest.SuggestCharts | project/src/utils/dataAnalysis.ts:126-239 | the k-th suggestion is the specification of the k-th kind the rules select, with the k-th generated id |
| Suggest.EmitSuggestions | project/src/utils/dataAnalysis.ts:163-236 | the rule set emits in order exactly the specifications of `SuggestedKinds` |
| Suggest.Emit | project/src/utils/dataAnalysis.ts:166 | one `suggestions.push` appends exactly the specification of `kind` with the next unused id, and keeps the invariant that the k-th suggestion is the k-th kind's specification with the k-th id |
| Suggest.SuggestionRules | project/src/utils/dataAnalysis.ts:163-236 | each rule fires if and only if its condition holds: bar iff both column kinds exist, line iff also more than 5 rows, pie iff a categorical column exists, scatter and histogram iff there are two numeric columns; the table is last |
| Suggest.KindLists | project/src/utils/dataAnalysis.ts:163-236 | the complete list of kinds for each combination of conditions |
| Suggest.SuggestionOrder | project/src/utils/dataAnalysis.ts:163-236 | the kinds always come out in bar, line, pie, scatter, histogram, table order, each at most once |
| Suggest.SuggestionAxes | project/src/utils/dataAnalysis.ts:166-236 | every axis a suggestion names is a column of the file (or `'count'`), categorical on the x axis of bar/line/pie and numeric where the rule needs a number; only the pie has an aggregation |
| Suggest.SixRowsTwoColumns | project/src/utils/dataAnalysis.ts:163-204 | one categorical and one numeric column over six rows give bar, line, pie, table |
| Suggest.TableAlwaysLast | project/src/utils/dataAnalysis.ts:229-236 | the data table is always suggested, exactly once, last |
| Suggest.NoColumnsOnlyTable | project/src/utils/dataAnalysis.ts:229-236 | without columns only the table is suggested |
| Suggest.NoRowsPieAndTable | project/src/utils/dataAnalysis.ts:135-153 | without rows every column is categorical, and the suggestions are pie and table |
| Prepare.FilteringKeepsExactly | project/src/utils/dataAnalysis.ts:247-268 | the kept rows are exactly the rows passing every filter, each of them passes, and order is kept |
| Prepare.NoFiltersKeepAll | project/src/utils/dataAnalysis.ts:247 | an empty filter list keeps every row |
| Prepare.UnknownOperationPasses | project/src/utils/dataAnalysis.ts:263-264 | an unknown filter operation lets every row through |
| Prepare.ContainsIgnoresCase | project/src/utils/dataAnalysis.ts:261-262 | `contains` is case-insensitive in its needle: needles that lower to the same string keep the same rows, and a needle passes the rows its lowered form passes |
| Prepare.AliceContainsAli | project/src/utils/dataAnalysis.ts:261-262 | `name contains "ALI"` keeps a row whose name is `"Alice"` |
| Prepare.AgeAboveThirty | project/src/utils/dataAnalysis.ts:257-258 | `age greaterThan 30` over 25, 35, 40 keeps the last two rows |
| Prepare.GroupKeys | project/src/utils/dataAnalysis.ts:296 | one grouping key per row |
| Prepare.GroupKeysAt | project/src/utils/dataAnalysis.ts:296 | the `i`-th grouping key is the key of the `i`-th row, so key order is row order |
| Prepare.ColumnNumbers | project/src/utils/dataAnalysis.ts:313 | one number per row of the group: row `i` gives `Number(row[column]) \|\| 0` |
| Prepare.GroupSize | project/src/utils/dataAnalysis.ts:295-301 | a group has as many rows as its key occurs among the row keys |
| Prepare.AddToGroup | project/src/utils/dataAnalysis.ts:296-300 | pushing one row keeps `groupedData` equal to the keys in first-occurrence order with each key's rows |
| Prepare.GroupRows | project/src/utils/dataAnalysis.ts:295-301 | the grouping loop leaves the distinct keys in order, each with exactly its rows |
| Prepare.MinOf | project/src/utils/dataAnalysis.ts:325-327 | `Math.min(...)` is one of the values and below all of them |
| Prepare.MaxOf | project/src/utils/dataAnalysis.ts:330-332 | `Math.max(...)` is one of the values and above all of them |
| Prepare.AggregateBounds | project/src/utils/dataAnalysis.ts:310-333 | min ≤ average ≤ max for every group, min and max being values of the group |
| Prepare.MissingCountsAsZeroInMin | project/src/utils/dataAnalysis.ts:325-327 | a null or absent cell counts as 0 in the minimum |
| Prepare.GroupValues | project/src/utils/dataAnalysis.ts:306-343 | one aggregate per label |
| Prepare.LabelsHaveRows | project/src/utils/dataAnalysis.ts:295-301 | every label has a non-empty group |
| Prepare.AggregateGroups | project/src/utils/dataAnalysis.ts:306-339 | the aggregation loop yields each label's aggregate over exactly that label's rows |
| Prepare.AggregateEach | project/src/utils/dataAnalysis.ts:306-339 | the `forEach` stores one aggregate per label, in label order |
| Prepare.GroupLookup | project/src/utils/dataAnalysis.ts:306 | every label finds its non-empty group in the dictionary |
| Prepare.ScatterPoints | project/src/utils/dataAnalysis.ts:404-407 | one point per row |
| Prepare.CountKeys | project/src/utils/dataAnalysis.ts:440-443 | the counting loop leaves the distinct keys in first-occurrence order, each with its occurrence count |
| Prepare.CountFirstColumn | project/src/utils/dataAnalysis.ts:437-446 | the pie counts are the group sizes of the first column's keys, in label order |
| Prepare.TalliedGroupSizes | project/src/utils/dataAnalysis.ts:440-446 | the tally of a key equals its group's size |
| Prepare.SeriesOf | project/src/utils/dataAnalysis.ts:291-354 | the grouping, aggregation and colouring compute `GroupedSeries` |
| Prepare.PrepareChartData | project/src/utils/dataAnalysis.ts:242-468 | the transformer computes exactly `ChartDataOf`, branch by branch in the code's order |
| Prepare.TableIsFirstRows | project/src/utils/dataAnalysis.ts:271-275 | a table holds the first `min(100, n)` filtered rows |
| Prepare.HistogramIsParsedValues | project/src/utils/dataAnalysis.ts:278-288 | a histogram holds the filtered column's present, parseable values in row order, at most one per row |
| Prepare.HistogramDropsInvalid | project/src/utils/dataAnalysis.ts:279-283 | `[1, 2, "x", null, 4]` gives `[1, 2, 4]` |
| Prepare.GroupedSeriesShape | project/src/utils/dataAnalysis.ts:342-353 | labels are distinct and are exactly the keys present; one value and one palette colour per label; a border colour iff the chart is a line |
| Prepare.CountsAddUpToRows | project/src/utils/dataAnalysis.ts:321-323 | counting, the values add up to the number of rows grouped |
| Prepare.GroupCountsAddUp | project/src/utils/dataAnalysis.ts:321-323 | the group sizes of the distinct keys add up to the row count |
| Prepare.OnePointPerRow | project/src/utils/dataAnalysis.ts:403-416 | a scatter chart has one point per filtered row, coordinates `Number(v) \|\| 0` |
| Prepare.XYDefaultsToSum | project/src/utils/dataAnalysis.ts:396-399 | without an aggregation the x/y branch sums `Number(y) \|\| 0` per x category, legend `yAxis` |
| Prepare.GroupByDefaultsToCount | project/src/utils/dataAnalysis.ts:335-338 | a grouped chart without an aggregation counts, so its values add up to the filtered row count; legend is the title |
| Prepare.PieFallbackCounts | project/src/utils/dataAnalysis.ts:435-456 | the pie fallback counts the first column's values, slices adding up to the filtered rows, no legend or border |
| Prepare.OtherwiseNoData | project/src/utils/dataAnalysis.ts:459-467 | every other configuration gets the empty "No data" series |
| Colors.HexByte | project/src/utils/dataAnalysis.ts:502-504 | a two-digit hexadecimal parse is below 256 |
| Colors.GetChartColors | project/src/utils/dataAnalysis.ts:471-511 | exactly `count` colours, the i-th being base colour i for i < 10 and otherwise the variant of base colour `i mod 10` at opacity `0.7 - 0.15 * floor(i / 10)` |
| Colors.OpacityDecreases | project/src/utils/dataAnalysis.ts:494-497 | generated variants are below opacity 0.7 and never rise along the palette |
| Colors.FirstVariants | project/src/utils/dataAnalysis.ts:496-506 | colours 10 and 11 are `rgba(59, 130, 246, 0.55)` and `rgba(139, 92, 246, 0.55)` |
| Session.FindByName | project/src/context/DataContext.tsx:24 | `findIndex` returns the first index with the name, or -1 when there is none |
| Session.DataStore.constructor | project/src/context/DataContext.tsx:17-19 | the provider starts with no files, nothing active and no configurations |
| Session.DataStore.AddFile | project/src/context/DataContext.tsx:21-34 | a file of the same name is replaced in place, otherwise the file is appended; it becomes active; configurations are untouched; unique names stay unique |
| Session.DataStore.RemoveFile | project/src/context/DataContext.tsx:36-47 | files with the id go; an active removed file hands over to the first remaining one or to none; its configurations go; unique names stay unique |
| Session.DataStore.SetActiveFile | project/src/context/DataContext.tsx:49-51 | only the active id changes, to the given one |
| Session.DataStore.UpdateChartConfigs | project/src/context/DataContext.tsx:53-58 | only that file's configurations change, set or created |
| Session.AddNewNameAppends | project/src/context/DataContext.tsx:31 | a new name is appended, earlier files unmoved |
| Session.AddKnownNameReplaces | project/src/context/DataContext.tsx:25-29 | a known name is replaced at its position; the length and every other file stay |
| Session.AddedFileIsPresent | project/src/context/DataContext.tsx:21-32 | the added file is in the list and is the one found under its name |
| Session.AddKeepsNamesUnique | project/src/context/DataContext.tsx:21-32 | adding keeps names unique |
| Session.AddIsIdempotent | project/src/context/DataContext.tsx:21-32 | adding the same file twice is adding it once |
| Session.RemoveKeepsOthers | project/src/context/DataContext.tsx:37 | removal keeps exactly the files with another id, in order |
| Session.RemoveUnknownIdKeepsAll | project/src/context/DataContext.tsx:37 | removing an id no file has changes nothing |
| Session.RemoveKeepsNamesUnique | project/src/context/DataContext.tsx:37 | removal keeps names unique |
| Session.RemovedIdIsNotActive | project/src/context/DataContext.tsx:38-41 | after removal the removed id is never active; another active id is kept; otherwise the first remaining file, or none |
| Session.AddThenRemoveRestores | project/src/context/DataContext.tsx:21-47 | removing a file just added under a new name and a new id restores the list |
| DataTable.FormatCellValue | project/src/components/DataTable.tsx:93-107 | `null`/`undefined` show as empty; text of up to 50 characters is shown whole; longer text keeps its first 47 characters and gains `...`, 50 in all |
| DataTable.TotalPages | project/src/components/DataTable.tsx:23 | `Math.ceil(n / 10)`: the least page count covering the rows, 0 only for no rows |
| DataTable.SliceBound | project/src/components/DataTable.tsx:25 | `slice` clamps a bound into `0..length` |
| DataTable.JsSlice | project/src/components/DataTable.tsx:25 | `slice` of in-range bounds is the subsequence between them |
| DataTable.GoToPage | project/src/components/DataTable.tsx:27-31 | below 1 goes to 1, past the last goes to the last, in-range pages are kept |
| DataTable.RenderRow | project/src/components/DataTable.tsx:53-60 | one cell per column: cell `j` is `formatCellValue(row[columns[j]])` |
| DataTable.PageContents | project/src/components/DataTable.tsx:24-25 | page p of `1..totalPages` is rows `(p-1)*10` up to ten further, never empty |
| DataTable.PastLastPageIsEmpty | project/src/components/DataTable.tsx:24-25 | a page past the last shows no rows |
| DataTable.PagesUpToIsPrefix | project/src/components/DataTable.tsx:23-25 | the first k pages are the first `min(10k, n)` rows |
| DataTable.PagesCoverData | project/src/components/DataTable.tsx:23-25 | the pages laid end to end are the data: nothing lost, repeated or reordered |
| DataTable.NavigationStaysInRange | project/src/components/DataTable.tsx:27-31 | previous/next never leave `1..totalPages`, and move by one when they can |
| DataTable.EmptyDataShowsNoData | project/src/components/DataTable.tsx:11-17 | "No data available" shows if and only if the data is empty |
| DataTable.GridShape | project/src/components/DataTable.tsx:20-87 | otherwise: columns from the first row, at most 10 rows of one cell per column, and a pager iff there are more than 10 rows |
| DataTable.LongCellIsTruncated | project/src/components/DataTable.tsx:93-107 | a 60-character cell shows as 47 characters and `...`; `null` and `undefined` show as empty |

## Definitions

The definitions the contracts of "## Model" are stated against:

| member | source | states |
|---|---|---|
| Values.KeysOf | project/src/components/DataTable.tsx:20 | `Object.keys(row)`: the row's keys, in field order |
| Values.IsMissing | project/src/utils/dataAnalysis.ts:31 | `null`, `undefined` or `''` (also at lines 52, 98 and 281) |
| Values.ToNumber | project/src/utils/dataAnalysis.ts:36 | `Number(v)`: a number is itself, `undefined` is NaN, `null` is 0, `true`/`false` are 1/0, a string is its decimal parse |
| Values.IsNumericLike | project/src/utils/dataAnalysis.ts:36 | `typeof value === 'number' \|\| !isNaN(Number(value))` (also at line 143) |
| Values.ParseNumber | project/src/utils/dataAnalysis.ts:36 | `Number(s)` on a string: an optional sign, digits, at most one point; `""` is 0; anything else is NaN |
| Values.NumOrZero | project/src/utils/dataAnalysis.ts:313 | `Number(v) \|\| 0`: NaN becomes 0 |
| Values.NumberToString | project/src/utils/dataAnalysis.ts:103 | `String(x)` for a number: integers exactly, fractions as decimal digits |
| Values.Stringify | project/src/utils/dataAnalysis.ts:103 | `String(value)` for every cell kind (also at lines 262, 296, 362 and 441) |
| Values.Includes | project/src/utils/dataAnalysis.ts:262 | `haystack.includes(needle)`: the needle occurs at some position |
| Classify.IsNumericVote | project/src/utils/dataAnalysis.ts:31-38 | a sampled cell votes numeric when it is present and a number or a string `Number` accepts |
| Classify.IsNumericColumn | project/src/utils/dataAnalysis.ts:42 | more than half of the first `min(limit, n)` cells vote numeric |
| Stats.Mean | project/src/utils/dataAnalysis.ts:71-72 | the sum over the count |
| Stats.Median | project/src/utils/dataAnalysis.ts:75-78 | the middle value, or the mean of the two middle values for an even count |
| Stats.Variance | project/src/utils/dataAnalysis.ts:81-82 | the mean squared deviation from the mean |
| Stats.StatsOf | project/src/utils/dataAnalysis.ts:55-91 | all zeros for no values; otherwise min and max of the sorted values, mean, median and variance |
| Stats.CategoricalStatsOf | project/src/utils/dataAnalysis.ts:94-118 | the number of distinct present values, and the first five entries of the value counts sorted by count |
| Stats.Top | project/src/utils/dataAnalysis.ts:112 | `slice(0, 5)` |
| Summary.ExpectedMissing | project/src/utils/dataAnalysis.ts:31-32 | the sample's missing cells, plus every missing cell of the column for a categorical column (line 99) |
| Suggest.NumericColumnsOf | project/src/utils/dataAnalysis.ts:149-150 | the numeric columns, in column order |
| Suggest.CategoricalColumnsOf | project/src/utils/dataAnalysis.ts:151-152 | the categorical columns, in column order |
| Suggest.Suggestion | project/src/utils/dataAnalysis.ts:166-236 | the specification each rule pushes: type, title, axes and, for the pie, its aggregation |
| Types.Present | project/src/utils/dataAnalysis.ts:291 | JavaScript truthiness of an optional column name: absent and `''` are both false (also at lines 197, 278 and 357) |
| Prepare.Passes | project/src/utils/dataAnalysis.ts:250-265 | one filter on one row, by operation; an unknown operation passes |
| Prepare.PassesAll | project/src/utils/dataAnalysis.ts:249 | `filters.every(...)` |
| Prepare.ApplyFilters | project/src/utils/dataAnalysis.ts:247-268 | the rows passing every filter, in order, when there are filters; otherwise all rows |
| Prepare.Aggregate | project/src/utils/dataAnalysis.ts:310-333 | sum, average, count, minimum or maximum of a group's numbers (also at lines 379-398) |
| Prepare.ColumnKey | project/src/utils/dataAnalysis.ts:296 | the grouping key `String(row[column])` (also at lines 362 and 441) |
| Prepare.GroupOf | project/src/utils/dataAnalysis.ts:295-301 | the rows with the given key, in row order |
| Prepare.GroupedSeries | project/src/utils/dataAnalysis.ts:291-354 | the distinct keys as labels, each label's aggregate, one palette colour per label, a border colour for a line chart (also at lines 357-431) |
| Prepare.FirstColumn | project/src/utils/dataAnalysis.ts:437 | `file.columns[0]`, the key `"undefined"` when there are no columns |
| Prepare.ChartDataOf | project/src/utils/dataAnalysis.ts:242-468 | the transformer's result, branch by branch in the code's order |
| Colors.Opacity | project/src/utils/dataAnalysis.ts:497 | `0.7 - floor(i / 10) * 0.15`, in hundredths |
| Colors.ColorAt | project/src/utils/dataAnalysis.ts:486-509 | base colour i below 10, otherwise the rgba variant of base colour `i mod 10` |
| Colors.Palette | project/src/utils/dataAnalysis.ts:471-511 | the first `count` colours |
| Session.WithFile | project/src/context/DataContext.tsx:21-32 | the file list after `addFile`: replace the first file of that name, or append |
| Session.WithoutId | project/src/context/DataContext.tsx:37 | the files with another id, in order |
| Session.ActiveAfterRemove | project/src/context/DataContext.tsx:38-41 | the active id after `removeFile`: the first remaining file's id, or none, when the removed id was active; otherwise unchanged |
| DataTable.StartIndex | project/src/components/DataTable.tsx:24 | `(currentPage - 1) * rowsPerPage` |
| DataTable.VisibleRows | project/src/components/DataTable.tsx:25 | `data.slice(startIndex, startIndex + rowsPerPage)` |
| DataTable.Render | project/src/components/DataTable.tsx:11-87 | the "No data available" view, or the columns of the first row, the page's formatted rows and the pager |

## Left out

- Rendering (JSX, class names, Chart.js), the `Histogram` component's binning and the file parser. They are not part of this model. `prepareChartData` is modelled up to the data it returns.
- `borderWidth: 1` on each series dataset is not represented in `ChartData`.
- `Math.random()` chart identifiers and `new Date()` timestamps. Identifiers are a caller-supplied sequence (`ids[k]` for the k-th chart). Dates are not modelled.
- Floating point. Numbers are exact reals, so IEEE rounding is not modelled (for example, `0.7 - 0.15` prints as `0.5499999999999999` in JavaScript). Opacities are kept in hundredths.
- Stats.StatsOf: the spread is the population variance. `Math.sqrt` of it (the summary's `stdDev`) is not taken, because square roots of reals are not available.
- Stats.ParsedValues: a present cell that `Number` rejects is dropped. The source keeps it as NaN (lines 50-53), which reals cannot express.
- Stats.StatsOf: with such a NaN among the values, the source's mean and spread are NaN. Its min, max and median are whatever `sort` leaves at the first, last and middle positions once the comparator returns NaN, which can be ordinary numbers. The model gives the statistics of the parseable values instead.
- Values.ToNumber: only decimal literals (an optional sign, digits, at most one point) and `""` as 0. Whitespace trimming, exponents, hexadecimal, `Infinity` and other `Number` grammar are not modelled.
- Values.ForeignCharIsNaN: JavaScript's `Number` also accepts surrounding whitespace, an exponent letter, a hexadecimal prefix and `Infinity`; the lemma holds of the modelled decimal grammar only.
- Values.Stringify: numbers print as integers or plain decimals (up to 20 fraction digits). JavaScript's exponent notation is not modelled.
- Values.ToLower: only ASCII letters are lowered. Unicode case mapping is not modelled.
- String lengths count characters, not UTF-16 code units.
- Key order. Object keys are kept in first-insertion order. This covers dictionary keys (group labels, value counts) and the table's header columns from `Object.keys(data[0])`. JavaScript enumerates integer-like keys first, in numeric order: headers `name,2021` give the columns `["2021", "name"]`, but the model gives `["name", "2021"]`. That ordering is not modelled.
- `Object.prototype` keys are treated as ordinary keys; the model chooses that, and in JavaScript they are not ordinary:
  - As group keys (lines 297-300 and 365-369), a value such as `"constructor"`, `"toString"` or `"__proto__"` finds an inherited truthy member, so the `[]` initialiser is skipped and `groupedData[v].push(...)` throws a TypeError. `prepareChartData` then throws where the model returns a series.
  - As count keys (lines 104 and 442), `(counts["constructor"] || 0) + 1` is the string `"function Object() { [native code] }1"`, not 1.
  - A count assigned to `counts["__proto__"]` is not an object, so the assignment is ignored: that value is never counted, and `Object.keys` / `Object.entries` never list it.
  - As cell lookups, a row without a key such as `constructor` gives `undefined` in the model. In JavaScript the lookup finds the inherited function, so `getDataSummary` counts a present value `"function Object() { [native code] }"` (lines 98-104) where the model counts a missing cell.
- Prepare.MinOf / Prepare.MaxOf: the argument-count limit of `Math.min(...xs)` / `Math.max(...xs)` spread calls is not modelled.
- Session.DataStore.RemoveFile: the active file is chosen from the same file list that the removal filters. The source reads `files` from the render's closure rather than the updater's `prevFiles`. The two agree unless several updates are batched before a re-render; that case is not modelled.
- React's asynchronous state updates and re-rendering. Each store operation takes effect immediately.
- DataTable.FormatCellValue: objects and arrays (`JSON.stringify`) are not cell values here. Cells are `null`, `undefined`, numbers, strings and booleans.
- `setTimeout` and other timing in the calling components.
- Summary.GetDataSummary requires the dataset's column names to be distinct. `Object.keys` of a JSON record gives distinct names. A CSV file with a repeated header name sends one column through both passes twice; that case is not modelled.
- Suggest.SuggestCharts requires at least six identifiers, the most the rule set draws.
