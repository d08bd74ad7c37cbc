/** The records the analysis reads and produces (an uploaded file, a chart configuration). */
module Types {
  import opened Values

  datatype FileFormat = Csv | Json

  /** An uploaded dataset. Its upload date is not modelled. */
  datatype DataFile = DataFile(id: string, name: string, format: FileFormat, data: seq<Row>, columns: seq<string>)

  datatype ChartType = Bar | Line | Pie | Doughnut | Radar | PolarArea | Scatter | Bubble | Histogram | Table

  /** The filter operations; `Other` is any operation name the transformer does not know. */
  datatype FilterOp = EqualsOp | NotEqualsOp | GreaterThanOp | LessThanOp | ContainsOp | Other(name: string)

  datatype ChartFilter = ChartFilter(column: string, operation: FilterOp, value: Value)

  datatype AggFunction = SumAgg | AverageAgg | CountAgg | MinAgg | MaxAgg

  datatype Aggregation = Aggregation(fn: AggFunction, column: string)

  /** A chart specification. It is never changed once made; its timestamps are not modelled. */
  datatype ChartConfig = ChartConfig(
    id: string,
    kind: ChartType,
    title: string,
    xAxis: Option<string>,
    yAxis: Option<string>,
    filters: seq<ChartFilter>,
    aggregation: Option<Aggregation>,
    groupBy: Option<string>)

  /** JavaScript truthiness of an optional column name: absent and '' are both false. */
  predicate Present(o: Option<string>) {
    o.Some? && o.value != ""
  }
}
