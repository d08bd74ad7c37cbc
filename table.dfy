/**
 * The data table's view logic: cell formatting, pagination by pages of 10
 * rows, page clamping, and what is shown for a dataset. The current page is
 * the component's state, given here as a parameter.
 */
module DataTable {
  import opened Values

  const RowsPerPage: nat := 10
  const MaxCellLength: nat := 50
  const KeptCellPrefix: nat := 47

  /** `formatCellValue(value)` for the values a parsed file holds. */
  function FormatCellValue(v: Value): (s: string)
    ensures v.Null? || v.Undefined? ==> s == ""
    ensures !(v.Null? || v.Undefined?) && |Stringify(v)| <= MaxCellLength ==> s == Stringify(v)
    ensures !(v.Null? || v.Undefined?) && |Stringify(v)| > MaxCellLength ==>
      |s| == MaxCellLength && s[..KeptCellPrefix] == Stringify(v)[..KeptCellPrefix] && s[KeptCellPrefix..] == "..."
    ensures |s| <= MaxCellLength
  {
    if v.Null? || v.Undefined? then ""
    else
      var text := Stringify(v);
      if |text| > MaxCellLength then text[..KeptCellPrefix] + "..." else text
  }

  /** `Math.ceil(n / rowsPerPage)`. */
  function TotalPages(n: nat): (pages: nat)
    ensures pages * RowsPerPage >= n
    ensures pages > 0 ==> (pages - 1) * RowsPerPage < n
    ensures pages == 0 <==> n == 0
  {
    (n + RowsPerPage - 1) / RowsPerPage
  }

  /** `(currentPage - 1) * rowsPerPage`. */
  function StartIndex(page: int): int {
    (page - 1) * RowsPerPage
  }

  /** The index `Array.prototype.slice` resolves a bound to: negative counts from the end, then clamped. */
  function SliceBound(len: nat, k: int): (b: nat)
    ensures b <= len
    ensures 0 <= k <= len ==> b == k
    ensures k > len ==> b == len
  {
    if k < 0 then (if len + k < 0 then 0 else len + k)
    else if k > len then len
    else k
  }

  /** `s.slice(start, end)`. */
  function JsSlice<T>(s: seq<T>, start: int, end: int): (r: seq<T>)
    ensures |r| <= |s|
    ensures 0 <= start <= end <= |s| ==> r == s[start..end]
  {
    var from, to := SliceBound(|s|, start), SliceBound(|s|, end);
    if to <= from then [] else s[from..to]
  }

  /** `data.slice(startIndex, startIndex + rowsPerPage)`. */
  function VisibleRows<T>(data: seq<T>, page: int): seq<T> {
    JsSlice(data, StartIndex(page), StartIndex(page) + RowsPerPage)
  }

  /** `goToPage(page)`: below 1 becomes 1, above the last page becomes the last page. */
  function GoToPage(page: int, totalPages: nat): (p: int)
    ensures totalPages >= 1 ==> 1 <= p <= totalPages
    ensures 1 <= page <= totalPages ==> p == page
    ensures page < 1 && totalPages >= 1 ==> p == 1
    ensures page > totalPages ==> p == totalPages
  {
    var p := if page < 1 then 1 else page;
    if p > totalPages then totalPages else p
  }

  /** What the component shows. */
  datatype View =
    | NoData
    | Grid(columns: seq<string>, cells: seq<seq<string>>, totalPages: nat, pager: bool, previousEnabled: bool, nextEnabled: bool)

  /** One rendered row: the formatted cell of each column. */
  function RenderRow(row: Row, columns: seq<string>): (cells: seq<string>)
    ensures |cells| == |columns|
    ensures forall j :: 0 <= j < |columns| ==> cells[j] == FormatCellValue(Cell(row, columns[j]))
  {
    seq(|columns|, j requires 0 <= j < |columns| => FormatCellValue(Cell(row, columns[j])))
  }

  /** The rendering of `data` on `page`: columns from the first row, the page's rows, the pager. */
  function Render(data: seq<Row>, page: int): View {
    if |data| == 0 then NoData
    else
      var columns := KeysOf(data[0]);
      var visible := VisibleRows(data, page);
      var totalPages := TotalPages(|data|);
      Grid(columns,
        seq(|visible|, i requires 0 <= i < |visible| => RenderRow(visible[i], columns)),
        totalPages, totalPages > 1, page != 1, page != totalPages)
  }

  // ------------------------------------------------------------------ paging

  /** Page `p` of `1..totalPages` holds rows `(p-1)*10 ..` up to 10 of them, never none. */
  lemma PageContents<T>(data: seq<T>, page: int)
    requires 1 <= page <= TotalPages(|data|)
    ensures var start := StartIndex(page);
      var stop := if start + RowsPerPage < |data| then start + RowsPerPage else |data|;
      0 <= start < stop <= |data| && VisibleRows(data, page) == data[start..stop]
    ensures 0 < |VisibleRows(data, page)| <= RowsPerPage
  {
  }

  /** A page past the last one shows nothing. */
  lemma PastLastPageIsEmpty<T>(data: seq<T>, page: int)
    requires page > TotalPages(|data|)
    ensures VisibleRows(data, page) == []
  {
  }

  /** Pages `1..k` laid end to end. */
  function PagesUpTo<T>(data: seq<T>, k: nat): seq<T> {
    if k == 0 then [] else PagesUpTo(data, k - 1) + VisibleRows(data, k)
  }

  /** The first `k` pages are the first `min(10k, n)` rows. */
  lemma {:induction false} PagesUpToIsPrefix<T>(data: seq<T>, k: nat)
    ensures var n := if k * RowsPerPage < |data| then k * RowsPerPage else |data|;
      PagesUpTo(data, k) == data[..n]
  {
    if k > 0 {
      PagesUpToIsPrefix(data, k - 1);
      var m := if (k - 1) * RowsPerPage < |data| then (k - 1) * RowsPerPage else |data|;
      var n := if k * RowsPerPage < |data| then k * RowsPerPage else |data|;
      assert data[..n] == data[..m] + data[m..n];
    }
  }

  /** All pages together are the data, in order, with nothing repeated or lost. */
  lemma PagesCoverData<T>(data: seq<T>)
    ensures PagesUpTo(data, TotalPages(|data|)) == data
  {
    PagesUpToIsPrefix(data, TotalPages(|data|));
    assert data[..|data|] == data;
  }

  /** The pager's buttons cannot leave the page range: previous and next are clamped. */
  lemma NavigationStaysInRange(page: int, totalPages: nat)
    requires 1 <= page <= totalPages
    ensures 1 <= GoToPage(page - 1, totalPages) <= totalPages
    ensures 1 <= GoToPage(page + 1, totalPages) <= totalPages
    ensures page > 1 ==> GoToPage(page - 1, totalPages) == page - 1
    ensures page < totalPages ==> GoToPage(page + 1, totalPages) == page + 1
    ensures page == 1 ==> GoToPage(page - 1, totalPages) == 1
    ensures page == totalPages ==> GoToPage(page + 1, totalPages) == totalPages
  {
  }

  // -------------------------------------------------------------- rendering

  /** An empty dataset shows the "No data available" message, and only then. */
  lemma EmptyDataShowsNoData(data: seq<Row>, page: int)
    ensures Render(data, page).NoData? <==> data == []
  {
  }

  /** A dataset shows the first row's keys as columns, one formatted cell per column, and at most 10 rows. */
  lemma GridShape(data: seq<Row>, page: int)
    requires data != []
    ensures var v := Render(data, page);
      && v.Grid?
      && v.columns == KeysOf(data[0])
      && |v.cells| <= RowsPerPage
      && (forall i :: 0 <= i < |v.cells| ==> |v.cells[i]| == |v.columns|)
      && v.totalPages >= 1
      && (v.pager <==> |data| > RowsPerPage)
  {
    assert |VisibleRows(data, page)| <= RowsPerPage;
  }

  /** A cell longer than 50 characters keeps 47 of them and gains an ellipsis. */
  lemma LongCellIsTruncated()
    ensures FormatCellValue(Str(seq(60, i => 'a'))) == seq(47, i => 'a') + "..."
    ensures FormatCellValue(Null) == "" && FormatCellValue(Undefined) == ""
    ensures FormatCellValue(Bool(true)) == "true"
  {
    assert seq(60, i => 'a')[..47] == seq(47, i => 'a');
  }
}
