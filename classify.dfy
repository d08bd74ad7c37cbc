/**
 * Column type inference by majority vote over a sample of the first rows
 * (10 rows for the summary, 20 for chart suggestions), and the missing-cell
 * tally the summary takes over the same sample.
 */
module Classify {
  import opened Values

  function SampleSize(n: nat, limit: nat): (s: nat)
    ensures s <= n && s <= limit && (s == n || s == limit)
  {
    if limit < n then limit else n
  }

  /** A cell that votes "numeric": present, and a number or a string `Number` accepts. */
  predicate IsNumericVote(v: Value) {
    !IsMissing(v) && IsNumericLike(v)
  }

  /** How many of the rows' cells in `column` vote numeric. */
  function NumericVotes(rows: seq<Row>, column: string): (k: nat)
    ensures k <= |rows|
  {
    if rows == [] then 0
    else NumericVotes(rows[..|rows| - 1], column) + (if IsNumericVote(Cell(rows[|rows| - 1], column)) then 1 else 0)
  }

  /** How many of the rows' cells in `column` are missing. */
  function MissingCount(rows: seq<Row>, column: string): (k: nat)
    ensures k <= |rows|
  {
    if rows == [] then 0
    else MissingCount(rows[..|rows| - 1], column) + (if IsMissing(Cell(rows[|rows| - 1], column)) then 1 else 0)
  }

  /** `numericCount > sampleSize / 2` over the first `min(limit, |data|)` rows. */
  predicate IsNumericColumn(data: seq<Row>, column: string, limit: nat) {
    var n := SampleSize(|data|, limit);
    2 * NumericVotes(data[..n], column) > n
  }

  /** The sampling loop: the column's type and its missing cells within the sample. */
  method ClassifyColumn(data: seq<Row>, column: string, limit: nat) returns (numeric: bool, missing: nat)
    ensures numeric == IsNumericColumn(data, column, limit)
    ensures missing == MissingCount(data[..SampleSize(|data|, limit)], column)
  {
    var sampleSize := SampleSize(|data|, limit);
    var numericCount := 0;
    missing := 0;
    for i := 0 to sampleSize
      invariant numericCount == NumericVotes(data[..i], column)
      invariant missing == MissingCount(data[..i], column)
    {
      assert data[..i + 1][..i] == data[..i];
      var value := Cell(data[i], column);
      if IsMissing(value) {
        missing := missing + 1;
        continue;
      }
      if value.Num? || ToNumber(value).Some? {
        numericCount := numericCount + 1;
      }
    }
    numeric := 2 * numericCount > sampleSize;
  }

  /** Within any rows, numeric votes and missing cells are disjoint. */
  lemma {:induction false} VotesAndMissingBound(rows: seq<Row>, column: string)
    ensures NumericVotes(rows, column) + MissingCount(rows, column) <= |rows|
  {
    if rows != [] {
      VotesAndMissingBound(rows[..|rows| - 1], column);
    }
  }

  lemma {:induction false} NoVotesWhenAllMissing(rows: seq<Row>, column: string)
    requires forall i :: 0 <= i < |rows| ==> IsMissing(Cell(rows[i], column))
    ensures NumericVotes(rows, column) == 0
  {
    if rows != [] {
      NoVotesWhenAllMissing(rows[..|rows| - 1], column);
    }
  }

  /** An all-missing column, and any column of an empty dataset, is categorical. */
  lemma AllMissingIsCategorical(data: seq<Row>, column: string, limit: nat)
    requires forall i :: 0 <= i < |data| ==> IsMissing(Cell(data[i], column))
    ensures !IsNumericColumn(data, column, limit)
  {
    var n := SampleSize(|data|, limit);
    NoVotesWhenAllMissing(data[..n], column);
  }

  /** When every sampled cell votes numeric and the sample is not empty, the column is numeric. */
  lemma {:induction false} AllVotesCount(rows: seq<Row>, column: string)
    requires forall i :: 0 <= i < |rows| ==> IsNumericVote(Cell(rows[i], column))
    ensures NumericVotes(rows, column) == |rows|
    ensures rows != [] ==> 2 * NumericVotes(rows, column) > |rows|
  {
    if rows != [] {
      AllVotesCount(rows[..|rows| - 1], column);
    }
  }

  lemma VotesSnoc(rows: seq<Row>, row: Row, column: string)
    ensures NumericVotes(rows + [row], column) == NumericVotes(rows, column) + (if IsNumericVote(Cell(row, column)) then 1 else 0)
  {
    assert (rows + [row])[..|rows|] == rows;
  }

  function OneCell(v: Value): Row {
    [Field("c", v)]
  }

  /** A one-digit string is a number, so it votes numeric. */
  lemma DigitVotes(d: char)
    requires IsDigit(d)
    ensures IsNumericVote(Cell(OneCell(Str([d])), "c"))
  {
    assert LeadingDigits([d]) == [d];
    assert ParseNumber([d]).Some?;
  }

  lemma CellVotes()
    ensures IsNumericVote(Cell(OneCell(Str("1")), "c")) && IsNumericVote(Cell(OneCell(Str("2")), "c"))
    ensures IsNumericVote(Cell(OneCell(Str("3")), "c"))
    ensures !IsNumericVote(Cell(OneCell(Str("x")), "c")) && !IsNumericVote(Cell(OneCell(Null), "c"))
  {
    DigitVotes('1');
    DigitVotes('2');
    DigitVotes('3');
    assert ParseNumber("x") == None;
  }

  function Vote(row: Row, column: string): nat {
    if IsNumericVote(Cell(row, column)) then 1 else 0
  }

  /** The votes of four rows, one by one. */
  lemma FourVotes(data: seq<Row>, column: string)
    requires |data| == 4
    ensures NumericVotes(data, column) == Vote(data[0], column) + Vote(data[1], column) + Vote(data[2], column) + Vote(data[3], column)
  {
    VotesSnoc([], data[0], column);
    VotesSnoc(data[..1], data[1], column);
    VotesSnoc(data[..2], data[2], column);
    VotesSnoc(data[..3], data[3], column);
    assert [] + [data[0]] == data[..1] && data[..1] + [data[1]] == data[..2];
    assert data[..2] + [data[2]] == data[..3] && data[..3] + [data[3]] == data;
  }

  /** Exactly half the sample voting numeric is no majority. */
  lemma HalfIsNoMajority()
    ensures !IsNumericColumn([OneCell(Str("1")), OneCell(Str("2")), OneCell(Str("x")), OneCell(Null)], "c", 10)
  {
    var data := [OneCell(Str("1")), OneCell(Str("2")), OneCell(Str("x")), OneCell(Null)];
    CellVotes();
    FourVotes(data, "c");
    assert data[..4] == data;
  }

  /** Three numeric votes out of four are a majority. */
  lemma ThreeOfFourIsMajority()
    ensures IsNumericColumn([OneCell(Str("1")), OneCell(Str("2")), OneCell(Str("3")), OneCell(Str("x"))], "c", 10)
  {
    var data := [OneCell(Str("1")), OneCell(Str("2")), OneCell(Str("3")), OneCell(Str("x"))];
    CellVotes();
    FourVotes(data, "c");
    assert data[..4] == data;
  }
}
