/**
 * Lenient numeric coercion of the two score columns of the feature frame,
 * done column by column on the frame in place.
 */
module Coercion {
  import opened Wrappers
  import opened Schema

  /**
   * One cell converted to a number, with failures becoming missing. A number
   * stays as it is; a string becomes the number `parse` reads from it, or
   * missing when it holds none; every other value becomes missing.
   * `parse` stands for the frame library's reading of a numeric string.
   */
  function ToNumeric(c: Cell, parse: string -> Option<real>): (r: Cell)
    ensures IsNumericOrMissing(r)
    ensures IsNumericOrMissing(c) ==> r == c
    ensures c.Val? && c.v.JStr? && parse(c.v.s).None? ==> r == Missing
    ensures c.Val? && c.v.JStr? && parse(c.v.s).Some? ==> r == Val(JNum(parse(c.v.s).value))
    ensures c.Val? && !c.v.JNum? && !c.v.JStr? ==> r == Missing
  {
    match c
    case Val(JNum(_)) => c
    case Val(JStr(s)) =>
      (match parse(s)
       case Some(n) => Val(JNum(n))
       case None => Missing)
    case _ => Missing
  }

  /** The frame with column `j` of every row converted by `ToNumeric`. */
  function CoerceColumn(rows: seq<Row>, j: nat, parse: string -> Option<real>): (r: seq<Row>)
    requires Rectangular(rows) && j < |Columns|
    ensures |r| == |rows| && Rectangular(r)
  {
    seq(|rows|, i requires 0 <= i < |rows| => rows[i][j := ToNumeric(rows[i][j], parse)])
  }

  /** The columns coerced, in the order they are coerced. */
  const ScoreColumns: seq<nat> := [ReadingScore, WritingScore]

  predicate ValidColumns(cols: seq<nat>) {
    forall k :: 0 <= k < |cols| ==> cols[k] < |Columns|
  }

  /** The frame after coercing each column of `cols` in turn. */
  function CoerceColumns(rows: seq<Row>, cols: seq<nat>, parse: string -> Option<real>): (r: seq<Row>)
    requires Rectangular(rows) && ValidColumns(cols)
    ensures |r| == |rows| && Rectangular(r)
    decreases |cols|
  {
    if cols == [] then rows
    else CoerceColumn(CoerceColumns(rows, cols[..|cols| - 1], parse), cols[|cols| - 1], parse)
  }

  /** The frame after the score columns are coerced. */
  function CoerceScores(rows: seq<Row>, parse: string -> Option<real>): (r: seq<Row>)
    requires Rectangular(rows)
    ensures |r| == |rows| && Rectangular(r)
  {
    CoerceColumns(rows, ScoreColumns, parse)
  }

  /**
   * Cell by cell: the score columns are coerced, the categorical columns
   * are left exactly as they were.
   */
  lemma CoerceScoresCells(rows: seq<Row>, parse: string -> Option<real>, i: int, j: int)
    requires Rectangular(rows) && 0 <= i < |rows| && 0 <= j < |Columns|
    ensures CoerceScores(rows, parse)[i][j] == if IsScoreColumn(j) then ToNumeric(rows[i][j], parse) else rows[i][j]
  {
    var once := CoerceColumns(rows, [ReadingScore], parse);
    assert [ReadingScore][..0] == [];
    assert CoerceColumns(rows, [], parse) == rows;
    assert once == CoerceColumn(rows, ReadingScore, parse);
    assert ScoreColumns[..1] == [ReadingScore];
    assert CoerceScores(rows, parse) == CoerceColumn(once, WritingScore, parse);
  }

  /** After coercion every score cell is a number or missing. */
  lemma CoercedScoresAreNumeric(rows: seq<Row>, parse: string -> Option<real>, i: int)
    requires Rectangular(rows) && 0 <= i < |rows|
    ensures IsNumericOrMissing(CoerceScores(rows, parse)[i][ReadingScore])
    ensures IsNumericOrMissing(CoerceScores(rows, parse)[i][WritingScore])
  {
    CoerceScoresCells(rows, parse, i, ReadingScore);
    CoerceScoresCells(rows, parse, i, WritingScore);
  }

  /** Coercing an already coerced frame changes nothing. */
  lemma CoerceScoresIdempotent(rows: seq<Row>, parse: string -> Option<real>)
    requires Rectangular(rows)
    ensures CoerceScores(CoerceScores(rows, parse), parse) == CoerceScores(rows, parse)
  {
    var once := CoerceScores(rows, parse);
    var twice := CoerceScores(once, parse);
    forall i | 0 <= i < |rows| ensures twice[i] == once[i] {
      forall j | 0 <= j < |Columns| ensures twice[i][j] == once[i][j] {
        CoerceScoresCells(once, parse, i, j);
        CoerceScoresCells(rows, parse, i, j);
      }
    }
  }

  /**
   * The coercion loop: for each score column, every row's cell in that column
   * is replaced by its numeric reading, in place.
   */
  method CoerceScoresInPlace(frame: array<Row>, parse: string -> Option<real>)
    requires Rectangular(frame[..])
    modifies frame
    ensures frame[..] == CoerceScores(old(frame[..]), parse)
  {
    for k := 0 to |ScoreColumns|
      invariant Rectangular(frame[..])
      invariant frame[..] == CoerceColumns(old(frame[..]), ScoreColumns[..k], parse)
    {
      var j := ScoreColumns[k];
      ghost var before := frame[..];
      for i := 0 to frame.Length
        invariant forall m :: 0 <= m < i ==> frame[m] == before[m][j := ToNumeric(before[m][j], parse)]
        invariant forall m :: i <= m < frame.Length ==> frame[m] == before[m]
      {
        frame[i] := frame[i][j := ToNumeric(frame[i][j], parse)];
      }
      assert frame[..] == CoerceColumn(before, j, parse);
      assert ScoreColumns[..k + 1][..k] == ScoreColumns[..k];
    }
    assert ScoreColumns[..|ScoreColumns|] == ScoreColumns;
  }
}
