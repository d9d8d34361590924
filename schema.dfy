/**
 * The fixed feature schema of the prediction endpoints and the values that
 * flow through request normalisation.
 */
module Schema {

  /**
   * A decoded JSON value. Numbers are exact rationals: the model does not
   * follow floating-point rounding.
   */
  datatype Json =
    | JNull
    | JBool(b: bool)
    | JNum(n: real)
    | JStr(s: string)
    | JArr(items: seq<Json>)
    | JObj(fields: map<string, Json>)

  /**
   * One cell of the feature frame handed to the predictor. `Missing` is the
   * frame's not-a-number marker (an absent key, a failed numeric coercion);
   * a Python `None` is kept as the value `Val(JNull)`.
   */
  datatype Cell = Missing | Val(v: Json)

  /** One row of the feature frame, aligned with `Columns`. */
  type Row = seq<Cell>

  /** The feature columns, in the order the model was trained on. */
  const Columns: seq<string> := [
    "gender",
    "race_ethnicity",
    "parental_level_of_education",
    "lunch",
    "test_preparation_course",
    "reading_score",
    "writing_score"
  ]

  /** Positions of the two numeric columns in `Columns`. */
  const ReadingScore: nat := 5
  const WritingScore: nat := 6

  predicate IsScoreColumn(j: int) {
    j == ReadingScore || j == WritingScore
  }

  /** A row holds exactly one cell per schema column. */
  predicate WellFormed(r: Row) {
    |r| == |Columns|
  }

  /** Every row of a frame has the schema's width. */
  predicate Rectangular(rows: seq<Row>) {
    forall i :: 0 <= i < |rows| ==> WellFormed(rows[i])
  }

  /** What a numeric column may hold once coerced: a number or the missing marker. */
  predicate IsNumericOrMissing(c: Cell) {
    c == Missing || (c.Val? && c.v.JNum?)
  }
}
