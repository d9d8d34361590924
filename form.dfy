/**
 * The HTML form endpoint: one submission, read field by field into a
 * single feature row, scores parsed strictly.
 */
module Form {
  import opened Wrappers
  import opened Schema
  import opened Frame

  /** Why a submission produced no result. */
  datatype FormFailure =
    | ScoreMissing(field: string)                // the score field is absent: float(None) raises
    | ScoreNotNumeric(field: string, text: string) // the score text is not a number
    | PredictorFailed(reason: string)            // the predictor raised
    | NoPrediction                               // the predictor returned no output to show

  /** The page the form endpoint renders: its status, the result shown, the error shown. */
  datatype Page = Page(status: int, result: Option<real>, error: Option<string>)

  /** The text of the exception behind each failure. */
  function FailureText(f: FormFailure): string {
    match f
    case ScoreMissing(_) => "float() argument must be a string or a real number, not 'NoneType'"
    case ScoreNotNumeric(_, t) => "could not convert string to float: '" + t + "'"
    case PredictorFailed(e) => e
    case NoPrediction => "list index out of range"
  }

  /** The form field `key` as a cell: its text, or `None` when the field is absent. */
  function FieldCell(form: map<string, string>, key: string): Cell {
    if key in form then Val(JStr(form[key])) else Val(JNull)
  }

  /**
   * The score field `key` parsed as a number. `toFloat` stands for the
   * language's float conversion of a text.
   */
  function ReadScore(form: map<string, string>, key: string, toFloat: string -> Option<real>): (r: Result<real, FormFailure>)
    ensures r.Ok? <==> key in form && toFloat(form[key]).Some?
    ensures r.Ok? ==> r.value == toFloat(form[key]).value
    ensures r.Err? ==> (r.error.ScoreMissing? || r.error.ScoreNotNumeric?) && r.error.field == key
  {
    if key !in form then Err(ScoreMissing(key))
    else
      match toFloat(form[key])
      case None => Err(ScoreNotNumeric(key, form[key]))
      case Some(x) => Ok(x)
  }

  /**
   * The single row of a submission. `race_ethnicity` comes from the field
   * `ethnicity`; the reading score is read before the writing score.
   */
  function FormRow(form: map<string, string>, toFloat: string -> Option<real>): (r: Result<Row, FormFailure>)
    ensures r.Ok? <==> ScoreReadable(form, "reading_score", toFloat) && ScoreReadable(form, "writing_score", toFloat)
    ensures r.Ok? ==> WellFormed(r.value)
    ensures !ScoreReadable(form, "reading_score", toFloat) ==> r.Err? && (r.error.ScoreMissing? || r.error.ScoreNotNumeric?) && r.error.field == "reading_score"
  {
    match ReadScore(form, "reading_score", toFloat)
    case Err(f) => Err(f)
    case Ok(reading) =>
      match ReadScore(form, "writing_score", toFloat)
      case Err(f) => Err(f)
      case Ok(writing) =>
        Ok([FieldCell(form, "gender"),
            FieldCell(form, "ethnicity"),
            FieldCell(form, "parental_level_of_education"),
            FieldCell(form, "lunch"),
            FieldCell(form, "test_preparation_course"),
            Val(JNum(reading)),
            Val(JNum(writing))])
  }

  function Fail(f: FormFailure): Page {
    Page(500, None, Some(FailureText(f)))
  }

  /** The page rendered for a POSTed form. */
  function PredictDatapoint(
    form: map<string, string>,
    toFloat: string -> Option<real>,
    predict: seq<Row> -> Result<seq<real>, string>): (page: Page)
    ensures || (page.status == 200 && page.result.Some? && page.error.None?)
            || (page.status == 500 && page.result.None? && page.error.Some?)
  {
    match FormRow(form, toFloat)
    case Err(f) => Fail(f)
    case Ok(row) =>
      match predict([row])
      case Err(e) => Fail(PredictorFailed(e))
      case Ok(preds) =>
        if |preds| == 0 then Fail(NoPrediction) else Page(200, Some(preds[0]), None)
  }

  /** A score field that is present and parses as a number. */
  predicate ScoreReadable(form: map<string, string>, key: string, toFloat: string -> Option<real>) {
    key in form && toFloat(form[key]).Some?
  }

  /**
   * A submitted row has the schema's seven columns: `race_ethnicity` is the
   * `ethnicity` field, every other categorical column the field of its own
   * name, the scores the parsed numbers.
   */
  lemma FormRowLayout(form: map<string, string>, toFloat: string -> Option<real>)
    requires ScoreReadable(form, "reading_score", toFloat) && ScoreReadable(form, "writing_score", toFloat)
    ensures FormRow(form, toFloat).Ok?
    ensures WellFormed(FormRow(form, toFloat).value)
    ensures FormRow(form, toFloat).value[1] == FieldCell(form, "ethnicity")
    ensures forall j :: 0 <= j < ReadingScore && j != 1 ==> FormRow(form, toFloat).value[j] == FieldCell(form, Columns[j])
    ensures FormRow(form, toFloat).value[ReadingScore] == Val(JNum(toFloat(form["reading_score"]).value))
    ensures FormRow(form, toFloat).value[WritingScore] == Val(JNum(toFloat(form["writing_score"]).value))
  {
  }

  /** The form never reads a field named `race_ethnicity`. */
  lemma FormIgnoresRaceEthnicityField(form: map<string, string>, toFloat: string -> Option<real>,
                                      predict: seq<Row> -> Result<seq<real>, string>)
    ensures PredictDatapoint(form - {"race_ethnicity"}, toFloat, predict) == PredictDatapoint(form, toFloat, predict)
  {
    var form' := form - {"race_ethnicity"};
    forall key | key != "race_ethnicity" ensures FieldCell(form', key) == FieldCell(form, key) { }
    assert ReadScore(form', "reading_score", toFloat) == ReadScore(form, "reading_score", toFloat);
    assert ReadScore(form', "writing_score", toFloat) == ReadScore(form, "writing_score", toFloat);
    assert FormRow(form', toFloat) == FormRow(form, toFloat);
  }

  /**
   * A missing or non-numeric score fails the submission with status 500 and
   * an error in place of a result, whatever the predictor would do.
   */
  lemma UnreadableScoreIs500(form: map<string, string>, toFloat: string -> Option<real>,
                             predict: seq<Row> -> Result<seq<real>, string>,
                             other: seq<Row> -> Result<seq<real>, string>)
    requires !ScoreReadable(form, "reading_score", toFloat) || !ScoreReadable(form, "writing_score", toFloat)
    ensures PredictDatapoint(form, toFloat, predict).status == 500
    ensures PredictDatapoint(form, toFloat, predict).result == None
    ensures PredictDatapoint(form, toFloat, predict).error.Some?
    ensures PredictDatapoint(form, toFloat, predict) == PredictDatapoint(form, toFloat, other)
  {
  }

  /**
   * A result is shown exactly when both scores parse and the predictor
   * answers with at least one output; the result is its first output.
   */
  lemma FormSuccessIff(form: map<string, string>, toFloat: string -> Option<real>,
                       predict: seq<Row> -> Result<seq<real>, string>)
    ensures PredictDatapoint(form, toFloat, predict).status == 200
      <==> FormRow(form, toFloat).Ok? && predict([FormRow(form, toFloat).value]).Ok?
           && |predict([FormRow(form, toFloat).value]).value| > 0
    ensures PredictDatapoint(form, toFloat, predict).status == 200
      ==> PredictDatapoint(form, toFloat, predict).result == Some(predict([FormRow(form, toFloat).value]).value[0])
    ensures PredictDatapoint(form, toFloat, predict).status != 200
      ==> PredictDatapoint(form, toFloat, predict).status == 500 && PredictDatapoint(form, toFloat, predict).error.Some?
  {
  }

  /** Every categorical field of the form is present. */
  predicate HasCategoricalFields(form: map<string, string>) {
    && "gender" in form
    && "ethnicity" in form
    && "parental_level_of_education" in form
    && "lunch" in form
    && "test_preparation_course" in form
  }

  /** The JSON object an API client would send for the same submission. */
  function AsInstance(form: map<string, string>, reading: real, writing: real): map<string, Json>
    requires HasCategoricalFields(form)
  {
    map[
      "gender" := JStr(form["gender"]),
      "race_ethnicity" := JStr(form["ethnicity"]),
      "parental_level_of_education" := JStr(form["parental_level_of_education"]),
      "lunch" := JStr(form["lunch"]),
      "test_preparation_course" := JStr(form["test_preparation_course"]),
      "reading_score" := JNum(reading),
      "writing_score" := JNum(writing)]
  }

  /**
   * The two endpoints agree: a complete submission gives the row of the JSON
   * object holding the same values, with `ethnicity` under `race_ethnicity`.
   */
  lemma FormAgreesWithNamedInstance(form: map<string, string>, toFloat: string -> Option<real>)
    requires HasCategoricalFields(form)
    requires ScoreReadable(form, "reading_score", toFloat) && ScoreReadable(form, "writing_score", toFloat)
    ensures FormRow(form, toFloat)
      == Ok(NamedRow(AsInstance(form, toFloat(form["reading_score"]).value, toFloat(form["writing_score"]).value)))
  {
    var row := FormRow(form, toFloat).value;
    var named := NamedRow(AsInstance(form, toFloat(form["reading_score"]).value, toFloat(form["writing_score"]).value));
    FormRowLayout(form, toFloat);
    forall j | 0 <= j < |Columns| ensures row[j] == named[j] {
      if j < ReadingScore && j != 1 {
        assert row[j] == FieldCell(form, Columns[j]);
      }
    }
    assert row == named;
  }
}
