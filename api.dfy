/**
 * The JSON prediction endpoint: envelope checks, batch normalisation and the
 * status code of every outcome.
 */
module Api {
  import opened Wrappers
  import opened Schema
  import opened Text
  import opened Frame
  import opened Coercion

  /** What decoding a JSON text gave: a value, or the decoder's complaint. */
  datatype Decoded = Parsed(value: Json) | Malformed(reason: string)

  /**
   * A POST to the endpoint. `isJson` is the framework's verdict on the
   * content type; `body` is what decoding the body as JSON gives.
   */
  datatype Request = Request(
    contentType: Option<string>,
    form: map<string, string>,
    isJson: bool,
    body: Decoded)

  /** Every way a request fails. */
  datatype Failure =
    | FormWithoutJson                 // form post whose `json_input` is blank
    | FormJsonInvalid(reason: string) // form post whose `json_input` does not decode
    | NotJson                         // neither a form post nor a JSON request
    | BodyUnreadable(reason: string)  // JSON request whose body does not decode
    | PayloadNotObject                // payload has no `get`: not a JSON object
    | MissingInstances                // no `instances`, or `instances` is null
    | BadInstanceShape                // first instance neither a list nor an object
    | FrameRejected                   // the frame constructor refused the batch
    | NoInstances                     // the batch has no rows
    | PredictorFailed(reason: string) // the predictor raised
  {
    /** The checks made on the request envelope, before `instances` is read. */
    predicate IsEnvelopeFailure() {
      FormWithoutJson? || FormJsonInvalid? || NotJson? || BodyUnreadable?
    }
  }

  function StatusOf(f: Failure): (code: int)
    ensures code == 400 || code == 415 || code == 500
    ensures code == 415 <==> f == NotJson
    ensures code == 500 <==> f.BodyUnreadable? || f.PayloadNotObject? || f.FrameRejected? || f.PredictorFailed?
  {
    match f
    case FormWithoutJson => 400
    case FormJsonInvalid(_) => 400
    case NotJson => 415
    case MissingInstances => 400
    case BadInstanceShape => 400
    case NoInstances => 400
    case BodyUnreadable(_) => 500
    case PayloadNotObject => 500
    case FrameRejected => 500
    case PredictorFailed(_) => 500
  }

  const InvalidJsonPrefix := "Invalid JSON in form input: "

  /**
   * The `error` text of each failure. The 500 answers carry the text of the
   * exception raised; where the exception is the decoder's or the
   * predictor's, that text is its reason.
   */
  function MessageOf(f: Failure): (m: string)
    ensures f.FormJsonInvalid? ==> m == InvalidJsonPrefix + f.reason
  {
    match f
    case FormWithoutJson => "Form submitted but no JSON found in 'json_input'"
    case FormJsonInvalid(e) => InvalidJsonPrefix + e
    case NotJson => "Request must be JSON (Content-Type: application/json)"
    case MissingInstances => "Missing 'instances' key in JSON payload. Example: {'instances': [[...], ...]}"
    case BadInstanceShape => "Each instance must be a list or an object/dict."
    case NoInstances => "No instances provided."
    case BodyUnreadable(e) => e
    case PayloadNotObject => "payload object has no attribute 'get'"
    case FrameRejected => "instances do not fit the expected columns"
    case PredictorFailed(e) => e
  }

  datatype Body = Predictions(values: seq<real>) | Error(message: string)

  datatype Response = Response(status: int, body: Body)

  function Reject(f: Failure): Response {
    Response(StatusOf(f), Error(MessageOf(f)))
  }

  const FormUrlEncoded := "application/x-www-form-urlencoded"

  /** The request was posted from the HTML form rather than by an API client. */
  predicate IsFormPost(req: Request)
    ensures IsFormPost(req) ==> req.contentType.Some? && |FormUrlEncoded| <= |req.contentType.value|
  {
    req.contentType.Some? && Contains(req.contentType.value, FormUrlEncoded)
  }

  /** The form's `json_input` field, the empty string when absent. */
  function JsonInput(req: Request): (js: string)
    ensures "json_input" in req.form ==> js == req.form["json_input"]
    ensures "json_input" !in req.form ==> js == []
  {
    if "json_input" in req.form then req.form["json_input"] else ""
  }

  /** The payload carried by the request, or the envelope failure that stops it. */
  function Envelope(req: Request, loads: string -> Decoded): (r: Result<Json, Failure>)
    ensures r.Err? ==> r.error.IsEnvelopeFailure()
    ensures r == Err(NotJson) <==> !IsFormPost(req) && !req.isJson
    ensures (IsFormPost(req) && !AllSpace(JsonInput(req)) && loads(Strip(JsonInput(req))).Parsed?)
              ==> r == Ok(loads(Strip(JsonInput(req))).value)
    ensures !IsFormPost(req) && req.isJson && req.body.Parsed? ==> r == Ok(req.body.value)
    ensures !IsFormPost(req) && req.isJson && req.body.Malformed? ==> r == Err(BodyUnreadable(req.body.reason))
  {
    StripBlank(JsonInput(req));
    if IsFormPost(req) then
      var js := Strip(JsonInput(req));
      if js == [] then Err(FormWithoutJson)
      else
        match loads(js)
        case Malformed(e) => Err(FormJsonInvalid(e))
        case Parsed(p) => Ok(p)
    else if !req.isJson then
      Err(NotJson)
    else
      match req.body
      case Malformed(e) => Err(BodyUnreadable(e))
      case Parsed(p) => Ok(p)
  }

  /** The payload's `instances` entry; a missing key and a null value are alike. */
  function Instances(payload: Json): (r: Result<Json, Failure>)
    ensures r.Ok? ==> r.value != JNull
    ensures !payload.JObj? ==> r == Err(PayloadNotObject)
    ensures (payload.JObj? && ("instances" !in payload.fields || payload.fields["instances"] == JNull))
              ==> r == Err(MissingInstances)
    ensures (payload.JObj? && "instances" in payload.fields && payload.fields["instances"] != JNull)
              ==> r == Ok(payload.fields["instances"])
  {
    match payload
    case JObj(fields) =>
      if "instances" !in fields || fields["instances"] == JNull then Err(MissingInstances)
      else Ok(fields["instances"])
    case _ => Err(PayloadNotObject)
  }

  function FrameFailure(e: FrameError): Failure {
    match e
    case NotListOrObject => BadInstanceShape
    case ConstructorRejected => FrameRejected
  }

  /** The coerced, non-empty feature frame of a payload. */
  function Normalize(payload: Json, parse: string -> Option<real>): (r: Result<seq<Row>, Failure>)
    ensures r.Ok? ==> |r.value| > 0 && Rectangular(r.value)
    ensures r.Ok? ==>
              && Instances(payload).Ok? && Instances(payload).value.JArr?
              && |r.value| == |Instances(payload).value.items|
  {
    match Instances(payload)
    case Err(f) => Err(f)
    case Ok(instances) =>
      match Build(instances)
      case Err(e) => Err(FrameFailure(e))
      case Ok(frame) =>
        var rows := CoerceScores(frame, parse);
        if |rows| == 0 then Err(NoInstances) else Ok(rows)
  }

  /** Everything before the predictor runs: the envelope, then normalisation. */
  function Prepare(req: Request, loads: string -> Decoded, parse: string -> Option<real>): Result<seq<Row>, Failure> {
    match Envelope(req, loads)
    case Err(f) => Err(f)
    case Ok(payload) => Normalize(payload, parse)
  }

  /** The response once the request is prepared: the failure, or the predictor's answer. */
  function Respond(prep: Result<seq<Row>, Failure>, predict: seq<Row> -> Result<seq<real>, string>): (r: Response)
    ensures r.status == 200 <==> prep.Ok? && predict(prep.value).Ok?
    ensures r.status == 200 ==> r.body == Predictions(predict(prep.value).value)
    ensures prep.Err? ==> r == Reject(prep.error)
    ensures prep.Ok? && predict(prep.value).Err? ==> r == Reject(PredictorFailed(predict(prep.value).error))
  {
    match prep
    case Err(f) => Reject(f)
    case Ok(rows) =>
      match predict(rows)
      case Err(e) => Reject(PredictorFailed(e))
      case Ok(preds) => Response(200, Predictions(preds))
  }

  /** The response to a POST on the prediction endpoint. */
  function PredictApi(
    req: Request,
    loads: string -> Decoded,
    parse: string -> Option<real>,
    predict: seq<Row> -> Result<seq<real>, string>): (r: Response)
    ensures r.status == 200 || r.status == 400 || r.status == 415 || r.status == 500
    ensures r.status == 200 <==> r.body.Predictions?
  {
    Respond(Prepare(req, loads, parse), predict)
  }

  /**
   * The handler: the envelope and shape checks, the frame built into an
   * array, the score columns coerced in place, the empty check, the predictor.
   */
  method HandlePredict(
    req: Request,
    loads: string -> Decoded,
    parse: string -> Option<real>,
    predict: seq<Row> -> Result<seq<real>, string>) returns (resp: Response)
    ensures resp == PredictApi(req, loads, parse, predict)
  {
    var envelope := Envelope(req, loads);
    if envelope.Err? {
      assert Prepare(req, loads, parse) == Err(envelope.error);
      return Reject(envelope.error);
    }
    var instances := Instances(envelope.value);
    if instances.Err? {
      assert Prepare(req, loads, parse) == Err(instances.error);
      return Reject(instances.error);
    }
    var built := Build(instances.value);
    if built.Err? {
      assert Prepare(req, loads, parse) == Err(FrameFailure(built.error));
      return Reject(FrameFailure(built.error));
    }
    var rows := built.value;
    var frame := new Row[|rows|](i requires 0 <= i < |rows| => rows[i]);
    assert frame[..] == rows;
    CoerceScoresInPlace(frame, parse);
    if frame.Length == 0 {
      assert Prepare(req, loads, parse) == Err(NoInstances);
      return Reject(NoInstances);
    }
    assert Prepare(req, loads, parse) == Ok(frame[..]);
    var preds := predict(frame[..]);
    if preds.Err? {
      return Reject(PredictorFailed(preds.error));
    }
    resp := Response(200, Predictions(preds.value));
  }

  /**
   * An envelope failure is answered at once: the response is its error, and
   * it is the same whatever the predictor would do, so no prediction is made.
   */
  lemma EnvelopeFailureStops(req: Request, loads: string -> Decoded, parse: string -> Option<real>,
                             predict: seq<Row> -> Result<seq<real>, string>,
                             other: seq<Row> -> Result<seq<real>, string>)
    requires Envelope(req, loads).Err?
    ensures PredictApi(req, loads, parse, predict) == Reject(Envelope(req, loads).error)
    ensures PredictApi(req, loads, parse, predict) == PredictApi(req, loads, parse, other)
  {
  }

  /** A form post whose `json_input` is absent or only whitespace gets 400. */
  lemma BlankFormInputIs400(req: Request, loads: string -> Decoded, parse: string -> Option<real>,
                            predict: seq<Row> -> Result<seq<real>, string>)
    requires IsFormPost(req) && AllSpace(JsonInput(req))
    ensures PredictApi(req, loads, parse, predict)
      == Response(400, Error("Form submitted but no JSON found in 'json_input'"))
  {
    StripBlank(JsonInput(req));
  }

  /** A form post whose stripped `json_input` does not decode gets 400 with the decoder's reason. */
  lemma UndecodableFormInputIs400(req: Request, loads: string -> Decoded, parse: string -> Option<real>,
                                  predict: seq<Row> -> Result<seq<real>, string>)
    requires IsFormPost(req) && !AllSpace(JsonInput(req))
    requires loads(Strip(JsonInput(req))).Malformed?
    ensures PredictApi(req, loads, parse, predict)
      == Response(400, Error("Invalid JSON in form input: " + loads(Strip(JsonInput(req))).reason))
  {
    StripBlank(JsonInput(req));
  }

  /** A request that is neither a form post nor JSON gets 415. */
  lemma NonJsonIs415(req: Request, loads: string -> Decoded, parse: string -> Option<real>,
                     predict: seq<Row> -> Result<seq<real>, string>)
    requires !IsFormPost(req) && !req.isJson
    ensures PredictApi(req, loads, parse, predict)
      == Response(415, Error("Request must be JSON (Content-Type: application/json)"))
  {
  }

  /** A JSON request whose body does not decode gets 500 with the decoder's reason. */
  lemma BodyUnreadableIs500(req: Request, loads: string -> Decoded, parse: string -> Option<real>,
                            predict: seq<Row> -> Result<seq<real>, string>)
    requires !IsFormPost(req) && req.isJson && req.body.Malformed?
    ensures PredictApi(req, loads, parse, predict) == Response(500, Error(req.body.reason))
  {
    assert Envelope(req, loads) == Err(BodyUnreadable(req.body.reason));
  }

  /** A decoded payload that is not an object gets 500. */
  lemma PayloadNotObjectIs500(req: Request, loads: string -> Decoded, parse: string -> Option<real>,
                              predict: seq<Row> -> Result<seq<real>, string>)
    requires Envelope(req, loads).Ok? && !Envelope(req, loads).value.JObj?
    ensures PredictApi(req, loads, parse, predict)
      == Response(500, Error("payload object has no attribute 'get'"))
  {
    assert Prepare(req, loads, parse) == Err(PayloadNotObject);
  }

  /** A prepared batch on which the predictor raises gets 500 with the predictor's message. */
  lemma PredictorFailureIs500(req: Request, loads: string -> Decoded, parse: string -> Option<real>,
                              predict: seq<Row> -> Result<seq<real>, string>)
    requires Prepare(req, loads, parse).Ok? && predict(Prepare(req, loads, parse).value).Err?
    ensures PredictApi(req, loads, parse, predict)
      == Response(500, Error(predict(Prepare(req, loads, parse).value).error))
  {
  }

  /** A payload without `instances` (or with `instances` null) gets 400, and no prediction is made. */
  lemma MissingInstancesIs400(req: Request, loads: string -> Decoded, parse: string -> Option<real>,
                              predict: seq<Row> -> Result<seq<real>, string>, fields: map<string, Json>)
    requires Envelope(req, loads) == Ok(JObj(fields))
    requires "instances" !in fields || fields["instances"] == JNull
    ensures PredictApi(req, loads, parse, predict)
      == Response(400, Error("Missing 'instances' key in JSON payload. Example: {'instances': [[...], ...]}"))
  {
    assert Instances(JObj(fields)) == Err(MissingInstances);
    assert Prepare(req, loads, parse) == Err(MissingInstances);
  }

  /**
   * A first instance that is neither a list, an object nor null gets 400,
   * whatever the other instances are.
   */
  lemma UnsupportedFirstInstanceIs400(req: Request, loads: string -> Decoded, parse: string -> Option<real>,
                                      predict: seq<Row> -> Result<seq<real>, string>,
                                      fields: map<string, Json>, first: Json, rest: seq<Json>)
    requires Envelope(req, loads) == Ok(JObj(fields))
    requires "instances" in fields && fields["instances"] == JArr([first] + rest)
    requires !first.JObj? && !first.JArr? && !first.JNull?
    ensures PredictApi(req, loads, parse, predict)
      == Response(400, Error("Each instance must be a list or an object/dict."))
  {
    BuildDispatch(first, rest);
    assert Instances(JObj(fields)) == Ok(JArr([first] + rest));
    assert Normalize(JObj(fields), parse) == Err(BadInstanceShape);
    assert Prepare(req, loads, parse) == Err(BadInstanceShape);
  }

  /** An empty batch gets 400 "No instances provided.", never an empty list of predictions. */
  lemma EmptyBatchIs400(req: Request, loads: string -> Decoded, parse: string -> Option<real>,
                        predict: seq<Row> -> Result<seq<real>, string>, fields: map<string, Json>)
    requires Envelope(req, loads) == Ok(JObj(fields))
    requires "instances" in fields && fields["instances"] == JArr([])
    ensures PredictApi(req, loads, parse, predict) == Response(400, Error("No instances provided."))
  {
    assert Instances(JObj(fields)) == Ok(JArr([]));
    assert Build(JArr([])) == Ok([]);
    assert Normalize(JObj(fields), parse) == Err(NoInstances);
    assert Prepare(req, loads, parse) == Err(NoInstances);
  }

  /**
   * A 200 answer happens exactly when the request normalises and the
   * predictor succeeds, and then it carries the predictor's outputs, in order.
   */
  lemma SuccessIffPredicted(req: Request, loads: string -> Decoded, parse: string -> Option<real>,
                            predict: seq<Row> -> Result<seq<real>, string>)
    ensures PredictApi(req, loads, parse, predict).status == 200
      <==> Prepare(req, loads, parse).Ok? && predict(Prepare(req, loads, parse).value).Ok?
    ensures PredictApi(req, loads, parse, predict).status == 200
      ==> PredictApi(req, loads, parse, predict).body == Predictions(predict(Prepare(req, loads, parse).value).value)
    ensures PredictApi(req, loads, parse, predict).status != 200
      ==> PredictApi(req, loads, parse, predict).body.Error?
  {
  }

  /**
   * A batch whose first instance is an object: every instance must be an
   * object, and row `i` column `j` is instance `i`'s value under key
   * `Columns[j]` (missing when absent), coerced when `j` is a score column.
   */
  lemma NamedBatchRows(payload: Json, items: seq<Json>, parse: string -> Option<real>)
    requires Instances(payload) == Ok(JArr(items))
    requires |items| > 0 && items[0].JObj?
    ensures var r := Normalize(payload, parse);
      && (r.Ok? <==> AllNamed(items))
      && (r.Err? ==> r.error == FrameRejected && StatusOf(r.error) == 500)
      && (r.Ok? ==>
            && |r.value| == |items|
            && forall i, j :: 0 <= i < |items| && 0 <= j < |Columns| ==>
             r.value[i][j] == (if IsScoreColumn(j) then ToNumeric(Lookup(items[i].fields, Columns[j]), parse)
                               else Lookup(items[i].fields, Columns[j])))
  {
    BuildDispatch(items[0], items[1..]);
    assert [items[0]] + items[1..] == items;
    if AllNamed(items) {
      var frame := Build(JArr(items)).value;
      var r := Normalize(payload, parse);
      assert r.value == CoerceScores(frame, parse);
      forall i, j | 0 <= i < |items| && 0 <= j < |Columns|
        ensures r.value[i][j] == (if IsScoreColumn(j) then ToNumeric(Lookup(items[i].fields, Columns[j]), parse)
                                  else Lookup(items[i].fields, Columns[j]))
      {
        NamedCells(items, i, j);
        CoerceScoresCells(frame, parse, i, j);
      }
    }
  }

  /**
   * A batch whose first instance is a list (or null): every instance must be
   * a list of seven values, and row `i` column `j` is element `j` of
   * instance `i`, coerced when `j` is a score column.
   */
  lemma PositionalBatchRows(payload: Json, items: seq<Json>, parse: string -> Option<real>)
    requires Instances(payload) == Ok(JArr(items))
    requires |items| > 0 && (items[0].JArr? || items[0].JNull?)
    ensures var r := Normalize(payload, parse);
      && (r.Ok? <==> AllPositional(items))
      && (r.Err? ==> r.error == FrameRejected && StatusOf(r.error) == 500)
      && (r.Ok? ==>
            && |r.value| == |items|
            && forall i, j :: 0 <= i < |items| && 0 <= j < |Columns| ==>
             r.value[i][j] == (if IsScoreColumn(j) then ToNumeric(Val(items[i].items[j]), parse)
                               else Val(items[i].items[j])))
  {
    BuildDispatch(items[0], items[1..]);
    assert [items[0]] + items[1..] == items;
    if AllPositional(items) {
      var frame := Build(JArr(items)).value;
      var r := Normalize(payload, parse);
      assert r.value == CoerceScores(frame, parse);
      forall i, j | 0 <= i < |items| && 0 <= j < |Columns|
        ensures r.value[i][j] == (if IsScoreColumn(j) then ToNumeric(Val(items[i].items[j]), parse)
                                  else Val(items[i].items[j]))
      {
        PositionalCells(items, i, j);
        CoerceScoresCells(frame, parse, i, j);
      }
    }
  }

  /** A normalised frame holds only numbers or missing markers in its score columns. */
  lemma NormalizedScoresNumeric(payload: Json, parse: string -> Option<real>, i: int)
    requires Normalize(payload, parse).Ok? && 0 <= i < |Normalize(payload, parse).value|
    ensures IsNumericOrMissing(Normalize(payload, parse).value[i][ReadingScore])
    ensures IsNumericOrMissing(Normalize(payload, parse).value[i][WritingScore])
  {
    var frame := Build(Instances(payload).value).value;
    CoercedScoresAreNumeric(frame, parse, i);
  }

  /**
   * One instance written as an object with every schema key, and the same
   * values written as a list in schema order, normalise to the same frame.
   */
  lemma ObjectAndListInstancesAgree(payload: map<string, Json>, fields: map<string, Json>,
                                     parse: string -> Option<real>)
    requires forall j :: 0 <= j < |Columns| ==> Columns[j] in fields
    ensures var values := seq(|Columns|, j requires 0 <= j < |Columns| => fields[Columns[j]]);
      Normalize(JObj(payload["instances" := JArr([JObj(fields)])]), parse)
        == Normalize(JObj(payload["instances" := JArr([JArr(values)])]), parse)
  {
    var values := seq(|Columns|, j requires 0 <= j < |Columns| => fields[Columns[j]]);
    NamedAgreesWithPositional(fields);
    assert [JObj(fields)][0] == JObj(fields);
    assert Build(JArr([JObj(fields)])).value == [NamedRow(fields)];
    assert Build(JArr([JArr(values)])).value == [PositionalRow(values)];
  }
}
