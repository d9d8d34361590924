# Request normalisation of the exam-score prediction service

This project models, in Dafny, how the prediction service in `app.py` turns
an HTTP request into a batch of feature rows and picks the status code of
every outcome. The service predicts a student's maths score from seven
features. These are five categorical columns and two numeric columns (the
reading and writing scores), in a fixed order (`Schema.Columns`, app.py:17-25).

There are two endpoints:

- **`POST /predict`** (JSON API, app.py:110-167). The envelope is checked
  first: an HTML-form post must carry non-blank, decodable JSON in
  `json_input`, and any other request must be JSON. The payload must hold
  `instances`. The first instance alone decides how the whole batch is read:
  an object means named columns, a list (or `null`, or no first instance)
  means positional columns. Each instance becomes one row of the seven
  columns. The two score columns are coerced leniently to numbers, so text
  that is not a number becomes missing. An empty batch is refused. Each
  outcome maps to status 200, 400, 415 or 500.
- **`POST /predicted_data`** (HTML form, app.py:43-67). The form fields
  become one row, with `race_ethnicity` read from the field `ethnicity`.
  The scores are parsed strictly, and a missing or non-numeric score fails
  the page with status 500.

Modules:

- `Schema` (schema.dfy): decoded JSON values, cells, rows and the column list.
- `Text` (text.dfy): Python's `str.strip()` and substring `in`.
- `Frame` (frame.dfy): shape dispatch and the layout of named and positional rows.
- `Coercion` (coercion.dfy): the numeric coercion of the score columns.
  This is a pure specification plus the in-place loop over an array of rows.
- `Api` (api.dfy): envelope, normalisation, status codes, the handler.
- `Form` (form.dfy): the form endpoint.

Values outside the model's reach are parameters or fields. These are the
JSON decoder (`loads`, and the decoded body `Request.body`), the framework's
JSON content-type verdict (`Request.isJson`), the two number parsers
(pandas' reading of numeric text, and Python's `float()`) and the predictor
(`predict`). A pandas not-a-number cell is `Cell.Missing`. A Python `None`
is `Val(JNull)`. Numbers are exact rationals (`real`).

Behaviours of the code worth knowing:

- The JSON path has no `ethnicity` fallback for `race_ethnicity`: an object
  that uses `ethnicity` leaves the column missing (`Frame.NoEthnicityAlias`).
  Only the form endpoint reads `ethnicity`, and it reads nothing else for that
  column (`Form.FormIgnoresRaceEthnicityField`).
- Only the first instance is inspected for shape (`Frame.BuildDispatch`). On
  the named path a later instance that is not an object makes the frame
  constructor raise, and the catch-all handler answers 500
  (`Api.NamedBatchRows`). On the positional path the frame constructor is
  more lenient than the model (see `Frame.Build` under "Left out"): the
  model's 500 for a positional instance that is not a list of exactly seven
  values is a simplification (`Api.PositionalBatchRows`).
- A missing or non-numeric form score is answered with 500
  (`Form.UnreadableScoreIs500`).
- A `null` first instance takes the positional path, because the code tests
  `first is None` (app.py:140). The model then rejects the batch with 500,
  not with the 400 shape message.

## Model

| member | source | states |
|---|---|---|
| `Text.ContainsIffOccurs` | app.py:112 | the form-post test `sub in s` holds exactly when `sub` occurs at some index of `s` |
| `Text.TrimLeftRemovesSpacePrefix` | app.py:113 | left trimming drops only a whitespace prefix, and what remains starts with a non-space |
| `Text.TrimRightRemovesSpaceSuffix` | app.py:113 | right trimming drops only a whitespace suffix, and what remains ends with a non-space |
| `Text.TrimLeft` | app.py:113 | left trimming never lengthens the text; what it removes is given by `TrimLeftRemovesSpacePrefix` |
| `Text.TrimRight` | app.py:113 | right trimming never lengthens the text; what it removes is given by `TrimRightRemovesSpaceSuffix` |
| `Text.Strip` | app.py:113 | the stripped `json_input` is no longer than the input and neither starts nor ends with whitespace |
| `Text.StripKeepsMiddle` | app.py:113 | the stripped `json_input` is a contiguous middle of the input, and everything dropped before and after it is whitespace |
| `Text.Contains` | app.py:112 | `sub in s` holds only when `sub` is no longer than `s`; `ContainsIffOccurs` gives the full meaning |
| `Text.StripBlank` | app.py:113-114 | stripping leaves nothing exactly when the input is empty or all whitespace, in both directions |
| `Frame.ShapeOf` | app.py:133-144 | the named path is chosen exactly when `instances` is a non-empty list whose first element is an object; the unsupported outcome exactly when that first element is neither an object, a list nor null |
| `Frame.NamedRow` | app.py:137-139 | a named instance becomes a row with exactly the seven schema columns |
| `Frame.PositionalRow` | app.py:142 | a seven-element instance becomes a row with exactly the seven schema columns |
| `Frame.Build` | app.py:133-144 | a built frame has one schema-wide row per instance; the 400 shape error happens exactly when the first instance is neither object, list nor null |
| `Frame.BuildDispatch` | app.py:133-144 | an object first selects the named path, which succeeds iff all instances are objects; a list or null first selects the positional path, which succeeds iff all are 7-element lists; anything else gives the shape error whatever follows |
| `Frame.NamedCells` | app.py:137-139 | on the named path, row i column j is instance i's value under key `Columns[j]`, or missing when the key is absent |
| `Frame.PositionalCells` | app.py:140-142 | on the positional path, row i column j is element j of instance i |
| `Frame.NamedRowIgnoresExtraKeys` | app.py:139 | keys outside the schema do not affect a named row |
| `Frame.NoEthnicityAlias` | app.py:137-139 | without a `race_ethnicity` key the column is missing, and an `ethnicity` key changes nothing |
| `Frame.NamedAgreesWithPositional` | app.py:135-142 | an object with all seven keys and the list of its values in schema order give the same row |
| `Coercion.ToNumeric` | app.py:149 | a coerced cell is a number or missing; numbers and missing cells are unchanged; text the parser reads becomes that number; text it rejects, and every other value, becomes missing |
| `Coercion.CoerceScores` | app.py:147-149 | coercion keeps one row per input row and the seven-column width |
| `Coercion.CoerceScoresCells` | app.py:147-149 | only the reading and writing score cells are coerced; the five categorical cells are unchanged |
| `Coercion.CoercedScoresAreNumeric` | app.py:147-149 | after coercion both score cells of every row are numbers or missing |
| `Coercion.CoerceScoresIdempotent` | app.py:147-149 | coercing an already coerced frame changes nothing |
| `Coercion.CoerceScoresInPlace` | app.py:147-149 | the column-by-column loop leaves the row array equal to the coerced frame of its old contents |
| `Api.StatusOf` | app.py:110-167 | every failure maps to 400, 415 or 500; 415 is used only for a non-JSON request; 500 exactly for the catch-all outcomes (undecodable body, payload not an object, frame rejected, predictor failure) |
| `Api.IsFormPost` | app.py:112 | a form post has a content type at least as long as `application/x-www-form-urlencoded` |
| `Api.JsonInput` | app.py:113 | the form's `json_input` text, or the empty text when the field is absent |
| `Api.MessageOf` | app.py:113-119 | an undecodable form input's message is "Invalid JSON in form input: " followed by the decoder's reason; the fixed texts of the other outcomes are stated literally by the per-outcome lemmas below |
| `Api.Envelope` | app.py:112-124 | an envelope failure is one of the four envelope kinds; 415 happens exactly for a request that is neither a form post nor JSON; a form post with non-blank decodable input yields the decoded stripped `json_input`, a JSON request with a decodable body yields that body, and a JSON request whose body does not decode fails with `BodyUnreadable` carrying the decoder's reason (answered 500 at app.py:164-167) |
| `Api.Instances` | app.py:126-130 | a payload that is not an object fails with `PayloadNotObject` (the `.get` raises, 500); an object without `instances`, or with it null, fails with `MissingInstances`; otherwise the `instances` value is returned, and it is never null |
| `Api.Normalize` | app.py:126-153 | a normalised batch is non-empty, schema-wide, and has one row per instance of an `instances` list |
| `Api.Respond` | app.py:155-167 | the response is 200 exactly when the batch was prepared (by `Api.Prepare`: the envelope, then normalisation, in the order of app.py:112-153) and the predictor succeeded; its body is then the predictor's outputs in order; a preparation failure is answered with that failure, and a predictor failure with `PredictorFailed` and the predictor's message |
| `Api.PredictApi` | app.py:110-167 | every response has status 200, 400, 415 or 500, and it carries predictions exactly when the status is 200 |
| `Api.HandlePredict` | app.py:110-167 | the handler, which builds the frame in an array and coerces it in place, answers exactly as `PredictApi` specifies |
| `Api.EnvelopeFailureStops` | app.py:112-124 | an envelope failure is answered with its own error, and the answer does not depend on the predictor, so no prediction is made |
| `Api.BlankFormInputIs400` | app.py:112-115 | a form post with absent or all-whitespace `json_input` gets 400 with the "no JSON found" message |
| `Api.UndecodableFormInputIs400` | app.py:116-119 | a form post whose stripped `json_input` does not decode gets 400 with "Invalid JSON in form input: " and the decoder's reason |
| `Api.NonJsonIs415` | app.py:120-123 | a request that is neither a form post nor JSON gets 415 with the content-type message |
| `Api.BodyUnreadableIs500` | app.py:124-167 | a JSON request whose body does not decode gets 500 with the decoder's reason as its error |
| `Api.PayloadNotObjectIs500` | app.py:126-167 | a decoded payload that is not an object gets 500 |
| `Api.PredictorFailureIs500` | app.py:155-167 | a prepared batch on which the predictor fails gets 500 with the predictor's message as its error |
| `Api.MissingInstancesIs400` | app.py:126-130 | a payload without `instances`, or with `instances` null, gets 400 with the exact "Missing 'instances' key in JSON payload" message |
| `Api.UnsupportedFirstInstanceIs400` | app.py:133-144 | a first instance that is neither a list, an object nor null gets 400 "Each instance must be a list or an object/dict.", whatever the other instances are |
| `Api.EmptyBatchIs400` | app.py:151-153 | an empty `instances` list gets 400 "No instances provided.", never an empty prediction list |
| `Api.SuccessIffPredicted` | app.py:155-162 | status 200 happens exactly when the request normalises and the predictor succeeds; the body is then the predictor's outputs in order, and otherwise an error |
| `Api.NamedBatchRows` | app.py:135-149 | for any payload whose `instances` is a list with an object first, normalisation succeeds iff all instances are objects (else the rejected-frame failure, status 500); row i column j is the value under `Columns[j]`, coerced for the two scores |
| `Api.PositionalBatchRows` | app.py:140-149 | for any payload whose `instances` is a list with a list or null first, normalisation succeeds iff all instances are 7-element lists (else the rejected-frame failure, status 500); row i column j is element j, coerced for the two scores |
| `Api.NormalizedScoresNumeric` | app.py:146-149 | in every normalised row the two score cells are numbers or missing |
| `Api.ObjectAndListInstancesAgree` | app.py:135-142 | in any payload, one instance given as a full object and the same values given as a list normalise to the same batch |
| `Form.ReadScore` | app.py:51-52 | a score is read exactly when its field is present and parses, and the value read is the parsed number; a failure names the field |
| `Form.FormRow` | app.py:45-53 | a row is built exactly when both scores are present and numeric, it has the seven columns, and an unreadable reading score is reported before the writing score is looked at |
| `Form.PredictDatapoint` | app.py:43-67 | the page either shows a result with status 200 or shows an error with status 500 |
| `Form.FormRowLayout` | app.py:45-52 | a submission with both scores readable gives a seven-column row: `race_ethnicity` from the `ethnicity` field, the other categorical columns from their own fields, the scores as parsed |
| `Form.FormIgnoresRaceEthnicityField` | app.py:47 | removing a `race_ethnicity` field changes nothing, because the form reads that column from `ethnicity` |
| `Form.UnreadableScoreIs500` | app.py:51-67 | a missing or non-numeric score gives status 500, no result and an error, whatever the predictor would do |
| `Form.FormSuccessIff` | app.py:56-67 | a result is shown exactly when both scores parse and the predictor returns at least one output; it is the first output; otherwise the page is a 500 error |
| `Form.FormAgreesWithNamedInstance` | app.py:45-53 | a complete submission gives the same row as the JSON object with the same values and `ethnicity` under `race_ethnicity` |

## Left out

- Routing, the GET help page, the templates and the server runner (app.py:30-41, 77-107, 173-176). These are framework glue; the GET branches of both routes are not modelled.
- Logging of errors (app.py:66, 165). It has no effect on the response.
- `CustomData` and `PredictPipeline` live in src/pipeline/predict_pipeline.py, which is not part of this model. The predictor is a parameter that may fail. The form row assumes that `CustomData` lays its fields out in the schema order.
- JSON decoding (app.py:117, 124), the JSON content-type test (app.py:122), pandas' parsing of numeric text (app.py:149) and Python's `float()` (app.py:51-52) are library behaviour. They are parameters or request fields.
- Floating point. Numbers are exact rationals, and the `float(x)` conversion of predictions (app.py:160) is the identity.
- Frame.Build: where the frame constructor's own behaviour decides the outcome, the model answers with the 500 error (`FrameRejected`). This covers a batch that mixes objects with other values, and a positional instance that is not a list of exactly seven values. On the positional path pandas accepts several of these batches and the model does not: it pads short lists when the widest row has seven values, splits a string of up to seven characters into cells, and reads an object's keys as a row. It also covers an `instances` value that is a string, number, boolean or object. (pandas raises for the first three; for an object it would build a frame from its columns, which the model does not follow.)
- Coercion.ToNumeric: only numbers and numeric text become numbers. Booleans, nulls, lists and objects become missing; pandas' own treatment of booleans and nested values is not modelled.
- Text.Strip: only the ASCII characters Python counts as whitespace are stripped (space, tab, line feed, vertical tab, form feed, carriage return, U+001C to U+001F); the non-ASCII whitespace Python also strips (such as U+0085 and U+00A0) is kept.
- The guard `if col in input_df.columns` (app.py:148) always holds, because every frame has the seven columns, so it is not modelled as a branch.
- The text of exceptions answered with 500 is not reproduced exactly. For a payload that is not an object and for a rejected frame, `Api.MessageOf` uses its own words, and `Form.FailureText` does not escape the offending text the way Python's `repr` does.
- The training side (src/components/model_transformation.py and src/components/model_ingestion.py) is not part of this model. It consists of library transformers over floating-point matrices, file I/O and a library random split. Artifact loading happens inside the predictor and is also not modelled.
