/**
 * Arranging the `instances` of a prediction request into a frame whose
 * columns are the feature schema, before any numeric coercion.
 */
module Frame {
  import opened Wrappers
  import opened Schema

  /** How the whole batch is read. */
  datatype Shape = Named | Positional | Unsupported

  /**
   * The batch shape, chosen from the first instance alone. An `instances`
   * value that is not a non-empty list has no first instance, and neither
   * does a list whose first element is `null`: both take the positional path.
   */
  function ShapeOf(instances: Json): (shape: Shape)
    ensures shape == Named <==> instances.JArr? && |instances.items| > 0 && instances.items[0].JObj?
    ensures shape == Unsupported <==>
              && instances.JArr? && |instances.items| > 0
              && !instances.items[0].JObj? && !instances.items[0].JArr? && !instances.items[0].JNull?
  {
    if instances.JArr? && |instances.items| > 0 then
      match instances.items[0]
      case JObj(_) => Named
      case JArr(_) => Positional
      case JNull => Positional
      case _ => Unsupported
    else
      Positional
  }

  /** The cell a named instance gives for `key`: its value, or missing when the key is absent. */
  function Lookup(fields: map<string, Json>, key: string): Cell {
    if key in fields then Val(fields[key]) else Missing
  }

  /** A named instance laid out on the schema columns, by exact key. */
  function NamedRow(fields: map<string, Json>): (r: Row)
    ensures WellFormed(r)
  {
    seq(|Columns|, j requires 0 <= j < |Columns| => Lookup(fields, Columns[j]))
  }

  /** A positional instance: a list with one element per schema column. */
  predicate IsPositionalInstance(x: Json) {
    x.JArr? && |x.items| == |Columns|
  }

  /** A positional instance laid out on the schema columns, element `j` in column `j`. */
  function PositionalRow(items: seq<Json>): (r: Row)
    requires |items| == |Columns|
    ensures WellFormed(r)
  {
    seq(|Columns|, j requires 0 <= j < |Columns| => Val(items[j]))
  }

  /**
   * Why no frame was built: the first instance is neither a list nor an
   * object (answered with 400), or the frame constructor rejected the batch
   * (answered with 500 by the catch-all handler).
   */
  datatype FrameError = NotListOrObject | ConstructorRejected

  predicate AllNamed(items: seq<Json>) {
    forall i :: 0 <= i < |items| ==> items[i].JObj?
  }

  predicate AllPositional(items: seq<Json>) {
    forall i :: 0 <= i < |items| ==> IsPositionalInstance(items[i])
  }

  /** The frame built from `instances`, one row per instance, in input order. */
  function Build(instances: Json): (r: Result<seq<Row>, FrameError>)
    ensures r.Ok? ==> instances.JArr? && |r.value| == |instances.items| && Rectangular(r.value)
    ensures r == Err(NotListOrObject) <==> ShapeOf(instances) == Unsupported
  {
    match ShapeOf(instances)
    case Unsupported => Err(NotListOrObject)
    case Named =>
      var items := instances.items;
      if AllNamed(items) then
        Ok(seq(|items|, i requires 0 <= i < |items| => NamedRow(items[i].fields)))
      else
        Err(ConstructorRejected)
    case Positional =>
      if instances.JArr? && AllPositional(instances.items) then
        var items := instances.items;
        Ok(seq(|items|, i requires 0 <= i < |items| => PositionalRow(items[i].items)))
      else
        Err(ConstructorRejected)
  }

  /**
   * The shape is decided by the first instance: an object selects the named
   * path, a list or `null` the positional path, anything else is refused
   * whatever follows it. A batch mixing the two shapes is rejected.
   */
  lemma BuildDispatch(first: Json, rest: seq<Json>)
    ensures var items := [first] + rest;
      var r := Build(JArr(items));
      && (first.JObj? ==> (r.Ok? <==> AllNamed(items)))
      && ((first.JArr? || first.JNull?) ==> (r.Ok? <==> AllPositional(items)))
      && (!first.JObj? && !first.JArr? && !first.JNull? ==> r == Err(NotListOrObject))
  {
  }

  /** On the named path row `i`, column `j` holds instance `i`'s value under the key `Columns[j]`. */
  lemma NamedCells(items: seq<Json>, i: int, j: int)
    requires |items| > 0 && AllNamed(items)
    requires 0 <= i < |items| && 0 <= j < |Columns|
    ensures Build(JArr(items)).Ok?
    ensures Build(JArr(items)).value[i][j] == Lookup(items[i].fields, Columns[j])
  {
    assert items[0].JObj?;
  }

  /** On the positional path row `i`, column `j` holds element `j` of instance `i`. */
  lemma PositionalCells(items: seq<Json>, i: int, j: int)
    requires AllPositional(items)
    requires 0 <= i < |items| && 0 <= j < |Columns|
    ensures Build(JArr(items)).Ok?
    ensures Build(JArr(items)).value[i][j] == Val(items[i].items[j])
  {
    assert items[0].JArr?;
  }

  /** Keys outside the schema are dropped: only the schema's keys matter to a named row. */
  lemma NamedRowIgnoresExtraKeys(fields: map<string, Json>)
    ensures NamedRow(fields) == NamedRow(map k | k in fields && k in Columns :: fields[k])
  {
    var kept := map k | k in fields && k in Columns :: fields[k];
    forall j | 0 <= j < |Columns| ensures NamedRow(fields)[j] == NamedRow(kept)[j] {
      assert Columns[j] in Columns;
    }
  }

  /**
   * There is no alias on the named path: an instance that spells the column
   * `ethnicity` instead of `race_ethnicity` leaves that column missing.
   */
  lemma NoEthnicityAlias(fields: map<string, Json>)
    requires "race_ethnicity" !in fields
    ensures NamedRow(fields)[1] == Missing
    ensures NamedRow(fields) == NamedRow(fields - {"ethnicity"})
  {
    var r, r' := NamedRow(fields), NamedRow(fields - {"ethnicity"});
    forall j | 0 <= j < |Columns| ensures r[j] == r'[j] {
      assert Columns[j] != "ethnicity";
    }
  }

  /**
   * A named instance carrying every schema key and the positional instance
   * listing the same values in schema order give the same row.
   */
  lemma NamedAgreesWithPositional(fields: map<string, Json>)
    requires forall j :: 0 <= j < |Columns| ==> Columns[j] in fields
    ensures NamedRow(fields) == PositionalRow(seq(|Columns|, j requires 0 <= j < |Columns| => fields[Columns[j]]))
  {
  }
}
