/**
 * Schema synthesis: a JSON example becomes a structural response schema
 * (`createZodSchema`). Strings double as field descriptions; other scalars
 * widen to an undescribed string; arrays take the shape of their first element.
 */
module Schema {
  import opened Results

  /** A parsed JSON value, the result of `JSON.parse`. */
  datatype Json =
    | JNull
    | JBool(b: bool)
    | JNum(n: real)
    | JStr(s: string)
    | JArr(items: seq<Json>)
    | JObj(fields: seq<(string, Json)>)

  /** The schema tree: object, array of an element schema, described string, or unknown. */
  datatype SchemaNode =
    | SObj(fields: seq<(string, SchemaNode)>)
    | SArr(element: SchemaNode)
    | SStr(description: Option<string>)
    | SUnknown

  /**
   * The object branch calls an unqualified `createZodSchema` for a field whose
   * value is not a string; no such binding is in scope, so it throws.
   */
  datatype SchemaError = CreateZodSchemaNotDefined

  /** The examples synthesis accepts: every object met on the way has only string fields. */
  predicate Synthesizable(j: Json) {
    match j
    case JArr(items) => |items| == 0 || Synthesizable(items[0])
    case JObj(fields) => forall i :: 0 <= i < |fields| ==> fields[i].1.JStr?
    case _ => true
  }

  /** The schemas synthesis can produce: `SUnknown` only as an empty array's element, objects of described strings. */
  predicate Producible(s: SchemaNode) {
    match s
    case SObj(fields) => forall i :: 0 <= i < |fields| ==> fields[i].1 == SStr(Some(DescriptionOf(fields[i].1)))
    case SArr(e) => e.SUnknown? || Producible(e)
    case SStr(_) => true
    case SUnknown => false
  }

  function DescriptionOf(s: SchemaNode): string {
    if s.SStr? && s.description.Some? then s.description.value else ""
  }

  /** The fields of an object example, in key order; the first non-string field throws. */
  function FieldSchemas(fields: seq<(string, Json)>): (r: Result<seq<(string, SchemaNode)>, SchemaError>)
    ensures r.Ok? <==> forall i :: 0 <= i < |fields| ==> fields[i].1.JStr?
    ensures r.Ok? ==> |r.value| == |fields|
    ensures r.Ok? ==> forall i :: 0 <= i < |fields| ==>
                        r.value[i].0 == fields[i].0 && r.value[i].1 == SStr(Some(fields[i].1.s))
  {
    if |fields| == 0 then Ok([])
    else
      var (key, value) := fields[0];
      if !value.JStr? then Err(CreateZodSchemaNotDefined)
      else match FieldSchemas(fields[1..])
        case Err(e) => Err(e)
        case Ok(rest) => Ok([(key, SStr(Some(value.s)))] + rest)
  }

  /** `createZodSchema(input)`. */
  function Synthesize(j: Json): (r: Result<SchemaNode, SchemaError>)
    ensures r.Ok? <==> Synthesizable(j)
    ensures r.Ok? ==> Producible(r.value)
  {
    match j
    case JArr(items) =>
      if |items| == 0 then Ok(SArr(SUnknown))
      else (match Synthesize(items[0])
        case Err(e) => Err(e)
        case Ok(element) => Ok(SArr(element)))
    case JObj(fields) =>
      (match FieldSchemas(fields)
        case Err(e) => Err(e)
        case Ok(schemaFields) => Ok(SObj(schemaFields)))
    case JStr(s) => Ok(SStr(Some(s)))
    case _ => Ok(SStr(None))
  }

  /** The schema installed for a template: `z.object({ schema: ... })`. */
  function ResponseSchema(s: SchemaNode): SchemaNode {
    SObj([("schema", s)])
  }

  /** A canonical example of a producible schema: descriptions become the example strings. */
  function Example(s: SchemaNode): (j: Json)
    requires Producible(s)
  {
    match s
    case SObj(fields) => JObj(seq(|fields|, i requires 0 <= i < |fields| => (fields[i].0, JStr(DescriptionOf(fields[i].1)))))
    case SArr(e) => if e.SUnknown? then JArr([]) else JArr([Example(e)])
    case SStr(d) => if d.Some? then JStr(d.value) else JNull
  }

  /** Every producible schema is synthesized from its own example: synthesis is onto `Producible`. */
  lemma {:induction false} ExampleRoundTrip(s: SchemaNode)
    requires Producible(s)
    ensures Synthesize(Example(s)) == Ok(s)
  {
    match s
    case SObj(fields) =>
      var r := FieldSchemas(Example(s).fields);
      assert r.value == fields;
    case SArr(e) =>
      if !e.SUnknown? {
        ExampleRoundTrip(e);
      }
    case SStr(d) =>
  }

  /** Synthesizing the example of a synthesized schema gives the same schema back. */
  lemma SynthesizeExampleIdempotent(j: Json)
    requires Synthesizable(j)
    ensures Synthesize(Example(Synthesize(j).value)) == Synthesize(j)
  {
    ExampleRoundTrip(Synthesize(j).value);
  }

  /** An object with only string fields keeps exactly its keys, in order, each described by its value. */
  lemma ObjectOfStrings(fields: seq<(string, Json)>)
    requires forall i :: 0 <= i < |fields| ==> fields[i].1.JStr?
    ensures Synthesize(JObj(fields)).Ok?
    ensures var s := Synthesize(JObj(fields)).value;
            s.SObj? && |s.fields| == |fields| &&
            forall i :: 0 <= i < |fields| ==> s.fields[i] == (fields[i].0, SStr(Some(fields[i].1.s)))
  {
  }

  /** An object with any non-string field value throws instead of recursing. */
  lemma ObjectWithNonStringField(fields: seq<(string, Json)>, i: nat)
    requires i < |fields| && !fields[i].1.JStr?
    ensures Synthesize(JObj(fields)) == Err(CreateZodSchemaNotDefined)
  {
    assert !Synthesizable(JObj(fields));
    var r := Synthesize(JObj(fields));
    assert r.error.CreateZodSchemaNotDefined?;
  }

  /** A non-empty array is typed by its first element alone; later elements are ignored. */
  lemma LaterElementsIgnored(first: Json, rest1: seq<Json>, rest2: seq<Json>)
    ensures Synthesize(JArr([first] + rest1)) == Synthesize(JArr([first] + rest2))
    ensures Synthesize(JArr([first] + rest1)).Ok? ==>
              Synthesize(JArr([first] + rest1)) == Ok(SArr(Synthesize(first).value))
  {
    assert ([first] + rest1)[0] == first && ([first] + rest2)[0] == first;
  }

  /** Numbers, booleans and `null` widen to an undescribed string; strings describe themselves. */
  lemma Scalars(b: bool, n: real, s: string)
    ensures Synthesize(JNull) == Ok(SStr(None))
    ensures Synthesize(JBool(b)) == Ok(SStr(None))
    ensures Synthesize(JNum(n)) == Ok(SStr(None))
    ensures Synthesize(JStr(s)) == Ok(SStr(Some(s)))
    ensures Synthesize(JArr([])) == Ok(SArr(SUnknown))
  {
  }
}
