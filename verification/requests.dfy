/**
 * One context request (`request`): build or take the context text, choose
 * the provider on that text, call the completion with the instance schema,
 * normalise the answer, and record it under the active QA session. The
 * tokenizer, the completion call and the template rendering are inputs.
 */
module Requests {
  import opened Results
  import opened OrderedMap
  import opened JsValue
  import opened Schema
  import opened Templates
  import opened Providers
  import opened SourceTree
  import opened Scan
  import opened ContextPrompt

  /** `{}`: the default `data` and `usage` of an answer. */
  const EMPTY_OBJECT: Value := Obj([])

  /** The `data` and `usage` an answer carries. */
  datatype Normalised = Normalised(data: Value, usage: Value)

  /**
   * A completion `{ data: { schema: x }, usage }` is unwrapped to `x`; a
   * completion with some other truthy `data` passes it through without
   * usage; anything else leaves both at `{}`.
   */
  function Normalise(response: Value): (r: Normalised)
    ensures Truthy(r.data)
    ensures r.usage == EMPTY_OBJECT || r.usage == Field(response, "usage")
    ensures r.data == EMPTY_OBJECT || r.data == Field(response, "data") || r.data == Field(Field(response, "data"), "schema")
  {
    var data := Field(response, "data");
    if Truthy(response) && Truthy(data) && Truthy(Field(data, "schema")) then
      Normalised(Field(data, "schema"), Field(response, "usage"))
    else if Truthy(response) && Truthy(data) then
      Normalised(data, EMPTY_OBJECT)
    else
      Normalised(EMPTY_OBJECT, EMPTY_OBJECT)
  }

  /** A completion whose `data` carries a truthy `schema` is unwrapped to it, with its usage, whatever its other fields. */
  lemma NormaliseUnwraps(response: Value)
    requires Truthy(response) && Truthy(Field(response, "data")) && Truthy(Field(Field(response, "data"), "schema"))
    ensures Normalise(response) == Normalised(Field(Field(response, "data"), "schema"), Field(response, "usage"))
  {
  }

  /** Truthy data without a truthy `schema` passes through as it is, and usage is dropped. */
  lemma NormaliseKeepsPlainData(response: Value)
    requires Truthy(response) && Truthy(Field(response, "data")) && !Truthy(Field(Field(response, "data"), "schema"))
    ensures Normalise(response) == Normalised(Field(response, "data"), EMPTY_OBJECT)
  {
  }

  /** The completion shape `{ data: { schema: x }, usage }` is unwrapped to `x` and `usage`. */
  lemma NormaliseSchemaShape(x: Value, usage: Value)
    requires Truthy(x)
    ensures Normalise(Obj([("data", Obj([("schema", x)])), ("usage", usage)])) == Normalised(x, usage)
  {
    var inner: Context := [("schema", x)];
    var outer: Context := [("data", Obj(inner)), ("usage", usage)];
    PositionIs(inner, "schema", 0);
    PositionIs(outer, "data", 0);
    PositionIs(outer, "usage", 1);
    NormaliseUnwraps(Obj(outer));
  }

  /** A falsy completion, or one without truthy data, gives the defaults. */
  lemma NormaliseDefaults(response: Value)
    requires !Truthy(response) || !Truthy(Field(response, "data"))
    ensures Normalise(response) == Normalised(EMPTY_OBJECT, EMPTY_OBJECT)
  {
  }

  /** Wrapping a normalised answer back into the completion shape normalises to itself. */
  lemma NormaliseRoundTrip(response: Value)
    ensures var n := Normalise(response);
            Normalise(Obj([("data", Obj([("schema", n.data)])), ("usage", n.usage)])) == n
  {
    NormaliseSchemaShape(Normalise(response).data, Normalise(response).usage);
  }

  /** The QA recordings and the active session (`null` until `recordQA` is called). */
  datatype Sessions = Sessions(recordings: OMap<Value>, last: Option<string>)

  /** The active session is truthy: set, and not the empty string. */
  predicate Recording(s: Sessions) {
    s.last.Some? && s.last.value != ""
  }

  /** `recordQA(session)`: activate a session, creating an empty slot for it if its slot is falsy. */
  function RecordQA(s: Sessions, session: string): (r: Sessions)
    ensures r.last == Some(session)
    ensures Truthy(Lookup(r.recordings, session))
    ensures !Truthy(Lookup(s.recordings, session)) ==> Get(r.recordings, session) == Some(Arr([]))
    ensures Truthy(Lookup(s.recordings, session)) ==> r.recordings == s.recordings
    ensures forall k :: k != session ==> Get(r.recordings, k) == Get(s.recordings, k)
  {
    var recs := if Truthy(Lookup(s.recordings, session)) then s.recordings else Put(s.recordings, session, Arr([]));
    Sessions(recs, Some(session))
  }

  /** The record a request leaves: the question and the normalised answer. */
  function QA(question: string, answer: Value): Value {
    Obj([("question", Str(question)), ("answer", answer)])
  }

  /** The end of `request`: the active session's slot is overwritten with this exchange. */
  function Record(s: Sessions, question: string, answer: Value): (r: Sessions)
    ensures r.last == s.last
    ensures !Recording(s) ==> r == s
    ensures Recording(s) ==> Get(r.recordings, s.last.value) == Some(QA(question, answer))
    ensures forall k :: (!Recording(s) || k != s.last.value) ==> Get(r.recordings, k) == Get(s.recordings, k)
  {
    if Recording(s) then Sessions(Put(s.recordings, s.last.value, QA(question, answer)), s.last) else s
  }

  /** A session keeps only its latest exchange: recording twice is recording the second alone. */
  lemma LatestExchangeWins(s: Sessions, q1: string, a1: Value, q2: string, a2: Value)
    ensures Record(Record(s, q1, a1), q2, a2).last == Record(s, q2, a2).last
    ensures forall k :: Get(Record(Record(s, q1, a1), q2, a2).recordings, k) == Get(Record(s, q2, a2).recordings, k)
  {
  }

  /** The default session `''` is falsy: after `recordQA()` nothing is recorded. */
  lemma DefaultSessionRecordsNothing(s: Sessions, question: string, answer: Value)
    ensures Record(RecordQA(s, ""), question, answer) == RecordQA(s, "")
  {
  }

  /** The options of `request`; a missing option reads as `undefined`. */
  datatype RequestOptions = RequestOptions(customContext: Value, meta: Value, customVariables: Context)

  /** The arguments of the completion call. */
  datatype Call = Call(llm: Option<Choice>, text: string, schema: Option<SchemaNode>)

  /** What the environment supplies: the scan, rendering, the tokenizer and the completion service. */
  datatype RequestEnv = RequestEnv(
    scan: Result<Scanned, TreeError>,
    render: Context -> string,
    tokens: string -> nat,
    complete: Call -> Result<Value, string>)

  /** The instance state a request reads and writes. */
  datatype RequestState = RequestState(
    keys: Keys,
    preferences: seq<string>,
    schema: Option<SchemaNode>,
    codeBlocks: seq<CodeBlock>,
    sessions: Sessions)

  datatype RequestError = ScanFailed(cause: TreeError) | CompletionFailed(message: string)

  /** `return_.context` and `return_.code_blocks`, present when `meta` is truthy. */
  datatype Meta = Meta(context: Value, codeBlocks: seq<CodeBlock>)

  datatype Answer = Answer(data: Value, usage: Value, meta: Option<Meta>)

  /** The outcome and the instance state afterwards: a schema argument is installed even when the call fails. */
  datatype RequestOutcome = RequestOutcome(answer: Result<Answer, RequestError>, state: RequestState)

  /** The schema the call uses: a schema argument wraps into `{ schema }` and replaces the instance's. */
  function InstalledSchema(current: Option<SchemaNode>, schema: Option<SchemaNode>): (r: Option<SchemaNode>)
    ensures schema.Some? ==> r == Some(ResponseSchema(schema.value))
    ensures schema.None? ==> r == current
  {
    if schema.Some? then Some(ResponseSchema(schema.value)) else current
  }

  /** The context of the request: the caller's (with an empty text), or the rendered prompt. */
  function ContextFor(env: RequestEnv, options: RequestOptions): Result<(Value, string), RequestError> {
    if Truthy(options.customContext) then Ok((options.customContext, ""))
    else match GenerateContextPrompt(options.customVariables, env.scan, env.render)
      case Err(e) => Err(ScanFailed(e))
      case Ok(p) => Ok((Obj(p.context), p.rendered))
  }

  /** The text sent: the context, then the prompt under a heading when there is one. */
  function CallText(context: string, prompt: string): string {
    if prompt != "" then context + "\n\n# " + prompt else context
  }

  /**
   * The completion call of a request: the provider is chosen on the
   * context text alone, the text is the context with the prompt appended,
   * and the schema is the one installed.
   */
  function CallFor(st: RequestState, env: RequestEnv, prompt: string, schema: Option<SchemaNode>, options: RequestOptions): (r: Result<Call, RequestError>)
    ensures r.Ok? ==> r.value.schema == InstalledSchema(st.schema, schema)
    ensures r.Ok? ==> exists context: string ::
              r.value.llm == Select(st.preferences, st.keys, env.tokens(context)) &&
              r.value.text == CallText(context, prompt)
  {
    match ContextFor(env, options)
    case Err(e) => Err(e)
    case Ok((_, text)) =>
      var c := Call(Select(st.preferences, st.keys, env.tokens(text)), CallText(text, prompt), InstalledSchema(st.schema, schema));
      assert c.llm == Select(st.preferences, st.keys, env.tokens(text)) && c.text == CallText(text, prompt);
      Ok(c)
  }

  /** `request(prompt, schema, options)`. */
  function Request(st: RequestState, env: RequestEnv, prompt: string, schema: Option<SchemaNode>, options: RequestOptions): (r: RequestOutcome)
    ensures r.state.schema == InstalledSchema(st.schema, schema)
    ensures r.state.keys == st.keys && r.state.preferences == st.preferences && r.state.codeBlocks == st.codeBlocks
    ensures r.answer.Err? ==> r.state.sessions == st.sessions
    ensures CallFor(st, env, prompt, schema, options).Err? ==> r.answer == Err(CallFor(st, env, prompt, schema, options).error)
    ensures CallFor(st, env, prompt, schema, options).Ok? ==>
              var response := env.complete(CallFor(st, env, prompt, schema, options).value);
              && (response.Err? ==> r.answer == Err(CompletionFailed(response.error)))
              && (response.Ok? ==> r.answer.Ok? &&
                                   r.answer.value.data == Normalise(response.value).data &&
                                   r.answer.value.usage == Normalise(response.value).usage)
    ensures r.answer.Ok? ==> Truthy(r.answer.value.data)
    ensures r.answer.Ok? ==> r.state.sessions == Record(st.sessions, prompt, r.answer.value.data)
    ensures r.answer.Ok? ==> (r.answer.value.meta.Some? <==> Truthy(options.meta))
    ensures r.answer.Ok? && Truthy(options.meta) ==> r.answer.value.meta.value.codeBlocks == st.codeBlocks
    ensures r.answer.Ok? && Truthy(options.meta) ==>
              ContextFor(env, options).Ok? && r.answer.value.meta.value.context == ContextFor(env, options).value.0
    ensures r.answer.Ok? && Truthy(options.meta) && Truthy(options.customContext) ==>
              r.answer.value.meta.value.context == options.customContext
    ensures r.answer.Ok? && Truthy(options.meta) && !Truthy(options.customContext) ==>
              env.scan.Ok? &&
              r.answer.value.meta.value.context == Obj(GenerateContextPrompt(options.customVariables, env.scan, env.render).value.context)
  {
    var st' := st.(schema := InstalledSchema(st.schema, schema));
    match CallFor(st, env, prompt, schema, options)
    case Err(e) => RequestOutcome(Err(e), st')
    case Ok(call) =>
      match env.complete(call)
      case Err(m) => RequestOutcome(Err(CompletionFailed(m)), st')
      case Ok(response) =>
        var n := Normalise(response);
        var meta := if Truthy(options.meta) then Some(Meta(ContextFor(env, options).value.0, st.codeBlocks)) else None;
        RequestOutcome(Ok(Answer(n.data, n.usage, meta)), st'.(sessions := Record(st.sessions, prompt, n.data)))
  }

  /** The prompt never influences the provider: only the context text is counted. */
  lemma ProviderIgnoresPrompt(st: RequestState, env: RequestEnv, p1: string, p2: string, schema: Option<SchemaNode>, options: RequestOptions)
    requires CallFor(st, env, p1, schema, options).Ok?
    ensures CallFor(st, env, p2, schema, options).Ok?
    ensures CallFor(st, env, p1, schema, options).value.llm == CallFor(st, env, p2, schema, options).value.llm
  {
  }

  /** With a custom context the scan is skipped: the provider is chosen for an empty text and only the prompt is sent. */
  lemma CustomContextSendsPromptOnly(st: RequestState, env: RequestEnv, prompt: string, schema: Option<SchemaNode>, options: RequestOptions)
    requires Truthy(options.customContext) && prompt != ""
    ensures CallFor(st, env, prompt, schema, options) ==
              Ok(Call(Select(st.preferences, st.keys, env.tokens("")), "\n\n# " + prompt, InstalledSchema(st.schema, schema)))
  {
    assert "" + "\n\n# " + prompt == "\n\n# " + prompt;
  }

  /** Without a custom context the rendered prompt is the text, and a failing scan fails the request before any call. */
  lemma GeneratedContext(st: RequestState, env: RequestEnv, prompt: string, schema: Option<SchemaNode>, options: RequestOptions)
    requires !Truthy(options.customContext)
    ensures env.scan.Err? ==> Request(st, env, prompt, schema, options).answer == Err(ScanFailed(env.scan.error))
    ensures env.scan.Ok? ==>
              var p := GenerateContextPrompt(options.customVariables, env.scan, env.render).value;
              CallFor(st, env, prompt, schema, options) ==
                Ok(Call(Select(st.preferences, st.keys, env.tokens(p.rendered)), CallText(p.rendered, prompt), InstalledSchema(st.schema, schema)))
  {
  }
}
