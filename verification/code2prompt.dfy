/**
 * The `Code2Prompt` instance: its configuration defaults, the key setter,
 * template loading onto the instance, and `runTemplate`, which wires the
 * context prompt, the two block phases and the template query together.
 * File access, the glob, handlebars, the block runtimes, the tokenizer and
 * the completion service are supplied by the caller.
 */
module Code2Prompt {
  import opened Results
  import opened Text
  import opened OrderedMap
  import opened JsValue
  import opened Schema
  import opened Templates
  import opened Execution
  import opened Providers
  import opened SourceTree
  import opened Scan
  import opened ContextPrompt
  import opened Requests

  /** The per-file byte limit when none is configured. */
  const DEFAULT_MAX_BYTES_PER_FILE: nat := 8192

  /** An option that may be one string or a list of them. */
  datatype Listed = Absent | One(s: string) | Many(items: seq<string>)

  /** `options.x ? [].concat(options.x) : []`. */
  function ListOption(l: Listed): (r: seq<string>)
    ensures l.Many? ==> r == l.items
    ensures l.One? ==> r == (if l.s == "" then [] else [l.s])
    ensures l.Absent? ==> r == []
  {
    match l
    case Absent => []
    case One(s) => if s == "" then [] else [s]
    case Many(items) => items
  }

  /** `options.KEY ? options.KEY : null`. */
  function KeyOption(v: Value): (r: Value)
    ensures Truthy(r) <==> Truthy(v)
    ensures Truthy(v) ==> r == v
    ensures !Truthy(v) ==> r == Null
  {
    if Truthy(v) then v else Null
  }

  /** The constructor's options; `viewerExts` are the keys of `custom_viewers`. */
  datatype Options = Options(
    path: string,
    extensions: Listed,
    ignore: Listed,
    schema: Option<SchemaNode>,
    viewerExts: seq<string>,
    openaiKey: Value,
    groqKey: Value,
    anthropicKey: Value,
    maxBytesPerFile: nat)

  /** The instance state; `template` is the text handlebars compiles, absent until a load completes. */
  datatype Instance = Instance(
    path: string,
    extensions: seq<string>,
    ignorePatterns: seq<string>,
    schema: Option<SchemaNode>,
    codeBlocks: seq<CodeBlock>,
    template: Option<string>,
    sessions: Sessions,
    viewerExts: seq<string>,
    keys: Keys,
    maxBytesPerFile: nat,
    preferences: seq<string>)

  /** The constructor's field initialisation. */
  function Configure(o: Options): (r: Instance)
    ensures r.path == o.path && r.viewerExts == o.viewerExts && r.schema == o.schema
    ensures r.extensions == ListOption(o.extensions) && r.ignorePatterns == ListOption(o.ignore)
    ensures r.preferences == DEFAULT_PREFERENCES
    ensures forall p :: Truthy(KeyOf(r.keys, p)) <==> Truthy(KeyOf(Keys(o.openaiKey, o.groqKey, o.anthropicKey), p))
    ensures forall p :: Truthy(KeyOf(Keys(o.openaiKey, o.groqKey, o.anthropicKey), p)) ==>
              KeyOf(r.keys, p) == KeyOf(Keys(o.openaiKey, o.groqKey, o.anthropicKey), p)
    ensures r.maxBytesPerFile > 0
    ensures o.maxBytesPerFile > 0 ==> r.maxBytesPerFile == o.maxBytesPerFile
    ensures r.sessions == Sessions([], None) && r.codeBlocks == [] && r.template.None?
  {
    Instance(
      o.path,
      ListOption(o.extensions),
      ListOption(o.ignore),
      o.schema,
      [],
      None,
      Sessions([], None),
      o.viewerExts,
      Keys(KeyOption(o.openaiKey), KeyOption(o.groqKey), KeyOption(o.anthropicKey)),
      if o.maxBytesPerFile != 0 then o.maxBytesPerFile else DEFAULT_MAX_BYTES_PER_FILE,
      DEFAULT_PREFERENCES)
  }

  /** Without any key configured, no provider is ever chosen, whatever the size of the text. */
  lemma NoKeysNoProvider(o: Options, tokens: nat)
    requires !Truthy(o.openaiKey) && !Truthy(o.groqKey) && !Truthy(o.anthropicKey)
    ensures Select(Configure(o).preferences, Configure(o).keys, tokens).None?
  {
    var r := Configure(o);
    assert forall i :: 0 <= i < |r.preferences| ==> !QualifiesNamed(r.preferences[i], r.keys, tokens);
  }

  /** `setLLMAPI(provider, value)`: only the named provider's key changes; an unknown name changes nothing. */
  function SetLLMAPI(inst: Instance, provider: string, value: Value): (r: (bool, Instance))
    ensures r.0 <==> ProviderNamed(provider).Some?
    ensures r.1 == inst.(keys := r.1.keys)
    ensures !r.0 ==> r.1 == inst
    ensures r.0 ==> KeyOf(r.1.keys, ProviderNamed(provider).value) == value
  {
    var (known, keys) := SetKey(inst.keys, provider, value);
    if known then (true, inst.(keys := keys)) else (false, inst)
  }

  /** With the default preferences, setting an OpenAI key makes OpenAI the choice for any text it can take. */
  lemma OpenAIKeyFirst(inst: Instance, key: Value, tokens: nat)
    requires inst.preferences == DEFAULT_PREFERENCES && Truthy(key) && tokens < 128000
    ensures var r := SetLLMAPI(inst, "OPENAI", key).1;
            Select(r.preferences, r.keys, tokens).Some? &&
            Select(r.preferences, r.keys, tokens).value.provider == OpenAI
  {
    var r := SetLLMAPI(inst, "OPENAI", key).1;
    assert ProviderNamed("OPENAI") == Some(OpenAI);
    Brackets(r.keys, tokens);
    assert QualifiesNamed(r.preferences[0], r.keys, tokens);
    FirstQualifyingWins(r.preferences, r.keys, tokens);
  }

  /** The template text a load starts from: the file, or the default when no path is given. */
  function TemplateSource(templatePath: string, read: string -> Option<string>): Option<string> {
    if templatePath != "" then read(templatePath) else Some(DEFAULT_TEMPLATE)
  }

  /**
   * `loadAndRegisterTemplate(templatePath)`: the code blocks are reset first;
   * an unreadable file stops there. Otherwise the fences the markdown parser
   * finds are extracted onto the instance.
   */
  method LoadAndRegisterTemplate(inst: Instance, templatePath: string, read: string -> Option<string>,
                                 parseFences: string -> seq<Fence>, parse: string -> Option<Json>)
    returns (r: Instance, err: Option<LoadError>)
    ensures r == inst.(codeBlocks := r.codeBlocks, template := r.template, schema := r.schema)
    ensures TemplateSource(templatePath, read).None? ==>
              r == inst.(codeBlocks := []) && err == Some(TemplateUnreadable(templatePath))
    ensures TemplateSource(templatePath, read).Some? ==>
              var content := TemplateSource(templatePath, read).value;
              var fences := parseFences(content);
              && (err.None? <==> AllFencesOk(fences, parse))
              && (err.None? ==> r.template == Some(StripAll(content, Tagged(fences))))
              && (err.None? ==> r.codeBlocks == ExecutableBlocks(fences))
              && (err.None? ==> r.schema == SchemaAfter(inst.schema, fences, parse))
              && (err.Some? ==> r.template == Some(content))
              && (err.Some? ==>
                    exists k :: 0 <= k < |fences| && !SchemaFenceOk(fences[k], parse) && AllFencesOk(fences[..k], parse)
                                && err.value == FenceError(fences[k], k, parse)
                                && r.codeBlocks == ExecutableBlocks(fences[..k])
                                && r.schema == SchemaAfter(inst.schema, fences[..k], parse))
    ensures inst.schema.Some? ==> r.schema == inst.schema
  {
    var cleared := inst.(codeBlocks := []);
    var source := TemplateSource(templatePath, read);
    if source.None? {
      return cleared, Some(TemplateUnreadable(templatePath));
    }
    var content := source.value;
    var fences := parseFences(content);
    var out, e := ExtractFences(content, fences, inst.schema, parse);
    if inst.schema.Some? {
      if e.None? {
        ExistingSchemaKept(inst.schema, fences, parse);
      } else {
        var k :| 0 <= k < |fences| && AllFencesOk(fences[..k], parse)
                 && out == Extracted(content, ExecutableBlocks(fences[..k]), SchemaAfter(inst.schema, fences[..k], parse));
        ExistingSchemaKept(inst.schema, fences[..k], parse);
      }
    }
    r := cleared.(template := Some(out.template), codeBlocks := out.blocks, schema := out.schema);
    err := e;
  }

  /** The helpers every template script can call. */
  const BASE_METHODS: Context := [
    ("queryLLM", Fun("queryLLM")),
    ("queryContext", Fun("queryContext")),
    ("extractCodeBlocks", Fun("extractCodeBlocks"))]

  const EXECUTE_SCRIPT := "executeScript"

  /** `{...base_methods, ...methods, executeScript}`. */
  function MethodsOf(methods: Context): Context {
    PutAll(PutAll(BASE_METHODS, methods), [(EXECUTE_SCRIPT, Fun(EXECUTE_SCRIPT))])
  }

  /** `executeScript` cannot be replaced by the caller; the caller's methods replace the base helpers. */
  lemma MethodsPrecedence(methods: Context, k: string)
    requires Distinct(methods)
    ensures Get(MethodsOf(methods), k) ==
              if k == EXECUTE_SCRIPT then Some(Fun(EXECUTE_SCRIPT))
              else if HasKey(methods, k) then Get(methods, k)
              else Get(BASE_METHODS, k)
  {
    var es: Context := [(EXECUTE_SCRIPT, Fun(EXECUTE_SCRIPT))];
    MergeGet(PutAll(BASE_METHODS, methods), es, k);
    MergeGet(BASE_METHODS, methods, k);
    if k == EXECUTE_SCRIPT {
      PositionIs(es, k, 0);
    }
  }

  /** What `runTemplate` needs from outside. */
  datatype RunEnv = RunEnv(
    runtimes: Runtimes,
    resolve: string -> string,
    glob: seq<string> -> seq<string>,
    view: (string, string) -> string,
    read: string -> string,
    render: (string, Context) -> string,
    tokens: string -> nat,
    complete: Call -> Result<Value, string>)

  datatype RunError =
    | TemplateNotCompiled
    | ScanError(scanCause: TreeError)
    | BlockFailed(blockCause: ExecError)
    | QueryFailed(queryCause: RequestError)

  /** `traverseDirectory(options.path)`: the glob runs with the ignore patterns the viewers leave. */
  function ScanOf(inst: Instance, env: RunEnv): Result<Scanned, TreeError> {
    var listed := env.glob(AdjustIgnorePatterns(inst.ignorePatterns, inst.viewerExts));
    ScanFiles(env.resolve(inst.path), listed, inst.extensions, Readers(inst.viewerExts, env.view, env.read))
  }

  function RequestStateOf(inst: Instance): RequestState {
    RequestState(inst.keys, inst.preferences, inst.schema, inst.codeBlocks, inst.sessions)
  }

  function RequestEnvOf(inst: Instance, env: RunEnv, template: string): RequestEnv {
    RequestEnv(ScanOf(inst, env), (vars: Context) => env.render(template, vars), env.tokens, env.complete)
  }

  /** The context the pre phase starts from: the helpers, overridden by the prompt variables. */
  function InitialContext(methods: Context, prompt: Prompt): Context {
    PutAll(MethodsOf(methods), prompt.context)
  }

  /** The prompt variables win over every helper, and `executeScript` over the caller's methods. */
  lemma InitialContextPrecedence(methods: Context, prompt: Prompt, k: string)
    requires Distinct(methods) && Distinct(prompt.context)
    ensures Get(InitialContext(methods, prompt), k) ==
              if HasKey(prompt.context, k) then Get(prompt.context, k)
              else Get(MethodsOf(methods), k)
  {
    MergeGet(MethodsOf(methods), prompt.context, k);
  }

  /**
   * The step between the phases: when the rendered template is not blank,
   * the template is sent as a request with the current context as its
   * variables, and the answer's data is bound to `schema`.
   */
  function TemplateQuery(inst: Instance, env: RunEnv, template: string, prompt: string, rendered: string, ctx: Context)
    : (r: (Result<Context, RunError>, Instance))
    ensures Trim(rendered) == "" ==> r == (Ok(ctx), inst)
    ensures r.1 == inst.(sessions := r.1.sessions)
    ensures r.0.Ok? && Trim(rendered) != "" ==>
              Truthy(Lookup(r.0.value, "schema")) &&
              r.1.sessions == Record(inst.sessions, prompt, Lookup(r.0.value, "schema"))
    ensures r.0.Ok? ==> Extends(ctx, r.0.value)
    ensures Trim(rendered) != "" ==>
              var out := Request(RequestStateOf(inst), RequestEnvOf(inst, env, template), prompt, None,
                                 RequestOptions(Undefined, Undefined, ctx));
              && r.1 == inst.(sessions := out.state.sessions)
              && (out.answer.Err? ==> r == (Err(QueryFailed(out.answer.error)), inst))
              && (out.answer.Ok? ==>
                    && r.0.Ok?
                    && Lookup(r.0.value, "schema") == out.answer.value.data
                    && forall k :: k != "schema" ==> Get(r.0.value, k) == Get(ctx, k))
  {
    if Trim(rendered) == "" then (Ok(ctx), inst)
    else
      var out := Request(RequestStateOf(inst), RequestEnvOf(inst, env, template), prompt, None,
                         RequestOptions(Undefined, Undefined, ctx));
      var inst' := inst.(sessions := out.state.sessions);
      match out.answer
      case Err(e) => (Err(QueryFailed(e)), inst')
      case Ok(a) =>
        var next := PutAll(ctx, [("schema", a.data)]);
        PutAllKeys(ctx, [("schema", a.data)]);
        SchemaBound(ctx, a.data);
        (Ok(next), inst')
  }

  /** Binding `schema` makes it read back as the bound value and leaves every other variable alone. */
  lemma SchemaBound(ctx: Context, data: Value)
    ensures Lookup(PutAll(ctx, [("schema", data)]), "schema") == data
    ensures forall k :: k != "schema" ==> Get(PutAll(ctx, [("schema", data)]), k) == Get(ctx, k)
  {
    var es: Context := [("schema", data)];
    MergeGet(ctx, es, "schema");
    PositionIs(es, "schema", 0);
    forall k | k != "schema" ensures Get(PutAll(ctx, es), k) == Get(ctx, k) {
      MergeGet(ctx, es, k);
    }
  }

  /**
   * `runTemplate(prompt, methods, context)`: render the context prompt,
   * run the pre blocks on the helpers and variables, query the template
   * if it renders to more than whitespace, then run the post blocks.
   */
  function RunTemplate(inst: Instance, env: RunEnv, prompt: string, methods: Context, context: Context)
    : (r: (Result<Context, RunError>, Instance))
    ensures r.1 == inst.(sessions := r.1.sessions)
    ensures ScanOf(inst, env).Err? ==> r == (Err(ScanError(ScanOf(inst, env).error)), inst)
    ensures ScanOf(inst, env).Ok? && inst.template.None? ==> r == (Err(TemplateNotCompiled), inst)
    ensures r.0.Ok? ==> Extends(MethodsOf(methods), r.0.value)
  {
    match ScanOf(inst, env)
    case Err(e) => (Err(ScanError(e)), inst)
    case Ok(_) =>
      match inst.template
      case None => (Err(TemplateNotCompiled), inst)
      case Some(template) =>
        var p := GenerateContextPrompt(context, ScanOf(inst, env), (vars: Context) => env.render(template, vars)).value;
        var ctx0 := InitialContext(methods, p);
        PutAllKeys(MethodsOf(methods), p.context);
        match ExecuteBlocks(env.runtimes, true, inst.codeBlocks, ctx0)
        case Err(e) => (Err(BlockFailed(e)), inst)
        case Ok(ctx1) =>
          var (q, inst') := TemplateQuery(inst, env, template, prompt, p.rendered, ctx1);
          match q
          case Err(e) => (Err(e), inst')
          case Ok(ctx2) =>
            match ExecuteBlocks(env.runtimes, false, inst.codeBlocks, ctx2)
            case Err(e) => (Err(BlockFailed(e)), inst')
            case Ok(ctx3) =>
              ExtendsTransitive(MethodsOf(methods), ctx0, ctx1);
              ExtendsTransitive(MethodsOf(methods), ctx1, ctx2);
              ExtendsTransitive(MethodsOf(methods), ctx2, ctx3);
              (Ok(ctx3), inst')
  }

  /** A template that renders to whitespace only sends no request: the post phase runs on the pre phase's context. */
  lemma BlankTemplateSkipsQuery(inst: Instance, env: RunEnv, prompt: string, methods: Context, context: Context)
    requires inst.template.Some?
    requires GenerateContextPrompt(context, ScanOf(inst, env), (vars: Context) => env.render(inst.template.value, vars)).Ok?
    requires Trim(GenerateContextPrompt(context, ScanOf(inst, env), (vars: Context) => env.render(inst.template.value, vars)).value.rendered) == ""
    ensures var p := GenerateContextPrompt(context, ScanOf(inst, env), (vars: Context) => env.render(inst.template.value, vars)).value;
            var pre := ExecuteBlocks(env.runtimes, true, inst.codeBlocks, InitialContext(methods, p));
            && RunTemplate(inst, env, prompt, methods, context).1 == inst
            && (pre.Err? ==> RunTemplate(inst, env, prompt, methods, context).0 == Err(BlockFailed(pre.error)))
            && (pre.Ok? ==>
                  RunTemplate(inst, env, prompt, methods, context).0 ==
                  (match ExecuteBlocks(env.runtimes, false, inst.codeBlocks, pre.value)
                   case Err(e) => Err(BlockFailed(e))
                   case Ok(c) => Ok(c)))
  {
  }
}
