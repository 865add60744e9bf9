/**
 * The block execution engine (`executeBlocks`): filter the blocks by phase,
 * dispatch each to a runtime by substring of its tag, and merge what it
 * returns into the context before the next block runs. Runtimes are opaque
 * evaluators supplied by the caller.
 */
module Execution {
  import opened Results
  import opened Text
  import opened OrderedMap
  import opened JsValue
  import opened Templates

  datatype Runtime = Node | Python | Bash

  /** A runtime evaluating a block's code against a context; `Err` is an exception it throws. */
  type Evaluator = (Context, string) -> Result<Value, string>

  datatype Runtimes = Runtimes(node: Evaluator, python: Evaluator, bash: Evaluator)

  /** The block that threw and what it threw; the remaining blocks do not run. */
  datatype ExecError = ExecError(block: nat, message: string)

  /** The phase filter: pre runs tags ending in `:pre`, post runs tags without any `:`. */
  predicate RunsIn(pre: bool, lang: string) {
    (pre && EndsWith(lang, ":pre")) || (!pre && !Includes(lang, ":"))
  }

  /** The runtime chosen for a tag: the first of `js`, `python`, `bash` it contains. */
  function Dispatch(lang: string): Option<Runtime> {
    if Includes(lang, "js") then Some(Node)
    else if Includes(lang, "python") then Some(Python)
    else if Includes(lang, "bash") then Some(Bash)
    else None
  }

  function EvaluatorOf(rts: Runtimes, rt: Runtime): Evaluator {
    match rt
    case Node => rts.node
    case Python => rts.python
    case Bash => rts.bash
  }

  /**
   * What a block's result contributes: node and python results are spread
   * when `typeof` says object; a bash result's `vars` is spread when truthy,
   * and reading `.vars` of `undefined` or `null` throws.
   */
  function Contribution(rt: Runtime, result: Value): (r: Result<Value, string>)
    ensures r.Err? <==> rt == Bash && (result.Undefined? || result.Null?)
    ensures r.Ok? && !r.value.Undefined? && rt == Bash ==> r.value == Field(result, "vars") && Truthy(r.value)
    ensures r.Ok? && !r.value.Undefined? && rt != Bash ==> r.value == result && IsObjectType(result)
  {
    match rt
    case Bash =>
      if result.Undefined? || result.Null? then Err("TypeError: cannot read property 'vars'")
      else if Truthy(Field(result, "vars")) then Ok(Field(result, "vars"))
      else Ok(Undefined)
    case _ => if IsObjectType(result) then Ok(result) else Ok(Undefined)
  }

  /** Runs one block that passed the phase filter. */
  function RunBlock(rts: Runtimes, ctx: Context, b: CodeBlock): (r: Result<Context, string>)
    ensures Dispatch(b.lang).None? ==> r == Ok(ctx)
    ensures Dispatch(b.lang).Some? && EvaluatorOf(rts, Dispatch(b.lang).value)(ctx, b.code).Err? ==>
              r == Err(EvaluatorOf(rts, Dispatch(b.lang).value)(ctx, b.code).error)
    ensures r.Err? ==> Dispatch(b.lang).Some?
  {
    match Dispatch(b.lang)
    case None => Ok(ctx)
    case Some(rt) =>
      match EvaluatorOf(rts, rt)(ctx, b.code)
      case Err(m) => Err(m)
      case Ok(result) =>
        match Contribution(rt, result)
        case Err(m) => Err(m)
        case Ok(v) => Ok(Spread(ctx, v))
  }

  /** A block only adds or overwrites keys: the old keys stay first, in order, and distinct. */
  lemma RunBlockGrows(rts: Runtimes, ctx: Context, b: CodeBlock)
    requires RunBlock(rts, ctx, b).Ok?
    ensures Extends(ctx, RunBlock(rts, ctx, b).value)
    ensures Distinct(ctx) ==> Distinct(RunBlock(rts, ctx, b).value)
  {
    match Dispatch(b.lang)
    case None =>
    case Some(rt) =>
      var result := EvaluatorOf(rts, rt)(ctx, b.code).value;
      PutAllKeys(ctx, OwnEntries(Contribution(rt, result).value));
  }

  /**
   * The blocks from position `i` on, in order, each seeing the context the
   * previous ones left. The context only grows: existing keys keep their
   * order, and a failure names a block that ran in this phase.
   */
  function ExecuteFrom(rts: Runtimes, pre: bool, blocks: seq<CodeBlock>, i: nat, ctx: Context): (r: Result<Context, ExecError>)
    requires i <= |blocks|
    ensures r.Ok? ==> Extends(ctx, r.value)
    ensures r.Ok? && Distinct(ctx) ==> Distinct(r.value)
    ensures r.Err? ==> i <= r.error.block < |blocks| && RunsIn(pre, blocks[r.error.block].lang)
    decreases |blocks| - i
  {
    if i == |blocks| then Ok(ctx)
    else if !RunsIn(pre, blocks[i].lang) then ExecuteFrom(rts, pre, blocks, i + 1, ctx)
    else match RunBlock(rts, ctx, blocks[i])
      case Err(m) => Err(ExecError(i, m))
      case Ok(next) =>
        RunBlockGrows(rts, ctx, blocks[i]);
        ExecuteFrom(rts, pre, blocks, i + 1, next)
  }

  /** `executeBlocks(pre, context)`. */
  function ExecuteBlocks(rts: Runtimes, pre: bool, blocks: seq<CodeBlock>, ctx: Context): (r: Result<Context, ExecError>)
    ensures r.Ok? ==> Extends(ctx, r.value)
    ensures r.Ok? && Distinct(ctx) ==> Distinct(r.value)
    ensures r.Err? ==> r.error.block < |blocks| && RunsIn(pre, blocks[r.error.block].lang)
  {
    ExecuteFrom(rts, pre, blocks, 0, ctx)
  }

  /** The pre phase runs exactly the `:pre` tags, the post phase exactly the tags without `:`. */
  lemma PhaseFilter(lang: string)
    ensures RunsIn(true, lang) <==> EndsWith(lang, ":pre")
    ensures RunsIn(false, lang) <==> ':' !in lang
    ensures !(RunsIn(true, lang) && RunsIn(false, lang))
    ensures ':' in lang && !EndsWith(lang, ":pre") ==> !RunsIn(true, lang) && !RunsIn(false, lang)
  {
    IncludesChar(lang, ':');
    if EndsWith(lang, ":pre") {
      assert lang[|lang| - 4] == ':';
    }
  }

  /** Tags such as `js:post` carry a qualifier that neither phase accepts. */
  lemma QualifiedPostTagNeverRuns()
    ensures !RunsIn(true, "js:post") && !RunsIn(false, "js:post")
  {
    assert "js:post"[2] == ':';
    PhaseFilter("js:post");
  }

  /** Dispatch is by substring in the order js, python, bash: a `json` tag goes to the node runtime. */
  lemma DispatchBySubstring(lang: string)
    ensures (exists i: nat :: OccursAt(lang, "js", i)) ==> Dispatch(lang) == Some(Node)
    ensures Dispatch(lang) == Some(Python) <==>
              (forall i: nat :: !OccursAt(lang, "js", i)) && (exists i: nat :: OccursAt(lang, "python", i))
    ensures Dispatch(lang).None? ==> forall i: nat :: !OccursAt(lang, "bash", i)
    ensures Dispatch("json") == Some(Node)
  {
    IncludesIffOccurs(lang, "js");
    IncludesIffOccurs(lang, "python");
    IncludesIffOccurs(lang, "bash");
    assert OccursAt("json", "js", 0);
  }

  /** Blocks outside the phase leave the context untouched. */
  lemma {:induction false} SkippedBlocksInert(rts: Runtimes, pre: bool, blocks: seq<CodeBlock>, i: nat, ctx: Context)
    requires i <= |blocks|
    requires forall j :: i <= j < |blocks| ==> !RunsIn(pre, blocks[j].lang)
    ensures ExecuteFrom(rts, pre, blocks, i, ctx) == Ok(ctx)
    decreases |blocks| - i
  {
    if i < |blocks| {
      SkippedBlocksInert(rts, pre, blocks, i + 1, ctx);
    }
  }

  /**
   * Sequential threading: running the blocks equals running those before
   * position `k` and then the rest from the context they produced. So block
   * `k` observes exactly the bindings of the blocks before it.
   */
  lemma {:induction false} ExecuteSplit(rts: Runtimes, pre: bool, blocks: seq<CodeBlock>, i: nat, k: nat, ctx: Context)
    requires i <= k <= |blocks|
    ensures ExecuteFrom(rts, pre, blocks, i, ctx) ==
              (match ExecuteFrom(rts, pre, blocks[..k], i, ctx)
               case Err(e) => Err(e)
               case Ok(c) => ExecuteFrom(rts, pre, blocks, k, c))
    decreases k - i
  {
    var prefix := blocks[..k];
    if i == k {
      assert ExecuteFrom(rts, pre, prefix, i, ctx) == Ok(ctx);
    } else {
      assert prefix[i] == blocks[i];
      if RunsIn(pre, blocks[i].lang) {
        match RunBlock(rts, ctx, blocks[i])
        case Err(m) =>
          assert ExecuteFrom(rts, pre, blocks, i, ctx) == Err(ExecError(i, m));
          assert ExecuteFrom(rts, pre, prefix, i, ctx) == Err(ExecError(i, m));
        case Ok(next) =>
          assert ExecuteFrom(rts, pre, blocks, i, ctx) == ExecuteFrom(rts, pre, blocks, i + 1, next);
          assert ExecuteFrom(rts, pre, prefix, i, ctx) == ExecuteFrom(rts, pre, prefix, i + 1, next);
          ExecuteSplit(rts, pre, blocks, i + 1, k, next);
      } else {
        assert ExecuteFrom(rts, pre, blocks, i, ctx) == ExecuteFrom(rts, pre, blocks, i + 1, ctx);
        assert ExecuteFrom(rts, pre, prefix, i, ctx) == ExecuteFrom(rts, pre, prefix, i + 1, ctx);
        ExecuteSplit(rts, pre, blocks, i + 1, k, ctx);
      }
    }
  }

  /** An object returned by a node or python block overrides old keys and adds new ones. */
  lemma ObjectResultMerged(rts: Runtimes, ctx: Context, b: CodeBlock, fields: OMap<Value>, key: string)
    requires Dispatch(b.lang) == Some(Node) || Dispatch(b.lang) == Some(Python)
    requires EvaluatorOf(rts, Dispatch(b.lang).value)(ctx, b.code) == Ok(Obj(fields))
    requires Distinct(fields)
    ensures RunBlock(rts, ctx, b).Ok?
    ensures Get(RunBlock(rts, ctx, b).value, key) == (if HasKey(fields, key) then Get(fields, key) else Get(ctx, key))
  {
    ObjectStep(rts, ctx, b, fields);
    MergeGet(ctx, fields, key);
  }

  /** A node or python block returning an object spreads it onto the context. */
  lemma ObjectStep(rts: Runtimes, ctx: Context, b: CodeBlock, fields: OMap<Value>)
    requires Dispatch(b.lang) == Some(Node) || Dispatch(b.lang) == Some(Python)
    requires EvaluatorOf(rts, Dispatch(b.lang).value)(ctx, b.code) == Ok(Obj(fields))
    ensures RunBlock(rts, ctx, b) == Ok(PutAll(ctx, fields))
  {
    var rt := Dispatch(b.lang).value;
    assert Contribution(rt, Obj(fields)) == Ok(Obj(fields));
    assert Spread(ctx, Obj(fields)) == PutAll(ctx, fields) by {
      assert OwnEntries(Obj(fields)) == fields;
    }
  }

  /** A node or python result that is not an object (a string, a number, `undefined`, a function) changes nothing. */
  lemma NonObjectResultIgnored(rts: Runtimes, ctx: Context, b: CodeBlock)
    requires Dispatch(b.lang) == Some(Node) || Dispatch(b.lang) == Some(Python)
    requires EvaluatorOf(rts, Dispatch(b.lang).value)(ctx, b.code).Ok?
    requires !IsObjectType(EvaluatorOf(rts, Dispatch(b.lang).value)(ctx, b.code).value)
    ensures RunBlock(rts, ctx, b) == Ok(ctx)
  {
  }

  /** A bash result whose `vars` is an object is merged like a node result, whatever else the result holds. */
  lemma BashVarsMerged(rts: Runtimes, ctx: Context, b: CodeBlock, vars: OMap<Value>, key: string)
    requires Dispatch(b.lang) == Some(Bash)
    requires rts.bash(ctx, b.code).Ok? && Field(rts.bash(ctx, b.code).value, "vars") == Obj(vars)
    requires Distinct(vars)
    ensures RunBlock(rts, ctx, b).Ok?
    ensures Get(RunBlock(rts, ctx, b).value, key) == (if HasKey(vars, key) then Get(vars, key) else Get(ctx, key))
  {
    var result := rts.bash(ctx, b.code).value;
    assert result.Obj?;
    assert Contribution(Bash, result) == Ok(Obj(vars));
    assert OwnEntries(Obj(vars)) == vars;
    assert RunBlock(rts, ctx, b) == Ok(PutAll(ctx, vars));
    MergeGet(ctx, vars, key);
  }

  /** A bash result without truthy `vars` leaves the context as it was. */
  lemma BashWithoutVars(rts: Runtimes, ctx: Context, b: CodeBlock)
    requires Dispatch(b.lang) == Some(Bash)
    requires rts.bash(ctx, b.code).Ok?
    requires !rts.bash(ctx, b.code).value.Undefined? && !rts.bash(ctx, b.code).value.Null?
    requires !Truthy(Field(rts.bash(ctx, b.code).value, "vars"))
    ensures RunBlock(rts, ctx, b) == Ok(ctx)
  {
    SpreadPrimitive(ctx, Undefined);
  }

  /** Reading `vars` of an `undefined` or `null` bash result throws, and the phase stops. */
  lemma BashNoResultThrows(rts: Runtimes, ctx: Context, b: CodeBlock)
    requires Dispatch(b.lang) == Some(Bash)
    requires rts.bash(ctx, b.code) == Ok(Undefined) || rts.bash(ctx, b.code) == Ok(Null)
    ensures RunBlock(rts, ctx, b).Err?
  {
  }

  /** Spreading an object with one fresh key appends that entry. */
  lemma PutAllFresh(ctx: Context, k: string, v: Value)
    requires !HasKey(ctx, k)
    ensures PutAll(ctx, [(k, v)]) == ctx + [(k, v)]
  {
    var es: Context := [(k, v)];
    assert es[..0] == [];
    assert PutAll(ctx, es[..0]) == ctx;
    assert Position(ctx, k) == None;
  }

  /**
   * Source order is load-bearing: given a node block that binds `x` and
   * one that reads `x` to bind `y` (and throws when `x` is unbound), the
   * reader sees the writer only when it comes later.
   */
  lemma OrderIsLoadBearing(rts: Runtimes, tag: string, writer: string, reader: string, x: string, vx: Value, y: string, vy: Value)
    requires Dispatch(tag) == Some(Node) && RunsIn(false, tag)
    requires x != y
    requires rts.node([], writer) == Ok(Obj([(x, vx)]))
    requires rts.node([(x, vx)], reader) == Ok(Obj([(y, vy)]))
    requires rts.node([], reader).Err?
    ensures ExecuteBlocks(rts, false, [CodeBlock(tag, writer), CodeBlock(tag, reader)], []) == Ok([(x, vx), (y, vy)])
    ensures ExecuteBlocks(rts, false, [CodeBlock(tag, reader), CodeBlock(tag, writer)], []) == Err(ExecError(0, rts.node([], reader).error))
  {
    var w := CodeBlock(tag, writer);
    var r := CodeBlock(tag, reader);
    WriterBinds(rts, w, x, vx);
    ReaderBinds(rts, r, x, vx, y, vy);
    TwoBlocksRun(rts, w, r, [], [(x, vx)], [(x, vx), (y, vy)]);
    FirstBlockThrows(rts, r, w);
  }

  lemma WriterBinds(rts: Runtimes, w: CodeBlock, x: string, vx: Value)
    requires Dispatch(w.lang) == Some(Node)
    requires rts.node([], w.code) == Ok(Obj([(x, vx)]))
    ensures RunBlock(rts, [], w) == Ok([(x, vx)])
  {
    var c1: Context := [(x, vx)];
    ObjectStep(rts, [], w, c1);
    PutAllOntoEmpty(c1);
  }

  lemma ReaderBinds(rts: Runtimes, r: CodeBlock, x: string, vx: Value, y: string, vy: Value)
    requires Dispatch(r.lang) == Some(Node) && x != y
    requires rts.node([(x, vx)], r.code) == Ok(Obj([(y, vy)]))
    ensures RunBlock(rts, [(x, vx)], r) == Ok([(x, vx), (y, vy)])
  {
    var c1: Context := [(x, vx)];
    ObjectStep(rts, c1, r, [(y, vy)]);
    assert !HasKey(c1, y);
    PutAllFresh(c1, y, vy);
    assert c1 + [(y, vy)] == [(x, vx), (y, vy)];
  }

  /** Two blocks of the phase run one after the other. */
  lemma TwoBlocksRun(rts: Runtimes, a: CodeBlock, b: CodeBlock, c0: Context, c1: Context, c2: Context)
    requires RunsIn(false, a.lang) && RunsIn(false, b.lang)
    requires RunBlock(rts, c0, a) == Ok(c1) && RunBlock(rts, c1, b) == Ok(c2)
    ensures ExecuteBlocks(rts, false, [a, b], c0) == Ok(c2)
  {
    var blocks := [a, b];
    assert ExecuteFrom(rts, false, blocks, 2, c2) == Ok(c2);
    assert ExecuteFrom(rts, false, blocks, 1, c1) == Ok(c2);
  }

  /** A node block that throws on the empty context stops the phase at once, blaming that block; the next one never runs. */
  lemma FirstBlockThrows(rts: Runtimes, a: CodeBlock, b: CodeBlock)
    requires Dispatch(a.lang) == Some(Node) && RunsIn(false, a.lang)
    requires rts.node([], a.code).Err?
    ensures ExecuteBlocks(rts, false, [a, b], []) == Err(ExecError(0, rts.node([], a.code).error))
  {
    assert RunBlock(rts, [], a).Err?;
  }
}
