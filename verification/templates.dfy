/**
 * Template loading (`loadAndRegisterTemplate`): tagged code fences are cut out
 * of the template text, `schema` / `json:schema` fences become the response
 * schema unless one is already set, and every other tagged fence becomes an
 * executable code block, in source order. Parsing markdown fences and JSON is
 * done by libraries; their results are inputs here.
 */
module Templates {
  import opened Results
  import opened Text
  import opened Schema

  /** A fence as the markdown parser reports it; `lang` is empty for an untagged fence. */
  datatype Fence = Fence(lang: string, value: string)

  /** An executable block: its tag and its source. */
  datatype CodeBlock = CodeBlock(lang: string, code: string)

  /** Why a load was aborted; `fence` is the position of the offending fence. */
  datatype LoadError =
    | TemplateUnreadable(path: string)
    | MalformedSchemaJson(fence: nat)
    | SchemaNotSynthesizable(fence: nat, cause: SchemaError)

  /** The template used when no template path is configured. */
  const DEFAULT_TEMPLATE: string :=
    "Project Path: {{absolute_code_path}}\n      \nSource Tree:\n\n```\n{{source_tree}}\n```\n\n"
    + "{{#each files}}\n{{#if code}}\n`{{path}}`:\n\n{{{code}}}\n\n{{/if}}\n{{/each}}\n"

  predicate IsTagged(f: Fence) {
    f.lang != ""
  }

  predicate IsSchemaTag(lang: string) {
    lang == "schema" || lang == "json:schema"
  }

  predicate IsExecutable(f: Fence) {
    IsTagged(f) && !IsSchemaTag(f.lang)
  }

  /** The exact text the loader cuts out for a fence. */
  function FenceText(f: Fence): string {
    "```" + f.lang + "\n" + f.value + "\n```"
  }

  /** The tagged fences, in order. */
  function Tagged(fs: seq<Fence>): (r: seq<Fence>)
    ensures |r| <= |fs|
    ensures forall i :: 0 <= i < |r| ==> IsTagged(r[i])
  {
    if |fs| == 0 then []
    else Tagged(fs[..|fs| - 1]) + (if IsTagged(fs[|fs| - 1]) then [fs[|fs| - 1]] else [])
  }

  /** The schema fences, in order. */
  function SchemaFences(fs: seq<Fence>): (r: seq<Fence>)
    ensures forall i :: 0 <= i < |r| ==> IsSchemaTag(r[i].lang)
  {
    if |fs| == 0 then []
    else SchemaFences(fs[..|fs| - 1]) + (if IsSchemaTag(fs[|fs| - 1].lang) then [fs[|fs| - 1]] else [])
  }

  /** The executable fences as code blocks, in order. */
  function ExecutableBlocks(fs: seq<Fence>): (r: seq<CodeBlock>)
    ensures forall i :: 0 <= i < |r| ==> r[i].lang != "" && !IsSchemaTag(r[i].lang)
  {
    if |fs| == 0 then []
    else
      var f := fs[|fs| - 1];
      ExecutableBlocks(fs[..|fs| - 1]) + (if IsExecutable(f) then [CodeBlock(f.lang, f.value)] else [])
  }

  /** The template text after cutting out each fence of `fs` in turn (first occurrence each time). */
  function StripAll(text: string, fs: seq<Fence>): string {
    if |fs| == 0 then text
    else RemoveFirst(StripAll(text, fs[..|fs| - 1]), FenceText(fs[|fs| - 1]))
  }

  /** A schema fence loads when its body parses and synthesizes; other fences always load. */
  predicate SchemaFenceOk(f: Fence, parse: string -> Option<Json>) {
    IsSchemaTag(f.lang) ==> parse(f.value).Some? && Synthesizable(parse(f.value).value)
  }

  predicate AllFencesOk(fs: seq<Fence>, parse: string -> Option<Json>) {
    forall i :: 0 <= i < |fs| ==> SchemaFenceOk(fs[i], parse)
  }

  /** The response schema a loadable schema fence declares. */
  function FenceSchema(f: Fence, parse: string -> Option<Json>): SchemaNode
    requires IsSchemaTag(f.lang) && SchemaFenceOk(f, parse)
  {
    ResponseSchema(Synthesize(parse(f.value).value).value)
  }

  /** The schema after the fences `fs`: a set schema is kept, otherwise the first schema fence sets it. */
  function SchemaAfter(schema0: Option<SchemaNode>, fs: seq<Fence>, parse: string -> Option<Json>): Option<SchemaNode>
    requires AllFencesOk(fs, parse)
  {
    if |fs| == 0 then schema0
    else
      var before := SchemaAfter(schema0, fs[..|fs| - 1], parse);
      var f := fs[|fs| - 1];
      if before.None? && IsSchemaTag(f.lang) then Some(FenceSchema(f, parse)) else before
  }

  /** Position of the first schema fence. */
  function FirstSchemaFence(fs: seq<Fence>): (r: Option<nat>)
    ensures r.Some? ==> r.value < |fs| && IsSchemaTag(fs[r.value].lang)
    ensures r.Some? ==> forall j :: 0 <= j < r.value ==> !IsSchemaTag(fs[j].lang)
    ensures r.None? ==> forall j :: 0 <= j < |fs| ==> !IsSchemaTag(fs[j].lang)
  {
    if |fs| == 0 then None
    else if IsSchemaTag(fs[0].lang) then Some(0)
    else match FirstSchemaFence(fs[1..])
      case None => None
      case Some(k) => Some(k + 1)
  }

  /** The error the loader reports for a fence that does not load. */
  function FenceError(f: Fence, k: nat, parse: string -> Option<Json>): LoadError
    requires !SchemaFenceOk(f, parse)
  {
    if parse(f.value).None? then MalformedSchemaJson(k)
    else SchemaNotSynthesizable(k, Synthesize(parse(f.value).value).error)
  }

  /** The outcome of extracting fences from a template. */
  datatype Extracted = Extracted(template: string, blocks: seq<CodeBlock>, schema: Option<SchemaNode>)

  /** How each reference definition extends by one more fence. */
  lemma Snoc(content: string, schema0: Option<SchemaNode>, xs: seq<Fence>, f: Fence, parse: string -> Option<Json>)
    ensures Tagged(xs + [f]) == Tagged(xs) + (if IsTagged(f) then [f] else [])
    ensures ExecutableBlocks(xs + [f]) == ExecutableBlocks(xs) + (if IsExecutable(f) then [CodeBlock(f.lang, f.value)] else [])
    ensures IsTagged(f) ==> StripAll(content, Tagged(xs) + [f]) == RemoveFirst(StripAll(content, Tagged(xs)), FenceText(f))
    ensures AllFencesOk(xs + [f], parse) <==> AllFencesOk(xs, parse) && SchemaFenceOk(f, parse)
    ensures AllFencesOk(xs + [f], parse) ==>
              SchemaAfter(schema0, xs + [f], parse) ==
                (var before := SchemaAfter(schema0, xs, parse);
                 if before.None? && IsSchemaTag(f.lang) then Some(FenceSchema(f, parse)) else before)
  {
    assert (xs + [f])[..|xs|] == xs;
    assert (Tagged(xs) + [f])[..|Tagged(xs)|] == Tagged(xs);
    if AllFencesOk(xs, parse) && SchemaFenceOk(f, parse) {
      assert forall i :: 0 <= i < |xs| ==> (xs + [f])[i] == xs[i];
    }
  }

  lemma ErrorWitness(fences: seq<Fence>, k: nat, content: string, schema0: Option<SchemaNode>,
                     parse: string -> Option<Json>, out: Extracted, e: LoadError)
    requires 0 <= k < |fences| && !SchemaFenceOk(fences[k], parse) && AllFencesOk(fences[..k], parse)
    requires e == FenceError(fences[k], k, parse)
    requires out == Extracted(content, ExecutableBlocks(fences[..k]), SchemaAfter(schema0, fences[..k], parse))
    ensures exists k :: 0 <= k < |fences| && !SchemaFenceOk(fences[k], parse) && AllFencesOk(fences[..k], parse)
                        && e == FenceError(fences[k], k, parse)
                        && out == Extracted(content, ExecutableBlocks(fences[..k]), SchemaAfter(schema0, fences[..k], parse))
  {
  }

  /** One pass of the fence loop: cut a tagged fence out of the text, then classify it. */
  function LoadFence(acc: Extracted, f: Fence, k: nat, parse: string -> Option<Json>): (r: Result<Extracted, LoadError>)
    ensures r.Err? <==> !SchemaFenceOk(f, parse)
    ensures r.Err? ==> r.error == FenceError(f, k, parse)
    ensures r.Ok? && !IsTagged(f) ==> r.value == acc
    ensures r.Ok? ==> r.value.blocks == acc.blocks + (if IsExecutable(f) then [CodeBlock(f.lang, f.value)] else [])
    ensures r.Ok? && acc.schema.Some? ==> r.value.schema == acc.schema
  {
    var text := if IsTagged(f) then RemoveFirst(acc.template, FenceText(f)) else acc.template;
    if IsSchemaTag(f.lang) then
      if !SchemaFenceOk(f, parse) then Err(FenceError(f, k, parse))
      else Ok(Extracted(text, acc.blocks, if acc.schema.None? then Some(FenceSchema(f, parse)) else acc.schema))
    else if IsTagged(f) then Ok(Extracted(text, acc.blocks + [CodeBlock(f.lang, f.value)], acc.schema))
    else Ok(acc.(template := text))
  }

  /** The state of the loop after the first `i` fences loaded. */
  function Progress(content: string, schema0: Option<SchemaNode>, fs: seq<Fence>, parse: string -> Option<Json>): Extracted
    requires AllFencesOk(fs, parse)
  {
    Extracted(StripAll(content, Tagged(fs)), ExecutableBlocks(fs), SchemaAfter(schema0, fs, parse))
  }

  lemma LoadFenceStep(content: string, schema0: Option<SchemaNode>, fences: seq<Fence>, i: nat, parse: string -> Option<Json>)
    requires i < |fences| && AllFencesOk(fences[..i], parse)
    ensures LoadFence(Progress(content, schema0, fences[..i], parse), fences[i], i, parse).Ok? <==> SchemaFenceOk(fences[i], parse)
    ensures SchemaFenceOk(fences[i], parse) ==>
              AllFencesOk(fences[..i + 1], parse) &&
              LoadFence(Progress(content, schema0, fences[..i], parse), fences[i], i, parse)
                == Ok(Progress(content, schema0, fences[..i + 1], parse))
  {
    var f := fences[i];
    var xs := fences[..i];
    assert fences[..i + 1] == xs + [f];
    Snoc(content, schema0, xs, f, parse);
    if SchemaFenceOk(f, parse) {
      var acc := Progress(content, schema0, xs, parse);
      var next := Progress(content, schema0, xs + [f], parse);
      if IsTagged(f) {
        assert next.template == RemoveFirst(acc.template, FenceText(f));
      } else {
        assert Tagged(xs) + [] == Tagged(xs);
        assert next.template == acc.template;
      }
      if IsSchemaTag(f.lang) {
        assert ExecutableBlocks(xs) + [] == ExecutableBlocks(xs);
        assert next.blocks == acc.blocks;
      } else if IsTagged(f) {
        assert next.schema == acc.schema;
      } else {
        assert ExecutableBlocks(xs) + [] == ExecutableBlocks(xs);
        assert next.blocks == acc.blocks;
        assert next.schema == acc.schema;
      }
    }
  }

  /**
   * The fence loop of `loadAndRegisterTemplate`. On success the compiled
   * template is the stripped text; when a schema fence fails to parse or to
   * synthesize, the load stops there: the template stays the unstripped
   * content compiled before the loop, and the blocks and schema gathered from
   * the earlier fences remain.
   */
  method ExtractFences(content: string, fences: seq<Fence>, schema0: Option<SchemaNode>, parse: string -> Option<Json>)
    returns (out: Extracted, err: Option<LoadError>)
    ensures err.None? <==> AllFencesOk(fences, parse)
    ensures err.None? ==> out.template == StripAll(content, Tagged(fences))
    ensures err.None? ==> out.blocks == ExecutableBlocks(fences)
    ensures err.None? ==> out.schema == SchemaAfter(schema0, fences, parse)
    ensures err.Some? ==>
              exists k :: 0 <= k < |fences| && !SchemaFenceOk(fences[k], parse) && AllFencesOk(fences[..k], parse)
                          && err.value == FenceError(fences[k], k, parse)
                          && out == Extracted(content, ExecutableBlocks(fences[..k]), SchemaAfter(schema0, fences[..k], parse))
  {
    var acc := Extracted(content, [], schema0);
    var i := 0;
    while i < |fences|
      invariant 0 <= i <= |fences|
      invariant AllFencesOk(fences[..i], parse)
      invariant acc == Progress(content, schema0, fences[..i], parse)
    {
      LoadFenceStep(content, schema0, fences, i, parse);
      var r := LoadFence(acc, fences[i], i, parse);
      if r.Err? {
        err := Some(r.error);
        out := Extracted(content, acc.blocks, acc.schema);
        ErrorWitness(fences, i, content, schema0, parse, out, err.value);
        return;
      }
      acc := r.value;
      i := i + 1;
    }
    assert fences[..i] == fences;
    out := acc;
    err := None;
  }

  /** Blocks of consecutive fence runs come out in the same order as the runs. */
  lemma {:induction false} ExecutableBlocksAppend(a: seq<Fence>, b: seq<Fence>)
    ensures ExecutableBlocks(a + b) == ExecutableBlocks(a) + ExecutableBlocks(b)
  {
    if |b| > 0 {
      ExecutableBlocksAppend(a, b[..|b| - 1]);
      assert (a + b)[..|a + b| - 1] == a + b[..|b| - 1];
    } else {
      assert a + b == a;
    }
  }

  /** Every tagged fence yields either a code block or a schema declaration, never both. */
  lemma {:induction false} BlockCount(fs: seq<Fence>)
    ensures |ExecutableBlocks(fs)| + |SchemaFences(fs)| == |Tagged(fs)|
  {
    if |fs| > 0 {
      BlockCount(fs[..|fs| - 1]);
    }
  }

  /** A schema that is already set is never replaced by a template's schema fence. */
  lemma {:induction false} ExistingSchemaKept(schema0: Option<SchemaNode>, fs: seq<Fence>, parse: string -> Option<Json>)
    requires schema0.Some? && AllFencesOk(fs, parse)
    ensures SchemaAfter(schema0, fs, parse) == schema0
  {
    if |fs| > 0 {
      assert AllFencesOk(fs[..|fs| - 1], parse);
      ExistingSchemaKept(schema0, fs[..|fs| - 1], parse);
    }
  }

  /** Without a preset schema, the first schema fence decides it and later ones are ignored. */
  lemma {:induction false} FirstSchemaFenceWins(fs: seq<Fence>, parse: string -> Option<Json>)
    requires AllFencesOk(fs, parse)
    ensures FirstSchemaFence(fs).None? ==> SchemaAfter(None, fs, parse).None?
    ensures FirstSchemaFence(fs).Some? ==>
              SchemaAfter(None, fs, parse) == Some(FenceSchema(fs[FirstSchemaFence(fs).value], parse))
  {
    if |fs| > 0 {
      var init := fs[..|fs| - 1];
      var last := fs[|fs| - 1];
      assert AllFencesOk(init, parse);
      FirstSchemaFenceWins(init, parse);
      var before := SchemaAfter(None, init, parse);
      var ki := FirstSchemaFence(init);
      assert forall j :: 0 <= j < |init| ==> fs[j] == init[j];
      if ki.Some? {
        assert before == Some(FenceSchema(fs[ki.value], parse));
        FirstSchemaIndexStable(fs, ki.value);
      } else if IsSchemaTag(last.lang) {
        assert before.None?;
        FirstSchemaIndexStable(fs, |fs| - 1);
      } else {
        assert before.None?;
        assert SchemaAfter(None, fs, parse).None?;
      }
    }
  }

  lemma FirstSchemaIndexStable(fs: seq<Fence>, k: nat)
    requires k < |fs| && IsSchemaTag(fs[k].lang)
    requires forall j :: 0 <= j < k ==> !IsSchemaTag(fs[j].lang)
    ensures FirstSchemaFence(fs) == Some(k)
  {
    var r := FirstSchemaFence(fs);
    assert r.Some?;
  }

  /** Untagged fences are never cut: stripping only ever uses the tagged ones. */
  lemma {:induction false} UntaggedIgnored(fs: seq<Fence>, u: Fence)
    requires !IsTagged(u)
    ensures Tagged(fs + [u]) == Tagged(fs)
    ensures ExecutableBlocks(fs + [u]) == ExecutableBlocks(fs)
  {
    assert (fs + [u])[..|fs|] == fs;
  }

  /** Each fence found in turn shortens the text by exactly its own length. */
  predicate FoundInTurn(text: string, fs: seq<Fence>) {
    forall i :: 0 <= i < |fs| ==> IndexOf(StripAll(text, fs[..i]), FenceText(fs[i])).Some?
  }

  function TotalLength(fs: seq<Fence>): nat {
    if |fs| == 0 then 0 else TotalLength(fs[..|fs| - 1]) + |FenceText(fs[|fs| - 1])|
  }

  lemma {:induction false} StripLength(text: string, fs: seq<Fence>)
    requires FoundInTurn(text, fs)
    ensures TotalLength(fs) <= |text|
    ensures |StripAll(text, fs)| == |text| - TotalLength(fs)
  {
    if |fs| > 0 {
      var init := fs[..|fs| - 1];
      assert FoundInTurn(text, init) by {
        forall i | 0 <= i < |init| ensures IndexOf(StripAll(text, init[..i]), FenceText(init[i])).Some? {
          assert init[..i] == fs[..i];
          assert init[i] == fs[i];
        }
      }
      StripLength(text, init);
      assert fs[..|fs| - 1] == init;
    }
  }
}
