# code2prompt in Dafny

A model of the decision logic of the `Code2Prompt` class of code2prompt.
The class turns a source directory into an LLM prompt. Its steps are:

- scan the directory, apply ignore patterns and an extension filter, and build a source tree;
- render a handlebars template over the tree and the file list;
- cut tagged code fences out of the template;
- run the executable fences as `:pre` and post scripts around one LLM query;
- pick the LLM provider from the token count of the prompt.

Everything the class delegates to a library or to the operating system is a
parameter of the model:

- the glob, `path.resolve`, file reads and custom viewers;
- handlebars rendering;
- the markdown fence parser and `JSON.parse`;
- the tokenizer and the completion service;
- the script runtimes.

The modules follow the class:

| module | file | what it models |
|---|---|---|
| `Results` | results.dfy | `Option` and `Result` |
| `Text` | text.dfy | the string operations the class uses, including Node's posix `path.extname` |
| `OrderedMap` | ordered_map.dfy | JavaScript objects as insertion-ordered maps, with property assignment and the object spread |
| `JsValue` | js_value.dfy | JavaScript values, truthiness, `typeof … === 'object'`, property reads, spreading |
| `Schema` | schema.dfy | `createZodSchema`, as a schema tree |
| `Providers` | providers.dfy | `getLLM` and `setLLMAPI` |
| `Templates` | templates.dfy | the fence loop of `loadAndRegisterTemplate` |
| `Execution` | execution.dfy | `executeBlocks` |
| `SourceTree` | source_tree.dfy | the tree objects of `traverseDirectory` and `stringifyTreeFromPaths`, and their rendering |
| `Scan` | scan.dfy | `adjustIgnorePatterns`, the extension filter and the loop of `traverseDirectory` |
| `ContextPrompt` | context_prompt.dfy | `generateContextPrompt` |
| `Requests` | requests.dfy | `request`, `recordQA` and answer normalisation |
| `Code2Prompt` | code2prompt.dfy | the constructor's defaults, template loading onto the instance, and `runTemplate` |

Two behaviours of the code are easy to misread, and the model follows the code in both:

- **Schema synthesis.** For every field whose value is not a string, the
  object branch calls the unqualified name `createZodSchema` (index.js:539).
  No such binding is in scope, so that call throws. `Schema.Synthesize`
  therefore fails on any object that has a non-string field at any depth, so
  `{"items":["d"]}` does not synthesize. Arrays and scalars recurse normally.
- **Provider brackets.** The token-count tests are lower bounds for
  Anthropic: it qualifies only above 208000 tokens (index.js:413). That is
  larger than its own 120000-token context, so in practice Anthropic is
  switched off. `Providers.ChosenContextSize` states this.

## Model

| member | source | states |
|---|---|---|
| Providers.Offer | index.js:411-438 | one `case` of the provider switch returns a client exactly when the key is truthy and a variant of the provider covers the token count; the client carries that variant's model id and context size and the 20000 ms timeout |
| Providers.Select | index.js:405-443 | `getLLM` returns null exactly when no preference names a provider that qualifies; otherwise it returns the client of the first qualifying preference, with every earlier preference unqualified; unknown names are skipped |
| Providers.SkipUnqualifiedHead | index.js:410-417 | a preference whose provider lacks a key or whose bracket excludes the token count is passed over, whatever its rank |
| Providers.FirstQualifyingWins | index.js:410-439 | the first-ranked provider wins whenever it qualifies |
| Providers.Brackets | index.js:413-437 | Anthropic needs more than 208000 tokens, Groq fewer than 32000 (llama3 below 8100, mixtral from 8100), OpenAI fewer than 128000 (gpt-4o up to 64000, gpt-4o-mini above) |
| Providers.VariantsDisjoint | index.js:419-436 | the model variants of one provider cover disjoint token ranges, so the chosen model is unique |
| Providers.ChosenContextSize | index.js:413-435 | a chosen Groq or OpenAI model's context exceeds the token count; Anthropic is chosen only when the count exceeds its 120000-token context |
| Providers.SetKey | index.js:43-55 | the key store answers true exactly for ANTHROPIC, GROQ and OPENAI, stores the value under that provider, and leaves the other keys alone |
| Code2Prompt.SetLLMAPI | index.js:43-55 | on the instance, only the named provider's key changes; an unknown name answers false and changes nothing |
| Code2Prompt.OpenAIKeyFirst | index.js:30 | with the default ranking, setting an OpenAI key makes OpenAI the choice for any text below 128000 tokens |
| Code2Prompt.ListOption | index.js:14-15 | an array option is taken as is, a non-empty string becomes a one-element list, and an absent or empty option gives the empty list |
| Code2Prompt.KeyOption | index.js:25-27 | a truthy key option is kept, and a falsy one becomes null |
| Code2Prompt.Configure | index.js:12-31 | the field initialisation before the load at index.js:31: the path, viewer extensions and schema are taken from the options; the extension and ignore lists go through the list rule; the ranking is OPENAI, ANTHROPIC, GROQ; a provider has a key exactly when its option is truthy, and then that very key; the byte limit is the positive option or 8192; there are no sessions, no blocks and no compiled template yet |
| Code2Prompt.NoKeysNoProvider | index.js:25-30 | with no key configured, no provider is chosen for any token count |
| Schema.FieldSchemas | index.js:536-541 | an object's fields synthesize exactly when every value is a string; each key then keeps its place and becomes a string described by its value |
| Schema.Synthesize | index.js:525-551 | synthesis succeeds exactly on examples in which every object has only string fields; what it produces has unknown elements only for empty arrays and only described strings inside objects |
| Schema.ExampleRoundTrip | index.js:525-551 | every schema synthesis can produce is synthesized back from its canonical example, so synthesis is onto that class |
| Schema.SynthesizeExampleIdempotent | index.js:525-551 | synthesizing the example of a synthesized schema gives the same schema again |
| Schema.ObjectOfStrings | index.js:534-542 | an object of strings keeps exactly its keys, in order, each a string described by its value |
| Schema.ObjectWithNonStringField | index.js:539 | any non-string field value makes synthesis throw the missing-name error |
| Schema.LaterElementsIgnored | index.js:526-533 | a non-empty array is typed by its first element alone |
| Schema.Scalars | index.js:528-549 | null, booleans and numbers widen to an undescribed string, a string describes itself, and an empty array has unknown elements |
| Templates.ExtractFences | index.js:112-129 | the fence loop succeeds exactly when every schema fence parses and synthesizes. The text is then the template with each tagged fence cut out once, in order; the blocks are the non-schema tagged fences, in order; the schema is the preset one or the first schema fence's. On failure it stops at the first bad schema fence and keeps what the earlier fences gave and the unstripped template |
| Templates.Snoc | index.js:112-128 | one more fence extends the tagged list, the block list, the stripped text and the schema exactly as one loop iteration does |
| Templates.LoadFenceStep | index.js:113-127 | one iteration of the loop fails exactly on a bad schema fence and otherwise advances the reference state by that fence |
| Templates.LoadFence | index.js:113-127 | one fence fails exactly when it is a bad schema fence, and the error names it and its position; an untagged fence changes nothing; a non-schema tagged fence appends its block and nothing else does; a schema already set stays |
| Templates.ExecutableBlocksAppend | index.js:125-127 | blocks of consecutive fence runs come out in the order of the runs |
| Templates.BlockCount | index.js:115-127 | every tagged fence becomes exactly one of a code block or a schema declaration, so blocks plus schema fences equal tagged fences |
| Templates.ExistingSchemaKept | index.js:124 | a schema already set on the instance is never replaced by a template's schema fence |
| Templates.FirstSchemaFenceWins | index.js:120-124 | without a preset schema, the first schema fence decides the schema and later ones are ignored; with none, there is no schema |
| Templates.FirstSchemaIndexStable | index.js:120-124 | the first schema fence is the one at the first position whose tag is `schema` or `json:schema` |
| Templates.UntaggedIgnored | index.js:115-126 | an untagged fence is neither cut out nor turned into a block |
| Templates.StripLength | index.js:116-117 | when each fence is found in turn, the stripped text is shorter by exactly the total length of the fences cut |
| Code2Prompt.LoadAndRegisterTemplate | index.js:79-134 | the code blocks are reset first. A missing file is a read error. Otherwise the default template or the file's content goes through the fence loop, and only the blocks, the compiled text and the schema change; a preset schema survives. When a schema fence at position k fails, the error names that fence, every earlier fence was fine, and the instance keeps the blocks and the schema of the fences before k |
| Execution.PhaseFilter | index.js:268 | the pre phase runs exactly the tags ending in `:pre`, the post phase exactly the tags without `:`; no tag runs in both, and other qualified tags run in neither |
| Execution.QualifiedPostTagNeverRuns | index.js:268 | a tag such as `js:post` runs in neither phase |
| Execution.DispatchBySubstring | index.js:270-289 | a tag containing `js` goes to the node runtime, even `json`; python is chosen exactly when the tag contains `python` but not `js`; a tag with no runtime does not contain `bash` |
| Execution.RunBlockGrows | index.js:270-289 | a block only overwrites or adds keys: the old keys stay first, in order, and distinct |
| Execution.ExecuteFrom | index.js:266-291 | a phase keeps the keys of its input context in front, in order, and distinct; a failure names a block at or after the start that passed the phase filter |
| Execution.SkippedBlocksInert | index.js:266-268 | blocks outside the phase leave the context unchanged |
| Execution.ExecuteSplit | index.js:266-293 | the blocks run in sequence, each on the context the earlier ones left: running all equals running a prefix and then the rest on its result |
| Execution.ObjectResultMerged | index.js:270-283 | a node or python block that returns an object overrides the keys it returns and keeps the rest |
| Execution.NonObjectResultIgnored | index.js:270-283 | a node or python result for which `typeof` is not `object` changes nothing |
| Execution.BashVarsMerged | index.js:284-288 | for any bash result whose `vars` is an object, the block succeeds and every key reads as in `vars` if `vars` has it, and as in the old context otherwise |
| Execution.BashWithoutVars | index.js:284-288 | a bash result without a truthy `vars` leaves the context unchanged |
| Execution.BashNoResultThrows | index.js:284-286 | a bash runtime that returns `undefined` or `null` makes the block throw, since `vars` is read from it |
| Execution.Contribution | index.js:270-288 | a block's result throws exactly when it is a missing bash result; otherwise what gets spread is the node or python result itself when `typeof` is `object`, or the truthy `vars` of a bash result, and nothing else |
| Execution.RunBlock | index.js:268-289 | a tag with no runtime leaves the context unchanged, and an exception of the chosen runtime is the block's exception; only a dispatched block can throw |
| Execution.ExecuteBlocks | index.js:263-294 | a phase keeps the keys of its input context in front, in order, and distinct; a failure names a block that exists and passed the phase filter |
| Execution.OrderIsLoadBearing | index.js:266-291 | for a node block that binds `x` and one that reads `x` to bind `y` (throwing while `x` is unbound), source order gives `{x, y}`, and the swapped order fails at block 0 with the reader's exception |
| Scan.Dotted | index.js:138 | a viewer extension gets a leading dot unless it already has one |
| Scan.NormalizeExtensions | index.js:138 | every viewer extension is normalised in place |
| Scan.AdjustIgnorePatterns | index.js:136-155 | the adjusted list is no longer than the input and holds a pattern exactly when the input holds it and it is not an extension pattern for a normalised viewer extension |
| Scan.FilterAll | index.js:140-154 | a filtered list is no longer than its input and holds exactly the admitted elements of the input |
| Scan.KeptPositions | index.js:140-154 | the surviving patterns sit at increasing positions of the input list |
| Scan.AdjustIsSubsequence | index.js:136-155 | the adjusted ignore list is a subsequence of the input, in its original order |
| Scan.AdjustMembership | index.js:140-154 | a pattern survives exactly when it is listed and is not an extension pattern for a viewer extension |
| Scan.AdjustAppend | index.js:140-154 | each pattern is judged on its own: adjusting a concatenation concatenates the adjusted parts |
| Scan.OtherPatternsKept | index.js:142-152 | a pattern not starting with `**/*.` is always kept |
| Scan.SinglePatternDropped | index.js:142-149 | an extension pattern is dropped exactly when its `path.extname` is among the dotted viewer extensions |
| Scan.NormalizedMembership | index.js:138-146 | a dotted extension is among the normalised ones exactly when it is registered with or without its dot |
| Scan.ExtensionPatternDropped | index.js:136-155 | `**/*.ext` is dropped exactly when a viewer is registered for `ext` or `.ext` |
| Scan.CompoundExtensionPattern | index.js:144-146 | only the last dot counts: `**/*.tar.gz` is judged by `.gz` |
| Scan.SelectedMembership | index.js:179-182 | a listed file is kept exactly when the extension filter admits it |
| Scan.ExtensionFilter | index.js:180-182 | with no extensions configured every file is kept; otherwise exactly the files whose lower-cased extension, without its dot, is configured |
| Scan.ListingEntries | index.js:191-199 | each kept file is listed with its path and its viewer's output, or its contents when no viewer is registered |
| Scan.Traverse | index.js:172-210 | the scan loop fails exactly when building the tree of the kept files fails. Otherwise it returns the absolute path, the rendering of that tree and the listing of the kept files, in glob order |
| Scan.TreeAndListingStep | index.js:179-204 | one iteration inserts and lists a kept file, does nothing for a filtered-out one, and a failure stays a failure |
| Scan.FileLoop | index.js:179-206 | the loop over the globbed files, stopping at the first insertion that throws, yields the tree and listing of the kept files |
| Scan.FilterMembership | index.js:140-182 | a filtered list holds an element exactly when the input holds it and the filter admits it |
| Scan.FilterAppend | index.js:140-154 | each element is judged on its own: filtering a concatenation concatenates the filtered parts |
| Scan.PatternDroppedByExtension | index.js:138-149 | an extension pattern is dropped exactly when its extension is registered with or without its dot |
| Scan.StaysFailed | index.js:179-206 | once tree building throws on a prefix of the listing, the scan fails with that error |
| Scan.TraverseMatchesTreeFromPaths | index.js:183-261 | the scan and `stringifyTreeFromPaths` draw the same tree for the kept files |
| SourceTree.InsertFindsLeaf | index.js:187-203 | inserting a path throws exactly when its walk meets a non-empty file entry before the last part; otherwise the file is found at its path, holding its full relative path |
| SourceTree.Insert | index.js:185-203 | a one-part path never throws; a successful insertion keeps the old entries in front, in order, and adds the first part as a key; a failure is the assignment-on-a-string error for the full path |
| SourceTree.BuildTree | index.js:228-243 | after building, every path that parts ways with each later path (they name different entries at some depth after agreeing before it) is found at its place holding itself, and so is the last path; a failure is the assignment error of one of the paths |
| SourceTree.NothingBlocksInEmpty | index.js:176-201 | nothing blocks an insertion into an empty tree |
| SourceTree.InsertKeepsOrder | index.js:190-201 | a top-level name is appended the first time it appears and keeps its place afterwards |
| SourceTree.InsertElsewhere | index.js:185-203 | an insertion leaves unchanged every path that parts ways with the inserted one, at any depth, including a sibling file in the same directory |
| SourceTree.SiblingSurvives | index.js:228-243 | of two files in one directory, such as `src/a.js` and `src/b.js`, the first parts ways with the second, so by `SourceTree.BuildTree` it is still found once both are inserted |
| SourceTree.LastPathFound | index.js:228-243 | after building the tree, the last path is found at its place, holding itself |
| SourceTree.Flat | index.js:228-243 | names without a separator give one file entry per name |
| SourceTree.FlatTree | index.js:228-243 | distinct names without `/` build a flat tree with one entry per name, in first-appearance order |
| SourceTree.RenderersAgree | index.js:212-258 | `stringifyTree` and the inner renderer of `stringifyTreeFromPaths` produce the same text: an empty directory adds no lines either way |
| SourceTree.Render | index.js:212-222 | `stringifyTree` of the entries from position i on is empty exactly when there are none |
| SourceTree.RenderNonEmpty | index.js:246-258 | the inner renderer of `stringifyTreeFromPaths` is empty exactly when there are no entries left |
| SourceTree.TreeFromPaths | index.js:224-261 | `stringifyTreeFromPaths` fails exactly when building the tree fails, and otherwise draws that tree as `stringifyTree` does |
| SourceTree.OneLinePerEntry | index.js:214-219 | the rendering has exactly one line per entry, at every depth |
| SourceTree.FlatRendering | index.js:214-216 | a two-name listing is drawn as a `├── ` line and a closing `└── ` line |
| ContextPrompt.FilesValue | index.js:368 | the `files` variable lists every kept file as `{path, code}`, in order |
| ContextPrompt.FillIfFalsyGet | index.js:366-368 | filling one variable changes only that variable, and only when it was falsy |
| ContextPrompt.FillIfFalsyKeys | index.js:366-368 | filling one variable keeps the existing keys first and in order, and keeps them distinct |
| ContextPrompt.FillDefaultsSpec | index.js:363-375 | a truthy caller value for `absolute_code_path`, `source_tree` or `files` is kept, a falsy or missing one is replaced by the scan's, and every other caller variable passes through |
| ContextPrompt.FillDefaults | index.js:363-375 | the filled variables keep the caller's keys in front, in order |
| ContextPrompt.FillDefaultsAll | index.js:363-375 | for every scan variable, a truthy caller value is kept and a falsy one becomes the scan's; every other variable reads as the caller gave it |
| ContextPrompt.FillDefaultsKeys | index.js:363-375 | the caller's variables keep their order in front; an empty map becomes the three scan variables in that order |
| ContextPrompt.EmptyBranchIsFillOfEmpty | index.js:365-375 | the empty-map branch gives what the fill rule would give on an empty map |
| ContextPrompt.GenerateContextPrompt | index.js:358-385 | the prompt exists exactly when the scan succeeds, and a scan error is passed on. The context is the caller's variables with the scan's filled in: a truthy caller value of a scan variable survives, a falsy one becomes the scan's value, and every other variable is unchanged. The prompt is the rendering of that context |
| Requests.Normalise | index.js:501-506 | the normalised data is always truthy; it is `{}`, the response's `data`, or `data.schema`; the usage is `{}` or the response's |
| Requests.NormaliseUnwraps | index.js:501-503 | any response with truthy `data.schema` normalises to that schema value and the response's usage |
| Requests.NormaliseKeepsPlainData | index.js:504-505 | any response with truthy `data` but no truthy `data.schema` normalises to that data, and the usage is dropped |
| Requests.NormaliseSchemaShape | index.js:501-503 | the literal `{data: {schema: x}, usage}` with truthy x normalises to x and that usage |
| Requests.NormaliseDefaults | index.js:495-506 | a falsy response, or one without truthy data, gives `{}` for both |
| Requests.NormaliseRoundTrip | index.js:501-506 | wrapping a normalised answer back into the schema shape normalises to itself |
| Requests.RecordQA | index.js:62-65 | `recordQA` activates the session; a slot that is already truthy is kept, a falsy or missing one becomes `[]`, and other slots are unchanged |
| Requests.Record | index.js:511-517 | with a truthy active session, that slot becomes this question and answer; otherwise nothing changes |
| Requests.LatestExchangeWins | index.js:512-517 | a session keeps only its latest exchange |
| Requests.DefaultSessionRecordsNothing | index.js:512 | the default session `''` (index.js:62) is falsy, so nothing is recorded under it |
| Requests.InstalledSchema | index.js:478-480 | a schema argument replaces the instance schema, wrapped as `{schema}`; without one the instance schema is used |
| Requests.CallFor | index.js:482-500 | the call uses the installed schema, and picks the provider from the context text, which is then followed by the prompt |
| Requests.Request | index.js:471-523 | the request installs the schema argument even when it fails, and leaves the keys, ranking and blocks alone. A failed context step is the answer's error; otherwise a throwing completion is the answer's error, and a returning one gives the normalised data and usage of its response. A successful answer is recorded under the active session and carries meta exactly when `meta` is truthy; a failed one records nothing. The meta holds the instance's code blocks and the context: the custom context when one is given, otherwise the generated context object |
| Requests.ProviderIgnoresPrompt | index.js:493 | the prompt never influences the provider: only the context text is counted |
| Requests.CustomContextSendsPromptOnly | index.js:487-497 | with a custom context the scan is skipped: the provider is chosen for an empty text and only `\n\n# ` and the prompt are sent |
| Requests.GeneratedContext | index.js:484-499 | without a custom context a failing scan fails the request; otherwise the rendered prompt is the counted text and the text sent |
| Code2Prompt.MethodsPrecedence | index.js:322-336 | `executeScript` cannot be replaced by the caller; the caller's methods replace the base helpers, which fill the rest |
| Code2Prompt.InitialContextPrecedence | index.js:338-339 | the prompt variables win over every helper |
| Code2Prompt.TemplateQuery | index.js:344-351 | a blank rendering sends no request. Otherwise the query is the request for the rendering with the context's variables: only the instance's sessions change, to the request's; a failed request fails the step; a successful one binds `schema` to the answer's data and leaves every other variable as it was |
| Code2Prompt.SchemaBound | index.js:348-350 | binding `schema` into the context reads back as the bound value, and every other variable reads as before |
| Code2Prompt.RunTemplate | index.js:320-356 | with blocks that do not call back into the instance, only the sessions of the instance change. A failing scan is reported first, since the context prompt is built before the compiled template is used; then a template that was never compiled fails. A successful run keeps the helper keys first, in order |
| Code2Prompt.BlankTemplateSkipsQuery | index.js:338-355 | when the template renders to whitespace only, no request is sent: the post phase runs on the context the pre phase left, and a failing phase fails the run |
| Text.SplitJoin | index.js:184-229 | splitting on the separator recovers the parts that were joined with it, when no part contains the separator |
| Text.TrimEmptyIffBlank | index.js:344 | a string trims to empty exactly when it is all whitespace |
| Text.ExtNameOfFile | index.js:144-180 | `path.extname` of `dir/stem.ext` is `.ext` |

## Left out

- File system and glob: listing files, `path.resolve` and `path.relative` are inputs. The glob's listing is taken as relative paths split on `/`.
- `readContent` truncation to `maxBytesPerFile`: file reading is an input function, so the limit is stored on the instance and nothing else.
- Custom viewers are one input function keyed by extension. `registerFileViewer` only adds a key, so it is folded into the viewer extensions given at construction.
- Handlebars compilation and rendering are one input function. A template counts as compiled once a load completes.
- The markdown fence parser and `JSON.parse` are input functions. The fence text cut out is the one the loader builds from the parsed tag and body.
- zod schemas are a schema tree, not validators. Validating answers against a schema is the completion service's business.
- The tiktoken tokenizer is an input function from text to a token count.
- Network: `setupFetchPolyfill` and the completion service are inputs. The completion's result, or the exception it throws, is an input value.
- `queryLLM` is not modelled separately. It differs from `request` only in taking the prompt as the context, and it has no schema installation and no recording.
- The script runtimes (node, python, bash) are opaque input evaluators. The runtime helper module is not part of this model: `executePython` and `spawnBash` are called from the class but not defined there. The thin wrappers `executeNode`, `executeBash`, `executePython` and `spawnBash` are not modelled.
- `extractCodeBlocks`, `getCodeBlocks`, `getQArecordings`, `setModelPreferences` and `debug` are accessors, pass-throughs or logging.
- The constructor starts `loadAndRegisterTemplate` without awaiting it. The model builds the fields first and loads the template as a separate call; races between the two are not modelled.
- JavaScript objects keep insertion order only. The rule that integer-like keys come first is not modelled; `__proto__` and inherited property names are not modelled either.
- NaN is not a value of the model. Numbers are reals, so `NaN` is not among the falsy values.
- Lower-casing is ASCII only. Strings are sequences of characters, with no UTF-16 surrogate handling.
- The extension filter and the viewer lookup use the relative path. The source uses the absolute path; both have the same extension.
- `executeScript` and the base helpers are represented by named function values. Their behaviour is outside the model.
- Code2Prompt.RunTemplate: a block's runtime is a pure function of the block's code and the context. A block that calls back into the instance through the `queryLLM` or `queryContext` helpers (index.js:323-328) is not modelled. `queryContext` runs `request`, which would install a schema (index.js:478-480) and record a session before the template query. Nor does a block change the files on disk, although `request` scans the directory again after the pre phase (index.js:485). The frame, and the use of one scan for the whole run, hold only under these assumptions.
- Code2Prompt.RunTemplate: its contract states the frame, the two error cases and the key order. The query step is characterised through `Code2Prompt.TemplateQuery` and `Code2Prompt.BlankTemplateSkipsQuery`, not in this contract.
- Requests.Normalise: its contract lists the possible values. The exact choice for every response is stated by `Requests.NormaliseUnwraps`, `Requests.NormaliseKeepsPlainData` and `Requests.NormaliseDefaults`, which together cover all responses.
- Execution.ExecuteFrom: it does not state the merged values. Those are stated per block by `Execution.ObjectResultMerged`, `Execution.NonObjectResultIgnored` and `Execution.BashVarsMerged`, and `Execution.ExecuteSplit` composes them.
- Shell placeholder substitution (`echo {name}`) is inside the bash runtime, so it is not modelled.
