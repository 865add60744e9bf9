/**
 * The variables a template is rendered with (`generateContextPrompt`): the
 * caller's variables, with the scan's `absolute_code_path`, `source_tree`
 * and `files` filled in where the caller left them falsy. Handlebars
 * rendering is an input function.
 */
module ContextPrompt {
  import opened Results
  import opened OrderedMap
  import opened JsValue
  import opened SourceTree
  import opened Scan

  const ABSOLUTE_CODE_PATH := "absolute_code_path"
  const SOURCE_TREE := "source_tree"
  const FILES := "files"

  /** The three variables the scan supplies. */
  predicate IsScanVariable(k: string) {
    k == ABSOLUTE_CODE_PATH || k == SOURCE_TREE || k == FILES
  }

  /** A listed file as a template sees it: `{ path, code }`. */
  function FileObject(f: FileEntry): Value {
    Obj([("path", Str(f.path)), ("code", Str(f.code))])
  }

  /** The `files` array. */
  function FilesValue(files: seq<FileEntry>): (v: Value)
    ensures v.Arr? && |v.items| == |files|
    ensures forall i :: 0 <= i < |files| ==> v.items[i] == FileObject(files[i])
  {
    Arr(seq(|files|, i requires 0 <= i < |files| => FileObject(files[i])))
  }

  /** The value the scan offers for one of its three variables. */
  function ScanValue(s: Scanned, k: string): Value
    requires IsScanVariable(k)
  {
    if k == ABSOLUTE_CODE_PATH then Str(s.absolutePath)
    else if k == SOURCE_TREE then Str(s.sourceTree)
    else FilesValue(s.files)
  }

  /** `if (!vars[k]) vars[k] = v`. */
  function FillIfFalsy(vars: Context, k: string, v: Value): Context {
    if Truthy(Lookup(vars, k)) then vars else Put(vars, k, v)
  }

  /** The variables of the template: the fill rule for a non-empty map, the scan's three alone for an empty one. */
  function FillDefaults(vars: Context, s: Scanned): (r: Context)
    ensures Extends(vars, r)
  {
    if |vars| > 0 then
      var v1 := FillIfFalsy(vars, ABSOLUTE_CODE_PATH, ScanValue(s, ABSOLUTE_CODE_PATH));
      var v2 := FillIfFalsy(v1, SOURCE_TREE, ScanValue(s, SOURCE_TREE));
      FillIfFalsyKeys(vars, ABSOLUTE_CODE_PATH, ScanValue(s, ABSOLUTE_CODE_PATH));
      FillIfFalsyKeys(v1, SOURCE_TREE, ScanValue(s, SOURCE_TREE));
      FillIfFalsyKeys(v2, FILES, ScanValue(s, FILES));
      ExtendsTransitive(vars, v1, v2);
      ExtendsTransitive(vars, v2, FillIfFalsy(v2, FILES, ScanValue(s, FILES)));
      FillIfFalsy(v2, FILES, ScanValue(s, FILES))
    else
      [(ABSOLUTE_CODE_PATH, ScanValue(s, ABSOLUTE_CODE_PATH)),
       (SOURCE_TREE, ScanValue(s, SOURCE_TREE)),
       (FILES, ScanValue(s, FILES))]
  }

  /** Filling one variable changes only that variable, and only when it was falsy. */
  lemma FillIfFalsyGet(vars: Context, k: string, v: Value, k': string)
    ensures Lookup(FillIfFalsy(vars, k, v), k') ==
              if k' == k && !Truthy(Lookup(vars, k)) then v else Lookup(vars, k')
    ensures k' != k ==> Get(FillIfFalsy(vars, k, v), k') == Get(vars, k')
  {
  }

  /** Filling one variable keeps the existing keys first and in order, and keeps them distinct. */
  lemma FillIfFalsyKeys(vars: Context, k: string, v: Value)
    ensures Extends(vars, FillIfFalsy(vars, k, v))
    ensures Distinct(vars) ==> Distinct(FillIfFalsy(vars, k, v))
  {
    if !Truthy(Lookup(vars, k)) {
      PutExtends(vars, k, v);
    }
  }

  /**
   * A caller value that is truthy is kept; a falsy or missing one is
   * replaced by the scan's; every other caller variable passes through.
   */
  lemma {:induction false} FillDefaultsSpec(vars: Context, s: Scanned, k: string)
    ensures IsScanVariable(k) ==>
              Lookup(FillDefaults(vars, s), k) == if Truthy(Lookup(vars, k)) then Lookup(vars, k) else ScanValue(s, k)
    ensures !IsScanVariable(k) ==> Get(FillDefaults(vars, s), k) == Get(vars, k)
  {
    if |vars| > 0 {
      var v1 := FillIfFalsy(vars, ABSOLUTE_CODE_PATH, ScanValue(s, ABSOLUTE_CODE_PATH));
      var v2 := FillIfFalsy(v1, SOURCE_TREE, ScanValue(s, SOURCE_TREE));
      FillIfFalsyGet(vars, ABSOLUTE_CODE_PATH, ScanValue(s, ABSOLUTE_CODE_PATH), k);
      FillIfFalsyGet(v1, SOURCE_TREE, ScanValue(s, SOURCE_TREE), k);
      FillIfFalsyGet(v2, FILES, ScanValue(s, FILES), k);
      FillIfFalsyGet(vars, ABSOLUTE_CODE_PATH, ScanValue(s, ABSOLUTE_CODE_PATH), SOURCE_TREE);
      FillIfFalsyGet(vars, ABSOLUTE_CODE_PATH, ScanValue(s, ABSOLUTE_CODE_PATH), FILES);
      FillIfFalsyGet(v1, SOURCE_TREE, ScanValue(s, SOURCE_TREE), FILES);
    } else {
      var r := FillDefaults(vars, s);
      PositionIs(r, ABSOLUTE_CODE_PATH, 0);
      PositionIs(r, SOURCE_TREE, 1);
      PositionIs(r, FILES, 2);
    }
  }

  /** The caller's variables keep their order in front; the result has distinct keys when the input does. */
  lemma FillDefaultsKeys(vars: Context, s: Scanned)
    ensures |vars| > 0 ==> Extends(vars, FillDefaults(vars, s))
    ensures Distinct(vars) ==> Distinct(FillDefaults(vars, s))
    ensures |vars| == 0 ==> Keys(FillDefaults(vars, s)) == [ABSOLUTE_CODE_PATH, SOURCE_TREE, FILES]
  {
    if |vars| > 0 {
      var v1 := FillIfFalsy(vars, ABSOLUTE_CODE_PATH, ScanValue(s, ABSOLUTE_CODE_PATH));
      var v2 := FillIfFalsy(v1, SOURCE_TREE, ScanValue(s, SOURCE_TREE));
      var v3 := FillIfFalsy(v2, FILES, ScanValue(s, FILES));
      assert FillDefaults(vars, s) == v3;
      FillIfFalsyKeys(vars, ABSOLUTE_CODE_PATH, ScanValue(s, ABSOLUTE_CODE_PATH));
      FillIfFalsyKeys(v1, SOURCE_TREE, ScanValue(s, SOURCE_TREE));
      FillIfFalsyKeys(v2, FILES, ScanValue(s, FILES));
      ExtendsTransitive(vars, v1, v2);
      ExtendsTransitive(vars, v2, v3);
    } else {
      ScanVariableKeys(s);
    }
  }

  /** The three scan variables, in order and distinct. */
  lemma ScanVariableKeys(s: Scanned)
    ensures Keys(FillDefaults([], s)) == [ABSOLUTE_CODE_PATH, SOURCE_TREE, FILES]
  {
    var r := FillDefaults([], s);
    assert Keys(r)[0] == ABSOLUTE_CODE_PATH && Keys(r)[1] == SOURCE_TREE && Keys(r)[2] == FILES;
  }

  /** The empty-map branch is what the fill rule would give on an empty map: the branch only shortcuts it. */
  lemma EmptyBranchIsFillOfEmpty(s: Scanned)
    ensures FillDefaults([], s) ==
              FillIfFalsy(FillIfFalsy(FillIfFalsy([], ABSOLUTE_CODE_PATH, ScanValue(s, ABSOLUTE_CODE_PATH)),
                                      SOURCE_TREE, ScanValue(s, SOURCE_TREE)),
                          FILES, ScanValue(s, FILES))
  {
    var empty: Context := [];
    var v1 := FillIfFalsy(empty, ABSOLUTE_CODE_PATH, ScanValue(s, ABSOLUTE_CODE_PATH));
    assert v1 == [(ABSOLUTE_CODE_PATH, ScanValue(s, ABSOLUTE_CODE_PATH))];
    assert Position(v1, SOURCE_TREE).None?;
    var v2 := FillIfFalsy(v1, SOURCE_TREE, ScanValue(s, SOURCE_TREE));
    assert v2 == v1 + [(SOURCE_TREE, ScanValue(s, SOURCE_TREE))];
    assert Position(v2, FILES).None?;
  }

  /** `generateContextPrompt(null, true, variables)`: the variables and the rendered text. */
  datatype Prompt = Prompt(context: Context, rendered: string)

  /**
   * Renders the template with the filled variables; a scan that throws
   * propagates. A truthy caller value of a scan variable is kept, a falsy or
   * missing one is taken from the scan, and every other caller variable
   * passes through unchanged.
   */
  function GenerateContextPrompt(vars: Context, scan: Result<Scanned, TreeError>, render: Context -> string): (r: Result<Prompt, TreeError>)
    ensures r.Ok? <==> scan.Ok?
    ensures scan.Err? ==> r == Err(scan.error)
    ensures r.Ok? ==> r.value.context == FillDefaults(vars, scan.value)
    ensures r.Ok? ==> r.value.rendered == render(r.value.context)
    ensures r.Ok? ==> forall k :: IsScanVariable(k) && Truthy(Lookup(vars, k)) ==> Lookup(r.value.context, k) == Lookup(vars, k)
    ensures r.Ok? ==> forall k :: IsScanVariable(k) && !Truthy(Lookup(vars, k)) ==> Lookup(r.value.context, k) == ScanValue(scan.value, k)
    ensures r.Ok? ==> forall k :: !IsScanVariable(k) ==> Get(r.value.context, k) == Get(vars, k)
  {
    match scan
    case Err(e) => Err(e)
    case Ok(s) =>
      var ctx := FillDefaults(vars, s);
      FillDefaultsAll(vars, s);
      Ok(Prompt(ctx, render(ctx)))
  }

  /** `FillDefaultsSpec` for every variable at once. */
  lemma FillDefaultsAll(vars: Context, s: Scanned)
    ensures forall k :: IsScanVariable(k) ==>
              Lookup(FillDefaults(vars, s), k) == if Truthy(Lookup(vars, k)) then Lookup(vars, k) else ScanValue(s, k)
    ensures forall k :: !IsScanVariable(k) ==> Get(FillDefaults(vars, s), k) == Get(vars, k)
  {
    forall k ensures IsScanVariable(k) ==>
                       Lookup(FillDefaults(vars, s), k) == if Truthy(Lookup(vars, k)) then Lookup(vars, k) else ScanValue(s, k)
    {
      FillDefaultsSpec(vars, s, k);
    }
    forall k ensures !IsScanVariable(k) ==> Get(FillDefaults(vars, s), k) == Get(vars, k) {
      FillDefaultsSpec(vars, s, k);
    }
  }
}
