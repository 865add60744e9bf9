/**
 * The directory scan around the tree: which ignore patterns survive the
 * registered file viewers (`adjustIgnorePatterns`), which listed files are
 * kept by the extension filter, and the loop of `traverseDirectory` that
 * builds the tree and the file list together. The glob, `path.resolve` and
 * the file reads are inputs.
 */
module Scan {
  import opened Results
  import opened Text
  import opened OrderedMap
  import opened SourceTree

  /** The pattern form that names one extension anywhere below the root. */
  const EXTENSION_PATTERN_PREFIX := "**/*."

  /** An extension written with its leading dot, as `path.extname` reports it. */
  function Dotted(ext: string): (d: string)
    ensures StartsWith(d, ".")
    ensures StartsWith(ext, ".") ==> d == ext
  {
    if StartsWith(ext, ".") then ext else "." + ext
  }

  /** The viewer extensions, each with a leading dot. */
  function NormalizeExtensions(exts: seq<string>): (r: seq<string>)
    ensures |r| == |exts|
    ensures forall i :: 0 <= i < |exts| ==> r[i] == Dotted(exts[i])
  {
    if |exts| == 0 then [] else NormalizeExtensions(exts[..|exts| - 1]) + [Dotted(exts[|exts| - 1])]
  }

  /** A pattern stays unless it is an extension pattern for a normalised extension. */
  predicate KeepPattern(pattern: string, normalized: seq<string>) {
    !(StartsWith(pattern, EXTENSION_PATTERN_PREFIX) && ExtName(pattern) in normalized)
  }

  /** The extension rule as a test on one pattern. */
  function KeepFor(normalized: seq<string>): string -> bool {
    (pattern: string) => KeepPattern(pattern, normalized)
  }

  /** The elements of `xs` that `keep` admits, in order: the `reduce` that pushes the kept patterns, and the file filter. */
  function Filter(xs: seq<string>, keep: string -> bool): seq<string> {
    if |xs| == 0 then []
    else
      var init := Filter(xs[..|xs| - 1], keep);
      var x := xs[|xs| - 1];
      if keep(x) then init + [x] else init
  }

  /** `adjustIgnorePatterns(ignorePatterns, extensionsNotIgnored)`. */
  function AdjustIgnorePatterns(patterns: seq<string>, exts: seq<string>): (r: seq<string>)
    ensures |r| <= |patterns|
    ensures forall p :: p in r <==> p in patterns && KeepPattern(p, NormalizeExtensions(exts))
  {
    FilterAll(patterns, KeepFor(NormalizeExtensions(exts)));
    Filter(patterns, KeepFor(NormalizeExtensions(exts)))
  }

  /** Filtering only removes: the result is no longer, and holds exactly the admitted elements. */
  lemma FilterAll(xs: seq<string>, keep: string -> bool)
    ensures |Filter(xs, keep)| <= |xs|
    ensures forall p :: p in Filter(xs, keep) <==> p in xs && keep(p)
  {
    forall p ensures p in Filter(xs, keep) <==> p in xs && keep(p) {
      FilterMembership(xs, keep, p);
    }
    FilterLength(xs, keep);
  }

  lemma {:induction false} FilterLength(xs: seq<string>, keep: string -> bool)
    ensures |Filter(xs, keep)| <= |xs|
  {
    if |xs| > 0 {
      FilterLength(xs[..|xs| - 1], keep);
    }
  }

  /** `a` is `b` with some elements removed: an increasing choice of positions of `b`. */
  predicate SubsequenceBy(a: seq<string>, b: seq<string>, idx: seq<nat>) {
    && |idx| == |a|
    && (forall j :: 0 <= j < |idx| ==> idx[j] < |b| && b[idx[j]] == a[j])
    && (forall j, k :: 0 <= j < k < |idx| ==> idx[j] < idx[k])
  }

  /** The positions of the elements that are kept, in order. */
  function KeptPositions(xs: seq<string>, keep: string -> bool): (idx: seq<nat>)
    ensures SubsequenceBy(Filter(xs, keep), xs, idx)
  {
    if |xs| == 0 then []
    else
      var init := xs[..|xs| - 1];
      var last := xs[|xs| - 1];
      var idx0 := KeptPositions(init, keep);
      assert xs == init + [last];
      SubsequenceSnoc(Filter(init, keep), init, idx0, last);
      if keep(last) then idx0 + [|init|] else idx0
  }

  /** A subsequence stays one when the sequence grows by an element, whether or not it is taken. */
  lemma SubsequenceSnoc(a: seq<string>, b: seq<string>, idx: seq<nat>, x: string)
    requires SubsequenceBy(a, b, idx)
    ensures SubsequenceBy(a, b + [x], idx)
    ensures SubsequenceBy(a + [x], b + [x], idx + [|b|])
  {
    var b' := b + [x];
    assert forall j :: 0 <= j < |idx| ==> b'[idx[j]] == b[idx[j]];
    var idx' := idx + [|b|];
    assert forall j :: 0 <= j < |idx| ==> idx'[j] == idx[j];
  }

  /** An element is kept exactly when it is present and admitted. */
  lemma {:induction false} FilterMembership(xs: seq<string>, keep: string -> bool, p: string)
    ensures p in Filter(xs, keep) <==> p in xs && keep(p)
  {
    if |xs| > 0 {
      var init := xs[..|xs| - 1];
      FilterMembership(init, keep, p);
      assert xs == init + [xs[|xs| - 1]];
    }
  }

  /** Each element is judged on its own: filtering commutes with concatenation. */
  lemma {:induction false} FilterAppend(a: seq<string>, b: seq<string>, keep: string -> bool)
    ensures Filter(a + b, keep) == Filter(a, keep) + Filter(b, keep)
    decreases |b|
  {
    if |b| == 0 {
      assert a + b == a;
    } else {
      var b0 := b[..|b| - 1];
      FilterAppend(a, b0, keep);
      assert (a + b)[..|a + b| - 1] == a + b0;
    }
  }

  /** Filtering a prefix one element longer adds that element when it is admitted. */
  lemma FilterSnoc(xs: seq<string>, keep: string -> bool, k: nat)
    requires k < |xs|
    ensures Filter(xs[..k + 1], keep) == Filter(xs[..k], keep) + (if keep(xs[k]) then [xs[k]] else [])
  {
    assert xs[..k + 1][..k] == xs[..k];
  }

  /** The adjusted list is a subsequence of the patterns, in their original order. */
  lemma AdjustIsSubsequence(patterns: seq<string>, exts: seq<string>)
    ensures exists idx :: SubsequenceBy(AdjustIgnorePatterns(patterns, exts), patterns, idx)
  {
    var idx := KeptPositions(patterns, KeepFor(NormalizeExtensions(exts)));
    assert SubsequenceBy(AdjustIgnorePatterns(patterns, exts), patterns, idx);
  }

  /** A pattern survives exactly when it is listed and is not dropped by the extension rule. */
  lemma AdjustMembership(patterns: seq<string>, exts: seq<string>, p: string)
    ensures p in AdjustIgnorePatterns(patterns, exts) <==> p in patterns && KeepPattern(p, NormalizeExtensions(exts))
  {
    FilterMembership(patterns, KeepFor(NormalizeExtensions(exts)), p);
  }

  /** Adjusting commutes with concatenation: each pattern is judged on its own. */
  lemma AdjustAppend(a: seq<string>, b: seq<string>, exts: seq<string>)
    ensures AdjustIgnorePatterns(a + b, exts) == AdjustIgnorePatterns(a, exts) + AdjustIgnorePatterns(b, exts)
  {
    FilterAppend(a, b, KeepFor(NormalizeExtensions(exts)));
  }

  /** A pattern that is not an extension pattern is always kept. */
  lemma OtherPatternsKept(p: string, exts: seq<string>)
    requires !StartsWith(p, EXTENSION_PATTERN_PREFIX)
    ensures AdjustIgnorePatterns([p], exts) == [p]
  {
    var ps := [p];
    var none: seq<string> := [];
    assert ps[..0] == none;
    assert Filter(ps, KeepFor(NormalizeExtensions(exts))) == none + [p];
    assert none + [p] == ps;
  }

  /** A single extension pattern is dropped exactly when its extension is among the normalised ones. */
  lemma SinglePatternDropped(p: string, exts: seq<string>)
    requires StartsWith(p, EXTENSION_PATTERN_PREFIX)
    ensures AdjustIgnorePatterns([p], exts) == [] <==> ExtName(p) in NormalizeExtensions(exts)
  {
    var ps := [p];
    var none: seq<string> := [];
    assert ps[..0] == none;
    assert Filter(ps[..0], KeepFor(NormalizeExtensions(exts))) == none;
  }

  /** A dotted extension is normalised in exactly when it is registered with or without its dot. */
  lemma NormalizedMembership(ext: string, exts: seq<string>)
    requires '.' !in ext
    ensures "." + ext in NormalizeExtensions(exts) <==> ("." + ext in exts || ext in exts)
  {
    var norm := NormalizeExtensions(exts);
    if "." + ext in norm {
      var i :| 0 <= i < |norm| && norm[i] == "." + ext;
      if !StartsWith(exts[i], ".") {
        assert exts[i] == ext;
      }
    }
    if ext in exts {
      var i :| 0 <= i < |exts| && exts[i] == ext;
      assert !StartsWith(ext, ".") by {
        if |ext| > 0 {
          assert ext[0] in ext;
        }
      }
      assert norm[i] == "." + ext;
    }
    if "." + ext in exts {
      var i :| 0 <= i < |exts| && exts[i] == "." + ext;
      assert norm[i] == "." + ext;
    }
  }

  /**
   * The pattern for extension `ext` is dropped exactly when the viewers
   * register `ext` with or without its dot.
   */
  lemma ExtensionPatternDropped(ext: string, exts: seq<string>)
    requires |ext| > 0 && '/' !in ext && '.' !in ext
    ensures AdjustIgnorePatterns([EXTENSION_PATTERN_PREFIX + ext], exts) == [] <==> ("." + ext in exts || ext in exts)
  {
    var p := EXTENSION_PATTERN_PREFIX + ext;
    assert ExtName(p) == "." + ext by {
      PatternSpelling(ext);
      ExtNameOfFile("**", "*", ext);
    }
    PrefixStarts(ext);
    PatternDroppedByExtension(p, ext, exts);
  }

  /** A single extension pattern is dropped exactly when its extension is registered, dotted or not. */
  lemma PatternDroppedByExtension(p: string, ext: string, exts: seq<string>)
    requires StartsWith(p, EXTENSION_PATTERN_PREFIX)
    requires ExtName(p) == "." + ext && '.' !in ext
    ensures AdjustIgnorePatterns([p], exts) == [] <==> ("." + ext in exts || ext in exts)
  {
    SinglePatternDropped(p, exts);
    NormalizedMembership(ext, exts);
  }

  lemma PatternSpelling(ext: string)
    ensures EXTENSION_PATTERN_PREFIX + ext == "**" + "/" + "*" + "." + ext
  {
  }

  lemma PrefixStarts(rest: string)
    ensures StartsWith(EXTENSION_PATTERN_PREFIX + rest, EXTENSION_PATTERN_PREFIX)
  {
    assert (EXTENSION_PATTERN_PREFIX + rest)[..|EXTENSION_PATTERN_PREFIX|] == EXTENSION_PATTERN_PREFIX;
  }

  /** Only the last dot counts: the pattern for `tar.gz` is judged by `.gz`. */
  lemma CompoundExtensionPattern(exts: seq<string>)
    ensures AdjustIgnorePatterns(["**/*.tar.gz"], exts) == [] <==> (".gz" in exts || "gz" in exts)
  {
    CompoundExtension();
    CompoundSpelling();
    PatternDroppedByExtension("**/*.tar.gz", "gz", exts);
  }

  lemma CompoundExtension()
    ensures ExtName("**/*.tar.gz") == ".gz"
    ensures StartsWith("**/*.tar.gz", EXTENSION_PATTERN_PREFIX)
  {
    CompoundSpelling();
    ExtNameOfFile("**", "*.tar", "gz");
    PrefixStarts("tar.gz");
  }

  lemma CompoundSpelling()
    ensures "**/*.tar.gz" == "**" + "/" + "*.tar" + "." + "gz"
    ensures "**/*.tar.gz" == EXTENSION_PATTERN_PREFIX + "tar.gz"
    ensures "." + "gz" == ".gz"
  {
  }

  /** A listed file as it enters the prompt: its relative path and its text. */
  datatype FileEntry = FileEntry(path: string, code: string)

  /** The file-reading collaborators: custom viewers by extension, otherwise a plain read. */
  datatype Readers = Readers(viewerExts: seq<string>, view: (string, string) -> string, read: string -> string)

  /** `extension.substring(1)`: the extension without its dot, `""` when there is none. */
  function Undotted(ext: string): string {
    if |ext| == 0 then "" else ext[1..]
  }

  /** The lower-cased extension of a path, as the scan compares it. */
  function LowerExt(path: string): string {
    ToLower(ExtName(path))
  }

  /** The extension filter: no extensions configured keeps every file. */
  predicate Selected(extensions: seq<string>, path: string) {
    |extensions| == 0 || Undotted(LowerExt(path)) in extensions
  }

  /** The text of a file: its viewer's output if one is registered for the extension, else its contents. */
  function Content(readers: Readers, path: string): string {
    if LowerExt(path) in readers.viewerExts then readers.view(LowerExt(path), path) else readers.read(path)
  }

  /** The extension filter as a test on one path. */
  function SelectedFor(extensions: seq<string>): string -> bool {
    (path: string) => Selected(extensions, path)
  }

  /** The listed files the extension filter keeps, in listing order. */
  function SelectedPaths(files: seq<string>, extensions: seq<string>): seq<string> {
    Filter(files, SelectedFor(extensions))
  }

  /** A listed path is kept exactly when the extension filter admits it. */
  lemma SelectedMembership(files: seq<string>, extensions: seq<string>, p: string)
    ensures p in SelectedPaths(files, extensions) <==> p in files && Selected(extensions, p)
  {
    FilterMembership(files, SelectedFor(extensions), p);
  }

  /** The text of each file, as one function. */
  function ContentOf(readers: Readers): string -> string {
    (path: string) => Content(readers, path)
  }

  /** Each path paired with its text, in order. */
  function Entries(paths: seq<string>, text: string -> string): seq<FileEntry> {
    if |paths| == 0 then [] else Entries(paths[..|paths| - 1], text) + [FileEntry(paths[|paths| - 1], text(paths[|paths| - 1]))]
  }

  lemma {:induction false} EntriesAt(paths: seq<string>, text: string -> string)
    ensures |Entries(paths, text)| == |paths|
    ensures forall i :: 0 <= i < |paths| ==> Entries(paths, text)[i] == FileEntry(paths[i], text(paths[i]))
  {
    if |paths| > 0 {
      EntriesAt(paths[..|paths| - 1], text);
    }
  }

  /** The `files` list of the prompt: each kept path with its text. */
  function Listing(paths: seq<string>, readers: Readers): seq<FileEntry> {
    Entries(paths, ContentOf(readers))
  }

  /** Each kept path is listed once, in order, with its viewer's output or its contents. */
  lemma ListingEntries(paths: seq<string>, readers: Readers)
    ensures |Listing(paths, readers)| == |paths|
    ensures forall i :: 0 <= i < |paths| ==> Listing(paths, readers)[i] == FileEntry(paths[i], Content(readers, paths[i]))
  {
    EntriesAt(paths, ContentOf(readers));
  }

  /** What `traverseDirectory` returns. */
  datatype Scanned = Scanned(absolutePath: string, sourceTree: string, files: seq<FileEntry>)

  /** The tree and listing of the files `keep` admits, stated over whole lists. */
  function TreeAndListing(files: seq<string>, keep: string -> bool, text: string -> string): Result<(Tree, seq<FileEntry>), TreeError> {
    var kept := Filter(files, keep);
    match BuildTree(kept)
    case Err(e) => Err(e)
    case Ok(t) => Ok((t, Entries(kept, text)))
  }

  /** The scan's result, stated over whole lists: the tree and listing of the kept files. */
  function ScanFiles(absolutePath: string, files: seq<string>, extensions: seq<string>, readers: Readers): Result<Scanned, TreeError> {
    match TreeAndListing(files, SelectedFor(extensions), ContentOf(readers))
    case Err(e) => Err(e)
    case Ok(tl) => Ok(Scanned(absolutePath, Render(tl.0, "", 0), tl.1))
  }

  /** One iteration of the file loop on the tree and list so far; an earlier throw has ended the scan. */
  function ScanStep(acc: Result<(Tree, seq<FileEntry>), TreeError>, file: string, keep: string -> bool, text: string -> string)
    : Result<(Tree, seq<FileEntry>), TreeError>
  {
    match acc
    case Err(e) => Err(e)
    case Ok(tl) =>
      if !keep(file) then acc
      else match Insert(tl.0, Split(file, '/'), file)
        case Err(e) => Err(e)
        case Ok(t) => Ok((t, tl.1 + [FileEntry(file, text(file))]))
  }

  /** The whole-list result for one more file is one more loop iteration. */
  lemma TreeAndListingStep(files: seq<string>, keep: string -> bool, text: string -> string, k: nat)
    requires k < |files|
    ensures TreeAndListing(files[..k + 1], keep, text) == ScanStep(TreeAndListing(files[..k], keep, text), files[k], keep, text)
  {
    var f := files[k];
    var s := Filter(files[..k], keep);
    var s' := Filter(files[..k + 1], keep);
    FilterSnoc(files, keep, k);
    if keep(f) {
      assert s' == s + [f];
      BuildTreeSnoc(s, f);
      EntriesSnoc(s, f, text);
      match BuildTree(s) {
        case Err(e) =>
          assert BuildTree(s') == Err(e);
        case Ok(t) =>
          assert TreeAndListing(files[..k], keep, text) == Ok((t, Entries(s, text)));
          assert BuildTree(s') == Insert(t, Split(f, '/'), f);
      }
    } else {
      assert s' == s;
    }
  }

  /**
   * The file loop of `traverseDirectory`: keep a file when `keep` admits it,
   * insert it into the tree and append it with its text to the list. The
   * first insertion that throws ends the scan.
   */
  method FileLoop(files: seq<string>, keep: string -> bool, text: string -> string)
    returns (r: Result<(Tree, seq<FileEntry>), TreeError>)
    ensures r == TreeAndListing(files, keep, text)
  {
    r := Ok(([], []));
    var i := 0;
    while i < |files| && r.Ok?
      invariant 0 <= i <= |files|
      invariant r.Ok? ==> r == TreeAndListing(files[..i], keep, text)
      invariant r.Err? ==> r == TreeAndListing(files, keep, text)
    {
      var file := files[i];
      TreeAndListingStep(files, keep, text, i);
      if keep(file) {
        var (tree, listed) := r.value;
        match Insert(tree, Split(file, '/'), file) {
          case Err(e) =>
            StaysFailed(files, keep, i + 1);
            r := Err(e);
          case Ok(t) =>
            r := Ok((t, listed + [FileEntry(file, text(file))]));
        }
      }
      i := i + 1;
    }
    if r.Ok? {
      assert files[..i] == files;
    }
  }

  /**
   * `traverseDirectory(dirPath)` over the glob's relative paths: the kept
   * files are those the extension filter admits, each listed with its text,
   * and the tree of the kept files is rendered.
   */
  method Traverse(absolutePath: string, files: seq<string>, extensions: seq<string>, readers: Readers)
    returns (r: Result<Scanned, TreeError>)
    ensures r.Ok? <==> BuildTree(SelectedPaths(files, extensions)).Ok?
    ensures r.Ok? ==> r.value.absolutePath == absolutePath
    ensures r.Ok? ==> r.value.sourceTree == Render(BuildTree(SelectedPaths(files, extensions)).value, "", 0)
    ensures r.Ok? ==> r.value.files == Listing(SelectedPaths(files, extensions), readers)
    ensures r.Err? ==> r.error == BuildTree(SelectedPaths(files, extensions)).error
    ensures r == ScanFiles(absolutePath, files, extensions, readers)
  {
    var tl := FileLoop(files, SelectedFor(extensions), ContentOf(readers));
    match tl {
      case Err(e) => r := Err(e);
      case Ok(tl) => r := Ok(Scanned(absolutePath, Render(tl.0, "", 0), tl.1));
    }
  }

  lemma EntriesSnoc(paths: seq<string>, p: string, text: string -> string)
    ensures Entries(paths + [p], text) == Entries(paths, text) + [FileEntry(p, text(p))]
  {
    assert (paths + [p])[..|paths|] == paths;
  }

  /** Building the tree for one more path inserts it into the tree built so far. */
  lemma BuildTreeSnoc(paths: seq<string>, p: string)
    ensures BuildTree(paths + [p]) ==
              (match BuildTree(paths) case Err(e) => Err(e) case Ok(t) => Insert(t, Split(p, '/'), p))
  {
    assert (paths + [p])[..|paths|] == paths;
  }

  lemma BuildTreeErrSnoc(paths: seq<string>, p: string)
    requires BuildTree(paths).Err?
    ensures BuildTree(paths + [p]) == BuildTree(paths)
  {
    BuildTreeSnoc(paths, p);
  }

  /** Once the tree building fails on a prefix of the listing, it fails with the same error on the whole. */
  lemma {:induction false} StaysFailed(files: seq<string>, keep: string -> bool, k: nat)
    requires k <= |files|
    requires BuildTree(Filter(files[..k], keep)).Err?
    ensures BuildTree(Filter(files, keep)) == BuildTree(Filter(files[..k], keep))
    decreases |files| - k
  {
    if k < |files| {
      var s := Filter(files[..k], keep);
      var s' := Filter(files[..k + 1], keep);
      FilterSnoc(files, keep, k);
      if keep(files[k]) {
        assert s' == s + [files[k]];
        BuildTreeErrSnoc(s, files[k]);
      } else {
        assert s' == s;
      }
      assert BuildTree(s') == BuildTree(s);
      StaysFailed(files, keep, k + 1);
    } else {
      assert files[..k] == files;
    }
  }

  /** `traverseDirectory` and `stringifyTreeFromPaths` draw the same tree for the kept files. */
  lemma TraverseMatchesTreeFromPaths(files: seq<string>, extensions: seq<string>, scanned: Scanned)
    requires BuildTree(SelectedPaths(files, extensions)).Ok?
    requires scanned.sourceTree == Render(BuildTree(SelectedPaths(files, extensions)).value, "", 0)
    ensures TreeFromPaths(SelectedPaths(files, extensions)) == Ok(scanned.sourceTree)
  {
    RenderersAgree(BuildTree(SelectedPaths(files, extensions)).value, "", 0);
  }

  /** With no extensions configured every listed file is kept; otherwise only matching extensions, case-insensitively. */
  lemma ExtensionFilter(extensions: seq<string>, dir: string, stem: string, ext: string)
    requires |stem| > 0 && |ext| > 0 && '/' !in stem && '/' !in ext && '.' !in ext
    ensures |extensions| == 0 ==> Selected(extensions, dir + "/" + stem + "." + ext)
    ensures Selected(extensions, dir + "/" + stem + "." + ext) <==> |extensions| == 0 || ToLower(ext) in extensions
  {
    ExtNameOfFile(dir, stem, ext);
    assert ToLower("." + ext)[1..] == ToLower(ext);
  }
}
