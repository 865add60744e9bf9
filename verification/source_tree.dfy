/**
 * The directory tree shown in prompts: the nested object that
 * `traverseDirectory` and `stringifyTreeFromPaths` build from `/`-separated
 * relative paths, and its box-drawing rendering (`stringifyTree`).
 */
module SourceTree {
  import opened Results
  import opened Text
  import opened OrderedMap

  /**
   * A tree node: a file leaf holding the relative path stored for it, or a
   * directory object whose entries keep their insertion order.
   */
  datatype Entry = Leaf(path: string) | Dir(children: seq<(string, Entry)>)

  type Tree = seq<(string, Entry)>

  /**
   * The class body is strict code: once a walk lands on a non-empty string
   * leaf, the next property assignment on that string primitive throws.
   */
  datatype TreeError = AssignOnString(path: string)

  /** `current[part] || {}`: a directory, or a fresh one where the slot is absent or a falsy (empty) string. */
  function Descend(e: Option<Entry>): Option<Tree> {
    match e
    case None => Some([])
    case Some(Dir(children)) => Some(children)
    case Some(Leaf(p)) => if p == "" then Some([]) else None
  }

  /**
   * One pass of the inner loop: walk `parts` from `t`, creating directories,
   * and store `full` under the last part.
   */
  function Insert(t: Tree, parts: seq<string>, full: string): (r: Result<Tree, TreeError>)
    requires |parts| >= 1
    ensures |parts| == 1 ==> r.Ok?
    ensures r.Ok? ==> Extends(t, r.value) && HasKey(r.value, parts[0])
    ensures r.Ok? ==> forall k :: k != parts[0] ==> Get(r.value, k) == Get(t, k)
    ensures r.Err? ==> r.error == AssignOnString(full)
    decreases |parts|
  {
    if |parts| == 1 then
      PutExtends(t, parts[0], Leaf(full));
      Ok(Put(t, parts[0], Leaf(full)))
    else match Descend(Get(t, parts[0]))
      case None => Err(AssignOnString(full))
      case Some(sub) =>
        match Insert(sub, parts[1..], full)
        case Err(e) => Err(e)
        case Ok(sub') =>
          PutExtends(t, parts[0], Dir(sub'));
          Ok(Put(t, parts[0], Dir(sub')))
  }

  /** The entry reached by following `parts` from `t`, if every step is a directory. */
  function Find(t: Tree, parts: seq<string>): Option<Entry>
    requires |parts| >= 1
    decreases |parts|
  {
    match Get(t, parts[0])
    case None => None
    case Some(e) =>
      if |parts| == 1 then Some(e)
      else if e.Dir? then Find(e.children, parts[1..])
      else None
  }

  /** Some proper prefix of `parts` names a non-empty string leaf. */
  predicate Blocked(t: Tree, parts: seq<string>)
    requires |parts| >= 1
    decreases |parts|
  {
    |parts| > 1 && Get(t, parts[0]).Some? &&
    var e := Get(t, parts[0]).value;
    if e.Leaf? then e.path != "" else Blocked(e.children, parts[1..])
  }

  /** Inserting fails exactly when the walk meets a non-empty leaf before the last part; otherwise the file is found where the path says. */
  lemma {:induction false} InsertFindsLeaf(t: Tree, parts: seq<string>, full: string)
    requires |parts| >= 1
    ensures Insert(t, parts, full).Err? <==> Blocked(t, parts)
    ensures Insert(t, parts, full).Ok? ==> Find(Insert(t, parts, full).value, parts) == Some(Leaf(full))
    decreases |parts|
  {
    if |parts| > 1 {
      match Descend(Get(t, parts[0]))
      case None =>
      case Some(sub) =>
        InsertFindsLeaf(sub, parts[1..], full);
        if Get(t, parts[0]).None? || Get(t, parts[0]).value.Leaf? {
          NothingBlocksInEmpty(parts[1..]);
        }
    }
  }

  lemma {:induction false} NothingBlocksInEmpty(parts: seq<string>)
    requires |parts| >= 1
    ensures !Blocked([], parts)
  {
  }

  /** Top-level keys keep their first-appearance order: inserting only appends new names. */
  lemma InsertKeepsOrder(t: Tree, parts: seq<string>, full: string)
    requires |parts| >= 1
    requires Insert(t, parts, full).Ok?
    ensures HasKey(t, parts[0]) ==> Keys(Insert(t, parts, full).value) == Keys(t)
    ensures !HasKey(t, parts[0]) ==> Keys(Insert(t, parts, full).value) == Keys(t) + [parts[0]]
  {
  }

  /** Two paths part ways: after an equal run of names they name different entries at the same depth. */
  predicate Diverge(a: seq<string>, b: seq<string>)
    decreases |a|
  {
    |a| >= 1 && |b| >= 1 && (a[0] != b[0] || Diverge(a[1..], b[1..]))
  }

  /** A path that parts ways with the inserted one, at any depth, is untouched by the insertion. */
  lemma {:induction false} InsertElsewhere(t: Tree, parts: seq<string>, full: string, other: seq<string>)
    requires |parts| >= 1 && |other| >= 1 && Diverge(other, parts)
    requires Insert(t, parts, full).Ok?
    ensures Find(Insert(t, parts, full).value, other) == Find(t, other)
    decreases |parts|
  {
    var t' := Insert(t, parts, full).value;
    if other[0] != parts[0] {
      FindSameHead(t, t', other);
    } else {
      assert |other| > 1 && |parts| > 1 && Diverge(other[1..], parts[1..]);
      var sub := Descend(Get(t, parts[0])).value;
      var sub' := Insert(sub, parts[1..], full).value;
      assert t' == Put(t, parts[0], Dir(sub'));
      InsertElsewhere(sub, parts[1..], full, other[1..]);
      FindThroughDir(t', other, sub');
      if Get(t, parts[0]).Some? && Get(t, parts[0]).value.Dir? {
        FindThroughDir(t, other, Get(t, parts[0]).value.children);
      } else {
        NothingFoundInEmpty(other[1..]);
      }
    }
  }

  /** `Find` only looks at the entry of the first name. */
  lemma FindSameHead(t: Tree, t': Tree, parts: seq<string>)
    requires |parts| >= 1 && Get(t', parts[0]) == Get(t, parts[0])
    ensures Find(t', parts) == Find(t, parts)
  {
  }

  /** Below a directory, `Find` continues in its children. */
  lemma FindThroughDir(t: Tree, parts: seq<string>, c: Tree)
    requires |parts| > 1 && Get(t, parts[0]) == Some(Dir(c))
    ensures Find(t, parts) == Find(c, parts[1..])
  {
  }

  lemma {:induction false} NothingFoundInEmpty(parts: seq<string>)
    requires |parts| >= 1
    ensures Find([], parts) == None
  {
  }

  /** The path at `i` parts ways with every later path, so no later insertion reaches it. */
  predicate Survives(paths: seq<string>, i: nat)
    requires i < |paths|
  {
    forall j :: i < j < |paths| ==> Diverge(Split(paths[i], '/'), Split(paths[j], '/'))
  }

  /** Every path that parts ways with all later ones is found at its place, holding itself. */
  predicate SurvivorsFound(t: Tree, paths: seq<string>) {
    forall i :: 0 <= i < |paths| && Survives(paths, i) ==> Find(t, Split(paths[i], '/')) == Some(Leaf(paths[i]))
  }

  /** Inserting the last path keeps every earlier path that parts ways with it, and adds the last one. */
  lemma {:induction false} InsertKeepsSurvivors(t: Tree, paths: seq<string>)
    requires |paths| >= 1 && SurvivorsFound(t, paths[..|paths| - 1])
    ensures Insert(t, Split(paths[|paths| - 1], '/'), paths[|paths| - 1]).Ok? ==>
              Find(Insert(t, Split(paths[|paths| - 1], '/'), paths[|paths| - 1]).value, Split(paths[|paths| - 1], '/')) == Some(Leaf(paths[|paths| - 1]))
    ensures Insert(t, Split(paths[|paths| - 1], '/'), paths[|paths| - 1]).Ok? ==>
              SurvivorsFound(Insert(t, Split(paths[|paths| - 1], '/'), paths[|paths| - 1]).value, paths)
  {
    var n := |paths| - 1;
    var parts := Split(paths[n], '/');
    InsertFindsLeaf(t, parts, paths[n]);
    forall i | 0 <= i < n && Survives(paths, i) && Insert(t, parts, paths[n]).Ok?
      ensures Find(Insert(t, parts, paths[n]).value, Split(paths[i], '/')) == Some(Leaf(paths[i]))
    {
      SurvivesInPrefix(paths, i);
      FoundSurvivor(t, paths[..n], i);
      assert paths[..n][i] == paths[i];
      InsertElsewhere(t, parts, paths[n], Split(paths[i], '/'));
    }
  }

  /** A path that survives the whole list survives its prefix too, and parts ways with the last path. */
  lemma SurvivesInPrefix(paths: seq<string>, i: nat)
    requires i < |paths| - 1 && Survives(paths, i)
    ensures Survives(paths[..|paths| - 1], i)
    ensures Diverge(Split(paths[i], '/'), Split(paths[|paths| - 1], '/'))
  {
    var init := paths[..|paths| - 1];
    forall j | i < j < |init|
      ensures Diverge(Split(init[i], '/'), Split(init[j], '/'))
    {
      assert init[i] == paths[i] && init[j] == paths[j];
    }
  }

  lemma FoundSurvivor(t: Tree, paths: seq<string>, i: nat)
    requires i < |paths| && Survives(paths, i) && SurvivorsFound(t, paths)
    ensures Find(t, Split(paths[i], '/')) == Some(Leaf(paths[i]))
  {
  }

  /** Every path in order, split on `/`; the first failing insertion throws. */
  function BuildTree(paths: seq<string>): (r: Result<Tree, TreeError>)
    ensures r.Ok? && |paths| > 0 ==> Find(r.value, Split(paths[|paths| - 1], '/')) == Some(Leaf(paths[|paths| - 1]))
    ensures r.Ok? ==> SurvivorsFound(r.value, paths)
    ensures r.Err? ==> exists i :: 0 <= i < |paths| && r.error == AssignOnString(paths[i])
    decreases |paths|
  {
    if |paths| == 0 then Ok([])
    else match BuildTree(paths[..|paths| - 1])
      case Err(e) =>
        assert forall i :: 0 <= i < |paths| - 1 ==> paths[..|paths| - 1][i] == paths[i];
        Err(e)
      case Ok(t) =>
        InsertKeepsSurvivors(t, paths);
        Insert(t, Split(paths[|paths| - 1], '/'), paths[|paths| - 1])
  }

  /** The last path given is always found at its own place, holding itself. */
  lemma LastPathFound(paths: seq<string>)
    requires |paths| >= 1 && BuildTree(paths).Ok?
    ensures Find(BuildTree(paths).value, Split(paths[|paths| - 1], '/')) == Some(Leaf(paths[|paths| - 1]))
  {
    var init := paths[..|paths| - 1];
    InsertFindsLeaf(BuildTree(init).value, Split(paths[|paths| - 1], '/'), paths[|paths| - 1]);
  }

  /**
   * Of two files in one directory, the first parts ways with the second, so
   * the contract of `BuildTree` keeps it when the second is inserted.
   */
  lemma SiblingSurvives(dir: string, a: string, b: string)
    requires '/' !in dir && '/' !in a && '/' !in b && a != b
    ensures Survives([dir + "/" + a, dir + "/" + b], 0)
  {
    SplitInDir(dir, a);
    SplitInDir(dir, b);
    assert Diverge([dir, a][1..], [dir, b][1..]);
  }

  lemma SplitInDir(dir: string, name: string)
    requires '/' !in dir && '/' !in name
    ensures Split(dir + "/" + name, '/') == [dir, name]
  {
    SplitPrefix(dir, name, '/');
    SplitNoSep(name, '/');
  }

  /** One leaf per name, each holding its own name. */
  function Flat(names: seq<string>): (t: Tree)
    ensures |t| == |names|
    ensures forall i :: 0 <= i < |names| ==> t[i] == (names[i], Leaf(names[i]))
  {
    if |names| == 0 then [] else Flat(names[..|names| - 1]) + [(names[|names| - 1], Leaf(names[|names| - 1]))]
  }

  /** Names without `/` give a flat tree: one leaf per distinct name, in first-appearance order. */
  lemma {:induction false} FlatTree(paths: seq<string>)
    requires forall i :: 0 <= i < |paths| ==> '/' !in paths[i]
    requires forall i, j :: 0 <= i < j < |paths| ==> paths[i] != paths[j]
    ensures BuildTree(paths) == Ok(Flat(paths))
  {
    if |paths| > 0 {
      var init := paths[..|paths| - 1];
      var last := paths[|paths| - 1];
      FlatTree(init);
      var t := Flat(init);
      SplitNoSep(last, '/');
      assert Position(t, last).None?;
      assert Insert(t, [last], last) == Ok(t + [(last, Leaf(last))]);
    }
  }

  /** The connector before an entry's name. */
  function Connector(isLast: bool): string {
    if isLast then "└── " else "├── "
  }

  /** What an entry's children are indented by, below the entry. */
  function Indent(isLast: bool): string {
    if isLast then "    " else "|   "
  }

  /** `stringifyTree(tree, prefix)` from entry `i` on: one line per entry, descending into every object. */
  function Render(t: Tree, prefix: string, i: nat): (r: string)
    requires i <= |t|
    ensures r == "" <==> i == |t|
    decreases Dir(t), |t| - i
  {
    if i == |t| then ""
    else
      var isLast := i == |t| - 1;
      var line := prefix + Connector(isLast) + t[i].0 + "\n";
      var below := match t[i].1
        case Dir(children) => Render(children, prefix + Indent(isLast), 0)
        case Leaf(_) => "";
      line + below + Render(t, prefix, i + 1)
  }

  /** `stringifyTree_` of `stringifyTreeFromPaths`: descends only into non-empty objects. */
  function RenderNonEmpty(t: Tree, prefix: string, i: nat): (r: string)
    requires i <= |t|
    ensures r == "" <==> i == |t|
    decreases Dir(t), |t| - i
  {
    if i == |t| then ""
    else
      var isLast := i == |t| - 1;
      var line := prefix + Connector(isLast) + t[i].0 + "\n";
      var below := match t[i].1
        case Dir(children) => if |children| > 0 then RenderNonEmpty(children, prefix + Indent(isLast), 0) else ""
        case Leaf(_) => "";
      line + below + RenderNonEmpty(t, prefix, i + 1)
  }

  /** The two renderers agree: an empty directory contributes no lines either way. */
  lemma {:induction false} RenderersAgree(t: Tree, prefix: string, i: nat)
    requires i <= |t|
    ensures Render(t, prefix, i) == RenderNonEmpty(t, prefix, i)
    decreases Dir(t), |t| - i
  {
    if i < |t| {
      var isLast := i == |t| - 1;
      match t[i].1 {
        case Dir(children) =>
          RenderersAgree(children, prefix + Indent(isLast), 0);
        case Leaf(_) =>
      }
      RenderersAgree(t, prefix, i + 1);
    }
  }

  /** Number of entries at every depth from entry `i` on: the number of lines rendered. */
  function Size(t: Tree, i: nat): nat
    requires i <= |t|
    decreases Dir(t), |t| - i
  {
    if i == |t| then 0
    else 1 + (match t[i].1 case Dir(children) => Size(children, 0) case Leaf(_) => 0) + Size(t, i + 1)
  }

  /** Every name from entry `i` on is free of line breaks, at every depth. */
  predicate OneLineNames(t: Tree, i: nat)
    requires i <= |t|
    decreases Dir(t), |t| - i
  {
    i == |t| ||
    ('\n' !in t[i].0 &&
     (match t[i].1 case Dir(children) => OneLineNames(children, 0) case Leaf(_) => true) &&
     OneLineNames(t, i + 1))
  }

  function CountChar(s: string, c: char): nat {
    if |s| == 0 then 0 else (if s[0] == c then 1 else 0) + CountChar(s[1..], c)
  }

  lemma {:induction false} CountCharAppend(a: string, b: string, c: char)
    ensures CountChar(a + b, c) == CountChar(a, c) + CountChar(b, c)
  {
    if |a| > 0 {
      assert (a + b)[0] == a[0];
      assert (a + b)[1..] == a[1..] + b;
      CountCharAppend(a[1..], b, c);
      assert CountChar(a + b, c) == (if a[0] == c then 1 else 0) + CountChar(a[1..] + b, c);
    } else {
      assert a + b == b;
    }
  }

  lemma {:induction false} CountCharAbsent(s: string, c: char)
    requires c !in s
    ensures CountChar(s, c) == 0
  {
    if |s| > 0 {
      CountCharAbsent(s[1..], c);
    }
  }

  /** The rendering has exactly one line per entry, at every depth. */
  lemma {:induction false} OneLinePerEntry(t: Tree, prefix: string, i: nat)
    requires i <= |t|
    requires OneLineNames(t, i) && '\n' !in prefix
    ensures CountChar(Render(t, prefix, i), '\n') == Size(t, i)
    decreases Dir(t), |t| - i
  {
    if i < |t| {
      var isLast := i == |t| - 1;
      var head := prefix + Connector(isLast) + t[i].0;
      assert '\n' !in head;
      var below := match t[i].1
        case Dir(children) => Render(children, prefix + Indent(isLast), 0)
        case Leaf(_) => "";
      match t[i].1 {
        case Dir(children) =>
          assert '\n' !in prefix + Indent(isLast);
          OneLinePerEntry(children, prefix + Indent(isLast), 0);
        case Leaf(_) =>
          CountCharAbsent(below, '\n');
      }
      OneLinePerEntry(t, prefix, i + 1);
      assert Render(t, prefix, i) == head + "\n" + below + Render(t, prefix, i + 1);
      CountLine(head, below, Render(t, prefix, i + 1));
    }
  }

  /** A line break after a one-line head adds exactly one to what follows. */
  lemma CountLine(head: string, below: string, rest: string)
    requires '\n' !in head
    ensures CountChar(head + "\n" + below + rest, '\n') == 1 + CountChar(below, '\n') + CountChar(rest, '\n')
  {
    CountCharAbsent(head, '\n');
    CountCharAppend(head, "\n", '\n');
    CountCharAppend(head + "\n", below, '\n');
    CountCharAppend(head + "\n" + below, rest, '\n');
  }

  /** A flat listing renders as one connector line per name, the last one closing the list. */
  lemma FlatRendering(a: string, b: string)
    ensures Render([(a, Leaf(a)), (b, Leaf(b))], "", 0) == "├── " + a + "\n" + "└── " + b + "\n"
  {
    var t: Tree := [(a, Leaf(a)), (b, Leaf(b))];
    assert Render(t, "", 2) == "";
    assert Render(t, "", 1) == "└── " + b + "\n";
  }

  /** `stringifyTreeFromPaths(paths)`. */
  function TreeFromPaths(paths: seq<string>): (r: Result<string, TreeError>)
    ensures r.Ok? <==> BuildTree(paths).Ok?
    ensures r.Ok? ==> r.value == Render(BuildTree(paths).value, "", 0)
  {
    match BuildTree(paths)
    case Err(e) => Err(e)
    case Ok(t) =>
      RenderersAgree(t, "", 0);
      Ok(RenderNonEmpty(t, "", 0))
  }
}
