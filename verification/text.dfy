/**
 * String operations of the JavaScript runtime that the modelled code relies on:
 * prefix/suffix tests, `indexOf`/`includes`, first-occurrence `replace`,
 * `split` on one separator character, `trim`, and Node's `path.extname`.
 */
module Text {
  import opened Results

  predicate StartsWith(s: string, p: string) {
    |p| <= |s| && s[..|p|] == p
  }

  predicate EndsWith(s: string, p: string) {
    |p| <= |s| && s[|s| - |p|..] == p
  }

  /** `p` occurs in `s` starting at position `i`. */
  predicate OccursAt(s: string, p: string, i: nat) {
    i + |p| <= |s| && s[i..i + |p|] == p
  }

  /** `s.indexOf(p, from)`: the first position at or after `from` where `p` occurs. */
  function IndexOfFrom(s: string, p: string, from: nat): (r: Option<nat>)
    requires from <= |s|
    ensures r.Some? ==> from <= r.value && OccursAt(s, p, r.value)
    ensures r.Some? ==> forall j :: from <= j < r.value ==> !OccursAt(s, p, j)
    ensures r.None? ==> forall j :: from <= j ==> !OccursAt(s, p, j)
    decreases |s| - from
  {
    if OccursAt(s, p, from) then Some(from)
    else if from == |s| then None
    else IndexOfFrom(s, p, from + 1)
  }

  /** `s.indexOf(p)`, with `-1` as `None`. */
  function IndexOf(s: string, p: string): Option<nat> {
    IndexOfFrom(s, p, 0)
  }

  /** `s.includes(p)`. */
  predicate Includes(s: string, p: string) {
    IndexOf(s, p).Some?
  }

  lemma IncludesIffOccurs(s: string, p: string)
    ensures Includes(s, p) <==> exists i: nat :: OccursAt(s, p, i)
  {
  }

  /** For a one-character needle, `includes` is plain membership. */
  lemma IncludesChar(s: string, c: char)
    ensures Includes(s, [c]) <==> c in s
  {
    if c in s {
      var i :| 0 <= i < |s| && s[i] == c;
      assert s[i..i + 1] == [c];
      assert OccursAt(s, [c], i);
    }
    if Includes(s, [c]) {
      var i := IndexOf(s, [c]).value;
      assert s[i..i + 1][0] == s[i];
    }
  }

  /**
   * `s.replace(p, "")` with a string pattern: the first occurrence of `p`
   * is cut out; when `p` does not occur, `s` is returned unchanged.
   */
  function RemoveFirst(s: string, p: string): (r: string)
    ensures IndexOf(s, p).None? ==> r == s
    ensures IndexOf(s, p).Some? ==>
              var i := IndexOf(s, p).value;
              |r| == |s| - |p| && i <= |r| && s == r[..i] + p + r[i..]
  {
    match IndexOf(s, p)
    case None => s
    case Some(i) =>
      var r := s[..i] + s[i + |p|..];
      assert r[..i] == s[..i] && r[i..] == s[i + |p|..];
      assert s == s[..i] + s[i..i + |p|] + s[i + |p|..];
      r
  }

  /** Joins parts with a separator character: the inverse of `Split`. */
  function Join(parts: seq<string>, sep: char): string
    requires |parts| >= 1
  {
    if |parts| == 1 then parts[0] else parts[0] + [sep] + Join(parts[1..], sep)
  }

  /** `s.split(sep)` for a one-character separator. */
  function Split(s: string, sep: char): (parts: seq<string>)
    ensures |parts| >= 1
    ensures forall i :: 0 <= i < |parts| ==> sep !in parts[i]
    ensures Join(parts, sep) == s
  {
    if |s| == 0 then [""]
    else
      var rest := Split(s[1..], sep);
      if s[0] == sep then
        assert [""] + rest == [""] + rest;
        assert ([""] + rest)[1..] == rest;
        assert s == [sep] + s[1..];
        [""] + rest
      else
        var parts := [[s[0]] + rest[0]] + rest[1..];
        assert parts[1..] == rest[1..];
        assert s == [s[0]] + s[1..];
        parts
  }

  /** Splitting a joined list gives the list back when no part holds the separator. */
  lemma {:induction false} SplitJoin(parts: seq<string>, sep: char)
    requires |parts| >= 1
    requires forall i :: 0 <= i < |parts| ==> sep !in parts[i]
    ensures Split(Join(parts, sep), sep) == parts
  {
    if |parts| == 1 {
      SplitNoSep(parts[0], sep);
    } else {
      SplitJoin(parts[1..], sep);
      SplitPrefix(parts[0], Join(parts[1..], sep), sep);
      assert Join(parts, sep) == parts[0] + [sep] + Join(parts[1..], sep);
      assert [parts[0]] + parts[1..] == parts;
    }
  }

  lemma {:induction false} SplitNoSep(s: string, sep: char)
    requires sep !in s
    ensures Split(s, sep) == [s]
  {
    if |s| > 0 {
      SplitNoSep(s[1..], sep);
      assert s == [s[0]] + s[1..];
    }
  }

  /** Splitting `a + sep + b` where `a` has no separator puts `a` first. */
  lemma {:induction false} SplitPrefix(a: string, b: string, sep: char)
    requires sep !in a
    ensures Split(a + [sep] + b, sep) == [a] + Split(b, sep)
  {
    var s := a + [sep] + b;
    if |a| == 0 {
      assert s == [sep] + b;
      assert s[1..] == b;
    } else {
      assert s[1..] == a[1..] + [sep] + b;
      SplitPrefix(a[1..], b, sep);
      assert a == [a[0]] + a[1..];
    }
  }

  /** The characters `String.prototype.trim` removes (WhiteSpace and LineTerminator). */
  predicate IsJsWhiteSpace(c: char) {
    c == ' ' || c == '\t' || c == '\n' || c == '\r' || c == '\U{B}' || c == '\U{C}'
    || c == '\U{A0}' || c == '\U{1680}' || ('\U{2000}' <= c <= '\U{200A}')
    || c == '\U{2028}' || c == '\U{2029}' || c == '\U{202F}' || c == '\U{205F}'
    || c == '\U{3000}' || c == '\U{FEFF}'
  }

  function TrimStart(s: string): (r: string)
    ensures |r| <= |s| && r == s[|s| - |r|..]
    ensures |r| > 0 ==> !IsJsWhiteSpace(r[0])
    ensures forall i :: 0 <= i < |s| - |r| ==> IsJsWhiteSpace(s[i])
  {
    if |s| > 0 && IsJsWhiteSpace(s[0]) then TrimStart(s[1..]) else s
  }

  function TrimEnd(s: string): (r: string)
    ensures |r| <= |s| && r == s[..|r|]
    ensures |r| > 0 ==> !IsJsWhiteSpace(r[|r| - 1])
    ensures forall i :: |r| <= i < |s| ==> IsJsWhiteSpace(s[i])
  {
    if |s| > 0 && IsJsWhiteSpace(s[|s| - 1]) then TrimEnd(s[..|s| - 1]) else s
  }

  /** `s.trim()`. */
  function Trim(s: string): string {
    TrimEnd(TrimStart(s))
  }

  /** `s.trim() == ''` exactly when every character of `s` is white space. */
  lemma TrimEmptyIffBlank(s: string)
    ensures Trim(s) == "" <==> forall i :: 0 <= i < |s| ==> IsJsWhiteSpace(s[i])
  {
  }

  /** Index of the last occurrence of `c` in `s`. */
  function LastIndexOfChar(s: string, c: char): (r: Option<nat>)
    ensures r.Some? ==> r.value < |s| && s[r.value] == c
    ensures r.Some? ==> forall j :: r.value < j < |s| ==> s[j] != c
    ensures r.None? ==> c !in s
  {
    if |s| == 0 then None
    else if s[|s| - 1] == c then Some(|s| - 1)
    else LastIndexOfChar(s[..|s| - 1], c)
  }

  /** `s` without its trailing `c` characters. */
  function TrimTrailing(s: string, c: char): (r: string)
    ensures |r| <= |s| && r == s[..|r|]
    ensures |r| > 0 ==> r[|r| - 1] != c
    ensures forall i :: |r| <= i < |s| ==> s[i] == c
  {
    if |s| > 0 && s[|s| - 1] == c then TrimTrailing(s[..|s| - 1], c) else s
  }

  /** The last segment of a POSIX path, trailing slashes ignored. */
  function BaseName(path: string): (b: string)
    ensures '/' !in b
  {
    var t := TrimTrailing(path, '/');
    match LastIndexOfChar(t, '/')
    case None => t
    case Some(k) => t[k + 1..]
  }

  /**
   * Node's POSIX `path.extname`: from the last `.` of the base name to its end;
   * empty when the base name has no dot, starts with its only dot, or is `..`.
   */
  function ExtName(path: string): (e: string)
    ensures e == "" || (e[0] == '.' && '/' !in e)
  {
    var b := BaseName(path);
    match LastIndexOfChar(b, '.')
    case None => ""
    case Some(d) => if d == 0 || b == ".." then "" else b[d..]
  }

  /** The base name of `dir/base` is `base` when `base` is a non-empty name without slashes. */
  lemma BaseNameOfChild(dir: string, base: string)
    requires |base| > 0 && '/' !in base
    ensures BaseName(dir + "/" + base) == base
  {
    var path := dir + "/" + base;
    var k := |dir|;
    assert forall j :: k < j < |path| ==> path[j] == base[j - k - 1];
    assert path[|path| - 1] != '/';
    assert TrimTrailing(path, '/') == path;
    assert path[k] == '/';
    assert LastIndexOfChar(path, '/') == Some(k);
    assert path[k + 1..] == base;
  }

  /** In `stem.ext` with a dot-free extension, the last dot follows the stem. */
  lemma LastDotOfName(stem: string, ext: string)
    requires '.' !in ext
    ensures LastIndexOfChar(stem + "." + ext, '.') == Some(|stem|)
  {
    var base := stem + "." + ext;
    assert base[|stem|] == '.';
    var r := LastIndexOfChar(base, '.');
    assert r.Some?;
  }

  lemma NoCharInName(stem: string, ext: string, c: char)
    requires c != '.' && c !in stem && c !in ext
    ensures c !in stem + "." + ext
  {
    var base := stem + "." + ext;
    forall j | 0 <= j < |base| ensures base[j] != c {
      if j < |stem| {
        assert base[j] == stem[j];
      } else if j > |stem| {
        assert base[j] == ext[j - |stem| - 1];
      }
    }
  }

  lemma ExtNameOfBase(path: string, d: nat)
    requires LastIndexOfChar(BaseName(path), '.') == Some(d)
    requires d > 0 && BaseName(path) != ".."
    ensures ExtName(path) == BaseName(path)[d..]
  {
  }

  /** The extension of `dir/stem.ext` is `.ext` for a non-empty stem and extension. */
  lemma ExtNameOfFile(dir: string, stem: string, ext: string)
    requires |stem| > 0 && |ext| > 0
    requires '/' !in stem && '/' !in ext && '.' !in ext
    ensures ExtName(dir + "/" + stem + "." + ext) == "." + ext
  {
    FileNameAssoc(dir, stem, ext);
    ExtNameOfChild(dir, stem, ext);
  }

  lemma FileNameAssoc(dir: string, stem: string, ext: string)
    ensures dir + "/" + stem + "." + ext == dir + "/" + (stem + "." + ext)
  {
  }

  lemma ExtNameOfChild(dir: string, stem: string, ext: string)
    requires |stem| > 0 && |ext| > 0
    requires '/' !in stem && '/' !in ext && '.' !in ext
    ensures ExtName(dir + "/" + (stem + "." + ext)) == "." + ext
  {
    var base := stem + "." + ext;
    var path := dir + "/" + base;
    NoCharInName(stem, ext, '/');
    BaseNameOfChild(dir, base);
    LastDotOfName(stem, ext);
    assert base[|base| - 1] == ext[|ext| - 1];
    ExtNameOfBase(path, |stem|);
    assert base[|stem|..] == "." + ext;
  }

  function LowerAscii(c: char): char {
    if 'A' <= c <= 'Z' then (c as int + 32) as char else c
  }

  /** `s.toLowerCase()` restricted to ASCII letters. */
  function ToLower(s: string): (r: string)
    ensures |r| == |s|
    ensures forall i :: 0 <= i < |s| ==> r[i] == LowerAscii(s[i])
  {
    if |s| == 0 then "" else [LowerAscii(s[0])] + ToLower(s[1..])
  }

  function Digit(d: nat): char
    requires d < 10
  {
    ('0' as int + d) as char
  }

  /** The decimal spelling JavaScript uses for an array index used as a key. */
  function DecimalString(n: nat): (r: string)
    ensures |r| > 0
    ensures forall i :: 0 <= i < |r| ==> '0' <= r[i] <= '9'
  {
    if n < 10 then [Digit(n)] else DecimalString(n / 10) + [Digit(n % 10)]
  }
}
