/**
 * File-name handling shared by the document loaders: the basename expression
 * `path.split("\\")[-1].split("/")[-1]` that every loader stores as `source`,
 * and `pathlib.Path(path).suffix` that the multi-format loader dispatches on.
 */
module Paths {
  import opened Text

  predicate IsSeparator(c: char)
  {
    c == '\\' || c == '/'
  }

  /** `s.split(sep)[-1]`. */
  function AfterLast(s: string, sep: char): string
  {
    Last(Split(s, sep))
  }

  /**
   * The last part of a split is the longest tail of the text without the
   * separator: either the whole text or the text after a separator.
   */
  lemma {:induction false} AfterLastIsTail(s: string, sep: char)
    ensures var t := AfterLast(s, sep);
      |t| <= |s| && t == s[|s| - |t|..] && sep !in t &&
      (|t| < |s| ==> s[|s| - |t| - 1] == sep)
  {
    if s != [] {
      var rest := Split(s[1..], sep);
      AfterLastIsTail(s[1..], sep);
      if s[0] == sep {
        assert Split(s, sep) == [""] + rest;
        assert AfterLast(s, sep) == AfterLast(s[1..], sep);
      } else if |rest| == 1 {
        assert rest[0] == s[1..];
        assert Split(s, sep) == [[s[0]] + rest[0]];
        assert AfterLast(s, sep) == s;
      } else {
        var parts := [[s[0]] + rest[0]] + rest[1..];
        assert Split(s, sep) == parts;
        assert Last(parts) == Last(rest);
      }
    }
  }

  /** The basename every loader records as the document's `source`. */
  function Basename(path: string): string
  {
    AfterLast(AfterLast(path, '\\'), '/')
  }

  /**
   * The basename is the text after the last `\` or `/` of the path (the whole
   * path when it has neither): a tail of the path holding no separator, and
   * preceded by a separator unless it is the whole path.
   */
  lemma BasenameIsAfterLastSeparator(path: string)
    ensures var b := Basename(path);
      |b| <= |path| && b == path[|path| - |b|..] &&
      (forall i :: 0 <= i < |b| ==> !IsSeparator(b[i])) &&
      (|b| < |path| ==> IsSeparator(path[|path| - |b| - 1]))
  {
    var a := AfterLast(path, '\\');
    AfterLastIsTail(path, '\\');
    AfterLastIsTail(a, '/');
    TailOfTail(path, a, Basename(path));
  }

  /** A tail `b` of a tail `a` of `path` is a tail of `path`, and `b` keeps the characters `a` has there. */
  lemma TailOfTail(path: string, a: string, b: string)
    requires |a| <= |path| && a == path[|path| - |a|..] && '\\' !in a
    requires |b| <= |a| && b == a[|a| - |b|..] && '/' !in b
    requires |a| < |path| ==> path[|path| - |a| - 1] == '\\'
    requires |b| < |a| ==> a[|a| - |b| - 1] == '/'
    ensures path[|path| - |b|..] == b
    ensures forall i :: 0 <= i < |b| ==> !IsSeparator(b[i])
    ensures |b| < |path| ==> IsSeparator(path[|path| - |b| - 1])
  {
    forall i | 0 <= i < |b|
      ensures !IsSeparator(b[i])
    {
      assert b[i] == a[|a| - |b| + i];
    }
    if |b| < |a| {
      assert path[|path| - |b| - 1] == a[|a| - |b| - 1];
    }
  }

  /** Those three facts single the basename out: no other tail of the path has them. */
  lemma BasenameUnique(path: string, k: nat)
    requires k <= |path|
    requires forall i :: k <= i < |path| ==> !IsSeparator(path[i])
    requires k == 0 || IsSeparator(path[k - 1])
    ensures Basename(path) == path[k..]
  {
    BasenameIsAfterLastSeparator(path);
    var b := Basename(path);
    var j := |path| - |b|;
    if k < j {
      assert false;
    } else if j < k {
      assert false;
    }
  }

  /**
   * `PurePosixPath(path).name`: the last component of the path, where
   * components are split on `/` and empty and `.` components are dropped;
   * `""` when nothing remains.
   */
  function PathName(path: string): string
  {
    LastComponent(Split(path, '/'))
  }

  /** A component `PurePosixPath` keeps: neither empty nor `.`. */
  predicate Usable(part: string)
  {
    part != "" && part != "."
  }

  /** The index of the last usable component, or -1 when there is none. */
  function LastUsable(parts: seq<string>): (i: int)
    ensures -1 <= i < |parts|
    ensures 0 <= i ==> Usable(parts[i])
    ensures forall k :: i < k < |parts| ==> !Usable(parts[k])
  {
    if parts == [] then -1
    else if Usable(parts[|parts| - 1]) then |parts| - 1
    else LastUsable(parts[..|parts| - 1])
  }

  /** The last usable component, or `""` when every component is empty or `.`. */
  function LastComponent(parts: seq<string>): (name: string)
    ensures name == "" <==> forall k :: 0 <= k < |parts| ==> !Usable(parts[k])
    ensures name != "" ==>
      exists j :: 0 <= j < |parts| && parts[j] == name && (forall k :: j < k < |parts| ==> !Usable(parts[k]))
    ensures name != "."
  {
    var i := LastUsable(parts);
    if i < 0 then "" else parts[i]
  }

  /** Below a directory, the name of `dir/name` is `name`, whatever the directory holds. */
  lemma PathNameUnderDirectory(dir: string, name: string)
    requires Usable(name) && '/' !in name
    ensures PathName(dir + "/" + name) == name
  {
    assert dir + "/" + name == dir + ['/'] + name;
    SplitAround(dir, name, '/');
    SplitWithoutSeparator(name, '/');
    var parts := Split(dir, '/') + [name];
    assert Last(parts) == name;
  }

  /** A bare name, holding no `/`, is its own name. */
  lemma PathNameOfBareName(name: string)
    requires Usable(name) && '/' !in name
    ensures PathName(name) == name
  {
    SplitWithoutSeparator(name, '/');
  }

  /** `s.rfind(c)`: the index of the last occurrence of `c`, or -1. */
  function RFind(s: string, c: char): (i: int)
    ensures -1 <= i < |s|
    ensures 0 <= i ==> s[i] == c
    ensures forall k :: i < k < |s| ==> s[k] != c
  {
    if s == [] then -1
    else if s[|s| - 1] == c then |s| - 1
    else RFind(s[..|s| - 1], c)
  }

  /**
   * `PurePath.suffix` for a final component `name`: the tail from the last
   * dot, or `""` when there is no dot, or the last dot is the first or the
   * last character.
   */
  function NameSuffix(name: string): (suffix: string)
    ensures suffix != "" ==>
      2 <= |suffix| < |name| && suffix == name[|name| - |suffix|..] &&
      suffix[0] == '.' && '.' !in suffix[1..]
    ensures suffix == "" <==>
      (name == "" || '.' !in name || name[|name| - 1] == '.' ||
       (name[0] == '.' && '.' !in name[1..]))
  {
    var i := RFind(name, '.');
    if 0 < i < |name| - 1 then
      assert name[i..][1..] == name[i + 1..];
      name[i..]
    else
      assert i == 0 ==> name[1..] == name[i + 1..];
      assert i == -1 ==> '.' !in name;
      ""
  }

  /** `Path(path).suffix` on a POSIX system. */
  function PathSuffix(path: string): string
  {
    NameSuffix(PathName(path))
  }
}
