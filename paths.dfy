/**
 * A simplified model of the three path helpers the linker driver uses:
 * `parent_path`, `stem` and `append`. Paths use '/' as their only separator;
 * a path is split at its last separator, a file name at its last dot.
 */
module Paths {
  import opened Wrappers

  const Separator: char := '/'

  /** The position of the last occurrence of `c` in `s`, if there is one. */
  function LastIndexOf(s: string, c: char): (r: Option<nat>)
    ensures r.Some? ==> r.value < |s| && s[r.value] == c
    ensures r.Some? ==> forall k :: r.value < k < |s| ==> s[k] != c
    ensures r.None? <==> c !in s
    decreases |s|
  {
    if |s| == 0 then None
    else if s[|s| - 1] == c then Some(|s| - 1)
    else LastIndexOf(s[..|s| - 1], c)
  }

  /** The last component of `p`: everything after its last separator. */
  function FileName(p: string): (r: string)
    ensures Separator !in r
    ensures Separator !in p ==> r == p
  {
    match LastIndexOf(p, Separator)
    case None => p
    case Some(i) => p[i + 1..]
  }

  /** The directory part of `p`: empty when `p` has no separator, the root when its only separator leads it. */
  function ParentPath(p: string): (r: string)
    ensures r <= p
    ensures Separator !in p ==> r == ""
    ensures Separator in p ==> r != ""
  {
    match LastIndexOf(p, Separator)
    case None => ""
    case Some(i) => if i == 0 then [Separator] else p[..i]
  }

  /** The file name of `p` without its extension; "." and ".." are their own stems. */
  function Stem(p: string): (r: string)
    ensures r <= FileName(p)
    ensures Separator !in r
  {
    var f := FileName(p);
    if f == "." || f == ".." then f
    else match LastIndexOf(f, '.')
      case None => f
      case Some(i) => f[..i]
  }

  /** The extension of the file name of `p`, dot included; empty when it has none. */
  function Extension(p: string): string
  {
    var f := FileName(p);
    if f == "." || f == ".." then ""
    else match LastIndexOf(f, '.')
      case None => ""
      case Some(i) => f[i..]
  }

  /** `name` appended to `dir`, with a separator between them unless `dir` is empty or already ends in one. */
  function Join(dir: string, name: string): string
  {
    if dir == "" then name
    else if dir[|dir| - 1] == Separator then dir + name
    else dir + [Separator] + name
  }

  /**
   * `Join(dir, name)` starts with `dir` and ends with `name`; a separator
   * stands between them exactly when `dir` is non-empty and does not already
   * end in one.
   */
  lemma JoinShape(dir: string, name: string)
    ensures var r := Join(dir, name);
      && dir <= r
      && |r| >= |dir| + |name| && r[|r| - |name|..] == name
      && (|r| == |dir| + |name| <==> dir == "" || dir[|dir| - 1] == Separator)
      && (|r| != |dir| + |name| ==> |r| == |dir| + |name| + 1 && r[|dir|] == Separator)
  {
  }

  /** No two separators stand next to each other in `p`. */
  predicate NoDoubleSeparator(p: string)
  {
    forall k :: 0 < k < |p| ==> !(p[k - 1] == Separator && p[k] == Separator)
  }

  /** A directory as `ParentPath` produces it: empty, the root, or not ending in a separator. */
  predicate IsDirectory(dir: string)
  {
    dir == "" || dir == [Separator] || dir[|dir| - 1] != Separator
  }

  /** In `a + [c] + b` with no `c` in `b`, the last `c` is the one between `a` and `b`. */
  lemma {:induction false} LastIndexOfSplit(a: string, c: char, b: string)
    requires c !in b
    ensures LastIndexOf(a + [c] + b, c) == Some(|a|)
    decreases |b|
  {
    var s := a + [c] + b;
    if b != [] {
      var b' := b[..|b| - 1];
      assert s[|s| - 1] == b[|b| - 1];
      assert s[..|s| - 1] == a + [c] + b';
      assert forall x :: x in b' ==> x in b;
      LastIndexOfSplit(a, c, b');
    }
  }

  /** The file name of a path built by `Join` is the name that was appended. */
  lemma FileNameOfJoin(dir: string, name: string)
    requires Separator !in name
    ensures FileName(Join(dir, name)) == name
  {
    if dir == "" {
    } else if dir[|dir| - 1] == Separator {
      var d := dir[..|dir| - 1];
      assert dir + name == d + [Separator] + name;
      LastIndexOfSplit(d, Separator, name);
      assert (dir + name)[|d| + 1..] == name;
    } else {
      LastIndexOfSplit(dir, Separator, name);
      assert (dir + [Separator] + name)[|dir| + 1..] == name;
    }
  }

  /** The parent of a path built by `Join` is the directory it was built from. */
  lemma ParentOfJoin(dir: string, name: string)
    requires Separator !in name
    requires IsDirectory(dir)
    ensures ParentPath(Join(dir, name)) == dir
  {
    if dir == "" {
    } else if dir == [Separator] {
      assert Join(dir, name) == [] + [Separator] + name;
      LastIndexOfSplit([], Separator, name);
    } else {
      LastIndexOfSplit(dir, Separator, name);
      assert (dir + [Separator] + name)[..|dir|] == dir;
    }
  }

  /** The parent of a path without doubled separators is a directory as `Join` expects it. */
  lemma ParentPathIsDirectory(p: string)
    requires NoDoubleSeparator(p)
    ensures IsDirectory(ParentPath(p))
  {
    match LastIndexOf(p, Separator)
    case None =>
    case Some(i) =>
      if i > 0 {
        assert p[i - 1] != Separator;
      }
  }

  /** Splitting a path into parent and file name and joining them again gives the path back. */
  lemma JoinParentFileName(p: string)
    requires NoDoubleSeparator(p)
    ensures Join(ParentPath(p), FileName(p)) == p
  {
    match LastIndexOf(p, Separator)
    case None =>
    case Some(i) =>
      if i == 0 {
        assert p == [Separator] + p[1..];
      } else {
        assert p[i - 1] != Separator;
        assert p == p[..i] + [Separator] + p[i + 1..];
      }
  }

  /**
   * Stem and extension together make up the file name, and the cut is at the
   * last dot: the extension holds no dot after its first character, and a
   * name with a dot (other than "." and "..") has a non-empty extension.
   * A name without a dot is its own stem.
   */
  lemma StemAndExtension(p: string)
    ensures Stem(p) + Extension(p) == FileName(p)
    ensures Extension(p) == "" || Extension(p)[0] == '.'
    ensures forall k :: 0 < k < |Extension(p)| ==> Extension(p)[k] != '.'
    ensures FileName(p) != "." && FileName(p) != ".." && '.' in FileName(p) ==> Extension(p) != ""
    ensures '.' !in FileName(p) ==> Stem(p) == FileName(p) && Extension(p) == ""
  {
    var f := FileName(p);
    if f != "." && f != ".." {
      match LastIndexOf(f, '.')
      case None =>
      case Some(i) => assert f[..i] + f[i..] == f;
    }
  }

  /** Directory, stem and extension of a path reassemble the path. */
  lemma Reassemble(p: string)
    requires NoDoubleSeparator(p)
    ensures Join(ParentPath(p), Stem(p) + Extension(p)) == p
  {
    StemAndExtension(p);
    JoinParentFileName(p);
  }
}
