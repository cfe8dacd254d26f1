/**
 * The few `pathlib` operations the launcher relies on, on Windows paths
 * written as strings: the last component (`name`), everything before it
 * (`parent`), the extension (`suffix`), the name without it (`stem`) and
 * `/` for joining. Paths are taken as the text given; the normalisation
 * `Path` applies to that text (slash conversion, collapsed separators,
 * dropped `.` parts and trailing separators) is not modelled.
 */
module Paths {
  import opened Wrappers
  import opened Strings

  predicate IsSep(c: char) {
    c == '\\' || c == '/'
  }

  predicate NoSep(s: string) {
    forall i :: 0 <= i < |s| ==> !IsSep(s[i])
  }

  /** Concatenating two names without separators gives one. */
  lemma NoSepConcat(a: string, b: string)
    requires NoSep(a) && NoSep(b)
    ensures NoSep(a + b)
  {
    forall i | 0 <= i < |a + b| ensures !IsSep((a + b)[i]) {
      if i < |a| {
        assert (a + b)[i] == a[i];
      } else {
        assert (a + b)[i] == b[i - |a|];
      }
    }
  }

  /** Index of the last separator, if any. */
  function LastSep(p: string): (r: Option<nat>)
    ensures r.Some? ==> r.value < |p| && IsSep(p[r.value]) && NoSep(p[r.value + 1..])
    ensures r.None? ==> NoSep(p)
    decreases |p|
  {
    if p == [] then None
    else if IsSep(p[|p| - 1]) then Some(|p| - 1)
    else
      var r := LastSep(p[..|p| - 1]);
      assert p[..|p| - 1] + [p[|p| - 1]] == p;
      if r.Some? then
        assert p[r.value + 1..] == p[..|p| - 1][r.value + 1..] + [p[|p| - 1]];
        r
      else r
  }

  /** Index of the last `c` in `s`, as `str.rfind` gives it. */
  function LastIndexOf(s: string, c: char): (r: Option<nat>)
    ensures r.Some? ==> r.value < |s| && s[r.value] == c && forall j :: r.value < j < |s| ==> s[j] != c
    ensures r.None? ==> forall j :: 0 <= j < |s| ==> s[j] != c
    decreases |s|
  {
    if s == [] then None
    else if s[|s| - 1] == c then Some(|s| - 1)
    else LastIndexOf(s[..|s| - 1], c)
  }

  /** The last `c` is at `i` when there is one there and none after it. */
  lemma LastIndexIs(s: string, c: char, i: nat)
    requires i < |s| && s[i] == c
    requires forall j :: i < j < |s| ==> s[j] != c
    ensures LastIndexOf(s, c) == Some(i)
    decreases |s|
  {
    if i < |s| - 1 {
      LastIndexIs(s[..|s| - 1], c, i);
    }
  }

  /** `PurePath.name`: the text after the last separator. */
  function Name(p: string): (r: string)
    ensures NoSep(r)
  {
    match LastSep(p)
    case None => p
    case Some(i) => p[i + 1..]
  }

  /** `PurePath.parent`: the text before the last separator, or `.` for a bare name. */
  function Parent(p: string): string {
    match LastSep(p)
    case None => "."
    case Some(i) => p[..i]
  }

  /** `PurePath.suffix`: from the last dot of the name, unless that dot starts or ends the name. */
  function Suffix(p: string): (r: string)
    ensures r != [] ==> r[0] == '.' && |r| >= 2 && NoSep(r)
  {
    var n := Name(p);
    match LastIndexOf(n, '.')
    case Some(i) => if 0 < i < |n| - 1 then n[i..] else ""
    case None => ""
  }

  /** `PurePath.stem`: the name without its suffix. */
  function Stem(p: string): string {
    var n := Name(p);
    n[..|n| - |Suffix(p)|]
  }

  /** `directory / name`. */
  function PathJoin(dir: string, name: string): string {
    dir + "\\" + name
  }

  /** A name without separators joined to a directory is that path's name, and the directory its parent. */
  lemma NameOfJoin(dir: string, name: string)
    requires NoSep(name)
    ensures Name(PathJoin(dir, name)) == name
    ensures Parent(PathJoin(dir, name)) == dir
  {
    var p := PathJoin(dir, name);
    assert p[|dir|] == '\\';
    assert p[|dir| + 1..] == name;
    assert forall j :: |dir| < j < |p| ==> p[j] == name[j - |dir| - 1];
    LastSepIs(p, |dir|);
  }

  /** The last separator is at `i` when there is one there and none after it. */
  lemma LastSepIs(p: string, i: nat)
    requires i < |p| && IsSep(p[i])
    requires forall j :: i < j < |p| ==> !IsSep(p[j])
    ensures LastSep(p) == Some(i)
    decreases |p|
  {
    if i < |p| - 1 {
      LastSepIs(p[..|p| - 1], i);
    }
  }

  /** The stem of `<n><ext>` is `n`, and its suffix `ext`, for a non-empty `n` and an extension with one leading dot. */
  lemma StemOfExtension(dir: string, n: string, ext: string)
    requires n != [] && NoSep(n)
    requires |ext| >= 2 && ext[0] == '.' && NoSep(ext) && forall i :: 1 <= i < |ext| ==> ext[i] != '.'
    ensures Stem(PathJoin(dir, n + ext)) == n
    ensures Suffix(PathJoin(dir, n + ext)) == ext
  {
    var f := n + ext;
    NoSepConcat(n, ext);
    NameOfJoin(dir, f);
    assert f[|n|] == '.';
    assert forall j :: |n| < j < |f| ==> f[j] == ext[j - |n|];
    LastIndexIs(f, '.', |n|);
    assert f[|n|..] == ext;
    assert f[..|f| - |ext|] == n;
  }
}
