/**
 * Paths as the operating system hands them out (Rust's `OsStr` / `PathBuf`
 * on a Unix system): a sequence of units, each either a character or a
 * piece that is not valid UTF-8. Only the operations the music-file filter
 * relies on are modelled: conversion to a `String`, `PathBuf::push`,
 * `Path::file_name` and `Path::extension`.
 */
module Paths {
  import opened Wrappers

  datatype OsUnit = Ch(c: char) | NonUtf8

  type OsStr = seq<OsUnit>

  const Slash: OsUnit := Ch('/')
  const Dot: OsUnit := Ch('.')

  /** `OsStr::to_str`: the text of `s`, or `None` when some unit is not valid UTF-8. */
  function ToStr(s: OsStr): (r: Option<string>)
    ensures r.Some? <==> forall k :: 0 <= k < |s| ==> s[k].Ch?
    ensures r.Some? ==> |r.value| == |s| && forall k :: 0 <= k < |s| ==> s[k] == Ch(r.value[k])
  {
    if s == [] then Some("")
    else if s[0].NonUtf8? then None
    else match ToStr(s[1..])
      case None => None
      case Some(rest) => Some([s[0].c] + rest)
  }

  /** `PathBuf::from(&str)`: a Rust string is always valid UTF-8. */
  function FromStr(t: string): (s: OsStr)
    ensures |s| == |t|
  {
    seq(|t|, k requires 0 <= k < |t| => Ch(t[k]))
  }

  /** Text survives the trip into a path and back. */
  lemma {:induction false} StrRoundTrip(t: string)
    ensures ToStr(FromStr(t)) == Some(t)
  {
    if t != [] {
      assert FromStr(t)[1..] == FromStr(t[1..]);
      StrRoundTrip(t[1..]);
      assert [t[0]] + t[1..] == t;
    }
  }

  lemma FromStrMembers(t: string, c: char)
    ensures Ch(c) in FromStr(t) <==> c in t
  {
    if c in t {
      var k :| 0 <= k < |t| && t[k] == c;
      assert FromStr(t)[k] == Ch(c);
    }
  }

  lemma FromStrConcat(a: string, b: string)
    ensures FromStr(a + b) == FromStr(a) + FromStr(b)
  {
  }

  lemma FromStrSuffix(t: string, i: nat)
    requires i <= |t|
    ensures FromStr(t)[i..] == FromStr(t[i..])
  {
  }

  predicate IsUtf8(s: OsStr) {
    ToStr(s).Some?
  }

  /**
   * `PathBuf::push` of a relative or absolute component: an absolute `name`
   * replaces the path; otherwise a separator is inserted unless the path is
   * empty or already ends in one.
   */
  function Join(dir: OsStr, name: OsStr): (p: OsStr)
    ensures name != [] && name[0] == Slash ==> p == name
    ensures (name == [] || name[0] != Slash) ==>
      |dir| + |name| <= |p| && p[..|dir|] == dir && p[|p| - |name|..] == name
  {
    if name != [] && name[0] == Slash then name
    else if dir == [] || dir[|dir| - 1] == Slash then dir + name
    else dir + [Slash] + name
  }

  /** Position of the last occurrence of `u` in `s`, if any. */
  function LastIndexOf(s: OsStr, u: OsUnit): (r: Option<nat>)
    ensures r.Some? ==> r.value < |s| && s[r.value] == u && forall k :: r.value < k < |s| ==> s[k] != u
    ensures r.None? ==> forall k :: 0 <= k < |s| ==> s[k] != u
  {
    if s == [] then None
    else if s[|s| - 1] == u then Some(|s| - 1)
    else LastIndexOf(s[..|s| - 1], u)
  }

  /** A name a directory listing can produce: not empty, no separator, not `.` or `..`. */
  predicate IsEntryName(name: OsStr) {
    name != [] && name != [Dot] && name != [Dot, Dot] && Slash !in name
  }

  /**
   * `Path::file_name`: the last component, unless it is `..` (or the path
   * has none). Trailing separators and `.` components, which Rust's
   * component iterator normalises away, are not modelled: listing paths
   * never have them.
   */
  function FileName(p: OsStr): (r: Option<OsStr>)
    ensures r.Some? ==> IsEntryName(r.value)
  {
    var last := match LastIndexOf(p, Slash)
      case Some(i) => p[i + 1..]
      case None => p;
    if IsEntryName(last) then Some(last) else None
  }

  lemma {:induction false} LastIndexAfterSeparator(a: OsStr, b: OsStr)
    requires a != [] && a[|a| - 1] == Slash && Slash !in b
    ensures LastIndexOf(a + b, Slash) == Some(|a| - 1)
  {
    if b != [] {
      var ab := a + b;
      assert ab[..|ab| - 1] == a + b[..|b| - 1];
      LastIndexAfterSeparator(a, b[..|b| - 1]);
    } else {
      assert a + b == a;
    }
  }

  /** The path of a listed entry has that entry's name as its file name. */
  lemma FileNameOfJoin(dir: OsStr, name: OsStr)
    requires IsEntryName(name)
    ensures FileName(Join(dir, name)) == Some(name)
  {
    var p := Join(dir, name);
    if dir == [] {
      assert p == name;
    } else if dir[|dir| - 1] == Slash {
      LastIndexAfterSeparator(dir, name);
      assert p[|dir|..] == name;
    } else {
      LastIndexAfterSeparator(dir + [Slash], name);
      assert p == (dir + [Slash]) + name;
      assert p[|dir| + 1..] == name;
    }
  }

  /**
   * The extension of a file name, as Rust's `rsplit_file_at_dot` splits it:
   * the text after the last dot, except when there is no dot or the only
   * dot starts the name (a hidden file such as `.mp3` has no extension).
   */
  function NameExtension(name: OsStr): (r: Option<OsStr>)
    ensures r.Some? <==> exists i :: 0 < i < |name| && name[i] == Dot
    ensures r.Some? ==> exists i :: 0 < i < |name| && name[i] == Dot && r.value == name[i + 1..] && Dot !in r.value
  {
    match LastIndexOf(name, Dot)
    case None => None
    case Some(i) => if i == 0 then None else Some(name[i + 1..])
  }

  /** The extension starts after the last dot, when that dot is not the first unit. */
  lemma NameExtensionAt(name: OsStr, i: nat)
    requires 0 < i < |name| && name[i] == Dot && Dot !in name[i + 1..]
    ensures NameExtension(name) == Some(name[i + 1..])
  {
    var j :| 0 < j < |name| && name[j] == Dot && NameExtension(name).value == name[j + 1..] && Dot !in NameExtension(name).value;
    assert name[j + 1..] == NameExtension(name).value;
  }

  /** `Path::extension`. */
  function Extension(p: OsStr): (r: Option<OsStr>)
    ensures r.Some? ==> FileName(p).Some?
  {
    match FileName(p)
    case None => None
    case Some(name) => NameExtension(name)
  }

  /** A bare entry name is its own file name. */
  lemma ExtensionOfName(name: OsStr)
    requires IsEntryName(name)
    ensures Extension(name) == NameExtension(name)
  {
    ExtensionOfJoin([], name);
    assert Join([], name) == name;
  }

  lemma ExtensionOfJoin(dir: OsStr, name: OsStr)
    requires IsEntryName(name)
    ensures Extension(Join(dir, name)) == NameExtension(name)
  {
    FileNameOfJoin(dir, name);
  }
}
