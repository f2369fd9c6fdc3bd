/**
 * Paths and the file system as seen by the build tool: a path is the
 * sequence of its components from the root, and the file system is an
 * abstract snapshot (which paths exist, which are directories, and the
 * names each directory lists, in listing order).
 */
module Paths {
  import opened Strings

  type Path = seq<string>

  /** pathlib's `p / name` for a single component. */
  function Child(p: Path, name: string): (r: Path)
    ensures |r| == |p| + 1 && r[..|p|] == p && r[|p|] == name
  {
    p + [name]
  }

  /** `str(p)`: an absolute POSIX path string. */
  function PathString(p: Path): (r: string)
    ensures r != [] && r[0] == '/'
  {
    if p == [] then "/" else "/" + JoinWith(p, '/')
  }

  /** The loop step `s[..i + 1][..i] == s[..i]`, stated once for any element type. */
  lemma TakeStep<T>(s: seq<T>, i: nat)
    requires i < |s|
    ensures s[..i + 1][..i] == s[..i] && s[..i + 1] == s[..i] + [s[i]]
  {
  }

  /** The loop exit `s[..|s|] == s`. */
  lemma TakeAll<T>(s: seq<T>)
    ensures s[..|s|] == s
  {
  }

  /** The last element of a concatenation and what comes before it. */
  lemma ConcatLast<T>(a: seq<T>, b: seq<T>)
    requires b != []
    ensures (a + b)[..|a + b| - 1] == a + b[..|b| - 1] && (a + b)[|a + b| - 1] == b[|b| - 1]
  {
  }

  /** Two components appended one after the other. */
  lemma AppendTwo<T>(p: seq<T>, a: T, b: T)
    ensures p + [a] + [b] == p + [a, b]
  {
  }

  /** A third component appended after two. */
  lemma AppendThird<T>(p: seq<T>, a: T, b: T, c: T)
    ensures p + [a, b] + [c] == p + [a, b, c]
  {
  }

  /** pathlib's `p.name`: the last component, or "" for the root. */
  function Name(p: Path): (r: string)
    ensures p != [] ==> r == p[|p| - 1]
  {
    if p == [] then "" else p[|p| - 1]
  }

  /** pathlib's `p.parent`; the root is its own parent. */
  function Parent(p: Path): (r: Path)
    ensures p != [] ==> Child(r, Name(p)) == p
    ensures p == [] ==> r == []
  {
    if p == [] then [] else p[..|p| - 1]
  }

  /** The components of a `/`-separated string, without empty and `.` parts. */
  function Components(s: string): (r: seq<string>)
    ensures forall k | 0 <= k < |r| :: r[k] != "" && r[k] != "." && '/' !in r[k]
  {
    Clean(SplitOn(s, '/'))
  }

  function Clean(parts: seq<string>): (r: seq<string>)
    requires forall k | 0 <= k < |parts| :: '/' !in parts[k]
    ensures forall k | 0 <= k < |r| :: r[k] != "" && r[k] != "." && '/' !in r[k]
    ensures |r| <= |parts|
  {
    if parts == [] then []
    else if parts[0] == "" || parts[0] == "." then Clean(parts[1..])
    else [parts[0]] + Clean(parts[1..])
  }

  /** pathlib's `base / s`: an absolute `s` replaces the base. */
  function Join(base: Path, s: string): (r: Path)
    ensures StartsWith(s, "/") ==> r == Components(s)
    ensures !StartsWith(s, "/") ==> r == base + Components(s)
  {
    if StartsWith(s, "/") then Components(s) else base + Components(s)
  }

  /** The index of the last `.` in `s`, or -1. */
  function LastDot(s: string): (i: int)
    ensures -1 <= i < |s|
    ensures i >= 0 ==> s[i] == '.' && forall k | i < k < |s| :: s[k] != '.'
    ensures i == -1 ==> forall k | 0 <= k < |s| :: s[k] != '.'
  {
    if s == [] then -1
    else if s[|s| - 1] == '.' then |s| - 1
    else LastDot(s[..|s| - 1])
  }

  /** pathlib's `suffix`: from the last dot, unless that dot starts or ends the name. */
  function Suffix(name: string): (r: string)
    ensures r == [] || (r[0] == '.' && EndsWith(name, r) && |r| < |name| && |r| >= 2)
  {
    var i := LastDot(name);
    if 0 < i < |name| - 1 then name[i..] else ""
  }

  /** pathlib's `stem`: the name without its suffix. */
  function Stem(name: string): (r: string)
    ensures r + Suffix(name) == name
  {
    name[..|name| - |Suffix(name)|]
  }

  /** A snapshot of the file system. */
  datatype FileSystem = FileSystem(files: set<Path>, dirs: set<Path>, listing: map<Path, seq<string>>) {
    predicate Exists(p: Path) {
      p in files || p in dirs
    }

    predicate IsDir(p: Path) {
      p in dirs
    }

    predicate IsFile(p: Path) {
      p in files
    }

    /** The entries of `p` in listing order (`iterdir`); nothing for a missing directory. */
    function Entries(p: Path): (r: seq<Path>)
      ensures forall k | 0 <= k < |r| :: |r[k]| == |p| + 1 && r[k][..|p|] == p
    {
      if p in dirs && p in listing then ChildrenOf(p, listing[p]) else []
    }
  }

  function ChildrenOf(p: Path, names: seq<string>): (r: seq<Path>)
    ensures |r| == |names|
    ensures forall k | 0 <= k < |r| :: r[k] == Child(p, names[k])
  {
    if names == [] then [] else [Child(p, names[0])] + ChildrenOf(p, names[1..])
  }

  /** pathlib's `p.glob("*<ext>")`: entries whose name ends with `ext`, in listing order (hidden ones too). */
  function GlobExt(fs: FileSystem, p: Path, ext: string): seq<Path> {
    FilterExt(fs.Entries(p), ext)
  }

  function FilterExt(ps: seq<Path>, ext: string): seq<Path> {
    if ps == [] then []
    else
      var rest := FilterExt(ps[1..], ext);
      if EndsWith(Name(ps[0]), ext) then [ps[0]] + rest else rest
  }

  /** The glob returns exactly the entries whose name ends with the extension. */
  lemma GlobExtMatches(fs: FileSystem, p: Path, ext: string)
    ensures var r := GlobExt(fs, p, ext);
            forall q :: q in r <==> q in fs.Entries(p) && EndsWith(Name(q), ext)
  {
    FilterExtMatches(fs.Entries(p), ext);
  }

  lemma {:induction false} FilterExtMatches(ps: seq<Path>, ext: string)
    ensures forall q :: q in FilterExt(ps, ext) <==> q in ps && EndsWith(Name(q), ext)
    decreases |ps|
  {
    if ps != [] {
      FilterExtMatches(ps[1..], ext);
      assert forall q :: q in ps <==> q == ps[0] || q in ps[1..];
    }
  }
}
