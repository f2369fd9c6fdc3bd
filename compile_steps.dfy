/**
 * The compile-step decisions that `build_cxx_node.py` and its older twin
 * `build-cxx-node.py` share line for line: where the Dora libraries are
 * looked for, which prebuilt libraries exist, which generated sources are
 * still compiled, the front insertion of the target include directories,
 * the vendored include directories, the dependency-header names and the
 * link-library lists.
 */
module CompileSteps {
  import opened Wrappers
  import opened Strings
  import opened Paths
  import Bridge
  import Dependencies

  /** The compiler family: `"msvc"`, `"gcc"`, or `None` for a `CXX` that does not look like `cl`. */
  datatype Kind = MsvcKind | GccKind | NoKind

  predicate Distinct<T(==)>(s: seq<T>) {
    forall i, j | 0 <= i < j < |s| :: s[i] != s[j]
  }

  // ---------------------------------------------------------------------
  // Extending a list with the items it does not hold yet

  /** `for y in ys: if y not in xs: xs.append(y)`. */
  function AppendNew<T(==)>(xs: seq<T>, ys: seq<T>): seq<T>
    decreases |ys|
  {
    if ys == [] then xs
    else
      var r := AppendNew(xs, ys[..|ys| - 1]);
      if ys[|ys| - 1] in r then r else r + [ys[|ys| - 1]]
  }

  /** The list keeps its items in front, gains every new item once, and gains nothing else. */
  lemma {:induction false} AppendNewSpec<T>(xs: seq<T>, ys: seq<T>)
    ensures var r := AppendNew(xs, ys);
            |xs| <= |r| <= |xs| + |ys| && r[..|xs|] == xs &&
            (forall k | 0 <= k < |ys| :: ys[k] in r) &&
            (forall k | |xs| <= k < |r| :: r[k] !in xs && r[k] in ys) &&
            (Distinct(xs) ==> Distinct(r))
    decreases |ys|
  {
    if ys != [] {
      var init := ys[..|ys| - 1];
      var y := ys[|ys| - 1];
      AppendNewSpec(xs, init);
      var a := AppendNew(xs, init);
      assert forall k | 0 <= k < |init| :: ys[k] == init[k];
      assert forall x | x in init :: x in ys;
      if y !in a {
        var r := a + [y];
        assert r[..|xs|] == a[..|xs|];
        assert forall k | |xs| <= k < |a| :: r[k] == a[k];
      }
    }
  }

  method AppendAbsent<T(==)>(xs: seq<T>, ys: seq<T>) returns (r: seq<T>)
    ensures r == AppendNew(xs, ys)
  {
    r := xs;
    for i := 0 to |ys|
      invariant r == AppendNew(xs, ys[..i])
    {
      TakeStep(ys, i);
      if ys[i] !in r {
        r := r + [ys[i]];
      }
    }
    TakeAll(ys);
  }

  // ---------------------------------------------------------------------
  // The Dora library directory

  /** The other of the two Cargo profiles. */
  function OtherProfile(profile: string): Option<string> {
    if profile == "debug" then Some("release") else if profile == "release" then Some("debug") else None
  }

  /** `<target>/<profile>`, or the other Cargo profile's directory when that one is missing. */
  function LibDir(fs: FileSystem, target: Path, profile: string): Path {
    var dir := Child(target, profile);
    if fs.Exists(dir) then dir
    else
      match OtherProfile(profile)
      case Some(other) => Child(target, other)
      case None => dir
  }

  /** The library directory sits under the target; it differs from the profile's only for a missing debug/release directory. */
  lemma LibDirFallback(fs: FileSystem, target: Path, profile: string)
    ensures var r := LibDir(fs, target, profile);
            Parent(r) == target &&
            (fs.Exists(Child(target, profile)) ==> r == Child(target, profile)) &&
            (Name(r) != profile <==> !fs.Exists(Child(target, profile)) && OtherProfile(profile).Some?) &&
            (Name(r) != profile ==> {Name(r), profile} == {"debug", "release"})
  {
  }

  // ---------------------------------------------------------------------
  // Prebuilt libraries

  /** `Path.suffix.lower()`. */
  function SuffixLower(p: Path): string {
    Lower(Suffix(Name(p)))
  }

  /** Python's `s[n:]`. */
  function DropPy(s: string, n: nat): (r: string)
    ensures n <= |s| ==> r == s[n..]
    ensures n > |s| ==> r == []
  {
    if n <= |s| then s[n..] else []
  }

  /** The library a file of the library directory provides: `.lib` stems for MSVC, `lib*.a` stems without `lib` otherwise. */
  function LibStem(fs: FileSystem, f: Path, kind: Kind): Option<string> {
    if !fs.IsFile(f) then None
    else if kind == MsvcKind then (if SuffixLower(f) == ".lib" then Some(Stem(Name(f))) else None)
    else if SuffixLower(f) == ".a" && StartsWith(Name(f), "lib") then Some(DropPy(Stem(Name(f)), 3))
    else None
  }

  lemma LowerLength(s: string)
    ensures |Lower(s)| == |s|
  {
  }

  /** A file provides a library exactly when its suffix fits the compiler, and the name is rebuilt from the library name. */
  lemma LibStemSpec(fs: FileSystem, f: Path, kind: Kind)
    ensures kind == MsvcKind ==>
              (LibStem(fs, f, kind).Some? <==> fs.IsFile(f) && SuffixLower(f) == ".lib") &&
              (LibStem(fs, f, kind).Some? ==> Name(f) == LibStem(fs, f, kind).value + Suffix(Name(f)))
    ensures kind != MsvcKind ==>
              (LibStem(fs, f, kind).Some? <==> fs.IsFile(f) && SuffixLower(f) == ".a" && StartsWith(Name(f), "lib")) &&
              (LibStem(fs, f, kind).Some? ==> Name(f) == "lib" + LibStem(fs, f, kind).value + Suffix(Name(f)))
  {
    if kind != MsvcKind && LibStem(fs, f, kind).Some? {
      LowerLength(Suffix(Name(f)));
      LibPrefixStem(Name(f));
    }
  }

  /** A `lib*` name with a suffix keeps the whole `lib` prefix in its stem. */
  lemma LibPrefixStem(n: string)
    requires StartsWith(n, "lib") && Suffix(n) != []
    ensures |Stem(n)| >= 3 && n == "lib" + Stem(n)[3..] + Suffix(n)
  {
    var stem := Stem(n);
    var suf := Suffix(n);
    assert n[|stem|] == suf[0] == '.';
    assert n[..3] == "lib";
    assert forall k | 0 <= k < 3 :: n[k] != '.';
    assert stem[..3] == n[..3];
    assert stem == "lib" + stem[3..];
  }

  /** What each file of the listing provides. */
  function StemsOf(fs: FileSystem, files: seq<Path>, kind: Kind): (r: seq<Option<string>>)
    ensures |r| == |files|
    ensures forall k | 0 <= k < |files| :: r[k] == LibStem(fs, files[k], kind)
  {
    seq(|files|, k requires 0 <= k < |files| => LibStem(fs, files[k], kind))
  }

  /** The names present in a sequence of optional names. */
  function Present(opts: seq<Option<string>>): set<string>
    decreases |opts|
  {
    if opts == [] then {}
    else
      var rest := Present(opts[..|opts| - 1]);
      match opts[|opts| - 1]
      case Some(n) => rest + {n}
      case None => rest
  }

  lemma {:induction false} PresentMembers(opts: seq<Option<string>>, x: string)
    ensures x in Present(opts) <==> exists k | 0 <= k < |opts| :: opts[k] == Some(x)
    decreases |opts|
  {
    if opts != [] {
      var init := opts[..|opts| - 1];
      PresentMembers(init, x);
      assert forall k | 0 <= k < |init| :: opts[k] == init[k];
    }
  }

  /** The set `available_libs`. */
  function AvailableLibs(fs: FileSystem, files: seq<Path>, kind: Kind): set<string> {
    Present(StemsOf(fs, files, kind))
  }

  /** A name is available exactly when some file provides it. */
  lemma AvailableLib(fs: FileSystem, files: seq<Path>, kind: Kind, x: string)
    ensures x in AvailableLibs(fs, files, kind) <==> exists k | 0 <= k < |files| :: LibStem(fs, files[k], kind) == Some(x)
  {
    PresentMembers(StemsOf(fs, files, kind), x);
  }

  /** The loop filling `available_libs` from the files in listing order. */
  method CollectAvailableLibs(fs: FileSystem, libDir: Path, kind: Kind) returns (libs: set<string>)
    ensures libs == AvailableLibs(fs, fs.Entries(libDir), kind)
  {
    libs := {};
    var files := fs.Entries(libDir);
    ghost var stems := StemsOf(fs, files, kind);
    for i := 0 to |files|
      invariant libs == Present(stems[..i])
    {
      TakeStep(stems, i);
      var stem := LibStem(fs, files[i], kind);
      assert stems[..i + 1][i] == stem;
      if stem.Some? {
        libs := libs + {stem.value};
      }
    }
    assert stems[..|files|] == stems;
  }

  // ---------------------------------------------------------------------
  // Generated sources that are still compiled

  /** The crate a generated file belongs to: the name of its grandparent directory. */
  function CrateOf(p: Path): string {
    Name(Parent(Parent(p)))
  }

  /** `s.replace('-', '_')`. */
  function Underscored(s: string): (r: string)
    ensures |r| == |s|
    ensures forall k | 0 <= k < |s| :: r[k] == (if s[k] == '-' then '_' else s[k])
  {
    seq(|s|, k requires 0 <= k < |s| => if s[k] == '-' then '_' else s[k])
  }

  /** A generated file is compiled unless a prebuilt library carries its crate's name, as is or with `_` for `-`. */
  predicate Compiled(avail: set<string>, p: Path) {
    var crate := CrateOf(p);
    crate == "" || (crate !in avail && Underscored(crate) !in avail)
  }

  function KeptGenerated(avail: set<string>, gen: seq<Path>): seq<Path>
    decreases |gen|
  {
    if gen == [] then []
    else
      var rest := KeptGenerated(avail, gen[..|gen| - 1]);
      if Compiled(avail, gen[|gen| - 1]) then rest + [gen[|gen| - 1]] else rest
  }

  /** The files kept are exactly the generated files whose crate has no prebuilt library. */
  lemma {:induction false} KeptGeneratedMembers(avail: set<string>, gen: seq<Path>)
    ensures forall q :: q in KeptGenerated(avail, gen) <==> q in gen && Compiled(avail, q)
    decreases |gen|
  {
    if gen != [] {
      var init := gen[..|gen| - 1];
      KeptGeneratedMembers(avail, init);
      assert forall q :: q in gen <==> q in init || q == gen[|gen| - 1];
    }
  }

  /** Filtering commutes with concatenation, so the kept files stay in their original order. */
  lemma {:induction false} KeptGeneratedConcat(avail: set<string>, a: seq<Path>, b: seq<Path>)
    ensures KeptGenerated(avail, a + b) == KeptGenerated(avail, a) + KeptGenerated(avail, b)
    decreases |b|
  {
    if b == [] {
      assert a + b == a;
    } else {
      var init := b[..|b| - 1];
      KeptGeneratedConcat(avail, a, init);
      assert (a + b)[..|a + b| - 1] == a + init;
      assert (a + b)[|a + b| - 1] == b[|b| - 1];
    }
  }

  /** Without prebuilt libraries every generated file is compiled. */
  lemma {:induction false} NoPrebuiltKeepsAll(gen: seq<Path>)
    ensures KeptGenerated({}, gen) == gen
    decreases |gen|
  {
    if gen != [] {
      var init, last := gen[..|gen| - 1], gen[|gen| - 1];
      NoPrebuiltKeepsAll(init);
      NothingPrebuilt(last);
      KeptGeneratedStep({}, gen);
      SnocSplit(gen);
    }
  }

  lemma SnocSplit<T>(s: seq<T>)
    requires s != []
    ensures s[..|s| - 1] + [s[|s| - 1]] == s
  {
  }

  lemma NothingPrebuilt(p: Path)
    ensures Compiled({}, p)
  {
  }

  lemma KeptGeneratedStep(avail: set<string>, gen: seq<Path>)
    requires gen != [] && Compiled(avail, gen[|gen| - 1])
    ensures KeptGenerated(avail, gen) == KeptGenerated(avail, gen[..|gen| - 1]) + [gen[|gen| - 1]]
  {
  }

  /** A crate's `src/lib.rs.cc` is dropped when its library is prebuilt. */
  lemma PrebuiltCrateDropped(avail: set<string>, gen: seq<Path>, root: Path, crate: string)
    requires crate != "" && (crate in avail || Underscored(crate) in avail)
    ensures root + [crate, "src", "lib.rs.cc"] !in KeptGenerated(avail, gen)
  {
    var p := root + [crate, "src", "lib.rs.cc"];
    assert Parent(Parent(p)) == root + [crate];
    KeptGeneratedMembers(avail, gen);
  }

  /** The loop over the generated files with its two library candidates. */
  method FilterGenerated(avail: set<string>, gen: seq<Path>) returns (filtered: seq<Path>)
    ensures filtered == KeptGenerated(avail, gen)
  {
    filtered := [];
    for i := 0 to |gen|
      invariant filtered == KeptGenerated(avail, gen[..i])
    {
      TakeStep(gen, i);
      var p := gen[i];
      var crate := CrateOf(p);
      var shouldCompile := true;
      if crate != "" {
        var candidates := [crate, Underscored(crate)];
        for j := 0 to 2
          invariant shouldCompile
          invariant forall m | 0 <= m < j :: candidates[m] !in avail
        {
          if candidates[j] in avail {
            assert !Compiled(avail, p);
            shouldCompile := false;
            break;
          }
        }
        assert shouldCompile ==> candidates[0] !in avail && candidates[1] !in avail;
        assert shouldCompile ==> Compiled(avail, p);
        assert !shouldCompile ==> !Compiled(avail, p);
      }
      assert gen[..i + 1][i] == p;
      assert shouldCompile == Compiled(avail, p);
      if shouldCompile {
        filtered := filtered + [p];
      }
    }
    TakeAll(gen);
  }

  // ---------------------------------------------------------------------
  // Dependency headers

  /** `s[:-len(suf)]` when `s` ends with `suf`, else `s`. */
  function DropSuffix(s: string, suf: string): (r: string)
    ensures EndsWith(s, suf) ==> s == r + suf
    ensures !EndsWith(s, suf) ==> r == s
  {
    if EndsWith(s, suf) then s[..|s| - |suf|] else s
  }

  /** The header a crate's `src/lib.rs.h` is copied to: `-cxx`, then `-c`, stripped, and `.h` added. */
  function HeaderName(crate: string): string {
    DropSuffix(DropSuffix(crate, "-cxx"), "-c") + ".h"
  }

  /** The header name is the crate name minus at most `-c` and `-cxx` at its end, plus `.h`. */
  lemma HeaderNameSpec(crate: string)
    ensures var r := HeaderName(crate);
            var base := r[..|r| - 2];
            EndsWith(r, ".h") && r == base + ".h" &&
            (crate == base || crate == base + "-c" || crate == base + "-cxx" || crate == base + "-c-cxx")
    ensures !EndsWith(crate, "-c") && !EndsWith(crate, "-cxx") ==> HeaderName(crate) == crate + ".h"
  {
    var a := DropSuffix(crate, "-cxx");
    var b := DropSuffix(a, "-c");
    var r := b + ".h";
    assert r[..|r| - 2] == b;
    if EndsWith(crate, "-cxx") && EndsWith(a, "-c") {
      assert crate == b + "-c" + "-cxx";
      assert b + "-c" + "-cxx" == b + "-c-cxx";
    }
    if !EndsWith(crate, "-cxx") && !EndsWith(crate, "-c") {
      assert a == crate;
    }
  }

  /** The Dora API crates give the header names their C++ sources include. */
  lemma DoraHeaderNames()
    ensures HeaderName("dora-node-api-cxx") == "dora-node-api.h"
    ensures HeaderName("dora-operator-api-c") == "dora-operator-api.h"
  {
    var n := "dora-node-api-cxx";
    assert n[|n| - 4..] == "-cxx";
    assert DropSuffix(n, "-cxx") == "dora-node-api";
    var m := "dora-operator-api-c";
    assert m[|m| - 4..] != "-cxx";
    assert m[|m| - 2..] == "-c";
    assert DropSuffix(m, "-c") == "dora-operator-api";
    assert "dora-node-api"[13 - 2..] != "-c";
  }

  /** The header each crate of a cxxbridge root contributes: its `src/lib.rs.h`, copied into `deps` under the header name. */
  function CrateHeaderCopies(fs: FileSystem, crates: seq<Path>, deps: Path): seq<(Path, Path)>
    decreases |crates|
  {
    if crates == [] then []
    else
      var rest := CrateHeaderCopies(fs, crates[..|crates| - 1], deps);
      var crate := crates[|crates| - 1];
      var h := crate + ["src", "lib.rs.h"];
      if fs.Exists(h) then rest + [(h, Child(deps, HeaderName(Name(crate))))] else rest
  }

  /** The copies from the profile's cxxbridge root, then from the shared one. */
  function HeaderCopies(fs: FileSystem, target: Path, profile: string, deps: Path): seq<(Path, Path)> {
    var roots := [Bridge.ProfileRoot(target, profile), Bridge.SharedRoot(target)];
    RootHeaderCopies(fs, roots, deps)
  }

  function RootHeaderCopies(fs: FileSystem, roots: seq<Path>, deps: Path): seq<(Path, Path)>
    decreases |roots|
  {
    if roots == [] then []
    else
      var rest := RootHeaderCopies(fs, roots[..|roots| - 1], deps);
      var root := roots[|roots| - 1];
      if fs.Exists(root) then rest + CrateHeaderCopies(fs, fs.Entries(root), deps) else rest
  }

  /** Every copy reads an existing `src/lib.rs.h` and writes a `.h` file directly under `deps`. */
  predicate GoodCopy(fs: FileSystem, c: (Path, Path), deps: Path) {
    fs.Exists(c.0) && |c.0| >= 2 && c.0[|c.0| - 2..] == ["src", "lib.rs.h"] &&
    Parent(c.1) == deps && c.1 == Child(deps, HeaderName(Name(c.0[..|c.0| - 2])))
  }

  lemma {:induction false} CrateHeaderCopiesGood(fs: FileSystem, crates: seq<Path>, deps: Path)
    ensures forall k | 0 <= k < |CrateHeaderCopies(fs, crates, deps)| :: GoodCopy(fs, CrateHeaderCopies(fs, crates, deps)[k], deps)
    decreases |crates|
  {
    if crates != [] {
      CrateHeaderCopiesGood(fs, crates[..|crates| - 1], deps);
      var crate := crates[|crates| - 1];
      var h := crate + ["src", "lib.rs.h"];
      assert h[..|h| - 2] == crate;
      assert h[|h| - 2..] == ["src", "lib.rs.h"];
    }
  }

  lemma {:induction false} RootHeaderCopiesGood(fs: FileSystem, roots: seq<Path>, deps: Path)
    ensures forall k | 0 <= k < |RootHeaderCopies(fs, roots, deps)| :: GoodCopy(fs, RootHeaderCopies(fs, roots, deps)[k], deps)
    decreases |roots|
  {
    if roots != [] {
      RootHeaderCopiesGood(fs, roots[..|roots| - 1], deps);
      CrateHeaderCopiesGood(fs, fs.Entries(roots[|roots| - 1]), deps);
    }
  }

  /** The header copies of both scripts read generated headers and write named headers into `deps`, nowhere else. */
  lemma HeaderCopiesGood(fs: FileSystem, target: Path, profile: string, deps: Path)
    ensures var cs := HeaderCopies(fs, target, profile, deps);
            forall k | 0 <= k < |cs| :: GoodCopy(fs, cs[k], deps) && EndsWith(Name(cs[k].1), ".h")
  {
    var cs := HeaderCopies(fs, target, profile, deps);
    RootHeaderCopiesGood(fs, [Bridge.ProfileRoot(target, profile), Bridge.SharedRoot(target)], deps);
    forall k | 0 <= k < |cs| ensures EndsWith(Name(cs[k].1), ".h") {
      HeaderNameSpec(Name(cs[k].0[..|cs[k].0| - 2]));
    }
  }

  method CopyCrateHeaders(fs: FileSystem, root: Path, deps: Path) returns (copies: seq<(Path, Path)>)
    ensures copies == CrateHeaderCopies(fs, fs.Entries(root), deps)
  {
    copies := [];
    var crates := fs.Entries(root);
    for i := 0 to |crates|
      invariant copies == CrateHeaderCopies(fs, crates[..i], deps)
    {
      TakeStep(crates, i);
      var h := crates[i] + ["src", "lib.rs.h"];
      if fs.Exists(h) {
        copies := copies + [(h, Child(deps, HeaderName(Name(crates[i]))))];
      }
    }
    TakeAll(crates);
  }

  /** The copy loop over both cxxbridge roots; the copies themselves are the caller's effects. */
  method CopyHeaders(fs: FileSystem, target: Path, profile: string, deps: Path) returns (copies: seq<(Path, Path)>)
    ensures copies == HeaderCopies(fs, target, profile, deps)
  {
    var roots := [Bridge.ProfileRoot(target, profile), Bridge.SharedRoot(target)];
    copies := [];
    for i := 0 to |roots|
      invariant copies == RootHeaderCopies(fs, roots[..i], deps)
    {
      TakeStep(roots, i);
      if fs.Exists(roots[i]) {
        var more := CopyCrateHeaders(fs, roots[i], deps);
        copies := copies + more;
      }
    }
    TakeAll(roots);
  }

  // ---------------------------------------------------------------------
  // Include directories

  /** Python's `list.insert(i, x)`. */
  function PyInsert<T>(s: seq<T>, i: nat, x: T): (r: seq<T>)
    ensures |r| == |s| + 1
  {
    if i <= |s| then s[..i] + [x] + s[i..] else s + [x]
  }

  /** The project include directory goes first and the dependency-header directory second, unless already listed. */
  function WithTargetIncludes(incs: seq<Path>, project: Path, deps: Path): seq<Path> {
    var a := if project in incs then incs else PyInsert(incs, 0, project);
    if deps in a then a else PyInsert(a, 1, deps)
  }

  lemma TargetIncludesOrder(incs: seq<Path>, project: Path, deps: Path)
    requires project != deps
    ensures var r := WithTargetIncludes(incs, project, deps);
            (project !in incs ==> r[0] == project) &&
            (deps !in incs ==> |r| >= 2 && r[1] == deps) &&
            (forall x :: x in r <==> x in incs || x == project || x == deps) &&
            |incs| <= |r| <= |incs| + 2 &&
            (Distinct(incs) ==> Distinct(r))
  {
    var a := if project in incs then incs else PyInsert(incs, 0, project);
    if project !in incs {
      InsertFront(incs, project);
    }
    if deps !in a {
      InsertSecond(a, deps);
    }
  }

  lemma InsertFront(s: seq<Path>, x: Path)
    requires x !in s
    ensures var r := PyInsert(s, 0, x);
            r == [x] + s && (forall y :: y in r <==> y in s || y == x) && (Distinct(s) ==> Distinct(r))
  {
    assert s[..0] == [] && s[0..] == s;
  }

  lemma InsertSecond(s: seq<Path>, x: Path)
    requires x !in s && |s| >= 1
    ensures var r := PyInsert(s, 1, x);
            r[0] == s[0] && r[1] == x && (forall y :: y in r <==> y in s || y == x) && (Distinct(s) ==> Distinct(r))
  {
    var r := s[..1] + [x] + s[1..];
    assert PyInsert(s, 1, x) == r;
    assert s == s[..1] + s[1..];
    assert forall k | 2 <= k < |r| :: r[k] == s[k - 1];
    if Distinct(s) {
      forall i, j | 0 <= i < j < |r| ensures r[i] != r[j] {
        if i == 1 {
          assert r[j] == s[j - 1];
        } else if j == 1 {
          assert r[i] == s[0];
        } else if i == 0 {
          assert r[j] == s[j - 1];
        } else {
          assert r[i] == s[i - 1];
        }
      }
    }
  }

  /** The directories of the `operator.h` files found under a vendored Dora checkout. */
  function Parents(hits: seq<Path>): (r: seq<Path>)
    ensures |r| == |hits|
    ensures forall k | 0 <= k < |hits| :: r[k] == Parent(hits[k])
  {
    seq(|hits|, k requires 0 <= k < |hits| => Parent(hits[k]))
  }

  /** The C API directory of a Dora checkout. */
  function ApisC(loc: Path): Path {
    loc + ["apis", "c"]
  }

  /**
   * Companion include directories from the first Dora checkout that exists:
   * the directories holding `operator.h` (`rglob` gives the hits), then
   * `apis/c` when present, each only when not listed yet.
   */
  function VendorIncludes(fs: FileSystem, locations: seq<Path>, rglob: Path -> seq<Path>, incs: seq<Path>): seq<Path> {
    match Dependencies.FirstExisting(fs, locations)
    case None => incs
    case Some(loc) => CheckoutIncludes(fs, loc, rglob(loc), incs)
  }

  /** What one checkout contributes, given the `operator.h` files found in it. */
  function CheckoutIncludes(fs: FileSystem, loc: Path, hits: seq<Path>, incs: seq<Path>): seq<Path> {
    var a := AppendNew(incs, Parents(hits));
    if fs.Exists(ApisC(loc)) then AppendNew(a, [ApisC(loc)]) else a
  }

  lemma CheckoutIncludesSpec(fs: FileSystem, loc: Path, hits: seq<Path>, incs: seq<Path>)
    ensures var r := CheckoutIncludes(fs, loc, hits, incs);
            |incs| <= |r| && r[..|incs|] == incs && (Distinct(incs) ==> Distinct(r)) &&
            forall k | |incs| <= k < |r| :: r[k] in Parents(hits) || r[k] == ApisC(loc)
  {
    var ps := Parents(hits);
    AppendNewSpec(incs, ps);
    var a := AppendNew(incs, ps);
    if fs.Exists(ApisC(loc)) {
      AppendNewSpec(a, [ApisC(loc)]);
      var r := AppendNew(a, [ApisC(loc)]);
      assert r[..|incs|] == r[..|a|][..|incs|];
      assert forall k | |incs| <= k < |a| :: r[k] == a[k];
    }
  }

  /** The discovered directories stay first and duplicate-free; only the first existing checkout contributes. */
  lemma VendorIncludesSpec(fs: FileSystem, locations: seq<Path>, rglob: Path -> seq<Path>, incs: seq<Path>)
    ensures var r := VendorIncludes(fs, locations, rglob, incs);
            |incs| <= |r| && r[..|incs|] == incs && (Distinct(incs) ==> Distinct(r))
    ensures (forall k | 0 <= k < |locations| :: !fs.Exists(locations[k])) ==> VendorIncludes(fs, locations, rglob, incs) == incs
    ensures var r := VendorIncludes(fs, locations, rglob, incs);
            var loc := Dependencies.FirstExisting(fs, locations);
            forall k | |incs| <= k < |r| :: loc.Some? && (r[k] in Parents(rglob(loc.value)) || r[k] == ApisC(loc.value))
  {
    match Dependencies.FirstExisting(fs, locations)
    case None =>
    case Some(loc) =>
      CheckoutIncludesSpec(fs, loc, rglob(loc), incs);
  }

  /** The vendored-checkout loop: the first existing location is used, then the loop stops. */
  method AddVendorIncludes(fs: FileSystem, locations: seq<Path>, rglob: Path -> seq<Path>, incs: seq<Path>)
    returns (r: seq<Path>)
    ensures r == VendorIncludes(fs, locations, rglob, incs)
  {
    r := incs;
    for i := 0 to |locations|
      invariant forall j | 0 <= j < i :: !fs.Exists(locations[j])
    {
      var loc := locations[i];
      if fs.Exists(loc) {
        FirstExistingAt(fs, locations, i);
        r := AppendAbsent(r, Parents(rglob(loc)));
        if fs.Exists(ApisC(loc)) {
          if ApisC(loc) !in r {
            r := r + [ApisC(loc)];
          }
        }
        assert AppendNew(AppendNew(incs, Parents(rglob(loc))), [ApisC(loc)]) ==
               (var a := AppendNew(incs, Parents(rglob(loc))); if ApisC(loc) in a then a else a + [ApisC(loc)]) by {
          assert [ApisC(loc)][..0] == [];
        }
        assert r == CheckoutIncludes(fs, loc, rglob(loc), incs);
        return;
      }
    }
  }

  lemma FirstExistingAt(fs: FileSystem, ps: seq<Path>, i: nat)
    requires i < |ps| && fs.Exists(ps[i]) && forall j | 0 <= j < i :: !fs.Exists(ps[j])
    ensures Dependencies.FirstExisting(fs, ps) == Some(ps[i])
  {
    var r := Dependencies.FirstExisting(fs, ps);
    var k :| 0 <= k < |ps| && ps[k] == r.value && forall j | 0 <= j < k :: !fs.Exists(ps[j]);
    assert k == i;
  }

  // ---------------------------------------------------------------------
  // MSVC link libraries

  /** A `.lib` file whose lower-cased name marks it as a Dora library. */
  predicate MsvcDoraLib(fs: FileSystem, f: Path) {
    var n := Lower(Name(f));
    fs.IsFile(f) && SuffixLower(f) == ".lib" &&
    (Contains(n, "dora_node_api_cxx") || StartsWith(n, "libdora") || StartsWith(n, "dora"))
  }

  /** The names of the Dora `.lib` files, in listing order. */
  function DoraLibFiles(fs: FileSystem, files: seq<Path>): seq<string>
    decreases |files|
  {
    if files == [] then []
    else
      var rest := DoraLibFiles(fs, files[..|files| - 1]);
      if MsvcDoraLib(fs, files[|files| - 1]) then rest + [Name(files[|files| - 1])] else rest
  }

  lemma {:induction false} DoraLibFilesMembers(fs: FileSystem, files: seq<Path>)
    ensures forall x :: x in DoraLibFiles(fs, files) <==> exists k | 0 <= k < |files| :: MsvcDoraLib(fs, files[k]) && Name(files[k]) == x
    decreases |files|
  {
    if files != [] {
      var init := files[..|files| - 1];
      DoraLibFilesMembers(fs, init);
      assert forall k | 0 <= k < |init| :: files[k] == init[k];
    }
  }

  const DefaultMsvcLib := "dora_node_api_cxx.lib"
  const Winsock := "ws2_32.lib"
  const SystemLibs: seq<string> := ["userenv.lib", "bcrypt.lib", "ole32.lib", "oleaut32.lib", "advapi32.lib", "ntdll.lib", "shell32.lib"]

  /** The Dora libraries found (or the default one), then dependency and configured libraries, winsock, and the missing system libraries. */
  function MsvcLibs(found: seq<string>, depLibs: seq<string>, cfgLibs: seq<string>): seq<string> {
    var dora := if found == [] then [DefaultMsvcLib] else found;
    AppendNew(dora + depLibs + cfgLibs + [Winsock], SystemLibs)
  }

  lemma MsvcLibsSpec(found: seq<string>, depLibs: seq<string>, cfgLibs: seq<string>)
    ensures var r := MsvcLibs(found, depLibs, cfgLibs);
            var dora := if found == [] then [DefaultMsvcLib] else found;
            var n := |dora| + |depLibs| + |cfgLibs|;
            n < |r| &&
            (found == [] ==> r[0] == DefaultMsvcLib) &&
            r[..|dora|] == dora &&
            r[|dora|..|dora| + |depLibs|] == depLibs &&
            r[|dora| + |depLibs|..n] == cfgLibs &&
            r[n] == Winsock &&
            (forall k | 0 <= k < |SystemLibs| :: SystemLibs[k] in r) &&
            (forall k | n < k < |r| :: r[k] in SystemLibs)
  {
    var dora := if found == [] then [DefaultMsvcLib] else found;
    var head := dora + depLibs + cfgLibs + [Winsock];
    AppendNewSpec(head, SystemLibs);
    ConcatSlices(dora, depLibs, cfgLibs, Winsock);
    var n := |dora| + |depLibs| + |cfgLibs|;
    PrefixSlices(AppendNew(head, SystemLibs), head, |dora|, |dora| + |depLibs|, n);
  }

  lemma ConcatSlices<T>(a: seq<T>, b: seq<T>, c: seq<T>, w: T)
    ensures var h := a + b + c + [w];
            |h| == |a| + |b| + |c| + 1 && h[..|a|] == a && h[|a|..|a| + |b|] == b &&
            h[|a| + |b|..|a| + |b| + |c|] == c && h[|a| + |b| + |c|] == w
  {
  }

  lemma PrefixSlices<T>(r: seq<T>, h: seq<T>, i: nat, j: nat, n: nat)
    requires |h| <= |r| && r[..|h|] == h && i <= j <= n < |h|
    ensures r[..i] == h[..i] && r[i..j] == h[i..j] && r[j..n] == h[j..n] && r[n] == h[n]
  {
    assert forall k | 0 <= k < |h| :: r[k] == h[k];
  }

  /** The MSVC library loop over the library directory, then the fixed additions. */
  method CollectMsvcLibs(fs: FileSystem, libDir: Path, depLibs: seq<string>, cfgLibs: seq<string>) returns (libs: seq<string>)
    ensures libs == MsvcLibs(DoraLibFiles(fs, fs.Entries(libDir)), depLibs, cfgLibs)
  {
    libs := FindDoraLibs(fs, fs.Entries(libDir));
    if libs == [] {
      libs := [DefaultMsvcLib];
    }
    libs := libs + depLibs;
    libs := libs + cfgLibs;
    libs := libs + [Winsock];
    libs := AppendAbsent(libs, SystemLibs);
  }

  /** The loop over the library directory that collects the Dora `.lib` files. */
  method FindDoraLibs(fs: FileSystem, files: seq<Path>) returns (found: seq<string>)
    ensures found == DoraLibFiles(fs, files)
  {
    found := [];
    for i := 0 to |files|
      invariant found == DoraLibFiles(fs, files[..i])
    {
      TakeStep(files, i);
      if MsvcDoraLib(fs, files[i]) {
        found := found + [Name(files[i])];
      }
    }
    TakeAll(files);
  }

  // ---------------------------------------------------------------------
  // GCC link libraries

  /** `s.split(c)[0]`: everything before the first `c`. */
  function FirstField(s: string, c: char): (r: string)
    ensures r == SplitOn(s, c)[0]
  {
    if c in s then s[..IndexOfChar(s, c)] else s
  }

  /** The `-l` name of a library file: `lib` dropped, then everything from the first dot. */
  function LinkName(n: string): string {
    FirstField(if StartsWith(n, "lib") then n[3..] else n, '.')
  }

  /** Only the two Dora API archives are linked. */
  predicate ApiArchive(fs: FileSystem, f: Path) {
    fs.IsFile(f) && (Name(f) == "libdora_node_api_cxx.a" || Name(f) == "libdora_node_api_c.a")
  }

  const CxxApi := "dora_node_api_cxx"
  const CApi := "dora_node_api_c"

  lemma FirstFieldAt(s: string, i: nat)
    requires i < |s| && s[i] == '.' && forall k | 0 <= k < i :: s[k] != '.'
    ensures FirstField(s, '.') == s[..i]
  {
    var j := IndexOfChar(s, '.');
  }

  /** The two archives link as `dora_node_api_cxx` and `dora_node_api_c`. */
  lemma ApiLinkNames()
    ensures LinkName("libdora_node_api_cxx.a") == CxxApi
    ensures LinkName("libdora_node_api_c.a") == CApi
  {
    var a := "libdora_node_api_cxx.a";
    assert a[..3] == "lib";
    var a3 := a[3..];
    assert a3 == "dora_node_api_cxx.a";
    FirstFieldAt(a3, 17);
    assert a3[..17] == CxxApi;
    var b := "libdora_node_api_c.a";
    assert b[..3] == "lib";
    var b3 := b[3..];
    assert b3 == "dora_node_api_c.a";
    FirstFieldAt(b3, 15);
    assert b3[..15] == CApi;
  }

  /** The link names of the API archives in one directory, in listing order, repetitions included. */
  function ArchiveNames(fs: FileSystem, files: seq<Path>): seq<string>
    decreases |files|
  {
    if files == [] then []
    else
      var rest := ArchiveNames(fs, files[..|files| - 1]);
      if ApiArchive(fs, files[|files| - 1]) then rest + [LinkName(Name(files[|files| - 1]))] else rest
  }

  /** The `-L` flags: one per existing library directory. */
  function SearchFlags(fs: FileSystem, dirs: seq<Path>): seq<string>
    decreases |dirs|
  {
    if dirs == [] then []
    else
      var rest := SearchFlags(fs, dirs[..|dirs| - 1]);
      var d := dirs[|dirs| - 1];
      if fs.Exists(d) then rest + ["-L", PathString(d)] else rest
  }

  /** The directories searched: the library directory and its `deps`. */
  function GccLibDirs(base: Path): seq<Path> {
    [base, Child(base, "deps")]
  }

  /** `linked`: the link names of the archives in the existing directories, without repetitions, in order of discovery. */
  function DirsLinked(fs: FileSystem, dirs: seq<Path>): seq<string>
    decreases |dirs|
  {
    if dirs == [] then []
    else
      var rest := DirsLinked(fs, dirs[..|dirs| - 1]);
      var d := dirs[|dirs| - 1];
      if fs.Exists(d) then AppendNew(rest, ArchiveNames(fs, fs.Entries(d))) else rest
  }

  function GccLinked(fs: FileSystem, base: Path): seq<string> {
    DirsLinked(fs, GccLibDirs(base))
  }

  lemma {:induction false} ArchiveNamesApi(fs: FileSystem, files: seq<Path>)
    ensures forall k | 0 <= k < |ArchiveNames(fs, files)| :: ArchiveNames(fs, files)[k] in {CxxApi, CApi}
    decreases |files|
  {
    if files != [] {
      ArchiveNamesApi(fs, files[..|files| - 1]);
      ApiLinkNames();
    }
  }

  lemma {:induction false} DirsLinkedApi(fs: FileSystem, dirs: seq<Path>)
    ensures var r := DirsLinked(fs, dirs);
            Distinct(r) && forall k | 0 <= k < |r| :: r[k] == CxxApi || r[k] == CApi
    decreases |dirs|
  {
    if dirs != [] {
      var rest := DirsLinked(fs, dirs[..|dirs| - 1]);
      DirsLinkedApi(fs, dirs[..|dirs| - 1]);
      var d := dirs[|dirs| - 1];
      if fs.Exists(d) {
        var names := ArchiveNames(fs, fs.Entries(d));
        ArchiveNamesApi(fs, fs.Entries(d));
        AppendNewSpec(rest, names);
        var r := AppendNew(rest, names);
        assert forall k | 0 <= k < |rest| :: r[k] == rest[k];
      }
    }
  }

  lemma ThreeDistinct(r: seq<string>)
    requires |r| > 2 && Distinct(r)
    ensures r[0] != r[1] && r[0] != r[2] && r[1] != r[2]
  {
  }

  /** Only the two API libraries are linked, each at most once. */
  lemma GccLinkedSpec(fs: FileSystem, base: Path)
    ensures var r := GccLinked(fs, base);
            Distinct(r) && |r| <= 2 && forall k | 0 <= k < |r| :: r[k] == CxxApi || r[k] == CApi
  {
    DirsLinkedApi(fs, GccLibDirs(base));
    var r := GccLinked(fs, base);
    if |r| > 2 {
      ThreeDistinct(r);
      assert false;
    }
  }

  /** The scan of one library directory for the API archives. */
  method LinkArchives(fs: FileSystem, d: Path, linked: seq<string>) returns (r: seq<string>)
    ensures r == AppendNew(linked, ArchiveNames(fs, fs.Entries(d)))
  {
    var files := fs.Entries(d);
    r := linked;
    for i := 0 to |files|
      invariant r == AppendNew(linked, ArchiveNames(fs, files[..i]))
    {
      TakeStep(files, i);
      var f := files[i];
      if ApiArchive(fs, f) {
        var b := Name(f);
        if StartsWith(b, "lib") {
          b := b[3..];
        }
        b := FirstField(b, '.');
        var names := ArchiveNames(fs, files[..i]);
        assert ArchiveNames(fs, files[..i + 1]) == names + [b];
        assert (names + [b])[..|names|] == names;
        if b !in r {
          r := r + [b];
        }
      }
    }
    TakeAll(files);
  }

  /** The GCC library loop: a `-L` flag per existing directory and the API libraries it holds. */
  method CollectGccLinked(fs: FileSystem, base: Path) returns (flags: seq<string>, linked: seq<string>)
    ensures flags == SearchFlags(fs, GccLibDirs(base))
    ensures linked == GccLinked(fs, base)
  {
    var dirs := GccLibDirs(base);
    flags := [];
    linked := [];
    for i := 0 to |dirs|
      invariant flags == SearchFlags(fs, dirs[..i])
      invariant linked == DirsLinked(fs, dirs[..i])
    {
      TakeStep(dirs, i);
      var d := dirs[i];
      if fs.Exists(d) {
        flags := flags + ["-L", PathString(d)];
        linked := LinkArchives(fs, d, linked);
      }
    }
    TakeAll(dirs);
  }
}
