/**
 * Discovery of the cxxbridge output of a Dora build: the include
 * directories and the generated C++ translation units found under a Cargo
 * target directory, each list free of duplicates and in the order of first
 * discovery. Both build scripts use this same discovery.
 */
module Bridge {
  import opened Paths

  /** What a scan found: include directories and generated `.cc` files, in discovery order. */
  datatype Found = Found(includes: seq<Path>, sources: seq<Path>) {
    function Then(other: Found): (r: Found)
      ensures r.includes == includes + other.includes
      ensures r.sources == sources + other.sources
    {
      Found(includes + other.includes, sources + other.sources)
    }
  }

  const NothingFound := Found([], [])

  // ---------------------------------------------------------------------
  // What each candidate location contributes

  /**
   * A crate directory under a cxxbridge root: the crate and its `src`
   * directory as include directories, then `src/lib.rs.cc` and the `.cc`
   * files at the crate root as sources. Entries that are not directories
   * contribute nothing.
   */
  function CrateFound(fs: FileSystem, crate: Path): Found
  {
    if !fs.IsDir(crate) then NothingFound
    else
      var src := Child(crate, "src");
      var cc := Child(src, "lib.rs.cc");
      Found([crate] + (if fs.Exists(src) then [src] else []),
            (if fs.Exists(src) && fs.Exists(cc) then [cc] else []) + GlobExt(fs, crate, ".cc"))
  }

  /** The crates of a root, scanned in listing order. */
  function CratesFound(fs: FileSystem, crates: seq<Path>): Found
    decreases |crates|
  {
    if crates == [] then NothingFound
    else CratesFound(fs, crates[..|crates| - 1]).Then(CrateFound(fs, crates[|crates| - 1]))
  }

  /** A cxxbridge root: the root itself, then its crates; nothing when it is missing. */
  function RootFound(fs: FileSystem, root: Path): (r: Found)
    ensures fs.Exists(root) ==> r.includes != [] && r.includes[0] == root
    ensures !fs.Exists(root) ==> r == NothingFound
  {
    if fs.Exists(root) then Found([root], []).Then(CratesFound(fs, fs.Entries(root))) else NothingFound
  }

  /** A crate under `build/<entry>/out/cxxbridge/crate`: only its `src` directory and `src/lib.rs.cc`. */
  function OutCrateFound(fs: FileSystem, crate: Path): Found {
    var src := Child(crate, "src");
    var cc := Child(src, "lib.rs.cc");
    if fs.Exists(src) then Found([src], if fs.Exists(cc) then [cc] else []) else NothingFound
  }

  function OutCratesFound(fs: FileSystem, crates: seq<Path>): Found
    decreases |crates|
  {
    if crates == [] then NothingFound
    else OutCratesFound(fs, crates[..|crates| - 1]).Then(OutCrateFound(fs, crates[|crates| - 1]))
  }

  /** The generated crates directory of one build-script output directory. */
  function OutDir(entry: Path): Path {
    entry + ["out", "cxxbridge", "crate"]
  }

  function BuildEntryFound(fs: FileSystem, entry: Path): Found {
    if fs.Exists(OutDir(entry)) then OutCratesFound(fs, fs.Entries(OutDir(entry))) else NothingFound
  }

  function BuildEntriesFound(fs: FileSystem, entries: seq<Path>): Found
    decreases |entries|
  {
    if entries == [] then NothingFound
    else BuildEntriesFound(fs, entries[..|entries| - 1]).Then(BuildEntryFound(fs, entries[|entries| - 1]))
  }

  /** The fallback under `<target>/<profile>/build`. */
  function FallbackFound(fs: FileSystem, buildRoot: Path): Found {
    if fs.Exists(buildRoot) then BuildEntriesFound(fs, fs.Entries(buildRoot)) else NothingFound
  }

  function ProfileRoot(target: Path, profile: string): Path {
    target + [profile, "cxxbridge"]
  }

  function SharedRoot(target: Path): Path {
    Child(target, "cxxbridge")
  }

  function BuildRoot(target: Path, profile: string): Path {
    target + [profile, "build"]
  }

  /**
   * Everything discovered, before duplicates are removed: the profile's
   * cxxbridge root, then the shared one, then the build-script fallback.
   */
  function RawFound(fs: FileSystem, target: Path, profile: string): Found {
    RootFound(fs, ProfileRoot(target, profile))
      .Then(RootFound(fs, SharedRoot(target)))
      .Then(FallbackFound(fs, BuildRoot(target, profile)))
  }

  // ---------------------------------------------------------------------
  // Order-preserving removal of duplicates

  /** The items of `s` without repetitions, each kept where it first occurs. */
  function Unique(s: seq<Path>): (r: seq<Path>)
    ensures forall x :: x in r <==> x in s
    ensures forall i, j | 0 <= i < j < |r| :: r[i] != r[j]
    ensures |r| <= |s|
    decreases |s|
  {
    if s == [] then []
    else
      var init := s[..|s| - 1];
      var last := s[|s| - 1];
      assert forall x :: x in s <==> x in init || x == last;
      if last in init then Unique(init) else Unique(init) + [last]
  }

  /** The index at which `x` first occurs in `s`. */
  function FirstIndex(s: seq<Path>, x: Path): (i: nat)
    requires x in s
    ensures i < |s| && s[i] == x && x !in s[..i]
    decreases |s|
  {
    var init := s[..|s| - 1];
    if x in init then
      var i := FirstIndex(init, x);
      assert s[..i] == init[..i];
      i
    else |s| - 1
  }

  /** `Unique` keeps the order of first occurrences. */
  /** The items of `r`, all drawn from `s`, appear in the order of their first occurrences in `s`. */
  predicate InFirstOrder(s: seq<Path>, r: seq<Path>)
    requires forall x | x in r :: x in s
  {
    forall i, j | 0 <= i < j < |r| :: FirstIndex(s, r[i]) < FirstIndex(s, r[j])
  }

  lemma {:induction false} UniqueKeepsFirstOrder(s: seq<Path>)
    ensures InFirstOrder(s, Unique(s))
    decreases |s|
  {
    if s != [] {
      var init := s[..|s| - 1];
      var last := s[|s| - 1];
      UniqueKeepsFirstOrder(init);
      var r0 := Unique(init);
      var r := Unique(s);
      assert InFirstOrder(init, r0);
      forall x | x in init ensures FirstIndex(s, x) == FirstIndex(init, x) {
        FirstIndexOfInit(s, x);
      }
      if last in init {
        assert r == r0;
        forall i, j | 0 <= i < j < |r| ensures FirstIndex(s, r[i]) < FirstIndex(s, r[j]) {
          assert r0[i] in init && r0[j] in init;
          assert FirstIndex(s, r0[i]) == FirstIndex(init, r0[i]);
          assert FirstIndex(s, r0[j]) == FirstIndex(init, r0[j]);
          assert FirstIndex(init, r0[i]) < FirstIndex(init, r0[j]);
        }
      } else {
        assert r == r0 + [last];
        forall i, j | 0 <= i < j < |r| ensures FirstIndex(s, r[i]) < FirstIndex(s, r[j]) {
          assert r[i] == r0[i] && r0[i] in init;
          if j < |r0| {
            assert r[j] == r0[j] && r0[j] in init;
            assert FirstIndex(s, r0[i]) == FirstIndex(init, r0[i]);
            assert FirstIndex(s, r0[j]) == FirstIndex(init, r0[j]);
            assert FirstIndex(init, r0[i]) < FirstIndex(init, r0[j]);
          } else {
            assert r[j] == last;
            assert FirstIndex(s, last) == |s| - 1;
            assert FirstIndex(init, r0[i]) < |init|;
          }
        }
      }
    }
  }

  lemma FirstIndexOfInit(s: seq<Path>, x: Path)
    requires s != [] && x in s[..|s| - 1]
    ensures FirstIndex(s, x) == FirstIndex(s[..|s| - 1], x)
  {
  }

  /** A list with no repetitions is left as it is. */
  lemma {:induction false} UniqueOfDistinct(s: seq<Path>)
    requires forall i, j | 0 <= i < j < |s| :: s[i] != s[j]
    ensures Unique(s) == s
    decreases |s|
  {
    if s != [] {
      var init := s[..|s| - 1];
      UniqueOfDistinct(init);
      assert s[|s| - 1] !in init;
      assert init + [s[|s| - 1]] == s;
    }
  }

  /** The first item found stays first. */
  lemma {:induction false} UniqueHead(s: seq<Path>)
    requires s != []
    ensures Unique(s) != [] && Unique(s)[0] == s[0]
    decreases |s|
  {
    var init := s[..|s| - 1];
    if init != [] {
      UniqueHead(init);
      assert init[0] == s[0];
    }
  }

  /** The removal of duplicates with a `seen` set, as the scripts write it. */
  method Deduplicate(xs: seq<Path>) returns (r: seq<Path>)
    ensures r == Unique(xs)
  {
    var seen: set<Path> := {};
    r := [];
    for i := 0 to |xs|
      invariant r == Unique(xs[..i])
      invariant forall x :: x in seen <==> x in xs[..i]
    {
      TakeStep(xs, i);
      assert xs[..i + 1][i] == xs[i];
      if xs[i] !in seen {
        r := r + [xs[i]];
      }
      seen := seen + {xs[i]};
    }
    TakeAll(xs);
  }

  // ---------------------------------------------------------------------
  // The scan

  /** The include directories and generated sources the discovery returns. */
  function Artifacts(fs: FileSystem, target: Path, profile: string): (r: Found)
    ensures forall x :: x in r.includes <==> x in RawFound(fs, target, profile).includes
    ensures forall x :: x in r.sources <==> x in RawFound(fs, target, profile).sources
    ensures forall i, j | 0 <= i < j < |r.includes| :: r.includes[i] != r.includes[j]
    ensures forall i, j | 0 <= i < j < |r.sources| :: r.sources[i] != r.sources[j]
  {
    var raw := RawFound(fs, target, profile);
    Found(Unique(raw.includes), Unique(raw.sources))
  }

  /** When the profile's cxxbridge root exists, it is the first include directory. */
  lemma ProfileRootFirst(fs: FileSystem, target: Path, profile: string)
    requires fs.Exists(ProfileRoot(target, profile))
    ensures Artifacts(fs, target, profile).includes != []
    ensures Artifacts(fs, target, profile).includes[0] == ProfileRoot(target, profile)
  {
    var raw := RawFound(fs, target, profile);
    var first := RootFound(fs, ProfileRoot(target, profile));
    assert raw.includes[0] == first.includes[0];
    UniqueHead(raw.includes);
  }

  /** Nothing is discovered when none of the three locations exists. */
  lemma NothingWithoutRoots(fs: FileSystem, target: Path, profile: string)
    requires !fs.Exists(ProfileRoot(target, profile)) && !fs.Exists(SharedRoot(target)) && !fs.Exists(BuildRoot(target, profile))
    ensures Artifacts(fs, target, profile) == NothingFound
  {
  }

  /** Every generated source is discovered together with an include directory. */
  lemma {:induction false} SourcesNeedIncludes(fs: FileSystem, target: Path, profile: string)
    ensures RawFound(fs, target, profile).sources != [] ==> RawFound(fs, target, profile).includes != []
  {
    var fb := FallbackFound(fs, BuildRoot(target, profile));
    if fs.Exists(BuildRoot(target, profile)) {
      BuildEntriesSourcesNeedIncludes(fs, fs.Entries(BuildRoot(target, profile)));
    }
    if !fs.Exists(ProfileRoot(target, profile)) {
      CratesSourcesNeedNothingAbsent(fs, ProfileRoot(target, profile));
    }
  }

  lemma CratesSourcesNeedNothingAbsent(fs: FileSystem, root: Path)
    requires !fs.Exists(root)
    ensures RootFound(fs, root) == NothingFound
  {
  }

  lemma {:induction false} BuildEntriesSourcesNeedIncludes(fs: FileSystem, entries: seq<Path>)
    ensures BuildEntriesFound(fs, entries).sources != [] ==> BuildEntriesFound(fs, entries).includes != []
    decreases |entries|
  {
    if entries != [] {
      BuildEntriesSourcesNeedIncludes(fs, entries[..|entries| - 1]);
      var e := entries[|entries| - 1];
      if fs.Exists(OutDir(e)) {
        OutCratesSourcesNeedIncludes(fs, fs.Entries(OutDir(e)));
      }
    }
  }

  lemma {:induction false} OutCratesSourcesNeedIncludes(fs: FileSystem, crates: seq<Path>)
    ensures OutCratesFound(fs, crates).sources != [] ==> OutCratesFound(fs, crates).includes != []
    decreases |crates|
  {
    if crates != [] {
      OutCratesSourcesNeedIncludes(fs, crates[..|crates| - 1]);
    }
  }

  lemma CratesFoundSnoc(fs: FileSystem, crates: seq<Path>, i: nat)
    requires i < |crates|
    ensures CratesFound(fs, crates[..i + 1]) == CratesFound(fs, crates[..i]).Then(CrateFound(fs, crates[i]))
  {
    TakeStep(crates, i);
  }

  lemma OutCratesFoundSnoc(fs: FileSystem, crates: seq<Path>, i: nat)
    requires i < |crates|
    ensures OutCratesFound(fs, crates[..i + 1]) == OutCratesFound(fs, crates[..i]).Then(OutCrateFound(fs, crates[i]))
  {
    TakeStep(crates, i);
  }

  lemma BuildEntriesFoundSnoc(fs: FileSystem, entries: seq<Path>, i: nat)
    requires i < |entries|
    ensures BuildEntriesFound(fs, entries[..i + 1]) == BuildEntriesFound(fs, entries[..i]).Then(BuildEntryFound(fs, entries[i]))
  {
    TakeStep(entries, i);
  }

  /** One crate directory under a cxxbridge root. */
  method ScanCrate(fs: FileSystem, crate: Path) returns (includes: seq<Path>, sources: seq<Path>)
    ensures includes == CrateFound(fs, crate).includes && sources == CrateFound(fs, crate).sources
  {
    includes, sources := [], [];
    if fs.IsDir(crate) {
      includes := [crate];
      var src := Child(crate, "src");
      if fs.Exists(src) {
        includes := includes + [src];
        var cc := Child(src, "lib.rs.cc");
        if fs.Exists(cc) {
          sources := [cc];
        }
      }
      sources := sources + GlobExt(fs, crate, ".cc");
    }
  }

  lemma AppendAssoc(a: seq<Path>, b: seq<Path>, c: seq<Path>)
    ensures a + b + c == a + (b + c)
  {
  }

  /** The crates of a cxxbridge root, in listing order. */
  method ScanCrates(fs: FileSystem, crates: seq<Path>, includes: seq<Path>, sources: seq<Path>)
    returns (includes': seq<Path>, sources': seq<Path>)
    ensures includes' == includes + CratesFound(fs, crates).includes
    ensures sources' == sources + CratesFound(fs, crates).sources
  {
    includes', sources' := includes, sources;
    for i := 0 to |crates|
      invariant includes' == includes + CratesFound(fs, crates[..i]).includes
      invariant sources' == sources + CratesFound(fs, crates[..i]).sources
    {
      CratesFoundSnoc(fs, crates, i);
      ghost var before := CratesFound(fs, crates[..i]);
      var inc, srcs := ScanCrate(fs, crates[i]);
      includes' := includes' + inc;
      sources' := sources' + srcs;
      AppendAssoc(includes, before.includes, inc);
      AppendAssoc(sources, before.sources, srcs);
    }
    TakeAll(crates);
  }

  /** One cxxbridge root, appended to what was found so far: the root itself, then its crates. */
  method ScanRoot(fs: FileSystem, root: Path, includes: seq<Path>, sources: seq<Path>)
    returns (includes': seq<Path>, sources': seq<Path>)
    ensures includes' == includes + RootFound(fs, root).includes
    ensures sources' == sources + RootFound(fs, root).sources
  {
    if !fs.Exists(root) {
      return includes, sources;
    }
    var found := CratesFound(fs, fs.Entries(root));
    includes', sources' := ScanCrates(fs, fs.Entries(root), includes + [root], sources);
    AppendAssoc(includes, [root], found.includes);
  }

  /** The crates of one build-script output directory. */
  method ScanOutCrates(fs: FileSystem, crates: seq<Path>, includes: seq<Path>, sources: seq<Path>)
    returns (includes': seq<Path>, sources': seq<Path>)
    ensures includes' == includes + OutCratesFound(fs, crates).includes
    ensures sources' == sources + OutCratesFound(fs, crates).sources
  {
    includes', sources' := includes, sources;
    for i := 0 to |crates|
      invariant includes' == includes + OutCratesFound(fs, crates[..i]).includes
      invariant sources' == sources + OutCratesFound(fs, crates[..i]).sources
    {
      OutCratesFoundSnoc(fs, crates, i);
      ghost var before := OutCratesFound(fs, crates[..i]);
      ghost var here := OutCrateFound(fs, crates[i]);
      AppendAssoc(includes, before.includes, here.includes);
      AppendAssoc(sources, before.sources, here.sources);
      var src := Child(crates[i], "src");
      if fs.Exists(src) {
        includes' := includes' + [src];
        var cc := Child(src, "lib.rs.cc");
        if fs.Exists(cc) {
          sources' := sources' + [cc];
        }
      }
    }
    TakeAll(crates);
  }

  /** The build-script output directories, in listing order. */
  method ScanBuildEntries(fs: FileSystem, entries: seq<Path>, includes: seq<Path>, sources: seq<Path>)
    returns (includes': seq<Path>, sources': seq<Path>)
    ensures includes' == includes + BuildEntriesFound(fs, entries).includes
    ensures sources' == sources + BuildEntriesFound(fs, entries).sources
  {
    includes', sources' := includes, sources;
    for i := 0 to |entries|
      invariant includes' == includes + BuildEntriesFound(fs, entries[..i]).includes
      invariant sources' == sources + BuildEntriesFound(fs, entries[..i]).sources
    {
      BuildEntriesFoundSnoc(fs, entries, i);
      ghost var before := BuildEntriesFound(fs, entries[..i]);
      ghost var here := BuildEntryFound(fs, entries[i]);
      var outDir := OutDir(entries[i]);
      if fs.Exists(outDir) {
        includes', sources' := ScanOutCrates(fs, fs.Entries(outDir), includes', sources');
      }
      AppendAssoc(includes, before.includes, here.includes);
      AppendAssoc(sources, before.sources, here.sources);
    }
    TakeAll(entries);
  }

  /** The build-script fallback under `<target>/<profile>/build`. */
  method ScanFallback(fs: FileSystem, buildRoot: Path, includes: seq<Path>, sources: seq<Path>)
    returns (includes': seq<Path>, sources': seq<Path>)
    ensures includes' == includes + FallbackFound(fs, buildRoot).includes
    ensures sources' == sources + FallbackFound(fs, buildRoot).sources
  {
    if !fs.Exists(buildRoot) {
      return includes, sources;
    }
    includes', sources' := ScanBuildEntries(fs, fs.Entries(buildRoot), includes, sources);
  }

  /**
   * `find_cxxbridge_artifacts`: scan the two cxxbridge roots and the
   * fallback, then drop repeated entries keeping the first of each.
   */
  method FindCxxbridgeArtifacts(fs: FileSystem, target: Path, profile: string)
    returns (includeDirs: seq<Path>, generatedCc: seq<Path>)
    ensures includeDirs == Artifacts(fs, target, profile).includes
    ensures generatedCc == Artifacts(fs, target, profile).sources
  {
    var first := RootFound(fs, ProfileRoot(target, profile));
    var second := RootFound(fs, SharedRoot(target));
    var third := FallbackFound(fs, BuildRoot(target, profile));
    var inc, gen := ScanRoot(fs, ProfileRoot(target, profile), [], []);
    assert inc == first.includes && gen == first.sources;
    inc, gen := ScanRoot(fs, SharedRoot(target), inc, gen);
    inc, gen := ScanFallback(fs, BuildRoot(target, profile), inc, gen);
    assert RawFound(fs, target, profile) == first.Then(second).Then(third);
    includeDirs := Deduplicate(inc);
    generatedCc := Deduplicate(gen);
  }
}
