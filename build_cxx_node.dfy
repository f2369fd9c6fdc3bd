/**
 * `compile_node` of `build_cxx_node.py` and the recovery in its `main`:
 * compiler selection by toolchain preference, source discovery and
 * exclusion, dependency setup, include ordering, the prebuilt-library
 * filter, translation of GCC flags for MSVC, and the two command lines.
 * Processes, the environment and the file system are inputs; the model
 * computes the command that would be run and the files that would be
 * copied.
 */
module BuildNode {
  import opened Wrappers
  import opened Strings
  import opened Paths
  import Config
  import Cache
  import Bridge
  import Dependencies
  import opened CompileSteps

  /** The `RuntimeError`s `compile_node` raises, and a failed dependency or compiler run. */
  datatype BuildError =
    | NoCompiler
    | SourceOutsideNode(source: Path)
    | NoSources
    | DependencyFailed(cause: Dependencies.DepError)
    | NoCxxbridgeOutputs
    | CompileFailed
    | ExecutableMissing(exe: Path)

  // ---------------------------------------------------------------------
  // Compiler selection

  /** The compiler to run and the command-line dialect it speaks. */
  datatype Compiler = Compiler(cc: string, kind: Kind)

  /** What compiler selection consults. */
  datatype Toolbox = Toolbox(
    isNt: bool,                                // `os.name == "nt"`
    cxx: Option<string>,                       // `CXX`
    cxxCompiler: Option<string>,               // `CXX_COMPILER`
    which: string -> Option<string>,           // `shutil.which`
    clangInstalled: bool,                      // what `ensure_clang_installed(install=True)` reports
    whichAfterInstall: string -> Option<string>) // `shutil.which` once clang has been installed

  /** `CXX or CXX_COMPILER`. */
  function EnvCompiler(tb: Toolbox): Option<string> {
    OrElse(tb.cxx, tb.cxxCompiler)
  }

  /** The environment names a compiler that is on the search path. */
  predicate EnvUsable(tb: Toolbox) {
    Truthy(EnvCompiler(tb)) && tb.which(EnvCompiler(tb).value).Some?
  }

  /** The dialect guessed from an environment compiler's name; no guess means GCC-compatible. */
  function EnvKind(cc: string): Kind {
    if EndsWith(Lower(cc), "cl.exe") || EndsWith(Lower(cc), "cl") then MsvcKind else NoKind
  }

  /** The dialect of each candidate name. */
  function DialectOf(name: string): Kind {
    if name == "cl" || name == "clang-cl" then MsvcKind else GccKind
  }

  const AllCompilers: set<string> := {"cl", "clang-cl", "clang++", "g++"}

  const WindowsOrder: seq<(string, Kind)> := [("cl", MsvcKind), ("clang-cl", MsvcKind), ("clang++", GccKind), ("g++", GccKind)]
  const ClangOrder: seq<(string, Kind)> := [("clang++", GccKind), ("clang-cl", MsvcKind), ("g++", GccKind), ("cl", MsvcKind)]
  const GccOrder: seq<(string, Kind)> := [("g++", GccKind), ("clang++", GccKind), ("clang-cl", MsvcKind), ("cl", MsvcKind)]
  const UnixOrder: seq<(string, Kind)> := [("clang++", GccKind), ("g++", GccKind)]
  /** The order tried again once clang has been installed. */
  const RetryOrder: seq<(string, Kind)> := [("clang-cl", MsvcKind), ("clang++", GccKind), ("cl", MsvcKind), ("g++", GccKind)]

  /** The candidates in the order the configured toolchain prefers. */
  function Candidates(pref: Option<Config.Toolchain>, isNt: bool): seq<(string, Kind)> {
    if pref == Some(Config.Msvc) || (pref == Some(Config.Auto) && isNt) then WindowsOrder
    else if pref == Some(Config.Clang) then ClangOrder
    else if pref == Some(Config.Gcc) then GccOrder
    else if isNt then WindowsOrder
    else UnixOrder
  }

  /**
   * Every list holds distinct known compilers, each tagged with its own
   * dialect; a preference puts its compiler first, all four are tried
   * except for `auto` (or no configuration) off Windows, and `auto` means
   * the same as no preference.
   */
  lemma CandidateOrders(pref: Option<Config.Toolchain>, isNt: bool)
    ensures var c := Candidates(pref, isNt);
            forall k | 0 <= k < |c| :: c[k].0 in AllCompilers && c[k].1 == DialectOf(c[k].0)
    ensures var c := Candidates(pref, isNt);
            forall i, j | 0 <= i < j < |c| :: c[i].0 != c[j].0
    ensures |Candidates(pref, isNt)| == 4 <==> isNt || (pref.Some? && pref != Some(Config.Auto))
    ensures |Candidates(pref, isNt)| != 4 ==> Candidates(pref, isNt) == [("clang++", GccKind), ("g++", GccKind)]
    ensures pref == Some(Config.Msvc) ==> Candidates(pref, isNt)[0].0 == "cl"
    ensures pref == Some(Config.Clang) ==> Candidates(pref, isNt)[0].0 == "clang++"
    ensures pref == Some(Config.Gcc) ==> Candidates(pref, isNt)[0].0 == "g++"
    ensures Candidates(Some(Config.Auto), isNt) == Candidates(None, isNt)
  {
    assert |WindowsOrder| == 4 && |ClangOrder| == 4 && |GccOrder| == 4 && |UnixOrder| == 2;
    match pref
    case None =>
    case Some(t) =>
      if t == Config.Auto && !isNt {
        assert Candidates(pref, isNt) == UnixOrder;
      }
  }

  /** The retry list holds the four compilers, each with its own dialect. */
  lemma RetryOrderKnown()
    ensures forall k | 0 <= k < |RetryOrder| :: RetryOrder[k].0 in AllCompilers && RetryOrder[k].1 == DialectOf(RetryOrder[k].0)
    ensures forall i, j | 0 <= i < j < |RetryOrder| :: RetryOrder[i].0 != RetryOrder[j].0
  {
  }

  /** The first candidate found on the search path, with the path found and the candidate's dialect. */
  function FirstFound(which: string -> Option<string>, cands: seq<(string, Kind)>): Option<Compiler>
    decreases |cands|
  {
    if cands == [] then None
    else if which(cands[0].0).Some? then Some(Compiler(which(cands[0].0).value, cands[0].1))
    else FirstFound(which, cands[1..])
  }

  predicate FirstHit(which: string -> Option<string>, cands: seq<(string, Kind)>, c: Compiler, k: int) {
    0 <= k < |cands| && which(cands[k].0) == Some(c.cc) && c.kind == cands[k].1 &&
    forall j | 0 <= j < k :: which(cands[j].0).None?
  }

  /** Nothing is found exactly when no candidate is on the path; otherwise it is the earliest one. */
  lemma {:induction false} FirstFoundSpec(which: string -> Option<string>, cands: seq<(string, Kind)>)
    ensures FirstFound(which, cands).None? <==> forall k | 0 <= k < |cands| :: which(cands[k].0).None?
    ensures FirstFound(which, cands).Some? ==> exists k :: FirstHit(which, cands, FirstFound(which, cands).value, k)
    decreases |cands|
  {
    if cands != [] {
      var r := FirstFound(which, cands);
      if which(cands[0].0).Some? {
        assert FirstHit(which, cands, r.value, 0);
      } else {
        FirstFoundSpec(which, cands[1..]);
        if r.Some? {
          var k :| FirstHit(which, cands[1..], r.value, k);
          assert FirstHit(which, cands, r.value, k + 1);
        }
        forall k | 0 <= k < |cands| && k != 0 ensures cands[k] == cands[1..][k - 1] { }
      }
    }
  }

  /** Clang was installed for a retry: Windows, no compiler found, installation requested and successful. */
  predicate Retried(tb: Toolbox, pref: Option<Config.Toolchain>, installClang: bool) {
    !EnvUsable(tb) && FirstFound(tb.which, Candidates(pref, tb.isNt)).None? &&
    tb.isNt && installClang && tb.clangInstalled
  }

  /** The compiler `compile_node` settles on, or the "no C++ compiler found" error. */
  function SelectCompiler(tb: Toolbox, pref: Option<Config.Toolchain>, installClang: bool): Result<Compiler, BuildError> {
    if EnvUsable(tb) then Ok(Compiler(EnvCompiler(tb).value, EnvKind(EnvCompiler(tb).value)))
    else
      match FirstFound(tb.which, Candidates(pref, tb.isNt))
      case Some(c) => Ok(c)
      case None =>
        var retry := if tb.isNt && installClang && tb.clangInstalled then FirstFound(tb.whichAfterInstall, RetryOrder) else None;
        if retry.Some? then Ok(retry.value) else Err(NoCompiler)
  }

  /**
   * A usable environment compiler wins, MSVC-style exactly when its name
   * ends in `cl` or `cl.exe`; otherwise the earliest candidate on the path
   * is used with the candidate's own dialect; a retry after installing
   * clang happens only on Windows when asked for; nothing found is the
   * only error.
   */
  lemma SelectCompilerSpec(tb: Toolbox, pref: Option<Config.Toolchain>, installClang: bool)
    ensures var r := SelectCompiler(tb, pref, installClang);
            EnvUsable(tb) ==>
              r.Ok? && r.value.cc == EnvCompiler(tb).value && r.value.kind != GccKind &&
              (r.value.kind == MsvcKind <==> EndsWith(Lower(r.value.cc), "cl.exe") || EndsWith(Lower(r.value.cc), "cl"))
    ensures var r := SelectCompiler(tb, pref, installClang);
            var cands := Candidates(pref, tb.isNt);
            !EnvUsable(tb) && !Retried(tb, pref, installClang) ==>
              (r.Ok? <==> exists k | 0 <= k < |cands| :: tb.which(cands[k].0).Some?) &&
              (r.Ok? ==> exists k :: FirstHit(tb.which, cands, r.value, k))
    ensures var r := SelectCompiler(tb, pref, installClang);
            Retried(tb, pref, installClang) ==>
              (r.Ok? <==> exists k | 0 <= k < |RetryOrder| :: tb.whichAfterInstall(RetryOrder[k].0).Some?) &&
              (r.Ok? ==> exists k :: FirstHit(tb.whichAfterInstall, RetryOrder, r.value, k))
    ensures SelectCompiler(tb, pref, installClang).Err? ==> SelectCompiler(tb, pref, installClang).error == NoCompiler
    ensures !tb.isNt ==> !Retried(tb, pref, installClang)
  {
    FirstFoundSpec(tb.which, Candidates(pref, tb.isNt));
    FirstFoundSpec(tb.whichAfterInstall, RetryOrder);
  }

  /** The candidate loop: the first one `which` finds, stopping there. */
  method SearchCandidates(which: string -> Option<string>, cands: seq<(string, Kind)>) returns (r: Option<Compiler>)
    ensures r == FirstFound(which, cands)
  {
    for i := 0 to |cands|
      invariant FirstFound(which, cands) == FirstFound(which, cands[i..])
    {
      assert cands[i..][1..] == cands[i + 1..];
      var p := which(cands[i].0);
      if p.Some? {
        return Some(Compiler(p.value, cands[i].1));
      }
    }
    return None;
  }

  /** The compiler-selection part of `compile_node`. */
  method FindCompiler(tb: Toolbox, pref: Option<Config.Toolchain>, installClang: bool) returns (r: Result<Compiler, BuildError>)
    ensures r == SelectCompiler(tb, pref, installClang)
  {
    var env := OrElse(tb.cxx, tb.cxxCompiler);
    if Truthy(env) && tb.which(env.value).Some? {
      return Ok(Compiler(env.value, EnvKind(env.value)));
    }
    var found := SearchCandidates(tb.which, Candidates(pref, tb.isNt));
    if found.None? && tb.isNt && installClang && tb.clangInstalled {
      found := SearchCandidates(tb.whichAfterInstall, RetryOrder);
    }
    if found.None? {
      return Err(NoCompiler);
    }
    return Ok(found.value);
  }

  // ---------------------------------------------------------------------
  // Sources

  /** The glob patterns used when no sources are configured. */
  const DefaultPatterns: seq<string> := ["**/*.cc", "**/*.cpp", "**/*.c"]

  /** A configured source is a glob pattern when it holds `*` or `?`. */
  predicate IsPattern(entry: string) {
    '*' in entry || '?' in entry
  }

  /** What one configured source contributes: its glob matches, or the file itself when it exists. */
  function EntrySources(fs: FileSystem, nodeDir: Path, entry: string, glob: (Path, string) -> seq<Path>): seq<Path> {
    if IsPattern(entry) then glob(nodeDir, entry)
    else if fs.Exists(Join(nodeDir, entry)) then [Join(nodeDir, entry)]
    else []
  }

  /** The configured sources, entry by entry. */
  function ConfiguredSources(fs: FileSystem, nodeDir: Path, entries: seq<string>, glob: (Path, string) -> seq<Path>): seq<Path>
    decreases |entries|
  {
    if entries == [] then []
    else ConfiguredSources(fs, nodeDir, entries[..|entries| - 1], glob) + EntrySources(fs, nodeDir, entries[|entries| - 1], glob)
  }

  /** The matches of each pattern in turn. */
  function Globbed(nodeDir: Path, patterns: seq<string>, glob: (Path, string) -> seq<Path>): seq<Path>
    decreases |patterns|
  {
    if patterns == [] then []
    else Globbed(nodeDir, patterns[..|patterns| - 1], glob) + glob(nodeDir, patterns[|patterns| - 1])
  }

  /** The sources found before exclusion: the configured entries when there are any, else the default globs. */
  function DiscoverSources(fs: FileSystem, nodeDir: Path, configured: Option<seq<string>>, glob: (Path, string) -> seq<Path>): seq<Path> {
    if configured.Some? && configured.value != [] then ConfiguredSources(fs, nodeDir, configured.value, glob)
    else Globbed(nodeDir, DefaultPatterns, glob)
  }

  /** A path is a configured source exactly when a pattern entry globs it or a plain entry names it and it exists. */
  lemma {:induction false} ConfiguredSourcesMembers(fs: FileSystem, nodeDir: Path, entries: seq<string>,
                                                    glob: (Path, string) -> seq<Path>, x: Path)
    ensures x in ConfiguredSources(fs, nodeDir, entries, glob) <==>
            exists k | 0 <= k < |entries| ::
              (IsPattern(entries[k]) && x in glob(nodeDir, entries[k])) ||
              (!IsPattern(entries[k]) && x == Join(nodeDir, entries[k]) && fs.Exists(x))
    decreases |entries|
  {
    if entries != [] {
      var init := entries[..|entries| - 1];
      ConfiguredSourcesMembers(fs, nodeDir, init, glob, x);
      forall k | 0 <= k < |init| ensures init[k] == entries[k] { }
    }
  }

  /** Patterns alone, configured explicitly, give their glob matches in order. */
  lemma {:induction false} PatternsAreGlobs(fs: FileSystem, nodeDir: Path, patterns: seq<string>, glob: (Path, string) -> seq<Path>)
    requires forall k | 0 <= k < |patterns| :: IsPattern(patterns[k])
    ensures Globbed(nodeDir, patterns, glob) == ConfiguredSources(fs, nodeDir, patterns, glob)
    decreases |patterns|
  {
    if patterns != [] {
      var init := patterns[..|patterns| - 1];
      assert forall k | 0 <= k < |init| :: init[k] == patterns[k];
      PatternsAreGlobs(fs, nodeDir, init, glob);
    }
  }

  /** The default globs are what configuring the three patterns explicitly would give. */
  lemma DefaultsAreGlobs(fs: FileSystem, nodeDir: Path, glob: (Path, string) -> seq<Path>)
    ensures Globbed(nodeDir, DefaultPatterns, glob) == ConfiguredSources(fs, nodeDir, DefaultPatterns, glob)
  {
    assert "**/*.cc"[0] == '*' && "**/*.cpp"[0] == '*' && "**/*.c"[0] == '*';
    PatternsAreGlobs(fs, nodeDir, DefaultPatterns, glob);
  }

  /** The source-discovery loop of `compile_node`. */
  method CollectSources(fs: FileSystem, nodeDir: Path, configured: Option<seq<string>>, glob: (Path, string) -> seq<Path>)
    returns (srcs: seq<Path>)
    ensures srcs == DiscoverSources(fs, nodeDir, configured, glob)
  {
    srcs := [];
    if configured.Some? && configured.value != [] {
      var entries := configured.value;
      for i := 0 to |entries|
        invariant srcs == ConfiguredSources(fs, nodeDir, entries[..i], glob)
      {
        TakeStep(entries, i);
        var entry := entries[i];
        if '*' in entry || '?' in entry {
          srcs := srcs + glob(nodeDir, entry);
        } else {
          var p := Join(nodeDir, entry);
          if fs.Exists(p) {
            srcs := srcs + [p];
          }
        }
      }
      TakeAll(entries);
    } else {
      var patterns := DefaultPatterns;
      for i := 0 to |patterns|
        invariant srcs == Globbed(nodeDir, patterns[..i], glob)
      {
        TakeStep(patterns, i);
        srcs := srcs + glob(nodeDir, patterns[i]);
      }
      TakeAll(patterns);
    }
  }

  // ---------------------------------------------------------------------
  // Excluded sources

  /** `str(p.relative_to(base))`, or nothing when `p` is not below `base`. */
  function RelativePath(p: Path, base: Path): Option<string> {
    if |base| <= |p| && p[..|base|] == base then
      Some(if |p| == |base| then "." else JoinWith(p[|base|..], '/'))
    else None
  }

  /** A source is excluded when its path relative to the node matches one of the patterns. */
  predicate Excluded(nodeDir: Path, patterns: seq<string>, fnmatch: (string, string) -> bool, p: Path) {
    RelativePath(p, nodeDir).Some? &&
    exists k | 0 <= k < |patterns| :: fnmatch(RelativePath(p, nodeDir).value, patterns[k])
  }

  /** The excluded sources in order, repeats included. */
  function ExcludedList(nodeDir: Path, patterns: seq<string>, fnmatch: (string, string) -> bool, srcs: seq<Path>): seq<Path>
    decreases |srcs|
  {
    if srcs == [] then []
    else (if Excluded(nodeDir, patterns, fnmatch, srcs[0]) then [srcs[0]] else []) + ExcludedList(nodeDir, patterns, fnmatch, srcs[1..])
  }

  /** The sources that are not excluded, in order. */
  function KeptSources(nodeDir: Path, patterns: seq<string>, fnmatch: (string, string) -> bool, srcs: seq<Path>): seq<Path>
    decreases |srcs|
  {
    if srcs == [] then []
    else (if Excluded(nodeDir, patterns, fnmatch, srcs[0]) then [] else [srcs[0]]) + KeptSources(nodeDir, patterns, fnmatch, srcs[1..])
  }

  /** The first source outside the node directory, where `relative_to` raises. */
  function FirstOutside(nodeDir: Path, srcs: seq<Path>): Option<Path>
    decreases |srcs|
  {
    if srcs == [] then None
    else if RelativePath(srcs[0], nodeDir).None? then Some(srcs[0])
    else FirstOutside(nodeDir, srcs[1..])
  }

  /** `list.remove(x)`: drop the first occurrence, if any. */
  function RemoveFirst<T(==)>(s: seq<T>, x: T): seq<T>
    decreases |s|
  {
    if s == [] then []
    else if s[0] == x then s[1..]
    else [s[0]] + RemoveFirst(s[1..], x)
  }

  /** Remove each of `xs` in turn. */
  function RemoveEach<T(==)>(s: seq<T>, xs: seq<T>): seq<T>
    decreases |xs|
  {
    if xs == [] then s else RemoveEach(RemoveFirst(s, xs[0]), xs[1..])
  }

  /** Exclusion as `compile_node` performs it: nothing without patterns, else collect and remove. */
  function ApplyExcludes(nodeDir: Path, patterns: Option<seq<string>>, fnmatch: (string, string) -> bool, srcs: seq<Path>)
    : Result<seq<Path>, BuildError>
  {
    if patterns.None? || patterns.value == [] then Ok(srcs)
    else
      match FirstOutside(nodeDir, srcs)
      case Some(p) => Err(SourceOutsideNode(p))
      case None => Ok(RemoveEach(srcs, ExcludedList(nodeDir, patterns.value, fnmatch, srcs)))
  }

  lemma {:induction false} ExcludedListExcluded(nodeDir: Path, patterns: seq<string>, fnmatch: (string, string) -> bool, srcs: seq<Path>)
    ensures forall x | x in ExcludedList(nodeDir, patterns, fnmatch, srcs) :: Excluded(nodeDir, patterns, fnmatch, x)
    decreases |srcs|
  {
    if srcs != [] {
      ExcludedListExcluded(nodeDir, patterns, fnmatch, srcs[1..]);
    }
  }

  /** Removing items that differ from the head leaves the head in front. */
  lemma {:induction false} RemoveEachSkips<T>(x: T, s: seq<T>, xs: seq<T>)
    requires x !in xs
    ensures RemoveEach([x] + s, xs) == [x] + RemoveEach(s, xs)
    decreases |xs|
  {
    if xs != [] {
      assert ([x] + s)[1..] == s;
      assert RemoveFirst([x] + s, xs[0]) == [x] + RemoveFirst(s, xs[0]);
      RemoveEachSkips(x, RemoveFirst(s, xs[0]), xs[1..]);
    }
  }

  /** Removing the collected excluded sources one by one leaves exactly the sources that are not excluded, in order. */
  lemma {:induction false} RemoveExcluded(nodeDir: Path, patterns: seq<string>, fnmatch: (string, string) -> bool, srcs: seq<Path>)
    ensures RemoveEach(srcs, ExcludedList(nodeDir, patterns, fnmatch, srcs)) == KeptSources(nodeDir, patterns, fnmatch, srcs)
    decreases |srcs|
  {
    if srcs != [] {
      var rest := srcs[1..];
      var e := ExcludedList(nodeDir, patterns, fnmatch, rest);
      RemoveExcluded(nodeDir, patterns, fnmatch, rest);
      assert srcs == [srcs[0]] + rest;
      if Excluded(nodeDir, patterns, fnmatch, srcs[0]) {
        assert ExcludedList(nodeDir, patterns, fnmatch, srcs) == [srcs[0]] + e;
        assert RemoveFirst(srcs, srcs[0]) == rest;
      } else {
        ExcludedListExcluded(nodeDir, patterns, fnmatch, rest);
        assert ExcludedList(nodeDir, patterns, fnmatch, srcs) == e;
        RemoveEachSkips(srcs[0], rest, e);
      }
    }
  }

  lemma {:induction false} KeptSourcesMembers(nodeDir: Path, patterns: seq<string>, fnmatch: (string, string) -> bool, srcs: seq<Path>)
    ensures forall x :: x in KeptSources(nodeDir, patterns, fnmatch, srcs) <==> x in srcs && !Excluded(nodeDir, patterns, fnmatch, x)
    decreases |srcs|
  {
    if srcs != [] {
      KeptSourcesMembers(nodeDir, patterns, fnmatch, srcs[1..]);
      assert forall x :: x in srcs <==> x == srcs[0] || x in srcs[1..];
    }
  }

  lemma {:induction false} FirstOutsideSpec(nodeDir: Path, srcs: seq<Path>)
    ensures FirstOutside(nodeDir, srcs).None? <==> forall k | 0 <= k < |srcs| :: RelativePath(srcs[k], nodeDir).Some?
    ensures FirstOutside(nodeDir, srcs).Some? ==> RelativePath(FirstOutside(nodeDir, srcs).value, nodeDir).None? &&
                                                  FirstOutside(nodeDir, srcs).value in srcs
    decreases |srcs|
  {
    if srcs != [] {
      FirstOutsideSpec(nodeDir, srcs[1..]);
      forall k | 0 < k < |srcs| ensures srcs[k] == srcs[1..][k - 1] { }
    }
  }

  /**
   * Without patterns the sources are untouched; with patterns, a source
   * outside the node directory is an error, and otherwise exactly the
   * sources whose relative path matches no pattern remain, in order.
   */
  lemma ExcludesSpec(nodeDir: Path, patterns: Option<seq<string>>, fnmatch: (string, string) -> bool, srcs: seq<Path>)
    ensures patterns.None? || patterns.value == [] ==> ApplyExcludes(nodeDir, patterns, fnmatch, srcs) == Ok(srcs)
    ensures patterns.Some? && patterns.value != [] ==>
              (ApplyExcludes(nodeDir, patterns, fnmatch, srcs).Err? <==> exists k | 0 <= k < |srcs| :: RelativePath(srcs[k], nodeDir).None?)
    ensures ApplyExcludes(nodeDir, patterns, fnmatch, srcs).Err? ==>
              var e := ApplyExcludes(nodeDir, patterns, fnmatch, srcs).error;
              e.SourceOutsideNode? && e.source in srcs && RelativePath(e.source, nodeDir).None?
    ensures patterns.Some? && patterns.value != [] && ApplyExcludes(nodeDir, patterns, fnmatch, srcs).Ok? ==>
              ApplyExcludes(nodeDir, patterns, fnmatch, srcs).value == KeptSources(nodeDir, patterns.value, fnmatch, srcs) &&
              forall x :: x in ApplyExcludes(nodeDir, patterns, fnmatch, srcs).value <==>
                            x in srcs && !Excluded(nodeDir, patterns.value, fnmatch, x)
  {
    FirstOutsideSpec(nodeDir, srcs);
    if patterns.Some? && patterns.value != [] {
      RemoveExcluded(nodeDir, patterns.value, fnmatch, srcs);
      KeptSourcesMembers(nodeDir, patterns.value, fnmatch, srcs);
    }
  }

  /** Whether any pattern matches, stopping at the first that does. */
  method MatchesSome(fnmatch: (string, string) -> bool, rel: string, patterns: seq<string>) returns (b: bool)
    ensures b <==> exists k | 0 <= k < |patterns| :: fnmatch(rel, patterns[k])
  {
    for j := 0 to |patterns|
      invariant forall m | 0 <= m < j :: !fnmatch(rel, patterns[m])
    {
      if fnmatch(rel, patterns[j]) {
        return true;
      }
    }
    return false;
  }

  /** The exclusion loops of `compile_node`: collect the excluded sources, then remove each. */
  method ExcludeSources(nodeDir: Path, patterns: Option<seq<string>>, fnmatch: (string, string) -> bool, srcs: seq<Path>)
    returns (r: Result<seq<Path>, BuildError>)
    ensures r == ApplyExcludes(nodeDir, patterns, fnmatch, srcs)
  {
    if patterns.None? || patterns.value == [] {
      return Ok(srcs);
    }
    var pats := patterns.value;
    var excluded := [];
    for i := 0 to |srcs|
      invariant FirstOutside(nodeDir, srcs) == FirstOutside(nodeDir, srcs[i..])
      invariant excluded + ExcludedList(nodeDir, pats, fnmatch, srcs[i..]) == ExcludedList(nodeDir, pats, fnmatch, srcs)
    {
      assert srcs[i..][1..] == srcs[i + 1..];
      var rel := RelativePath(srcs[i], nodeDir);
      if rel.None? {
        return Err(SourceOutsideNode(srcs[i]));
      }
      var hit := MatchesSome(fnmatch, rel.value, pats);
      Dependencies.AppendAssoc(excluded, if hit then [srcs[i]] else [], ExcludedList(nodeDir, pats, fnmatch, srcs[i + 1..]));
      if hit {
        excluded := excluded + [srcs[i]];
      }
    }
    assert srcs[|srcs|..] == [];
    assert excluded + [] == excluded;
    assert FirstOutside(nodeDir, srcs) == None;
    var kept := srcs;
    for i := 0 to |excluded|
      invariant RemoveEach(kept, excluded[i..]) == RemoveEach(srcs, excluded)
    {
      assert excluded[i..][1..] == excluded[i + 1..];
      kept := RemoveFirst(kept, excluded[i]);
    }
    assert excluded[|excluded|..] == [];
    assert RemoveEach(kept, []) == kept;
    return Ok(kept);
  }

  // ---------------------------------------------------------------------
  // GCC flags on the MSVC command line

  /** The MSVC form of one configured compiler flag, or nothing when it is skipped. */
  function MsvcFlag(flag: string): Option<string> {
    if flag == "-Wall" then Some("/W3")
    else if flag == "-Wextra" then Some("/W4")
    else if flag == "-O2" then Some("/O2")
    else if flag == "-O3" then Some("/Ox")
    else if StartsWith(flag, "-D") then Some("/D" + flag[2..])
    else if StartsWith(flag, "/") then Some(flag)
    else if StartsWith(flag, "-") then None
    else Some(flag)
  }

  /** The translated flags, in order. */
  function TranslateFlags(flags: seq<string>): seq<string>
    decreases |flags|
  {
    if flags == [] then []
    else
      var last := MsvcFlag(flags[|flags| - 1]);
      TranslateFlags(flags[..|flags| - 1]) + (if last.Some? then [last.value] else [])
  }

  /** Translation works flag by flag: translating a concatenation concatenates the translations. */
  lemma {:induction false} TranslateConcat(a: seq<string>, b: seq<string>)
    ensures TranslateFlags(a + b) == TranslateFlags(a) + TranslateFlags(b)
    decreases |b|
  {
    if b == [] {
      assert a + b == a;
    } else {
      var init := b[..|b| - 1];
      TranslateConcat(a, init);
      ConcatLast(a, b);
      var last := MsvcFlag(b[|b| - 1]);
      Dependencies.AppendAssoc(TranslateFlags(a), TranslateFlags(init), if last.Some? then [last.value] else []);
    }
  }

  /**
   * Nothing is added, nothing on the MSVC line starts with `-`, flags with
   * no leading `-` pass through unchanged, and the warning switches,
   * optimisation levels and `-D` definitions get their MSVC spellings
   * while any other `-` flag (such as `-w`) is dropped.
   */
  lemma {:induction false} TranslateFlagsSpec(flags: seq<string>)
    ensures |TranslateFlags(flags)| <= |flags|
    ensures forall k | 0 <= k < |TranslateFlags(flags)| :: !StartsWith(TranslateFlags(flags)[k], "-")
    ensures (forall k | 0 <= k < |flags| :: !StartsWith(flags[k], "-")) ==> TranslateFlags(flags) == flags
    decreases |flags|
  {
    if flags != [] {
      var init := flags[..|flags| - 1];
      var f := flags[|flags| - 1];
      var last := MsvcFlag(f);
      var tail := if last.Some? then [last.value] else [];
      TranslateFlagsSpec(init);
      MsvcFlagSpec(f);
      assert TranslateFlags(flags) == TranslateFlags(init) + tail;
      if (forall k | 0 <= k < |flags| :: !StartsWith(flags[k], "-")) {
        assert forall k | 0 <= k < |init| :: init[k] == flags[k];
        assert tail == [f];
        CompileSteps.SnocSplit(flags);
      }
    }
  }

  /** A single flag: its MSVC form never starts with `-`, and a flag without a leading `-` passes unchanged. */
  lemma MsvcFlagSpec(f: string)
    ensures MsvcFlag(f).Some? ==> !StartsWith(MsvcFlag(f).value, "-")
    ensures !StartsWith(f, "-") ==> MsvcFlag(f) == Some(f)
  {
    if StartsWith(f, "-D") {
      assert ("/D" + f[2..])[0] == '/';
    }
    assert !StartsWith("/W3", "-") && !StartsWith("/W4", "-") && !StartsWith("/O2", "-") && !StartsWith("/Ox", "-") by {
      assert "/W3"[..1] == "/W4"[..1] == "/O2"[..1] == "/Ox"[..1] == "/";
    }
    if !StartsWith(f, "-") {
      assert f != "-Wall" && f != "-Wextra" && f != "-O2" && f != "-O3" by {
        assert StartsWith("-Wall", "-") && StartsWith("-Wextra", "-") && StartsWith("-O2", "-") && StartsWith("-O3", "-");
      }
      assert !StartsWith(f, "-D");
    }
  }

  /** The individual translations named by the build tool. */
  lemma TranslatedFlags()
    ensures TranslateFlags(["-Wall", "-Wextra", "-O2", "-O3"]) == ["/W3", "/W4", "/O2", "/Ox"]
    ensures TranslateFlags(["-DNDEBUG"]) == ["/DNDEBUG"]
    ensures TranslateFlags(["-w"]) == [] && TranslateFlags(["-fPIC"]) == []
    ensures TranslateFlags(["/EHsc"]) == ["/EHsc"]
  {
    TranslatedSwitches();
    TranslateSingle("-DNDEBUG");
    assert "-DNDEBUG"[..2] == "-D" && "-DNDEBUG"[2..] == "NDEBUG" && "/D" + "NDEBUG" == "/DNDEBUG";
    assert MsvcFlag("-DNDEBUG") == Some("/DNDEBUG");
    TranslateSingle("-w");
    assert "-w"[1] != "-D"[1] && "-w"[..1] == "-";
    TranslateSingle("-fPIC");
    assert "-fPIC"[1] != "-D"[1] && "-fPIC"[..1] == "-";
    TranslateSingle("/EHsc");
    assert "/EHsc"[0] != '-' && "/EHsc"[..1] == "/";
  }

  lemma TranslatedSwitches()
    ensures TranslateFlags(["-Wall", "-Wextra", "-O2", "-O3"]) == ["/W3", "/W4", "/O2", "/Ox"]
  {
    TranslateSingle("-Wall");
    TranslateSingle("-Wextra");
    TranslateSingle("-O2");
    TranslateSingle("-O3");
    TranslateConcat(["-Wall"], ["-Wextra"]);
    TranslateConcat(["-Wall", "-Wextra"], ["-O2"]);
    TranslateConcat(["-Wall", "-Wextra", "-O2"], ["-O3"]);
    assert ["-Wall"] + ["-Wextra"] == ["-Wall", "-Wextra"];
    assert ["-Wall", "-Wextra"] + ["-O2"] == ["-Wall", "-Wextra", "-O2"];
    assert ["-Wall", "-Wextra", "-O2"] + ["-O3"] == ["-Wall", "-Wextra", "-O2", "-O3"];
  }

  lemma TranslateSingle(f: string)
    ensures TranslateFlags([f]) == if MsvcFlag(f).Some? then [MsvcFlag(f).value] else []
  {
    assert [f][..0] == [];
  }

  /** The translation loop of the MSVC branch. */
  method TranslateCxxFlags(flags: seq<string>) returns (out: seq<string>)
    ensures out == TranslateFlags(flags)
  {
    out := [];
    for i := 0 to |flags|
      invariant out == TranslateFlags(flags[..i])
    {
      TakeStep(flags, i);
      var flag := flags[i];
      if flag == "-Wall" {
        out := out + ["/W3"];
      } else if flag == "-Wextra" {
        out := out + ["/W4"];
      } else if flag == "-O2" {
        out := out + ["/O2"];
      } else if flag == "-O3" {
        out := out + ["/Ox"];
      } else if StartsWith(flag, "-D") {
        out := out + ["/D" + flag[2..]];
      } else if StartsWith(flag, "/") {
        out := out + [flag];
      } else if StartsWith(flag, "-") {
        // incompatible with MSVC: skipped
      } else {
        out := out + [flag];
      }
    }
    TakeAll(flags);
  }

  // ---------------------------------------------------------------------
  // Command lines

  /** The configuration values the command lines use; without a configuration, C++17 and nothing else. */
  datatype Settings = Settings(std: string, cxxflags: seq<string>, includeDirs: seq<string>,
                               libDirs: seq<string>, libraries: seq<string>, ldflags: seq<string>)

  function SettingsOf(config: Option<Config.DoracxxConfig>): Settings {
    match config
    case None => Settings("c++17", [], [], [], [], [])
    case Some(c) => Settings(c.build.std, c.build.cxxflags, c.build.includeDirs, c.build.libDirs, c.build.libraries, c.build.ldflags)
  }

  /** A configuration whose `[build]` section is empty builds with the same settings as no configuration at all. */
  lemma EmptyBuildSectionSettings(data: Config.Entries)
    requires Config.Decode(data).Ok? && Config.Section(data, "build") == Ok([])
    ensures SettingsOf(Some(Config.Decode(data).value)) == SettingsOf(None)
  {
    Config.DecodeParts(data);
    Config.BuildDefaults(data);
  }

  /** `flag, item` for each item, in order. */
  function Pairs(flag: string, items: seq<string>): seq<string>
    decreases |items|
  {
    if items == [] then []
    else Pairs(flag, items[..|items| - 1]) + [flag, items[|items| - 1]]
  }

  /** The flag comes before each item, and the items keep their order. */
  lemma {:induction false} PairsSpec(flag: string, items: seq<string>)
    ensures |Pairs(flag, items)| == 2 * |items|
    ensures forall k | 0 <= k < |items| :: Pairs(flag, items)[2 * k] == flag && Pairs(flag, items)[2 * k + 1] == items[k]
    decreases |items|
  {
    if items != [] {
      var init := items[..|items| - 1];
      PairsSpec(flag, init);
      forall k | 0 <= k < |init| ensures init[k] == items[k] { }
    }
  }

  /** `cmd += [flag, item]` for each item. */
  method AppendPairs(cmd: seq<string>, flag: string, items: seq<string>) returns (r: seq<string>)
    ensures r == cmd + Pairs(flag, items)
  {
    r := cmd;
    for i := 0 to |items|
      invariant r == cmd + Pairs(flag, items[..i])
    {
      TakeStep(items, i);
      Dependencies.AppendAssoc(cmd, Pairs(flag, items[..i]), [flag, items[i]]);
      r := r + [flag, items[i]];
    }
    TakeAll(items);
  }

  function PathStrings(ps: seq<Path>): (r: seq<string>)
    ensures |r| == |ps| && forall k | 0 <= k < |ps| :: r[k] == PathString(ps[k])
  {
    seq(|ps|, k requires 0 <= k < |ps| => PathString(ps[k]))
  }

  /** Configured directories: relative ones below the node directory, absolute ones as given. */
  function ConfiguredDirs(nodeDir: Path, dirs: seq<string>): (r: seq<string>)
    ensures |r| == |dirs| && forall k | 0 <= k < |dirs| :: r[k] == PathString(Join(nodeDir, dirs[k]))
  {
    seq(|dirs|, k requires 0 <= k < |dirs| => PathString(Join(nodeDir, dirs[k])))
  }

  /** Python's `flag[n:]` on each flag. */
  function Sliced(flags: seq<string>, n: nat): (r: seq<string>)
    ensures |r| == |flags| && forall k | 0 <= k < |flags| :: r[k] == DropPy(flags[k], n)
  {
    seq(|flags|, k requires 0 <= k < |flags| => DropPy(flags[k], n))
  }

  /** The MSVC branch cuts `-I` off the dependency flags and so gets back the dependency's include directories. */
  lemma SlicedIncludes(dirs: seq<string>)
    ensures Sliced(Dependencies.Prefixed("-I", dirs), 2) == dirs
  {
    var r := Sliced(Dependencies.Prefixed("-I", dirs), 2);
    forall k | 0 <= k < |dirs| ensures r[k] == dirs[k] {
      assert ("-I" + dirs[k])[2..] == dirs[k];
    }
  }

  /** Everything the two command lines are made of besides the library lists. */
  datatype CommandInputs = CommandInputs(
    cc: string, isNt: bool, settings: Settings, nodeDir: Path, includes: seq<Path>,
    deps: Dependencies.Flags, buildDir: Path, srcs: seq<Path>, libDir: Path, out: Path, extras: seq<string>)

  /** The `cl` command line: compile and link in one invocation. */
  function MsvcCommand(ci: CommandInputs, libs: seq<string>): seq<string> {
    var s := ci.settings;
    [ci.cc, "/nologo", "/EHsc", "/MD"] + ["/std:" + s.std] + TranslateFlags(s.cxxflags)
    + Pairs("/I", PathStrings(ci.includes))
    + Pairs("/I", Sliced(Dependencies.Prefixed("-I", ci.deps.includeDirs), 2))
    + Pairs("/I", ConfiguredDirs(ci.nodeDir, s.includeDirs))
    + ["/Fo" + PathString(ci.buildDir) + "\\"]
    + PathStrings(ci.srcs)
    + ["/link", "/LIBPATH:" + PathString(ci.libDir)]
    + Dependencies.Prefixed("/LIBPATH:", ci.deps.libDirs)
    + Dependencies.Prefixed("/LIBPATH:", ConfiguredDirs(ci.nodeDir, s.libDirs))
    + s.ldflags + libs + ["/OUT:" + PathString(ci.out)]
  }

  /** The GCC/Clang command line; `search` are the `-L` flags of the Dora library directories. */
  function GccCommand(ci: CommandInputs, search: seq<string>, linked: seq<string>): seq<string> {
    var s := ci.settings;
    [ci.cc] + PathStrings(ci.srcs) + ["-std=" + s.std] + s.cxxflags
    + Pairs("-I", PathStrings(ci.includes))
    + Dependencies.Prefixed("-I", ci.deps.includeDirs)
    + Pairs("-I", ConfiguredDirs(ci.nodeDir, s.includeDirs))
    + search
    + Dependencies.Prefixed("-L", ci.deps.libDirs)
    + Pairs("-L", ConfiguredDirs(ci.nodeDir, s.libDirs))
    + (if ci.isNt then ["-lws2_32"] else ["-pthread"])
    + Pairs("-l", linked)
    + Dependencies.Prefixed("-l", ci.deps.libraries)
    + Pairs("-l", s.libraries)
    + s.ldflags + ci.extras + ["-o", PathString(ci.out)]
  }

  /**
   * The MSVC line starts with the compiler, `/nologo /EHsc /MD` and the
   * standard, and ends with `/OUT:` and the executable.
   */
  lemma MsvcCommandShape(ci: CommandInputs, libs: seq<string>)
    ensures var c := MsvcCommand(ci, libs);
            |c| >= 8 && c[..5] == [ci.cc, "/nologo", "/EHsc", "/MD", "/std:" + ci.settings.std] &&
            c[|c| - 1] == "/OUT:" + PathString(ci.out)
  {
  }

  /**
   * The GCC line starts with the compiler and the sources, then the
   * standard, and ends with `-o` and the executable.
   */
  lemma GccCommandShape(ci: CommandInputs, search: seq<string>, linked: seq<string>)
    ensures var c := GccCommand(ci, search, linked);
            |c| >= |ci.srcs| + 5 && c[0] == ci.cc && c[1..|ci.srcs| + 1] == PathStrings(ci.srcs) &&
            c[|ci.srcs| + 1] == "-std=" + ci.settings.std &&
            c[|c| - 2..] == ["-o", PathString(ci.out)]
  {
    var c := GccCommand(ci, search, linked);
    var head := [ci.cc] + PathStrings(ci.srcs) + ["-std=" + ci.settings.std];
    var rest := c[|head|..];
    assert c == head + rest;
    assert c[1..|ci.srcs| + 1] == head[1..|ci.srcs| + 1];
    assert head[1..|ci.srcs| + 1] == PathStrings(ci.srcs);
  }

  /** The MSVC branch's command assembly. */
  method AssembleMsvc(ci: CommandInputs, libs: seq<string>) returns (cmd: seq<string>)
    ensures cmd == MsvcCommand(ci, libs)
  {
    var s := ci.settings;
    cmd := [ci.cc, "/nologo", "/EHsc", "/MD"];
    cmd := cmd + ["/std:" + s.std];
    var translated := TranslateCxxFlags(s.cxxflags);
    cmd := cmd + translated;
    cmd := AppendPairs(cmd, "/I", PathStrings(ci.includes));
    cmd := AppendPairs(cmd, "/I", Sliced(Dependencies.Prefixed("-I", ci.deps.includeDirs), 2));
    cmd := AppendPairs(cmd, "/I", ConfiguredDirs(ci.nodeDir, s.includeDirs));
    cmd := cmd + ["/Fo" + PathString(ci.buildDir) + "\\"];
    cmd := cmd + PathStrings(ci.srcs);
    cmd := cmd + ["/link", "/LIBPATH:" + PathString(ci.libDir)];
    cmd := cmd + Dependencies.Prefixed("/LIBPATH:", ci.deps.libDirs);
    cmd := cmd + Dependencies.Prefixed("/LIBPATH:", ConfiguredDirs(ci.nodeDir, s.libDirs));
    cmd := cmd + s.ldflags;
    cmd := cmd + libs;
    cmd := cmd + ["/OUT:" + PathString(ci.out)];
  }

  /** The GCC/Clang branch's command assembly. */
  method AssembleGcc(ci: CommandInputs, search: seq<string>, linked: seq<string>) returns (cmd: seq<string>)
    ensures cmd == GccCommand(ci, search, linked)
  {
    var s := ci.settings;
    cmd := [ci.cc] + PathStrings(ci.srcs);
    cmd := cmd + ["-std=" + s.std];
    cmd := cmd + s.cxxflags;
    cmd := AppendPairs(cmd, "-I", PathStrings(ci.includes));
    cmd := cmd + Dependencies.Prefixed("-I", ci.deps.includeDirs);
    cmd := AppendPairs(cmd, "-I", ConfiguredDirs(ci.nodeDir, s.includeDirs));
    cmd := cmd + search;
    cmd := cmd + Dependencies.Prefixed("-L", ci.deps.libDirs);
    cmd := AppendPairs(cmd, "-L", ConfiguredDirs(ci.nodeDir, s.libDirs));
    if ci.isNt {
      cmd := cmd + ["-lws2_32"];
    } else {
      cmd := cmd + ["-pthread"];
    }
    cmd := AppendPairs(cmd, "-l", linked);
    cmd := cmd + Dependencies.Prefixed("-l", ci.deps.libraries);
    cmd := AppendPairs(cmd, "-l", s.libraries);
    cmd := cmd + s.ldflags;
    cmd := cmd + ci.extras;
    cmd := cmd + ["-o", PathString(ci.out)];
  }

  // ---------------------------------------------------------------------
  // Dependencies

  /** The flags `setup_dependencies` leaves in its manager, or the error it raises. */
  function SetupOutcome(h: Dependencies.Host, config: Config.DoracxxConfig): Result<Dependencies.Flags, Dependencies.DepError> {
    var cacheDir := Child(Child(h.home, ".doracxx"), "dependencies");
    match Dependencies.FirstError(h, cacheDir, config.dependencies)
    case Some(e) => Err(e)
    case None =>
      Ok(Dependencies.CollectAll(h, config.dependencies,
                                 Dependencies.Record(map[], Dependencies.ResolvedPrefix(h, cacheDir, config.dependencies))))
  }

  /** `setup_dependencies(config, node_dir, target)`: a fresh manager resolves everything. */
  method SetupDependencies(h: Dependencies.Host, config: Config.DoracxxConfig, nodeDir: Path, target: Path)
    returns (r: Result<Dependencies.Flags, Dependencies.DepError>)
    ensures r == SetupOutcome(h, config)
  {
    var dm := new Dependencies.DependencyManager(config, nodeDir, Some(target), Child(h.home, ".doracxx"));
    var res := dm.ResolveAllDependencies(h);
    if res.Err? {
      return Err(res.error);
    }
    var all := Dependencies.CollectAll(h, config.dependencies, dm.resolvedDeps);
    assert [] + all.includeDirs == all.includeDirs && [] + all.libDirs == all.libDirs && [] + all.libraries == all.libraries;
    return Ok(Dependencies.Flags(dm.includeDirs, dm.libDirs, dm.libraries));
  }

  // ---------------------------------------------------------------------
  // The whole of `compile_node`

  /** What `compile_node` consults besides its arguments. */
  datatype World = World(
    fs: FileSystem,                         // the file system once Dora and the dependencies are in place
    tools: Toolbox,
    host: Dependencies.Host,                // what dependency resolution sees; `host.home` is the home directory
    cwd: Path,
    glob: (Path, string) -> seq<Path>,      // `Path.glob`
    fnmatch: (string, string) -> bool,      // `fnmatch.fnmatch`
    rglob: Path -> seq<Path>,               // `Path.rglob("operator.h")`
    remote: string -> Cache.LsRemote)       // `git ls-remote --tags` of a URL

  /** The arguments of `compile_node`; `doraTarget` is the Dora target directory once prepared. */
  datatype Request = Request(
    nodeDir: Path, outName: string, profile: string, doraTarget: Path, extras: seq<string>,
    config: Option<Config.DoracxxConfig>, doraGit: Option<string>, doraRev: Option<string>)

  /** The compiler command, the header copies and the executable it should produce. */
  datatype Invocation = Invocation(
    command: seq<string>, projectHeaders: seq<(Path, Path)>, depHeaders: seq<(Path, Path)>, output: Path)

  function Preference(config: Option<Config.DoracxxConfig>): Option<Config.Toolchain> {
    if config.Some? then Some(config.value.build.toolchain) else None
  }

  function InstallClang(config: Option<Config.DoracxxConfig>): bool {
    config.Some? && config.value.build.installClang
  }

  function ProjectRoot(w: World, nodeDir: Path): Path {
    Config.FindProjectRoot(w.fs, w.cwd, Some(nodeDir))
  }

  /** `target/<profile>` below the project root, where every artifact goes. */
  function TargetDir(w: World, req: Request): Path {
    ProjectRoot(w, req.nodeDir) + ["target", req.profile]
  }

  function ExeName(outName: string, isNt: bool): string {
    outName + (if isNt then ".exe" else "")
  }

  function OutputPath(w: World, req: Request): Path {
    Child(TargetDir(w, req), ExeName(req.outName, w.tools.isNt))
  }

  /** The node's own sources after exclusion; none left is an error. */
  function NodeSources(w: World, req: Request): Result<seq<Path>, BuildError> {
    var cfg := req.config;
    var found := DiscoverSources(w.fs, req.nodeDir, if cfg.Some? then cfg.value.build.sources else None, w.glob);
    var srcs :- ApplyExcludes(req.nodeDir, if cfg.Some? then cfg.value.build.excludeSources else None, w.fnmatch, found);
    if srcs == [] then Err(NoSources) else Ok(srcs)
  }

  /** The dependency flags; no manager (and so no flags) without configured dependencies. */
  function DependencyFlags(w: World, req: Request): Result<Dependencies.Flags, BuildError> {
    if req.config.Some? && req.config.value.dependencies != [] then
      match SetupOutcome(w.host, req.config.value)
      case Ok(f) => Ok(f)
      case Err(e) => Err(DependencyFailed(e))
    else Ok(Dependencies.NoFlags)
  }

  /** The cached Dora checkout for the requested URL and revision, then the vendored one. */
  function VendorLocations(w: World, req: Request): seq<Path> {
    [Cache.CachePath(w.host.home, Cache.Dora, req.doraGit, req.doraRev, w.remote),
     ProjectRoot(w, req.nodeDir) + ["third_party", "dora"]]
  }

  /** `h` lies below `dir`. */
  predicate Below(h: Path, dir: Path) {
    |dir| <= |h| && h[..|dir|] == dir
  }

  /** The path below `to` with the same path relative to `to` as `h` has relative to `from`. */
  function Moved(h: Path, from: Path, to: Path): Path
    requires Below(h, from)
  {
    to + h[|from|..]
  }

  /** Each header below `from` paired with the same relative path below `to`. */
  function Relocated(headers: seq<Path>, from: Path, to: Path): seq<(Path, Path)>
    decreases |headers|
  {
    if headers == [] then []
    else
      var h := headers[|headers| - 1];
      Relocated(headers[..|headers| - 1], from, to) + (if Below(h, from) then [(h, Moved(h, from, to))] else [])
  }

  /** Copies of the node's `include/**/*.h` into the target's include directory. */
  function ProjectHeaderCopies(w: World, req: Request): seq<(Path, Path)> {
    var src := Child(req.nodeDir, "include");
    if w.fs.Exists(src) then Relocated(w.glob(src, "**/*.h"), src, Child(TargetDir(w, req), "include")) else []
  }

  /** Every copy keeps the header's path relative to the source directory. */
  lemma {:induction false} RelocatedSpec(headers: seq<Path>, from: Path, to: Path)
    ensures forall c | c in Relocated(headers, from, to) :: c.0 in headers && Below(c.0, from) && c.1 == Moved(c.0, from, to)
    ensures forall h | h in headers && Below(h, from) :: (h, Moved(h, from, to)) in Relocated(headers, from, to)
    decreases |headers|
  {
    if headers != [] {
      var init := headers[..|headers| - 1];
      RelocatedSpec(init, from, to);
      assert forall h | h in headers :: h in init || h == headers[|headers| - 1];
      assert forall h | h in init :: h in headers;
    }
  }

  /** The include directories: cxxbridge, then vendored Dora, with the target's own two in front. */
  function Includes(w: World, req: Request, found: seq<Path>): seq<Path> {
    var target := TargetDir(w, req);
    WithTargetIncludes(VendorIncludes(w.fs, VendorLocations(w, req), w.rglob, found), Child(target, "include"), Child(target, "deps"))
  }

  /** The command line for the chosen compiler and everything gathered before it. */
  function Assemble(w: World, req: Request, compiler: Compiler, srcs: seq<Path>, deps: Dependencies.Flags, art: Bridge.Found)
    : (r: Invocation)
    ensures r.output == OutputPath(w, req)
  {
    var target := TargetDir(w, req);
    var incs := Includes(w, req, art.includes);
    var libDir := LibDir(w.fs, req.doraTarget, req.profile);
    var avail := AvailableLibs(w.fs, w.fs.Entries(libDir), compiler.kind);
    var ci := CommandInputs(compiler.cc, w.tools.isNt, SettingsOf(req.config), req.nodeDir, incs, deps,
                            Child(target, "build"), srcs + KeptGenerated(avail, art.sources), libDir, OutputPath(w, req), req.extras);
    var cmd :=
      if compiler.kind == MsvcKind then
        MsvcCommand(ci, MsvcLibs(DoraLibFiles(w.fs, w.fs.Entries(libDir)), deps.libraries, ci.settings.libraries))
      else GccCommand(ci, SearchFlags(w.fs, GccLibDirs(libDir)), GccLinked(w.fs, libDir));
    Invocation(cmd, ProjectHeaderCopies(w, req), HeaderCopies(w.fs, req.doraTarget, req.profile, Child(target, "deps")), OutputPath(w, req))
  }

  /** `compile_node` up to running the compiler: each failure in the order the source checks for it. */
  function Plan(w: World, req: Request): Result<Invocation, BuildError> {
    var compiler :- SelectCompiler(w.tools, Preference(req.config), InstallClang(req.config));
    var srcs :- NodeSources(w, req);
    var deps :- DependencyFlags(w, req);
    var art := Bridge.Artifacts(w.fs, req.doraTarget, req.profile);
    if art.includes == [] && art.sources == [] then Err(NoCxxbridgeOutputs)
    else Ok(Assemble(w, req, compiler, srcs, deps, art))
  }

  /** The node's sources fail only for a source outside the node directory or for none at all. */
  lemma NodeSourcesErrors(w: World, req: Request)
    ensures NodeSources(w, req).Err? ==> NodeSources(w, req).error.NoSources? || NodeSources(w, req).error.SourceOutsideNode?
    ensures NodeSources(w, req).Ok? ==> NodeSources(w, req).value != []
  {
    var found := DiscoverSources(w.fs, req.nodeDir, if req.config.Some? then req.config.value.build.sources else None, w.glob);
    ExcludesSpec(req.nodeDir, if req.config.Some? then req.config.value.build.excludeSources else None, w.fnmatch, found);
  }

  /**
   * No compiler is reported before anything else, then the source errors
   * (a source outside the node directory, or no source at all).
   */
  lemma PlanSpec(w: World, req: Request)
    ensures SelectCompiler(w.tools, Preference(req.config), InstallClang(req.config)).Err? ==> Plan(w, req) == Err(NoCompiler)
    ensures SelectCompiler(w.tools, Preference(req.config), InstallClang(req.config)).Ok? && NodeSources(w, req).Err? ==>
              Plan(w, req) == Err(NodeSources(w, req).error) &&
              (Plan(w, req).error.NoSources? || Plan(w, req).error.SourceOutsideNode?)
  {
    SelectCompilerSpec(w.tools, Preference(req.config), InstallClang(req.config));
    NodeSourcesErrors(w, req);
  }

  /**
   * A failed dependency carries the resolution error of the configured
   * dependencies; missing cxxbridge outputs mean neither headers nor
   * sources were found; a plan that goes through has at least one node source.
   */
  lemma PlanLaterErrors(w: World, req: Request)
    ensures Plan(w, req).Err? && Plan(w, req).error.DependencyFailed? ==>
              req.config.Some? && SetupOutcome(w.host, req.config.value) == Err(Plan(w, req).error.cause)
    ensures Plan(w, req) == Err(NoCxxbridgeOutputs) ==>
              var art := Bridge.Artifacts(w.fs, req.doraTarget, req.profile); art.includes == [] && art.sources == []
    ensures Plan(w, req).Ok? ==>
              NodeSources(w, req).Ok? && NodeSources(w, req).value != []
  {
    NodeSourcesErrors(w, req);
    var c := SelectCompiler(w.tools, Preference(req.config), InstallClang(req.config));
    var n := NodeSources(w, req);
    var d := DependencyFlags(w, req);
    if c.Ok? && n.Ok? && d.Err? {
      assert Plan(w, req) == Err(d.error);
    }
  }

  /** A plan produces the executable under `target/<profile>` of the project root. */
  lemma PlanOutput(w: World, req: Request)
    ensures Plan(w, req).Ok? ==> Plan(w, req).value.output == OutputPath(w, req)
    ensures OutputPath(w, req) == ProjectRoot(w, req.nodeDir) + ["target", req.profile, ExeName(req.outName, w.tools.isNt)]
  {
    var c := SelectCompiler(w.tools, Preference(req.config), InstallClang(req.config));
    var s := NodeSources(w, req);
    var d := DependencyFlags(w, req);
    var art := Bridge.Artifacts(w.fs, req.doraTarget, req.profile);
    if Plan(w, req).Ok? {
      assert Plan(w, req).value == Assemble(w, req, c.value, s.value, d.value, art);
    }
    OutputPathShape(w, req);
  }

  lemma OutputPathShape(w: World, req: Request)
    ensures OutputPath(w, req) == ProjectRoot(w, req.nodeDir) + ["target", req.profile, ExeName(req.outName, w.tools.isNt)]
  {
    AppendThird(ProjectRoot(w, req.nodeDir), "target", req.profile, ExeName(req.outName, w.tools.isNt));
  }

  /** The include directories of a plan: the target's include and deps directories, then the cxxbridge and vendor ones. */
  lemma PlanIncludes(w: World, req: Request, found: seq<Path>)
    ensures var target := TargetDir(w, req);
            var vendored := VendorIncludes(w.fs, VendorLocations(w, req), w.rglob, found);
            var incs := Includes(w, req, found);
            (Child(target, "include") !in vendored ==> incs[0] == Child(target, "include")) &&
            (Child(target, "deps") !in vendored ==> incs[1] == Child(target, "deps")) &&
            (forall x :: x in incs <==> x in vendored || x == Child(target, "include") || x == Child(target, "deps")) &&
            (Distinct(found) ==> Distinct(incs))
  {
    var target := TargetDir(w, req);
    var vendored := VendorIncludes(w.fs, VendorLocations(w, req), w.rglob, found);
    assert Child(target, "include")[|target|] != Child(target, "deps")[|target|];
    TargetIncludesOrder(vendored, Child(target, "include"), Child(target, "deps"));
    VendorIncludesSpec(w.fs, VendorLocations(w, req), w.rglob, found);
  }

  /** The dependency step of `compile_node`: a manager is set up only when dependencies are configured. */
  method ResolveNodeDependencies(w: World, req: Request) returns (r: Result<Dependencies.Flags, BuildError>)
    ensures r == DependencyFlags(w, req)
  {
    var cfg := req.config;
    if cfg.Some? && cfg.value.dependencies != [] {
      var res := SetupDependencies(w.host, cfg.value, req.nodeDir, TargetDir(w, req));
      if res.Err? {
        return Err(DependencyFailed(res.error));
      }
      return Ok(res.value);
    }
    return Ok(Dependencies.NoFlags);
  }

  /** `compile_node` with its steps in source order, up to the compiler run. */
  method CompileNode(w: World, req: Request) returns (r: Result<Invocation, BuildError>)
    ensures r == Plan(w, req)
  {
    var cfg := req.config;
    var compiler :- FindCompiler(w.tools, Preference(cfg), InstallClang(cfg));
    var found := CollectSources(w.fs, req.nodeDir, if cfg.Some? then cfg.value.build.sources else None, w.glob);
    var srcs :- ExcludeSources(req.nodeDir, if cfg.Some? then cfg.value.build.excludeSources else None, w.fnmatch, found);
    if srcs == [] {
      return Err(NoSources);
    }
    var deps :- ResolveNodeDependencies(w, req);
    var includes, generated := Bridge.FindCxxbridgeArtifacts(w.fs, req.doraTarget, req.profile);
    assert Bridge.Artifacts(w.fs, req.doraTarget, req.profile) == Bridge.Found(includes, generated);
    if includes == [] && generated == [] {
      return Err(NoCxxbridgeOutputs);
    }
    var inv := BuildInvocation(w, req, compiler, srcs, deps, includes, generated);
    return Ok(inv);
  }

  /** The part of `compile_node` after the cxxbridge outputs are found, up to the compiler run. */
  method BuildInvocation(w: World, req: Request, compiler: Compiler, srcs: seq<Path>, deps: Dependencies.Flags,
                         found: seq<Path>, generated: seq<Path>) returns (inv: Invocation)
    ensures inv == Assemble(w, req, compiler, srcs, deps, Bridge.Found(found, generated))
  {
    var target := TargetDir(w, req);
    var includes := AddVendorIncludes(w.fs, VendorLocations(w, req), w.rglob, found);
    var projectInclude := Child(target, "include");
    if projectInclude !in includes {
      includes := PyInsert(includes, 0, projectInclude);
    }
    var depsInclude := Child(target, "deps");
    if depsInclude !in includes {
      includes := PyInsert(includes, 1, depsInclude);
    }
    assert includes == Includes(w, req, found);
    var projectCopies := ProjectHeaderCopies(w, req);
    var depCopies := CopyHeaders(w.fs, req.doraTarget, req.profile, depsInclude);
    var libDir := LibDir(w.fs, req.doraTarget, req.profile);
    var avail := CollectAvailableLibs(w.fs, libDir, compiler.kind);
    var filtered := FilterGenerated(avail, generated);
    var ci := CommandInputs(compiler.cc, w.tools.isNt, SettingsOf(req.config), req.nodeDir, includes, deps,
                            Child(target, "build"), srcs + filtered, libDir, OutputPath(w, req), req.extras);
    var cmd;
    if compiler.kind == MsvcKind {
      var libs := CollectMsvcLibs(w.fs, libDir, deps.libraries, ci.settings.libraries);
      cmd := AssembleMsvc(ci, libs);
    } else {
      var search, linked := CollectGccLinked(w.fs, libDir);
      cmd := AssembleGcc(ci, search, linked);
    }
    inv := Invocation(cmd, projectCopies, depCopies, OutputPath(w, req));
  }

  // ---------------------------------------------------------------------
  // `main`

  /** The command-line options `main` reads; flags not given are `None`. */
  datatype Args = Args(profile: Option<string>, doraGit: Option<string>, doraRev: Option<string>,
                       out: Option<string>, installClang: bool)

  /** The values `main` passes on. */
  datatype RunSettings = RunSettings(profile: string, doraGit: string, doraRev: Option<string>,
                                     outName: string, installClang: bool)

  const DefaultDoraGit := "https://github.com/dora-rs/dora"

  /** `main`'s settings: a command-line value wins, then the configuration, then the built-in default. */
  function MainSettings(args: Args, config: Option<Config.DoracxxConfig>): RunSettings {
    match config
    case Some(c) =>
      RunSettings(
        if Truthy(args.profile) then args.profile.value else c.build.profile,
        if Truthy(args.doraGit) then args.doraGit.value else if Truthy(c.node.doraGit) then c.node.doraGit.value else DefaultDoraGit,
        OrElse(args.doraRev, c.node.doraRev),
        if Truthy(args.out) then args.out.value else c.node.name,
        args.installClang || c.build.installClang)
    case None =>
      RunSettings(
        if Truthy(args.profile) then args.profile.value else "debug",
        if Truthy(args.doraGit) then args.doraGit.value else DefaultDoraGit,
        args.doraRev,
        if Truthy(args.out) then args.out.value else "node",
        args.installClang)
  }

  /**
   * Options given on the command line override the configuration; without
   * either, the profile is `debug`, the executable `node` and Dora comes
   * from its GitHub repository.
   */
  lemma CommandLineWins(args: Args, config: Option<Config.DoracxxConfig>)
    ensures var s := MainSettings(args, config);
            (Truthy(args.profile) ==> s.profile == args.profile.value) &&
            (Truthy(args.doraGit) ==> s.doraGit == args.doraGit.value) &&
            (Truthy(args.doraRev) ==> s.doraRev == args.doraRev) &&
            (Truthy(args.out) ==> s.outName == args.out.value) &&
            (args.installClang ==> s.installClang) &&
            s.doraGit != ""
    ensures config.None? ==>
              var s := MainSettings(args, config);
              (!Truthy(args.profile) ==> s.profile == "debug") &&
              (!Truthy(args.out) ==> s.outName == "node") &&
              (!Truthy(args.doraGit) ==> s.doraGit == DefaultDoraGit) &&
              s.doraRev == args.doraRev && s.installClang == args.installClang
    ensures config.Some? && !Truthy(args.profile) ==> MainSettings(args, config).profile == config.value.build.profile
  {
  }

  /** The `compile_node` call `main` makes. */
  function MainRequest(nodeDir: Path, doraTarget: Path, s: RunSettings, config: Option<Config.DoracxxConfig>): Request {
    Request(nodeDir, s.outName, s.profile, doraTarget, ["-l", "dora_node_api_cxx"], config, Some(s.doraGit), s.doraRev)
  }

  /** What `compile_node` ends with: the executable once the compiler ran and it exists, else the error. */
  function CompileResult(plan: Result<Invocation, BuildError>, compilerSucceeded: bool, exeExists: bool): Result<Path, BuildError> {
    var inv :- plan;
    if !compilerSucceeded then Err(CompileFailed)
    else if exeExists then Ok(inv.output)
    else Err(ExecutableMissing(inv.output))
  }

  /** `main`'s exit status: any failure of `compile_node` is forgiven when the expected executable exists. */
  function MainExit(w: World, req: Request, after: FileSystem, compilerSucceeded: bool): int {
    var exe := OutputPath(w, req);
    var r := CompileResult(Plan(w, req), compilerSucceeded, after.Exists(exe));
    if r.Ok? || after.Exists(exe) then 0 else 1
  }

  /**
   * The build fails exactly when the executable is missing from
   * `target/<profile>` afterwards, whatever went wrong before; a
   * successful `compile_node` names that executable.
   */
  lemma MainExitSpec(w: World, req: Request, after: FileSystem, compilerSucceeded: bool)
    ensures MainExit(w, req, after, compilerSucceeded) == 1 <==> !after.Exists(OutputPath(w, req))
    ensures MainExit(w, req, after, compilerSucceeded) == 0 || MainExit(w, req, after, compilerSucceeded) == 1
    ensures var r := CompileResult(Plan(w, req), compilerSucceeded, after.Exists(OutputPath(w, req)));
            r.Ok? <==> Plan(w, req).Ok? && compilerSucceeded && after.Exists(OutputPath(w, req))
    ensures var r := CompileResult(Plan(w, req), compilerSucceeded, after.Exists(OutputPath(w, req)));
            r.Ok? ==> r.value == OutputPath(w, req)
  {
    PlanOutput(w, req);
  }
}
