/**
 * The older `build-cxx-node.py`, the script the command-line tool runs:
 * the same discovery and filtering steps as `compile_node` of
 * `build_cxx_node.py`, but without a configuration or dependencies, with
 * fixed compiler flags, the node's own `include` and `deps` directories,
 * an unversioned Dora cache, and an executable built in the build
 * directory and then copied to `target/<profile>` of the working directory.
 */
module LegacyBuild {
  import opened Wrappers
  import opened Paths
  import Cache
  import Bridge
  import Dependencies
  import opened CompileSteps
  import opened BuildNode

  // ---------------------------------------------------------------------
  // Compiler selection

  /** Windows tries `cl`, `clang-cl`, `clang++`, `g++`; elsewhere `clang++` then `g++`, both GCC-style. */
  function LegacyCandidates(isNt: bool): seq<(string, Kind)> {
    if isNt then WindowsOrder else UnixOrder
  }

  /** The compiler the script settles on; on Windows, clang is always installed for a retry. */
  function SelectLegacyCompiler(tb: Toolbox): Result<Compiler, BuildError> {
    if EnvUsable(tb) then Ok(Compiler(EnvCompiler(tb).value, EnvKind(EnvCompiler(tb).value)))
    else
      match FirstFound(tb.which, LegacyCandidates(tb.isNt))
      case Some(c) => Ok(c)
      case None =>
        var retry := if tb.isNt && tb.clangInstalled then FirstFound(tb.whichAfterInstall, RetryOrder) else None;
        if retry.Some? then Ok(retry.value) else Err(NoCompiler)
  }

  /**
   * The script picks the compiler that `compile_node` of the newer builder
   * picks with no configuration and clang installation requested: the same
   * candidates, kinds and retry.
   */
  lemma LegacySelectionIsUnconfigured(tb: Toolbox)
    ensures LegacyCandidates(tb.isNt) == Candidates(None, tb.isNt)
    ensures SelectLegacyCompiler(tb) == SelectCompiler(tb, None, true)
  {
  }

  /** The compiler-selection part of the script. */
  method FindLegacyCompiler(tb: Toolbox) returns (r: Result<Compiler, BuildError>)
    ensures r == SelectLegacyCompiler(tb)
  {
    var env := OrElse(tb.cxx, tb.cxxCompiler);
    if Truthy(env) && tb.which(env.value).Some? {
      return Ok(Compiler(env.value, EnvKind(env.value)));
    }
    var found := SearchCandidates(tb.which, LegacyCandidates(tb.isNt));
    if found.None? && tb.isNt && tb.clangInstalled {
      found := SearchCandidates(tb.whichAfterInstall, RetryOrder);
    }
    if found.None? {
      return Err(NoCompiler);
    }
    return Ok(found.value);
  }

  // ---------------------------------------------------------------------
  // Dora locations

  /** `get_dora_cache_path()`: one unversioned checkout below the home directory. */
  function DoraCachePath(home: Path): Path {
    home + [".doracxx", "dora"]
  }

  /** `find_dora_target_dir()`: the cached checkout's target, else the vendored one's, else the working directory's. */
  function FindDoraTarget(fs: FileSystem, home: Path, cwd: Path): Path {
    var cached := Child(DoraCachePath(home), "target");
    var local := cwd + ["third_party", "dora", "target"];
    if fs.Exists(cached) then cached
    else if fs.Exists(local) then local
    else Child(cwd, "target")
  }

  /** The first existing of the cached and the vendored target wins, with the working directory's target as the last resort. */
  lemma FindDoraTargetSpec(fs: FileSystem, home: Path, cwd: Path)
    ensures var cached := home + [".doracxx", "dora", "target"];
            var local := cwd + ["third_party", "dora", "target"];
            var r := FindDoraTarget(fs, home, cwd);
            (fs.Exists(cached) ==> r == cached) &&
            (!fs.Exists(cached) && fs.Exists(local) ==> r == local) &&
            (!fs.Exists(cached) && !fs.Exists(local) ==> r == cwd + ["target"])
    ensures Name(FindDoraTarget(fs, home, cwd)) == "target"
  {
    assert Child(DoraCachePath(home), "target") == home + [".doracxx", "dora", "target"];
  }

  // ---------------------------------------------------------------------
  // Command lines

  /** The MSVC command: fixed flags, includes, sources, then the libraries and the build-directory output. */
  function LegacyMsvcCommand(cc: string, includes: seq<Path>, srcs: seq<Path>, libDir: Path, libs: seq<string>, out: Path): seq<string> {
    [cc, "/nologo", "/EHsc", "/std:c++17", "/MD"]
    + Pairs("/I", PathStrings(includes))
    + PathStrings(srcs)
    + ["/link", "/LIBPATH:" + PathString(libDir)]
    + libs
    + ["/OUT:" + PathString(out)]
  }

  /** The GCC/Clang command: sources, then `-std=c++17`, includes, library search and linked libraries. */
  function LegacyGccCommand(cc: string, srcs: seq<Path>, includes: seq<Path>, search: seq<string>, linked: seq<string>,
                            isNt: bool, extras: seq<string>, out: Path): seq<string> {
    [cc] + PathStrings(srcs) + ["-std=c++17"]
    + Pairs("-I", PathStrings(includes))
    + search
    + (if isNt then ["-lws2_32"] else ["-pthread"])
    + Pairs("-l", linked)
    + extras + ["-o", PathString(out)]
  }

  /** The script's MSVC line starts with the compiler, `/nologo /EHsc /std:c++17 /MD`, and ends with the output. */
  lemma LegacyMsvcShape(cc: string, includes: seq<Path>, srcs: seq<Path>, libDir: Path, libs: seq<string>, out: Path)
    ensures var c := LegacyMsvcCommand(cc, includes, srcs, libDir, libs, out);
            |c| >= 8 && c[..5] == [cc, "/nologo", "/EHsc", "/std:c++17", "/MD"] && c[|c| - 1] == "/OUT:" + PathString(out)
  {
  }

  /**
   * The script's GCC line is the newer builder's GCC line for no
   * configuration and no dependencies: the two only differ in where the
   * output goes and which include directories come first.
   */
  lemma LegacyGccIsUnconfigured(cc: string, srcs: seq<Path>, includes: seq<Path>, search: seq<string>, linked: seq<string>,
                                isNt: bool, extras: seq<string>, out: Path, nodeDir: Path, buildDir: Path, libDir: Path)
    ensures LegacyGccCommand(cc, srcs, includes, search, linked, isNt, extras, out) ==
            GccCommand(CommandInputs(cc, isNt, SettingsOf(None), nodeDir, includes, Dependencies.NoFlags,
                                     buildDir, srcs, libDir, out, extras), search, linked)
  {
    var ci := CommandInputs(cc, isNt, SettingsOf(None), nodeDir, includes, Dependencies.NoFlags, buildDir, srcs, libDir, out, extras);
    assert Dependencies.Prefixed("-I", []) == [] && Dependencies.Prefixed("-L", []) == [] && Dependencies.Prefixed("-l", []) == [];
    assert ConfiguredDirs(nodeDir, []) == [];
    assert Pairs("-I", []) == [] && Pairs("-L", []) == [] && Pairs("-l", []) == [];
    assert "-std=" + ci.settings.std == "-std=c++17";
    assert ci.settings.cxxflags == [] && ci.settings.ldflags == [];
  }

  /** The MSVC branch's command assembly. */
  method AssembleLegacyMsvc(cc: string, includes: seq<Path>, srcs: seq<Path>, libDir: Path, libs: seq<string>, out: Path)
    returns (cmd: seq<string>)
    ensures cmd == LegacyMsvcCommand(cc, includes, srcs, libDir, libs, out)
  {
    cmd := [cc, "/nologo", "/EHsc", "/std:c++17", "/MD"];
    cmd := AppendPairs(cmd, "/I", PathStrings(includes));
    cmd := cmd + PathStrings(srcs);
    cmd := cmd + ["/link", "/LIBPATH:" + PathString(libDir)];
    cmd := cmd + libs;
    cmd := cmd + ["/OUT:" + PathString(out)];
  }

  /** The GCC/Clang branch's command assembly. */
  method AssembleLegacyGcc(cc: string, srcs: seq<Path>, includes: seq<Path>, search: seq<string>, linked: seq<string>,
                           isNt: bool, extras: seq<string>, out: Path) returns (cmd: seq<string>)
    ensures cmd == LegacyGccCommand(cc, srcs, includes, search, linked, isNt, extras, out)
  {
    cmd := [cc] + PathStrings(srcs);
    cmd := cmd + ["-std=c++17"];
    cmd := AppendPairs(cmd, "-I", PathStrings(includes));
    cmd := cmd + search;
    if isNt {
      cmd := cmd + ["-lws2_32"];
    } else {
      cmd := cmd + ["-pthread"];
    }
    cmd := AppendPairs(cmd, "-l", linked);
    cmd := cmd + extras;
    cmd := cmd + ["-o", PathString(out)];
  }

  // ---------------------------------------------------------------------
  // The whole of the script's `compile_node`

  /** What the script consults besides its arguments. */
  datatype LegacyWorld = LegacyWorld(
    fs: FileSystem,
    tools: Toolbox,
    home: Path,
    cwd: Path,
    glob: (Path, string) -> seq<Path>,   // `Path.glob`
    rglob: Path -> seq<Path>)            // `Path.rglob("operator.h")`

  /** The arguments of the script's `compile_node`. */
  datatype LegacyRequest = LegacyRequest(
    nodeDir: Path, buildDir: Path, outName: string, profile: string, doraTarget: Path, extras: seq<string>)

  /** Where the compiler writes the executable. */
  function BuildOutput(w: LegacyWorld, req: LegacyRequest): Path {
    Child(req.buildDir, ExeName(req.outName, w.tools.isNt))
  }

  /** Where the executable is copied: `target/<profile>` of the working directory. */
  function TargetOutput(w: LegacyWorld, req: LegacyRequest): Path {
    w.cwd + ["target", req.profile, ExeName(req.outName, w.tools.isNt)]
  }

  /** The include directories: cxxbridge, then vendored Dora, with the node's `include` and `deps` in front. */
  function LegacyIncludes(w: LegacyWorld, req: LegacyRequest, found: seq<Path>): seq<Path> {
    var locations := [DoraCachePath(w.home), w.cwd + ["third_party", "dora"]];
    WithTargetIncludes(VendorIncludes(w.fs, locations, w.rglob, found), Child(req.nodeDir, "include"), Child(req.nodeDir, "deps"))
  }

  function LegacyAssemble(w: LegacyWorld, req: LegacyRequest, compiler: Compiler, srcs: seq<Path>, art: Bridge.Found): (r: Invocation)
    ensures r.output == BuildOutput(w, req)
  {
    var incs := LegacyIncludes(w, req, art.includes);
    var libDir := LibDir(w.fs, req.doraTarget, req.profile);
    var all := srcs + KeptGenerated(AvailableLibs(w.fs, w.fs.Entries(libDir), compiler.kind), art.sources);
    var cmd :=
      if compiler.kind == MsvcKind then
        LegacyMsvcCommand(compiler.cc, incs, all, libDir, MsvcLibs(DoraLibFiles(w.fs, w.fs.Entries(libDir)), [], []), BuildOutput(w, req))
      else
        LegacyGccCommand(compiler.cc, all, incs, SearchFlags(w.fs, GccLibDirs(libDir)), GccLinked(w.fs, libDir),
                         w.tools.isNt, req.extras, BuildOutput(w, req));
    Invocation(cmd, [], HeaderCopies(w.fs, req.doraTarget, req.profile, Child(req.nodeDir, "deps")), BuildOutput(w, req))
  }

  /** The script's `compile_node` up to the compiler run: the default globs only, and no dependency step. */
  function LegacyPlan(w: LegacyWorld, req: LegacyRequest): Result<Invocation, BuildError> {
    var compiler :- SelectLegacyCompiler(w.tools);
    var srcs := Globbed(req.nodeDir, DefaultPatterns, w.glob);
    if srcs == [] then Err(NoSources)
    else
      var art := Bridge.Artifacts(w.fs, req.doraTarget, req.profile);
      if art.includes == [] && art.sources == [] then Err(NoCxxbridgeOutputs)
      else Ok(LegacyAssemble(w, req, compiler, srcs, art))
  }

  /**
   * No compiler is reported first, then no sources, then missing cxxbridge
   * outputs; the executable is built in the build directory.
   */
  lemma LegacyPlanSpec(w: LegacyWorld, req: LegacyRequest)
    ensures SelectLegacyCompiler(w.tools).Err? ==> LegacyPlan(w, req) == Err(NoCompiler)
    ensures SelectLegacyCompiler(w.tools).Ok? && Globbed(req.nodeDir, DefaultPatterns, w.glob) == [] ==> LegacyPlan(w, req) == Err(NoSources)
    ensures LegacyPlan(w, req).Err? ==> LegacyPlan(w, req).error in {NoCompiler, NoSources, NoCxxbridgeOutputs}
    ensures LegacyPlan(w, req).Ok? ==> LegacyPlan(w, req).value.output == BuildOutput(w, req) &&
                                       Globbed(req.nodeDir, DefaultPatterns, w.glob) != []
  {
    LegacySelectionIsUnconfigured(w.tools);
    SelectCompilerSpec(w.tools, None, true);
  }

  /** The script's `compile_node` with its steps in source order, up to the compiler run. */
  method LegacyCompileNode(w: LegacyWorld, req: LegacyRequest) returns (r: Result<Invocation, BuildError>)
    ensures r == LegacyPlan(w, req)
  {
    var compiler :- FindLegacyCompiler(w.tools);
    var srcs := CollectSources(w.fs, req.nodeDir, None, w.glob);
    if srcs == [] {
      return Err(NoSources);
    }
    var includes, generated := Bridge.FindCxxbridgeArtifacts(w.fs, req.doraTarget, req.profile);
    assert Bridge.Artifacts(w.fs, req.doraTarget, req.profile) == Bridge.Found(includes, generated);
    if includes == [] && generated == [] {
      return Err(NoCxxbridgeOutputs);
    }
    var inv := LegacyBuildInvocation(w, req, compiler, srcs, includes, generated);
    return Ok(inv);
  }

  /** The part of the script's `compile_node` after the cxxbridge outputs are found. */
  method LegacyBuildInvocation(w: LegacyWorld, req: LegacyRequest, compiler: Compiler, srcs: seq<Path>,
                               found: seq<Path>, generated: seq<Path>) returns (inv: Invocation)
    ensures inv == LegacyAssemble(w, req, compiler, srcs, Bridge.Found(found, generated))
  {
    var includes := AddVendorIncludes(w.fs, [DoraCachePath(w.home), w.cwd + ["third_party", "dora"]], w.rglob, found);
    var projectInclude := Child(req.nodeDir, "include");
    if projectInclude !in includes {
      includes := PyInsert(includes, 0, projectInclude);
    }
    var depsInclude := Child(req.nodeDir, "deps");
    if depsInclude !in includes {
      includes := PyInsert(includes, 1, depsInclude);
    }
    assert includes == LegacyIncludes(w, req, found);
    var copies := CopyHeaders(w.fs, req.doraTarget, req.profile, depsInclude);
    var libDir := LibDir(w.fs, req.doraTarget, req.profile);
    var avail := CollectAvailableLibs(w.fs, libDir, compiler.kind);
    var filtered := FilterGenerated(avail, generated);
    var all := srcs + filtered;
    var cmd;
    if compiler.kind == MsvcKind {
      var libs := CollectMsvcLibs(w.fs, libDir, [], []);
      cmd := AssembleLegacyMsvc(compiler.cc, includes, all, libDir, libs, BuildOutput(w, req));
    } else {
      var search, linked := CollectGccLinked(w.fs, libDir);
      cmd := AssembleLegacyGcc(compiler.cc, all, includes, search, linked, w.tools.isNt, req.extras, BuildOutput(w, req));
    }
    inv := Invocation(cmd, [], copies, BuildOutput(w, req));
  }

  // ---------------------------------------------------------------------
  // Copying the executable and `main`

  /**
   * What the script's `compile_node` ends with: the copy in `target` when
   * copying succeeded, the build-directory executable when it failed, and
   * an error when the compiler failed or produced nothing.
   */
  function LegacyResult(w: LegacyWorld, req: LegacyRequest, compilerSucceeded: bool, built: bool, copied: bool)
    : Result<Path, BuildError>
  {
    var inv :- LegacyPlan(w, req);
    if !compilerSucceeded then Err(CompileFailed)
    else if !built then Err(ExecutableMissing(inv.output))
    else if copied then Ok(TargetOutput(w, req))
    else Ok(inv.output)
  }

  /** The exit status of the script's `main`: failure is forgiven when either executable exists. */
  function LegacyMainExit(w: LegacyWorld, req: LegacyRequest, after: FileSystem, compilerSucceeded: bool, copied: bool): int {
    var r := LegacyResult(w, req, compilerSucceeded, after.Exists(BuildOutput(w, req)), copied);
    if r.Ok? || after.Exists(TargetOutput(w, req)) || after.Exists(BuildOutput(w, req)) then 0 else 1
  }

  /**
   * A successful build returns the `target` copy exactly when copying
   * worked and the build-directory executable otherwise; a missing
   * executable is an error; and `main` exits with 1 only when neither
   * location holds the executable.
   */
  lemma LegacyOutcome(w: LegacyWorld, req: LegacyRequest, after: FileSystem, compilerSucceeded: bool, copied: bool)
    ensures var r := LegacyResult(w, req, compilerSucceeded, after.Exists(BuildOutput(w, req)), copied);
            r.Ok? ==> LegacyPlan(w, req).Ok? && compilerSucceeded && after.Exists(BuildOutput(w, req)) &&
                      (r.value == TargetOutput(w, req) <==> copied || TargetOutput(w, req) == BuildOutput(w, req)) &&
                      (r.value == TargetOutput(w, req) || r.value == BuildOutput(w, req))
    ensures var r := LegacyResult(w, req, compilerSucceeded, after.Exists(BuildOutput(w, req)), copied);
            LegacyPlan(w, req).Ok? && compilerSucceeded && !after.Exists(BuildOutput(w, req)) ==>
              r == Err(ExecutableMissing(BuildOutput(w, req)))
    ensures LegacyMainExit(w, req, after, compilerSucceeded, copied) == 1 <==>
              !after.Exists(TargetOutput(w, req)) && !after.Exists(BuildOutput(w, req))
  {
    LegacyPlanSpec(w, req);
  }
}
