/**
 * `prepare_arrow.py`: choosing the Arrow release, the CMake generator and
 * the CMake command lines that build a minimal shared Arrow C++ library,
 * checking an installation, and the script's `main` that reuses a verified
 * installation or builds and checks a fresh one.
 */
module PrepareArrow {
  import opened Wrappers
  import opened Strings
  import opened Paths
  import Cache

  // ---------------------------------------------------------------------
  // The latest release

  /** The release used when the GitHub query gives no answer. */
  const FallbackRelease := "apache-arrow-21.0.0"

  /**
   * What the query of the latest GitHub release gives: an error the script
   * catches (the network, JSON that does not decode), an error that escapes
   * it (a read that fails once connected, an answer that is not a JSON
   * object), or a JSON object and its `tag_name` field.
   */
  datatype ReleaseQuery = QueryFailed | QueryRaised | Answer(tag: TagField)

  /** The `tag_name` field of the answer: absent, `null`, or a string. */
  datatype TagField = NoTag | NullTag | Tag(name: string)

  /**
   * `get_latest_arrow_release`: the tag, `None` for a `null` tag, or the
   * error that escapes the script.
   */
  function LatestArrowRelease(q: ReleaseQuery): Result<Option<string>, PrepareError> {
    match q
    case QueryFailed => Ok(Some(FallbackRelease))
    case QueryRaised => Err(ReleaseQueryRaised)
    case Answer(NoTag) => Ok(Some(FallbackRelease))
    case Answer(NullTag) => Ok(None)
    case Answer(Tag(t)) => Ok(Some(t))
  }

  /**
   * A caught error and an answer without `tag_name` both give the fallback
   * release; a tag is used as reported; only a `null` tag gives `None`, and
   * only an escaping error fails.
   */
  lemma LatestArrowReleaseSpec(q: ReleaseQuery)
    ensures LatestArrowRelease(q).Err? <==> q.QueryRaised?
    ensures LatestArrowRelease(q) == Ok(None) <==> q == Answer(NullTag)
    ensures q.QueryFailed? || q == Answer(NoTag) ==> LatestArrowRelease(q) == Ok(Some("apache-arrow-21.0.0"))
    ensures q.Answer? && q.tag.Tag? ==> LatestArrowRelease(q) == Ok(Some(q.tag.name))
    ensures LatestArrowRelease(q).Ok? && LatestArrowRelease(q).value.Some? &&
            LatestArrowRelease(q).value.value != FallbackRelease ==>
              q == Answer(Tag(LatestArrowRelease(q).value.value))
  {
  }

  // ---------------------------------------------------------------------
  // The CMake generator

  /** What running `cmake --help` does: cmake is missing, it fails, or it prints its help. */
  datatype CmakeHelp = CmakeMissing | HelpFailed | Help(stdout: string)

  /** The machine the library is built on. */
  datatype Host = Host(isNt: bool, ninjaOnPath: bool, cmakeHelp: CmakeHelp, cpuCount: Option<nat>)

  datatype PrepareError =
    | CmakeNotFound
    | CppDirMissing(dir: Path)
    | CommandFailed(cmd: seq<string>)
    | IncludeDirMissing(dir: Path)
    | LibDirMissing(dir: Path)
    | NoArrowLibraries(dir: Path)
    | CloneFailed
    | ReleaseQueryRaised
    | CheckoutOfNothing
    | GitNotFound

  /**
   * `detect_cmake_generator`: `None` lets CMake choose (a Visual Studio
   * generator); a missing cmake escapes as an error.
   */
  function DetectGenerator(h: Host): Result<Option<string>, PrepareError> {
    if h.ninjaOnPath then Ok(Some("Ninja"))
    else if h.isNt then
      match h.cmakeHelp
      case CmakeMissing => Err(CmakeNotFound)
      case HelpFailed => Ok(Some("MinGW Makefiles"))
      case Help(out) => if Contains(out, "Visual Studio") then Ok(None) else Ok(Some("MinGW Makefiles"))
    else Ok(Some("Unix Makefiles"))
  }

  /**
   * Ninja wins wherever it is installed; CMake's own choice is left only on
   * Windows when its help mentions Visual Studio; cmake is only probed, and
   * can only be found missing, on Windows without Ninja.
   */
  lemma DetectGeneratorSpec(h: Host)
    ensures h.ninjaOnPath <==> DetectGenerator(h) == Ok(Some("Ninja"))
    ensures DetectGenerator(h) == Ok(None) <==>
              !h.ninjaOnPath && h.isNt && h.cmakeHelp.Help? && Contains(h.cmakeHelp.stdout, "Visual Studio")
    ensures DetectGenerator(h).Err? <==> !h.ninjaOnPath && h.isNt && h.cmakeHelp.CmakeMissing?
    ensures !h.ninjaOnPath && !h.isNt ==> DetectGenerator(h) == Ok(Some("Unix Makefiles"))
    ensures DetectGenerator(h).Ok? && DetectGenerator(h).value.Some? ==>
              DetectGenerator(h).value.value in {"Ninja", "MinGW Makefiles", "Unix Makefiles"}
  {
  }

  // ---------------------------------------------------------------------
  // The CMake command lines

  /** The CMake build type: `Release` for the release profile, `Debug` for anything else. */
  function BuildType(profile: string): (r: string)
    ensures r == "Release" <==> profile == "release"
    ensures r == "Release" || r == "Debug"
  {
    if profile == "release" then "Release" else "Debug"
  }

  /** The fixed options: a shared library with compute, CSV, filesystem and JSON, and everything heavy switched off. */
  const FeatureOptions: seq<string> := [
    "-DARROW_BUILD_SHARED=ON",
    "-DARROW_BUILD_STATIC=OFF",
    "-DARROW_COMPUTE=ON",
    "-DARROW_CSV=ON",
    "-DARROW_FILESYSTEM=ON",
    "-DARROW_JSON=ON",
    "-DARROW_DATASET=OFF",
    "-DARROW_FLIGHT=OFF",
    "-DARROW_GANDIVA=OFF",
    "-DARROW_HDFS=OFF",
    "-DARROW_JEMALLOC=OFF",
    "-DARROW_MIMALLOC=OFF",
    "-DARROW_PARQUET=OFF",
    "-DARROW_PLASMA=OFF",
    "-DARROW_PYTHON=OFF",
    "-DARROW_S3=OFF",
    "-DARROW_WITH_BROTLI=OFF",
    "-DARROW_WITH_BZ2=OFF",
    "-DARROW_WITH_LZ4=OFF",
    "-DARROW_WITH_SNAPPY=OFF",
    "-DARROW_WITH_ZLIB=OFF",
    "-DARROW_WITH_ZSTD=OFF",
    "-DARROW_BUILD_TESTS=OFF",
    "-DARROW_BUILD_BENCHMARKS=OFF",
    "-DARROW_BUILD_EXAMPLES=OFF",
    "-DARROW_BUILD_INTEGRATION=OFF",
    "-DARROW_DEPENDENCY_SOURCE=BUNDLED",
    "-DARROW_VERBOSE_THIRDPARTY_BUILD=OFF",
    "-DCMAKE_POLICY_DEFAULT_CMP0077=NEW",
    "-DBUILD_TESTING=OFF",
    "-DCMAKE_INSTALL_MESSAGE=LAZY",
    "-DCMAKE_VERBOSE_MAKEFILE=OFF",
    "-DCMAKE_RULE_MESSAGES=OFF",
    "-DCMAKE_TARGET_MESSAGES=OFF"
  ]

  /** Windows-only compiler definitions that keep the Windows headers out of Arrow's way. */
  const WindowsOptions: seq<string> := [
    "-DCMAKE_CXX_FLAGS=-DNOMINMAX -DWIN32_LEAN_AND_MEAN -D_CRT_SECURE_NO_WARNINGS",
    "-DCMAKE_C_FLAGS=-DNOMINMAX -DWIN32_LEAN_AND_MEAN -D_CRT_SECURE_NO_WARNINGS"
  ]

  /** The configure command. */
  function ConfigureArgs(buildType: string, installPrefix: string, isNt: bool, generator: Option<string>, cppDir: Path): seq<string> {
    ["cmake", "-DCMAKE_BUILD_TYPE=" + buildType, "-DCMAKE_INSTALL_PREFIX=" + installPrefix]
    + FeatureOptions
    + (if isNt then WindowsOptions else [])
    + (if generator.Some? then ["-G", generator.value] else [])
    + [PathString(cppDir)]
  }

  /**
   * The configure command starts with the build type and install prefix,
   * ends with the C++ source directory, carries the Windows definitions only
   * on Windows, and names a generator with `-G` exactly when one was chosen,
   * just before the source directory.
   */
  lemma ConfigureArgsSpec(buildType: string, installPrefix: string, isNt: bool, generator: Option<string>, cppDir: Path)
    ensures var a := ConfigureArgs(buildType, installPrefix, isNt, generator, cppDir);
            |a| == 3 + |FeatureOptions| + (if isNt then 2 else 0) + (if generator.Some? then 2 else 0) + 1 &&
            a[..3] == ["cmake", "-DCMAKE_BUILD_TYPE=" + buildType, "-DCMAKE_INSTALL_PREFIX=" + installPrefix] &&
            a[|a| - 1] == PathString(cppDir)
    ensures var a := ConfigureArgs(buildType, installPrefix, isNt, generator, cppDir);
            generator.Some? ==> a[|a| - 3..] == ["-G", generator.value, PathString(cppDir)]
    ensures "-G" in ConfigureArgs(buildType, installPrefix, isNt, generator, cppDir) <==> generator.Some?
    ensures var a := ConfigureArgs(buildType, installPrefix, isNt, generator, cppDir);
            isNt ==> a[3 + |FeatureOptions|..5 + |FeatureOptions|] == WindowsOptions
  {
    var head := ["cmake", "-DCMAKE_BUILD_TYPE=" + buildType, "-DCMAKE_INSTALL_PREFIX=" + installPrefix];
    var win := if isNt then WindowsOptions else [];
    var gen := if generator.Some? then ["-G", generator.value] else [];
    Layout(head, FeatureOptions, win, gen, PathString(cppDir));
    NotDefinition(head, buildType, installPrefix);
    NoGeneratorOption();
    assert PathString(cppDir)[0] == '/' && "-G"[0] == '-';
  }

  lemma NoGeneratorOption()
    ensures "-G" !in FeatureOptions && "-G" !in WindowsOptions
  {
  }

  /** Where the parts of a five-part list end up. */
  lemma Layout<T>(h: seq<T>, f: seq<T>, w: seq<T>, g: seq<T>, l: T)
    ensures var a := h + f + w + g + [l];
            |a| == |h| + |f| + |w| + |g| + 1 && a[..|h|] == h && a[|a| - 1] == l &&
            (forall k | 0 <= k < |h| :: a[k] == h[k]) &&
            a[|h| + |f|..|h| + |f| + |w|] == w && a[|a| - 1 - |g|..] == g + [l] &&
            (forall x :: x in a <==> x in h || x in f || x in w || x in g || x == l)
  {
    var a := h + f + w + g + [l];
    assert a == (h + f + w) + (g + [l]);
    assert a == h + (f + w + g + [l]);
  }

  lemma NotDefinition(head: seq<string>, buildType: string, installPrefix: string)
    requires head == ["cmake", "-DCMAKE_BUILD_TYPE=" + buildType, "-DCMAKE_INSTALL_PREFIX=" + installPrefix]
    ensures "-G" !in head
  {
    assert head[0][0] == 'c' && |head[1]| > 2 && |head[2]| > 2;
  }

  /** The configure step's list, grown with `extend` and `append` as the script does. */
  method AssembleConfigure(buildType: string, installPrefix: string, isNt: bool, generator: Option<string>, cppDir: Path)
    returns (args: seq<string>)
    ensures args == ConfigureArgs(buildType, installPrefix, isNt, generator, cppDir)
  {
    args := ["cmake", "-DCMAKE_BUILD_TYPE=" + buildType, "-DCMAKE_INSTALL_PREFIX=" + installPrefix] + FeatureOptions;
    if isNt {
      args := args + WindowsOptions;
    }
    if generator.Some? {
      args := args + ["-G", generator.value];
    }
    args := args + [PathString(cppDir)];
  }

  /** The build command, with a job count only on machines with more than one CPU. */
  function BuildArgs(buildType: string, generator: Option<string>, cpuCount: Option<nat>): seq<string> {
    var base := ["cmake", "--build", ".", "--config", buildType];
    if cpuCount.Some? && cpuCount.value > 1 then
      if generator == Some("Ninja") then base + ["-j", NatToString(cpuCount.value)]
      else base + ["--parallel", NatToString(cpuCount.value)]
    else base
  }

  /**
   * Parallelism is asked for exactly when more than one CPU is known:
   * with `-j` for Ninja and `--parallel` for any other generator.
   */
  lemma BuildArgsSpec(buildType: string, generator: Option<string>, cpuCount: Option<nat>)
    ensures var a := BuildArgs(buildType, generator, cpuCount);
            a[..5] == ["cmake", "--build", ".", "--config", buildType] &&
            (|a| == 7 <==> cpuCount.Some? && cpuCount.value > 1) &&
            (|a| == 5 <==> !(cpuCount.Some? && cpuCount.value > 1))
    ensures var a := BuildArgs(buildType, generator, cpuCount);
            |a| == 7 ==> a[6] == NatToString(cpuCount.value) &&
                         (a[5] == "-j" <==> generator == Some("Ninja")) &&
                         (a[5] == "--parallel" <==> generator != Some("Ninja"))
  {
    assert "-j" != "--parallel";
  }

  /** The build step's list. */
  method AssembleBuild(buildType: string, generator: Option<string>, cpuCount: Option<nat>) returns (args: seq<string>)
    ensures args == BuildArgs(buildType, generator, cpuCount)
  {
    args := ["cmake", "--build", ".", "--config", buildType];
    if cpuCount.Some? && cpuCount.value > 1 {
      if generator == Some("Ninja") {
        args := args + ["-j", NatToString(cpuCount.value)];
      } else {
        args := args + ["--parallel", NatToString(cpuCount.value)];
      }
    }
  }

  /** The install command. */
  function InstallArgs(buildType: string): seq<string> {
    ["cmake", "--install", ".", "--config", buildType]
  }

  /** The three commands `build_arrow_cpp` runs, all in `cpp/build`. */
  datatype CmakeSteps = CmakeSteps(buildDir: Path, configure: seq<string>, build: seq<string>, install: seq<string>)

  /** `build_arrow_cpp` up to running the commands: the C++ directory is checked before the generator is probed. */
  function ArrowBuildSteps(fs: FileSystem, h: Host, repo: Path, profile: string, installPrefix: string): Result<CmakeSteps, PrepareError> {
    var cppDir := Child(repo, "cpp");
    if !fs.Exists(cppDir) then Err(CppDirMissing(cppDir))
    else
      var generator :- DetectGenerator(h);
      var buildType := BuildType(profile);
      Ok(CmakeSteps(Child(cppDir, "build"), ConfigureArgs(buildType, installPrefix, h.isNt, generator, cppDir),
                    BuildArgs(buildType, generator, h.cpuCount), InstallArgs(buildType)))
  }

  /**
   * A missing `cpp` directory is reported whatever the host; otherwise the
   * only failure is a missing cmake; the three commands share the build type
   * and configure the C++ directory into the requested install prefix.
   */
  lemma ArrowBuildStepsSpec(fs: FileSystem, h: Host, repo: Path, profile: string, installPrefix: string)
    ensures !fs.Exists(repo + ["cpp"]) ==> ArrowBuildSteps(fs, h, repo, profile, installPrefix) == Err(CppDirMissing(repo + ["cpp"]))
    ensures fs.Exists(repo + ["cpp"]) ==>
              (ArrowBuildSteps(fs, h, repo, profile, installPrefix).Err? <==> DetectGenerator(h).Err?)
    ensures ArrowBuildSteps(fs, h, repo, profile, installPrefix).Ok? ==>
              var s := ArrowBuildSteps(fs, h, repo, profile, installPrefix).value;
              s.buildDir == repo + ["cpp", "build"] &&
              s.configure[1] == "-DCMAKE_BUILD_TYPE=" + BuildType(profile) &&
              s.configure[2] == "-DCMAKE_INSTALL_PREFIX=" + installPrefix &&
              s.configure[|s.configure| - 1] == PathString(repo + ["cpp"]) &&
              s.build[4] == BuildType(profile) && s.install == ["cmake", "--install", ".", "--config", BuildType(profile)]
  {
    var r := ArrowBuildSteps(fs, h, repo, profile, installPrefix);
    if r.Ok? {
      ArrowBuildStepsOk(fs, h, repo, profile, installPrefix, r.value);
    }
  }

  lemma ArrowBuildStepsOk(fs: FileSystem, h: Host, repo: Path, profile: string, installPrefix: string, s: CmakeSteps)
    requires ArrowBuildSteps(fs, h, repo, profile, installPrefix) == Ok(s)
    ensures s.buildDir == repo + ["cpp", "build"]
    ensures s.configure[1] == "-DCMAKE_BUILD_TYPE=" + BuildType(profile) &&
            s.configure[2] == "-DCMAKE_INSTALL_PREFIX=" + installPrefix &&
            s.configure[|s.configure| - 1] == PathString(repo + ["cpp"])
    ensures s.build[4] == BuildType(profile) && s.install == ["cmake", "--install", ".", "--config", BuildType(profile)]
  {
    var cpp := repo + ["cpp"];
    var generator := DetectGenerator(h).value;
    var bt := BuildType(profile);
    ConfigureArgsSpec(bt, installPrefix, h.isNt, generator, cpp);
    BuildArgsSpec(bt, generator, h.cpuCount);
    AppendTwo(repo, "cpp", "build");
  }

  /** `build_arrow_cpp` with its lists built step by step. */
  method BuildArrowCpp(fs: FileSystem, h: Host, repo: Path, profile: string, installPrefix: string)
    returns (r: Result<CmakeSteps, PrepareError>)
    ensures r == ArrowBuildSteps(fs, h, repo, profile, installPrefix)
  {
    var cppDir := Child(repo, "cpp");
    if !fs.Exists(cppDir) {
      return Err(CppDirMissing(cppDir));
    }
    var buildType := BuildType(profile);
    var generator :- DetectGenerator(h);
    var configure := AssembleConfigure(buildType, installPrefix, h.isNt, generator, cppDir);
    var build := AssembleBuild(buildType, generator, h.cpuCount);
    return Ok(CmakeSteps(Child(cppDir, "build"), configure, build, InstallArgs(buildType)));
  }

  // ---------------------------------------------------------------------
  // Checking an installation

  /** Headers whose absence is only warned about. */
  const EssentialHeaders: seq<string> := ["api.h", "array.h", "buffer.h", "type.h"]

  /** What a successful check reports: the headers warned about and the libraries found. */
  datatype Verified = Verified(missingHeaders: seq<Path>, libraries: seq<Path>)

  /** The essential headers that are missing from `dir`, in order. */
  function MissingHeaders(fs: FileSystem, dir: Path, headers: seq<string>): seq<Path>
    decreases |headers|
  {
    if headers == [] then []
    else
      var rest := MissingHeaders(fs, dir, headers[..|headers| - 1]);
      var p := Child(dir, headers[|headers| - 1]);
      if fs.Exists(p) then rest else rest + [p]
  }

  /** The entries matched by the glob `*arrow*`. */
  function ArrowLibs(entries: seq<Path>): seq<Path>
    decreases |entries|
  {
    if entries == [] then []
    else
      var rest := ArrowLibs(entries[..|entries| - 1]);
      var p := entries[|entries| - 1];
      if Contains(Name(p), "arrow") then rest + [p] else rest
  }

  /** The warned headers are exactly the missing ones. */
  lemma {:induction false} MissingHeadersMembers(fs: FileSystem, dir: Path, headers: seq<string>)
    ensures forall p :: p in MissingHeaders(fs, dir, headers) <==>
                          !fs.Exists(p) && exists h :: h in headers && p == Child(dir, h)
    decreases |headers|
  {
    if headers != [] {
      var init := headers[..|headers| - 1];
      MissingHeadersMembers(fs, dir, init);
      assert forall h :: h in headers <==> h in init || h == headers[|headers| - 1];
    }
  }

  /** The libraries found are exactly the entries whose name contains `arrow`. */
  lemma {:induction false} ArrowLibsMembers(entries: seq<Path>)
    ensures forall p :: p in ArrowLibs(entries) <==> p in entries && Contains(Name(p), "arrow")
    decreases |entries|
  {
    if entries != [] {
      var init := entries[..|entries| - 1];
      ArrowLibsMembers(init);
      assert forall p :: p in entries <==> p in init || p == entries[|entries| - 1];
    }
  }

  /** `verify_arrow_installation`. */
  function VerifyInstallation(fs: FileSystem, installDir: Path): Result<Verified, PrepareError> {
    var includeDir := installDir + ["include", "arrow"];
    var libDir := Child(installDir, "lib");
    if !fs.Exists(includeDir) then Err(IncludeDirMissing(includeDir))
    else if !fs.Exists(libDir) then Err(LibDirMissing(libDir))
    else
      var libs := ArrowLibs(fs.Entries(libDir));
      if libs == [] then Err(NoArrowLibraries(libDir))
      else Ok(Verified(MissingHeaders(fs, includeDir, EssentialHeaders), libs))
  }

  /**
   * An installation passes exactly when `include/arrow` and `lib` exist and
   * `lib` lists an entry whose name contains `arrow`; missing headers are
   * reported but never fail the check.
   */
  lemma VerifyInstallationSpec(fs: FileSystem, installDir: Path)
    ensures VerifyInstallation(fs, installDir).Ok? <==>
              fs.Exists(installDir + ["include", "arrow"]) && fs.Exists(installDir + ["lib"]) &&
              exists p :: p in fs.Entries(installDir + ["lib"]) && Contains(Name(p), "arrow")
    ensures !fs.Exists(installDir + ["include", "arrow"]) ==>
              VerifyInstallation(fs, installDir) == Err(IncludeDirMissing(installDir + ["include", "arrow"]))
    ensures VerifyInstallation(fs, installDir).Ok? ==>
              var v := VerifyInstallation(fs, installDir).value;
              (forall p :: p in v.libraries <==> p in fs.Entries(installDir + ["lib"]) && Contains(Name(p), "arrow")) &&
              (forall p :: p in v.missingHeaders <==>
                 !fs.Exists(p) && exists h :: h in EssentialHeaders && p == installDir + ["include", "arrow", h])
  {
    var libDir := installDir + ["lib"];
    ArrowLibsMembers(fs.Entries(libDir));
    MissingHeadersMembers(fs, installDir + ["include", "arrow"], EssentialHeaders);
    if VerifyInstallation(fs, installDir).Ok? {
      forall h ensures Child(installDir + ["include", "arrow"], h) == installDir + ["include", "arrow", h] {
      }
    }
    if ArrowLibs(fs.Entries(libDir)) != [] {
      var p := ArrowLibs(fs.Entries(libDir))[0];
      assert p in ArrowLibs(fs.Entries(libDir));
    }
  }

  /** `verify_arrow_installation` with its header loop and its library loop. */
  method VerifyArrowInstallation(fs: FileSystem, installDir: Path) returns (r: Result<Verified, PrepareError>)
    ensures r == VerifyInstallation(fs, installDir)
  {
    var includeDir := installDir + ["include", "arrow"];
    var libDir := Child(installDir, "lib");
    if !fs.Exists(includeDir) {
      return Err(IncludeDirMissing(includeDir));
    }
    if !fs.Exists(libDir) {
      return Err(LibDirMissing(libDir));
    }
    var missing := MissingHeaderPaths(fs, includeDir);
    var found := FindArrowLibs(fs.Entries(libDir));
    if found == [] {
      return Err(NoArrowLibraries(libDir));
    }
    return Ok(Verified(missing, found));
  }

  /** The loop over the essential headers, collecting those to warn about. */
  method MissingHeaderPaths(fs: FileSystem, includeDir: Path) returns (missing: seq<Path>)
    ensures missing == MissingHeaders(fs, includeDir, EssentialHeaders)
  {
    missing := [];
    for i := 0 to |EssentialHeaders|
      invariant missing == MissingHeaders(fs, includeDir, EssentialHeaders[..i])
    {
      TakeStep(EssentialHeaders, i);
      var headerPath := Child(includeDir, EssentialHeaders[i]);
      if !fs.Exists(headerPath) {
        missing := missing + [headerPath];
      }
    }
    TakeAll(EssentialHeaders);
  }

  /** The loop that gathers the `*arrow*` entries of the library directory. */
  method FindArrowLibs(entries: seq<Path>) returns (found: seq<Path>)
    ensures found == ArrowLibs(entries)
  {
    found := [];
    for j := 0 to |entries|
      invariant found == ArrowLibs(entries[..j])
    {
      TakeStep(entries, j);
      if Contains(Name(entries[j]), "arrow") {
        found := found + [entries[j]];
      }
    }
    TakeAll(entries);
  }

  // ---------------------------------------------------------------------
  // `main`

  /**
   * What `git fetch` in an existing checkout does: it succeeds, it fails
   * (a `CalledProcessError`, caught), or `git` is not installed (a
   * `FileNotFoundError`, which escapes).
   */
  datatype FetchOutcome = FetchSucceeds | FetchFails | GitMissing

  /** The command-line options. */
  datatype Args = Args(arrowGit: string, arrowRev: Option<string>, profile: string, forceRebuild: bool, useLocal: bool)

  /**
   * What `main` meets: the file system before the checkout, once the clone
   * or update has run, and once the three commands have run; the host; the
   * release query, which gives the same answer each time it is made; the
   * tag listing the cache path may consult; whether a fresh clone (with,
   * without a revision, the checkout of the latest release) succeeds, a
   * missing `git` being one way for it to fail; what `git fetch` does in an
   * existing checkout; and which commands succeed.
   */
  datatype World = World(
    before: FileSystem,
    checkedOut: FileSystem,
    after: FileSystem,
    host: Host,
    home: Path,
    cwd: Path,
    release: ReleaseQuery,
    remote: string -> Cache.LsRemote,
    cloneSucceeds: bool,
    fetch: FetchOutcome,
    succeeds: seq<string> -> bool)

  /** How `main` ends: a verified installation reused, a fresh build verified, or a failure (exit status 1). */
  datatype Outcome = Reused(installDir: Path) | Prepared(installDir: Path, steps: CmakeSteps) | Failed(error: PrepareError)

  /** The revision to prepare: the given one, else the latest release (`None` for a `null` tag). */
  function Revision(args: Args, w: World): Result<Option<string>, PrepareError> {
    if args.arrowRev.Some? then Ok(args.arrowRev) else LatestArrowRelease(w.release)
  }

  /** The checkout: `third_party/arrow` in local mode, else the versioned cache directory of `rev`. */
  function VendorDir(args: Args, w: World, rev: Option<string>): Path {
    if args.useLocal then w.cwd + ["third_party", "arrow"]
    else Cache.CachePath(w.home, Cache.Arrow, Some(args.arrowGit), rev, w.remote)
  }

  /**
   * `str(install_dir)` as the configure step receives it: the relative
   * `third_party/arrow/install` in local mode, the absolute cache path
   * otherwise.
   */
  function InstallPrefix(args: Args, install: Path): (r: string)
    ensures args.useLocal ==> r == "third_party/arrow/install"
    ensures !args.useLocal ==> r == PathString(install) && r[0] == '/'
    ensures args.useLocal ==> r[0] != '/'
  {
    if args.useLocal then "third_party/arrow/install" else PathString(install)
  }

  /** Checking out the latest release once more: the error that escapes, if any. */
  function LatestCheckoutError(q: ReleaseQuery): Option<PrepareError> {
    match LatestArrowRelease(q)
    case Err(e) => Some(e)
    case Ok(None) => Some(CheckoutOfNothing)
    case Ok(Some(_)) => None
  }

  /**
   * `git_clone_or_update`: the error that ends the script, if any. `git`
   * failures in an existing checkout are only warned about, but a missing
   * `git` raises at the fetch; without a
   * revision the latest release is queried again, and a `null` release
   * makes its checkout raise.
   */
  function CheckoutError(w: World, vendor: Path, rev: Option<string>): Option<PrepareError> {
    if w.before.Exists(vendor) then
      if w.fetch.GitMissing? then Some(GitNotFound)
      else if w.fetch.FetchFails? || Truthy(rev) then None
      else LatestCheckoutError(w.release)
    else if !w.cloneSucceeds then Some(CloneFailed)
    else if Truthy(rev) then None
    else LatestCheckoutError(w.release)
  }

  /**
   * An existing checkout is kept whatever `git` reports, save when `git` is
   * missing, or when a fetch that succeeded is followed by a query that
   * raises or gives `null`; a
   * fresh clone that fails ends the script; a `null` release without a
   * revision ends it at the checkout.
   */
  lemma CheckoutSpec(w: World, vendor: Path, rev: Option<string>)
    ensures w.before.Exists(vendor) && w.fetch.GitMissing? ==> CheckoutError(w, vendor, rev) == Some(GitNotFound)
    ensures w.before.Exists(vendor) && (Truthy(rev) || w.fetch.FetchFails?) && !w.fetch.GitMissing? ==>
              CheckoutError(w, vendor, rev).None?
    ensures !w.before.Exists(vendor) && !w.cloneSucceeds ==> CheckoutError(w, vendor, rev) == Some(CloneFailed)
    ensures !w.before.Exists(vendor) && w.cloneSucceeds && Truthy(rev) ==> CheckoutError(w, vendor, rev).None?
    ensures !Truthy(rev) && w.release == Answer(NullTag) &&
            (if w.before.Exists(vendor) then w.fetch.FetchSucceeds? else w.cloneSucceeds) ==>
              CheckoutError(w, vendor, rev) == Some(CheckoutOfNothing)
    ensures !Truthy(rev) && w.release.QueryRaised? &&
            (if w.before.Exists(vendor) then w.fetch.FetchSucceeds? else w.cloneSucceeds) ==>
              CheckoutError(w, vendor, rev) == Some(ReleaseQueryRaised)
    ensures CheckoutError(w, vendor, rev).Some? ==>
              CheckoutError(w, vendor, rev).value in {CloneFailed, ReleaseQueryRaised, CheckoutOfNothing, GitNotFound}
  {
  }

  /** The first of the three commands that fails, if any. */
  function FirstFailing(w: World, s: CmakeSteps): Option<seq<string>> {
    if !w.succeeds(s.configure) then Some(s.configure)
    else if !w.succeeds(s.build) then Some(s.build)
    else if !w.succeeds(s.install) then Some(s.install)
    else None
  }

  /** The reuse test of `main`: an installation is present, not forced, and passes the check. */
  predicate Reusable(args: Args, w: World, install: Path) {
    w.before.Exists(install) && !args.forceRebuild && VerifyInstallation(w.before, install).Ok?
  }

  /** `main`. */
  function Prepare(args: Args, w: World): Outcome {
    match Revision(args, w)
    case Err(e) => Failed(e)
    case Ok(rev) =>
      var vendor := VendorDir(args, w, rev);
      var install := Child(vendor, "install");
      if Reusable(args, w, install) then Reused(install)
      else if CheckoutError(w, vendor, rev).Some? then Failed(CheckoutError(w, vendor, rev).value)
      else
        match ArrowBuildSteps(w.checkedOut, w.host, vendor, args.profile, InstallPrefix(args, install))
        case Err(e) => Failed(e)
        case Ok(s) =>
          if FirstFailing(w, s).Some? then Failed(CommandFailed(FirstFailing(w, s).value))
          else
            match VerifyInstallation(w.after, install)
            case Err(e) => Failed(e)
            case Ok(_) => Prepared(install, s)
  }

  /** The exit status of `main`. */
  function ExitCode(o: Outcome): int {
    if o.Failed? then 1 else 0
  }

  /**
   * A release query that raises ends `main`; otherwise an existing
   * installation is reused exactly when it is present, not forced and passes
   * the check; a fresh build counts exactly when the checkout went through,
   * the commands planned on the checked-out tree all succeeded and the
   * result passes the check; both live in the checkout's `install`
   * directory, which is `third_party/arrow/install` in local mode; without a
   * revision the latest release names the cache.
   */
  lemma PrepareSpec(args: Args, w: World)
    ensures Revision(args, w).Err? ==> Prepare(args, w) == Failed(ReleaseQueryRaised)
    ensures Revision(args, w).Ok? ==>
              var install := Child(VendorDir(args, w, Revision(args, w).value), "install");
              (Prepare(args, w).Reused? <==> Reusable(args, w, install)) &&
              (Prepare(args, w).Reused? ==> Prepare(args, w).installDir == install)
    ensures Prepare(args, w).Prepared? ==>
              Revision(args, w).Ok? &&
              var rev := Revision(args, w).value;
              var vendor := VendorDir(args, w, rev);
              var install := Child(vendor, "install");
              var s := Prepare(args, w).steps;
              Prepare(args, w).installDir == install && !Reusable(args, w, install) &&
              CheckoutError(w, vendor, rev).None? &&
              ArrowBuildSteps(w.checkedOut, w.host, vendor, args.profile, InstallPrefix(args, install)) == Ok(s) &&
              w.succeeds(s.configure) && w.succeeds(s.build) && w.succeeds(s.install) &&
              VerifyInstallation(w.after, install).Ok?
    ensures Revision(args, w).Ok? ==>
              var rev := Revision(args, w).value;
              var vendor := VendorDir(args, w, rev);
              var install := Child(vendor, "install");
              var steps := ArrowBuildSteps(w.checkedOut, w.host, vendor, args.profile, InstallPrefix(args, install));
              !Reusable(args, w, install) && CheckoutError(w, vendor, rev).None? && steps.Ok? &&
              w.succeeds(steps.value.configure) && w.succeeds(steps.value.build) && w.succeeds(steps.value.install) &&
              VerifyInstallation(w.after, install).Ok? ==>
                Prepare(args, w) == Prepared(install, steps.value)
    ensures args.forceRebuild ==> !Prepare(args, w).Reused?
    ensures ExitCode(Prepare(args, w)) == 1 <==> Prepare(args, w).Failed?
    ensures args.useLocal && Revision(args, w).Ok? ==>
              Child(VendorDir(args, w, Revision(args, w).value), "install") == w.cwd + ["third_party", "arrow", "install"]
    ensures args.arrowRev.None? && !args.useLocal && Revision(args, w).Ok? ==>
              VendorDir(args, w, Revision(args, w).value) ==
              Cache.CachePath(w.home, Cache.Arrow, Some(args.arrowGit), LatestArrowRelease(w.release).value, w.remote)
  {
  }

  /**
   * The planned steps of a checkout configure its `install` directory under
   * `str(install_dir)`, the prefix `main` hands over (relative in local
   * mode), and run in the checkout's `cpp/build`.
   */
  lemma StepsInstallPrefix(fs: FileSystem, h: Host, vendor: Path, args: Args, install: Path, s: CmakeSteps)
    requires install == Child(vendor, "install")
    requires ArrowBuildSteps(fs, h, vendor, args.profile, InstallPrefix(args, install)) == Ok(s)
    ensures |s.configure| > 2 && s.configure[2] == "-DCMAKE_INSTALL_PREFIX=" + InstallPrefix(args, install)
    ensures s.buildDir == install[..|install| - 1] + ["cpp", "build"]
  {
    ArrowBuildStepsOk(fs, h, vendor, args.profile, InstallPrefix(args, install), s);
    assert install[..|install| - 1] == vendor;
  }

  /**
   * A fresh clone of a named revision whose tree has a `cpp` directory, on a
   * host where a generator is found, goes on to build; when the three
   * commands succeed and the result passes the check, `main` reports it
   * prepared.
   */
  lemma FreshClonePrepares(args: Args, w: World)
    requires args.arrowRev.Some? && args.arrowRev.value != ""
    requires var vendor := VendorDir(args, w, args.arrowRev);
             !w.before.Exists(vendor) && !w.before.Exists(Child(vendor, "install")) && w.cloneSucceeds &&
             w.checkedOut.Exists(vendor + ["cpp"]) && DetectGenerator(w.host).Ok?
    ensures var vendor := VendorDir(args, w, args.arrowRev);
            var install := Child(vendor, "install");
            var steps := ArrowBuildSteps(w.checkedOut, w.host, vendor, args.profile, InstallPrefix(args, install));
            steps.Ok? &&
            ((w.succeeds(steps.value.configure) && w.succeeds(steps.value.build) && w.succeeds(steps.value.install) &&
              VerifyInstallation(w.after, install).Ok?) ==>
               Prepare(args, w) == Prepared(install, steps.value))
  {
    var vendor := VendorDir(args, w, args.arrowRev);
    ArrowBuildStepsSpec(w.checkedOut, w.host, vendor, args.profile, InstallPrefix(args, Child(vendor, "install")));
    PrepareSpec(args, w);
  }
}
