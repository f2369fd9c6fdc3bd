/**
 * Dependency bookkeeping: how each kind of dependency is resolved to a
 * source and an install directory, and how the resolved dependencies are
 * turned into include directories, library directories and libraries.
 *
 * Everything the resolution asks of the machine (which paths exist, what a
 * command does, the platform, the digest and hash functions) is a fact of a
 * `Host`; the external actions a resolution takes are returned as `Step`s.
 */
module Dependencies {
  import opened Wrappers
  import opened Strings
  import opened Paths
  import Config
  import Cache

  type Dependency = Config.Dependency
  type BuildSystem = Config.BuildSystem

  /** What a run of `pkg-config` did: it exited (with success or not), or it is not installed. */
  datatype Proc = Exited(ok: bool, stdout: string) | NotInstalled

  /** The facts about the machine the resolution depends on. */
  datatype Host = Host(
    before: FileSystem,                          // the file system when resolution starts
    after: FileSystem,                           // the file system once every dependency is resolved
    home: Path,
    osName: string,                              // `os.name`
    system: string,                              // `platform.system()`
    machine: string,                             // `platform.machine()`
    which: string -> Option<Path>,               // `shutil.which`
    resolvePath: string -> Path,                 // `Path(s).resolve()`
    md5Hex: string -> string,                    // `hashlib.md5(s.encode()).hexdigest()`
    hash: string -> int,                         // the built-in `hash` of a string
    runs: seq<string> -> bool,                   // a checked command succeeds
    builds: (Path, Path, BuildSystem) -> bool,   // building a source directory into an install directory succeeds
    canCreate: Path -> bool,                     // `mkdir(parents=True, exist_ok=True)` succeeds
    globHit: (Path, string) -> bool,             // `dir.glob(pattern)` finds something
    pkgConfig: seq<string> -> Proc)

  /** Why a dependency could not be resolved. */
  datatype DepError =
    | CloneFailed(url: string)
    | CannotCreate(path: Path)
    | BuildFailed(source: Path)
    | UnsupportedBuildSystem(system: BuildSystem)
    | VcpkgNotFound
    | VcpkgInstallFailed(name: string)
    | MissingLibraries(dep: string, missing: set<string>)
    | LocalPathNotFound(path: Path)
    | PkgConfigNotInstalled(dep: string)

  /** An external action of a resolution. */
  datatype Step =
    | Clone(cmd: seq<string>)
    | Build(source: Path, install: Path, system: BuildSystem)
    | HeaderOnly(source: Path, install: Path, includeDirs: seq<string>)
    | Install(cmd: seq<string>)

  /** A resolved dependency: where its sources are, where it is installed, and what was done. */
  datatype Resolution = Resolution(source: Path, install: Path, steps: seq<Step>)

  // ---------------------------------------------------------------------
  // Cache keys

  predicate SafeChar(c: char) {
    IsAlnum(c) || c == '-' || c == '_'
  }

  /** The characters of `s` that are safe in a directory name, in order. */
  function SafeChars(s: string): (r: string)
    ensures |r| <= |s|
    ensures forall k | 0 <= k < |r| :: SafeChar(r[k])
    ensures (forall k | 0 <= k < |s| :: SafeChar(s[k])) ==> r == s
  {
    if s == [] then []
    else if SafeChar(s[0]) then [s[0]] + SafeChars(s[1..])
    else SafeChars(s[1..])
  }

  /** The repository name as the cache key keeps it: its first eight safe characters. */
  function SafeName(url: string): string {
    Take(SafeChars(Cache.RepoName(url)), 8)
  }

  /** The kept name is at most eight safe characters, and a short, safe repository name is kept whole. */
  lemma SafeNameSafe(url: string)
    ensures var n := SafeName(url);
            |n| <= 8 && forall k | 0 <= k < |n| :: SafeChar(n[k])
    ensures var repo := Cache.RepoName(url);
            (|repo| <= 8 && forall k | 0 <= k < |repo| :: SafeChar(repo[k])) ==> SafeName(url) == repo
  {
  }

  /**
   * `_create_cache_key`: the safe repository name, an underscore, and the
   * first eight hex digits of the digest of `url#ref`.
   */
  function CacheKey(url: string, ref: string, md5Hex: string -> string): string {
    SafeName(url) + "_" + Take(md5Hex(url + "#" + ref), 8)
  }

  /** A cache key is at most 17 characters: the kept name, `_`, and eight digest digits. */
  lemma CacheKeyShape(url: string, ref: string, md5Hex: string -> string)
    ensures var r := CacheKey(url, ref, md5Hex);
            var n := SafeName(url);
            var h := Take(md5Hex(url + "#" + ref), 8);
            |r| == |n| + 1 + |h| && |r| <= 17 && r[..|n|] == n && r[|n|] == '_' && r[|n| + 1..] == h
  {
    SafeNameSafe(url);
  }

  /** The ref a git dependency is checked out at: `rev or branch or tag`. */
  function CloneRef(d: Dependency): Option<string>
    requires d.Git?
  {
    OrElse(OrElse(d.rev, d.branch), d.tag)
  }

  /** The ref that keys the cache: the first of `rev`, `branch`, `tag` that is set, else `"main"`. */
  function CacheRef(d: Dependency): (r: string)
    requires d.Git?
    ensures Truthy(d.rev) ==> r == d.rev.value
    ensures !Truthy(d.rev) && Truthy(d.branch) ==> r == d.branch.value
    ensures !Truthy(d.rev) && !Truthy(d.branch) && Truthy(d.tag) ==> r == d.tag.value
    ensures !Truthy(d.rev) && !Truthy(d.branch) && !Truthy(d.tag) ==> r == "main"
    ensures Truthy(CloneRef(d)) ==> r == CloneRef(d).value
  {
    var ref := CloneRef(d);
    if Truthy(ref) then ref.value else "main"
  }

  /** `_git_clone`: the clone command, with `--branch` only for a non-empty ref. */
  function CloneCommand(url: string, dest: Path, ref: Option<string>): (cmd: seq<string>)
    ensures |cmd| >= 4 && cmd[..4] == ["git", "clone", url, PathString(dest)]
    ensures |cmd| == (if Truthy(ref) then 6 else 4)
    ensures Truthy(ref) ==> cmd[4..] == ["--branch", ref.value]
  {
    ["git", "clone", url, PathString(dest)] + (if Truthy(ref) then ["--branch", ref.value] else [])
  }

  // ---------------------------------------------------------------------
  // Building

  /** `_build_dependency`: the native build system is refused; the others succeed when the build does. */
  predicate BuildSucceeds(h: Host, source: Path, install: Path, bs: BuildSystem) {
    bs != Config.Native && h.builds(source, install, bs)
  }

  /** The error a failed build raises. */
  function BuildError(source: Path, bs: BuildSystem): (e: DepError)
    ensures e.UnsupportedBuildSystem? <==> bs == Config.Native
  {
    if bs == Config.Native then UnsupportedBuildSystem(bs) else BuildFailed(source)
  }

  // ---------------------------------------------------------------------
  // Git dependencies

  function GitCachePath(h: Host, cacheDir: Path, d: Dependency): Path
    requires d.Git?
  {
    Child(Child(cacheDir, "git"), CacheKey(d.url, CacheRef(d), h.md5Hex))
  }

  /** The include directories copied when a failed build falls back to header-only. */
  function FallbackIncludes(dirs: seq<string>): (r: seq<string>)
    ensures r != []
    ensures dirs != [] ==> r == dirs
  {
    if dirs != [] then dirs else ["Eigen"]
  }

  /**
   * The install step of a git dependency whose install directory is empty:
   * build when a build system is declared, falling back to header-only
   * setup when the build fails; header-only setup otherwise.
   */
  function GitInstallSteps(h: Host, source: Path, install: Path, d: Dependency): (r: seq<Step>)
    requires d.Git?
    ensures d.buildSystem.None? ==> r == [HeaderOnly(source, install, d.includeDirs)]
    ensures d.buildSystem.Some? ==> r != [] && r[0] == Build(source, install, d.buildSystem.value)
    ensures d.buildSystem.Some? ==>
              (BuildSucceeds(h, source, install, d.buildSystem.value) <==> |r| == 1)
    ensures d.buildSystem.Some? && !BuildSucceeds(h, source, install, d.buildSystem.value) ==>
              r == [Build(source, install, d.buildSystem.value), HeaderOnly(source, install, FallbackIncludes(d.includeDirs))]
  {
    match d.buildSystem
    case None => [HeaderOnly(source, install, d.includeDirs)]
    case Some(bs) =>
      [Build(source, install, bs)] +
      (if BuildSucceeds(h, source, install, bs) then [] else [HeaderOnly(source, install, FallbackIncludes(d.includeDirs))])
  }

  /** The clone step: none when the cache directory exists, a failed clone is fatal. */
  function CloneSteps(h: Host, cache: Path, cmd: seq<string>, url: string): (r: Result<seq<Step>, DepError>)
    ensures h.before.Exists(cache) ==> r == Ok([])
    ensures !h.before.Exists(cache) ==> r == (if h.runs(cmd) then Ok([Clone(cmd)]) else Err(CloneFailed(url)))
  {
    if h.before.Exists(cache) then Ok([])
    else if h.runs(cmd) then Ok([Clone(cmd)])
    else Err(CloneFailed(url))
  }

  /** The install directory: `install`, or `inst` when `install` cannot be created. */
  function InstallDir(h: Host, cache: Path): (r: Result<Path, DepError>)
    ensures r.Ok? ==> r.value in {Child(cache, "install"), Child(cache, "inst")}
    ensures r.Err? <==> !h.canCreate(Child(cache, "install")) && !h.canCreate(Child(cache, "inst"))
    ensures r.Err? ==> r.error == CannotCreate(Child(cache, "inst"))
  {
    if h.canCreate(Child(cache, "install")) then Ok(Child(cache, "install"))
    else if h.canCreate(Child(cache, "inst")) then Ok(Child(cache, "inst"))
    else Err(CannotCreate(Child(cache, "inst")))
  }

  /** The directory the sources are built from: the declared sub-directory of the clone, if any. */
  function GitSource(cache: Path, d: Dependency): Path
    requires d.Git?
  {
    if Truthy(d.subdir) then Join(cache, d.subdir.value) else cache
  }

  /** `_resolve_git_dependency`. */
  function ResolveGit(h: Host, cacheDir: Path, d: Dependency): Result<Resolution, DepError>
    requires d.Git?
  {
    ResolveGitAt(h, GitCachePath(h, cacheDir, d), d)
  }

  /** The resolution of a git dependency once its cache directory `cache` is known. */
  function ResolveGitAt(h: Host, cache: Path, d: Dependency): Result<Resolution, DepError>
    requires d.Git?
  {
    var cloned :- CloneSteps(h, cache, CloneCommand(d.url, cache, CloneRef(d)), d.url);
    var source := GitSource(cache, d);
    var install :- InstallDir(h, cache);
    var installed := if h.before.Entries(install) != [] then [] else GitInstallSteps(h, source, install, d);
    Ok(Resolution(source, install, cloned + installed))
  }

  /** A git dependency is cloned only when its cache directory is missing, and a failed clone is fatal. */
  lemma GitResolution(h: Host, cacheDir: Path, d: Dependency)
    requires d.Git?
    ensures var r := ResolveGit(h, cacheDir, d);
            var cache := GitCachePath(h, cacheDir, d);
            !h.before.Exists(cache) && !h.runs(CloneCommand(d.url, cache, CloneRef(d))) ==> r == Err(CloneFailed(d.url))
    ensures var r := ResolveGit(h, cacheDir, d);
            r.Err? ==> r.error == CloneFailed(d.url) || r.error == CannotCreate(Child(GitCachePath(h, cacheDir, d), "inst"))
    ensures var r := ResolveGit(h, cacheDir, d);
            var cache := GitCachePath(h, cacheDir, d);
            r.Ok? ==> r.value.source == (if Truthy(d.subdir) then Join(cache, d.subdir.value) else cache) &&
                      r.value.install in {Child(cache, "install"), Child(cache, "inst")}
    ensures var r := ResolveGit(h, cacheDir, d);
            var cache := GitCachePath(h, cacheDir, d);
            r.Ok? ==> r.value.steps == (if h.before.Exists(cache) then [] else [Clone(CloneCommand(d.url, cache, CloneRef(d)))]) +
                                       (if h.before.Entries(r.value.install) != [] then []
                                        else GitInstallSteps(h, r.value.source, r.value.install, d))
  {
    GitResolutionAt(h, GitCachePath(h, cacheDir, d), d);
  }

  lemma GitResolutionAt(h: Host, cache: Path, d: Dependency)
    requires d.Git?
    ensures var r := ResolveGitAt(h, cache, d);
            !h.before.Exists(cache) && !h.runs(CloneCommand(d.url, cache, CloneRef(d))) ==> r == Err(CloneFailed(d.url))
    ensures var r := ResolveGitAt(h, cache, d);
            r.Err? ==> r.error == CloneFailed(d.url) || r.error == CannotCreate(Child(cache, "inst"))
    ensures var r := ResolveGitAt(h, cache, d);
            r.Ok? ==> r.value.source == (if Truthy(d.subdir) then Join(cache, d.subdir.value) else cache) &&
                      r.value.install in {Child(cache, "install"), Child(cache, "inst")}
    ensures var r := ResolveGitAt(h, cache, d);
            r.Ok? ==> r.value.steps == (if h.before.Exists(cache) then [] else [Clone(CloneCommand(d.url, cache, CloneRef(d)))]) +
                                       (if h.before.Entries(r.value.install) != [] then []
                                        else GitInstallSteps(h, r.value.source, r.value.install, d))
  {
  }

  /** A git dependency whose build fails is still resolved, as a header-only library (Eigen by default). */
  lemma GitBuildFallback(h: Host, cacheDir: Path, d: Dependency)
    requires d.Git? && d.buildSystem.Some?
    requires ResolveGit(h, cacheDir, d).Ok?
    requires var r := ResolveGit(h, cacheDir, d).value;
             h.before.Entries(r.install) == [] && !BuildSucceeds(h, r.source, r.install, d.buildSystem.value)
    ensures var r := ResolveGit(h, cacheDir, d).value;
            |r.steps| >= 2 && r.steps[|r.steps| - 1] == HeaderOnly(r.source, r.install, FallbackIncludes(d.includeDirs))
  {
    var cache := GitCachePath(h, cacheDir, d);
    var r := ResolveGitAt(h, cache, d);
    assert ResolveGit(h, cacheDir, d) == r;
    GitBuildFallbackAt(h, cache, d, r.value);
  }

  lemma GitBuildFallbackAt(h: Host, cache: Path, d: Dependency, r: Resolution)
    requires d.Git? && d.buildSystem.Some?
    requires ResolveGitAt(h, cache, d) == Ok(r)
    requires h.before.Entries(r.install) == [] && !BuildSucceeds(h, r.source, r.install, d.buildSystem.value)
    ensures |r.steps| >= 2 && r.steps[|r.steps| - 1] == HeaderOnly(r.source, r.install, FallbackIncludes(d.includeDirs))
  {
    GitResolutionAt(h, cache, d);
    var install := GitInstallSteps(h, r.source, r.install, d);
    assert |install| == 2;
    var cloned := if h.before.Exists(cache) then [] else [Clone(CloneCommand(d.url, cache, CloneRef(d)))];
    assert r.steps == cloned + install;
  }

  // ---------------------------------------------------------------------
  // vcpkg dependencies

  /** The fixed places `_find_vcpkg` looks when `vcpkg` is not on the PATH; Windows paths are kept as their components. */
  function CommonVcpkgPaths(home: Path): seq<Path> {
    [["C:", "vcpkg", "vcpkg.exe"], ["C:", "tools", "vcpkg", "vcpkg.exe"], ["usr", "local", "bin", "vcpkg"], home + ["vcpkg", "vcpkg"]]
  }

  /** The first of `ps` that exists. */
  function FirstExisting(fs: FileSystem, ps: seq<Path>): (r: Option<Path>)
    ensures r.None? <==> forall k | 0 <= k < |ps| :: !fs.Exists(ps[k])
    ensures r.Some? ==> fs.Exists(r.value) && exists k | 0 <= k < |ps| :: ps[k] == r.value && forall j | 0 <= j < k :: !fs.Exists(ps[j])
  {
    if ps == [] then None
    else if fs.Exists(ps[0]) then Some(ps[0])
    else
      var r := FirstExisting(fs, ps[1..]);
      assert forall k | 1 <= k < |ps| :: ps[k] == ps[1..][k - 1];
      if r.Some? then
        var k :| 0 <= k < |ps| - 1 && ps[1..][k] == r.value && forall j | 0 <= j < k :: !fs.Exists(ps[1..][j]);
        assert ps[k + 1] == r.value;
        r
      else r
  }

  /** `_find_vcpkg`: `vcpkg` or `vcpkg.exe` on the PATH, else the first common location that exists. */
  function FindVcpkg(h: Host): (r: Option<Path>)
    ensures h.which("vcpkg").Some? ==> r == h.which("vcpkg")
    ensures h.which("vcpkg").None? && h.which("vcpkg.exe").Some? ==> r == h.which("vcpkg.exe")
    ensures h.which("vcpkg").None? && h.which("vcpkg.exe").None? ==> r == FirstExisting(h.before, CommonVcpkgPaths(h.home))
  {
    if h.which("vcpkg").Some? then h.which("vcpkg")
    else if h.which("vcpkg.exe").Some? then h.which("vcpkg.exe")
    else FirstExisting(h.before, CommonVcpkgPaths(h.home))
  }

  const KnownTriplets: set<string> := {"x64-windows", "x86-windows", "x64-linux", "x86-linux", "x64-osx"}

  /** `_detect_vcpkg_triplet`, given the lower-cased system and machine names. */
  function DetectTriplet(system: string, machine: string): (r: string)
    ensures r in KnownTriplets
    ensures (system == "windows" || system == "linux") ==>
              r == (if machine == "amd64" || machine == "x86_64" then "x64-" else "x86-") + system
    ensures system == "darwin" ==> r == "x64-osx"
    ensures system != "windows" && system != "linux" ==> StartsWith(r, "x64-")
  {
    var x64 := machine == "amd64" || machine == "x86_64";
    if system == "windows" then (if x64 then "x64-windows" else "x86-windows")
    else if system == "linux" then (if x64 then "x64-linux" else "x86-linux")
    else if system == "darwin" then "x64-osx"
    else "x64-linux"
  }

  /** The triplet a vcpkg dependency installs for: the declared one, else the detected one. */
  function VcpkgTriplet(h: Host, d: Dependency): (r: string)
    requires d.Vcpkg?
    ensures Truthy(d.triplet) ==> r == d.triplet.value
    ensures !Truthy(d.triplet) ==> r == DetectTriplet(Lower(h.system), Lower(h.machine))
  {
    if Truthy(d.triplet) then d.triplet.value else DetectTriplet(Lower(h.system), Lower(h.machine))
  }

  /** The vcpkg install command. */
  function VcpkgArgs(exe: string, name: string, features: seq<string>, triplet: string): (cmd: seq<string>)
    ensures |cmd| == |features| + 5
    ensures cmd[..3] == [exe, "install", name]
    ensures forall k | 0 <= k < |features| :: cmd[3 + k] == name + "[" + features[k] + "]"
    ensures cmd[|cmd| - 2..] == ["--triplet", triplet]
  {
    [exe, "install", name] + seq(|features|, k requires 0 <= k < |features| => name + "[" + features[k] + "]") + ["--triplet", triplet]
  }

  /** The vcpkg install command, grown one feature at a time. */
  method VcpkgCommand(exe: string, name: string, features: seq<string>, triplet: string) returns (cmd: seq<string>)
    ensures cmd == VcpkgArgs(exe, name, features, triplet)
  {
    cmd := [exe, "install", name];
    for i := 0 to |features|
      invariant |cmd| == 3 + i && cmd[..3] == [exe, "install", name]
      invariant forall k | 0 <= k < i :: cmd[3 + k] == name + "[" + features[k] + "]"
    {
      cmd := cmd + [name + "[" + features[i] + "]"];
    }
    cmd := cmd + ["--triplet", triplet];
  }

  /** `_resolve_vcpkg_dependency`: install into `<vcpkg root>/installed/<triplet>`, which is both source and install. */
  function ResolveVcpkg(h: Host, d: Dependency): Result<Resolution, DepError>
    requires d.Vcpkg?
  {
    match FindVcpkg(h)
    case None => Err(VcpkgNotFound)
    case Some(exe) =>
      var triplet := VcpkgTriplet(h, d);
      var cmd := VcpkgArgs(PathString(exe), d.name, d.features, triplet);
      if !h.runs(cmd) then Err(VcpkgInstallFailed(d.name))
      else
        var p := Child(Child(Parent(Parent(exe)), "installed"), triplet);
        Ok(Resolution(p, p, [Install(cmd)]))
  }

  /** vcpkg must be found and its install must succeed; the declared triplet names the install directory. */
  lemma VcpkgResolution(h: Host, d: Dependency)
    requires d.Vcpkg?
    ensures var r := ResolveVcpkg(h, d);
            FindVcpkg(h).None? <==> r == Err(VcpkgNotFound)
    ensures var r := ResolveVcpkg(h, d);
            FindVcpkg(h).Some? ==>
              var cmd := VcpkgArgs(PathString(FindVcpkg(h).value), d.name, d.features, VcpkgTriplet(h, d));
              (h.runs(cmd) <==> r.Ok?) && (r.Ok? ==> r.value.steps == [Install(cmd)])
    ensures var r := ResolveVcpkg(h, d);
            r.Err? ==> r.error == VcpkgNotFound || r.error == VcpkgInstallFailed(d.name)
    ensures var r := ResolveVcpkg(h, d);
            r.Ok? ==> r.value.source == r.value.install && Name(r.value.install) == VcpkgTriplet(h, d) &&
                      r.value.install == Child(Child(Parent(Parent(FindVcpkg(h).value)), "installed"), VcpkgTriplet(h, d))
  {
  }

  // ---------------------------------------------------------------------
  // System dependencies

  /** Where `_find_system_library` looks; two Windows locations are added on `nt`. */
  function SearchPaths(osName: string): (r: seq<Path>)
    ensures |r| == (if osName == "nt" then 7 else 5)
  {
    [["usr", "lib"], ["usr", "local", "lib"], ["lib"], ["usr", "lib", "x86_64-linux-gnu"], ["usr", "lib64"]] +
    (if osName == "nt" then [["C:", "Windows", "System32"], ["C:", "Program Files", "Microsoft Visual Studio", "*", "VC", "lib"]] else [])
  }

  /** The file names probed for a library. */
  function LibraryPatterns(lib: string): (r: seq<string>)
    ensures |r| == 4
    ensures forall k | 0 <= k < 4 :: Contains(r[k], lib)
  {
    var r := ["lib" + lib + ".so", "lib" + lib + ".a", lib + ".lib", lib + ".dll"];
    assert OccursAt(r[0], lib, 3) && OccursAt(r[1], lib, 3) && OccursAt(r[2], lib, 0) && OccursAt(r[3], lib, 0);
    r
  }

  /** Some existing directory of `dirs` has a file matching one of `patterns`. */
  function AnyHit(h: Host, dirs: seq<Path>, patterns: seq<string>): (r: bool)
    ensures r <==> exists i, j | 0 <= i < |dirs| && 0 <= j < |patterns| :: h.before.Exists(dirs[i]) && h.globHit(dirs[i], patterns[j])
  {
    if dirs == [] then false
    else if h.before.Exists(dirs[0]) && AnyPattern(h, dirs[0], patterns) then true
    else
      var r := AnyHit(h, dirs[1..], patterns);
      assert forall i | 1 <= i < |dirs| :: dirs[i] == dirs[1..][i - 1];
      if r then
        var i, j :| 0 <= i < |dirs| - 1 && 0 <= j < |patterns| && h.before.Exists(dirs[1..][i]) && h.globHit(dirs[1..][i], patterns[j]);
        assert h.before.Exists(dirs[i + 1]) && h.globHit(dirs[i + 1], patterns[j]);
        r
      else r
  }

  function AnyPattern(h: Host, dir: Path, patterns: seq<string>): (r: bool)
    ensures r <==> exists j | 0 <= j < |patterns| :: h.globHit(dir, patterns[j])
  {
    if patterns == [] then false
    else if h.globHit(dir, patterns[0]) then true
    else
      assert forall j | 1 <= j < |patterns| :: patterns[j] == patterns[1..][j - 1];
      AnyPattern(h, dir, patterns[1..])
  }

  /** `_find_system_library`: some search directory that exists holds one of the four probed names. */
  function FindSystemLibrary(h: Host, lib: string): bool
  {
    AnyHit(h, SearchPaths(h.osName), LibraryPatterns(lib))
  }

  /** A library is found when some existing search directory holds one of its four probed names. */
  lemma LibraryProbe(h: Host, lib: string)
    ensures var r := FindSystemLibrary(h, lib);
            r <==> exists i, j | 0 <= i < |SearchPaths(h.osName)| && 0 <= j < 4 ::
                     h.before.Exists(SearchPaths(h.osName)[i]) && h.globHit(SearchPaths(h.osName)[i], LibraryPatterns(lib)[j])
  {
  }

  /** `pkg-config --exists` confirms the package. */
  predicate PkgConfigFound(h: Host, d: Dependency)
    requires d.System?
  {
    Truthy(d.pkgConfig) && Succeeded(h.pkgConfig(["pkg-config", "--exists", d.pkgConfig.value]))
  }

  /** A run of `pkg-config` that exited successfully. */
  predicate Succeeded(p: Proc) {
    p.Exited? && p.ok
  }

  /** The placeholder path of a system dependency. */
  const SystemPrefix: Path := ["usr"]

  /** The declared libraries that are not found. */
  function MissingSet(h: Host, libs: seq<string>): (r: set<string>)
    ensures r == {} <==> forall k | 0 <= k < |libs| :: FindSystemLibrary(h, libs[k])
  {
    var r := set l | l in libs && !FindSystemLibrary(h, l);
    assert forall k | 0 <= k < |libs| && !FindSystemLibrary(h, libs[k]) :: libs[k] in r;
    r
  }

  /**
   * `_resolve_system_dependency`: found through pkg-config, or else every
   * declared library must be found; otherwise the error names the missing ones.
   */
  function ResolveSystem(h: Host, name: string, d: Dependency): Result<Resolution, DepError>
    requires d.System?
  {
    if PkgConfigFound(h, d) then Ok(Resolution(SystemPrefix, SystemPrefix, []))
    else if MissingSet(h, d.libraries) == {} then Ok(Resolution(SystemPrefix, SystemPrefix, []))
    else
      assert exists l :: l in MissingSet(h, d.libraries);
      Err(MissingLibraries(name, MissingSet(h, d.libraries)))
  }

  /** A system dependency resolves through pkg-config or when every declared library is found; otherwise the missing ones are named. */
  lemma SystemResolution(h: Host, name: string, d: Dependency)
    requires d.System?
    ensures var r := ResolveSystem(h, name, d);
            r.Ok? <==> PkgConfigFound(h, d) || forall k | 0 <= k < |d.libraries| :: FindSystemLibrary(h, d.libraries[k])
    ensures var r := ResolveSystem(h, name, d);
            r.Ok? ==> r.value == Resolution(SystemPrefix, SystemPrefix, [])
    ensures var r := ResolveSystem(h, name, d);
            r.Err? ==> r.error == MissingLibraries(name, MissingSet(h, d.libraries)) && MissingSet(h, d.libraries) != {}
  {
  }

  /** A system dependency that declares no libraries always resolves. */
  lemma NoLibrariesResolve(h: Host, name: string, d: Dependency)
    requires d.System? && d.libraries == []
    ensures ResolveSystem(h, name, d).Ok?
  {
  }

  /** The libraries of `libs` that are found, in order. */
  function FoundLibraries(h: Host, libs: seq<string>): (r: seq<string>)
    ensures |r| <= |libs|
    ensures |r| == |libs| <==> forall k | 0 <= k < |libs| :: FindSystemLibrary(h, libs[k])
    ensures forall l :: l in r <==> l in libs && FindSystemLibrary(h, l)
  {
    if libs == [] then []
    else
      var rest := FoundLibraries(h, libs[..|libs| - 1]);
      var last := libs[|libs| - 1];
      assert forall k | 0 <= k < |libs| - 1 :: libs[k] == libs[..|libs| - 1][k];
      assert forall l :: l in libs <==> l in libs[..|libs| - 1] || l == last;
      if FindSystemLibrary(h, last) then rest + [last] else rest
  }

  lemma FoundLibrariesSnoc(h: Host, libs: seq<string>, i: nat)
    requires i < |libs|
    ensures FoundLibraries(h, libs[..i + 1]) ==
            FoundLibraries(h, libs[..i]) + (if FindSystemLibrary(h, libs[i]) then [libs[i]] else [])
  {
    TakeStep(libs, i);
  }

  /** Counting the found libraries decides the outcome, and the set difference is the missing set. */
  lemma FoundAllOrMissing(h: Host, libs: seq<string>, found: seq<string>)
    requires found == FoundLibraries(h, libs[..|libs|])
    ensures |found| == |libs| <==> MissingSet(h, libs) == {}
    ensures (set l | l in libs) - (set l | l in found) == MissingSet(h, libs)
  {
    TakeAll(libs);
  }

  // ---------------------------------------------------------------------
  // Local dependencies

  function Abs(i: int): nat {
    if i < 0 then -i else i
  }

  /** The cache directory name of a local dependency: its name and the absolute hash of its path. */
  function LocalKey(h: Host, source: Path): (r: string)
    ensures StartsWith(r, "local_" + Name(source) + "_")
  {
    "local_" + Name(source) + "_" + NatToString(Abs(h.hash(PathString(source))))
  }

  /** `_resolve_local_dependency`: a missing path is fatal; an empty install directory is built or set up. */
  function ResolveLocal(h: Host, cacheDir: Path, d: Dependency): Result<Resolution, DepError>
    requires d.Local?
  {
    var src := h.resolvePath(d.path);
    if !h.before.Exists(src) then Err(LocalPathNotFound(src))
    else
      var install := Child(Child(cacheDir, "local"), LocalKey(h, src));
      if h.before.Exists(install) && h.before.Entries(install) != [] then Ok(Resolution(src, install, []))
      else match d.buildSystem
        case Some(bs) =>
          if BuildSucceeds(h, src, install, bs) then Ok(Resolution(src, install, [Build(src, install, bs)]))
          else Err(BuildError(src, bs))
        case None =>
          if h.canCreate(install) then Ok(Resolution(src, install, [HeaderOnly(src, install, d.includeDirs)]))
          else Err(CannotCreate(install))
  }

  /** A local dependency must exist; an empty install directory is built (a failure is fatal) or set up as headers. */
  lemma LocalResolution(h: Host, cacheDir: Path, d: Dependency)
    requires d.Local?
    ensures var r := ResolveLocal(h, cacheDir, d);
            !h.before.Exists(h.resolvePath(d.path)) <==> r == Err(LocalPathNotFound(h.resolvePath(d.path)))
    ensures var r := ResolveLocal(h, cacheDir, d);
            r.Ok? ==> r.value.source == h.resolvePath(d.path) &&
                      r.value.install == Child(Child(cacheDir, "local"), LocalKey(h, h.resolvePath(d.path)))
    ensures var r := ResolveLocal(h, cacheDir, d);
            r.Ok? ==> (r.value.steps == [] <==> h.before.Entries(r.value.install) != [])
    ensures var r := ResolveLocal(h, cacheDir, d);
            r.Ok? && r.value.steps != [] && d.buildSystem.Some? ==>
              r.value.steps == [Build(r.value.source, r.value.install, d.buildSystem.value)] &&
              BuildSucceeds(h, r.value.source, r.value.install, d.buildSystem.value)
    ensures var r := ResolveLocal(h, cacheDir, d);
            var src := h.resolvePath(d.path);
            var install := Child(Child(cacheDir, "local"), LocalKey(h, src));
            (h.before.Exists(src) && h.before.Entries(install) == [] && d.buildSystem.Some? &&
             !BuildSucceeds(h, src, install, d.buildSystem.value)) ==> r == Err(BuildError(src, d.buildSystem.value))
  {
  }

  // ---------------------------------------------------------------------
  // All dependencies

  /** The per-kind dispatch of `resolve_all_dependencies`. */
  function Resolve(h: Host, cacheDir: Path, name: string, d: Dependency): Result<Resolution, DepError> {
    match d
    case Git(_, _, _, _, _, _, _, _, _, _) => ResolveGit(h, cacheDir, d)
    case Vcpkg(_, _, _, _) => ResolveVcpkg(h, d)
    case System(_, _, _, _, _) => ResolveSystem(h, name, d)
    case Local(_, _, _, _, _, _) => ResolveLocal(h, cacheDir, d)
  }

  /** The resolutions made before the first failure, in order (all of them when none fails). */
  function ResolvedPrefix(h: Host, cacheDir: Path, deps: seq<(string, Dependency)>): (r: seq<(string, Resolution)>)
    ensures |r| <= |deps|
    ensures forall k | 0 <= k < |r| :: r[k].0 == deps[k].0 && Resolve(h, cacheDir, deps[k].0, deps[k].1) == Ok(r[k].1)
    ensures |r| < |deps| ==> Resolve(h, cacheDir, deps[|r|].0, deps[|r|].1).Err?
  {
    if deps == [] then []
    else match Resolve(h, cacheDir, deps[0].0, deps[0].1)
      case Err(_) => []
      case Ok(res) =>
        var rest := ResolvedPrefix(h, cacheDir, deps[1..]);
        assert forall k | 1 <= k < |deps| :: deps[k] == deps[1..][k - 1];
        [(deps[0].0, res)] + rest
  }

  /** The first resolution error, if any. */
  function FirstError(h: Host, cacheDir: Path, deps: seq<(string, Dependency)>): (r: Option<DepError>)
    ensures var p := ResolvedPrefix(h, cacheDir, deps);
            (r.None? <==> |p| == |deps|) &&
            (r.Some? ==> Resolve(h, cacheDir, deps[|p|].0, deps[|p|].1) == Err(r.value))
  {
    var p := ResolvedPrefix(h, cacheDir, deps);
    if |p| == |deps| then None else Some(Resolve(h, cacheDir, deps[|p|].0, deps[|p|].1).error)
  }

  /** `resolved_deps` after recording each resolution in turn. */
  function Record(m: map<string, (Path, Path)>, rs: seq<(string, Resolution)>): map<string, (Path, Path)>
    decreases |rs|
  {
    if rs == [] then m
    else
      var last := rs[|rs| - 1];
      Record(m, rs[..|rs| - 1])[last.0 := (last.1.source, last.1.install)]
  }

  /** Recording adds exactly the names resolved. */
  lemma {:induction false} RecordKeys(m: map<string, (Path, Path)>, rs: seq<(string, Resolution)>)
    ensures Record(m, rs).Keys == m.Keys + set k | 0 <= k < |rs| :: rs[k].0
    decreases |rs|
  {
    if rs != [] {
      var init := rs[..|rs| - 1];
      RecordKeys(m, init);
      assert forall k | 0 <= k < |rs| - 1 :: rs[k] == init[k];
      assert (set k | 0 <= k < |rs| :: rs[k].0) == (set k | 0 <= k < |init| :: init[k].0) + {rs[|rs| - 1].0};
    }
  }

  /** The later resolution of a name wins, as with dictionary assignment. */
  lemma RecordLast(m: map<string, (Path, Path)>, rs: seq<(string, Resolution)>, k: nat)
    requires k < |rs| && forall j | k < j < |rs| :: rs[j].0 != rs[k].0
    ensures rs[k].0 in Record(m, rs)
    ensures Record(m, rs)[rs[k].0] == (rs[k].1.source, rs[k].1.install)
    decreases |rs|
  {
    if k < |rs| - 1 {
      assert forall j | k < j < |rs| - 1 :: rs[..|rs| - 1][j] == rs[j];
      RecordLast(m, rs[..|rs| - 1], k);
    }
  }

  lemma RecordSnoc(m: map<string, (Path, Path)>, rs: seq<(string, Resolution)>, i: nat)
    requires i < |rs|
    ensures Record(m, rs[..i + 1]) == Record(m, rs[..i])[rs[i].0 := (rs[i].1.source, rs[i].1.install)]
    ensures StepsOf(rs[..i + 1]) == StepsOf(rs[..i]) + rs[i].1.steps
  {
    TakeStep(rs, i);
  }

  lemma AppendAssoc<T>(a: seq<T>, b: seq<T>, c: seq<T>)
    ensures a + b + c == a + (b + c)
  {
  }

  /** The external actions of a sequence of resolutions, in order. */
  function StepsOf(rs: seq<(string, Resolution)>): seq<Step>
    decreases |rs|
  {
    if rs == [] then [] else StepsOf(rs[..|rs| - 1]) + rs[|rs| - 1].1.steps
  }

  // ---------------------------------------------------------------------
  // Collected flags

  datatype Flags = Flags(includeDirs: seq<string>, libDirs: seq<string>, libraries: seq<string>) {
    function Then(other: Flags): (r: Flags)
      ensures r.includeDirs == includeDirs + other.includeDirs
      ensures r.libDirs == libDirs + other.libDirs
      ensures r.libraries == libraries + other.libraries
    {
      Flags(includeDirs + other.includeDirs, libDirs + other.libDirs, libraries + other.libraries)
    }
  }

  const NoFlags := Flags([], [], [])

  lemma ThenAssoc(x: Flags, y: Flags, z: Flags)
    ensures x.Then(y).Then(z) == x.Then(y.Then(z))
  {
    AppendAssoc(x.includeDirs, y.includeDirs, z.includeDirs);
    AppendAssoc(x.libDirs, y.libDirs, z.libDirs);
    AppendAssoc(x.libraries, y.libraries, z.libraries);
  }

  /** `str(base / d)` for each `d`, in order. */
  function Under(base: Path, dirs: seq<string>): (r: seq<string>)
    ensures |r| == |dirs|
    ensures forall k | 0 <= k < |dirs| :: r[k] == PathString(Join(base, dirs[k]))
  {
    seq(|dirs|, k requires 0 <= k < |dirs| => PathString(Join(base, dirs[k])))
  }

  /** `str(base / n)` for each of `names` that exists, in order. */
  function ExistingUnder(fs: FileSystem, base: Path, names: seq<string>): (r: seq<string>)
    ensures |r| <= |names|
    ensures forall k | 0 <= k < |r| :: exists j | 0 <= j < |names| :: r[k] == PathString(Child(base, names[j])) && fs.Exists(Child(base, names[j]))
    ensures forall j | 0 <= j < |names| && fs.Exists(Child(base, names[j])) :: PathString(Child(base, names[j])) in r
  {
    if names == [] then []
    else
      var rest := ExistingUnder(fs, base, names[1..]);
      assert forall j | 1 <= j < |names| :: names[j] == names[1..][j - 1];
      if fs.Exists(Child(base, names[0])) then [PathString(Child(base, names[0]))] + rest else rest
  }

  /** A library name with one leading `lib` removed. */
  function StripLib(s: string): (r: string)
    ensures StartsWith(s, "lib") ==> "lib" + r == s
    ensures !StartsWith(s, "lib") ==> r == s
  {
    if StartsWith(s, "lib") then s[3..] else s
  }

  /** The libraries found in a vcpkg `lib` directory: the stems of its `.lib` files, without `lib`. */
  function VcpkgLibraries(fs: FileSystem, libDir: Path): (r: seq<string>)
    ensures |r| == |GlobExt(fs, libDir, ".lib")|
    ensures forall k | 0 <= k < |r| :: r[k] == StripLib(Stem(Name(GlobExt(fs, libDir, ".lib")[k])))
  {
    var files := GlobExt(fs, libDir, ".lib");
    seq(|files|, k requires 0 <= k < |files| => StripLib(Stem(Name(files[k]))))
  }

  /** The words of `s` that start with `prefix`, without it, in order. */
  function FlagValues(words: seq<string>, prefix: string): (r: seq<string>)
    ensures |r| <= |words|
    ensures forall v :: v in r <==> exists w | w in words :: StartsWith(w, prefix) && v == w[|prefix|..]
  {
    if words == [] then []
    else
      var rest := FlagValues(words[1..], prefix);
      assert forall w :: w in words <==> w == words[0] || w in words[1..];
      if StartsWith(words[0], prefix) then [words[0][|prefix|..]] + rest else rest
  }


  /**
   * The include and library flags pkg-config reports for a package, as the
   * collection step means to gather them: a run that fails, or a
   * `pkg-config` that is not installed, contributes nothing further.
   */
  function PkgConfigFlags(h: Host, package: string): (r: Flags)
    ensures !Succeeded(h.pkgConfig(["pkg-config", "--cflags-only-I", package])) ==> r == NoFlags
    ensures Succeeded(h.pkgConfig(["pkg-config", "--cflags-only-I", package])) ==>
              r.includeDirs == FlagValues(SplitWhitespace(h.pkgConfig(["pkg-config", "--cflags-only-I", package]).stdout), "-I")
    ensures Succeeded(h.pkgConfig(["pkg-config", "--cflags-only-I", package])) &&
            Succeeded(h.pkgConfig(["pkg-config", "--libs", package])) ==>
              var words := SplitWhitespace(h.pkgConfig(["pkg-config", "--libs", package]).stdout);
              r.libDirs == FlagValues(words, "-L") && r.libraries == FlagValues(words, "-l")
  {
    var cflags := h.pkgConfig(["pkg-config", "--cflags-only-I", package]);
    if !Succeeded(cflags) then NoFlags
    else
      var inc := FlagValues(SplitWhitespace(cflags.stdout), "-I");
      var libs := h.pkgConfig(["pkg-config", "--libs", package]);
      if !Succeeded(libs) then Flags(inc, [], [])
      else
        var words := SplitWhitespace(libs.stdout);
        Flags(inc, FlagValues(words, "-L"), FlagValues(words, "-l"))
  }

  /**
   * The same step as the source writes it: only a failed run is caught, so
   * a `pkg-config` that is not installed raises.
   */
  function PkgConfigFlagsAsWritten(h: Host, dep: string, package: string): (r: Result<Flags, DepError>)
    ensures h.pkgConfig(["pkg-config", "--cflags-only-I", package]).NotInstalled? ==> r == Err(PkgConfigNotInstalled(dep))
    ensures r.Ok? ==> r.value == PkgConfigFlags(h, package)
  {
    var cflags := h.pkgConfig(["pkg-config", "--cflags-only-I", package]);
    if cflags.NotInstalled? then Err(PkgConfigNotInstalled(dep))
    else if !cflags.ok then Ok(NoFlags)
    else
      var inc := FlagValues(SplitWhitespace(cflags.stdout), "-I");
      var libs := h.pkgConfig(["pkg-config", "--libs", package]);
      if libs.NotInstalled? then Err(PkgConfigNotInstalled(dep))
      else if !libs.ok then Ok(Flags(inc, [], []))
      else
        var words := SplitWhitespace(libs.stdout);
        Ok(Flags(inc, FlagValues(words, "-L"), FlagValues(words, "-l")))
  }

  /**
   * Resolution tolerates a missing `pkg-config`, but the collection step as
   * written does not: a system dependency naming a package and declaring no
   * libraries resolves on a machine without `pkg-config`, then its
   * collection raises.
   */
  lemma PkgConfigMissingAfterResolution()
    ensures var h := Host(FileSystem({}, {}, map[]), FileSystem({}, {}, map[]), [], "posix", "Linux", "x86_64",
                          n => None, s => [], s => "", s => 0, c => true, (s, i, b) => true, p => true, (p, s) => false,
                          c => NotInstalled);
            var d := Config.System("zlib", Some("zlib"), [], [], []);
            ResolveSystem(h, "zlib", d).Ok? && PkgConfigFlagsAsWritten(h, "zlib", "zlib").Err? &&
            PkgConfigFlags(h, "zlib") == NoFlags
  {
    var h := Host(FileSystem({}, {}, map[]), FileSystem({}, {}, map[]), [], "posix", "Linux", "x86_64",
                  n => None, s => [], s => "", s => 0, c => true, (s, i, b) => true, p => true, (p, s) => false,
                  c => NotInstalled);
    var d := Config.System("zlib", Some("zlib"), [], [], []);
    NoLibrariesResolve(h, "zlib", d);
  }

  /** What `_collect_dependency_info` adds for one resolved dependency. */
  function Contribution(h: Host, d: Dependency, source: Path, install: Path): Flags
  {
    match d
    case Git(_, _, _, _, _, _, _, _, _, _) =>
      Flags(ExistingUnder(h.after, install, ["include", "inc"]) + Under(source, d.includeDirs),
            ExistingUnder(h.after, install, ["lib", "lib64", "libs"]) + Under(install, d.libDirs),
            d.libraries)
    case Local(_, _, _, _, _, _) =>
      Flags(ExistingUnder(h.after, install, ["include", "inc"]) + Under(source, d.includeDirs),
            ExistingUnder(h.after, install, ["lib", "lib64", "libs"]) + Under(install, d.libDirs),
            d.libraries)
    case Vcpkg(_, _, _, _) =>
      var lib := Child(install, "lib");
      if h.after.Exists(lib) then Flags([PathString(Child(install, "include"))], [PathString(lib)], VcpkgLibraries(h.after, lib))
      else Flags([PathString(Child(install, "include"))], [], [])
    case System(_, _, _, _, _) =>
      var pc := if Truthy(d.pkgConfig) then PkgConfigFlags(h, d.pkgConfig.value) else NoFlags;
      pc.Then(Flags(d.includeDirs, d.libDirs, d.libraries))
  }

  /** Git and local dependencies resolve declared include directories under the source and library directories under the install. */
  lemma ContributionShape(h: Host, d: Dependency, source: Path, install: Path)
    ensures var r := Contribution(h, d, source, install);
            (d.Git? || d.Local?) ==>
              r.includeDirs == ExistingUnder(h.after, install, ["include", "inc"]) + Under(source, d.includeDirs) &&
              r.libDirs == ExistingUnder(h.after, install, ["lib", "lib64", "libs"]) + Under(install, d.libDirs) &&
              r.libraries == d.libraries
    ensures var r := Contribution(h, d, source, install);
            d.Vcpkg? ==> r.includeDirs == [PathString(Child(install, "include"))]
    ensures var r := Contribution(h, d, source, install);
            d.Vcpkg? && h.after.Exists(Child(install, "lib")) ==>
              r.libDirs == [PathString(Child(install, "lib"))] && r.libraries == VcpkgLibraries(h.after, Child(install, "lib"))
    ensures var r := Contribution(h, d, source, install);
            d.Vcpkg? && !h.after.Exists(Child(install, "lib")) ==> r.libDirs == [] && r.libraries == []
    ensures var r := Contribution(h, d, source, install);
            d.System? ==>
              var pc := if Truthy(d.pkgConfig) then PkgConfigFlags(h, d.pkgConfig.value) else NoFlags;
              r == pc.Then(Flags(d.includeDirs, d.libDirs, d.libraries))
  {
  }

  /** Everything collected from the dependencies that have been resolved, in declaration order. */
  function CollectAll(h: Host, deps: seq<(string, Dependency)>, resolved: map<string, (Path, Path)>): Flags
    decreases |deps|
  {
    if deps == [] then NoFlags
    else
      var last := deps[|deps| - 1];
      var before := CollectAll(h, deps[..|deps| - 1], resolved);
      if last.0 in resolved then before.Then(Contribution(h, last.1, resolved[last.0].0, resolved[last.0].1))
      else before
  }

  lemma CollectAllSnoc(h: Host, deps: seq<(string, Dependency)>, resolved: map<string, (Path, Path)>, i: nat)
    requires i < |deps|
    ensures CollectAll(h, deps[..i + 1], resolved) ==
            if deps[i].0 in resolved
            then CollectAll(h, deps[..i], resolved).Then(Contribution(h, deps[i].1, resolved[deps[i].0].0, resolved[deps[i].0].1))
            else CollectAll(h, deps[..i], resolved)
  {
    TakeStep(deps, i);
  }

  /** Collecting over two runs of dependencies is collecting over each in turn. */
  lemma {:induction false} CollectAllConcat(h: Host, a: seq<(string, Dependency)>, b: seq<(string, Dependency)>,
                                            resolved: map<string, (Path, Path)>)
    ensures CollectAll(h, a + b, resolved) == CollectAll(h, a, resolved).Then(CollectAll(h, b, resolved))
    decreases |b|
  {
    if b == [] {
      assert a + b == a;
      var c := CollectAll(h, a, resolved);
      assert c.Then(NoFlags) == c;
    } else {
      var b' := b[..|b| - 1];
      assert (a + b)[..|a + b| - 1] == a + b';
      assert (a + b)[|a + b| - 1] == b[|b| - 1];
      CollectAllConcat(h, a, b', resolved);
      var x := CollectAll(h, a, resolved);
      var y := CollectAll(h, b', resolved);
      var last := b[|b| - 1];
      if last.0 in resolved {
        var z := Contribution(h, last.1, resolved[last.0].0, resolved[last.0].1);
        ThenAssoc(x, y, z);
      }
    }
  }

  /** The libraries a resolved git, local or system dependency declares are all linked, in order. */
  lemma DeclaredLibrariesCollected(h: Host, deps: seq<(string, Dependency)>, resolved: map<string, (Path, Path)>, k: nat)
    requires k < |deps| && deps[k].0 in resolved && !deps[k].1.Vcpkg?
    ensures exists i :: RunAt(CollectAll(h, deps, resolved).libraries, deps[k].1.libraries, i)
  {
    var d := deps[k];
    assert deps == deps[..k] + [d] + deps[k + 1..];
    CollectAllConcat(h, deps[..k] + [d], deps[k + 1..], resolved);
    CollectAllConcat(h, deps[..k], [d], resolved);
    assert [d][..0] == [];
    var c := Contribution(h, d.1, resolved[d.0].0, resolved[d.0].1);
    ContributionShape(h, d.1, resolved[d.0].0, resolved[d.0].1);
    var pre := CollectAll(h, deps[..k], resolved).libraries;
    var libs := CollectAll(h, deps, resolved).libraries;
    var lib := d.1.libraries;
    assert c.libraries[|c.libraries| - |lib|..] == lib;
    var i := |pre| + |c.libraries| - |lib|;
    assert libs[i..i + |lib|] == lib;
    assert RunAt(libs, lib, i);
  }

  /** `t` occurs in `s` at index `i`. */
  predicate RunAt<T(==)>(s: seq<T>, t: seq<T>, i: int) {
    0 <= i && i + |t| <= |s| && s[i..i + |t|] == t
  }

  // ---------------------------------------------------------------------
  // Compiler flags

  /** Each item with `prefix` in front, in order. */
  function Prefixed(prefix: string, items: seq<string>): (r: seq<string>)
    ensures |r| == |items|
    ensures forall k | 0 <= k < |items| :: r[k] == prefix + items[k]
  {
    seq(|items|, k requires 0 <= k < |items| => prefix + items[k])
  }

  /** Each flag with a leading `prefix` removed; others unchanged. */
  function Unprefixed(prefix: string, flags: seq<string>): (r: seq<string>)
    ensures |r| == |flags|
    ensures forall k | 0 <= k < |flags| :: r[k] == (if StartsWith(flags[k], prefix) then flags[k][|prefix|..] else flags[k])
  {
    seq(|flags|, k requires 0 <= k < |flags| => if StartsWith(flags[k], prefix) then flags[k][|prefix|..] else flags[k])
  }

  /** Removing the prefix again gives back the items. */
  lemma UnprefixedPrefixed(prefix: string, items: seq<string>)
    ensures Unprefixed(prefix, Prefixed(prefix, items)) == items
  {
    var r := Unprefixed(prefix, Prefixed(prefix, items));
    forall k | 0 <= k < |items| ensures r[k] == items[k] {
      assert (prefix + items[k])[..|prefix|] == prefix;
      assert (prefix + items[k])[|prefix|..] == items[k];
    }
  }

  // ---------------------------------------------------------------------
  // The manager

  /** `DependencyManager`: resolves the configured dependencies and accumulates their flags. */
  class DependencyManager {
    const config: Config.DoracxxConfig
    const nodeDir: Path
    const depsDir: Path
    const cacheDir: Path
    var resolvedDeps: map<string, (Path, Path)>
    var includeDirs: seq<string>
    var libDirs: seq<string>
    var libraries: seq<string>
    /** The external actions taken so far: clones, builds, installs and header copies. */
    var performed: seq<Step>

    /** The dependencies go under the target directory when one is given, else under the node. */
    constructor(config: Config.DoracxxConfig, nodeDir: Path, targetDir: Option<Path>, doracxxCache: Path)
      ensures this.config == config && this.nodeDir == nodeDir
      ensures depsDir == Child(if targetDir.Some? then targetDir.value else nodeDir, "deps")
      ensures cacheDir == Child(doracxxCache, "dependencies")
      ensures resolvedDeps == map[] && includeDirs == [] && libDirs == [] && libraries == [] && performed == []
    {
      this.config := config;
      this.nodeDir := nodeDir;
      depsDir := Child(if targetDir.Some? then targetDir.value else nodeDir, "deps");
      cacheDir := Child(doracxxCache, "dependencies");
      resolvedDeps := map[];
      includeDirs := [];
      libDirs := [];
      libraries := [];
      performed := [];
    }

    /** `_resolve_vcpkg_dependency`, building its command in place. */
    method ResolveVcpkgDependency(h: Host, d: Dependency) returns (r: Result<Resolution, DepError>)
      requires d.Vcpkg?
      ensures r == ResolveVcpkg(h, d)
    {
      var exe := FindVcpkg(h);
      if exe.None? {
        return Err(VcpkgNotFound);
      }
      var triplet := VcpkgTriplet(h, d);
      var cmd := VcpkgCommand(PathString(exe.value), d.name, d.features, triplet);
      if !h.runs(cmd) {
        return Err(VcpkgInstallFailed(d.name));
      }
      var p := Child(Child(Parent(Parent(exe.value)), "installed"), triplet);
      return Ok(Resolution(p, p, [Install(cmd)]));
    }

    /** `_resolve_system_dependency`, counting the libraries it finds. */
    method ResolveSystemDependency(h: Host, name: string, d: Dependency) returns (r: Result<Resolution, DepError>)
      requires d.System?
      ensures r == ResolveSystem(h, name, d)
    {
      if PkgConfigFound(h, d) {
        return Ok(Resolution(SystemPrefix, SystemPrefix, []));
      }
      var found := FindLibraries(h, d.libraries);
      FoundAllOrMissing(h, d.libraries, found);
      SystemResolution(h, name, d);
      if |found| == |d.libraries| {
        return Ok(Resolution(SystemPrefix, SystemPrefix, []));
      }
      var missing := (set l | l in d.libraries) - (set l | l in found);
      return Err(MissingLibraries(name, missing));
    }

    /** The probing loop of `_resolve_system_dependency`: the declared libraries that are found, in order. */
    method FindLibraries(h: Host, libs: seq<string>) returns (found: seq<string>)
      ensures found == FoundLibraries(h, libs[..|libs|])
    {
      found := [];
      for i := 0 to |libs|
        invariant found == FoundLibraries(h, libs[..i])
      {
        FoundLibrariesSnoc(h, libs, i);
        if FindSystemLibrary(h, libs[i]) {
          found := found + [libs[i]];
        }
      }
    }

    /** One dependency, dispatched on its kind. */
    method ResolveDependency(h: Host, name: string, d: Dependency) returns (r: Result<Resolution, DepError>)
      ensures r == Resolve(h, cacheDir, name, d)
    {
      match d {
        case Git(_, _, _, _, _, _, _, _, _, _) => r := ResolveGit(h, cacheDir, d);
        case Vcpkg(_, _, _, _) => r := ResolveVcpkgDependency(h, d);
        case System(_, _, _, _, _) => r := ResolveSystemDependency(h, name, d);
        case Local(_, _, _, _, _, _) => r := ResolveLocal(h, cacheDir, d);
      }
    }

    /**
     * `_collect_dependency_info`: for each configured dependency that has
     * been resolved, append its include directories, library directories and
     * libraries.
     */
    method CollectDependencyInfo(h: Host)
      modifies this`includeDirs, this`libDirs, this`libraries
      ensures includeDirs == old(includeDirs) + CollectAll(h, config.dependencies, resolvedDeps).includeDirs
      ensures libDirs == old(libDirs) + CollectAll(h, config.dependencies, resolvedDeps).libDirs
      ensures libraries == old(libraries) + CollectAll(h, config.dependencies, resolvedDeps).libraries
    {
      var deps := config.dependencies;
      for i := 0 to |deps|
        invariant includeDirs == old(includeDirs) + CollectAll(h, deps[..i], resolvedDeps).includeDirs
        invariant libDirs == old(libDirs) + CollectAll(h, deps[..i], resolvedDeps).libDirs
        invariant libraries == old(libraries) + CollectAll(h, deps[..i], resolvedDeps).libraries
      {
        CollectAllSnoc(h, deps, resolvedDeps, i);
        var name := deps[i].0;
        if name in resolvedDeps {
          var c := Contribution(h, deps[i].1, resolvedDeps[name].0, resolvedDeps[name].1);
          ghost var before := CollectAll(h, deps[..i], resolvedDeps);
          AppendAssoc(old(includeDirs), before.includeDirs, c.includeDirs);
          AppendAssoc(old(libDirs), before.libDirs, c.libDirs);
          AppendAssoc(old(libraries), before.libraries, c.libraries);
          includeDirs := includeDirs + c.includeDirs;
          libDirs := libDirs + c.libDirs;
          libraries := libraries + c.libraries;
        }
      }
      TakeAll(deps);
    }

    /** The loop of `resolve_all_dependencies`: record each resolution until one fails. */
    method ResolveEach(h: Host) returns (failure: Option<DepError>)
      modifies this`resolvedDeps, this`performed
      ensures var prefix := ResolvedPrefix(h, cacheDir, config.dependencies);
              resolvedDeps == Record(old(resolvedDeps), prefix) && performed == old(performed) + StepsOf(prefix)
      ensures failure == FirstError(h, cacheDir, config.dependencies)
    {
      var deps := config.dependencies;
      ghost var p := ResolvedPrefix(h, cacheDir, deps);
      ghost var m := resolvedDeps;
      ghost var s := performed;
      var i := 0;
      assert p[..i] == [];
      assert s + [] == s;
      while i < |deps|
        invariant 0 <= i <= |p|
        invariant resolvedDeps == Record(m, p[..i])
        invariant performed == s + StepsOf(p[..i])
        decreases |deps| - i
      {
        var res := ResolveDependency(h, deps[i].0, deps[i].1);
        if res.Err? {
          PrefixStopsAt(h, cacheDir, deps, i);
          return Some(res.error);
        }
        PrefixContinues(h, cacheDir, deps, i);
        RecordSnoc(m, p, i);
        assert res.value == p[i].1;
        assert StepsOf(p[..i + 1]) == StepsOf(p[..i]) + p[i].1.steps;
        AppendAssoc(s, StepsOf(p[..i]), p[i].1.steps);
        resolvedDeps := resolvedDeps[deps[i].0 := (res.value.source, res.value.install)];
        performed := performed + res.value.steps;
        i := i + 1;
      }
      PrefixComplete(h, cacheDir, deps, i);
      return None;
    }

    /**
     * `resolve_all_dependencies`: resolve each dependency in order, recording
     * its paths; the first failure stops the loop and is raised, otherwise the
     * flags of all of them are collected.
     */
    method ResolveAllDependencies(h: Host) returns (r: Result<map<string, (Path, Path)>, DepError>)
      modifies this
      ensures var prefix := ResolvedPrefix(h, cacheDir, config.dependencies);
              resolvedDeps == Record(old(resolvedDeps), prefix) && performed == old(performed) + StepsOf(prefix)
      ensures FirstError(h, cacheDir, config.dependencies).Some? ==>
                r == Err(FirstError(h, cacheDir, config.dependencies).value) &&
                includeDirs == old(includeDirs) && libDirs == old(libDirs) && libraries == old(libraries)
      ensures FirstError(h, cacheDir, config.dependencies).None? ==>
                r == Ok(resolvedDeps) &&
                includeDirs == old(includeDirs) + CollectAll(h, config.dependencies, resolvedDeps).includeDirs &&
                libDirs == old(libDirs) + CollectAll(h, config.dependencies, resolvedDeps).libDirs &&
                libraries == old(libraries) + CollectAll(h, config.dependencies, resolvedDeps).libraries
    {
      var failure := ResolveEach(h);
      if failure.Some? {
        return Err(failure.value);
      }
      CollectDependencyInfo(h);
      return Ok(resolvedDeps);
    }

    /** `get_compiler_flags`: `-I`, `-L` and `-l` in front of each accumulated entry, in order. */
    function GetCompilerFlags(): (r: (seq<string>, seq<string>, seq<string>))
      reads this
      ensures |r.0| == |includeDirs| && forall k | 0 <= k < |includeDirs| :: r.0[k] == "-I" + includeDirs[k]
      ensures |r.1| == |libDirs| && forall k | 0 <= k < |libDirs| :: r.1[k] == "-L" + libDirs[k]
      ensures |r.2| == |libraries| && forall k | 0 <= k < |libraries| :: r.2[k] == "-l" + libraries[k]
      ensures Unprefixed("-I", r.0) == includeDirs
    {
      UnprefixedPrefixed("-I", includeDirs);
      (Prefixed("-I", includeDirs), Prefixed("-L", libDirs), Prefixed("-l", libraries))
    }
  }

  lemma PrefixStopsAt(h: Host, cacheDir: Path, deps: seq<(string, Dependency)>, i: nat)
    requires i <= |ResolvedPrefix(h, cacheDir, deps)| && i < |deps|
    requires Resolve(h, cacheDir, deps[i].0, deps[i].1).Err?
    ensures |ResolvedPrefix(h, cacheDir, deps)| == i
    ensures FirstError(h, cacheDir, deps) == Some(Resolve(h, cacheDir, deps[i].0, deps[i].1).error)
    ensures ResolvedPrefix(h, cacheDir, deps)[..i] == ResolvedPrefix(h, cacheDir, deps)
  {
  }

  lemma PrefixContinues(h: Host, cacheDir: Path, deps: seq<(string, Dependency)>, i: nat)
    requires i <= |ResolvedPrefix(h, cacheDir, deps)| && i < |deps|
    requires Resolve(h, cacheDir, deps[i].0, deps[i].1).Ok?
    ensures i < |ResolvedPrefix(h, cacheDir, deps)|
    ensures ResolvedPrefix(h, cacheDir, deps)[i] == (deps[i].0, Resolve(h, cacheDir, deps[i].0, deps[i].1).value)
  {
  }

  lemma PrefixComplete(h: Host, cacheDir: Path, deps: seq<(string, Dependency)>, i: nat)
    requires i == |deps| && i <= |ResolvedPrefix(h, cacheDir, deps)|
    ensures ResolvedPrefix(h, cacheDir, deps)[..i] == ResolvedPrefix(h, cacheDir, deps)
    ensures FirstError(h, cacheDir, deps).None?
  {
  }
}
