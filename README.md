# doracxx build logic in Dafny

doracxx builds C++ nodes for the Dora dataflow framework. It reads a
`doracxx.toml` project file. It resolves the node's C/C++ dependencies
(git checkouts, vcpkg ports, system libraries, local directories) into
versioned caches under `~/.doracxx`. It finds the cxxbridge headers and
generated sources of a Dora build. Finally it assembles one compiler
command line, `cl` or GCC/Clang, that compiles and links the node. A
companion script prepares a minimal Apache Arrow C++ installation with
CMake.

The model keeps the decision logic and treats everything else as input.
The file system is an abstract snapshot: the paths that exist, the
directories among them, and each directory's listing in order. The
following are uninterpreted functions or recorded facts:

- the results of `shutil.which`, `glob`, `rglob` and `fnmatch`;
- the md5 digest and Python's `hash`;
- the output of `git ls-remote`, `pkg-config` and `cmake --help`;
- the GitHub release query;
- whether each external command succeeds.

The model computes the commands that would run and the files that would be
copied, and proves what the scripts promise about them.

| module | file | models |
|---|---|---|
| `Wrappers`, `Strings`, `Paths` | `wrappers.dfy`, `strings.dfy`, `paths.dfy` | `Option`/`Result`, the parts of Python's `str` that the scripts use, and pathlib paths over a file-system snapshot |
| `Cache` | `cache.dfy` | `cache.py`: file-system-safe names, the latest stable tag, the versioned Dora and Arrow cache directories |
| `Config` | `config.dfy` | `config.py`: the decoded TOML document, the dependency kinds, `parse_dependency`, `load_config`, `validate_config`, `find_project_root` |
| `Dependencies` | `dependencies.dfy` | `dependencies.py`: per-kind resolution, cache keys, the vcpkg triplet and command, the system-library rule, the collection of flags, and the `DependencyManager` class whose methods grow its lists |
| `Bridge` | `bridge.dfy` | `find_cxxbridge_artifacts`, shared by both build scripts |
| `CompileSteps` | `compile_steps.dfy` | the `compile_node` steps that both build scripts share line for line |
| `BuildNode` | `build_cxx_node.dfy` | `compile_node` and the recovery in `main` of `build_cxx_node.py` |
| `LegacyBuild` | `build_cxx_node_legacy.dfy` | `compile_node`, `find_dora_target_dir` and the recovery in `main` of `build-cxx-node.py` |
| `PrepareArrow` | `prepare_arrow.dfy` | `prepare_arrow.py` |

Where a loop in the code builds up a result, the model has a method with a
loop. Each such method is proved equal to a specification function. The
loops that stop at their first match are recursive functions instead: the
newest tag of `get_latest_git_tag` (`Cache.FirstQualifying`) and the
nearest `doracxx.toml` of `find_project_root` (`Config.NearestWithConfig`).
Lemmas then state what the scripts promise about these functions: order, membership, absence of
duplicates, error cases, and the shape of the command lines. The
`DependencyManager` is a class. Its `resolvedDeps` map and its
`includeDirs`, `libDirs` and `libraries` lists only ever grow.

In a few places the code and its description disagree. The model follows
the code:

- `load_config` never reads `build.sources`, `build.exclude_sources` or
  `build.build_timeout`. Through the configuration the node's sources are
  therefore always discovered by the default patterns. The exclusion step
  is modelled all the same.
- A system dependency fails when any declared library is missing, not only
  when none is found.
- One exception: the model collects a system dependency's flags with the
  corrected pkg-config step (see "## Findings"). The code as written is
  modelled beside it, and a missing `pkg-config` program there escapes.
- The "latest" tag is the first qualifying line of `git ls-remote --tags
  --sort=-version:refname`, not a separately computed maximum.
- For the prebuilt-library filter, the crate of a generated source is the
  name of its grandparent directory. For `.cc` files found at a crate root
  that is the cxxbridge root itself.

## Model

| member | source | states |
|---|---|---|
| Cache.ReplaceReserved | doracxx/cache.py:149-152 | same length as the input; each reserved character (`/ \ : * ? " < > \| ^ { }`) becomes `_`, every other character is kept |
| Cache.ReplaceReservedIdentity | doracxx/cache.py:152 | the substitution leaves a name unchanged exactly when the name has no reserved character |
| Cache.Sanitize | doracxx/cache.py:147-158 | the result is never empty, has no reserved character, and neither starts nor ends with `.` or space |
| Cache.SanitizeIdempotent | doracxx/cache.py:147-158 | sanitizing an already sanitized name changes nothing |
| Cache.SanitizeFallback | doracxx/cache.py:154-157 | a name made only of dots and spaces (the empty name included) becomes `default` |
| Cache.SanitizeInner | doracxx/cache.py:152-154 | otherwise the result is a contiguous part of the substituted name (only the ends are stripped) |
| Cache.SanitizeKeepsSafeNames | doracxx/cache.py:147-158 | a non-empty name with no reserved character and no dot or space at either end is returned unchanged |
| Cache.TagOf | doracxx/cache.py:29 | the tag is a suffix of its `ls-remote` line (what follows the last `refs/tags/`) |
| Cache.TagOfHasNoPrefix | doracxx/cache.py:29 | the extracted tag never contains `refs/tags/` |
| Cache.FirstStableTag | doracxx/cache.py:26-32 | no tag exactly when no line is non-empty, holds `refs/tags/` and names a tag free of the pre-release words; otherwise the tag of the first such line in output order |
| Cache.LatestGitTag | doracxx/cache.py:17-35 | a listing that raised or exited non-zero gives no tag |
| Cache.LatestGitTagStable | doracxx/cache.py:26-32 | a tag returned contains none of `alpha`, `beta`, `rc`, `pre`, `dev` (case-insensitively) and no `refs/tags/` |
| Cache.LatestGitTagFound | doracxx/cache.py:24-32 | a successful listing yields a tag if and only if one of its stripped lines qualifies |
| Cache.RepoName | doracxx/cache.py:50-52 | the repository name is no longer than the URL |
| Cache.RepoNameHasNoSlash | doracxx/cache.py:50 | the repository name (last `/` segment after trailing slashes are stripped) never contains `/` |
| Cache.DefaultRepoNameMatchesUrl | doracxx/cache.py:53-55 | for Dora and for Arrow, the default repository name is the name derived from the default URL |
| Cache.DoraRepoName | doracxx/cache.py:53-55 | the default Dora URL yields the repository name `dora` |
| Cache.ArrowRepoName | doracxx/cache.py:127-129 | the default Arrow URL (ending in `.git`) yields the repository name `arrow` |
| Cache.RevisionPart | doracxx/cache.py:57-61 | a given (non-empty) revision is used in sanitized form |
| Cache.CachePath | doracxx/cache.py:38-70 | the cache directory lies directly under `~/.doracxx` and is named `<repo>-<revision part>` |
| Cache.PinnedPathIgnoresRemote | doracxx/cache.py:57-61 | with a revision given, the path does not depend on what the remote answers |
| Cache.UnpinnedRevision | doracxx/cache.py:62-70 | without a revision, a failed tag lookup gives `main` and a found tag is used in sanitized form |
| Cache.RevisionPartSafe | doracxx/cache.py:57-70 | the revision part is never empty, has no reserved character and no dot or space at either end |
| Cache.ArrowReleasePath | tests/validate_arrow.py:76-78 | the Arrow cache directory for `apache-arrow-15.0.0` of the default URL is named `arrow-apache-arrow-15.0.0` |
| Config.Lookup | doracxx/config.py:168 | `dict.get` on a TOML table: no value exactly when no entry has the key; a value found is the one stored under the key |
| Config.GetStr | doracxx/config.py:173-176 | an absent key gives no value; a value given is the string stored under the key; a wrong-typed value is a type error for that key |
| Config.GetStrOr | doracxx/config.py:263-264 | an absent key gives the default; a value given is the string stored under the key |
| Config.GetRequired | doracxx/config.py:172 | `dep_config["url"]` and its kin: the key is missing exactly when the error is `MissingKey(dependency, key)`; a value given is the stored string |
| Config.GetBoolOr | doracxx/config.py:266-267 | an absent key gives the default; a value given is the boolean stored under the key |
| Config.GetIntOpt | doracxx/config.py:276 | an absent key gives no value; a value given is the integer stored under the key |
| Config.StringItems | doracxx/config.py:179-181 | a list of strings is read item by item, with the same length and order |
| Config.GetList | doracxx/config.py:179-181 | an absent list key gives the empty list; the key is a type error exactly when its value is present and not an array of strings; an array read is the key's strings, in order and with the same length |
| Config.GetTable | doracxx/config.py:178 | an absent table key gives the empty table; a table given is the one stored under the key; the key is a type error exactly when its value is present and not a table |
| Config.ParseNodeType | doracxx/config.py:21-24 | `NodeType(value)`: accepted exactly when the value is one of the enumeration's strings, and it then names that member |
| Config.ParseToolchain | doracxx/config.py:27-32 | `Toolchain(value)`: accepted exactly when the value is `auto`, `gcc`, `clang` or `msvc`, and it then names that member |
| Config.ParseBuildSystem | doracxx/config.py:35-40 | `BuildSystem(value)`: accepted exactly when the value is one of the enumeration's strings, and it then names that member |
| Config.GetEnum | doracxx/config.py:250 | an absent key gives the default; a present key parses exactly when its value names a member, and then gives that member; otherwise the error is `InvalidEnum(key)` |
| Config.GetBuildSystem | doracxx/config.py:177 | a build system is set exactly when `build_system` is present and truthy; a value that names no build system is `InvalidEnum("build_system")` |
| Config.ParseDependency | doracxx/config.py:166-208 | an unknown `type` raises the unknown-type error; a parsed dependency is of the declared kind; a missing required key is reported with that key; no other errors occur |
| Config.ParseGit | doracxx/config.py:170-182 | yields a git dependency; its errors are those of its fields |
| Config.ParseVcpkg | doracxx/config.py:183-189 | yields a vcpkg dependency; its errors are those of its fields |
| Config.ParseSystem | doracxx/config.py:190-197 | yields a system dependency; its errors are those of its fields |
| Config.ParseLocal | doracxx/config.py:198-206 | yields a local dependency; its errors are those of its fields |
| Config.MissingRequiredKey | doracxx/config.py:172-200 | for a known type, the required key (`url`, `name`, `name`, `path`) is absent exactly when parsing fails with `MissingKey` for it |
| Config.DependencyTypeDefaults | doracxx/config.py:168-208 | an absent `type` means git; `type = "cmake"` is rejected as unknown |
| Config.GitFieldsDefault | doracxx/config.py:173-181 | each absent optional git field takes its default (none or empty), and the build system is set exactly when `build_system` is truthy |
| Config.GitParsed | doracxx/config.py:170-182 | every git field, the required `url` included, holds what its key holds |
| Config.VcpkgFieldsDefault | doracxx/config.py:186-188 | each absent optional vcpkg field takes its default |
| Config.VcpkgParsed | doracxx/config.py:184-189 | the vcpkg `name`, `version`, `features` and `triplet` hold what their keys hold |
| Config.SystemFieldsDefault | doracxx/config.py:193-196 | each absent optional system field takes its default |
| Config.SystemParsed | doracxx/config.py:191-197 | the system `name`, `pkg_config`, include and library directories and libraries hold what their keys hold |
| Config.LocalFieldsDefault | doracxx/config.py:201-205 | each absent optional local field takes its default, and the build system is set exactly when `build_system` is truthy |
| Config.LocalParsed | doracxx/config.py:198-205 | every local field, the required `path` included, holds what its key holds |
| Config.Section | doracxx/config.py:244 | `data.get(section, {})`: an absent section is the empty table; a present section is an error exactly when it is not a table, and otherwise is the stored table |
| Config.ParseNode | doracxx/config.py:244-256 | a `[node]` section without `name` is the missing-name error, and exactly then; a parsed node carries the stored name |
| Config.NodeParsed | doracxx/config.py:248-256 | every node field holds what its key holds: `name`, `type` (default `node`), `dora_version`, `dora_git`, `dora_rev`, `description`, and `version` (default `0.1.0`) |
| Config.ParseBuild | doracxx/config.py:259-278 | the keys the loader never reads keep their defaults: no sources, no exclusions, timeout 300, no global suppression, automatic suppression on, no filter patterns |
| Config.BuildSettings | doracxx/config.py:261-267 | the enumerations and scalar settings are read first; the fields the loader never reads are at their defaults; only an unknown enumeration value or a wrongly typed value fails |
| Config.WithBuildLists | doracxx/config.py:268-274 | reading the flag, directory and library lists and the CMake options changes those fields and nothing else |
| Config.WithBuildTail | doracxx/config.py:275-277 | reading `cmake_build_type`, `parallel_jobs` and `install_clang` changes those fields and nothing else |
| Config.BuildParsed | doracxx/config.py:259-278 | every enumeration and scalar field of `[build]` holds what its key holds: toolchain, system, profile, std, optimization, debug information, warnings as errors, CMake build type, parallel jobs and `install_clang`, each with its default when absent |
| Config.BuildListsParsed | doracxx/config.py:268-274 | `cflags`, `cxxflags`, `ldflags`, `include_dirs`, `lib_dirs`, `libraries` and `cmake_options` hold what their keys hold |
| Config.BuildDefaults | doracxx/config.py:117-154 | an empty `[build]` section gives every default of `BuildConfig` (auto toolchain, native system, `debug`, `c++17`, …) |
| Config.ParseArrow | doracxx/config.py:280-288 | there is no Arrow section exactly when `arrow` is absent or falsy |
| Config.ParseEntry | doracxx/config.py:293-294 | a dependency entry never fails with a node-name, file or decoding error |
| Config.ParseDependencies | doracxx/config.py:290-294 | the dependency table never fails with a node-name, file or decoding error |
| Config.ParseDependenciesSpec | doracxx/config.py:290-294 | all entries parse exactly when the table does; the result keeps names and order; a failure is the error of the first entry that fails |
| Config.LoadDependencies | doracxx/config.py:291-294 | the loop over the dependency table computes `ParseDependencies` |
| Config.ParseDependenciesStep | doracxx/config.py:293-294 | one step of the loop: the first failing entry stops it, a good entry is prepended to the rest |
| Config.Decode | doracxx/config.py:243-301 | decoding a document never reports a missing file or an undecodable file |
| Config.DecodeNeedsName | doracxx/config.py:244-246 | decoding fails with the missing-name error exactly when `[node]` has no `name` |
| Config.DecodeParts | doracxx/config.py:296-301 | a decoded configuration is made of the node, build and Arrow sections as parsed one by one |
| Config.DecodeDefaults | doracxx/config.py:259-288 | a loaded configuration never has sources or exclusions set and has timeout 300; it has no Arrow section exactly when `arrow` is absent or falsy |
| Config.DecodeDocument | doracxx/config.py:243-301 | the method computes `Decode` |
| Config.LoadConfig | doracxx/config.py:226-241 | the configuration file (given, or `doracxx.toml` at the project root) is missing exactly when the result is `FileNotFound` for it; an existing file is decoded, or gives a decoding error |
| Config.NearestWithConfig | doracxx/config.py:216-220 | the directory found is the deepest of the path and its ancestors holding `doracxx.toml`; none found means none of them holds it |
| Config.FindProjectRoot | doracxx/config.py:211-223 | the root is the nearest directory, from the start (or its parent for a file) upwards, holding `doracxx.toml`, or the working directory when there is none |
| Config.CheckSettings | doracxx/config.py:343-355 | the node and build checks append their warnings in source order |
| Config.CheckDependency | doracxx/config.py:358-378 | the warnings of one dependency, by kind |
| Config.ValidateConfig | doracxx/config.py:339-380 | the warnings are the settings warnings followed by each dependency's in declaration order |
| Config.NoDependencyWarnings | doracxx/config.py:357-378 | the dependencies raise no warning exactly when each one is well-formed (a URL and at most one of rev/branch/tag for git, a name for vcpkg and system, an existing path for local) |
| Config.ValidateSilentIffWellFormed | doracxx/config.py:339-380 | validation returns no warning if and only if the configuration is well-formed, stated independently of the warning list |
| Config.DependencyWarningsConcat | doracxx/config.py:358 | the warnings of two runs of dependencies are those of each run in turn |
| Dependencies.SafeChars | doracxx/dependencies.py:401 | keeps exactly the alphanumeric, `-` and `_` characters, in order; a name made only of those is kept whole |
| Dependencies.SafeNameSafe | doracxx/dependencies.py:396-401 | the safe name is at most 8 allowed characters, and is the repository name itself when that is already short and clean |
| Dependencies.CacheKeyShape | doracxx/dependencies.py:389-402 | the key is the safe name, `_`, then the first 8 hex digits of the MD5 of `url#ref`; at most 17 characters |
| Dependencies.CacheRef | doracxx/dependencies.py:85 | the first truthy of rev, branch and tag, else `main`; it agrees with the clone reference whenever that is set |
| Dependencies.CloneCommand | doracxx/dependencies.py:382-387 | `git clone <url> <dest>`, followed by `--branch <ref>` exactly when a truthy reference is given |
| Dependencies.BuildError | doracxx/dependencies.py:209-221 | only a build system outside cmake, make and ninja is reported as unsupported |
| Dependencies.FallbackIncludes | doracxx/dependencies.py:117 | the header-only fallback copies the configured include directories, or `Eigen` when there are none |
| Dependencies.GitInstallSteps | doracxx/dependencies.py:108-120 | no build system: header-only setup; otherwise a build, followed by a header-only fallback exactly when the build fails |
| Dependencies.CloneSteps | doracxx/dependencies.py:88-93 | an existing cache directory is not cloned again; otherwise the clone runs, and a failed clone is fatal |
| Dependencies.InstallDir | doracxx/dependencies.py:98-106 | the install directory is `install`, else `inst`; it fails only when neither can be created |
| Dependencies.GitResolution | doracxx/dependencies.py:82-122 | a failed clone of a missing cache is fatal; the only errors are the clone and the install directory; the source honours `subdir`; the steps are the clone when missing, then the build or header-only setup when the install directory is empty |
| Dependencies.GitResolutionAt | doracxx/dependencies.py:88-122 | the same, once the cache directory is known |
| Dependencies.GitBuildFallback | doracxx/dependencies.py:110-117 | a git dependency whose build fails still resolves, its last step being the header-only setup of its include directories or `Eigen` |
| Dependencies.GitBuildFallbackAt | doracxx/dependencies.py:110-117 | the same, once the cache directory is known |
| Dependencies.FirstExisting | doracxx/dependencies.py:420-424 | none found exactly when no path exists; otherwise the first existing one in list order |
| Dependencies.FindVcpkg | doracxx/dependencies.py:404-424 | `vcpkg` on the PATH, else `vcpkg.exe`, else the first existing common location |
| Dependencies.DetectTriplet | doracxx/dependencies.py:426-445 | `x64-`/`x86-` by machine on Windows and Linux, `x64-osx` on macOS, `x64-linux` otherwise |
| Dependencies.VcpkgTriplet | doracxx/dependencies.py:131 | the configured triplet when truthy, else the detected one from the lower-cased system and machine |
| Dependencies.VcpkgArgs | doracxx/dependencies.py:134-144 | `<vcpkg> install <name>`, one `name[feature]` per feature in order, then `--triplet <triplet>` |
| Dependencies.VcpkgCommand | doracxx/dependencies.py:134-144 | the loop building the command computes `VcpkgArgs` |
| Dependencies.VcpkgResolution | doracxx/dependencies.py:124-156 | no vcpkg exactly when the error is `VcpkgNotFound`; otherwise the install command decides success; source and install are `<root>/installed/<triplet>` |
| Dependencies.SearchPaths | doracxx/dependencies.py:450-463 | five library directories, seven on Windows |
| Dependencies.LibraryPatterns | doracxx/dependencies.py:465-470 | four file patterns, each naming the library |
| Dependencies.AnyHit | doracxx/dependencies.py:472-477 | true exactly when some existing search directory has a match for some pattern |
| Dependencies.AnyPattern | doracxx/dependencies.py:475-477 | true exactly when some pattern matches in the directory |
| Dependencies.LibraryProbe | doracxx/dependencies.py:447-479 | a system library is found exactly when an existing search path has a file matching one of its four patterns |
| Dependencies.MissingSet | doracxx/dependencies.py:185 | the missing set is empty exactly when every library is found |
| Dependencies.SystemResolution | doracxx/dependencies.py:158-186 | resolves exactly when pkg-config knows the package or every library is found; success is the `/usr` placeholder; failure names the non-empty set of missing libraries |
| Dependencies.NoLibrariesResolve | doracxx/dependencies.py:180 | a system dependency that lists no library always resolves |
| Dependencies.FoundLibraries | doracxx/dependencies.py:175-178 | the found libraries are those listed that are found; all are found exactly when the counts agree |
| Dependencies.FoundAllOrMissing | doracxx/dependencies.py:180-185 | equal counts exactly when nothing is missing; the missing set is the listed minus the found |
| Dependencies.LocalKey | doracxx/dependencies.py:195 | the key starts with `local_<directory name>_` |
| Dependencies.LocalResolution | doracxx/dependencies.py:188-207 | a missing path is fatal, and exactly then; install is `<cache>/local/<key>`; nothing to do exactly when the install directory has entries; a build that fails is fatal |
| Dependencies.ResolvedPrefix | doracxx/dependencies.py:52-75 | the resolutions made before the first failure: each one the result of resolving that dependency, in declaration order, and the dependency after them fails |
| Dependencies.FirstError | doracxx/dependencies.py:52-75 | no error exactly when every dependency resolves; otherwise the error of the first one that fails |
| Dependencies.RecordKeys | doracxx/dependencies.py:67-70 | recording adds exactly the resolved names |
| Dependencies.RecordLast | doracxx/dependencies.py:67-70 | the last resolution of a name is the one kept, as with dictionary assignment |
| Dependencies.Flags.Then | doracxx/dependencies.py:303-380 | appending one contribution keeps each of the three lists in order |
| Dependencies.ThenAssoc | doracxx/dependencies.py:303-380 | appending contributions is associative |
| Dependencies.Under | doracxx/dependencies.py:325-329 | each configured directory joined to the base, in order |
| Dependencies.ExistingUnder | doracxx/dependencies.py:314-322 | exactly the standard subdirectories that exist, each as a path string |
| Dependencies.StripLib | doracxx/dependencies.py:345-348 | a leading `lib` is removed, and nothing else |
| Dependencies.VcpkgLibraries | doracxx/dependencies.py:342-348 | one library per `*.lib` file, its stem without `lib` |
| Dependencies.FlagValues | doracxx/dependencies.py:359-372 | exactly the words with the prefix, the prefix removed |
| Dependencies.PkgConfigFlags | doracxx/dependencies.py:352-375 | a failed `--cflags-only-I` adds nothing; otherwise its `-I` values; with `--libs` also succeeding, its `-L` and `-l` values |
| Dependencies.PkgConfigFlagsAsWritten | doracxx/dependencies.py:352-375 | as written, a missing `pkg-config` program raises instead of falling back |
| Dependencies.PkgConfigMissingAfterResolution | doracxx/dependencies.py:161-171 | a host without pkg-config whose system dependency lists no library resolves, yet collecting its flags as written fails |
| Dependencies.ContributionShape | doracxx/dependencies.py:311-380 | git and local: the existing standard directories, then the configured ones; vcpkg: `include`, and `lib` with its libraries when present; system: pkg-config's flags, then the configured ones |
| Dependencies.CollectAllConcat | doracxx/dependencies.py:303 | collecting over two runs of dependencies is collecting over each in turn |
| Dependencies.DeclaredLibrariesCollected | doracxx/dependencies.py:331-380 | the libraries declared by a resolved non-vcpkg dependency appear, as one contiguous run, among the collected libraries |
| Dependencies.Prefixed | doracxx/dependencies.py:483-485 | same length, each item prefixed |
| Dependencies.Unprefixed | doracxx/build_cxx_node.py:536 | same length, each flag without the prefix when it has it |
| Dependencies.UnprefixedPrefixed | doracxx/build_cxx_node.py:534-536 | stripping `-I` from the include flags gives back the include directories |
| Dependencies.DependencyManager.constructor | doracxx/dependencies.py:29-46 | `deps` under the target directory or else the node directory; cache under `~/.doracxx/dependencies`; everything empty |
| Dependencies.DependencyManager.ResolveVcpkgDependency | doracxx/dependencies.py:124-156 | computes `ResolveVcpkg` |
| Dependencies.DependencyManager.ResolveSystemDependency | doracxx/dependencies.py:158-186 | computes `ResolveSystem` |
| Dependencies.DependencyManager.FindLibraries | doracxx/dependencies.py:175-178 | computes `FoundLibraries` |
| Dependencies.DependencyManager.ResolveDependency | doracxx/dependencies.py:56-65 | dispatches on the kind and computes `Resolve` |
| Dependencies.DependencyManager.CollectDependencyInfo | doracxx/dependencies.py:301-380 | appends each collected list to the manager's own, in declaration order, collecting system dependencies with the corrected pkg-config step of "## Findings" |
| Dependencies.DependencyManager.ResolveEach | doracxx/dependencies.py:52-75 | records the resolutions before the first failure and the steps they performed, and returns that failure |
| Dependencies.DependencyManager.ResolveAllDependencies | doracxx/dependencies.py:48-80 | the first failure is raised with the flag lists untouched; otherwise every dependency is recorded and the flags collected, with the corrected pkg-config step of "## Findings" |
| Dependencies.DependencyManager.GetCompilerFlags | doracxx/dependencies.py:481-487 | `-I`, `-L`, `-l` in front of each accumulated entry, same lengths and order |
| Bridge.RootFound | doracxx/build_cxx_node.py:160-163 | an existing cxxbridge root is the first include directory it contributes; a missing root contributes nothing |
| Bridge.Unique | doracxx/build_cxx_node.py:192-196 | the same elements as the input, each once, and no more of them |
| Bridge.UniqueKeepsFirstOrder | doracxx/build_cxx_node.py:192-196 | de-duplication keeps the elements in the order of their first occurrence |
| Bridge.UniqueOfDistinct | doracxx/build_cxx_node.py:192-196 | a list without duplicates is kept as it is |
| Bridge.UniqueHead | doracxx/build_cxx_node.py:192-196 | the first element stays first |
| Bridge.Deduplicate | doracxx/build_cxx_node.py:193-196 | the `seen`-set loop computes `Unique` |
| Bridge.Artifacts | doracxx/build_cxx_node.py:149-198 | the result holds exactly the directories and sources the scans found, each once |
| Bridge.ProfileRootFirst | doracxx/build_cxx_node.py:159-163 | when `<target>/<profile>/cxxbridge` exists it is the first include directory |
| Bridge.NothingWithoutRoots | doracxx/build_cxx_node.py:159-190 | with neither cxxbridge root nor the build directory, nothing is found |
| Bridge.SourcesNeedIncludes | doracxx/build_cxx_node.py:164-190 | a generated source is only ever found together with an include directory |
| Bridge.BuildEntriesSourcesNeedIncludes | doracxx/build_cxx_node.py:181-190 | the same for the `build/*/out/cxxbridge/crate` fallback |
| Bridge.OutCratesSourcesNeedIncludes | doracxx/build_cxx_node.py:184-190 | the same for the crates of one fallback directory |
| Bridge.ScanCrate | doracxx/build_cxx_node.py:165-176 | one crate: its directory, its `src` when present with `lib.rs.cc` when present, then its crate-root `*.cc` files |
| Bridge.ScanCrates | doracxx/build_cxx_node.py:164-176 | the crate loop appends each crate's findings in listing order |
| Bridge.ScanRoot | doracxx/build_cxx_node.py:160-176 | one candidate root: itself, then its crates |
| Bridge.ScanOutCrates | doracxx/build_cxx_node.py:184-190 | the fallback crate loop appends each crate's `src` and `lib.rs.cc` |
| Bridge.ScanBuildEntries | doracxx/build_cxx_node.py:181-190 | the loop over the build directory's entries |
| Bridge.ScanFallback | doracxx/build_cxx_node.py:178-190 | the fallback scan, when the build directory exists |
| Bridge.FindCxxbridgeArtifacts | doracxx/build_cxx_node.py:149-198 | `find_cxxbridge_artifacts` computes `Artifacts` |
| CompileSteps.LibDirFallback | doracxx/build_cxx_node.py:457-463 | the library directory sits in the dora target; it is `<target>/<profile>` when that exists, and it differs from the profile exactly when that directory is missing and the profile is `debug` or `release`, in which case it is the other of the two |
| CompileSteps.LibStemSpec | doracxx/build_cxx_node.py:465-473 | a library counts as available exactly when it is a file with suffix `.lib` (MSVC) or a `lib*.a` file (otherwise, case-insensitively on the suffix); its name is the file stem, without `lib` for archives |
| CompileSteps.AvailableLib | doracxx/build_cxx_node.py:465-473 | a name is available exactly when some entry of the library directory yields it |
| CompileSteps.CollectAvailableLibs | doracxx/build_cxx_node.py:465-473 | the directory loop computes the set of available library names |
| CompileSteps.KeptGeneratedMembers | doracxx/build_cxx_node.py:475-490 | a generated source is compiled exactly when no library named after its crate, with or without `-` replaced by `_`, is available |
| CompileSteps.KeptGeneratedConcat | doracxx/build_cxx_node.py:476-490 | the filter works source by source, keeping their order |
| CompileSteps.NoPrebuiltKeepsAll | doracxx/build_cxx_node.py:475-490 | with no prebuilt library every generated source is compiled |
| CompileSteps.PrebuiltCrateDropped | doracxx/build_cxx_node.py:479-487 | the `lib.rs.cc` of a crate whose library exists is never compiled |
| CompileSteps.FilterGenerated | doracxx/build_cxx_node.py:476-492 | the filter loop computes the kept generated sources |
| CompileSteps.HeaderNameSpec | doracxx/build_cxx_node.py:436-442 | the dependency header name ends in `.h` and is the crate name with at most a `-cxx` and then a `-c` suffix removed; a name with neither suffix only gains `.h` |
| CompileSteps.DoraHeaderNames | doracxx/build_cxx_node.py:435-442 | `dora-node-api-cxx` gives `dora-node-api.h` and `dora-operator-api-c` gives `dora-operator-api.h` |
| CompileSteps.CrateHeaderCopiesGood | doracxx/build_cxx_node.py:432-443 | every copy of one root reads an existing `<crate>/src/lib.rs.h` and writes the crate's header name directly under the deps directory |
| CompileSteps.RootHeaderCopiesGood | doracxx/build_cxx_node.py:429-443 | the same over both cxxbridge roots |
| CompileSteps.HeaderCopiesGood | doracxx/build_cxx_node.py:425-451 | every header copy reads an existing `lib.rs.h` and writes a `.h` file directly under the deps directory |
| CompileSteps.CopyCrateHeaders | doracxx/build_cxx_node.py:432-449 | the crate loop of one root computes that root's copies |
| CompileSteps.CopyHeaders | doracxx/build_cxx_node.py:427-451 | the loop over the two roots computes all the header copies, skipping missing roots |
| CompileSteps.TargetIncludesOrder | doracxx/build_cxx_node.py:402-410 | a missing project include directory becomes first and a missing deps directory second; nothing else is added, nothing is lost and no duplicate appears |
| CompileSteps.CheckoutIncludesSpec | doracxx/build_cxx_node.py:378-387 | the existing include directories stay in front; only parents of `operator.h` hits and `apis/c` are appended, without creating duplicates |
| CompileSteps.VendorIncludesSpec | doracxx/build_cxx_node.py:369-391 | only the first existing dora checkout contributes; with none the include directories are unchanged; existing ones keep their place and no duplicate appears |
| CompileSteps.AddVendorIncludes | doracxx/build_cxx_node.py:376-388 | the location loop with its `break` computes the vendor include directories |
| CompileSteps.DoraLibFilesMembers | doracxx/build_cxx_node.py:558-568 | a name is collected exactly when it is the name of a `.lib` file in the directory whose lower-cased name contains `dora_node_api_cxx` or starts with `libdora` or `dora` |
| CompileSteps.MsvcLibsSpec | doracxx/build_cxx_node.py:569-585 | the link libraries are the dora libraries (or `dora_node_api_cxx.lib` when none), then the dependency libraries, then the configured ones, then `ws2_32.lib`, then only Windows system libraries, each of which is present |
| CompileSteps.CollectMsvcLibs | doracxx/build_cxx_node.py:557-585 | the library loops compute the MSVC link libraries |
| CompileSteps.FindDoraLibs | doracxx/build_cxx_node.py:558-568 | the directory loop collects the dora `.lib` names |
| CompileSteps.ApiLinkNames | doracxx/build_cxx_node.py:657-662 | `libdora_node_api_cxx.a` links as `dora_node_api_cxx` and `libdora_node_api_c.a` as `dora_node_api_c` |
| CompileSteps.ArchiveNamesApi | doracxx/build_cxx_node.py:652-664 | only the two dora API archives are ever linked |
| CompileSteps.DirsLinkedApi | doracxx/build_cxx_node.py:646-664 | over both search directories the linked names are API names without duplicates |
| CompileSteps.GccLinkedSpec | doracxx/build_cxx_node.py:639-664 | at most two distinct API libraries are linked |
| CompileSteps.LinkArchives | doracxx/build_cxx_node.py:652-664 | the entry loop of one directory appends the new API names |
| CompileSteps.CollectGccLinked | doracxx/build_cxx_node.py:646-664 | the directory loop yields a `-L` flag per existing directory and the linked API names |
| BuildNode.CandidateOrders | doracxx/build_cxx_node.py:244-255 | every candidate is a known compiler with its own dialect and appears once; there are four candidates exactly on Windows or with a non-`auto` preference, otherwise `clang++` then `g++`; an explicit preference comes first; `auto` behaves like no preference |
| BuildNode.RetryOrderKnown | doracxx/build_cxx_node.py:271 | the list searched after installing clang names four distinct known compilers with their dialects |
| BuildNode.FirstFoundSpec | doracxx/build_cxx_node.py:257-262 | the search fails exactly when no candidate is on the `PATH`, and otherwise returns the first one found, with its dialect |
| BuildNode.SelectCompilerSpec | doracxx/build_cxx_node.py:233-279 | a usable `CXX`/`CXX_COMPILER` wins and is MSVC exactly when its lower-cased name ends in `cl.exe` or `cl`; otherwise the first candidate on the `PATH` is used; the retry after installing clang happens only on Windows, and then its result decides; the only failure is "no compiler" |
| BuildNode.SearchCandidates | doracxx/build_cxx_node.py:257-262 | the candidate loop with its `break` returns the first compiler found |
| BuildNode.FindCompiler | doracxx/build_cxx_node.py:228-279 | the compiler-selection code computes `SelectCompiler` |
| BuildNode.ConfiguredSourcesMembers | doracxx/build_cxx_node.py:285-296 | a configured entry containing `*` or `?` contributes its glob matches, any other entry its path under the node directory when that exists, and nothing else is collected |
| BuildNode.PatternsAreGlobs | doracxx/build_cxx_node.py:287-291 | a list made only of patterns is collected exactly as the default discovery globs it |
| BuildNode.DefaultsAreGlobs | doracxx/build_cxx_node.py:297-300 | the default patterns `**/*.cc`, `**/*.cpp`, `**/*.c` are all globbed |
| BuildNode.CollectSources | doracxx/build_cxx_node.py:281-300 | the discovery loops compute `DiscoverSources` |
| BuildNode.ExcludedListExcluded | doracxx/build_cxx_node.py:306-314 | every source put on the excluded list matches some exclude pattern by its node-relative path |
| BuildNode.RemoveExcluded | doracxx/build_cxx_node.py:317-319 | removing the excluded sources one first occurrence at a time leaves exactly the kept sources, in order |
| BuildNode.KeptSourcesMembers | doracxx/build_cxx_node.py:302-319 | a source is kept exactly when it was discovered and matches no exclude pattern |
| BuildNode.FirstOutsideSpec | doracxx/build_cxx_node.py:307 | the first source outside the node directory is found exactly when there is one |
| BuildNode.ExcludesSpec | doracxx/build_cxx_node.py:302-319 | without exclude patterns the sources are unchanged; with some, the step fails exactly when a source lies outside the node directory, naming that source, and otherwise keeps exactly the unmatched sources |
| BuildNode.MatchesSome | doracxx/build_cxx_node.py:308-312 | the pattern loop with its `break` tells whether some pattern matches |
| BuildNode.ExcludeSources | doracxx/build_cxx_node.py:302-319 | the exclusion code computes `ApplyExcludes` |
| BuildNode.TranslateConcat | doracxx/build_cxx_node.py:506-526 | each flag is translated on its own, in order |
| BuildNode.TranslateFlagsSpec | doracxx/build_cxx_node.py:505-526 | translation never adds flags, never lets a `-` flag through, and keeps a list without `-` flags as it is |
| BuildNode.TranslatedFlags | doracxx/build_cxx_node.py:509-525 | `-Wall`, `-Wextra`, `-O2`, `-O3` become `/W3`, `/W4`, `/O2`, `/Ox`; `-DNDEBUG` becomes `/DNDEBUG`; other `-` flags are dropped; `/` flags pass |
| BuildNode.TranslateSingle | doracxx/build_cxx_node.py:507-525 | a single flag becomes its MSVC form, or nothing when it has none |
| BuildNode.MsvcFlagSpec | doracxx/build_cxx_node.py:508-525 | the MSVC form of a flag never starts with `-`, and a flag without a leading `-` is passed unchanged |
| BuildNode.TranslateCxxFlags | doracxx/build_cxx_node.py:505-526 | the translation loop computes `TranslateFlags` |
| BuildNode.EmptyBuildSectionSettings | doracxx/config.py:118-154 | a configuration with an empty `[build]` table compiles with the same settings as no configuration (C++17 and no extra flags) |
| BuildNode.PairsSpec | doracxx/build_cxx_node.py:529-530 | `flag, item` is emitted for each item in order |
| BuildNode.AppendPairs | doracxx/build_cxx_node.py:622-623 | the `cmd += [flag, item]` loop appends those pairs |
| BuildNode.SlicedIncludes | doracxx/build_cxx_node.py:533-536 | removing two characters from each dependency `-I` flag gives back the dependency's include directory |
| BuildNode.MsvcCommandShape | doracxx/build_cxx_node.py:494-606 | the `cl` line starts with the compiler, `/nologo /EHsc /MD` and `/std:`, and ends with `/OUT:` and the executable |
| BuildNode.GccCommandShape | doracxx/build_cxx_node.py:608-702 | the GCC line starts with the compiler, all the sources and `-std=`, and ends with `-o` and the executable |
| BuildNode.AssembleMsvc | doracxx/build_cxx_node.py:494-606 | the MSVC branch computes `MsvcCommand` |
| BuildNode.AssembleGcc | doracxx/build_cxx_node.py:608-702 | the GCC branch computes `GccCommand` |
| BuildNode.SetupDependencies | doracxx/dependencies.py:490-494 | the dependency manager is built, resolves everything and yields its flags, or the first error; system dependencies are collected with the corrected pkg-config step of "## Findings" |
| BuildNode.RelocatedSpec | doracxx/build_cxx_node.py:412-423 | every project header under `include/` is copied to the same relative path under the target include directory, and nothing else is copied |
| BuildNode.Assemble | doracxx/build_cxx_node.py:355-358 | the invocation always produces the executable at the final output path |
| BuildNode.NodeSourcesErrors | doracxx/build_cxx_node.py:281-322 | source discovery fails only with "no sources" or a source outside the node directory, and otherwise yields at least one source |
| BuildNode.PlanSpec | doracxx/build_cxx_node.py:233-322 | no compiler is the first error; then a source problem is reported, and it is either "no sources" or a source outside the node directory |
| BuildNode.PlanLaterErrors | doracxx/build_cxx_node.py:338-363 | a dependency failure is the dependency manager's own error; "no cxxbridge outputs" means the scan found neither include directories nor sources; a successful plan has sources |
| BuildNode.PlanOutput | doracxx/build_cxx_node.py:324-358 | the executable is `<project root>/target/<profile>/<name>`, with `.exe` on Windows |
| BuildNode.OutputPathShape | doracxx/build_cxx_node.py:326-355 | the output path is under the project root's `target/<profile>` |
| BuildNode.PlanIncludes | doracxx/build_cxx_node.py:361-410 | the target include and deps directories are added in front when missing, the vendored directories are kept, and no duplicate appears |
| BuildNode.ResolveNodeDependencies | doracxx/build_cxx_node.py:338-342 | a dependency manager is set up only when dependencies are configured |
| BuildNode.CompileNode | doracxx/build_cxx_node.py:201-703 | `compile_node` computes `Plan`: the compiler command or the first error |
| BuildNode.BuildInvocation | doracxx/build_cxx_node.py:453-703 | the command-building tail computes `Assemble` |
| BuildNode.CommandLineWins | doracxx/build_cxx_node.py:912-924 | a command-line value wins over the configuration; without either the profile is `debug`, the name `node` and Dora comes from GitHub; a Dora URL is always set |
| BuildNode.MainExitSpec | doracxx/build_cxx_node.py:1004-1020 | `main` exits with 1 exactly when the expected executable is missing, whatever went wrong before; `compile_node` succeeds exactly when the plan, the compiler and the executable all do, returning that executable |
| LegacyBuild.LegacySelectionIsUnconfigured | doracxx/build-cxx-node.py:162-203 | the older builder picks its compiler as the newer one does with no configuration and with clang installation switched on: the same candidate lists and the same retry on Windows |
| LegacyBuild.FindLegacyCompiler | doracxx/build-cxx-node.py:162-203 | the compiler-selection code computes `SelectLegacyCompiler` |
| LegacyBuild.FindDoraTargetSpec | doracxx/build-cxx-node.py:27-40 | the cached `~/.doracxx/dora/target` wins, then `third_party/dora/target` under the working directory, then `target` under it; the result is always a `target` directory |
| LegacyBuild.LegacyMsvcShape | doracxx/build-cxx-node.py:353-389 | the `cl` line starts with the compiler, `/nologo /EHsc /std:c++17 /MD` and ends with `/OUT:` and the build-directory executable |
| LegacyBuild.LegacyGccIsUnconfigured | doracxx/build-cxx-node.py:391-437 | the older GCC line is exactly the newer one for a node without configuration and without dependencies |
| LegacyBuild.AssembleLegacyMsvc | doracxx/build-cxx-node.py:349-389 | the MSVC branch computes `LegacyMsvcCommand` |
| LegacyBuild.AssembleLegacyGcc | doracxx/build-cxx-node.py:391-437 | the GCC branch computes `LegacyGccCommand` |
| LegacyBuild.LegacyAssemble | doracxx/build-cxx-node.py:219-220 | the compiler writes the executable into the build directory |
| LegacyBuild.LegacyPlanSpec | doracxx/build-cxx-node.py:162-225 | no compiler is the first error, then no sources; the only errors are those two and "no cxxbridge outputs"; a successful plan has sources and writes into the build directory |
| LegacyBuild.LegacyCompileNode | doracxx/build-cxx-node.py:142-438 | `compile_node` up to running the compiler computes `LegacyPlan` |
| LegacyBuild.LegacyBuildInvocation | doracxx/build-cxx-node.py:312-438 | the command-building tail computes `LegacyAssemble` |
| LegacyBuild.LegacyOutcome | doracxx/build-cxx-node.py:440-453 | success needs a plan, a compiler run and the built executable; the result is the target copy exactly when the copy worked (or both paths coincide), else the build-directory file; a missing executable is reported; `main` exits with 1 exactly when neither the target nor the build-directory executable exists |
| PrepareArrow.LatestArrowReleaseSpec | doracxx/prepare_arrow.py:33-44 | the release is the API's string `tag_name` when it answers with one; it is `apache-arrow-21.0.0` when a network or JSON-decoding error is caught or the field is absent; a `null` tag gives `None`; an error the handler does not catch (an answer that is not a JSON object, a failed read) escapes, and only then is there no result |
| PrepareArrow.DetectGeneratorSpec | doracxx/prepare_arrow.py:84-103 | `Ninja` exactly when ninja is on the `PATH`; otherwise on Windows CMake's default when its help mentions Visual Studio, an error when cmake itself is missing, and `MinGW Makefiles` else; `Unix Makefiles` elsewhere |
| PrepareArrow.BuildType | doracxx/prepare_arrow.py:116 | `Release` exactly for the `release` profile, otherwise `Debug` |
| PrepareArrow.ConfigureArgsSpec | doracxx/prepare_arrow.py:124-186 | the configure line starts with `cmake`, the build type and the install prefix, has the Windows flags right after the feature options on Windows, has `-G` exactly when a generator was detected, and ends with the C++ source directory |
| PrepareArrow.NoGeneratorOption | doracxx/prepare_arrow.py:129-180 | no fixed option is `-G` |
| PrepareArrow.AssembleConfigure | doracxx/prepare_arrow.py:124-186 | the list-building code computes `ConfigureArgs` |
| PrepareArrow.BuildArgsSpec | doracxx/prepare_arrow.py:192-200 | `cmake --build . --config <type>`, with a job count exactly when more than one CPU is known, passed with `-j` for Ninja and `--parallel` otherwise |
| PrepareArrow.AssembleBuild | doracxx/prepare_arrow.py:192-200 | the list-building code computes `BuildArgs` |
| PrepareArrow.ArrowBuildStepsSpec | doracxx/prepare_arrow.py:106-210 | a missing `cpp` directory is the first error, then a failed generator detection; otherwise the three steps run in `cpp/build` with the profile's build type, the install prefix exactly as given and the source directory, and install with `cmake --install` |
| PrepareArrow.ArrowBuildStepsOk | doracxx/prepare_arrow.py:108-208 | the same facts about steps already known to be computed |
| PrepareArrow.BuildArrowCpp | doracxx/prepare_arrow.py:106-210 | `build_arrow_cpp` computes `ArrowBuildSteps` |
| PrepareArrow.MissingHeadersMembers | doracxx/prepare_arrow.py:226-230 | exactly the essential headers that do not exist are reported |
| PrepareArrow.ArrowLibsMembers | doracxx/prepare_arrow.py:233-236 | exactly the library entries whose name contains `arrow` are found |
| PrepareArrow.VerifyInstallationSpec | doracxx/prepare_arrow.py:213-246 | an installation is accepted exactly when `include/arrow` and `lib` exist and `lib` holds an `arrow` library; a missing `include/arrow` is the first error; the result lists exactly those libraries and the missing essential headers |
| PrepareArrow.VerifyArrowInstallation | doracxx/prepare_arrow.py:213-246 | `verify_arrow_installation` computes `VerifyInstallation` |
| PrepareArrow.MissingHeaderPaths | doracxx/prepare_arrow.py:226-230 | the header loop computes the missing essential headers |
| PrepareArrow.FindArrowLibs | doracxx/prepare_arrow.py:233-236 | the glob loop computes the `arrow` libraries |
| PrepareArrow.PrepareSpec | doracxx/prepare_arrow.py:249-330 | a release query that raises ends the script; otherwise an existing, verified installation is reused exactly when no rebuild is forced; a fresh preparation is reported exactly when the checkout went through, the three CMake steps were planned on the checked-out tree and all succeeded, and the result passes the check; the exit status is 1 exactly on failure; local mode checks the installation at `<cwd>/third_party/arrow/install`; without a revision the cache directory is named after the latest release |
| PrepareArrow.CheckoutSpec | doracxx/prepare_arrow.py:47-75 | an existing checkout is kept when a revision is given or `git fetch` fails, since only `CalledProcessError` is caught; a missing `git` raises `FileNotFoundError` at the fetch and ends the script; a fresh clone that fails ends the script; without a revision the latest release is queried again, and a query that raises or a `null` tag (whose checkout raises `TypeError`) ends the script; no other error comes from this step |
| PrepareArrow.InstallPrefix | doracxx/prepare_arrow.py:267-276 | `str(install_dir)` as the configure step receives it: the relative `third_party/arrow/install` in local mode, the absolute cache path otherwise |
| PrepareArrow.StepsInstallPrefix | doracxx/prepare_arrow.py:106-127 | the configure step of a checkout carries `-DCMAKE_INSTALL_PREFIX=` followed by the prefix `main` hands over, and the steps run in the checkout's `cpp/build` |
| PrepareArrow.FreshClonePrepares | doracxx/prepare_arrow.py:307-323 | a fresh clone of a named revision whose checked-out tree has `cpp`, on a host where a generator is found, has its build planned; when the three commands succeed and the installation passes the check, the script reports it prepared |

## Left out

- Process execution: git clone/fetch/checkout, cargo, cmake, make and ninja, `run`, `build_package`, `build_manifest`. The model returns the commands and takes their outcomes as inputs (`Host`, `World.succeeds`, `cloneSucceeds`). Whether a build system succeeds is a given predicate.
- `ensure_dora_prepared` and the Dora fetch/build in both `main` functions: the prepared Dora target directory is an input of `compile_node` (`Request.doraTarget`).
- `ensure_clang_installed` and `load_msvc_env`: downloads, archive extraction and changes to `PATH`. Clang installation is modelled only as the `which` answers after it (`Toolbox.whichAfterInstall`).
- Cleaning old objects from the build directory, and `mkdir` of the target directories: they change no decision.
- `cache_info`, `cache_clean`, `cache_clean_dora`, `cache_clean_arrow`: recursive deletion and sizes in megabytes.
- `create_example_config`: it writes a fixed template file.
- Output: every `print` and warning line, except where a warning list is the result (`validate_config`).
- TOML decoding itself: the model starts from the decoded document. A value of the wrong type is an error (`TypeMismatch`), where Python would store it unchecked and fail later or never.
- The md5 digest of a cache key and Python's per-process `hash` of a local path are uninterpreted functions of `Host`.
- `os.cpu_count()`, the platform facts (`os.name`, `platform.system()`, `platform.machine()`), the home and working directories and the GitHub release query are inputs.
- Paths are POSIX component sequences. Windows drive letters and separators, `resolve()` and symbolic links are not modelled. Each listing comes from one snapshot. `prepare_arrow.py`'s `main` has three: before the checkout, after the clone or update, and after the CMake commands. Dependency resolution sees two: when it starts and once every dependency is resolved. The build scripts' exit status reads a snapshot taken after the compiler has run. The profile is appended to `target` as one component, whatever it holds. Python's `/` would split a profile such as `a/b`, drop an empty one, and restart the path at an absolute one.
- The `--create-symlink` option of `prepare_arrow.py`: it creates a link for backward compatibility and changes nothing the script decides afterwards.
- `git_clone_or_update` beyond its outcome (`PrepareArrow.CheckoutError`): what the clone and checkout write is the `checkedOut` snapshot. Whether `git clone` succeeds is an input. This covers the checkout of the latest release after it, and a missing `git`, which also escapes there. What `git fetch` does is an input with three outcomes: success, a caught failure, or a missing `git`, which escapes. A failing `git checkout` in an existing checkout is only warned about, so it is not an input. The second release query is assumed to give the same answer as the first.
- PrepareArrow.LatestArrowReleaseSpec: a `tag_name` that is JSON but neither a string nor `null` (a number, a list) is not modelled. The script would pass it on as the revision.
- Argument parsing: each `main` starts from the parsed options.
- PrepareArrow.StepsInstallPrefix, PrepareArrow.PrepareSpec: in local mode CMake receives the relative prefix `third_party/arrow/install` and runs in `cpp/build`. Where CMake then installs is CMake's decision and is not modelled. The model only checks `<cwd>/third_party/arrow/install` in the `after` snapshot, as `verify_arrow_installation` does.
- Dependencies.Contribution, Dependencies.DependencyManager.CollectDependencyInfo, Dependencies.DependencyManager.ResolveAllDependencies, BuildNode.SetupDependencies, BuildNode.Plan, BuildNode.CompileNode: these collect system dependencies with the corrected `Dependencies.PkgConfigFlags`. On a host without `pkg-config`, a system dependency with `pkg_config` set resolves and its build goes on in the model. In the code the `FileNotFoundError` escapes `_collect_dependency_info` and `setup_dependencies`, so `compile_node` fails. `Dependencies.PkgConfigFlagsAsWritten` keeps that error.
- Dependencies.SafeChars: the alphanumeric test is ASCII-only (`Strings.IsAlnum`). Python's `str.isalnum` also keeps non-ASCII letters and digits, so a name such as `café` keeps its `é` in the source and loses it in the model.
- `LegacyBuild.LegacyOutcome`: cites the copy step; the exit-status clause it also states comes from the recovery in `main` (doracxx/build-cxx-node.py:681-699).

## Findings

| source | as written | input that shows it | evidently intended | confidence | as-written member | corrected member |
|---|---|---|---|---|---|---|
| doracxx/dependencies.py:352-375 | collecting a system dependency's pkg-config flags catches only `CalledProcessError`, so a missing `pkg-config` program raises `FileNotFoundError`, although resolution (doracxx/dependencies.py:161-171) tolerates it | a Linux host without `pkg-config` and a system dependency `zlib` with package `zlib` and no declared libraries: it resolves, then its collection raises | a missing `pkg-config` contributes no flags, as in resolution | medium, not executed | Dependencies.PkgConfigFlagsAsWritten, Dependencies.PkgConfigMissingAfterResolution | Dependencies.PkgConfigFlags |
