/**
 * The project configuration read from `doracxx.toml`: the decoded TOML
 * document, the closed set of dependency kinds, the mapping from the document
 * to configuration records with their defaults, a warning-collecting
 * validator, and the search for the project root.
 */
module Config {
  import opened Wrappers
  import opened Strings
  import opened Paths

  // ---------------------------------------------------------------------
  // Decoded TOML documents

  /** A decoded TOML value; tables keep their key order and have distinct keys. */
  datatype Value =
    | Str(s: string)
    | Int(i: int)
    | Bool(b: bool)
    | Array(items: seq<Value>)
    | Table(entries: seq<(string, Value)>)
    | Other(nonzero: bool)   // floats and date-times, only their truthiness matters here

  /** Python truthiness of a decoded value. */
  predicate Truthy(v: Value) {
    match v
    case Str(s) => s != []
    case Int(i) => i != 0
    case Bool(b) => b
    case Array(items) => items != []
    case Table(entries) => entries != []
    case Other(nonzero) => nonzero
  }

  type Entries = seq<(string, Value)>

  /** `t.get(key)`: the value of the first entry with that key. */
  function Lookup(t: Entries, key: string): (r: Option<Value>)
    ensures r.None? <==> forall k | 0 <= k < |t| :: t[k].0 != key
    ensures r.Some? ==> exists k | 0 <= k < |t| :: t[k] == (key, r.value)
  {
    if t == [] then None
    else if t[0].0 == key then Some(t[0].1)
    else
      var r := Lookup(t[1..], key);
      assert forall k | 1 <= k < |t| :: t[k] == t[1..][k - 1];
      if r.Some? then
        var k :| 0 <= k < |t| - 1 && t[1..][k] == (key, r.value);
        assert t[k + 1] == (key, r.value);
        r
      else r
  }

  /** Why a configuration could not be loaded. */
  datatype ConfigError =
    | FileNotFound(path: Path)
    | DecodeError(path: Path)
    | MissingNodeName
    | MissingKey(dep: string, key: string)
    | UnknownDependencyType(dep: string)
    | InvalidEnum(key: string)
    | TypeMismatch(key: string)
    | NotATable(key: string)

  /** An optional string field. */
  function GetStr(t: Entries, key: string): (r: Result<Option<string>, ConfigError>)
    ensures r.Err? ==> r.error == TypeMismatch(key)
    ensures Lookup(t, key).None? ==> r == Ok(None)
    ensures r.Ok? && r.value.Some? ==> Lookup(t, key) == Some(Str(r.value.value))
  {
    match Lookup(t, key)
    case None => Ok(None)
    case Some(Str(s)) => Ok(Some(s))
    case Some(_) => Err(TypeMismatch(key))
  }

  /** A string field with a default. */
  function GetStrOr(t: Entries, key: string, default: string): (r: Result<string, ConfigError>)
    ensures r.Err? ==> r.error == TypeMismatch(key)
    ensures Lookup(t, key).None? ==> r == Ok(default)
    ensures r.Ok? && Lookup(t, key).Some? ==> Lookup(t, key) == Some(Str(r.value))
  {
    match Lookup(t, key)
    case None => Ok(default)
    case Some(Str(s)) => Ok(s)
    case Some(_) => Err(TypeMismatch(key))
  }

  /** A required string field: `t[key]`. */
  function GetRequired(dep: string, t: Entries, key: string): (r: Result<string, ConfigError>)
    ensures Lookup(t, key).None? <==> r == Err(MissingKey(dep, key))
    ensures r.Ok? ==> Lookup(t, key) == Some(Str(r.value))
    ensures r.Err? ==> r.error == MissingKey(dep, key) || r.error == TypeMismatch(key)
  {
    match Lookup(t, key)
    case None => Err(MissingKey(dep, key))
    case Some(Str(s)) => Ok(s)
    case Some(_) => Err(TypeMismatch(key))
  }

  function GetBoolOr(t: Entries, key: string, default: bool): (r: Result<bool, ConfigError>)
    ensures r.Err? ==> r.error == TypeMismatch(key)
    ensures Lookup(t, key).None? ==> r == Ok(default)
    ensures r.Ok? && Lookup(t, key).Some? ==> Lookup(t, key) == Some(Bool(r.value))
  {
    match Lookup(t, key)
    case None => Ok(default)
    case Some(Bool(b)) => Ok(b)
    case Some(_) => Err(TypeMismatch(key))
  }

  function GetIntOpt(t: Entries, key: string): (r: Result<Option<int>, ConfigError>)
    ensures r.Err? ==> r.error == TypeMismatch(key)
    ensures Lookup(t, key).None? ==> r == Ok(None)
    ensures r.Ok? && r.value.Some? ==> Lookup(t, key) == Some(Int(r.value.value))
  {
    match Lookup(t, key)
    case None => Ok(None)
    case Some(Int(i)) => Ok(Some(i))
    case Some(_) => Err(TypeMismatch(key))
  }

  /** The strings of an array, when every item is one. */
  function StringItems(items: seq<Value>): (r: Option<seq<string>>)
    ensures r.Some? <==> forall k | 0 <= k < |items| :: items[k].Str?
    ensures r.Some? ==> |r.value| == |items| && forall k | 0 <= k < |items| :: items[k] == Str(r.value[k])
  {
    if items == [] then Some([])
    else match (items[0], StringItems(items[1..]))
      case (Str(s), Some(rest)) => Some([s] + rest)
      case _ => None
  }

  /** A list-of-strings field; absent means empty; anything but an array of strings is a type error. */
  function GetList(t: Entries, key: string): (r: Result<seq<string>, ConfigError>)
    ensures r.Err? ==> r.error == TypeMismatch(key)
    ensures Lookup(t, key).None? ==> r == Ok([])
    ensures r.Err? <==>
              Lookup(t, key).Some? &&
              !(Lookup(t, key).value.Array? && forall k | 0 <= k < |Lookup(t, key).value.items| :: Lookup(t, key).value.items[k].Str?)
    ensures r.Ok? && Lookup(t, key).Some? ==>
              Lookup(t, key).value.Array? && |Lookup(t, key).value.items| == |r.value| &&
              forall k | 0 <= k < |r.value| :: Lookup(t, key).value.items[k] == Str(r.value[k])
  {
    match Lookup(t, key)
    case None => Ok([])
    case Some(Array(items)) =>
      (match StringItems(items)
       case Some(ss) => Ok(ss)
       case None => Err(TypeMismatch(key)))
    case Some(_) => Err(TypeMismatch(key))
  }

  /** A table field; absent means empty. */
  function GetTable(t: Entries, key: string): (r: Result<Entries, ConfigError>)
    ensures r.Err? ==> r.error == TypeMismatch(key)
    ensures Lookup(t, key).None? ==> r == Ok([])
    ensures r.Ok? && Lookup(t, key).Some? ==> Lookup(t, key) == Some(Table(r.value))
    ensures r.Err? <==> Lookup(t, key).Some? && !Lookup(t, key).value.Table?
  {
    match Lookup(t, key)
    case None => Ok([])
    case Some(Table(e)) => Ok(e)
    case Some(_) => Err(TypeMismatch(key))
  }

  // ---------------------------------------------------------------------
  // Enumerations

  datatype NodeType = NodeKind | Processor
  datatype Toolchain = Gcc | Clang | Msvc | Auto
  datatype BuildSystem = Native | CMake | Make | Ninja
  datatype DependencyType = GitType | VcpkgType | CMakeType | SystemType | LocalType

  function NodeTypeValue(t: NodeType): string {
    match t
    case NodeKind => "node"
    case Processor => "processor"
  }

  function ToolchainValue(t: Toolchain): string {
    match t
    case Gcc => "gcc"
    case Clang => "clang"
    case Msvc => "msvc"
    case Auto => "auto"
  }

  function BuildSystemValue(b: BuildSystem): string {
    match b
    case Native => "native"
    case CMake => "cmake"
    case Make => "make"
    case Ninja => "ninja"
  }

  function DependencyTypeValue(d: DependencyType): string {
    match d
    case GitType => "git"
    case VcpkgType => "vcpkg"
    case CMakeType => "cmake"
    case SystemType => "system"
    case LocalType => "local"
  }

  /** `NodeType(v)`: the member whose value is `v`. */
  function ParseNodeType(v: Value): (r: Option<NodeType>)
    ensures r.None? ==> forall t: NodeType :: v != Str(NodeTypeValue(t))
    ensures r.Some? ==> v == Str(NodeTypeValue(r.value))
  {
    if v == Str("node") then Some(NodeKind)
    else if v == Str("processor") then Some(Processor)
    else None
  }

  /** `Toolchain(v)`. */
  function ParseToolchain(v: Value): (r: Option<Toolchain>)
    ensures r.None? ==> forall t: Toolchain :: v != Str(ToolchainValue(t))
    ensures r.Some? ==> v == Str(ToolchainValue(r.value))
  {
    if v == Str("gcc") then Some(Gcc)
    else if v == Str("clang") then Some(Clang)
    else if v == Str("msvc") then Some(Msvc)
    else if v == Str("auto") then Some(Auto)
    else None
  }

  /** `BuildSystem(v)`. */
  function ParseBuildSystem(v: Value): (r: Option<BuildSystem>)
    ensures r.None? ==> forall b: BuildSystem :: v != Str(BuildSystemValue(b))
    ensures r.Some? ==> v == Str(BuildSystemValue(r.value))
  {
    if v == Str("native") then Some(Native)
    else if v == Str("cmake") then Some(CMake)
    else if v == Str("make") then Some(Make)
    else if v == Str("ninja") then Some(Ninja)
    else None
  }

  /** An enumeration field with a default value, as `Enum(t.get(key, default))`. */
  function GetEnum<E>(t: Entries, key: string, default: E, parse: Value -> Option<E>): (r: Result<E, ConfigError>)
    ensures Lookup(t, key).None? ==> r == Ok(default)
    ensures Lookup(t, key).Some? ==> (r.Ok? <==> parse(Lookup(t, key).value).Some?)
    ensures Lookup(t, key).Some? && r.Ok? ==> parse(Lookup(t, key).value) == Some(r.value)
    ensures r.Err? ==> r.error == InvalidEnum(key)
  {
    match Lookup(t, key)
    case None => Ok(default)
    case Some(v) =>
      (match parse(v)
       case Some(e) => Ok(e)
       case None => Err(InvalidEnum(key)))
  }

  // ---------------------------------------------------------------------
  // Dependencies

  /** The four dependency kinds and their fields. */
  datatype Dependency =
    | Git(url: string, rev: Option<string>, branch: Option<string>, tag: Option<string>, subdir: Option<string>,
          buildSystem: Option<BuildSystem>, cmakeOptions: Entries,
          includeDirs: seq<string>, libDirs: seq<string>, libraries: seq<string>)
    | Vcpkg(name: string, version: Option<string>, features: seq<string>, triplet: Option<string>)
    | System(name: string, pkgConfig: Option<string>,
             includeDirs: seq<string>, libDirs: seq<string>, libraries: seq<string>)
    | Local(path: string, buildSystem: Option<BuildSystem>, cmakeOptions: Entries,
            includeDirs: seq<string>, libDirs: seq<string>, libraries: seq<string>)

  /** The `type` key of a dependency table: `"git"` when absent, None when not a string. */
  function DeclaredType(cfg: Entries): Option<string> {
    match Lookup(cfg, "type")
    case None => Some("git")
    case Some(Str(s)) => Some(s)
    case Some(_) => None
  }

  /** The `type` value that selects each kind. */
  function KindName(d: Dependency): string {
    match d
    case Git(_, _, _, _, _, _, _, _, _, _) => "git"
    case Vcpkg(_, _, _, _) => "vcpkg"
    case System(_, _, _, _, _) => "system"
    case Local(_, _, _, _, _, _) => "local"
  }

  /** `build_system`: only a present, truthy value is converted. */
  function GetBuildSystem(cfg: Entries): (r: Result<Option<BuildSystem>, ConfigError>)
    ensures r.Err? ==> r.error == InvalidEnum("build_system")
    ensures r.Ok? ==> (r.value.Some? <==> Lookup(cfg, "build_system").Some? && Truthy(Lookup(cfg, "build_system").value))
  {
    match Lookup(cfg, "build_system")
    case Some(v) =>
      if Truthy(v) then
        (match ParseBuildSystem(v)
         case Some(b) => Ok(Some(b))
         case None => Err(InvalidEnum("build_system")))
      else Ok(None)
    case None => Ok(None)
  }

  /** `parse_dependency`. */
  function ParseDependency(name: string, cfg: Entries): (r: Result<Dependency, ConfigError>)
    ensures DeclaredType(cfg) !in {Some("git"), Some("vcpkg"), Some("system"), Some("local")} ==>
              r == Err(UnknownDependencyType(name))
    ensures r.Ok? ==> DeclaredType(cfg) == Some(KindName(r.value))
    ensures r.Err? && r.error.MissingKey? ==>
              DeclaredType(cfg).Some? && r.error == MissingKey(name, RequiredKey(DeclaredType(cfg).value)) &&
              Lookup(cfg, RequiredKey(DeclaredType(cfg).value)).None?
    ensures r.Err? ==> r.error.MissingKey? || r.error.UnknownDependencyType? || r.error.InvalidEnum? || r.error.TypeMismatch?
  {
    var t := DeclaredType(cfg);
    if t == Some("git") then ParseGit(name, cfg)
    else if t == Some("vcpkg") then ParseVcpkg(name, cfg)
    else if t == Some("system") then ParseSystem(name, cfg)
    else if t == Some("local") then ParseLocal(name, cfg)
    else Err(UnknownDependencyType(name))
  }

  /** The errors a field reader can raise while one kind is parsed. */
  predicate FieldError(name: string, cfg: Entries, key: string, e: ConfigError) {
    (e.MissingKey? ==> e == MissingKey(name, key) && Lookup(cfg, key).None?) &&
    (e.MissingKey? || e.InvalidEnum? || e.TypeMismatch?)
  }

  function ParseGit(name: string, cfg: Entries): (r: Result<Dependency, ConfigError>)
    ensures r.Ok? ==> r.value.Git?
    ensures r.Err? ==> FieldError(name, cfg, "url", r.error)
  {
    var url :- GetRequired(name, cfg, "url");
    var rev :- GetStr(cfg, "rev");
    var branch :- GetStr(cfg, "branch");
    var tag :- GetStr(cfg, "tag");
    var subdir :- GetStr(cfg, "subdir");
    var bs :- GetBuildSystem(cfg);
    var opts :- GetTable(cfg, "cmake_options");
    var inc :- GetList(cfg, "include_dirs");
    var lib :- GetList(cfg, "lib_dirs");
    var libs :- GetList(cfg, "libraries");
    Ok(Git(url, rev, branch, tag, subdir, bs, opts, inc, lib, libs))
  }

  function ParseVcpkg(name: string, cfg: Entries): (r: Result<Dependency, ConfigError>)
    ensures r.Ok? ==> r.value.Vcpkg?
    ensures r.Err? ==> FieldError(name, cfg, "name", r.error)
  {
    var n :- GetRequired(name, cfg, "name");
    var version :- GetStr(cfg, "version");
    var features :- GetList(cfg, "features");
    var triplet :- GetStr(cfg, "triplet");
    Ok(Vcpkg(n, version, features, triplet))
  }

  function ParseSystem(name: string, cfg: Entries): (r: Result<Dependency, ConfigError>)
    ensures r.Ok? ==> r.value.System?
    ensures r.Err? ==> FieldError(name, cfg, "name", r.error)
  {
    var n :- GetRequired(name, cfg, "name");
    var pc :- GetStr(cfg, "pkg_config");
    var inc :- GetList(cfg, "include_dirs");
    var lib :- GetList(cfg, "lib_dirs");
    var libs :- GetList(cfg, "libraries");
    Ok(System(n, pc, inc, lib, libs))
  }

  function ParseLocal(name: string, cfg: Entries): (r: Result<Dependency, ConfigError>)
    ensures r.Ok? ==> r.value.Local?
    ensures r.Err? ==> FieldError(name, cfg, "path", r.error)
  {
    var path :- GetRequired(name, cfg, "path");
    var bs :- GetBuildSystem(cfg);
    var opts :- GetTable(cfg, "cmake_options");
    var inc :- GetList(cfg, "include_dirs");
    var lib :- GetList(cfg, "lib_dirs");
    var libs :- GetList(cfg, "libraries");
    Ok(Local(path, bs, opts, inc, lib, libs))
  }

  /** The key each kind requires, read before any other. */
  function RequiredKey(kind: string): string {
    if kind == "git" then "url" else if kind == "local" then "path" else "name"
  }

  /** A missing required key is the error reported, whatever else the table holds. */
  lemma MissingRequiredKey(name: string, cfg: Entries)
    requires DeclaredType(cfg) in {Some("git"), Some("vcpkg"), Some("system"), Some("local")}
    ensures var key := RequiredKey(DeclaredType(cfg).value);
            Lookup(cfg, key).None? <==> ParseDependency(name, cfg) == Err(MissingKey(name, key))
  {
  }

  /** A table without `type` is a git dependency; `cmake`, though an enumeration member, is rejected. */
  lemma DependencyTypeDefaults(name: string, cfg: Entries)
    ensures Lookup(cfg, "type").None? && ParseDependency(name, cfg).Ok? ==> ParseDependency(name, cfg).value.Git?
    ensures Lookup(cfg, "type") == Some(Str(DependencyTypeValue(CMakeType))) ==>
              ParseDependency(name, cfg) == Err(UnknownDependencyType(name))
  {
  }

  /** Absent fields of a git dependency become empty lists and None. */
  lemma GitFieldsDefault(name: string, cfg: Entries)
    requires DeclaredType(cfg) == Some("git") && ParseDependency(name, cfg).Ok?
    ensures var d := ParseDependency(name, cfg).value;
            (Lookup(cfg, "rev").None? ==> d.rev == None) &&
            (Lookup(cfg, "branch").None? ==> d.branch == None) &&
            (Lookup(cfg, "tag").None? ==> d.tag == None) &&
            (Lookup(cfg, "subdir").None? ==> d.subdir == None) &&
            (Lookup(cfg, "cmake_options").None? ==> d.cmakeOptions == []) &&
            (Lookup(cfg, "include_dirs").None? ==> d.includeDirs == []) &&
            (Lookup(cfg, "lib_dirs").None? ==> d.libDirs == []) &&
            (Lookup(cfg, "libraries").None? ==> d.libraries == [])
    ensures var d := ParseDependency(name, cfg).value;
            d.buildSystem.Some? <==> Lookup(cfg, "build_system").Some? && Truthy(Lookup(cfg, "build_system").value)
  {
    GitParsed(name, cfg);
  }

  /** A parsed git dependency holds what each field's reader returned. */
  lemma GitParsed(name: string, cfg: Entries)
    requires DeclaredType(cfg) == Some("git") && ParseDependency(name, cfg).Ok?
    ensures GetRequired(name, cfg, "url").Ok? && ParseDependency(name, cfg).value.url == GetRequired(name, cfg, "url").value
    ensures GetStr(cfg, "rev").Ok? && GetStr(cfg, "branch").Ok? && GetStr(cfg, "tag").Ok? && GetStr(cfg, "subdir").Ok?
    ensures GetBuildSystem(cfg).Ok? && GetTable(cfg, "cmake_options").Ok?
    ensures GetList(cfg, "include_dirs").Ok? && GetList(cfg, "lib_dirs").Ok? && GetList(cfg, "libraries").Ok?
    ensures var d := ParseDependency(name, cfg).value;
            d.rev == GetStr(cfg, "rev").value && d.branch == GetStr(cfg, "branch").value &&
            d.tag == GetStr(cfg, "tag").value && d.subdir == GetStr(cfg, "subdir").value &&
            d.buildSystem == GetBuildSystem(cfg).value && d.cmakeOptions == GetTable(cfg, "cmake_options").value &&
            d.includeDirs == GetList(cfg, "include_dirs").value && d.libDirs == GetList(cfg, "lib_dirs").value &&
            d.libraries == GetList(cfg, "libraries").value
  {
  }

  /** Absent fields of a vcpkg dependency become empty lists and None. */
  lemma VcpkgFieldsDefault(name: string, cfg: Entries)
    requires DeclaredType(cfg) == Some("vcpkg") && ParseDependency(name, cfg).Ok?
    ensures var d := ParseDependency(name, cfg).value;
            (Lookup(cfg, "version").None? ==> d.version == None) &&
            (Lookup(cfg, "features").None? ==> d.features == []) &&
            (Lookup(cfg, "triplet").None? ==> d.triplet == None)
  {
  }

  /** A parsed vcpkg dependency holds what each field's reader returned. */
  lemma VcpkgParsed(name: string, cfg: Entries)
    requires DeclaredType(cfg) == Some("vcpkg") && ParseDependency(name, cfg).Ok?
    ensures GetRequired(name, cfg, "name").Ok? && GetStr(cfg, "version").Ok? &&
            GetList(cfg, "features").Ok? && GetStr(cfg, "triplet").Ok?
    ensures var d := ParseDependency(name, cfg).value;
            d.name == GetRequired(name, cfg, "name").value && d.version == GetStr(cfg, "version").value &&
            d.features == GetList(cfg, "features").value && d.triplet == GetStr(cfg, "triplet").value
  {
  }

  /** A parsed system dependency holds what each field's reader returned. */
  lemma SystemParsed(name: string, cfg: Entries)
    requires DeclaredType(cfg) == Some("system") && ParseDependency(name, cfg).Ok?
    ensures GetRequired(name, cfg, "name").Ok? && GetStr(cfg, "pkg_config").Ok?
    ensures GetList(cfg, "include_dirs").Ok? && GetList(cfg, "lib_dirs").Ok? && GetList(cfg, "libraries").Ok?
    ensures var d := ParseDependency(name, cfg).value;
            d.name == GetRequired(name, cfg, "name").value && d.pkgConfig == GetStr(cfg, "pkg_config").value &&
            d.includeDirs == GetList(cfg, "include_dirs").value && d.libDirs == GetList(cfg, "lib_dirs").value &&
            d.libraries == GetList(cfg, "libraries").value
  {
  }

  /** Absent fields of a system dependency become empty lists and None. */
  lemma SystemFieldsDefault(name: string, cfg: Entries)
    requires DeclaredType(cfg) == Some("system") && ParseDependency(name, cfg).Ok?
    ensures var d := ParseDependency(name, cfg).value;
            (Lookup(cfg, "pkg_config").None? ==> d.pkgConfig == None) &&
            (Lookup(cfg, "include_dirs").None? ==> d.includeDirs == []) &&
            (Lookup(cfg, "lib_dirs").None? ==> d.libDirs == []) &&
            (Lookup(cfg, "libraries").None? ==> d.libraries == [])
  {
  }

  /** Absent fields of a local dependency become empty lists and None. */
  lemma LocalFieldsDefault(name: string, cfg: Entries)
    requires DeclaredType(cfg) == Some("local") && ParseDependency(name, cfg).Ok?
    ensures var d := ParseDependency(name, cfg).value;
            (Lookup(cfg, "cmake_options").None? ==> d.cmakeOptions == []) &&
            (Lookup(cfg, "include_dirs").None? ==> d.includeDirs == []) &&
            (Lookup(cfg, "lib_dirs").None? ==> d.libDirs == []) &&
            (Lookup(cfg, "libraries").None? ==> d.libraries == [])
    ensures var d := ParseDependency(name, cfg).value;
            d.buildSystem.Some? <==> Lookup(cfg, "build_system").Some? && Truthy(Lookup(cfg, "build_system").value)
  {
    LocalParsed(name, cfg);
  }

  /** A parsed local dependency holds what each field's reader returned. */
  lemma LocalParsed(name: string, cfg: Entries)
    requires DeclaredType(cfg) == Some("local") && ParseDependency(name, cfg).Ok?
    ensures GetRequired(name, cfg, "path").Ok? && ParseDependency(name, cfg).value.path == GetRequired(name, cfg, "path").value
    ensures GetBuildSystem(cfg).Ok? && GetTable(cfg, "cmake_options").Ok?
    ensures GetList(cfg, "include_dirs").Ok? && GetList(cfg, "lib_dirs").Ok? && GetList(cfg, "libraries").Ok?
    ensures var d := ParseDependency(name, cfg).value;
            d.buildSystem == GetBuildSystem(cfg).value && d.cmakeOptions == GetTable(cfg, "cmake_options").value &&
            d.includeDirs == GetList(cfg, "include_dirs").value && d.libDirs == GetList(cfg, "lib_dirs").value &&
            d.libraries == GetList(cfg, "libraries").value
  {
  }

  // ---------------------------------------------------------------------
  // Configuration records

  datatype NodeConfig = NodeConfig(
    name: string, nodeType: NodeType, doraVersion: Option<string>, doraGit: Option<string>,
    doraRev: Option<string>, description: Option<string>, version: string)

  datatype ArrowConfig = ArrowConfig(git: Option<string>, rev: Option<string>, enabled: bool)

  datatype BuildConfig = BuildConfig(
    toolchain: Toolchain, system: BuildSystem, profile: string, std: string,
    optimization: Option<string>, debugInfo: bool, warningsAsErrors: bool,
    suppressWarnings: bool, autoSuppressVerboseDeps: bool, warningFilterPatterns: seq<string>,
    buildTimeout: int, sources: Option<seq<string>>, excludeSources: Option<seq<string>>,
    cflags: seq<string>, cxxflags: seq<string>, ldflags: seq<string>,
    includeDirs: seq<string>, libDirs: seq<string>, libraries: seq<string>,
    cmakeOptions: Entries, cmakeBuildType: Option<string>, parallelJobs: Option<int>, installClang: bool)

  /** The whole configuration; dependencies keep the document's order. */
  datatype DoracxxConfig = DoracxxConfig(
    node: NodeConfig, build: BuildConfig, arrow: Option<ArrowConfig>, dependencies: seq<(string, Dependency)>)

  /** A section of the document: absent means an empty table. */
  function Section(data: Entries, key: string): (r: Result<Entries, ConfigError>)
    ensures Lookup(data, key).None? ==> r == Ok([])
    ensures r.Err? ==> r.error == NotATable(key)
    ensures r.Err? <==> Lookup(data, key).Some? && !Lookup(data, key).value.Table?
    ensures r.Ok? && Lookup(data, key).Some? ==> Lookup(data, key) == Some(Table(r.value))
  {
    match Lookup(data, key)
    case None => Ok([])
    case Some(Table(e)) => Ok(e)
    case Some(_) => Err(NotATable(key))
  }

  /** The `[node]` section. */
  function ParseNode(data: Entries): (r: Result<NodeConfig, ConfigError>)
    ensures Section(data, "node").Ok? ==> (Lookup(Section(data, "node").value, "name").None? <==> r == Err(MissingNodeName))
    ensures r.Ok? ==> Section(data, "node").Ok? && Lookup(Section(data, "node").value, "name") == Some(Str(r.value.name))
    ensures r.Err? ==> r.error.MissingNodeName? || r.error.InvalidEnum? || r.error.TypeMismatch? || r.error.NotATable?
  {
    var nd :- Section(data, "node");
    if Lookup(nd, "name").None? then Err(MissingNodeName)
    else
      var name :- GetRequired("node", nd, "name");
      var nodeType :- GetEnum(nd, "type", NodeKind, ParseNodeType);
      var doraVersion :- GetStr(nd, "dora_version");
      var doraGit :- GetStr(nd, "dora_git");
      var doraRev :- GetStr(nd, "dora_rev");
      var description :- GetStr(nd, "description");
      var version :- GetStrOr(nd, "version", "0.1.0");
      Ok(NodeConfig(name, nodeType, doraVersion, doraGit, doraRev, description, version))
  }

  /** A parsed `[node]` section holds what each field's reader returned. */
  lemma NodeParsed(data: Entries)
    requires ParseNode(data).Ok?
    ensures Section(data, "node").Ok?
    ensures var nd := Section(data, "node").value;
            GetRequired("node", nd, "name").Ok? && GetEnum(nd, "type", NodeKind, ParseNodeType).Ok? &&
            GetStr(nd, "dora_version").Ok? && GetStr(nd, "dora_git").Ok? && GetStr(nd, "dora_rev").Ok? &&
            GetStr(nd, "description").Ok? && GetStrOr(nd, "version", "0.1.0").Ok?
    ensures var nd := Section(data, "node").value;
            var n := ParseNode(data).value;
            n.name == GetRequired("node", nd, "name").value &&
            n.nodeType == GetEnum(nd, "type", NodeKind, ParseNodeType).value &&
            n.doraVersion == GetStr(nd, "dora_version").value && n.doraGit == GetStr(nd, "dora_git").value &&
            n.doraRev == GetStr(nd, "dora_rev").value && n.description == GetStr(nd, "description").value &&
            n.version == GetStrOr(nd, "version", "0.1.0").value
  {
  }

  /** The fields of `[build]` the loader never reads, at their defaults. */
  predicate UnreadDefaults(b: BuildConfig) {
    b.sources == None && b.excludeSources == None && b.buildTimeout == 300 &&
    !b.suppressWarnings && b.autoSuppressVerboseDeps && b.warningFilterPatterns == []
  }

  /**
   * The enumerations and scalar settings of `[build]`, read in the
   * loader's order; the other fields take their defaults here.
   */
  function BuildSettings(bd: Entries): (r: Result<BuildConfig, ConfigError>)
    ensures r.Ok? ==> UnreadDefaults(r.value)
    ensures r.Err? ==> r.error.InvalidEnum? || r.error.TypeMismatch?
  {
    var toolchain :- GetEnum(bd, "toolchain", Auto, ParseToolchain);
    var system :- GetEnum(bd, "system", Native, ParseBuildSystem);
    var profile :- GetStrOr(bd, "profile", "debug");
    var std :- GetStrOr(bd, "std", "c++17");
    var optimization :- GetStr(bd, "optimization");
    var debugInfo :- GetBoolOr(bd, "debug_info", true);
    var warningsAsErrors :- GetBoolOr(bd, "warnings_as_errors", false);
    Ok(BuildConfig(toolchain, system, profile, std, optimization, debugInfo, warningsAsErrors,
                   false, true, [], 300, None, None,
                   [], [], [], [], [], [], [], None, None, false))
  }

  /** The flag, directory and library lists and the CMake options of `[build]`, read next. */
  function WithBuildLists(bd: Entries, b: BuildConfig): (r: Result<BuildConfig, ConfigError>)
    ensures r.Ok? ==> r.value == b.(cflags := r.value.cflags, cxxflags := r.value.cxxflags, ldflags := r.value.ldflags,
                                     includeDirs := r.value.includeDirs, libDirs := r.value.libDirs,
                                     libraries := r.value.libraries, cmakeOptions := r.value.cmakeOptions)
    ensures UnreadDefaults(b) && r.Ok? ==> UnreadDefaults(r.value)
    ensures r.Err? ==> r.error.TypeMismatch?
  {
    var cflags :- GetList(bd, "cflags");
    var cxxflags :- GetList(bd, "cxxflags");
    var ldflags :- GetList(bd, "ldflags");
    var inc :- GetList(bd, "include_dirs");
    var lib :- GetList(bd, "lib_dirs");
    var libs :- GetList(bd, "libraries");
    var opts :- GetTable(bd, "cmake_options");
    Ok(b.(cflags := cflags, cxxflags := cxxflags, ldflags := ldflags,
          includeDirs := inc, libDirs := lib, libraries := libs, cmakeOptions := opts))
  }

  /** The last three keys of `[build]`. */
  function WithBuildTail(bd: Entries, b: BuildConfig): (r: Result<BuildConfig, ConfigError>)
    ensures r.Ok? ==> r.value == b.(cmakeBuildType := r.value.cmakeBuildType, parallelJobs := r.value.parallelJobs,
                                     installClang := r.value.installClang)
    ensures UnreadDefaults(b) && r.Ok? ==> UnreadDefaults(r.value)
    ensures r.Err? ==> r.error.TypeMismatch?
  {
    var cmakeBuildType :- GetStr(bd, "cmake_build_type");
    var parallelJobs :- GetIntOpt(bd, "parallel_jobs");
    var installClang :- GetBoolOr(bd, "install_clang", false);
    Ok(b.(cmakeBuildType := cmakeBuildType, parallelJobs := parallelJobs, installClang := installClang))
  }

  /** The `[build]` section; several fields are never read and keep their defaults. */
  function ParseBuild(data: Entries): (r: Result<BuildConfig, ConfigError>)
    ensures r.Ok? ==> r.value.sources == None && r.value.excludeSources == None && r.value.buildTimeout == 300
    ensures r.Ok? ==> !r.value.suppressWarnings && r.value.autoSuppressVerboseDeps && r.value.warningFilterPatterns == []
    ensures r.Err? ==> r.error.InvalidEnum? || r.error.TypeMismatch? || r.error.NotATable?
  {
    var bd :- Section(data, "build");
    var settings :- BuildSettings(bd);
    var lists :- WithBuildLists(bd, settings);
    WithBuildTail(bd, lists)
  }

  /** A `[build]` section that sets nothing gives the documented defaults. */
  lemma BuildDefaults(data: Entries)
    requires Section(data, "build") == Ok([])
    ensures ParseBuild(data).Ok?
    ensures var b := ParseBuild(data).value;
            b.toolchain == Auto && b.system == Native && b.profile == "debug" && b.std == "c++17" &&
            b.debugInfo && !b.warningsAsErrors && !b.installClang && b.parallelJobs == None &&
            b.cflags == [] && b.cxxflags == [] && b.ldflags == [] &&
            b.includeDirs == [] && b.libDirs == [] && b.libraries == []
  {
  }

  /** A parsed `[build]` section holds what each field's reader returned. */
  lemma BuildParsed(data: Entries)
    requires ParseBuild(data).Ok?
    ensures Section(data, "build").Ok?
    ensures var bd := Section(data, "build").value;
            GetEnum(bd, "toolchain", Auto, ParseToolchain).Ok? && GetEnum(bd, "system", Native, ParseBuildSystem).Ok? &&
            GetStrOr(bd, "profile", "debug").Ok? && GetStrOr(bd, "std", "c++17").Ok? && GetStr(bd, "optimization").Ok? &&
            GetBoolOr(bd, "debug_info", true).Ok? && GetBoolOr(bd, "warnings_as_errors", false).Ok? &&
            GetStr(bd, "cmake_build_type").Ok? && GetIntOpt(bd, "parallel_jobs").Ok? &&
            GetBoolOr(bd, "install_clang", false).Ok?
    ensures var bd := Section(data, "build").value;
            var b := ParseBuild(data).value;
            b.toolchain == GetEnum(bd, "toolchain", Auto, ParseToolchain).value &&
            b.system == GetEnum(bd, "system", Native, ParseBuildSystem).value &&
            b.profile == GetStrOr(bd, "profile", "debug").value && b.std == GetStrOr(bd, "std", "c++17").value &&
            b.optimization == GetStr(bd, "optimization").value &&
            b.debugInfo == GetBoolOr(bd, "debug_info", true).value &&
            b.warningsAsErrors == GetBoolOr(bd, "warnings_as_errors", false).value &&
            b.cmakeBuildType == GetStr(bd, "cmake_build_type").value &&
            b.parallelJobs == GetIntOpt(bd, "parallel_jobs").value &&
            b.installClang == GetBoolOr(bd, "install_clang", false).value
  {
  }

  /** The flag, directory and library lists and the CMake options of a parsed `[build]` section hold what their keys hold. */
  lemma BuildListsParsed(data: Entries)
    requires ParseBuild(data).Ok?
    ensures Section(data, "build").Ok?
    ensures var bd := Section(data, "build").value;
            GetList(bd, "cflags").Ok? && GetList(bd, "cxxflags").Ok? && GetList(bd, "ldflags").Ok? &&
            GetList(bd, "include_dirs").Ok? && GetList(bd, "lib_dirs").Ok? && GetList(bd, "libraries").Ok? &&
            GetTable(bd, "cmake_options").Ok?
    ensures var bd := Section(data, "build").value;
            var b := ParseBuild(data).value;
            b.cflags == GetList(bd, "cflags").value && b.cxxflags == GetList(bd, "cxxflags").value &&
            b.ldflags == GetList(bd, "ldflags").value && b.includeDirs == GetList(bd, "include_dirs").value &&
            b.libDirs == GetList(bd, "lib_dirs").value && b.libraries == GetList(bd, "libraries").value &&
            b.cmakeOptions == GetTable(bd, "cmake_options").value
  {
  }

  /** The `[arrow]` section: no Arrow configuration when it is absent or falsy. */
  function ParseArrow(data: Entries): (r: Result<Option<ArrowConfig>, ConfigError>)
    ensures (Lookup(data, "arrow").None? || !Truthy(Lookup(data, "arrow").value)) <==> r == Ok(None)
    ensures r.Err? ==> r.error.TypeMismatch? || r.error.NotATable?
  {
    match Lookup(data, "arrow")
    case None => Ok(None)
    case Some(v) =>
      if !Truthy(v) then Ok(None)
      else if !v.Table? then Err(NotATable("arrow"))
      else
        var git :- GetStr(v.entries, "git");
        var rev :- GetStr(v.entries, "rev");
        var enabled :- GetBoolOr(v.entries, "enabled", true);
        Ok(Some(ArrowConfig(git, rev, enabled)))
  }

  /** Parsing one dependency entry; an entry that is not a table is rejected. */
  function ParseEntry(e: (string, Value)): (r: Result<Dependency, ConfigError>)
    ensures r.Err? ==> !r.error.MissingNodeName? && !r.error.FileNotFound? && !r.error.DecodeError?
  {
    if e.1.Table? then ParseDependency(e.0, e.1.entries) else Err(NotATable(e.0))
  }

  /** The dependency tables in document order, parsed one after the other; the first failure wins. */
  function ParseDependencies(entries: Entries): (r: Result<seq<(string, Dependency)>, ConfigError>)
    ensures r.Err? ==> !r.error.MissingNodeName? && !r.error.FileNotFound? && !r.error.DecodeError?
  {
    if entries == [] then Ok([])
    else
      var d :- ParseEntry(entries[0]);
      var rest :- ParseDependencies(entries[1..]);
      Ok([(entries[0].0, d)] + rest)
  }

  /** Success keeps every name, in order, with its parsed value; a failure is the first entry's failure. */
  lemma {:induction false} ParseDependenciesSpec(entries: Entries)
    ensures var r := ParseDependencies(entries);
            r.Ok? <==> forall k | 0 <= k < |entries| :: ParseEntry(entries[k]).Ok?
    ensures var r := ParseDependencies(entries);
            r.Ok? ==> |r.value| == |entries| &&
                      forall k | 0 <= k < |entries| :: r.value[k] == (entries[k].0, ParseEntry(entries[k]).value)
    ensures var r := ParseDependencies(entries);
            r.Err? ==> exists k | 0 <= k < |entries| ::
                         ParseEntry(entries[k]) == Err(r.error) && forall j | 0 <= j < k :: ParseEntry(entries[j]).Ok?
  {
    if entries != [] {
      ParseDependenciesSpec(entries[1..]);
      assert forall k | 1 <= k < |entries| :: entries[k] == entries[1..][k - 1];
      var r := ParseDependencies(entries);
      if ParseEntry(entries[0]).Ok? && r.Err? {
        var rest := ParseDependencies(entries[1..]);
        var k :| 0 <= k < |entries| - 1 && ParseEntry(entries[1..][k]) == Err(rest.error)
                 && forall j | 0 <= j < k :: ParseEntry(entries[1..][j]).Ok?;
        assert ParseEntry(entries[k + 1]) == Err(r.error);
      }
    }
  }

  /**
   * The dependency loop of `load_config`: each entry is parsed in turn and
   * appended; the first failure is raised.
   */
  method LoadDependencies(entries: Entries) returns (r: Result<seq<(string, Dependency)>, ConfigError>)
    ensures r == ParseDependencies(entries)
  {
    var deps: seq<(string, Dependency)> := [];
    var i := 0;
    assert entries[i..] == entries;
    assert ParseDependencies(entries).Ok? ==> [] + ParseDependencies(entries).value == ParseDependencies(entries).value;
    while i < |entries|
      invariant 0 <= i <= |entries|
      invariant ParseDependencies(entries) == Prepend(deps, ParseDependencies(entries[i..]))
    {
      ParseDependenciesStep(entries, i);
      var d := ParseEntry(entries[i]);
      if d.Err? {
        return Err(d.error);
      }
      PrependAppend(deps, (entries[i].0, d.value), ParseDependencies(entries[i + 1..]));
      deps := deps + [(entries[i].0, d.value)];
      i := i + 1;
    }
    assert entries[i..] == [];
    assert deps + [] == deps;
    return Ok(deps);
  }

  /** The loop's view of the remaining work: what is parsed so far, followed by the rest. */
  function Prepend(done: seq<(string, Dependency)>, rest: Result<seq<(string, Dependency)>, ConfigError>): Result<seq<(string, Dependency)>, ConfigError> {
    if rest.Ok? then Ok(done + rest.value) else rest
  }

  lemma PrependAppend(done: seq<(string, Dependency)>, x: (string, Dependency), rest: Result<seq<(string, Dependency)>, ConfigError>)
    ensures Prepend(done, if rest.Ok? then Ok([x] + rest.value) else rest) == Prepend(done + [x], rest)
  {
    if rest.Ok? {
      assert done + ([x] + rest.value) == done + [x] + rest.value;
    }
  }

  lemma ParseDependenciesStep(entries: Entries, i: nat)
    requires i < |entries|
    ensures var e := ParseEntry(entries[i]);
            var rest := ParseDependencies(entries[i + 1..]);
            ParseDependencies(entries[i..]) ==
              if e.Err? then Err(e.error)
              else if rest.Ok? then Ok([(entries[i].0, e.value)] + rest.value) else rest
  {
    assert entries[i..][0] == entries[i];
    assert entries[i..][1..] == entries[i + 1..];
  }

  /** The mapping from a decoded document to the configuration. */
  function Decode(data: Entries): (r: Result<DoracxxConfig, ConfigError>)
    ensures r.Err? ==> !r.error.FileNotFound? && !r.error.DecodeError?
  {
    var node :- ParseNode(data);
    var build :- ParseBuild(data);
    var arrow :- ParseArrow(data);
    var ds :- Section(data, "dependencies");
    var deps :- ParseDependencies(ds);
    Ok(DoracxxConfig(node, build, arrow, deps))
  }

  /** A document whose `[node]` table has no `name` is rejected before anything else is read. */
  lemma DecodeNeedsName(data: Entries)
    requires Section(data, "node").Ok?
    ensures Lookup(Section(data, "node").value, "name").None? <==> Decode(data) == Err(MissingNodeName)
  {
    var n := ParseNode(data);
    if n.Ok? {
      var b := ParseBuild(data);
      var a := ParseArrow(data);
      var ds := Section(data, "dependencies");
      if ds.Ok? {
        var d := ParseDependencies(ds.value);
      }
    }
  }

  /** A successful decoding keeps the sections it read and the defaults it did not. */
  lemma DecodeParts(data: Entries)
    requires Decode(data).Ok?
    ensures var c := Decode(data).value;
            ParseNode(data) == Ok(c.node) && ParseBuild(data) == Ok(c.build) && ParseArrow(data) == Ok(c.arrow)
  {
    var n, b, a := ParseNode(data), ParseBuild(data), ParseArrow(data);
    assert n.Ok? && b.Ok? && a.Ok?;
    assert Decode(data).value.node == n.value;
  }

  /** The source lists and the timeout always keep their defaults; `[arrow]` is kept only when truthy. */
  lemma DecodeDefaults(data: Entries)
    requires Decode(data).Ok?
    ensures var c := Decode(data).value;
            c.build.sources == None && c.build.excludeSources == None && c.build.buildTimeout == 300
    ensures var c := Decode(data).value;
            c.arrow == None <==> Lookup(data, "arrow").None? || !Truthy(Lookup(data, "arrow").value)
  {
    DecodeParts(data);
  }

  /** The post-decode part of `load_config`, with the dependency loop. */
  method DecodeDocument(data: Entries) returns (r: Result<DoracxxConfig, ConfigError>)
    ensures r == Decode(data)
  {
    var node :- ParseNode(data);
    var build :- ParseBuild(data);
    var arrow :- ParseArrow(data);
    var ds :- Section(data, "dependencies");
    var deps :- LoadDependencies(ds);
    return Ok(DoracxxConfig(node, build, arrow, deps));
  }

  /** Where `load_config` looks: the given path, or `doracxx.toml` in the project root. */
  function ConfigLocation(fs: FileSystem, cwd: Path, configPath: Option<Path>): Path {
    if configPath.Some? then configPath.value else Child(FindProjectRoot(fs, cwd, None), ConfigFileName)
  }

  /** `load_config`: locate the file, decode it, map it; `documents` holds the files that decode. */
  method LoadConfig(fs: FileSystem, cwd: Path, configPath: Option<Path>, documents: map<Path, Entries>)
    returns (r: Result<DoracxxConfig, ConfigError>)
    ensures !fs.Exists(ConfigLocation(fs, cwd, configPath)) <==> r == Err(FileNotFound(ConfigLocation(fs, cwd, configPath)))
    ensures var p := ConfigLocation(fs, cwd, configPath);
            fs.Exists(p) ==> r == (if p in documents then Decode(documents[p]) else Err(DecodeError(p)))
  {
    var p := ConfigLocation(fs, cwd, configPath);
    if !fs.Exists(p) {
      return Err(FileNotFound(p));
    }
    if p !in documents {
      return Err(DecodeError(p));
    }
    r := DecodeDocument(documents[p]);
  }

  // ---------------------------------------------------------------------
  // Project root

  const ConfigFileName := "doracxx.toml"

  predicate HasConfig(fs: FileSystem, p: Path) {
    fs.Exists(Child(p, ConfigFileName))
  }

  lemma ParentPrefixes(p: Path)
    requires p != []
    ensures forall n | 0 <= n <= |p| - 1 :: Parent(p)[..n] == p[..n]
    ensures p[..|p|] == p
  {
  }

  /** The first of `p` and its ancestors, nearest first, that holds the configuration file. */
  function NearestWithConfig(fs: FileSystem, p: Path): (r: Option<Path>)
    ensures r.Some? ==> |r.value| <= |p| && r.value == p[..|r.value|] && HasConfig(fs, r.value)
    ensures r.Some? ==> forall n | |r.value| < n <= |p| :: !HasConfig(fs, p[..n])
    ensures r.None? ==> forall n | 0 <= n <= |p| :: !HasConfig(fs, p[..n])
    decreases |p|
  {
    if HasConfig(fs, p) then Some(p)
    else if p == [] then None
    else
      var r := NearestWithConfig(fs, Parent(p));
      ParentPrefixes(p);
      r
  }

  /** `find_project_root`: start at the directory (or the file's parent) and walk up; fall back to the working directory. */
  function FindProjectRoot(fs: FileSystem, cwd: Path, start: Option<Path>): (r: Path)
    ensures var s := if start.Some? then start.value else cwd;
            var cur := if fs.IsDir(s) then s else Parent(s);
            (r == cwd && forall n | 0 <= n <= |cur| :: !HasConfig(fs, cur[..n])) ||
            (HasConfig(fs, r) && |r| <= |cur| && r == cur[..|r|] && forall n | |r| < n <= |cur| :: !HasConfig(fs, cur[..n]))
  {
    var s := if start.Some? then start.value else cwd;
    var cur := if fs.IsDir(s) then s else Parent(s);
    match NearestWithConfig(fs, cur)
    case Some(p) => p
    case None => cwd
  }

  // ---------------------------------------------------------------------
  // Validation

  datatype Warning =
    | EmptyNodeName
    | InvalidDoraGit
    | UnknownProfile(profile: string)
    | InvalidParallelJobs
    | GitMissingUrl(dep: string)
    | GitTooManyRefs(dep: string)
    | VcpkgMissingName(dep: string)
    | SystemMissingName(dep: string)
    | LocalMissingPath(dep: string)
    | LocalPathNotFound(dep: string, path: string)

  /** The checks on the node and build sections, in order. */
  function SettingsWarnings(c: DoracxxConfig): seq<Warning> {
    (if c.node.name == [] then [EmptyNodeName] else []) +
    (if c.node.doraGit.Some? && c.node.doraGit.value != [] &&
        !(StartsWith(c.node.doraGit.value, "https://") || StartsWith(c.node.doraGit.value, "git@"))
     then [InvalidDoraGit] else []) +
    (if c.build.profile !in ["debug", "release"] then [UnknownProfile(c.build.profile)] else []) +
    (if c.build.parallelJobs.Some? && c.build.parallelJobs.value < 1 then [InvalidParallelJobs] else [])
  }

  /** How many of rev, branch and tag are set (an empty string counts). */
  function RefCount(d: Dependency): nat
    requires d.Git?
  {
    (if d.rev.Some? then 1 else 0) + (if d.branch.Some? then 1 else 0) + (if d.tag.Some? then 1 else 0)
  }

  /** The checks on one dependency; `pathExists` says whether a local path exists. */
  function DependencyWarnings(name: string, d: Dependency, pathExists: string -> bool): seq<Warning> {
    match d
    case Git(url, _, _, _, _, _, _, _, _, _) =>
      (if url == [] then [GitMissingUrl(name)] else []) + (if RefCount(d) > 1 then [GitTooManyRefs(name)] else [])
    case Vcpkg(n, _, _, _) => if n == [] then [VcpkgMissingName(name)] else []
    case System(n, _, _, _, _) => if n == [] then [SystemMissingName(name)] else []
    case Local(path, _, _, _, _, _) =>
      if path == [] then [LocalMissingPath(name)]
      else if !pathExists(path) then [LocalPathNotFound(name, path)]
      else []
  }

  function AllDependencyWarnings(deps: seq<(string, Dependency)>, pathExists: string -> bool): seq<Warning> {
    if deps == [] then []
    else DependencyWarnings(deps[0].0, deps[0].1, pathExists) + AllDependencyWarnings(deps[1..], pathExists)
  }

  /** The checks on the node and build sections, appended in order. */
  method CheckSettings(c: DoracxxConfig) returns (warnings: seq<Warning>)
    ensures warnings == SettingsWarnings(c)
  {
    warnings := [];
    if c.node.name == [] {
      warnings := warnings + [EmptyNodeName];
    }
    if c.node.doraGit.Some? && c.node.doraGit.value != [] &&
       !(StartsWith(c.node.doraGit.value, "https://") || StartsWith(c.node.doraGit.value, "git@")) {
      warnings := warnings + [InvalidDoraGit];
    }
    if c.build.profile !in ["debug", "release"] {
      warnings := warnings + [UnknownProfile(c.build.profile)];
    }
    if c.build.parallelJobs.Some? && c.build.parallelJobs.value < 1 {
      warnings := warnings + [InvalidParallelJobs];
    }
  }

  /** The checks on one dependency, with the reference count accumulated as in the source. */
  method CheckDependency(name: string, d: Dependency, pathExists: string -> bool) returns (warnings: seq<Warning>)
    ensures warnings == DependencyWarnings(name, d, pathExists)
  {
    warnings := [];
    match d {
      case Git(url, _, _, _, _, _, _, _, _, _) =>
        if url == [] {
          warnings := warnings + [GitMissingUrl(name)];
        }
        var refCount := 0;
        if d.rev.Some? { refCount := refCount + 1; }
        if d.branch.Some? { refCount := refCount + 1; }
        if d.tag.Some? { refCount := refCount + 1; }
        if refCount > 1 {
          warnings := warnings + [GitTooManyRefs(name)];
        }
      case Vcpkg(n, _, _, _) =>
        if n == [] {
          warnings := warnings + [VcpkgMissingName(name)];
        }
      case System(n, _, _, _, _) =>
        if n == [] {
          warnings := warnings + [SystemMissingName(name)];
        }
      case Local(path, _, _, _, _, _) =>
        if path == [] {
          warnings := warnings + [LocalMissingPath(name)];
        } else if !pathExists(path) {
          warnings := warnings + [LocalPathNotFound(name, path)];
        }
    }
  }

  /** `validate_config`: the warnings of the settings, then of each dependency in order. */
  method ValidateConfig(c: DoracxxConfig, pathExists: string -> bool) returns (warnings: seq<Warning>)
    ensures warnings == SettingsWarnings(c) + AllDependencyWarnings(c.dependencies, pathExists)
  {
    warnings := CheckSettings(c);
    var i := 0;
    assert c.dependencies[i..] == c.dependencies;
    while i < |c.dependencies|
      invariant 0 <= i <= |c.dependencies|
      invariant warnings + AllDependencyWarnings(c.dependencies[i..], pathExists)
                == SettingsWarnings(c) + AllDependencyWarnings(c.dependencies, pathExists)
    {
      assert c.dependencies[i..][1..] == c.dependencies[i + 1..];
      var w := CheckDependency(c.dependencies[i].0, c.dependencies[i].1, pathExists);
      warnings := warnings + w;
      i := i + 1;
    }
    assert c.dependencies[i..] == [];
  }

  /** A dependency that passes every check. */
  predicate DependencyOk(d: Dependency, pathExists: string -> bool) {
    match d
    case Git(url, rev, branch, tag, _, _, _, _, _, _) =>
      url != [] && !(rev.Some? && branch.Some?) && !(rev.Some? && tag.Some?) && !(branch.Some? && tag.Some?)
    case Vcpkg(n, _, _, _) => n != []
    case System(n, _, _, _, _) => n != []
    case Local(path, _, _, _, _, _) => path != [] && pathExists(path)
  }

  /** A configuration that passes every check, stated independently of the warning list. */
  predicate WellFormed(c: DoracxxConfig, pathExists: string -> bool) {
    && c.node.name != []
    && (c.node.doraGit.Some? && c.node.doraGit.value != [] ==>
          StartsWith(c.node.doraGit.value, "https://") || StartsWith(c.node.doraGit.value, "git@"))
    && (c.build.profile == "debug" || c.build.profile == "release")
    && (c.build.parallelJobs.Some? ==> c.build.parallelJobs.value >= 1)
    && forall k | 0 <= k < |c.dependencies| :: DependencyOk(c.dependencies[k].1, pathExists)
  }

  lemma {:induction false} NoDependencyWarnings(deps: seq<(string, Dependency)>, pathExists: string -> bool)
    ensures AllDependencyWarnings(deps, pathExists) == [] <==> forall k | 0 <= k < |deps| :: DependencyOk(deps[k].1, pathExists)
  {
    if deps != [] {
      NoDependencyWarnings(deps[1..], pathExists);
      assert forall k | 1 <= k < |deps| :: deps[k] == deps[1..][k - 1];
      assert DependencyWarnings(deps[0].0, deps[0].1, pathExists) == [] <==> DependencyOk(deps[0].1, pathExists);
    }
  }

  /** The validator stays silent exactly on well-formed configurations. */
  lemma ValidateSilentIffWellFormed(c: DoracxxConfig, pathExists: string -> bool)
    ensures SettingsWarnings(c) + AllDependencyWarnings(c.dependencies, pathExists) == [] <==> WellFormed(c, pathExists)
  {
    NoDependencyWarnings(c.dependencies, pathExists);
  }

  /** Each dependency contributes its warnings at its place in the order. */
  lemma {:induction false} DependencyWarningsConcat(a: seq<(string, Dependency)>, b: seq<(string, Dependency)>, pathExists: string -> bool)
    ensures AllDependencyWarnings(a + b, pathExists) == AllDependencyWarnings(a, pathExists) + AllDependencyWarnings(b, pathExists)
  {
    if a == [] {
      assert a + b == b;
    } else {
      assert (a + b)[0] == a[0];
      assert (a + b)[1..] == a[1..] + b;
      DependencyWarningsConcat(a[1..], b, pathExists);
    }
  }
}
