/**
 * Versioned cache directory naming: `~/.doracxx/<repo>-<revision>` where the
 * revision is the sanitized pinned revision, the sanitized latest stable tag
 * of the remote, or `main`.
 */
module Cache {
  import opened Wrappers
  import opened Strings
  import opened Paths

  // ---------------------------------------------------------------------
  // File-system-safe names

  /** The characters replaced by `_`. */
  const Reserved: set<char> := {'/', '\\', ':', '*', '?', '"', '<', '>', '|', '^', '{', '}'}

  /** The characters stripped from both ends after replacement. */
  const EdgeChars: set<char> := {'.', ' '}

  const DefaultName := "default"

  function ReplaceChar(c: char): (d: char)
    ensures d !in Reserved
    ensures c !in Reserved ==> d == c
  {
    if c in Reserved then '_' else c
  }

  /** Replaces every reserved character by `_`, one for one. */
  function ReplaceReserved(s: string): (r: string)
    ensures |r| == |s|
    ensures forall k | 0 <= k < |s| :: r[k] == ReplaceChar(s[k])
  {
    if s == [] then [] else [ReplaceChar(s[0])] + ReplaceReserved(s[1..])
  }

  /** A string is left alone by the replacement exactly when it has no reserved character. */
  lemma ReplaceReservedIdentity(s: string)
    ensures ReplaceReserved(s) == s <==> forall k | 0 <= k < |s| :: s[k] !in Reserved
  {
    if ReplaceReserved(s) == s {
      forall k | 0 <= k < |s| ensures s[k] !in Reserved {
        assert ReplaceReserved(s)[k] == s[k];
      }
    }
  }

  /** `sanitize_for_filesystem`. */
  function Sanitize(name: string): (r: string)
    ensures r != []
    ensures r[0] !in EdgeChars && r[|r| - 1] !in EdgeChars
    ensures forall k | 0 <= k < |r| :: r[k] !in Reserved
  {
    var u := ReplaceReserved(name);
    var t := Strip(u, EdgeChars);
    if t == [] then DefaultName else t
  }

  /** Sanitizing a sanitized name changes nothing. */
  lemma SanitizeIdempotent(name: string)
    ensures Sanitize(Sanitize(name)) == Sanitize(name)
  {
    var y := Sanitize(name);
    ReplaceReservedIdentity(y);
    StripIdentity(y, EdgeChars);
  }

  /** A name made only of dots and spaces falls back to `default`. */
  lemma SanitizeFallback(name: string)
    requires forall k | 0 <= k < |name| :: name[k] in EdgeChars
    ensures Sanitize(name) == DefaultName
  {
    ReplaceKeepsEdgeChars(name);
  }

  /** Any other name sanitizes to a part of its replaced text. */
  lemma SanitizeInner(name: string)
    requires exists k | 0 <= k < |name| :: name[k] !in EdgeChars
    ensures Contains(ReplaceReserved(name), Sanitize(name))
  {
    var u := ReplaceReserved(name);
    StripOccurs(u, EdgeChars);
    ReplaceKeepsEdgeChars(name);
    var k :| 0 <= k < |name| && name[k] !in EdgeChars;
    assert u[k] !in EdgeChars;
  }

  /** Replacement keeps a character out of, or in, the edge set. */
  lemma ReplaceKeepsEdgeChars(name: string)
    ensures forall k | 0 <= k < |name| :: ReplaceReserved(name)[k] in EdgeChars <==> name[k] in EdgeChars
  {
    var u := ReplaceReserved(name);
    forall k | 0 <= k < |name| ensures u[k] in EdgeChars <==> name[k] in EdgeChars {
      EdgeCharNotReserved(name[k]);
    }
  }

  lemma EdgeCharNotReserved(c: char)
    ensures c in EdgeChars ==> ReplaceChar(c) == c
    ensures c !in EdgeChars ==> ReplaceChar(c) !in EdgeChars
  {
  }

  /** A name already free of reserved and edge characters is kept as it is. */
  lemma SanitizeKeepsSafeNames(name: string)
    requires name != [] && name[0] !in EdgeChars && name[|name| - 1] !in EdgeChars
    requires forall k | 0 <= k < |name| :: name[k] !in Reserved
    ensures Sanitize(name) == name
  {
    ReplaceReservedIdentity(name);
    StripIdentity(name, EdgeChars);
  }

  // ---------------------------------------------------------------------
  // Latest stable tag of a remote

  /** What `git ls-remote --tags --sort=-version:refname <url>` produced. */
  datatype LsRemote =
    | Completed(returncode: int, stdout: string)
    | Raised   // the process could not be started, timed out or its output was undecodable

  const TagsPrefix := "refs/tags/"

  const PreReleaseMarkers: seq<string> := ["alpha", "beta", "rc", "pre", "dev"]

  /** The tag name of an `ls-remote` line: what follows its last `refs/tags/`. */
  function TagOf(line: string): (r: string)
    ensures EndsWith(line, r)
  {
    LastPart(line, TagsPrefix)
  }

  /** A tag name never holds `refs/tags/` itself. */
  lemma TagOfHasNoPrefix(line: string)
    ensures !Contains(TagOf(line), TagsPrefix)
  {
    LastPartSpec(line, TagsPrefix);
  }

  /**
   * A tag counts as a pre-release when its lower-cased text contains one of the
   * markers. The markers are ASCII and no non-ASCII character lower-cases to
   * one of their letters, so ASCII lower-casing decides this exactly.
   */
  predicate IsPreRelease(tag: string) {
    exists m | m in PreReleaseMarkers :: Contains(Lower(tag), m)
  }

  predicate Qualifies(line: string) {
    line != [] && Contains(line, TagsPrefix) && !IsPreRelease(TagOf(line))
  }

  /** The index of the first qualifying line, or -1. */
  function FirstQualifying(lines: seq<string>): (i: int)
    ensures -1 <= i < |lines|
    ensures i >= 0 ==> Qualifies(lines[i])
    ensures forall j | 0 <= j < |lines| && (i < 0 || j < i) :: !Qualifies(lines[j])
  {
    if lines == [] then -1
    else if Qualifies(lines[0]) then 0
    else
      var i := FirstQualifying(lines[1..]);
      assert forall j | 1 <= j < |lines| :: lines[j] == lines[1..][j - 1];
      if i < 0 then -1 else i + 1
  }

  /** The tag of the first qualifying line, scanning in output order. */
  function FirstStableTag(lines: seq<string>): (r: Option<string>)
    ensures r.None? <==> forall k | 0 <= k < |lines| :: !Qualifies(lines[k])
    ensures r.Some? ==> r.value == TagOf(lines[FirstQualifying(lines)])
  {
    var i := FirstQualifying(lines);
    if i < 0 then None else Some(TagOf(lines[i]))
  }

  /** The lines of the listing once surrounding whitespace is stripped. */
  function OutputLines(stdout: string): (r: seq<string>)
    ensures |r| >= 1
  {
    SplitOn(Strip(stdout, PyWhitespace), '\n')
  }

  /** `get_latest_git_tag`. */
  function LatestGitTag(out: LsRemote): (r: Option<string>)
    ensures out.Raised? || out.returncode != 0 ==> r == None
  {
    if out.Raised? || out.returncode != 0 then None
    else FirstStableTag(OutputLines(out.stdout))
  }

  /** A tag found is a stable release name without the `refs/tags/` prefix. */
  lemma LatestGitTagStable(out: LsRemote)
    ensures var r := LatestGitTag(out);
            r.Some? ==> !IsPreRelease(r.value) && !Contains(r.value, TagsPrefix)
  {
    if out.Completed? && out.returncode == 0 {
      var lines := OutputLines(out.stdout);
      var i := FirstQualifying(lines);
      if i >= 0 {
        TagOfHasNoPrefix(lines[i]);
      }
    }
  }

  predicate AnyQualifies(lines: seq<string>) {
    exists k | 0 <= k < |lines| :: Qualifies(lines[k])
  }

  /** A successful listing yields a tag exactly when one of its lines qualifies. */
  lemma LatestGitTagFound(stdout: string)
    ensures LatestGitTag(Completed(0, stdout)).Some? <==> AnyQualifies(OutputLines(stdout))
  {
    var lines := OutputLines(stdout);
    var i := FirstQualifying(lines);
    if i >= 0 {
      assert Qualifies(lines[i]);
    }
  }

  // ---------------------------------------------------------------------
  // Cache paths

  datatype Tool = Dora | Arrow

  function DefaultRepoName(tool: Tool): string {
    match tool
    case Dora => "dora"
    case Arrow => "arrow"
  }

  function DefaultUrl(tool: Tool): string {
    match tool
    case Dora => "https://github.com/dora-rs/dora"
    case Arrow => "https://github.com/apache/arrow.git"
  }

  /** The last `/` segment of the URL after trailing slashes are removed, without `.git`. */
  function RepoName(url: string): (r: string)
    ensures |r| <= |url|
  {
    var last := LastPart(RStrip(url, {'/'}), "/");
    if EndsWith(last, ".git") then last[..|last| - 4] else last
  }

  /** A repository name never holds `/`. */
  lemma RepoNameHasNoSlash(url: string)
    ensures !Contains(RepoName(url), "/")
  {
    var last := LastPart(RStrip(url, {'/'}), "/");
    LastPartSpec(RStrip(url, {'/'}), "/");
    if EndsWith(last, ".git") {
      NoOccurrenceInPrefix(last, "/", |last| - 4);
    }
  }

  /** The repository name the defaults use is the one their URLs give. */
  lemma DefaultRepoNameMatchesUrl(tool: Tool)
    ensures RepoName(DefaultUrl(tool)) == DefaultRepoName(tool)
  {
    match tool {
      case Dora => DoraRepoName();
      case Arrow => ArrowRepoName();
    }
  }

  lemma DoraRepoName()
    ensures RepoName("https://github.com/dora-rs/dora") == "dora"
  {
    assert "https://github.com/dora-rs/dora" == "https://github.com/dora-rs/" + "dora";
    RepoNameOfSegment("https://github.com/dora-rs/", "dora");
  }

  lemma ArrowRepoName()
    ensures RepoName("https://github.com/apache/arrow.git") == "arrow"
  {
    var base, seg := "https://github.com/apache/", "arrow.git";
    ArrowUrlSplit(base, seg);
    ArrowSegment(seg);
    RepoNameOfSegment(base, seg);
  }

  lemma ArrowUrlSplit(base: string, seg: string)
    requires base == "https://github.com/apache/" && seg == "arrow.git"
    ensures base + seg == "https://github.com/apache/arrow.git"
    ensures base != [] && base[|base| - 1] == '/'
  {
  }

  lemma ArrowSegment(seg: string)
    requires seg == "arrow.git"
    ensures seg != [] && seg[|seg| - 1] != '/' && '/' !in seg
    ensures EndsWith(seg, ".git") && seg[..|seg| - 4] == "arrow"
  {
  }

  /** The repository name of `<base>/<seg>` is `seg` without `.git`. */
  lemma RepoNameOfSegment(base: string, seg: string)
    requires base != [] && base[|base| - 1] == '/' && seg != [] && seg[|seg| - 1] != '/' && '/' !in seg
    ensures RepoName(base + seg) == if EndsWith(seg, ".git") then seg[..|seg| - 4] else seg
  {
    UrlLastSegment(base, seg);
  }

  /** The segment after a base ending in `/` is the last part of the URL. */
  lemma UrlLastSegment(base: string, seg: string)
    requires base != [] && base[|base| - 1] == '/' && seg != [] && seg[|seg| - 1] != '/' && '/' !in seg
    ensures LastPart(RStrip(base + seg, {'/'}), "/") == seg
  {
    var u := base + seg;
    assert RStrip(u, {'/'}) == u;
    ContainsChar(seg, '/');
    assert u[|u| - |seg|..] == seg;
    assert u[|u| - |seg| - 1..|u| - |seg|] == "/";
    LastPartIs(u, "/", seg);
  }

  /** For a one-character separator, the last part is the separator-free suffix the separator precedes. */
  lemma LastPartIs(s: string, p: string, t: string)
    requires |p| == 1 && EndsWith(s, t) && !Contains(t, p) && OccursAt(s, p, |s| - |t| - 1)
    ensures LastPart(s, p) == t
  {
    var r := LastPart(s, p);
    LastPartSpec(s, p);
    assert Contains(s, p);
    assert forall i | 0 <= i < |t| :: t[i] == s[|s| - |t| + i];
    assert forall i | 0 <= i < |r| :: r[i] == s[|s| - |r| + i];
    if |r| > |t| {
      var i := |r| - |t| - 1;
      assert r[i..i + 1] == s[|s| - |t| - 1..|s| - |t|];
      assert OccursAt(r, p, i);
    } else if |r| < |t| {
      // t would hold the separator that precedes r
      SeparatorInSuffix(s, t, |t| - |r| - 1, p);
      assert false;
    }
    assert |r| == |t|;
    assert forall i | 0 <= i < |t| :: r[i] == t[i];
  }

  lemma SeparatorInSuffix(s: string, t: string, i: nat, p: string)
    requires EndsWith(s, t) && i < |t| && |p| == 1 && s[|s| - |t| + i] == p[0]
    ensures OccursAt(t, p, i)
  {
    assert t[i] == s[|s| - |t| + i];
    assert t[i..i + 1] == p;
  }

  /** The repository name and the URL used for the tag lookup. */
  function Source(tool: Tool, url: Option<string>): (string, string) {
    if Truthy(url) then (RepoName(url.value), url.value) else (DefaultRepoName(tool), DefaultUrl(tool))
  }

  /** The revision part of the directory name. */
  function RevisionPart(tool: Tool, url: Option<string>, rev: Option<string>, remote: string -> LsRemote): (r: string)
    ensures Truthy(rev) ==> r == Sanitize(rev.value)
  {
    if Truthy(rev) then Sanitize(rev.value)
    else
      var tag := LatestGitTag(remote(Source(tool, url).1));
      if Truthy(tag) then Sanitize(tag.value) else "main"
  }

  /** `get_dora_cache_path` and `get_arrow_cache_path`, below the home directory `home`. */
  function CachePath(home: Path, tool: Tool, url: Option<string>, rev: Option<string>, remote: string -> LsRemote): (r: Path)
    ensures Parent(r) == Child(home, ".doracxx")
    ensures Name(r) == Source(tool, url).0 + "-" + RevisionPart(tool, url, rev, remote)
  {
    Child(Child(home, ".doracxx"), Source(tool, url).0 + "-" + RevisionPart(tool, url, rev, remote))
  }

  /** A pinned revision names the directory without consulting the remote. */
  lemma PinnedPathIgnoresRemote(home: Path, tool: Tool, url: Option<string>, rev: Option<string>,
                                remote1: string -> LsRemote, remote2: string -> LsRemote)
    requires Truthy(rev)
    ensures CachePath(home, tool, url, rev, remote1) == CachePath(home, tool, url, rev, remote2)
  {
  }

  /** Without a revision the name uses the remote's latest stable tag; a failed lookup gives `main`. */
  lemma UnpinnedRevision(tool: Tool, url: Option<string>, rev: Option<string>, remote: string -> LsRemote)
    requires !Truthy(rev)
    ensures var out := remote(Source(tool, url).1);
            (out.Raised? || out.returncode != 0) ==> RevisionPart(tool, url, rev, remote) == "main"
    ensures var tag := LatestGitTag(remote(Source(tool, url).1));
            Truthy(tag) ==> RevisionPart(tool, url, rev, remote) == Sanitize(tag.value)
  {
  }

  /** The revision part never holds a reserved character and never starts or ends with a dot or space. */
  lemma RevisionPartSafe(tool: Tool, url: Option<string>, rev: Option<string>, remote: string -> LsRemote)
    ensures var r := RevisionPart(tool, url, rev, remote);
            r != [] && r[0] !in EdgeChars && r[|r| - 1] !in EdgeChars &&
            forall k | 0 <= k < |r| :: r[k] !in Reserved
  {
    if !Truthy(rev) && !Truthy(LatestGitTag(remote(Source(tool, url).1))) {
      MainIsSafe(RevisionPart(tool, url, rev, remote));
    }
  }

  lemma MainIsSafe(r: string)
    requires r == "main"
    ensures r != [] && r[0] !in EdgeChars && r[|r| - 1] !in EdgeChars
    ensures forall k | 0 <= k < |r| :: r[k] !in Reserved
  {
    assert forall k | 0 <= k < |r| :: r[k] in {'m', 'a', 'i', 'n'};
  }

  /** The Arrow path for release 15.0.0 of the default repository. */
  lemma ArrowReleasePath(home: Path, remote: string -> LsRemote)
    ensures Name(CachePath(home, Arrow, Some("https://github.com/apache/arrow.git"), Some("apache-arrow-15.0.0"), remote))
            == "arrow-apache-arrow-15.0.0"
  {
    ArrowReleaseParts(remote);
    ArrowReleaseName(Source(Arrow, Some("https://github.com/apache/arrow.git")).0,
                     RevisionPart(Arrow, Some("https://github.com/apache/arrow.git"), Some("apache-arrow-15.0.0"), remote));
  }

  lemma ArrowReleaseName(repo: string, part: string)
    requires repo == "arrow" && part == "apache-arrow-15.0.0"
    ensures repo + "-" + part == "arrow-apache-arrow-15.0.0"
  {
  }

  lemma ArrowReleaseParts(remote: string -> LsRemote)
    ensures Source(Arrow, Some("https://github.com/apache/arrow.git")).0 == "arrow"
    ensures RevisionPart(Arrow, Some("https://github.com/apache/arrow.git"), Some("apache-arrow-15.0.0"), remote) == "apache-arrow-15.0.0"
  {
    ArrowRepoName();
    ReleaseTagIsSafe();
  }

  lemma ReleaseTagIsSafe()
    ensures Sanitize("apache-arrow-15.0.0") == "apache-arrow-15.0.0"
  {
    var rev := "apache-arrow-15.0.0";
    assert forall k | 0 <= k < |rev| :: rev[k] in {'a', 'p', 'c', 'h', 'e', '-', 'r', 'o', 'w', '1', '5', '.', '0'};
    SanitizeKeepsSafeNames(rev);
  }
}
