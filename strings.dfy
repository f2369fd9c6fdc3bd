/** The parts of Python's `str` behaviour that the build tool relies on. */
module Strings {

  predicate StartsWith(s: string, p: string) {
    |p| <= |s| && s[..|p|] == p
  }

  predicate EndsWith(s: string, p: string) {
    |p| <= |s| && s[|s| - |p|..] == p
  }

  /** `p` occurs in `s` starting at index `i`. */
  predicate OccursAt(s: string, p: string, i: int) {
    0 <= i && i + |p| <= |s| && s[i..i + |p|] == p
  }

  /** Python's `p in s`. */
  predicate Contains(s: string, p: string) {
    exists i | 0 <= i <= |s| - |p| :: OccursAt(s, p, i)
  }

  /** Index of the first occurrence of `p` in `s` at or after `from`, or -1 (Python's `find`). */
  function FindFrom(s: string, p: string, from: nat): (r: int)
    requires from <= |s|
    ensures r == -1 || (from <= r && OccursAt(s, p, r))
    decreases |s| - from
  {
    if from + |p| > |s| then -1
    else if s[from..from + |p|] == p then from
    else if from == |s| then -1
    else FindFrom(s, p, from + 1)
  }

  /** The occurrence found is the first one at or after `from`, and -1 means there is none. */
  lemma {:induction false} FindFromFirst(s: string, p: string, from: nat)
    requires from <= |s|
    ensures var r := FindFrom(s, p, from);
            (r != -1 ==> forall j | from <= j < r :: !OccursAt(s, p, j)) &&
            (r == -1 ==> forall j | from <= j :: !OccursAt(s, p, j))
    decreases |s| - from
  {
    if from + |p| <= |s| && s[from..from + |p|] != p && from < |s| {
      FindFromFirst(s, p, from + 1);
    }
  }

  function Find(s: string, p: string): (r: int)
    ensures r == -1 || OccursAt(s, p, r)
  {
    FindFrom(s, p, 0)
  }

  /** `Find` gives the first occurrence, and -1 exactly when there is none. */
  lemma FindFirst(s: string, p: string)
    ensures Find(s, p) == -1 <==> !Contains(s, p)
    ensures Find(s, p) != -1 ==> forall j | 0 <= j < Find(s, p) :: !OccursAt(s, p, j)
  {
    FindFromFirst(s, p, 0);
  }

  /**
   * Where Python's `s.split(p)[-1]` starts when the scan resumes at `from`:
   * just after the last separator that a left-to-right, non-overlapping scan
   * finds, or `from` when there is none.
   */
  function LastPartStart(s: string, p: string, from: nat): (k: nat)
    requires p != [] && from <= |s|
    ensures from <= k <= |s|
    decreases |s| - from
  {
    var i := FindFrom(s, p, from);
    if i < 0 then from else LastPartStart(s, p, i + |p|)
  }

  /** No separator starts at or after the start, and one ends just before it whenever the scan finds any. */
  lemma {:induction false} LastPartStartSpec(s: string, p: string, from: nat)
    requires p != [] && from <= |s|
    ensures var k := LastPartStart(s, p, from);
            (forall j | k <= j :: !OccursAt(s, p, j)) &&
            (FindFrom(s, p, from) == -1 ==> k == from) &&
            (FindFrom(s, p, from) != -1 ==> k >= from + |p| && OccursAt(s, p, k - |p|))
    decreases |s| - from
  {
    var i := FindFrom(s, p, from);
    FindFromFirst(s, p, from);
    if i == -1 {
      assert LastPartStart(s, p, from) == from;
    } else {
      var a := i + |p|;
      assert LastPartStart(s, p, from) == LastPartStart(s, p, a);
      LastPartStartSpec(s, p, a);
    }
  }

  /** Python's `s.split(p)[-1]`. */
  function LastPart(s: string, p: string): (r: string)
    requires p != []
    ensures |r| <= |s| && r == s[|s| - |r|..]
  {
    s[LastPartStart(s, p, 0)..]
  }

  /** The last part holds no separator; it is the whole string when there is none, and follows one otherwise. */
  lemma LastPartSpec(s: string, p: string)
    requires p != []
    ensures var r := LastPart(s, p);
            !Contains(r, p) &&
            (!Contains(s, p) ==> r == s) &&
            (Contains(s, p) ==> OccursAt(s, p, |s| - |r| - |p|))
  {
    var k := LastPartStart(s, p, 0);
    LastPartStartSpec(s, p, 0);
    FindFirst(s, p);
    NoOccurrenceInSuffix(s, p, k);
    assert s[0..] == s;
  }

  /** A prefix of a string without occurrences holds none. */
  lemma NoOccurrenceInPrefix(s: string, p: string, n: nat)
    requires n <= |s| && !Contains(s, p)
    ensures !Contains(s[..n], p)
  {
    if Contains(s[..n], p) {
      var i :| 0 <= i <= n - |p| && OccursAt(s[..n], p, i);
      assert s[..n][i..i + |p|] == s[i..i + |p|];
      assert OccursAt(s, p, i);
      assert false;
    }
  }

  /** A suffix that starts past every occurrence holds none. */
  lemma NoOccurrenceInSuffix(s: string, p: string, k: nat)
    requires k <= |s| && forall j | k <= j :: !OccursAt(s, p, j)
    ensures !Contains(s[k..], p)
  {
    if Contains(s[k..], p) {
      var j :| 0 <= j <= |s[k..]| - |p| && OccursAt(s[k..], p, j);
      OccurrenceShift(s, k, p, j);
      assert false;
    }
  }

  /** An occurrence in a suffix is an occurrence in the whole string. */
  lemma OccurrenceShift(s: string, a: nat, p: string, j: nat)
    requires a <= |s| && OccursAt(s[a..], p, j)
    ensures OccursAt(s, p, a + j)
  {
    assert s[a..][j..j + |p|] == s[a + j..a + j + |p|];
  }

  /** A one-character pattern occurs exactly where its character does. */
  lemma ContainsChar(s: string, c: char)
    ensures Contains(s, [c]) <==> c in s
  {
    if c in s {
      var i :| 0 <= i < |s| && s[i] == c;
      assert OccursAt(s, [c], i);
    }
    forall i | OccursAt(s, [c], i) ensures s[i] == c {
      assert s[i..i + 1][0] == s[i];
    }
  }

  /** Python's `s.split(c)` for a one-character separator. */
  function SplitOn(s: string, c: char): (r: seq<string>)
    ensures |r| >= 1
    ensures forall k | 0 <= k < |r| :: c !in r[k]
    decreases |s|
  {
    if c !in s then [s]
    else
      var i := IndexOfChar(s, c);
      [s[..i]] + SplitOn(s[i + 1..], c)
  }

  function IndexOfChar(s: string, c: char): (i: nat)
    requires c in s
    ensures i < |s| && s[i] == c && c !in s[..i]
  {
    if s[0] == c then 0
    else
      var j := IndexOfChar(s[1..], c);
      assert s[..j + 1] == [s[0]] + s[1..][..j];
      j + 1
  }

  /** Joining the pieces back with the separator gives the original string. */
  function JoinWith(parts: seq<string>, c: char): string
    requires |parts| >= 1
  {
    if |parts| == 1 then parts[0] else parts[0] + [c] + JoinWith(parts[1..], c)
  }

  lemma {:induction false} SplitJoin(s: string, c: char)
    ensures JoinWith(SplitOn(s, c), c) == s
    decreases |s|
  {
    if c in s {
      var i := IndexOfChar(s, c);
      var rest := SplitOn(s[i + 1..], c);
      var parts := [s[..i]] + rest;
      assert SplitOn(s, c) == parts;
      assert parts[1..] == rest;
      SplitJoin(s[i + 1..], c);
      assert JoinWith(parts, c) == s[..i] + [c] + s[i + 1..];
      assert s == s[..i] + [c] + s[i + 1..];
    }
  }

  // ---------------------------------------------------------------------
  // Stripping

  /** The number of leading characters that belong to `cs`. */
  function LeadCount(s: string, cs: set<char>): (n: nat)
    ensures n <= |s|
    ensures forall k | 0 <= k < n :: s[k] in cs
    ensures n < |s| ==> s[n] !in cs
  {
    if s == [] || s[0] !in cs then 0 else 1 + LeadCount(s[1..], cs)
  }

  /** The number of trailing characters that belong to `cs`. */
  function TrailCount(s: string, cs: set<char>): (n: nat)
    ensures n <= |s|
    ensures forall k | |s| - n <= k < |s| :: s[k] in cs
    ensures n < |s| ==> s[|s| - 1 - n] !in cs
  {
    if s == [] || s[|s| - 1] !in cs then 0 else 1 + TrailCount(s[..|s| - 1], cs)
  }

  /** Python's `s.lstrip(chars)`. */
  function LStrip(s: string, cs: set<char>): (r: string)
    ensures r == s[LeadCount(s, cs)..]
    ensures r == [] || r[0] !in cs
  {
    s[LeadCount(s, cs)..]
  }

  /** Python's `s.rstrip(chars)`. */
  function RStrip(s: string, cs: set<char>): (r: string)
    ensures r == s[..|s| - TrailCount(s, cs)]
    ensures r == [] || r[|r| - 1] !in cs
  {
    s[..|s| - TrailCount(s, cs)]
  }

  /** How many leading characters `strip` removes. */
  function StripStart(s: string, cs: set<char>): (n: nat)
    ensures n <= |s|
    ensures forall k | 0 <= k < n :: s[k] in cs
  {
    LeadCount(s, cs)
  }

  /** Python's `s.strip(chars)`: the text left once characters of `cs` are removed from both ends. */
  function Strip(s: string, cs: set<char>): (r: string)
    ensures r == [] || (r[0] !in cs && r[|r| - 1] !in cs)
    ensures r == [] <==> forall k | 0 <= k < |s| :: s[k] in cs
    ensures StripStart(s, cs) + |r| <= |s| && r == s[StripStart(s, cs)..StripStart(s, cs) + |r|]
    ensures forall k | StripStart(s, cs) + |r| <= k < |s| :: s[k] in cs
  {
    var a := LeadCount(s, cs);
    var n := TrailCount(s[a..], cs);
    assert a == |s| ==> n == 0;
    s[a..|s| - n]
  }

  /** The stripped text occurs in the original. */
  lemma StripOccurs(s: string, cs: set<char>)
    ensures Contains(s, Strip(s, cs))
  {
    assert OccursAt(s, Strip(s, cs), StripStart(s, cs));
  }

  /** Stripping a string whose ends are already outside `cs` changes nothing. */
  lemma StripIdentity(s: string, cs: set<char>)
    requires s != [] && s[0] !in cs && s[|s| - 1] !in cs
    ensures Strip(s, cs) == s
  {
  }

  /** The characters Python's `str.isspace` accepts, which `str.strip()` removes. */
  const PyWhitespace: set<char> := {
    '\U{9}', '\U{A}', '\U{B}', '\U{C}', '\U{D}', '\U{1C}', '\U{1D}', '\U{1E}',
    '\U{1F}', '\U{20}', '\U{85}', '\U{A0}', '\U{1680}', '\U{2000}', '\U{2001}', '\U{2002}',
    '\U{2003}', '\U{2004}', '\U{2005}', '\U{2006}', '\U{2007}', '\U{2008}', '\U{2009}', '\U{200A}',
    '\U{2028}', '\U{2029}', '\U{202F}', '\U{205F}', '\U{3000}'
  }

  /** Python's `s.split()` with no separator: maximal runs of non-whitespace. */
  function SplitWhitespace(s: string): (r: seq<string>)
    ensures forall k | 0 <= k < |r| :: r[k] != [] && forall j | 0 <= j < |r[k]| :: r[k][j] !in PyWhitespace
    decreases |s|
  {
    var t := LStrip(s, PyWhitespace);
    if t == [] then []
    else
      var n := WordLength(t);
      [t[..n]] + SplitWhitespace(t[n..])
  }

  function WordLength(t: string): (n: nat)
    ensures n <= |t|
    ensures forall j | 0 <= j < n :: t[j] !in PyWhitespace
    ensures n < |t| ==> t[n] in PyWhitespace
    ensures t != [] && t[0] !in PyWhitespace ==> n > 0
  {
    if t == [] || t[0] in PyWhitespace then 0 else 1 + WordLength(t[1..])
  }

  // ---------------------------------------------------------------------
  // Characters

  /** ASCII lower-casing; `str.lower()` on the ASCII range. */
  function LowerChar(c: char): char {
    if 'A' <= c <= 'Z' then (c as int + 32) as char else c
  }

  function Lower(s: string): (r: string)
    ensures |r| == |s|
    ensures forall k | 0 <= k < |s| :: r[k] == LowerChar(s[k])
  {
    seq(|s|, k requires 0 <= k < |s| => LowerChar(s[k]))
  }

  /** ASCII letters and digits; `str.isalnum()` on the ASCII range. */
  predicate IsAlnum(c: char) {
    ('a' <= c <= 'z') || ('A' <= c <= 'Z') || ('0' <= c <= '9')
  }

  /** Decimal rendering of a natural number, as Python's `str(n)`. */
  function NatToString(n: nat): (r: string)
    ensures r != []
    ensures forall k | 0 <= k < |r| :: '0' <= r[k] <= '9'
  {
    var d := ['0' + (n % 10) as char];
    if n < 10 then d else NatToString(n / 10) + d
  }

  /** The first `n` characters, or all of them when there are fewer (Python's `s[:n]`). */
  function Take<T>(s: seq<T>, n: nat): (r: seq<T>)
    ensures |r| <= n && |r| <= |s|
    ensures r == s[..|r|]
    ensures |s| >= n ==> |r| == n
  {
    if |s| <= n then s else s[..n]
  }
}
