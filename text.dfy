/** The handful of Python `str` operations the crawler relies on, written out. */
module Text {
  import opened Wrappers

  /** Truthiness of an optional string: present and non-empty. */
  predicate Truthy(s: Option<string>) {
    s.Some? && s.value != ""
  }

  function LowerChar(c: char): char {
    if 'A' <= c <= 'Z' then (c as int + 32) as char else c
  }

  /** `str.lower()` on the ASCII range. */
  function Lower(s: string): (r: string)
    ensures |r| == |s|
    ensures forall i :: 0 <= i < |s| ==> r[i] == LowerChar(s[i])
  {
    if s == [] then [] else [LowerChar(s[0])] + Lower(s[1..])
  }

  predicate IsLowered(s: string) {
    forall i :: 0 <= i < |s| ==> !('A' <= s[i] <= 'Z')
  }

  lemma LowerOfLowered(s: string)
    requires IsLowered(s)
    ensures Lower(s) == s
  {
  }

  lemma LowerIsLowered(s: string)
    ensures IsLowered(Lower(s))
  {
  }

  /** `s.find(c)`: the first index of `c`, or -1. */
  function Find(s: string, c: char): (k: int)
    ensures k == -1 <==> c !in s
    ensures k != -1 ==> 0 <= k < |s| && s[k] == c && c !in s[..k]
  {
    if s == [] then -1
    else if s[0] == c then 0
    else var k := Find(s[1..], c); if k == -1 then -1 else k + 1
  }

  /** `sep.join(parts)` for a one-character separator. */
  function Join(parts: seq<string>, sep: char): string {
    if parts == [] then ""
    else if |parts| == 1 then parts[0]
    else parts[0] + [sep] + Join(parts[1..], sep)
  }

  /** `s.split(sep)` for a one-character separator: never empty, no piece holds `sep`,
      and joining the pieces back with `sep` gives `s`. */
  function Split(s: string, sep: char): (r: seq<string>)
    ensures |r| >= 1
    ensures forall i :: 0 <= i < |r| ==> sep !in r[i]
    ensures Join(r, sep) == s
    decreases |s|
  {
    var k := Find(s, sep);
    if k == -1 then [s]
    else
      var rest := Split(s[k + 1..], sep);
      var r := [s[..k]] + rest;
      assert r[1..] == rest;
      assert Join(r, sep) == s[..k] + [sep] + Join(rest, sep);
      assert s == s[..k] + [sep] + s[k + 1..];
      assert forall i :: 1 <= i < |r| ==> r[i] == rest[i - 1];
      r
  }

  /** `w` occurs in `s` starting at index `i`. */
  predicate OccursAt(s: string, w: string, i: nat) {
    i + |w| <= |s| && s[i..i + |w|] == w
  }

  /** Substring test, `s.find(w) > -1`: true exactly when `w` occurs somewhere in `s`. */
  predicate Contains(s: string, w: string): (b: bool)
    ensures b <==> exists i: nat :: OccursAt(s, w, i)
    decreases |s|
  {
    if w <= s then
      assert OccursAt(s, w, 0);
      true
    else if s == [] then
      false
    else
      var b := Contains(s[1..], w);
      ContainsStep(s, w);
      b
  }

  /** Occurrences in `s` after its first character are the occurrences in its tail. */
  lemma OccursAtTail(s: string, w: string, i: nat)
    requires s != []
    ensures OccursAt(s, w, i + 1) <==> OccursAt(s[1..], w, i)
  {
    if i + 1 + |w| <= |s| {
      var direct, viaTail := s[i + 1..i + 1 + |w|], s[1..][i..i + |w|];
      assert forall k :: 0 <= k < |w| ==> direct[k] == viaTail[k];
      assert direct == viaTail;
    }
  }

  /** When `w` is not a prefix of `s`, it occurs in `s` exactly when it occurs in the tail. */
  lemma ContainsStep(s: string, w: string)
    requires s != [] && !(w <= s)
    ensures (exists i: nat :: OccursAt(s, w, i)) <==> exists i: nat :: OccursAt(s[1..], w, i)
  {
    if exists i: nat :: OccursAt(s, w, i) {
      var i: nat :| OccursAt(s, w, i);
      assert i != 0;
      OccursAtTail(s, w, i - 1);
    }
    if exists i: nat :: OccursAt(s[1..], w, i) {
      var i: nat :| OccursAt(s[1..], w, i);
      OccursAtTail(s, w, i);
    }
  }

  /** Number of leading characters of `s` that are in `cs`. */
  function LeadingIn(s: string, cs: set<char>): (k: nat)
    ensures k <= |s|
    ensures forall j :: 0 <= j < k ==> s[j] in cs
    ensures k < |s| ==> s[k] !in cs
  {
    if s != [] && s[0] in cs then 1 + LeadingIn(s[1..], cs) else 0
  }

  /** Number of trailing characters of `s` that are in `cs`. */
  function TrailingIn(s: string, cs: set<char>): (k: nat)
    ensures k <= |s|
    ensures forall j :: |s| - k <= j < |s| ==> s[j] in cs
    ensures k < |s| ==> s[|s| - k - 1] !in cs
  {
    if s != [] && s[|s| - 1] in cs then 1 + TrailingIn(s[..|s| - 1], cs) else 0
  }

  /** `s.strip(chars)`: the middle slice left once every leading and trailing character in
      `cs` is cut away; it neither starts nor ends with one of `cs`. */
  function Strip(s: string, cs: set<char>): (r: string)
    ensures LeadingIn(s, cs) + |r| <= |s|
    ensures r == s[LeadingIn(s, cs)..LeadingIn(s, cs) + |r|]
    ensures forall j :: LeadingIn(s, cs) + |r| <= j < |s| ==> s[j] in cs
    ensures r != [] ==> r[0] !in cs && r[|r| - 1] !in cs
  {
    var left := s[LeadingIn(s, cs)..];
    left[..|left| - TrailingIn(left, cs)]
  }

  /** Every character `strip` keeps is a character of its input. */
  lemma StripCharIn(s: string, cs: set<char>, c: char)
    requires c in Strip(s, cs)
    ensures c in s
  {
    var r := Strip(s, cs);
    var j :| 0 <= j < |r| && r[j] == c;
    assert r[j] == s[LeadingIn(s, cs) + j];
  }

  /** The line boundaries of `str.splitlines()`. */
  predicate IsLineBoundary(c: char) {
    c == '\n' || c == '\r' || c == '\U{0B}' || c == '\U{0C}' || c == '\U{1C}' || c == '\U{1D}'
    || c == '\U{1E}' || c == '\U{85}' || c == '\U{2028}' || c == '\U{2029}'
  }

  predicate NoBoundary(s: string) {
    forall i :: 0 <= i < |s| ==> !IsLineBoundary(s[i])
  }

  /** Index of the first line boundary in `s`, or |s|. */
  function FirstBoundary(s: string): (k: nat)
    ensures k <= |s| && NoBoundary(s[..k])
    ensures k < |s| ==> IsLineBoundary(s[k])
  {
    if s == [] then 0
    else if IsLineBoundary(s[0]) then 0
    else
      var k := FirstBoundary(s[1..]);
      assert s[..k + 1] == [s[0]] + s[1..][..k];
      k + 1
  }

  /** `str.splitlines()`: "\r\n" is one boundary, a final boundary adds no empty line. */
  function SplitLines(s: string): (r: seq<string>)
    ensures forall i :: 0 <= i < |r| ==> NoBoundary(r[i])
    decreases |s|
  {
    if s == [] then []
    else
      var k := FirstBoundary(s);
      if k == |s| then [s]
      else
        var next := if s[k] == '\r' && k + 1 < |s| && s[k + 1] == '\n' then k + 2 else k + 1;
        [s[..k]] + SplitLines(s[next..])
  }

  /** Each line followed by "\n". */
  function JoinLines(lines: seq<string>): string {
    if lines == [] then "" else lines[0] + "\n" + JoinLines(lines[1..])
  }

  /** Splitting text written one line per "\n" gives back exactly those lines. */
  lemma {:induction false} SplitLinesOfJoinLines(lines: seq<string>)
    requires forall i :: 0 <= i < |lines| ==> NoBoundary(lines[i])
    ensures SplitLines(JoinLines(lines)) == lines
  {
    if lines != [] {
      var l := lines[0];
      var rest := JoinLines(lines[1..]);
      var s := l + "\n" + rest;
      FirstBoundaryAt(l, "\n" + rest);
      assert s == l + ("\n" + rest);
      assert s[|l|] == '\n';
      assert s[..|l|] == l;
      assert s[|l| + 1..] == rest;
      SplitLinesOfJoinLines(lines[1..]);
    }
  }

  lemma FirstBoundaryAt(l: string, t: string)
    requires NoBoundary(l) && t != [] && IsLineBoundary(t[0])
    ensures FirstBoundary(l + t) == |l|
    decreases |l|
  {
    if l != [] {
      assert (l + t)[1..] == l[1..] + t;
      FirstBoundaryAt(l[1..], t);
    }
  }
}
