/**
 * String helpers shared by every stage of the pipeline: the handful of
 * Python `str` operations the core relies on (`sub in s`, `s.find(sub)`,
 * `s.lower()`, `s.strip()`, `s.split('\n')`, `s.split()`), stated on
 * `seq<char>`. Whitespace is Python's full set; letters and digits are the
 * ASCII ones.
 */
module Text {

  /** Python's `str.isspace()` on one character: tab to carriage return,
      the four information separators, the space, next-line, no-break
      space and the other Unicode space separators. */
  predicate IsSpace(c: char) {
    || '\U{0009}' <= c <= '\U{000D}' || '\U{001C}' <= c <= '\U{0020}'
    || c == '\U{0085}' || c == '\U{00A0}' || c == '\U{1680}'
    || '\U{2000}' <= c <= '\U{200A}' || c == '\U{2028}' || c == '\U{2029}'
    || c == '\U{202F}' || c == '\U{205F}' || c == '\U{3000}'
  }

  /** An ASCII decimal digit. */
  predicate IsDigit(c: char) {
    '0' <= c <= '9'
  }

  predicate IsUpper(c: char) {
    'A' <= c <= 'Z'
  }

  predicate IsLower(c: char) {
    'a' <= c <= 'z'
  }

  function LowerChar(c: char): char {
    if IsUpper(c) then (c as int + 32) as char else c
  }

  function UpperChar(c: char): char {
    if IsLower(c) then (c as int - 32) as char else c
  }

  /** `s.lower()` */
  function Lower(s: string): (r: string)
    ensures |r| == |s|
    ensures forall i :: 0 <= i < |s| ==> r[i] == LowerChar(s[i])
  {
    seq(|s|, i requires 0 <= i < |s| => LowerChar(s[i]))
  }

  // ---------------------------------------------------------------------
  // Substring search

  /** `sub` occurs in `s` starting at index `i`. */
  predicate OccursAt(s: string, sub: string, i: int) {
    0 <= i && i + |sub| <= |s| && s[i..i + |sub|] == sub
  }

  /** `s.find(sub, i)`: the first occurrence at or after `i`, or -1. */
  function FindFrom(s: string, sub: string, i: nat): (r: int)
    requires i <= |s|
    ensures r == -1 || (i <= r && OccursAt(s, sub, r))
    ensures r == -1 ==> forall j :: i <= j ==> !OccursAt(s, sub, j)
    ensures r != -1 ==> forall j :: i <= j < r ==> !OccursAt(s, sub, j)
    decreases |s| - i
  {
    if i + |sub| > |s| then -1
    else if s[i..i + |sub|] == sub then i
    else FindFrom(s, sub, i + 1)
  }

  /** `s.find(sub)` */
  function Find(s: string, sub: string): (r: int)
    ensures r == -1 || OccursAt(s, sub, r)
    ensures r == -1 <==> forall j :: !OccursAt(s, sub, j)
    ensures r != -1 ==> forall j :: 0 <= j < r ==> !OccursAt(s, sub, j)
  {
    FindFrom(s, sub, 0)
  }

  /** `sub in s` */
  predicate Contains(s: string, sub: string) {
    Find(s, sub) != -1
  }

  /** `any(k in s for k in keys)` */
  predicate ContainsAny(s: string, keys: seq<string>) {
    exists k :: k in keys && Contains(s, k)
  }

  /** A piece of a piece of `t` is a piece of `t`. */
  lemma OccursWithin(t: string, s: string, i: nat, u: string, j: nat)
    requires OccursAt(t, s, i) && OccursAt(s, u, j)
    ensures OccursAt(t, u, i + j)
  {
    forall k | 0 <= k < |u| ensures t[i + j + k] == u[k] {
      assert t[i..i + |s|][j + k] == s[j + k];
      assert s[j..j + |u|][k] == u[k];
    }
  }

  /** A substring of `t` that contains `sub` makes `t` contain `sub`. */
  lemma ContainsWithin(s: string, t: string, i: nat, sub: string)
    requires OccursAt(t, s, i) && Contains(s, sub)
    ensures Contains(t, sub)
  {
    OccursWithin(t, s, i, sub, Find(s, sub));
  }

  /** Python's `s[a:b]` for non-negative `a` and `b`: both ends are clamped to the string
      and an empty range gives the empty string. */
  function Slice(s: string, a: nat, b: nat): (r: string)
    ensures |r| <= |s|
    ensures a <= b <= |s| ==> r == s[a..b]
    ensures r == [] || OccursAt(s, r, a)
  {
    var hi := if b < |s| then b else |s|;
    if a < hi then s[a..hi] else []
  }

  // ---------------------------------------------------------------------
  // Stripping whitespace

  /** The first index at or after `i` that does not hold whitespace. */
  function SkipSpaces(s: string, i: nat): (k: nat)
    requires i <= |s|
    ensures i <= k <= |s|
    decreases |s| - i
  {
    if i < |s| && IsSpace(s[i]) then SkipSpaces(s, i + 1) else i
  }

  /** The end of `s[a..j]` once trailing whitespace is dropped. */
  function EndSpaces(s: string, a: nat, j: nat): (k: nat)
    requires a <= j <= |s|
    ensures a <= k <= j
  {
    if j > a && IsSpace(s[j - 1]) then EndSpaces(s, a, j - 1) else j
  }

  /** `s.strip()` */
  function Strip(s: string): (r: string)
    ensures |r| <= |s|
  {
    var a := SkipSpaces(s, 0);
    s[a..EndSpaces(s, a, |s|)]
  }

  lemma {:induction false} SkipSpacesShape(s: string, i: nat)
    requires i <= |s|
    ensures var k := SkipSpaces(s, i);
      (k == |s| || !IsSpace(s[k])) && forall j :: i <= j < k ==> IsSpace(s[j])
    decreases |s| - i
  {
    if i < |s| && IsSpace(s[i]) {
      SkipSpacesShape(s, i + 1);
    }
  }

  lemma {:induction false} EndSpacesShape(s: string, a: nat, j: nat)
    requires a <= j <= |s|
    ensures var k := EndSpaces(s, a, j);
      (k == a || !IsSpace(s[k - 1])) && forall m :: k <= m < j ==> IsSpace(s[m])
  {
    if j > a && IsSpace(s[j - 1]) {
      EndSpacesShape(s, a, j - 1);
    }
  }

  /** `s.strip()` is the piece of `s` between its leading and its trailing
      whitespace: it neither starts nor ends with whitespace, and only
      whitespace was removed. */
  lemma StripShape(s: string)
    ensures var a := SkipSpaces(s, 0);
      var b := EndSpaces(s, a, |s|);
      && Strip(s) == s[a..b]
      && (forall i :: 0 <= i < a ==> IsSpace(s[i]))
      && (forall i :: b <= i < |s| ==> IsSpace(s[i]))
      && (Strip(s) == [] || (!IsSpace(Strip(s)[0]) && !IsSpace(Strip(s)[|Strip(s)| - 1])))
  {
    var a := SkipSpaces(s, 0);
    SkipSpacesShape(s, 0);
    EndSpacesShape(s, a, |s|);
  }

  /** The stripped string is a piece of the original. */
  lemma StripOccurs(s: string)
    ensures OccursAt(s, Strip(s), SkipSpaces(s, 0))
  {
  }

  /** `not s.strip()`: every character is whitespace. */
  predicate IsBlank(s: string) {
    forall i :: 0 <= i < |s| ==> IsSpace(s[i])
  }

  /** A string strips to the empty string exactly when it is blank. */
  lemma StripEmptyIffBlank(s: string)
    ensures Strip(s) == [] <==> IsBlank(s)
  {
    StripShape(s);
    var a := SkipSpaces(s, 0);
    var b := EndSpaces(s, a, |s|);
    if Strip(s) == [] {
      assert a == b;
      forall i | 0 <= i < |s| ensures IsSpace(s[i]) {
      }
    } else {
      assert !IsSpace(s[a]);
    }
  }

  /** A string that neither starts nor ends with whitespace is its own strip. */
  lemma StripNoop(s: string)
    requires s == [] || (!IsSpace(s[0]) && !IsSpace(s[|s| - 1]))
    ensures Strip(s) == s
  {
    var a := SkipSpaces(s, 0);
    assert a == 0;
    assert EndSpaces(s, a, |s|) == |s|;
  }

  /** Stripping twice is stripping once. */
  lemma StripIdempotent(s: string)
    ensures Strip(Strip(s)) == Strip(s)
  {
    StripShape(s);
    StripNoop(Strip(s));
  }

  // ---------------------------------------------------------------------
  // Splitting

  /** `s.split(sep)` for a one-character separator: never empty, and no
      piece contains the separator. */
  function SplitOn(s: string, sep: char): (r: seq<string>)
    ensures |r| >= 1
    ensures forall k, i :: 0 <= k < |r| && 0 <= i < |r[k]| ==> r[k][i] != sep
  {
    SplitFrom(s, sep, 0)
  }

  /** `sep.join(xs)` for a one-character separator. */
  function Join(xs: seq<string>, sep: char): string {
    if |xs| == 0 then ""
    else if |xs| == 1 then xs[0]
    else xs[0] + [sep] + Join(xs[1..], sep)
  }

  /** Joining the pieces of `s.split(sep)` with `sep` gives `s` back. */
  lemma SplitOnJoins(s: string, sep: char)
    ensures Join(SplitOn(s, sep), sep) == s
  {
    SplitFromJoins(s, sep, 0);
  }

  lemma {:induction false} SplitFromJoins(s: string, sep: char, i: nat)
    requires i <= |s|
    requires forall j :: 0 <= j < i ==> s[j] != sep
    ensures Join(SplitFrom(s, sep, i), sep) == s
    decreases |s| - i
  {
    if i == |s| {
    } else if s[i] == sep {
      var rest := SplitFrom(s[i + 1..], sep, 0);
      SplitFromJoins(s[i + 1..], sep, 0);
      assert SplitFrom(s, sep, i) == [s[..i]] + rest;
      assert s == s[..i] + [sep] + s[i + 1..];
    } else {
      SplitFromJoins(s, sep, i + 1);
    }
  }

  function SplitFrom(s: string, sep: char, i: nat): (r: seq<string>)
    requires i <= |s|
    requires forall j :: 0 <= j < i ==> s[j] != sep
    ensures |r| >= 1
    ensures forall k, j :: 0 <= k < |r| && 0 <= j < |r[k]| ==> r[k][j] != sep
    decreases |s| - i
  {
    if i == |s| then [s]
    else if s[i] == sep then [s[..i]] + SplitFrom(s[i + 1..], sep, 0)
    else SplitFrom(s, sep, i + 1)
  }
}
