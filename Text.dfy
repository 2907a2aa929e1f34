/**
 * The JavaScript string operations the handlers use, over `seq<char>`: `trim`,
 * `indexOf` / `lastIndexOf` of one character, `split(sep)[0]`, and a global
 * `replace` of a literal pattern.
 */
module Text {
  import opened Base

  /**
   * The whitespace `trim` removes: ECMAScript's WhiteSpace and LineTerminator code points.
   * Tab, line feed, vertical tab, form feed, carriage return, the byte-order mark, the
   * line and paragraph separators, and the space separators: space, no-break space,
   * ogham space mark, en quad through hair space, narrow no-break space, medium
   * mathematical space and ideographic space.
   */
  predicate IsSpace(c: char)
  {
    || c == '\t' || c == '\n' || c == '\U{0B}' || c == '\U{0C}' || c == '\r' || c == '\U{FEFF}'
    || c == '\U{2028}' || c == '\U{2029}'
    || c == ' ' || c == '\U{A0}' || c == '\U{1680}' || ('\U{2000}' <= c <= '\U{200A}')
    || c == '\U{202F}' || c == '\U{205F}' || c == '\U{3000}'
  }

  /** How many whitespace characters `s` begins with. */
  function LeadingSpaces(s: string): (n: nat)
    ensures n <= |s|
    ensures forall i :: 0 <= i < n ==> IsSpace(s[i])
    ensures n == |s| || !IsSpace(s[n])
  {
    if s != [] && IsSpace(s[0]) then 1 + LeadingSpaces(s[1..]) else 0
  }

  /** How many whitespace characters `s` ends with. */
  function TrailingSpaces(s: string): (n: nat)
    ensures n <= |s|
    ensures forall i :: |s| - n <= i < |s| ==> IsSpace(s[i])
    ensures n == |s| || !IsSpace(s[|s| - n - 1])
  {
    if s != [] && IsSpace(s[|s| - 1]) then 1 + TrailingSpaces(s[..|s| - 1]) else 0
  }

  /** `s.trimStart()`: `s` after its leading whitespace. */
  function TrimStart(s: string): string
  {
    s[LeadingSpaces(s)..]
  }

  /** `s.trimEnd()`: `s` before its trailing whitespace. */
  function TrimEnd(s: string): string
  {
    s[..|s| - TrailingSpaces(s)]
  }

  /** `s.trim()`: `s` without its leading and trailing whitespace. */
  function Trim(s: string): (r: string)
    ensures r == [] || (!IsSpace(r[0]) && !IsSpace(r[|r| - 1]))
  {
    TrimEnd(TrimStart(s))
  }

  /** What `trim` keeps is the stretch of `s` after its leading whitespace. */
  lemma TrimSlice(s: string)
    ensures OccursAt(s, Trim(s), LeadingSpaces(s))
  {
    var n := LeadingSpaces(s);
    var t := s[n..];
    SliceOfSlice(s, n, |s|, 0, |Trim(s)|);
    assert t == s[n..|s|];
  }

  /** `pat` occurs in `s` starting at index `i`. */
  predicate OccursAt(s: string, pat: string, i: int)
  {
    0 <= i && i + |pat| <= |s| && s[i..i + |pat|] == pat
  }

  /** `s.includes(pat)`. */
  predicate Occurs(s: string, pat: string)
  {
    exists i | 0 <= i <= |s| :: OccursAt(s, pat, i)
  }

  /** An occurrence inside a slice is an occurrence in the whole string. */
  lemma OccursInSlice(s: string, lo: nat, hi: nat, pat: string)
    requires lo <= hi <= |s|
    requires Occurs(s[lo..hi], pat)
    ensures Occurs(s, pat)
  {
    var i :| 0 <= i <= hi - lo && OccursAt(s[lo..hi], pat, i);
    SliceOfSlice(s, lo, hi, i, i + |pat|);
    assert OccursAt(s, pat, lo + i);
  }

  /** An occurrence inside a substring is an occurrence in the whole string. */
  lemma OccursWithin(s: string, t: string, pat: string)
    requires Occurs(s, t) && Occurs(t, pat)
    ensures Occurs(s, pat)
  {
    var i :| 0 <= i <= |s| && OccursAt(s, t, i);
    assert t == s[i..i + |t|];
    OccursInSlice(s, i, i + |t|, pat);
  }

  lemma SliceOfSlice(s: string, lo: nat, hi: nat, a: nat, b: nat)
    requires lo <= hi <= |s| && a <= b <= hi - lo
    ensures s[lo..hi][a..b] == s[lo + a..lo + b]
  {
    assert forall k :: 0 <= k < b - a ==> s[lo..hi][a..b][k] == s[lo + a + k];
  }

  /**
   * `s.replace(/pat/g, rep)` for a literal pattern: occurrences are found left to
   * right, each replaced occurrence is skipped over, so matches never overlap.
   */
  function ReplaceAll(s: string, pat: string, rep: string): string
    requires |pat| > 0
    decreases |s|
  {
    if |s| < |pat| then s
    else if s[..|pat|] == pat then rep + ReplaceAll(s[|pat|..], pat, rep)
    else [s[0]] + ReplaceAll(s[1..], pat, rep)
  }

  /** Replacing a pattern that does not occur changes nothing. */
  lemma {:induction false} ReplaceAbsent(s: string, pat: string, rep: string)
    requires |pat| > 0 && !Occurs(s, pat)
    ensures ReplaceAll(s, pat, rep) == s
    decreases |s|
  {
    if |s| >= |pat| {
      assert !OccursAt(s, pat, 0);
      assert !Occurs(s[1..], pat) by {
        if Occurs(s[1..], pat) {
          assert s[1..] == s[1..|s|];
          OccursInSlice(s, 1, |s|, pat);
        }
      }
      ReplaceAbsent(s[1..], pat, rep);
    }
  }

  /** `s.indexOf(c)`, with None for -1. */
  function FirstIndex(s: string, c: char): (r: Option<nat>)
    ensures r.Some? ==> r.value < |s| && s[r.value] == c && c !in s[..r.value]
    ensures r.None? <==> c !in s
  {
    if s == [] then None
    else if s[0] == c then Some(0)
    else
      match FirstIndex(s[1..], c)
      case None => None
      case Some(i) =>
        assert s[..i + 1] == [s[0]] + s[1..][..i];
        Some(i + 1)
  }

  /** `s.lastIndexOf(c)`, with None for -1. */
  function LastIndex(s: string, c: char): (r: Option<nat>)
    ensures r.Some? ==> r.value < |s| && s[r.value] == c && c !in s[r.value + 1..]
    ensures r.None? <==> c !in s
  {
    if s == [] then None
    else if s[|s| - 1] == c then Some(|s| - 1)
    else
      match LastIndex(s[..|s| - 1], c)
      case None =>
        assert s == s[..|s| - 1] + [s[|s| - 1]];
        None
      case Some(i) =>
        assert s[i + 1..] == s[..|s| - 1][i + 1..] + [s[|s| - 1]];
        Some(i)
  }

  /** `s.split(sep)[0]`: everything before the first `sep`, or all of `s`. */
  function BeforeFirst(s: string, sep: char): (r: string)
    ensures sep !in r
    ensures |r| <= |s| && r == s[..|r|]
    ensures |r| < |s| ==> s[|r|] == sep
  {
    match FirstIndex(s, sep)
    case None => s
    case Some(i) => s[..i]
  }
}
