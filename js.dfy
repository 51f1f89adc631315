/** The small part of JavaScript's built-in behaviour that the audit pipeline
    relies on: falsy strings, `String.prototype.trim`, prefix-stripping regular
    expressions, `includes`, `Array.prototype.findIndex`, `Math.round` and the
    32-bit truncation done by `| 0`. */
module Js {

  datatype Option<+T> = None | Some(value: T)

  /** A string that may be null is truthy when present and non-empty. */
  predicate Truthy(s: Option<string>) {
    s.Some? && s.value != ""
  }

  /** `s || fallback` for a string that may be null. */
  function Or(s: Option<string>, fallback: string): string {
    if Truthy(s) then s.value else fallback
  }

  /** `s || null` for a string. */
  function NullIfEmpty(s: string): Option<string> {
    if s == "" then None else Some(s)
  }

  // ---------------------------------------------------------------------------
  // String.prototype.trim

  /** The WhiteSpace and LineTerminator code points that `trim` removes:
      tab, vertical tab, form feed, space, no-break space, the byte order mark,
      the other space separators, and the four line terminators. */
  predicate IsSpace(c: char) {
    c == '\t' || c == '\n' || c == '\U{B}' || c == '\U{C}' || c == '\r' || c == ' '
    || c == '\U{A0}' || c == '\U{1680}' || ('\U{2000}' <= c <= '\U{200A}')
    || c == '\U{2028}' || c == '\U{2029}' || c == '\U{202F}' || c == '\U{205F}'
    || c == '\U{3000}' || c == '\U{FEFF}'
  }

  predicate AllSpace(s: string) {
    forall k :: 0 <= k < |s| ==> IsSpace(s[k])
  }

  /** Number of leading white-space characters. */
  function LeadingSpace(s: string): (n: nat)
    ensures n <= |s|
    ensures AllSpace(s[..n])
    ensures n < |s| ==> !IsSpace(s[n])
  {
    if s == [] || !IsSpace(s[0]) then 0 else 1 + LeadingSpace(s[1..])
  }

  /** Number of trailing white-space characters. */
  function TrailingSpace(s: string): (n: nat)
    ensures n <= |s|
    ensures AllSpace(s[|s| - n..])
    ensures n < |s| ==> !IsSpace(s[|s| - 1 - n])
  {
    if s == [] || !IsSpace(s[|s| - 1]) then 0 else 1 + TrailingSpace(s[..|s| - 1])
  }

  /** `s.trim()`: the slice of `s` left after removing white space at both ends. */
  function Trim(s: string): (r: string)
    ensures r == "" <==> AllSpace(s)
    ensures r != "" ==> !IsSpace(r[0]) && !IsSpace(r[|r| - 1])
    ensures var a := LeadingSpace(s);
      a + |r| <= |s| && r == s[a..a + |r|] && AllSpace(s[a + |r|..])
  {
    var a := LeadingSpace(s);
    var t := s[a..];
    var b := TrailingSpace(t);
    TrimmedIsEmpty(s, a, b);
    TrimmedSlice(s, a, t[..|t| - b]);
    t[..|t| - b]
  }

  /** Nothing is left exactly when `s` is all white space. */
  lemma TrimmedIsEmpty(s: string, a: nat, b: nat)
    requires a == LeadingSpace(s) && b == TrailingSpace(s[a..])
    ensures a + b <= |s| && (a + b == |s| <==> AllSpace(s))
  {
    if a + b == |s| {
      forall k | 0 <= k < |s| ensures IsSpace(s[k]) {
        assert s[k] == s[..a][k];
      }
    } else {
      assert !IsSpace(s[a]);
    }
  }

  /** A prefix of `s[a..]` is the slice of `s` starting at `a`, and what
      follows it in `s` is what follows it in `s[a..]`. */
  lemma TrimmedSlice(s: string, a: nat, r: string)
    requires a <= |s| && |r| <= |s| - a && r == s[a..][..|r|]
    ensures r == s[a..a + |r|] && s[a + |r|..] == s[a..][|r|..]
  {
  }

  // ---------------------------------------------------------------------------
  // Case-insensitive prefixes (`/^...$/i` on ASCII patterns) and `toLowerCase`

  /** ASCII lower-casing of one character. */
  function LowerChar(c: char): char {
    if 'A' <= c <= 'Z' then (c as int + 32) as char else c
  }

  /** `s.toLowerCase()`, restricted to ASCII letters. */
  function Lower(s: string): (r: string)
    ensures |r| == |s|
    ensures forall k :: 0 <= k < |s| ==> r[k] == LowerChar(s[k])
  {
    if s == [] then [] else [LowerChar(s[0])] + Lower(s[1..])
  }

  /** `s` begins with the lower-case ASCII word `p`, ignoring case. */
  predicate StartsWithIgnoringCase(s: string, p: string) {
    |p| <= |s| && forall k :: 0 <= k < |p| ==> LowerChar(s[k]) == p[k]
  }

  /** `s.replace(/^https?:\/\//i, '')`. */
  function StripScheme(s: string): string {
    if StartsWithIgnoringCase(s, "https://") then s[8..]
    else if StartsWithIgnoringCase(s, "http://") then s[7..]
    else s
  }

  /** `s.replace(/^www\./i, '')`. */
  function StripWwwIgnoringCase(s: string): string {
    if StartsWithIgnoringCase(s, "www.") then s[4..] else s
  }

  /** `s.replace(/^www\./, '')`, case-sensitive. */
  function StripWww(s: string): string {
    if |s| >= 4 && s[..4] == "www." then s[4..] else s
  }

  /** `s.split('/')[0]`: everything before the first slash. */
  function BeforeSlash(s: string): (r: string)
    ensures '/' !in r
    ensures |r| <= |s| && r == s[..|r|]
    ensures |r| < |s| ==> s[|r|] == '/'
  {
    if s == [] || s[0] == '/' then [] else [s[0]] + BeforeSlash(s[1..])
  }

  // ---------------------------------------------------------------------------
  // String.prototype.includes and Array.prototype.findIndex

  /** `sub` occurs in `s` at offset `i`. */
  predicate OccursAt(s: string, sub: string, i: int) {
    0 <= i && i + |sub| <= |s| && s[i..i + |sub|] == sub
  }

  /** `s.includes(sub)`, scanning from the left. */
  function Contains(s: string, sub: string): bool
    decreases |s|
  {
    if |sub| > |s| then false
    else s[..|sub|] == sub || (|s| > 0 && Contains(s[1..], sub))
  }

  /** `includes` holds exactly when `sub` occurs at some offset of `s`. */
  lemma {:induction false} ContainsIffOccurs(s: string, sub: string)
    ensures Contains(s, sub) <==> exists i :: OccursAt(s, sub, i)
    decreases |s|
  {
    if |sub| <= |s| && |s| > 0 {
      ContainsIffOccurs(s[1..], sub);
      if s[..|sub|] == sub {
        assert OccursAt(s, sub, 0);
      } else if Contains(s[1..], sub) {
        var i :| OccursAt(s[1..], sub, i);
        assert s[i + 1..i + 1 + |sub|] == s[1..][i..i + |sub|];
        assert OccursAt(s, sub, i + 1);
      } else if exists i :: OccursAt(s, sub, i) {
        var i :| OccursAt(s, sub, i);
        assert i != 0;
        assert s[1..][i - 1..i - 1 + |sub|] == s[i..i + |sub|];
        assert OccursAt(s[1..], sub, i - 1);
      }
    } else if |sub| <= |s| {
      assert OccursAt(s, sub, 0);
    }
  }

  /** `s.findIndex(p)`: the index of the first element satisfying `p`, or -1. */
  function FindIndex<T>(s: seq<T>, p: T -> bool): (r: int)
    ensures -1 <= r < |s|
    ensures r >= 0 ==> p(s[r]) && forall j :: 0 <= j < r ==> !p(s[j])
    ensures r == -1 <==> forall j :: 0 <= j < |s| ==> !p(s[j])
  {
    if s == [] then -1
    else if p(s[0]) then 0
    else
      var k := FindIndex(s[1..], p);
      assert forall j :: 1 <= j < |s| ==> s[j] == s[1..][j - 1];
      if k < 0 then -1 else k + 1
  }

  // ---------------------------------------------------------------------------
  // Numbers

  /** `Math.round(x)`: the integer nearest to `x`, halves rounded up. */
  function Round(x: real): int {
    (x + 0.5).Floor
  }

  lemma RoundIsNearest(x: real)
    ensures x - 0.5 < Round(x) as real <= x + 0.5
  {
  }

  lemma RoundOfInt(n: int)
    ensures Round(n as real) == n
  {
  }

  lemma RoundMonotone(x: real, y: real)
    requires x <= y
    ensures Round(x) <= Round(y)
  {
  }

  const TwoTo31: int := 0x8000_0000
  const TwoTo32: int := 0x1_0000_0000

  predicate IsInt32(x: int) {
    -TwoTo31 <= x < TwoTo31
  }

  /** ECMAScript ToInt32 on an integer: the value congruent to `x` modulo 2^32
      in [-2^31, 2^31); `x | 0` and the result of `<<` are computed this way. */
  function ToInt32(x: int): (r: int)
    ensures IsInt32(r)
    ensures (x - r) % TwoTo32 == 0
  {
    var m := x % TwoTo32;
    if m >= TwoTo31 then m - TwoTo32 else m
  }

  /** ToInt32 depends only on the value modulo 2^32. */
  lemma ToInt32Congruent(x: int, y: int)
    requires (x - y) % TwoTo32 == 0
    ensures ToInt32(x) == ToInt32(y)
  {
    var rx, ry := ToInt32(x), ToInt32(y);
    assert (rx - ry) % TwoTo32 == 0 by {
      assert rx - ry == (x - y) - (x - rx) + (y - ry);
    }
  }

  lemma ToInt32OfInt32(x: int)
    requires IsInt32(x)
    ensures ToInt32(x) == x
  {
  }

  /** `Math.abs` on an integer. */
  function Abs(x: int): nat {
    if x < 0 then -x else x
  }
}
