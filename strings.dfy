/**
 * The JavaScript string operations the handlers rely on, over `seq<char>`:
 * `startsWith`, `lastIndexOf`, `indexOf`, `replace` with a string pattern,
 * and the decimal rendering of an integer.
 */
module Strings {

  function Min(a: int, b: int): int { if a <= b then a else b }

  /** `s.startsWith(p)` */
  predicate StartsWith(s: string, p: string) {
    |p| <= |s| && s[..|p|] == p
  }

  /** `pat` occurs in `s` at position `i`. */
  predicate OccursAt(s: string, pat: string, i: int) {
    0 <= i && i + |pat| <= |s| && s[i..i + |pat|] == pat
  }

  predicate Contains(s: string, pat: string) {
    exists i :: 0 <= i <= |s| && OccursAt(s, pat, i)
  }

  /** `i` is the leftmost occurrence of `pat` in `s`. */
  predicate FirstOccurrence(s: string, pat: string, i: int) {
    OccursAt(s, pat, i) && forall j :: 0 <= j < i ==> !OccursAt(s, pat, j)
  }

  /** `s.lastIndexOf(c)`: the position of the last `c` in `s`, or -1 when there is none. */
  function LastIndexOf(s: string, c: char): (r: int)
    ensures -1 <= r < |s|
    ensures r >= 0 ==> s[r] == c
    ensures forall i :: r < i < |s| ==> s[i] != c
  {
    if |s| == 0 then -1
    else if s[|s| - 1] == c then |s| - 1
    else LastIndexOf(s[..|s| - 1], c)
  }

  /** `s.indexOf(pat)`: the leftmost occurrence of `pat`, or -1. */
  function IndexOf(s: string, pat: string): (r: int)
    ensures r == -1 || FirstOccurrence(s, pat, r)
    ensures r == -1 <==> !Contains(s, pat)
  {
    IndexFrom(s, pat, 0)
  }

  function IndexFrom(s: string, pat: string, k: nat): (r: int)
    requires forall j :: 0 <= j < k ==> !OccursAt(s, pat, j)
    ensures r == -1 || FirstOccurrence(s, pat, r)
    ensures r == -1 ==> forall j :: !OccursAt(s, pat, j)
    decreases |s| - k
  {
    if k + |pat| > |s| then -1
    else if s[k..k + |pat|] == pat then k
    else IndexFrom(s, pat, k + 1)
  }

  /** `s.replace(pat, rep)` with a string pattern: only the leftmost occurrence is replaced. */
  function ReplaceFirst(s: string, pat: string, rep: string): (r: string)
    ensures !Contains(s, pat) ==> r == s
    ensures forall i :: FirstOccurrence(s, pat, i) ==> r == s[..i] + rep + s[i + |pat|..]
  {
    var i := IndexOf(s, pat);
    if i == -1 then s else s[..i] + rep + s[i + |pat|..]
  }

  /** A pattern at the very start is the one `replace` replaces. */
  lemma ReplaceAtStart(pat: string, rest: string, rep: string)
    ensures ReplaceFirst(pat + rest, pat, rep) == rep + rest
  {
    var s := pat + rest;
    assert FirstOccurrence(s, pat, 0);
    assert s[|pat|..] == rest;
  }

  /** The index of the first of `keys` that is not in `present`, or -1 when all are. */
  function FirstAbsent(keys: seq<string>, present: set<string>): (r: int)
    ensures -1 <= r < |keys|
    ensures r >= 0 ==> keys[r] !in present
    ensures forall j :: 0 <= j < |keys| && (r == -1 || j < r) ==> keys[j] in present
  {
    if keys == [] then -1
    else if keys[0] !in present then 0
    else
      var r := FirstAbsent(keys[1..], present);
      if r == -1 then -1 else r + 1
  }

  predicate IsDigit(c: char) { '0' <= c <= '9' }

  function DigitChar(d: nat): (c: char)
    requires d < 10
    ensures IsDigit(c) && c as int - '0' as int == d
  {
    (d + '0' as int) as char
  }

  /** The decimal rendering JavaScript gives a non-negative integer: no sign, no leading zero. */
  function NatToString(n: nat): (r: string)
    ensures |r| >= 1
    ensures forall i :: 0 <= i < |r| ==> IsDigit(r[i])
    ensures (r[0] == '0') == (n == 0)
    decreases n
  {
    if n < 10 then [DigitChar(n)] else NatToString(n / 10) + [DigitChar(n % 10)]
  }

  /** The number a string of decimal digits denotes. */
  function DigitsValue(s: string): nat
    requires forall i :: 0 <= i < |s| ==> IsDigit(s[i])
  {
    if s == [] then 0
    else
      assert IsDigit(s[|s| - 1]);
      DigitsValue(s[..|s| - 1]) * 10 + (s[|s| - 1] as int - '0' as int)
  }

  /** Reading back a rendered number gives the number. */
  lemma {:induction false} NatToStringRoundTrip(n: nat)
    ensures DigitsValue(NatToString(n)) == n
    decreases n
  {
    if n >= 10 {
      NatToStringRoundTrip(n / 10);
      var s := NatToString(n);
      assert s[..|s| - 1] == NatToString(n / 10);
    }
  }

  /** `"" + i` for an integer `i`: a minus sign before the digits of a negative number. */
  function IntToString(i: int): (r: string)
    ensures |r| >= 1
    ensures i < 0 <==> r[0] == '-'
    ensures i >= 0 ==> r == NatToString(i)
    ensures i < 0 ==> r[1..] == NatToString(-i)
  {
    if i < 0 then "-" + NatToString(-i) else NatToString(i)
  }
}
