/**
 * The subset of Python's `str` and `int` behaviour that the system relies on:
 * `strip`, `split`, `join`, `splitlines`, `lower`, `startswith`, `endswith`,
 * `in`, `isdigit`, `isupper`, `int(s)` and `str(n)`.
 * Strings are sequences of characters; case mapping covers ASCII letters only.
 */
module PyText {
  import opened Wrappers

  /** Python truthiness of an optional string: present and non-empty. */
  predicate Truthy(s: Option<string>) { s.Some? && s.value != "" }

  // ---------------------------------------------------------------------------
  // Character classes
  // ---------------------------------------------------------------------------

  predicate IsDigit(c: char) { '0' <= c <= '9' }
  predicate IsUpperLetter(c: char) { 'A' <= c <= 'Z' }
  predicate IsLowerLetter(c: char) { 'a' <= c <= 'z' }
  predicate IsAlnum(c: char) { IsDigit(c) || IsUpperLetter(c) || IsLowerLetter(c) }

  /** The characters for which Python's `str.isspace()` holds. */
  predicate IsSpace(c: char) {
    c == ' ' || c == '\t' || c == '\n' || c == '\r' || c == '\U{000B}' || c == '\U{000C}'
    || ('\U{001C}' <= c <= '\U{001F}') || c == '\U{0085}' || c == '\U{00A0}' || c == '\U{1680}'
    || ('\U{2000}' <= c <= '\U{200A}') || c == '\U{2028}' || c == '\U{2029}' || c == '\U{202F}'
    || c == '\U{205F}' || c == '\U{3000}'
  }

  /** The line boundaries recognised by Python's `str.splitlines()` (besides "\r\n"). */
  predicate IsLineBreak(c: char) {
    c == '\n' || c == '\r' || c == '\U{000B}' || c == '\U{000C}' || c == '\U{001C}'
    || c == '\U{001D}' || c == '\U{001E}' || c == '\U{0085}' || c == '\U{2028}' || c == '\U{2029}'
  }

  predicate AllDigits(s: string) { forall i :: 0 <= i < |s| ==> IsDigit(s[i]) }

  /** Python's `s.isdigit()` for ASCII text: non-empty and every character one of 0-9. */
  predicate IsDigitString(s: string) { |s| > 0 && AllDigits(s) }

  /** Python's `s.isalnum()` for ASCII text. */
  predicate IsAlnumString(s: string) { |s| > 0 && forall i :: 0 <= i < |s| ==> IsAlnum(s[i]) }

  /** Python's `s.isupper()` for ASCII text: some letter, and no lower-case letter. */
  predicate IsUpperString(s: string) {
    (exists i :: 0 <= i < |s| && IsUpperLetter(s[i]))
    && forall i :: 0 <= i < |s| ==> !IsLowerLetter(s[i])
  }

  // ---------------------------------------------------------------------------
  // Prefixes, suffixes, substrings
  // ---------------------------------------------------------------------------

  predicate StartsWith(s: string, p: string) { |p| <= |s| && s[..|p|] == p }
  predicate EndsWith(s: string, p: string) { |p| <= |s| && s[|s| - |p|..] == p }

  /** Python's `sub in s`. */
  predicate Contains(s: string, sub: string)
    decreases |s|
  {
    StartsWith(s, sub) || (s != [] && Contains(s[1..], sub))
  }

  /** A substring of a substring is a substring. */
  lemma {:induction false} ContainsTransitive(s: string, mid: string, sub: string)
    requires Contains(s, mid) && Contains(mid, sub)
    ensures Contains(s, sub)
    decreases |s|
  {
    if StartsWith(s, mid) {
      ContainsInPrefix(s, mid, sub);
    } else {
      ContainsTransitive(s[1..], mid, sub);
    }
  }

  lemma {:induction false} ContainsInPrefix(s: string, p: string, sub: string)
    requires StartsWith(s, p) && Contains(p, sub)
    ensures Contains(s, sub)
    decreases |p|
  {
    if StartsWith(p, sub) {
      assert s[..|sub|] == p[..|sub|];
    } else {
      assert p != [];
      assert s[1..][..|p| - 1] == p[1..];
      ContainsInPrefix(s[1..], p[1..], sub);
    }
  }

  /** Python's `s.lower()` on ASCII letters. */
  function Lower(s: string): (r: string)
    ensures |r| == |s|
    ensures forall i :: 0 <= i < |s| ==> r[i] == LowerChar(s[i])
  {
    if s == [] then [] else [LowerChar(s[0])] + Lower(s[1..])
  }

  function LowerChar(c: char): char {
    if IsUpperLetter(c) then (c as int - 'A' as int + 'a' as int) as char else c
  }

  // ---------------------------------------------------------------------------
  // strip
  // ---------------------------------------------------------------------------

  function StripLeft(s: string): (r: string)
    ensures |r| <= |s|
  {
    if s != [] && IsSpace(s[0]) then StripLeft(s[1..]) else s
  }

  function StripRight(s: string): (r: string)
    ensures |r| <= |s|
  {
    if s != [] && IsSpace(s[|s| - 1]) then StripRight(s[..|s| - 1]) else s
  }

  /** Python's `s.strip()`: the longest infix with no white space at either end. */
  function Strip(s: string): string {
    StripRight(StripLeft(s))
  }

  lemma StripUnchanged(s: string)
    requires s == [] || (!IsSpace(s[0]) && !IsSpace(s[|s| - 1]))
    ensures Strip(s) == s
  {
  }

  // ---------------------------------------------------------------------------
  // split, join, splitlines
  // ---------------------------------------------------------------------------

  /** Index of the first `c` in `s`, or |s| when there is none. */
  function IndexOf(s: string, c: char): (k: nat)
    ensures k <= |s| && (k < |s| ==> s[k] == c)
  {
    if s == [] then 0 else if s[0] == c then 0 else 1 + IndexOf(s[1..], c)
  }

  /** IndexOf finds the first occurrence. */
  lemma {:induction false} IndexOfFirst(s: string, c: char, k: nat)
    requires k < |s| && s[k] == c
    requires forall i :: 0 <= i < k ==> s[i] != c
    ensures IndexOf(s, c) == k
    decreases k
  {
    if k > 0 {
      assert s[0] != c;
      IndexOfFirst(s[1..], c, k - 1);
    }
  }

  /** No occurrence at all: IndexOf is the length. */
  lemma {:induction false} IndexOfAbsent(s: string, c: char)
    requires forall i :: 0 <= i < |s| ==> s[i] != c
    ensures IndexOf(s, c) == |s|
    decreases |s|
  {
    if s != [] {
      assert s[0] != c;
      IndexOfAbsent(s[1..], c);
    }
  }

  /** Python's `s.split(c)` for a one-character separator: never empty. */
  function Split(s: string, c: char): (parts: seq<string>)
    ensures |parts| >= 1
    decreases |s|
  {
    var k := IndexOf(s, c);
    if k == |s| then [s] else [s[..k]] + Split(s[k + 1..], c)
  }

  /** Python's `sep.join(parts)`. */
  function Join(sep: string, parts: seq<string>): string {
    if parts == [] then []
    else if |parts| == 1 then parts[0]
    else parts[0] + sep + Join(sep, parts[1..])
  }

  /** Position of the first line boundary in `s`, or |s| when there is none. */
  function LineEnd(s: string): (k: nat)
    ensures k <= |s| && (k < |s| ==> IsLineBreak(s[k]))
  {
    if s == [] then 0 else if IsLineBreak(s[0]) then 0 else 1 + LineEnd(s[1..])
  }

  /** What follows the first line of `s` and its line boundary ("\r\n" counts as one). */
  function AfterLine(s: string): (rest: string)
    requires s != []
    ensures |rest| < |s|
  {
    var k := LineEnd(s);
    if k == |s| then []
    else if s[k] == '\r' && k + 1 < |s| && s[k + 1] == '\n' then s[k + 2..]
    else s[k + 1..]
  }

  /** Python's `s.splitlines()`: the lines, without their boundaries, no trailing empty line. */
  function Splitlines(s: string): seq<string>
    decreases |s|
  {
    if s == [] then [] else [s[..LineEnd(s)]] + Splitlines(AfterLine(s))
  }

  // ---------------------------------------------------------------------------
  // int(s) and str(n)
  // ---------------------------------------------------------------------------

  function DigitChar(d: nat): (c: char)
    requires d < 10
    ensures IsDigit(c)
  {
    (d + '0' as int) as char
  }

  /** The value of a string of decimal digits. */
  function DigitsValue(s: string): nat
    requires AllDigits(s)
  {
    if s == [] then 0 else DigitsValue(s[..|s| - 1]) * 10 + (s[|s| - 1] as int - '0' as int)
  }

  /** Python's `str(n)` for a natural number. */
  function NatToString(n: nat): string
    decreases n
  {
    if n < 10 then [DigitChar(n)] else NatToString(n / 10) + [DigitChar(n % 10)]
  }

  /** Python's `str(i)` (and `f"{i}"`) for an integer. */
  function IntToString(i: int): string {
    if i < 0 then "-" + NatToString(-i) else NatToString(i)
  }

  /**
   * Python's `int(s)` restricted to ASCII decimal text: optional surrounding white
   * space, an optional sign, one or more of the digits 0-9. None stands for the
   * ValueError. Python also accepts underscores between digits ("1_61") and non-ASCII
   * decimal digits; this model answers None for those.
   */
  function ParseInt(s: string): Option<int> {
    var t := Strip(s);
    if |t| > 0 && (t[0] == '-' || t[0] == '+') then
      if IsDigitString(t[1..]) then
        Some(if t[0] == '-' then 0 - DigitsValue(t[1..]) else DigitsValue(t[1..]))
      else None
    else if IsDigitString(t) then Some(DigitsValue(t))
    else None
  }

  lemma {:induction false} NatToStringDigits(n: nat)
    ensures IsDigitString(NatToString(n))
    ensures DigitsValue(NatToString(n)) == n
    decreases n
  {
    if n >= 10 {
      NatToStringDigits(n / 10);
      var s := NatToString(n);
      assert s[..|s| - 1] == NatToString(n / 10);
    }
  }

  /** `int(str(i)) == i`: the decimal rendering of an integer parses back to it. */
  lemma ParseIntToString(i: int)
    ensures ParseInt(IntToString(i)) == Some(i)
  {
    var s := IntToString(i);
    var n: nat := if i < 0 then -i else i;
    NatToStringDigits(n);
    var d := NatToString(n);
    assert s[|s| - 1] == d[|d| - 1];
    StripUnchanged(s);
    if i < 0 {
      assert s[1..] == d;
    }
  }

  /** Decimal renderings are injective. */
  lemma IntToStringInjective(i: int, j: int)
    requires IntToString(i) == IntToString(j)
    ensures i == j
  {
    ParseIntToString(i);
    ParseIntToString(j);
  }
}
