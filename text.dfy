/**
 * The pieces of JavaScript string and regular-expression behaviour that the
 * services rely on: the `\s` and `\d` classes, `trim`, case-insensitive
 * matching under the `i` flag, `parseInt` of a digit run, and `${n}` for a
 * non-negative integer.
 */
module Text {
  import opened Wrappers

  /** A configured setting is present and non-empty: one that is not falsy
      in JavaScript. */
  predicate IsSet(value: Option<string>) {
    value.Some? && value.value != ""
  }

  /** ECMAScript's `\s` class: the WhiteSpace and LineTerminator code points.
      `String.prototype.trim` removes exactly the same characters. */
  predicate IsSpace(c: char) {
    c == '\t' || c == '\n' || c == '\U{000B}' || c == '\U{000C}' || c == '\r' || c == ' '
    || c == '\U{00A0}' || c == '\U{1680}' || ('\U{2000}' <= c <= '\U{200A}')
    || c == '\U{2028}' || c == '\U{2029}' || c == '\U{202F}' || c == '\U{205F}'
    || c == '\U{3000}' || c == '\U{FEFF}'
  }

  /** ECMAScript's `\d` class: ASCII decimal digits only. */
  predicate IsDigit(c: char) {
    '0' <= c <= '9'
  }

  predicate AllDigits(s: string) {
    forall i :: 0 <= i < |s| ==> IsDigit(s[i])
  }

  predicate AllSpaces(s: string) {
    forall i :: 0 <= i < |s| ==> IsSpace(s[i])
  }

  function DigitValue(c: char): (d: nat)
    requires IsDigit(c)
    ensures d < 10
  {
    c as int - '0' as int
  }

  function DigitChar(d: nat): (c: char)
    requires d < 10
    ensures IsDigit(c) && DigitValue(c) == d
  {
    ('0' as int + d) as char
  }

  /** `parseInt` of a run of decimal digits, most significant digit first. */
  function DecimalValue(s: string): nat
    requires AllDigits(s)
    decreases |s|
  {
    if s == [] then 0 else DecimalValue(s[..|s| - 1]) * 10 + DigitValue(s[|s| - 1])
  }

  /** `${n}` for a non-negative integer: its decimal digits without a leading zero. */
  function NatToString(n: nat): (s: string)
    ensures s != [] && AllDigits(s)
    ensures |s| > 1 ==> s[0] != '0'
  {
    if n < 10 then [DigitChar(n)] else NatToString(n / 10) + [DigitChar(n % 10)]
  }

  /** Reading back the digits `${n}` writes gives `n` again. */
  lemma {:induction false} DecimalValueOfNatToString(n: nat)
    ensures DecimalValue(NatToString(n)) == n
  {
    if n >= 10 {
      var s := NatToString(n / 10);
      DecimalValueOfNatToString(n / 10);
      assert NatToString(n)[..|s|] == s;
    }
  }

  /** The greedy `\s*`: what is left after the leading whitespace. */
  function SkipSpaces(s: string): (t: string)
    ensures |t| <= |s| && t == s[|s| - |t|..]
    ensures AllSpaces(s[..|s| - |t|])
    ensures t == [] || !IsSpace(t[0])
  {
    if s != [] && IsSpace(s[0]) then SkipSpaces(s[1..]) else s
  }

  /** The greedy `\d+` (or nothing): the longest prefix made of digits. */
  function LeadingDigits(s: string): (d: string)
    ensures |d| <= |s| && d == s[..|d|] && AllDigits(d)
    ensures |d| < |s| ==> !IsDigit(s[|d|])
  {
    if s != [] && IsDigit(s[0]) then [s[0]] + LeadingDigits(s[1..]) else []
  }

  /** `s` with its trailing whitespace removed. */
  function TrimEnd(s: string): (t: string)
    ensures |t| <= |s| && t == s[..|t|] && AllSpaces(s[|t|..])
    ensures t == [] || !IsSpace(t[|t| - 1])
  {
    if s != [] && IsSpace(s[|s| - 1]) then TrimEnd(s[..|s| - 1]) else s
  }

  /** `t` is the part of `s` from index `a` on, with only whitespace around it. */
  predicate InnerPart(s: string, t: string, a: nat) {
    a + |t| <= |s| && t == s[a..a + |t|] && AllSpaces(s[..a]) && AllSpaces(s[a + |t|..])
  }

  /** `String.prototype.trim`: the part of `s` between its leading and its
      trailing whitespace. */
  function Trim(s: string): (t: string)
    ensures exists a: nat :: InnerPart(s, t, a)
    ensures t == [] || (!IsSpace(t[0]) && !IsSpace(t[|t| - 1]))
  {
    InnerPartOfParts(s, SkipSpaces(s), TrimEnd(SkipSpaces(s)));
    TrimEnd(SkipSpaces(s))
  }

  /** A suffix after leading whitespace, cut before trailing whitespace, is an
      inner part. */
  lemma InnerPartOfParts(s: string, u: string, t: string)
    requires |u| <= |s| && u == s[|s| - |u|..] && AllSpaces(s[..|s| - |u|])
    requires |t| <= |u| && t == u[..|t|] && AllSpaces(u[|t|..])
    ensures InnerPart(s, t, |s| - |u|)
  {
    var a := |s| - |u|;
    assert s[a..a + |t|] == u[..|t|];
    assert s[a + |t|..] == u[|t|..];
  }

  /** Trimming what `\s*` has already stripped is the same as trimming the original. */
  lemma TrimAfterSkipSpaces(s: string)
    ensures Trim(SkipSpaces(s)) == Trim(s)
  {
    var u := SkipSpaces(s);
    assert SkipSpaces(u) == u;
  }

  /** A string with no whitespace at either end is its own trim. */
  lemma TrimOfTrimmed(s: string)
    requires s == [] || (!IsSpace(s[0]) && !IsSpace(s[|s| - 1]))
    ensures Trim(s) == s
  {
    assert SkipSpaces(s) == s;
    assert TrimEnd(s) == s;
  }

  /** Trimming twice is trimming once. */
  lemma TrimIdempotent(s: string)
    ensures Trim(Trim(s)) == Trim(s)
  {
    TrimOfTrimmed(Trim(s));
  }

  /** The case canonicalisation of a non-Unicode `/i` pattern, restricted to
      ASCII letters and the Cyrillic block U+0400..U+045F. */
  function Upper(c: char): char {
    if 'a' <= c <= 'z' then (c as int - 0x20) as char
    else if '\U{0430}' <= c <= '\U{044F}' then (c as int - 0x20) as char
    else if '\U{0450}' <= c <= '\U{045F}' then (c as int - 0x50) as char
    else c
  }

  predicate EqIgnoreCase(a: char, b: char) {
    Upper(a) == Upper(b)
  }

  /** `pattern` occurs in `s` at index `i`, letter case ignored. */
  predicate MatchesAt(s: string, i: nat, pattern: string) {
    i + |pattern| <= |s| && forall k :: 0 <= k < |pattern| ==> EqIgnoreCase(s[i + k], pattern[k])
  }

  /** The leftmost index at or after `from` where `pattern` occurs, letter case
      ignored: the start of a regular-expression match that begins with `pattern`
      and can always be completed. */
  function IndexOfIgnoreCase(s: string, pattern: string, from: nat): (r: Option<nat>)
    requires from <= |s|
    decreases |s| - from
    ensures r.Some? ==> from <= r.value && MatchesAt(s, r.value, pattern)
    ensures r.Some? ==> forall j :: from <= j < r.value ==> !MatchesAt(s, j, pattern)
    ensures r.None? ==> forall j :: from <= j ==> !MatchesAt(s, j, pattern)
  {
    if MatchesAt(s, from, pattern) then Some(from)
    else if from == |s| then None
    else IndexOfIgnoreCase(s, pattern, from + 1)
  }
}
