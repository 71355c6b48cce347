/**
 * ASCII character classes and the handful of Python `str` operations the
 * system relies on: lower/upper, strip, split()[0], `in` on substrings,
 * startswith, join, replace, title and decimal formatting of integers.
 * Only ASCII semantics are modelled (see README, "Left out").
 */
module Text {

  predicate IsDigit(c: char) { '0' <= c <= '9' }
  predicate IsUpper(c: char) { 'A' <= c <= 'Z' }
  predicate IsLower(c: char) { 'a' <= c <= 'z' }
  predicate IsLetter(c: char) { IsUpper(c) || IsLower(c) }
  predicate IsAlnum(c: char) { IsLetter(c) || IsDigit(c) }

  /** A regex word character, `\w`, for ASCII text. */
  predicate IsWordChar(c: char) { IsAlnum(c) || c == '_' }

  /** Python's `str.isspace` restricted to ASCII: tab, LF, VT, FF, CR, the four
      information separators 0x1C-0x1F, and space. */
  predicate IsSpace(c: char) {
    c == ' ' || ('\t' <= c <= '\U{d}') || ('\U{1c}' <= c <= '\U{1f}')
  }

  function LowerChar(c: char): char {
    if IsUpper(c) then (c as int + 32) as char else c
  }

  function UpperChar(c: char): char {
    if IsLower(c) then (c as int - 32) as char else c
  }

  /** `str.lower()` */
  function Lower(s: string): string {
    seq(|s|, i requires 0 <= i < |s| => LowerChar(s[i]))
  }

  /** `str.upper()` */
  function Upper(s: string): string {
    seq(|s|, i requires 0 <= i < |s| => UpperChar(s[i]))
  }

  predicate NoUpper(s: string) {
    forall i :: 0 <= i < |s| ==> !IsUpper(s[i])
  }

  predicate NoLower(s: string) {
    forall i :: 0 <= i < |s| ==> !IsLower(s[i])
  }

  function StripLeft(s: string): (r: string)
    ensures |r| <= |s| && r == s[|s| - |r|..]
    ensures r == [] || !IsSpace(r[0])
    ensures forall k :: 0 <= k < |s| - |r| ==> IsSpace(s[k])
  {
    if s != [] && IsSpace(s[0]) then StripLeft(s[1..]) else s
  }

  function StripRight(s: string): (r: string)
    ensures |r| <= |s| && r == s[..|r|]
    ensures r == [] || !IsSpace(r[|r| - 1])
    ensures forall k :: |r| <= k < |s| ==> IsSpace(s[k])
  {
    if s != [] && IsSpace(s[|s| - 1]) then StripRight(s[..|s| - 1]) else s
  }

  /** `str.strip()` */
  function Strip(s: string): string {
    StripRight(StripLeft(s))
  }

  predicate HasToken(s: string) {
    exists k :: 0 <= k < |s| && !IsSpace(s[k])
  }

  /** End of the run of non-space characters starting at `i`. */
  function TokenEnd(s: string, i: nat): (j: nat)
    requires i <= |s|
    ensures i <= j <= |s|
    ensures forall k :: i <= k < j ==> !IsSpace(s[k])
    ensures j == |s| || IsSpace(s[j])
    decreases |s| - i
  {
    if i < |s| && !IsSpace(s[i]) then TokenEnd(s, i + 1) else i
  }

  /** `s.strip().split()[0]`, which Python only defines when `s` holds a
      non-space character. */
  function FirstToken(s: string): string {
    var t := StripLeft(s);
    t[..TokenEnd(t, 0)]
  }

  function StartsWith(s: string, prefix: string): bool {
    |prefix| <= |s| && s[..|prefix|] == prefix
  }

  /** Python's `sub in s` for strings. */
  function Contains(s: string, sub: string): bool
    decreases |s|
  {
    if StartsWith(s, sub) then true
    else if s == [] then false
    else Contains(s[1..], sub)
  }

  /** `sep.join(parts)` */
  function JoinWith(sep: string, parts: seq<string>): string
    decreases |parts|
  {
    if parts == [] then ""
    else if |parts| == 1 then parts[0]
    else parts[0] + sep + JoinWith(sep, parts[1..])
  }

  /** Joining one more part adds one separator and the part at the end. */
  lemma {:induction false} JoinWithAppend(sep: string, parts: seq<string>, p: string)
    requires parts != []
    ensures JoinWith(sep, parts + [p]) == JoinWith(sep, parts) + sep + p
    decreases |parts|
  {
    if |parts| == 1 {
      assert parts + [p] == [parts[0], p];
    } else {
      JoinWithAppend(sep, parts[1..], p);
      assert (parts + [p])[1..] == parts[1..] + [p];
    }
  }

  /** `s.replace(a, b)` for single characters. */
  function ReplaceChar(s: string, a: char, b: char): string {
    seq(|s|, i requires 0 <= i < |s| => if s[i] == a then b else s[i])
  }

  /** `str.title()`: a letter is upper-cased when the character before it is
      not a letter, and lower-cased otherwise. */
  function Title(s: string): string {
    TitleFrom(s, false)
  }

  function TitleFrom(s: string, previousCased: bool): string
    decreases |s|
  {
    if s == [] then ""
    else
      var c := if previousCased then LowerChar(s[0]) else UpperChar(s[0]);
      [c] + TitleFrom(s[1..], IsLetter(s[0]))
  }

  function DigitChar(d: nat): char
    requires d < 10
  {
    ('0' as int + d) as char
  }

  /** Decimal rendering of a natural number, as `str(n)` / an f-string does. */
  function NatToString(n: nat): (r: string)
    ensures r != []
    ensures forall k :: 0 <= k < |r| ==> IsDigit(r[k])
    decreases n
  {
    if n < 10 then [DigitChar(n)] else NatToString(n / 10) + [DigitChar(n % 10)]
  }

  function IntToString(n: int): string {
    if n < 0 then "-" + NatToString(-n) else NatToString(n)
  }

  /** Reads a string of decimal digits back as a number: the inverse of NatToString. */
  function DigitsValue(s: string): nat
    requires forall k :: 0 <= k < |s| ==> IsDigit(s[k])
    decreases |s|
  {
    if s == [] then 0 else 10 * DigitsValue(s[..|s| - 1]) + DigitValue(s[|s| - 1])
  }

  function DigitValue(c: char): nat
    requires IsDigit(c)
  {
    c as int - '0' as int
  }

  /** Formatting a number and reading it back gives the number again. */
  lemma {:induction false} NatToStringRoundTrip(n: nat)
    ensures DigitsValue(NatToString(n)) == n
    decreases n
  {
    var r := NatToString(n);
    if n >= 10 {
      NatToStringRoundTrip(n / 10);
      assert r[..|r| - 1] == NatToString(n / 10);
    }
  }

  /** Distinct numbers are rendered as distinct strings. */
  lemma NatToStringInjective(a: nat, b: nat)
    requires NatToString(a) == NatToString(b)
    ensures a == b
  {
    NatToStringRoundTrip(a);
    NatToStringRoundTrip(b);
  }

  lemma LowerIdempotent(s: string)
    ensures Lower(Lower(s)) == Lower(s)
  {
  }

  lemma LowerHasNoUpper(s: string)
    ensures NoUpper(Lower(s))
  {
  }

  lemma UpperHasNoLower(s: string)
    ensures NoLower(Upper(s))
  {
  }

  /** Stripping only removes characters from the two ends. */
  lemma StripIsSlice(s: string)
    ensures exists i, j :: 0 <= i <= j <= |s| && Strip(s) == s[i..j]
  {
    var l := StripLeft(s);
    var i := |s| - |l|;
    PrefixOfSuffix(s, i, StripRight(l));
  }

  lemma PrefixOfSuffix(s: string, i: nat, r: string)
    requires i <= |s| && |r| <= |s| - i && r == s[i..][..|r|]
    ensures r == s[i..i + |r|]
  {
  }

  /** Stripping twice is stripping once. */
  lemma StripIdempotent(s: string)
    ensures Strip(Strip(s)) == Strip(s)
  {
    var t := Strip(s);
    if t != [] {
      assert StripLeft(t) == t;
      assert StripRight(t) == t;
    }
  }

  lemma StripEmptyIffBlank(s: string)
    ensures Strip(s) == [] <==> !HasToken(s)
  {
    var l := StripLeft(s);
    if HasToken(s) {
      var k :| 0 <= k < |s| && !IsSpace(s[k]);
      assert k >= |s| - |l|;
      assert l != [] && !IsSpace(l[0]);
      assert StripRight(l) != [];
    }
  }
}
