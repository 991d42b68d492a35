/** The JavaScript string operations the model needs, on strings of
    characters: the `\s` class, ASCII case mapping, `trim`, `includes`,
    `startsWith`, and decimal rendering of numbers. */
module Text {

  /** JavaScript's `\s` (white space and line terminators); `trim` strips
      the same set. */
  predicate IsJsSpace(c: char) {
    || c == ' ' || c == '\t' || c == '\n' || c == '\r'
    || c == '\U{000B}' || c == '\U{000C}' || c == '\U{00A0}' || c == '\U{1680}'
    || ('\U{2000}' <= c <= '\U{200A}')
    || c == '\U{2028}' || c == '\U{2029}' || c == '\U{202F}' || c == '\U{205F}'
    || c == '\U{3000}' || c == '\U{FEFF}'
  }

  predicate IsLowerAlnum(c: char) { ('a' <= c <= 'z') || ('0' <= c <= '9') }

  /** A word character of a regular expression (`\w`), as `\b` uses it. */
  predicate IsWordChar(c: char) {
    ('a' <= c <= 'z') || ('A' <= c <= 'Z') || ('0' <= c <= '9') || c == '_'
  }

  function LowerChar(c: char): (d: char)
    ensures 'A' <= c <= 'Z' ==> 'a' <= d <= 'z'
    ensures !('A' <= c <= 'Z') ==> d == c
  {
    if 'A' <= c <= 'Z' then (c as int + 32) as char else c
  }

  /** `toLowerCase`, on the ASCII letters. */
  function ToLower(s: string): (r: string)
    ensures |r| == |s| && forall i :: 0 <= i < |s| ==> r[i] == LowerChar(s[i])
  {
    if s == [] then [] else [LowerChar(s[0])] + ToLower(s[1..])
  }

  /** The number of leading `\s` characters. */
  function TrimStartIndex(s: string): (k: nat)
    ensures k <= |s| && (k == |s| || !IsJsSpace(s[k]))
    ensures forall i :: 0 <= i < k ==> IsJsSpace(s[i])
  {
    if s != [] && IsJsSpace(s[0]) then 1 + TrimStartIndex(s[1..]) else 0
  }

  /** The length of `s` without its trailing `\s` characters. */
  function TrimEndIndex(s: string): (k: nat)
    ensures k <= |s| && (k == 0 || !IsJsSpace(s[k - 1]))
    ensures forall i :: k <= i < |s| ==> IsJsSpace(s[i])
  {
    if s != [] && IsJsSpace(s[|s| - 1]) then TrimEndIndex(s[..|s| - 1]) else |s|
  }

  /** `trim`: `s` without leading and trailing `\s` characters. */
  function Trim(s: string): (r: string)
    ensures r == [] || (!IsJsSpace(r[0]) && !IsJsSpace(r[|r| - 1]))
  {
    var i := TrimStartIndex(s);
    s[i..][..TrimEndIndex(s[i..])]
  }

  /** `trim` removes only `\s` characters, and only from the two ends: the
      result is a slice of `s` with nothing but `\s` before and after it. */
  lemma TrimIsSlice(s: string) returns (i: nat, j: nat)
    ensures i <= j <= |s| && Trim(s) == s[i..j]
    ensures forall k :: 0 <= k < i ==> IsJsSpace(s[k])
    ensures forall k :: j <= k < |s| ==> IsJsSpace(s[k])
  {
    i := TrimStartIndex(s);
    var e := TrimEndIndex(s[i..]);
    j := i + e;
    assert s[i..][..e] == s[i..j];
    forall k | j <= k < |s| ensures IsJsSpace(s[k]) {
      assert s[k] == s[i..][k - i];
    }
  }

  /** `s.startsWith(p)`. */
  predicate StartsWith(s: string, p: string) {
    |p| <= |s| && s[..|p|] == p
  }

  predicate OccursAt(s: string, w: string, i: int) {
    0 <= i && i + |w| <= |s| && s[i..i + |w|] == w
  }

  /** `s.includes(w)`. */
  predicate Includes(s: string, w: string) {
    exists i :: 0 <= i <= |s| && OccursAt(s, w, i)
  }

  predicate IsDigit(c: char) { '0' <= c <= '9' }

  predicate AllDigits(s: string) { forall i :: 0 <= i < |s| ==> IsDigit(s[i]) }

  function DigitChar(d: int): (c: char)
    requires 0 <= d < 10
    ensures IsDigit(c) && c as int - '0' as int == d
  {
    ('0' as int + d) as char
  }

  /** The number a string of decimal digits denotes. */
  function DecimalValue(s: string): nat
    requires AllDigits(s)
  {
    if s == [] then 0
    else 10 * DecimalValue(s[..|s| - 1]) + (s[|s| - 1] as int - '0' as int)
  }

  /** `n.toString()` for a non-negative integer. */
  function NatToString(n: nat): string
    decreases n
  {
    if n < 10 then [DigitChar(n)] else NatToString(n / 10) + [DigitChar(n % 10)]
  }

  /** Decimal rendering is a non-empty digit string that reads back as the
      number, without leading zeros. */
  lemma {:induction false} NatToStringDenotes(n: nat)
    decreases n
    ensures var s := NatToString(n);
      |s| >= 1 && AllDigits(s) && DecimalValue(s) == n && (|s| > 1 ==> s[0] != '0')
      && (n < 10 <==> |s| == 1)
  {
    if n >= 10 {
      NatToStringDenotes(n / 10);
      var s := NatToString(n);
      assert s[..|s| - 1] == NatToString(n / 10);
    }
  }
}
