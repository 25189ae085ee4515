/** The Kotlin string functions the core relies on: `isWhitespace`, `trim`,
    `isBlank`, `endsWith`, `startsWith`, `removeSuffix`, `contains(ignoreCase = true)`
    and `Int.toString`. */
module Text {

  /** Kotlin's `Char.isWhitespace()`: Java's `isWhitespace` or `isSpaceChar`,
      i.e. the ASCII controls TAB..CR and FS..US plus every Unicode space,
      line and paragraph separator. */
  predicate IsWhitespace(c: char) {
    || c == ' ' || c == '\t' || c == '\n' || c == '\r'
    || c == '\U{000B}' || c == '\U{000C}'
    || ('\U{001C}' <= c <= '\U{001F}')
    || c == '\U{00A0}' || c == '\U{1680}'
    || ('\U{2000}' <= c <= '\U{200A}')
    || c == '\U{2028}' || c == '\U{2029}' || c == '\U{202F}' || c == '\U{205F}'
    || c == '\U{3000}'
  }

  /** Kotlin's `isBlank()`: empty or whitespace only. */
  predicate IsBlank(s: string) {
    forall i :: 0 <= i < |s| ==> IsWhitespace(s[i])
  }

  /** The number of whitespace characters `s` starts with. */
  function LeadingBlanks(s: string): (n: nat)
    ensures n <= |s| && (n == |s| || !IsWhitespace(s[n]))
    ensures forall i :: 0 <= i < n ==> IsWhitespace(s[i])
  {
    if s != [] && IsWhitespace(s[0]) then
      var m := LeadingBlanks(s[1..]);
      assert forall i :: 1 <= i < 1 + m ==> s[i] == s[1..][i - 1];
      1 + m
    else 0
  }

  /** The number of whitespace characters `s` ends with. */
  function TrailingBlanks(s: string): (n: nat)
    ensures n <= |s| && (n == |s| || !IsWhitespace(s[|s| - 1 - n]))
    ensures forall i :: |s| - n <= i < |s| ==> IsWhitespace(s[i])
  {
    if s != [] && IsWhitespace(s[|s| - 1]) then
      var m := TrailingBlanks(s[..|s| - 1]);
      assert forall i :: |s| - 1 - m <= i < |s| - 1 ==> s[i] == s[..|s| - 1][i];
      1 + m
    else 0
  }

  function TrimStart(s: string): (r: string)
    ensures |r| <= |s| && forall i :: 0 <= i < |r| ==> r[i] == s[|s| - |r| + i]
    ensures r == [] || !IsWhitespace(r[0])
    ensures forall i :: 0 <= i < |s| - |r| ==> IsWhitespace(s[i])
  {
    s[LeadingBlanks(s)..]
  }

  function TrimEnd(s: string): (r: string)
    ensures |r| <= |s| && forall i :: 0 <= i < |r| ==> r[i] == s[i]
    ensures r == [] || !IsWhitespace(r[|r| - 1])
    ensures forall i :: |r| <= i < |s| ==> IsWhitespace(s[i])
  {
    s[..|s| - TrailingBlanks(s)]
  }

  /** Kotlin's `trim()`: drops leading and trailing whitespace. */
  function Trim(s: string): (r: string)
    ensures r == [] || (!IsWhitespace(r[0]) && !IsWhitespace(r[|r| - 1]))
    ensures |r| <= |s|
  {
    TrimEnd(TrimStart(s))
  }

  /** `trim()` keeps a contiguous middle part of the input, starting after the
      leading whitespace, and everything it drops on either side is whitespace. */
  lemma TrimIsInfix(s: string)
    ensures var i := |s| - |TrimStart(s)|;
      && i + |Trim(s)| <= |s|
      && (forall k :: 0 <= k < |Trim(s)| ==> Trim(s)[k] == s[i + k])
      && (forall k :: 0 <= k < i ==> IsWhitespace(s[k]))
      && (forall k :: i + |Trim(s)| <= k < |s| ==> IsWhitespace(s[k]))
  {
    var a := TrimStart(s);
    var r := Trim(s);
    var i := |s| - |a|;
    assert r == TrimEnd(a);
    forall k | i + |r| <= k < |s|
      ensures IsWhitespace(s[k])
    {
      assert s[k] == a[k - i];
    }
  }

  lemma {:induction false} TrimStartOfTrimmed(s: string)
    requires s == [] || !IsWhitespace(s[0])
    ensures TrimStart(s) == s
  {
  }

  lemma {:induction false} TrimEndOfTrimmed(s: string)
    requires s == [] || !IsWhitespace(s[|s| - 1])
    ensures TrimEnd(s) == s
  {
  }

  /** Trimming twice is trimming once. */
  lemma {:induction false} TrimIdempotent(s: string)
    ensures Trim(Trim(s)) == Trim(s)
  {
    var t := Trim(s);
    TrimStartOfTrimmed(t);
    TrimEndOfTrimmed(t);
    assert Trim(t) == TrimEnd(TrimStart(t));
  }

  /** A string is blank exactly when trimming leaves nothing. */
  lemma {:induction false} BlankIffTrimEmpty(s: string)
    ensures IsBlank(s) <==> Trim(s) == []
  {
    var a := TrimStart(s);
    if Trim(s) != [] {
      var r := Trim(s);
      assert !IsWhitespace(s[|s| - |a|]) by { assert s[|s| - |a|] == a[0] == r[0]; }
    }
  }

  predicate StartsWith(s: string, p: string) {
    |p| <= |s| && s[..|p|] == p
  }

  predicate EndsWith(s: string, p: string) {
    |p| <= |s| && s[|s| - |p|..] == p
  }

  /** Kotlin's `removeSuffix`: drops `p` once if `s` ends with it. */
  function RemoveSuffix(s: string, p: string): (r: string)
    ensures EndsWith(s, p) ==> r + p == s
    ensures !EndsWith(s, p) ==> r == s
  {
    if EndsWith(s, p) then s[..|s| - |p|] else s
  }

  /** `t` occurs in `s` at position `i`, comparing characters after `fold`. */
  predicate MatchesAt(s: string, t: string, i: int, fold: char -> char)
    requires 0 <= i <= |s| - |t|
  {
    forall j :: 0 <= j < |t| ==> fold(s[i + j]) == fold(t[j])
  }

  /** Kotlin's `s.contains(t, ignoreCase = true)`. Kotlin compares two characters
      as equal ignoring case exactly when `lowercase(uppercase(c))` agrees; `fold`
      stands for that per-character mapping, whose Unicode tables are not part of
      this model. */
  predicate ContainsIgnoreCase(s: string, t: string, fold: char -> char) {
    exists i | 0 <= i <= |s| - |t| :: MatchesAt(s, t, i, fold)
  }

  /** The empty text occurs in every string. */
  lemma ContainsEmpty(s: string, fold: char -> char)
    ensures ContainsIgnoreCase(s, [], fold)
  {
    assert MatchesAt(s, [], 0, fold);
  }

  function DigitChar(d: nat): (c: char)
    requires d < 10
    ensures '0' <= c <= '9'
  {
    ['0', '1', '2', '3', '4', '5', '6', '7', '8', '9'][d]
  }

  /** Kotlin's `Int.toString()` for a non-negative value: decimal, no leading zeros. */
  function NatToString(n: nat): (r: string)
    ensures |r| >= 1
    ensures forall i :: 0 <= i < |r| ==> '0' <= r[i] <= '9'
    ensures |r| > 1 ==> r[0] != '0'
    decreases n
  {
    if n < 10 then [DigitChar(n)] else NatToString(n / 10) + [DigitChar(n % 10)]
  }

  function DigitValue(c: char): nat
    requires '0' <= c <= '9'
  {
    (c as int - '0' as int) as nat
  }

  lemma DigitRoundTrip(d: nat)
    requires d < 10
    ensures DigitValue(DigitChar(d)) == d
  {
  }

  /** Reads a string of decimal digits back as a number (the partner of NatToString). */
  function ParseDecimal(s: string): nat
    requires forall i :: 0 <= i < |s| ==> '0' <= s[i] <= '9'
  {
    if s == [] then 0 else ParseDecimal(s[..|s| - 1]) * 10 + DigitValue(s[|s| - 1])
  }

  /** The decimal text of a count reads back as that count. */
  lemma {:induction false} NatToStringRoundTrip(n: nat)
    ensures ParseDecimal(NatToString(n)) == n
    decreases n
  {
    var s := NatToString(n);
    if n < 10 {
      DigitRoundTrip(n);
    } else {
      NatToStringRoundTrip(n / 10);
      DigitRoundTrip(n % 10);
      assert s[..|s| - 1] == NatToString(n / 10);
      assert s[|s| - 1] == DigitChar(n % 10);
    }
  }
}
