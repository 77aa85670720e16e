/**
 * The parts of JavaScript's string semantics the model relies on:
 * String.prototype.trim and the text of an integer Number.
 */
module JsText {
  import opened Wrappers

  /**
   * The code points trim removes: the ECMAScript WhiteSpace and
   * LineTerminator productions (TAB, VT, FF, SP, NBSP, ZWNBSP, the Zs
   * category, LF, CR, LS, PS).
   */
  predicate IsJsSpace(c: char) {
    || c == '\t' || c == '\n' || c == '\U{000B}' || c == '\U{000C}' || c == '\r'
    || c == ' ' || c == '\U{00A0}' || c == '\U{1680}'
    || ('\U{2000}' <= c <= '\U{200A}')
    || c == '\U{2028}' || c == '\U{2029}' || c == '\U{202F}' || c == '\U{205F}'
    || c == '\U{3000}' || c == '\U{FEFF}'
  }

  predicate AllSpace(s: string) {
    forall k :: 0 <= k < |s| ==> IsJsSpace(s[k])
  }

  /** Drops the longest all-space prefix: what is left is a suffix of s that does not start with a space. */
  function TrimStart(s: string): (r: string)
    ensures |r| <= |s| && r == s[|s| - |r|..]
    ensures AllSpace(s[..|s| - |r|])
    ensures r == [] || !IsJsSpace(r[0])
  {
    if s != [] && IsJsSpace(s[0]) then
      var r := TrimStart(s[1..]);
      assert s[..|s| - |r|] == [s[0]] + s[1..][..|s| - 1 - |r|];
      r
    else
      s
  }

  /** Drops the longest all-space suffix: what is left is a prefix of s that does not end with a space. */
  function TrimEnd(s: string): (r: string)
    ensures |r| <= |s| && r == s[..|r|]
    ensures AllSpace(s[|r|..])
    ensures r == [] || !IsJsSpace(r[|r| - 1])
  {
    if s != [] && IsJsSpace(s[|s| - 1]) then
      var r := TrimEnd(s[..|s| - 1]);
      assert s[|r|..] == s[..|s| - 1][|r|..] + [s[|s| - 1]];
      r
    else
      s
  }

  /** String.prototype.trim. */
  function Trim(s: string): (r: string)
    ensures |r| <= |TrimStart(s)|
  {
    TrimEnd(TrimStart(s))
  }

  /** Where the trimmed text starts in s: the length of the all-space prefix trim removes. */
  function TrimFrom(s: string): (i: nat)
    ensures i <= |s|
  {
    |s| - |TrimStart(s)|
  }

  /**
   * The trimmed string is the slice s[i..j] left after removing an
   * all-space prefix s[..i] and an all-space suffix s[j..], and it starts
   * and ends with a non-space, so neither cut could be shorter.
   */
  lemma TrimIsMaximalSlice(s: string)
    ensures TrimFrom(s) + |Trim(s)| <= |s|
    ensures Trim(s) == s[TrimFrom(s)..TrimFrom(s) + |Trim(s)|]
    ensures AllSpace(s[..TrimFrom(s)]) && AllSpace(s[TrimFrom(s) + |Trim(s)|..])
    ensures Trim(s) == [] || (!IsJsSpace(Trim(s)[0]) && !IsJsSpace(Trim(s)[|Trim(s)| - 1]))
  {
    PrefixOfSuffix(s, TrimStart(s), Trim(s));
  }

  /** A prefix r of a suffix t of s is a slice of s, and what follows r in t is what follows it in s. */
  lemma PrefixOfSuffix(s: string, t: string, r: string)
    requires |t| <= |s| && t == s[|s| - |t|..]
    requires |r| <= |t| && r == t[..|r|]
    ensures r == s[|s| - |t|..|s| - |t| + |r|]
    ensures s[|s| - |t| + |r|..] == t[|r|..]
    ensures r != [] ==> r[0] == t[0]
  {
  }

  /** trim yields the empty string exactly when every character is a space. */
  lemma TrimEmptyIffAllSpace(s: string)
    ensures Trim(s) == [] <==> AllSpace(s)
  {
    TrimIsMaximalSlice(s);
    if Trim(s) == [] {
      var i := TrimFrom(s);
      assert s == s[..i] + s[i..];
    }
  }

  // ---------------------------------------------------------------------
  // Number-to-text for integers: what `${n}` and a JSX {n} child produce.

  predicate IsDigit(c: char) {
    '0' <= c <= '9'
  }

  predicate AllDigits(s: string) {
    forall k :: 0 <= k < |s| ==> IsDigit(s[k])
  }

  function DigitChar(d: nat): (c: char)
    requires d < 10
    ensures IsDigit(c) && c as int - '0' as int == d
  {
    ('0' as int + d) as char
  }

  /** The decimal digits of n, most significant first, without leading zeros. */
  function Decimal(n: nat): (r: string)
    ensures r != [] && AllDigits(r)
    decreases n
  {
    if n < 10 then [DigitChar(n)] else Decimal(n / 10) + [DigitChar(n % 10)]
  }

  /** The text JavaScript gives an integer-valued Number; it agrees with JavaScript's for magnitudes up to 2^53. */
  function NumText(n: int): (r: string)
    ensures r != []
  {
    if n < 0 then "-" + Decimal(-n) else Decimal(n)
  }

  function ParseDecimal(s: string): nat
    requires AllDigits(s)
  {
    if s == [] then 0 else ParseDecimal(s[..|s| - 1]) * 10 + (s[|s| - 1] as int - '0' as int)
  }

  /** Reads back an optionally signed decimal integer; None for anything else. */
  function ParseNum(s: string): Option<int> {
    if |s| > 1 && s[0] == '-' && AllDigits(s[1..]) then Some(0 - ParseDecimal(s[1..]))
    else if s != [] && AllDigits(s) then Some(ParseDecimal(s))
    else None
  }

  lemma {:induction false} DecimalRoundTrip(n: nat)
    ensures ParseDecimal(Decimal(n)) == n
    decreases n
  {
    if n >= 10 {
      var d := Decimal(n);
      assert d[..|d| - 1] == Decimal(n / 10);
      DecimalRoundTrip(n / 10);
    }
  }

  /** NumText is injective: the integer can be read back from its text. */
  lemma NumTextRoundTrip(n: int)
    ensures ParseNum(NumText(n)) == Some(n)
  {
    if n < 0 {
      DecimalRoundTrip(-n);
      assert NumText(n)[1..] == Decimal(-n);
    } else {
      DecimalRoundTrip(n);
    }
  }

  /** Every character of an integer's text is a digit or the minus sign. */
  lemma NumTextChars(n: int)
    ensures forall k :: 0 <= k < |NumText(n)| ==> IsDigit(NumText(n)[k]) || NumText(n)[k] == '-'
  {
    if n < 0 {
      var d := Decimal(-n);
      assert forall k :: 1 <= k < |NumText(n)| ==> NumText(n)[k] == d[k - 1];
    }
  }
}
