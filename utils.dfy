/** truncateString from the web client's utility module. */
module Utils {
  import opened JsText

  /** The marker appended to a truncated string. */
  const Ellipsis: string := "..."

  /** string.substr(0, n) for an integer n: the first n characters, clamped to the string. */
  function Prefix(s: string, n: int): (r: string)
    ensures |r| == if n < 0 then 0 else if n <= |s| then n else |s|
    ensures r == s[..|r|]
  {
    if n < 0 then [] else if n <= |s| then s[..n] else s
  }

  /**
   * Returns s when it is at most max characters long; otherwise cuts it to
   * its first max characters, trims both ends and appends "...".
   */
  function TruncateString(s: string, max: int): string {
    if |s| <= max then s else Trim(Prefix(s, max)) + Ellipsis
  }

  /** A string that fits, including one of exactly max characters, is returned unchanged. */
  lemma TruncateFits(s: string, max: int)
    requires |s| <= max
    ensures TruncateString(s, max) == s
  {
  }

  /**
   * A string longer than max becomes a slice s[i..j] of its first max
   * characters followed by "...": what precedes the slice and what follows it
   * up to position max is whitespace, and the slice itself neither starts nor
   * ends with whitespace.
   */
  lemma TruncateShape(s: string, max: nat) returns (i: nat, j: nat)
    requires |s| > max
    ensures i <= j <= max
    ensures TruncateString(s, max) == s[i..j] + Ellipsis
    ensures AllSpace(s[..i]) && AllSpace(s[j..max])
    ensures i < j ==> !IsJsSpace(s[i]) && !IsJsSpace(s[j - 1])
  {
    TruncateIsTrimOfPrefix(s, max);
    i, j := TrimOfPrefixIsSlice(s, max);
  }

  lemma TruncateIsTrimOfPrefix(s: string, max: nat)
    requires |s| > max
    ensures TruncateString(s, max) == Trim(s[..max]) + Ellipsis
  {
    assert Prefix(s, max) == s[..max];
  }

  lemma TrimOfPrefixIsSlice(s: string, max: nat) returns (i: nat, j: nat)
    requires |s| > max
    ensures i <= j <= max
    ensures Trim(s[..max]) == s[i..j]
    ensures AllSpace(s[..i]) && AllSpace(s[j..max])
    ensures i < j ==> !IsJsSpace(s[i]) && !IsJsSpace(s[j - 1])
  {
    var p := s[..max];
    var t := Trim(p);
    TrimIsMaximalSlice(p);
    i := TrimFrom(p);
    j := i + |t|;
    assert p[i..j] == s[i..j] && p[..i] == s[..i] && p[j..] == s[j..max];
    assert i < j ==> s[i] == t[0] && s[j - 1] == t[|t| - 1];
  }

  /** A truncated string always ends with the marker. */
  lemma TruncateEndsWithEllipsis(s: string, max: int)
    requires |s| > max
    ensures var r := TruncateString(s, max); |r| >= 3 && r[|r| - 3..] == Ellipsis
  {
  }

  /** The result is never more than three characters longer than the limit (or than "..." for a negative limit). */
  lemma TruncateLengthBound(s: string, max: int)
    ensures |TruncateString(s, max)| <= if |s| <= max then |s| else if max < 0 then 3 else max + 3
  {
    if |s| > max {
      TrimIsMaximalSlice(Prefix(s, max));
    }
  }

  /** An over-long string whose first max characters are all whitespace becomes exactly "...". */
  lemma TruncateAllSpace(s: string, max: int)
    requires |s| > max
    requires AllSpace(Prefix(s, max))
    ensures TruncateString(s, max) == Ellipsis
  {
    TrimEmptyIffAllSpace(Prefix(s, max));
  }

  /** Conversely, "..." alone means nothing but whitespace was cut off. */
  lemma TruncateToEllipsisOnlyIfAllSpace(s: string, max: int)
    requires |s| > max
    requires TruncateString(s, max) == Ellipsis
    ensures AllSpace(Prefix(s, max))
  {
    var t := Trim(Prefix(s, max));
    assert t + Ellipsis == Ellipsis;
    assert |t| == 0;
    TrimEmptyIffAllSpace(Prefix(s, max));
  }
}
