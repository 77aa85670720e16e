/**
 * JSON text for a string, as JSON.stringify writes it (the QuoteJSONString
 * operation of ECMA-262), and the reading of such text back.
 */
module Json {
  import opened Wrappers

  function HexDigit(d: nat): (c: char)
    requires d < 16
  {
    "0123456789abcdef"[d]
  }

  function HexValue(c: char): Option<nat> {
    if '0' <= c <= '9' then Some(c as int - '0' as int)
    else if 'a' <= c <= 'f' then Some(c as int - 'a' as int + 10)
    else if 'A' <= c <= 'F' then Some(c as int - 'A' as int + 10)
    else None
  }

  /** The escape JSON.stringify writes for one character. */
  function EscapeChar(c: char): string {
    if c == '"' then "\\\""
    else if c == '\\' then "\\\\"
    else if c == '\U{0008}' then "\\b"
    else if c == '\t' then "\\t"
    else if c == '\n' then "\\n"
    else if c == '\U{000C}' then "\\f"
    else if c == '\r' then "\\r"
    else if c < ' ' then "\\u00" + [HexDigit(c as int / 16), HexDigit(c as int % 16)]
    else [c]
  }

  function Escape(s: string): string {
    if s == [] then [] else EscapeChar(s[0]) + Escape(s[1..])
  }

  /** JSON.stringify of a string value. */
  function Quote(s: string): string {
    "\"" + Escape(s) + "\""
  }

  /** The character a one-letter escape stands for. */
  function ShortEscape(c: char): Option<char> {
    if c == '"' then Some('"')
    else if c == '\\' then Some('\\')
    else if c == '/' then Some('/')
    else if c == 'b' then Some('\U{0008}')
    else if c == 't' then Some('\t')
    else if c == 'n' then Some('\n')
    else if c == 'f' then Some('\U{000C}')
    else if c == 'r' then Some('\r')
    else None
  }

  /** The character four hex digits stand for; a lone surrogate is refused. */
  function Hex4(s: string): Option<char>
    requires |s| == 4
  {
    match (HexValue(s[0]), HexValue(s[1]), HexValue(s[2]), HexValue(s[3]))
    case (Some(a), Some(b), Some(c), Some(d)) =>
      var v := ((a * 16 + b) * 16 + c) * 16 + d;
      if v < 0xD800 || 0xE000 <= v < 0x1_0000 then Some(v as char) else None
    case _ => None
  }

  function Cons(c: char, rest: Option<string>): Option<string> {
    match rest
    case Some(r) => Some([c] + r)
    case None => None
  }

  /** Reads the inside of a JSON string literal; None when it is not well formed. */
  function Unescape(s: string): Option<string>
    decreases |s|
  {
    if s == [] then Some([])
    else if s[0] == '"' || s[0] < ' ' then None
    else if s[0] != '\\' then Cons(s[0], Unescape(s[1..]))
    else if |s| < 2 then None
    else match ShortEscape(s[1])
      case Some(c) => Cons(c, Unescape(s[2..]))
      case None =>
        if s[1] == 'u' && |s| >= 6 then
          match Hex4(s[2..6])
          case Some(c) => Cons(c, Unescape(s[6..]))
          case None => None
        else None
  }

  /** Reads a JSON string literal. */
  function Unquote(t: string): Option<string> {
    if |t| >= 2 && t[0] == '"' && t[|t| - 1] == '"' then Unescape(t[1..|t| - 1]) else None
  }

  lemma HexRoundTrip(d: nat)
    requires d < 16
    ensures HexValue(HexDigit(d)) == Some(d)
  {
  }

  lemma {:induction false} UnescapeStep(c: char, rest: string)
    ensures Unescape(EscapeChar(c) + rest) == Cons(c, Unescape(rest))
  {
    var e := EscapeChar(c);
    if c == '"' || c == '\\' || c == '\U{0008}' || c == '\t' || c == '\n' || c == '\U{000C}' || c == '\r' {
      assert (e + rest)[2..] == rest;
    } else if c < ' ' {
      var hi, lo := c as int / 16, c as int % 16;
      HexRoundTrip(hi);
      HexRoundTrip(lo);
      assert (e + rest)[2..6] == "00" + [HexDigit(hi), HexDigit(lo)];
      assert (e + rest)[6..] == rest;
    } else {
      assert (e + rest)[1..] == rest;
    }
  }

  lemma {:induction false} UnescapeEscape(s: string)
    ensures Unescape(Escape(s)) == Some(s)
  {
    if s != [] {
      UnescapeStep(s[0], Escape(s[1..]));
      UnescapeEscape(s[1..]);
      assert [s[0]] + s[1..] == s;
    }
  }

  /** Every string reads back from its JSON text. */
  lemma UnquoteQuote(s: string)
    ensures Unquote(Quote(s)) == Some(s)
  {
    var t := Quote(s);
    assert t[1..|t| - 1] == Escape(s);
    UnescapeEscape(s);
  }
}
