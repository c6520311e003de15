/**
 * The one piece of JSON the relay writes itself: `JSON.stringify` of a string
 * (QuoteJSONString, section 25.5.2.3 of ECMA-262), and the string-literal
 * reading of section 9 of ECMA-404 that undoes it.
 */
module Json {
  import opened Wrappers

  const HexDigits := "0123456789abcdef"

  /** The code unit escapes JSON.stringify writes for a control character: lower-case hex. */
  function UnicodeEscape(c: char): string
    requires c < ' '
  {
    var n := c as int;
    "\\u00" + [HexDigits[n / 16], HexDigits[n % 16]]
  }

  /** How JSON.stringify writes one character inside a string literal. */
  function EscapeChar(c: char): (r: string)
    ensures |r| > 0
    ensures forall k :: 0 <= k < |r| ==> r[k] >= ' '
  {
    if c == '\U{0008}' then "\\b"
    else if c == '\t' then "\\t"
    else if c == '\n' then "\\n"
    else if c == '\U{000C}' then "\\f"
    else if c == '\r' then "\\r"
    else if c == '"' then "\\\""
    else if c == '\\' then "\\\\"
    else if c < ' ' then UnicodeEscape(c)
    else [c]
  }

  /** The characters of a string literal between its quotes; no control character is left raw. */
  function Escape(s: string): (r: string)
    ensures forall k :: 0 <= k < |r| ==> r[k] >= ' '
    decreases |s|
  {
    if |s| == 0 then ""
    else
      var head, tail := EscapeChar(s[0]), Escape(s[1..]);
      assert forall k :: |head| <= k < |head| + |tail| ==> (head + tail)[k] == tail[k - |head|];
      head + tail
  }

  /** `JSON.stringify(s)` for a string `s`. */
  function Quote(s: string): (r: string)
    ensures '\n' !in r
  {
    var e := Escape(s);
    assert forall k :: 0 <= k < |e| ==> e[k] != '\n';
    "\"" + e + "\""
  }

  /** The value of a hexadecimal digit, if it is one. */
  function HexValue(c: char): Option<nat> {
    if '0' <= c <= '9' then Some(c as int - '0' as int)
    else if 'a' <= c <= 'f' then Some(c as int - 'a' as int + 10)
    else if 'A' <= c <= 'F' then Some(c as int - 'A' as int + 10)
    else None
  }

  /** The code point of a four-digit `\u` escape, if it names a character. */
  function CodePoint(h: string): Option<char>
    requires |h| == 4
  {
    match (HexValue(h[0]), HexValue(h[1]), HexValue(h[2]), HexValue(h[3]))
    case (Some(a), Some(b), Some(c), Some(d)) =>
      var n := 4096 * a + 256 * b + 16 * c + d;
      if n < 0xD800 || 0xE000 <= n then Some(n as char) else None
    case _ => None
  }

  /** The character a two-character escape stands for. */
  function ShortEscape(c: char): Option<char> {
    if c == '"' then Some('"')
    else if c == '\\' then Some('\\')
    else if c == '/' then Some('/')
    else if c == 'b' then Some('\U{0008}')
    else if c == 'f' then Some('\U{000C}')
    else if c == 'n' then Some('\n')
    else if c == 'r' then Some('\r')
    else if c == 't' then Some('\t')
    else None
  }

  function Prepend(c: char, rest: Option<string>): Option<string> {
    match rest
    case None => None
    case Some(r) => Some([c] + r)
  }

  /** Reads the characters between the quotes of a JSON string literal; `None` when malformed. */
  function Unescape(t: string): Option<string>
    decreases |t|
  {
    if |t| == 0 then Some("")
    else if t[0] == '\\' then
      if |t| < 2 then None
      else if ShortEscape(t[1]).Some? then Prepend(ShortEscape(t[1]).value, Unescape(t[2..]))
      else if t[1] == 'u' && |t| >= 6 && CodePoint(t[2..6]).Some? then
        Prepend(CodePoint(t[2..6]).value, Unescape(t[6..]))
      else None
    else if t[0] == '"' || t[0] < ' ' then None
    else Prepend(t[0], Unescape(t[1..]))
  }

  /** Reads a whole JSON string literal. */
  function Unquote(t: string): Option<string> {
    if |t| >= 2 && t[0] == '"' && t[|t| - 1] == '"' then Unescape(t[1..|t| - 1]) else None
  }

  /** A `\u00XX` escape reads back as the control character it was written for. */
  lemma UnicodeEscapeReads(c: char)
    requires c < ' '
    ensures CodePoint(UnicodeEscape(c)[2..6]) == Some(c)
  {
    var n := c as int;
    var h := UnicodeEscape(c)[2..6];
    assert h == ['0', '0', HexDigits[n / 16], HexDigits[n % 16]];
    assert HexValue(HexDigits[n / 16]) == Some(n / 16);
    assert HexValue(HexDigits[n % 16]) == Some(n % 16);
  }

  /** A control character without a short escape reads back from its `\u00XX` escape. */
  lemma UnescapeControl(c: char, rest: string)
    requires c < ' ' && c != '\U{0008}' && c != '\t' && c != '\n' && c != '\U{000C}' && c != '\r'
    ensures Unescape(EscapeChar(c) + rest) == Prepend(c, Unescape(rest))
  {
    var e := UnicodeEscape(c);
    assert EscapeChar(c) == e;
    var t := e + rest;
    UnicodeEscapeReads(c);
    assert t[0] == '\\' && t[1] == 'u' && ShortEscape(t[1]).None?;
    assert t[2..6] == e[2..6];
    assert t[6..] == rest;
  }

  /** A character with a two-character escape reads back from it. */
  lemma UnescapeShort(c: char, rest: string)
    requires |EscapeChar(c)| == 2
    ensures Unescape(EscapeChar(c) + rest) == Prepend(c, Unescape(rest))
  {
    var t := EscapeChar(c) + rest;
    assert t[2..] == rest;
  }

  /** Reading an escaped character in front of more text yields the character in front. */
  lemma UnescapeChar(c: char, rest: string)
    ensures Unescape(EscapeChar(c) + rest) == Prepend(c, Unescape(rest))
  {
    if c < ' ' && c != '\U{0008}' && c != '\t' && c != '\n' && c != '\U{000C}' && c != '\r' {
      UnescapeControl(c, rest);
    } else if |EscapeChar(c)| == 2 {
      UnescapeShort(c, rest);
    } else {
      var t := EscapeChar(c) + rest;
      assert t[1..] == rest;
    }
  }

  /** Reading back what JSON.stringify wrote gives the original string. */
  lemma {:induction false} UnescapeEscape(s: string)
    ensures Unescape(Escape(s)) == Some(s)
    decreases |s|
  {
    if |s| > 0 {
      UnescapeEscape(s[1..]);
      UnescapeChar(s[0], Escape(s[1..]));
      assert [s[0]] + s[1..] == s;
    }
  }

  /** `JSON.parse(JSON.stringify(s)) === s` for a string `s`. */
  lemma UnquoteQuote(s: string)
    ensures Unquote(Quote(s)) == Some(s)
  {
    var q := Quote(s);
    assert q[1..|q| - 1] == Escape(s);
    UnescapeEscape(s);
  }
}
