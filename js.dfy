/**
 * The JavaScript values the code handles as loosely typed data (request
 * bodies, CSV cells), JavaScript's notion of a "falsy" value, and
 * JSON.stringify on those values, with a JSON string decoder as its inverse.
 * Numbers are integral here: floating point is not part of this model.
 */
module Js {
  import opened Base

  datatype JsValue =
    | Undefined
    | Null
    | Bool(b: bool)
    | Num(n: int)
    | NaN
    | Str(s: string)

  /** `!v` in JavaScript: undefined, null, false, 0, NaN and "" are falsy. */
  predicate Falsy(v: JsValue) {
    match v
    case Undefined => true
    case Null => true
    case Bool(b) => !b
    case Num(n) => n == 0
    case NaN => true
    case Str(s) => s == ""
  }

  // ---------------------------------------------------------------------
  // JSON string quoting (the QuoteJSONString step of JSON.stringify)
  // ---------------------------------------------------------------------

  const Backspace: char := '\U{0008}'
  const FormFeed: char := '\U{000C}'

  function HexDigit(d: nat): (c: char)
    requires d < 16
  {
    if d < 10 then DigitChar(d) else (('a' as int) + d - 10) as char
  }

  predicate IsHex(c: char) { '0' <= c <= '9' || 'a' <= c <= 'f' || 'A' <= c <= 'F' }

  function HexValue(c: char): (d: nat)
    requires IsHex(c)
    ensures d < 16
  {
    if '0' <= c <= '9' then (c as int) - ('0' as int)
    else if 'a' <= c <= 'f' then (c as int) - ('a' as int) + 10
    else (c as int) - ('A' as int) + 10
  }

  /** The escape JSON.stringify writes for one character of a string. */
  function EscapeChar(c: char): (e: string)
    ensures |e| >= 1
    ensures '\n' !in e
  {
    if c == '"' then "\\\""
    else if c == '\\' then "\\\\"
    else if c == Backspace then "\\b"
    else if c == FormFeed then "\\f"
    else if c == '\n' then "\\n"
    else if c == '\r' then "\\r"
    else if c == '\t' then "\\t"
    else if c < ' ' then "\\u00" + [HexDigit((c as int) / 16), HexDigit((c as int) % 16)]
    else [c]
  }

  function Escape(s: string): (e: string)
    decreases |s|
  {
    if s == [] then [] else EscapeChar(s[0]) + Escape(s[1..])
  }

  /** JSON.stringify(s) for a string s: quoted and escaped. */
  function QuoteString(s: string): string {
    "\"" + Escape(s) + "\""
  }

  /** Escaped text never contains a raw line feed. */
  lemma {:induction false} EscapeHasNoNewline(s: string)
    ensures '\n' !in Escape(s)
    decreases |s|
  {
    if s != [] {
      EscapeHasNoNewline(s[1..]);
    }
  }

  // ---------------------------------------------------------------------
  // JSON string decoding, the inverse of QuoteString
  // ---------------------------------------------------------------------

  /** The character a one-letter JSON escape (after the backslash) stands for. */
  function SimpleEscape(e: char): Option<char> {
    if e == '"' then Some('"')
    else if e == '\\' then Some('\\')
    else if e == '/' then Some('/')
    else if e == 'b' then Some(Backspace)
    else if e == 'f' then Some(FormFeed)
    else if e == 'n' then Some('\n')
    else if e == 'r' then Some('\r')
    else if e == 't' then Some('\t')
    else None
  }

  /** The character of a `\uXXXX` escape, when it is not a surrogate half. */
  function UnicodeEscape(h: string): Option<char>
    requires |h| == 4
  {
    if !(IsHex(h[0]) && IsHex(h[1]) && IsHex(h[2]) && IsHex(h[3])) then None
    else
      var code := ((HexValue(h[0]) * 16 + HexValue(h[1])) * 16 + HexValue(h[2])) * 16 + HexValue(h[3]);
      if 0xD800 <= code < 0xE000 then None else Some(code as char)
  }

  /** Decodes the body of a JSON string literal (the text between the quotes). */
  function Unescape(s: string): Option<string>
    decreases |s|
  {
    if s == [] then Some([])
    else if s[0] == '\\' then
      if |s| < 2 then None
      else if s[1] == 'u' then
        if |s| < 6 then None
        else match (UnicodeEscape(s[2..6]), Unescape(s[6..]))
          case (Some(c), Some(rest)) => Some([c] + rest)
          case _ => None
      else match (SimpleEscape(s[1]), Unescape(s[2..]))
        case (Some(c), Some(rest)) => Some([c] + rest)
        case _ => None
    else if s[0] == '"' || s[0] < ' ' then None
    else match Unescape(s[1..])
      case Some(rest) => Some([s[0]] + rest)
      case None => None
  }

  /** JSON.parse of a JSON string literal. */
  function DecodeString(t: string): Option<string> {
    if |t| >= 2 && t[0] == '"' && t[|t| - 1] == '"' then Unescape(t[1..|t| - 1]) else None
  }

  /** Decoding one escaped character followed by decodable text. */
  lemma UnescapeEscapeChar(c: char, rest: string, tail: string)
    requires Unescape(rest) == Some(tail)
    ensures Unescape(EscapeChar(c) + rest) == Some([c] + tail)
  {
    var s := EscapeChar(c) + rest;
    if c == '"' || c == '\\' || c == Backspace || c == FormFeed || c == '\n' || c == '\r' || c == '\t' {
      assert s[2..] == rest;
    } else if c < ' ' {
      var v := c as int;
      assert s[2..6] == "00" + [HexDigit(v / 16), HexDigit(v % 16)];
      assert s[6..] == rest;
      assert HexValue(HexDigit(v / 16)) == v / 16;
      assert HexValue(HexDigit(v % 16)) == v % 16;
    } else {
      assert s[1..] == rest;
    }
  }

  /** Escaping and then unescaping gives the text back. */
  lemma {:induction false} UnescapeEscape(s: string)
    ensures Unescape(Escape(s)) == Some(s)
    decreases |s|
  {
    if s != [] {
      UnescapeEscape(s[1..]);
      UnescapeEscapeChar(s[0], Escape(s[1..]), s[1..]);
      assert [s[0]] + s[1..] == s;
    }
  }

  /** JSON.parse(JSON.stringify(s)) == s for every string s. */
  lemma DecodeQuoteString(s: string)
    ensures DecodeString(QuoteString(s)) == Some(s)
  {
    var t := QuoteString(s);
    assert t[1..|t| - 1] == Escape(s);
    UnescapeEscape(s);
  }

  // ---------------------------------------------------------------------
  // JSON.stringify on a single value
  // ---------------------------------------------------------------------

  /**
   * JSON.stringify(v); None stands for the `undefined` it returns for
   * `undefined`. NaN is written as `null`.
   */
  function Stringify(v: JsValue): (r: Option<string>)
    ensures r.None? <==> v.Undefined?
    ensures v.Str? ==> r == Some(QuoteString(v.s))
  {
    match v
    case Undefined => None
    case Null => Some("null")
    case Bool(b) => Some(if b then "true" else "false")
    case Num(n) => Some(IntToString(n))
    case NaN => Some("null")
    case Str(s) => Some(QuoteString(s))
  }

  /** What JSON.stringify writes never holds a raw line feed. */
  lemma StringifyHasNoNewline(v: JsValue)
    requires v != Undefined
    ensures '\n' !in Stringify(v).value
  {
    match v
    case Str(s) =>
      EscapeHasNoNewline(s);
      assert QuoteString(s) == "\"" + Escape(s) + "\"";
    case Num(n) =>
      var t := IntToString(n);
      assert forall i :: 0 <= i < |t| ==> t[i] != '\n';
    case _ =>
  }
}
