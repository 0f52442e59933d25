/**
 * `JSON.stringify` of a string (section 25.5.2.3 of ECMA-262, QuoteJSONString) and the matching
 * `JSON.parse` reading of a string literal, enough to state that what is stored reads back.
 */
module JsonText {
  import opened Options
  import JsString

  function HexLower(n: int): (c: char)
    requires 0 <= n < 16
  {
    if n < 10 then ('0' as int + n) as char else ('a' as int + n - 10) as char
  }

  /** How one character is written inside a JSON string literal. */
  function EscapeChar(c: char): (r: string)
    ensures 1 <= |r| <= 6
    ensures r[0] != '"'
    ensures c as int >= 0x20 && c != '"' && c != '\\' ==> r == [c]
  {
    var u := c as int;
    if c == '"' then "\\\""
    else if c == '\\' then "\\\\"
    else if u == 0x08 then "\\b"
    else if u == 0x0C then "\\f"
    else if u == 0x0A then "\\n"
    else if u == 0x0D then "\\r"
    else if u == 0x09 then "\\t"
    else if u < 0x20 then "\\u00" + [HexLower(u / 16), HexLower(u % 16)]
    else [c]
  }

  function EscapeAll(s: string): (r: string)
    ensures |r| >= |s|
  {
    if s == [] then [] else EscapeChar(s[0]) + EscapeAll(s[1..])
  }

  /** `JSON.stringify(s)` for a string `s`. */
  function Quote(s: string): (r: string)
    ensures |r| >= 2 && r[0] == '"' && r[|r| - 1] == '"'
  {
    "\"" + EscapeAll(s) + "\""
  }

  /** Reads one character of a string literal's body; `None` at the closing quote or on an error. */
  function ReadChar(s: string): (r: Option<(char, string)>)
    requires s != []
    ensures r.Some? ==> |r.value.1| < |s|
  {
    var c := s[0];
    if c == '"' || (c as int) < 0x20 then None
    else if c != '\\' then Some((c, s[1..]))
    else if |s| < 2 then None
    else
      var e := s[1];
      if e == '"' || e == '\\' || e == '/' then Some((e, s[2..]))
      else if e == 'b' then Some((8 as char, s[2..]))
      else if e == 'f' then Some((12 as char, s[2..]))
      else if e == 'n' then Some((10 as char, s[2..]))
      else if e == 'r' then Some((13 as char, s[2..]))
      else if e == 't' then Some((9 as char, s[2..]))
      else if e == 'u' && |s| >= 6 && JsString.HexValue(s[2]) >= 0 && JsString.HexValue(s[3]) >= 0 && JsString.HexValue(s[4]) >= 0 && JsString.HexValue(s[5]) >= 0 then
        var u := JsString.HexValue(s[2]) * 4096 + JsString.HexValue(s[3]) * 256 + JsString.HexValue(s[4]) * 16 + JsString.HexValue(s[5]);
        if u < 0xD800 || u >= 0xE000 then Some((u as char, s[6..])) else None
      else None
  }

  /** The body of a string literal up to its closing quote: the text and what follows the quote. */
  function ReadBody(s: string): (r: Option<(string, string)>)
    ensures r.Some? ==> |r.value.1| < |s|
    decreases |s|
  {
    if s == [] then None
    else if s[0] == '"' then Some(([], s[1..]))
    else
      match ReadChar(s)
      case None => None
      case Some((c, rest)) =>
        match ReadBody(rest)
        case None => None
        case Some((t, after)) => Some(([c] + t, after))
  }

  /** A string literal at the front of `s`: its value and what follows it. */
  function ReadString(s: string): (r: Option<(string, string)>)
    ensures r.Some? ==> |r.value.1| < |s|
  {
    if s != [] && s[0] == '"' then ReadBody(s[1..]) else None
  }

  lemma {:induction false} ReadEscapedChar(c: char, rest: string)
    ensures ReadChar(EscapeChar(c) + rest) == Some((c, rest))
  {
    var u := c as int;
    var s := EscapeChar(c) + rest;
    if u < 0x20 && u != 0x08 && u != 0x0C && u != 0x0A && u != 0x0D && u != 0x09 {
      assert s[2..6] == ['u', '0', '0', HexLower(u / 16), HexLower(u % 16)][1..];
      assert JsString.HexValue(HexLower(u / 16)) == u / 16;
      assert JsString.HexValue(HexLower(u % 16)) == u % 16;
      assert s[6..] == rest;
    }
  }

  lemma {:induction false} ReadEscapedBody(s: string, rest: string)
    ensures ReadBody(EscapeAll(s) + "\"" + rest) == Some((s, rest))
  {
    if s == [] {
      assert EscapeAll(s) + "\"" + rest == ['"'] + rest;
    } else {
      var t := EscapeAll(s[1..]) + "\"" + rest;
      assert EscapeAll(s) + "\"" + rest == EscapeChar(s[0]) + t;
      ReadEscapedChar(s[0], t);
      ReadEscapedBody(s[1..], rest);
      assert [s[0]] + s[1..] == s;
    }
  }

  /** `JSON.parse(JSON.stringify(s)) === s`, even with text after the literal. */
  lemma {:induction false} QuoteRoundTrip(s: string, rest: string)
    ensures ReadString(Quote(s) + rest) == Some((s, rest))
  {
    assert (Quote(s) + rest)[1..] == EscapeAll(s) + "\"" + rest;
    ReadEscapedBody(s, rest);
  }

  /** A JSON value that is a string or `null`. */
  function QuoteOrNull(v: Option<string>): (r: string)
    ensures r != []
  {
    if v.Some? then Quote(v.value) else "null"
  }

  function ReadStringOrNull(s: string): (r: Option<(Option<string>, string)>)
  {
    if |s| >= 4 && s[..4] == "null" then Some((None, s[4..]))
    else
      match ReadString(s)
      case None => None
      case Some((t, rest)) => Some((Some(t), rest))
  }

  lemma {:induction false} QuoteOrNullRoundTrip(v: Option<string>, rest: string)
    ensures ReadStringOrNull(QuoteOrNull(v) + rest) == Some((v, rest))
  {
    if v.Some? {
      QuoteRoundTrip(v.value, rest);
      assert (QuoteOrNull(v) + rest)[0] == '"';
    } else {
      assert (QuoteOrNull(v) + rest)[..4] == "null";
      assert (QuoteOrNull(v) + rest)[4..] == rest;
    }
  }

  /** `s` with `lit` removed from its front, if it starts with it. */
  function Expect(s: string, lit: string): (r: Option<string>)
  {
    if |lit| <= |s| && s[..|lit|] == lit then Some(s[|lit|..]) else None
  }

  lemma {:induction false} ExpectLiteral(lit: string, rest: string)
    ensures Expect(lit + rest, lit) == Some(rest)
  {
    assert (lit + rest)[..|lit|] == lit;
    assert (lit + rest)[|lit|..] == rest;
  }
}
