/**
 * `encodeURIComponent` (section 19.2.6.4 of ECMA-262): every character outside the unreserved
 * set is written as the UTF-8 bytes of its code point, each as `%` and two upper-case hex
 * digits. `Decode` is `decodeURIComponent` on the strings `Encode` can produce, with the checks
 * that make it reject a malformed escape.
 */
module UriComponent {
  import opened Options
  import JsString

  /** The characters `encodeURIComponent` leaves as they are. */
  predicate Unreserved(c: char) {
    ('A' <= c <= 'Z') || ('a' <= c <= 'z') || ('0' <= c <= '9')
    || c == '-' || c == '_' || c == '.' || c == '!' || c == '~' || c == '*' || c == '\'' || c == '(' || c == ')'
  }

  predicate IsByte(b: int) {
    0 <= b < 256
  }

  function HexDigit(n: int): (c: char)
    requires 0 <= n < 16
    ensures ('0' <= c <= '9') || ('A' <= c <= 'F')
  {
    if n < 10 then ('0' as int + n) as char else ('A' as int + n - 10) as char
  }

  lemma {:induction false} HexRoundTrip(n: int)
    requires 0 <= n < 16
    ensures JsString.HexValue(HexDigit(n)) == n
  {
  }

  /** A Unicode scalar value: what a Dafny `char` holds. */
  predicate IsScalar(u: int) {
    (0 <= u < 0xD800) || (0xE000 <= u < 0x110000)
  }

  /** The UTF-8 encoding of the code point `u`. */
  function Utf8(u: int): (r: seq<int>)
    requires IsScalar(u)
    ensures 1 <= |r| <= 4
    ensures forall k :: 0 <= k < |r| ==> IsByte(r[k])
    ensures |r| == 1 <==> u < 0x80
  {
    var q1 := u / 64;
    var q2 := q1 / 64;
    if u < 0x80 then [u]
    else if u < 0x800 then [0xC0 + q1, 0x80 + u % 64]
    else if u < 0x10000 then [0xE0 + q2, 0x80 + q1 % 64, 0x80 + u % 64]
    else [0xF0 + q2 / 64, 0x80 + q2 % 64, 0x80 + q1 % 64, 0x80 + u % 64]
  }

  /** `%XY` for each byte. */
  function Escape(bytes: seq<int>): (r: string)
    requires forall k :: 0 <= k < |bytes| ==> IsByte(bytes[k])
    ensures |r| == 3 * |bytes|
  {
    if bytes == [] then []
    else
      assert IsByte(bytes[0]);
      ['%', HexDigit(bytes[0] / 16), HexDigit(bytes[0] % 16)] + Escape(bytes[1..])
  }

  function EncodeChar(c: char): (r: string)
    ensures Unreserved(c) ==> r == [c]
    ensures !Unreserved(c) ==> r != [] && r[0] == '%'
  {
    if Unreserved(c) then [c] else Escape(Utf8(c as int))
  }

  /** `encodeURIComponent(s)`. */
  function Encode(s: string): (r: string)
    ensures |r| >= |s|
  {
    if s == [] then [] else EncodeChar(s[0]) + Encode(s[1..])
  }

  /** What the encoding may contain: unreserved characters and `%`. */
  predicate Safe(s: string) {
    forall k :: 0 <= k < |s| ==> Unreserved(s[k]) || s[k] == '%'
  }

  /** A hex digit as the encoding writes it: `0`-`9` or `A`-`F`. */
  predicate IsUpperHex(c: char) {
    ('0' <= c <= '9') || ('A' <= c <= 'F')
  }

  /** Text that reads as unreserved characters and `%XY` escapes of two upper-case hex digits. */
  predicate WellEscaped(s: string)
    decreases |s|
  {
    if s == [] then true
    else if Unreserved(s[0]) then WellEscaped(s[1..])
    else |s| >= 3 && s[0] == '%' && IsUpperHex(s[1]) && IsUpperHex(s[2]) && WellEscaped(s[3..])
  }

  /** In well-escaped text every `%` starts an escape: two upper-case hex digits follow it. */
  lemma {:induction false} WellEscapedPercents(s: string)
    requires WellEscaped(s)
    ensures forall k :: 0 <= k < |s| && s[k] == '%' ==> k + 2 < |s| && IsUpperHex(s[k + 1]) && IsUpperHex(s[k + 2])
    decreases |s|
  {
    if s != [] {
      var n := if Unreserved(s[0]) then 1 else 3;
      WellEscapedPercents(s[n..]);
      forall k | 0 <= k < |s| && s[k] == '%'
        ensures k + 2 < |s| && IsUpperHex(s[k + 1]) && IsUpperHex(s[k + 2])
      {
        if k >= n {
          assert s[n..][k - n] == s[k];
        }
      }
    }
  }

  /** Well-escaped text joined to well-escaped text is well escaped. */
  lemma {:induction false} WellEscapedAppend(a: string, b: string)
    requires WellEscaped(a) && WellEscaped(b)
    ensures WellEscaped(a + b)
    decreases |a|
  {
    if a == [] {
      assert a + b == b;
    } else if Unreserved(a[0]) {
      WellEscapedAppend(a[1..], b);
      WellEscapedUnreserved(a, b);
    } else {
      WellEscapedAppend(a[3..], b);
      WellEscapedEscape(a, b);
    }
  }

  /** One unreserved character in front of well-escaped text. */
  lemma {:induction false} WellEscapedUnreserved(a: string, b: string)
    requires a != [] && Unreserved(a[0]) && WellEscaped(a[1..] + b)
    ensures WellEscaped(a + b)
  {
    assert (a + b)[1..] == a[1..] + b;
  }

  /** One `%XY` escape in front of well-escaped text. */
  lemma {:induction false} WellEscapedEscape(a: string, b: string)
    requires |a| >= 3 && a[0] == '%' && IsUpperHex(a[1]) && IsUpperHex(a[2]) && WellEscaped(a[3..] + b)
    ensures WellEscaped(a + b)
  {
    assert (a + b)[3..] == a[3..] + b;
  }

  lemma {:induction false} EscapeWellEscaped(bytes: seq<int>)
    requires forall k :: 0 <= k < |bytes| ==> IsByte(bytes[k])
    ensures WellEscaped(Escape(bytes))
  {
    if bytes != [] {
      EscapeWellEscaped(bytes[1..]);
      var x := ['%', HexDigit(bytes[0] / 16), HexDigit(bytes[0] % 16)];
      assert x[3..] + Escape(bytes[1..]) == Escape(bytes[1..]);
      WellEscapedEscape(x, Escape(bytes[1..]));
    }
  }

  lemma {:induction false} EscapeSafe(bytes: seq<int>)
    requires forall k :: 0 <= k < |bytes| ==> IsByte(bytes[k])
    ensures Safe(Escape(bytes))
  {
    if bytes != [] {
      EscapeSafe(bytes[1..]);
    }
  }

  /**
   * The encoding holds only unreserved characters and `%`: no `/`, `?`, `&`, `#`, `=` or space
   * survives, so it can stand as one query value. Every `%` starts a `%XY` escape.
   */
  lemma {:induction false} EncodeSafe(s: string)
    ensures Safe(Encode(s))
    ensures forall k :: 0 <= k < |Encode(s)| ==> Encode(s)[k] !in "/?&#= "
    ensures forall k :: 0 <= k < |Encode(s)| && Encode(s)[k] == '%' ==>
              k + 2 < |Encode(s)| && IsUpperHex(Encode(s)[k + 1]) && IsUpperHex(Encode(s)[k + 2])
  {
    EncodeSafeParts(s);
    WellEscapedPercents(Encode(s));
  }

  lemma {:induction false} EncodeSafeParts(s: string)
    ensures Safe(Encode(s)) && WellEscaped(Encode(s))
    ensures forall k :: 0 <= k < |Encode(s)| ==> Encode(s)[k] !in "/?&#= "
  {
    if s != [] {
      EncodeSafeParts(s[1..]);
      var head, rest := EncodeChar(s[0]), Encode(s[1..]);
      assert Safe(head) && WellEscaped(head) by {
        if !Unreserved(s[0]) {
          EscapeSafe(Utf8(s[0] as int));
          EscapeWellEscaped(Utf8(s[0] as int));
        } else {
          assert head[1..] == [];
        }
      }
      SafeAppend(head, rest);
      WellEscapedAppend(head, rest);
    }
  }

  /** Safe text joined to safe text is safe, and has none of `/?&#= `. */
  lemma {:induction false} SafeAppend(a: string, b: string)
    requires Safe(a) && Safe(b)
    ensures Safe(a + b)
    ensures forall k :: 0 <= k < |a + b| ==> (a + b)[k] !in "/?&#= "
  {
    forall k | 0 <= k < |a + b|
      ensures Unreserved((a + b)[k]) || (a + b)[k] == '%'
    {
      if k < |a| { assert (a + b)[k] == a[k]; } else { assert (a + b)[k] == b[k - |a|]; }
    }
  }

  /** A string of unreserved characters is its own encoding. */
  lemma {:induction false} EncodeUnreserved(s: string)
    requires forall k :: 0 <= k < |s| ==> Unreserved(s[k])
    ensures Encode(s) == s
  {
    if s != [] {
      EncodeUnreserved(s[1..]);
    }
  }

  lemma {:induction false} EncodeAppend(a: string, b: string)
    ensures Encode(a + b) == Encode(a) + Encode(b)
  {
    if a == [] {
      assert a + b == b;
    } else {
      assert (a + b)[1..] == a[1..] + b;
      EncodeAppend(a[1..], b);
    }
  }

  // ---------------------------------------------------------------------------------------------
  // Decoding

  /** The byte written as `%XY` at the front of `s`, if there is one. */
  function ReadByte(s: string): (r: Option<int>)
    ensures r.Some? ==> IsByte(r.value) && |s| >= 3
  {
    if |s| >= 3 && s[0] == '%' && JsString.HexValue(s[1]) >= 0 && JsString.HexValue(s[2]) >= 0 then
      Some(JsString.HexValue(s[1]) * 16 + JsString.HexValue(s[2]))
    else None
  }

  /** `n` escaped continuation bytes (`0x80`–`0xBF`) at the front of `s`. */
  function ReadContinuation(s: string, n: nat): (r: Option<seq<int>>)
    ensures r.Some? ==> |r.value| == n && |s| >= 3 * n
    ensures r.Some? ==> forall k :: 0 <= k < n ==> 0x80 <= r.value[k] < 0xC0
  {
    if n == 0 then Some([])
    else
      match ReadByte(s)
      case None => None
      case Some(b) =>
        if 0x80 <= b < 0xC0 then
          match ReadContinuation(s[3..], n - 1)
          case None => None
          case Some(rest) => Some([b] + rest)
        else None
  }

  /** The number of bytes a UTF-8 sequence with lead byte `b` has, or 0 if `b` cannot lead. */
  function SequenceLength(b: int): (n: int)
    ensures 0 <= n <= 4
  {
    if b < 0x80 then 1
    else if 0xC2 <= b < 0xE0 then 2
    else if 0xE0 <= b < 0xF0 then 3
    else if 0xF0 <= b < 0xF5 then 4
    else 0
  }

  /** The code point of lead byte `b` and continuation bytes `cs`, rejecting overlong forms and surrogates. */
  function CodePoint(b: int, cs: seq<int>): (r: Option<char>)
    requires |cs| == SequenceLength(b) - 1 && SequenceLength(b) >= 1
    requires forall k :: 0 <= k < |cs| ==> 0x80 <= cs[k] < 0xC0
  {
    var u :=
      if |cs| == 0 then b
      else if |cs| == 1 then (b - 0xC0) * 64 + (cs[0] - 0x80)
      else if |cs| == 2 then (b - 0xE0) * 4096 + (cs[0] - 0x80) * 64 + (cs[1] - 0x80)
      else (b - 0xF0) * 262144 + (cs[0] - 0x80) * 4096 + (cs[1] - 0x80) * 64 + (cs[2] - 0x80);
    var least := if |cs| == 0 then 0 else if |cs| == 1 then 0x80 else if |cs| == 2 then 0x800 else 0x10000;
    if least <= u && IsScalar(u) then Some(u as char) else None
  }

  /** Decodes the character at the front of `s`: the character and what follows it. */
  function DecodeFirst(s: string): (r: Option<(char, string)>)
    requires s != []
    ensures r.Some? ==> |r.value.1| < |s|
  {
    if s[0] != '%' then Some((s[0], s[1..]))
    else
      match ReadByte(s)
      case None => None
      case Some(b) =>
        var n := SequenceLength(b);
        if n == 0 then None
        else
          match ReadContinuation(s[3..], n - 1)
          case None => None
          case Some(cs) =>
            match CodePoint(b, cs)
            case None => None
            case Some(c) => Some((c, s[3 * n..]))
  }

  /** `decodeURIComponent(s)`; `None` is the `URIError` it throws on a malformed escape. */
  function Decode(s: string): Option<string>
    decreases |s|
  {
    if s == [] then Some([])
    else
      match DecodeFirst(s)
      case None => None
      case Some((c, rest)) =>
        match Decode(rest)
        case None => None
        case Some(t) => Some([c] + t)
  }

  lemma {:induction false} ReadByteEscape(b: int, rest: string)
    requires IsByte(b)
    ensures ReadByte(['%', HexDigit(b / 16), HexDigit(b % 16)] + rest) == Some(b)
  {
    HexRoundTrip(b / 16);
    HexRoundTrip(b % 16);
  }

  lemma {:induction false} ReadContinuationEscape(cs: seq<int>, rest: string)
    requires forall k :: 0 <= k < |cs| ==> 0x80 <= cs[k] < 0xC0
    ensures ReadContinuation(Escape(cs) + rest, |cs|) == Some(cs)
  {
    if cs != [] {
      var tail := Escape(cs[1..]) + rest;
      var s := Escape(cs) + rest;
      assert s == ['%', HexDigit(cs[0] / 16), HexDigit(cs[0] % 16)] + tail;
      ReadByteEscape(cs[0], tail);
      ReadContinuationEscape(cs[1..], rest);
      ReadContinuationStep(s, |cs|, cs[0], cs[1..]);
      assert [cs[0]] + cs[1..] == cs;
    }
  }

  /** One continuation byte in front of the remaining ones. */
  lemma {:induction false} ReadContinuationStep(s: string, n: nat, b: int, bs: seq<int>)
    requires n > 0 && ReadByte(s) == Some(b) && 0x80 <= b < 0xC0
    requires ReadContinuation(s[3..], n - 1) == Some(bs)
    ensures ReadContinuation(s, n) == Some([b] + bs)
  {
  }

  /** The lead byte announces the sequence's length, and the bytes give back the code point. */
  lemma {:induction false} Utf8Decodes(u: int)
    requires IsScalar(u)
    ensures SequenceLength(Utf8(u)[0]) == |Utf8(u)|
    ensures forall k :: 1 <= k < |Utf8(u)| ==> 0x80 <= Utf8(u)[k] < 0xC0
    ensures CodePoint(Utf8(u)[0], Utf8(u)[1..]) == Some(u as char)
  {
    if u < 0x80 {
    } else if u < 0x800 {
      Utf8DecodesTwo(u);
    } else if u < 0x10000 {
      Utf8DecodesThree(u);
    } else {
      Utf8DecodesFour(u);
    }
  }

  lemma {:induction false} Utf8DecodesTwo(u: int)
    requires 0x80 <= u < 0x800
    ensures SequenceLength(Utf8(u)[0]) == |Utf8(u)| == 2
    ensures 0x80 <= Utf8(u)[1] < 0xC0
    ensures CodePoint(Utf8(u)[0], Utf8(u)[1..]) == Some(u as char)
  {
    var q1 := u / 64;
    assert u == 64 * q1 + u % 64;
    assert Utf8(u) == [0xC0 + q1, 0x80 + u % 64];
  }

  lemma {:induction false} Utf8DecodesThree(u: int)
    requires 0x800 <= u < 0x10000 && IsScalar(u)
    ensures SequenceLength(Utf8(u)[0]) == |Utf8(u)| == 3
    ensures 0x80 <= Utf8(u)[1] < 0xC0 && 0x80 <= Utf8(u)[2] < 0xC0
    ensures CodePoint(Utf8(u)[0], Utf8(u)[1..]) == Some(u as char)
  {
    var q1 := u / 64;
    var q2 := q1 / 64;
    assert u == 64 * q1 + u % 64;
    assert q1 == 64 * q2 + q1 % 64;
    assert Utf8(u) == [0xE0 + q2, 0x80 + q1 % 64, 0x80 + u % 64];
  }

  lemma {:induction false} Utf8DecodesFour(u: int)
    requires 0x10000 <= u < 0x110000
    ensures SequenceLength(Utf8(u)[0]) == |Utf8(u)| == 4
    ensures 0x80 <= Utf8(u)[1] < 0xC0 && 0x80 <= Utf8(u)[2] < 0xC0 && 0x80 <= Utf8(u)[3] < 0xC0
    ensures CodePoint(Utf8(u)[0], Utf8(u)[1..]) == Some(u as char)
  {
    var q1 := u / 64;
    var q2 := q1 / 64;
    assert u == 64 * q1 + u % 64;
    assert q1 == 64 * q2 + q1 % 64;
    assert q2 == 64 * (q2 / 64) + q2 % 64;
    assert Utf8(u) == [0xF0 + q2 / 64, 0x80 + q2 % 64, 0x80 + q1 % 64, 0x80 + u % 64];
  }

  /** Decoding reads back the character that `EncodeChar` wrote, and stops right after it. */
  lemma {:induction false} DecodeFirstEncodeChar(c: char, rest: string)
    ensures DecodeFirst(EncodeChar(c) + rest) == Some((c, rest))
  {
    if !Unreserved(c) {
      var u := c as int;
      var bytes := Utf8(u);
      var s := Escape(bytes) + rest;
      assert s == ['%', HexDigit(bytes[0] / 16), HexDigit(bytes[0] % 16)] + (Escape(bytes[1..]) + rest);
      ReadByteEscape(bytes[0], Escape(bytes[1..]) + rest);
      Utf8Decodes(u);
      assert s[3..] == Escape(bytes[1..]) + rest;
      ReadContinuationEscape(bytes[1..], rest);
      assert s[3 * |bytes|..] == rest;
    }
  }

  /** `decodeURIComponent(encodeURIComponent(s)) == s`: the encoding loses nothing. */
  lemma {:induction false} DecodeEncode(s: string)
    ensures Decode(Encode(s)) == Some(s)
    decreases |s|
  {
    if s != [] {
      var rest := Encode(s[1..]);
      assert Encode(s) == EncodeChar(s[0]) + rest;
      DecodeFirstEncodeChar(s[0], rest);
      DecodeEncode(s[1..]);
      DecodeStep(EncodeChar(s[0]) + rest, s[0], rest, s[1..]);
      assert [s[0]] + s[1..] == s;
    }
  }

  /** One decoded character followed by the decoding of the rest. */
  lemma {:induction false} DecodeStep(s: string, c: char, rest: string, t: string)
    requires s != [] && DecodeFirst(s) == Some((c, rest)) && Decode(rest) == Some(t)
    ensures Decode(s) == Some([c] + t)
  {
  }
}
