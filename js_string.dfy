/**
 * The JavaScript string built-ins the dashboard code relies on, over `seq<char>`:
 * `replace(/\D/g, '')`, `replace(/\s/g, '')`, `trim`, `startsWith`, `includes`,
 * `substring`/`slice`, `split(' ')` and ASCII `toLowerCase`/`toUpperCase`.
 */
module JsString {

  predicate IsDigit(c: char) {
    '0' <= c <= '9'
  }

  /** The value of a hex digit of either case, or -1. */
  function HexValue(c: char): (v: int)
    ensures -1 <= v < 16
  {
    if '0' <= c <= '9' then c as int - '0' as int
    else if 'A' <= c <= 'F' then c as int - 'A' as int + 10
    else if 'a' <= c <= 'f' then c as int - 'a' as int + 10
    else -1
  }

  predicate AllDigits(s: string) {
    forall i :: 0 <= i < |s| ==> IsDigit(s[i])
  }

  /** `s.replace(/\D/g, '')`: keeps the ASCII digits of `s`, in order. */
  function Digits(s: string): string {
    if s == [] then []
    else if IsDigit(s[0]) then [s[0]] + Digits(s[1..])
    else Digits(s[1..])
  }

  /** Only digits are kept, and a string of digits is kept whole. */
  lemma {:induction false} DigitsKept(s: string)
    ensures AllDigits(Digits(s))
    ensures |Digits(s)| <= |s|
    ensures AllDigits(s) ==> Digits(s) == s
  {
    if s != [] {
      DigitsKept(s[1..]);
      assert AllDigits(s) ==> AllDigits(s[1..]) by {
        if AllDigits(s) {
          forall i | 0 <= i < |s[1..]| ensures IsDigit(s[1..][i]) { assert s[1..][i] == s[i + 1]; }
        }
      }
      assert AllDigits(s) ==> s == [s[0]] + s[1..];
    }
  }

  lemma {:induction false} DigitsAppend(a: string, b: string)
    ensures Digits(a + b) == Digits(a) + Digits(b)
  {
    if a == [] {
      assert a + b == b;
    } else {
      assert (a + b)[1..] == a[1..] + b;
      DigitsAppend(a[1..], b);
    }
  }

  /** The white space and line terminators of ECMAScript: what `\s` matches and `trim` removes. */
  predicate IsWhiteSpace(c: char) {
    var u := c as int;
    || u == 0x09 || u == 0x0A || u == 0x0B || u == 0x0C || u == 0x0D || u == 0x20
    || u == 0xA0 || u == 0x1680 || (0x2000 <= u <= 0x200A)
    || u == 0x2028 || u == 0x2029 || u == 0x202F || u == 0x205F || u == 0x3000
    || u == 0xFEFF
  }

  /** The characters a regular-expression `.` does not match. */
  predicate IsLineTerminator(c: char) {
    var u := c as int;
    u == 0x0A || u == 0x0D || u == 0x2028 || u == 0x2029
  }

  predicate NoWhiteSpace(s: string) {
    forall i :: 0 <= i < |s| ==> !IsWhiteSpace(s[i])
  }

  /** `s.replace(/\s/g, '')`. */
  function RemoveWhiteSpace(s: string): string {
    if s == [] then []
    else if IsWhiteSpace(s[0]) then RemoveWhiteSpace(s[1..])
    else [s[0]] + RemoveWhiteSpace(s[1..])
  }

  /** No white space is kept, and a string without white space is kept whole. */
  lemma {:induction false} RemoveWhiteSpaceKept(s: string)
    ensures NoWhiteSpace(RemoveWhiteSpace(s))
    ensures |RemoveWhiteSpace(s)| <= |s|
    ensures NoWhiteSpace(s) ==> RemoveWhiteSpace(s) == s
  {
    if s != [] {
      RemoveWhiteSpaceKept(s[1..]);
      assert NoWhiteSpace(s) ==> NoWhiteSpace(s[1..]) by {
        if NoWhiteSpace(s) {
          forall i | 0 <= i < |s[1..]| ensures !IsWhiteSpace(s[1..][i]) { assert s[1..][i] == s[i + 1]; }
        }
      }
      assert NoWhiteSpace(s) ==> s == [s[0]] + s[1..];
    }
  }

  lemma {:induction false} RemoveWhiteSpaceAppend(a: string, b: string)
    ensures RemoveWhiteSpace(a + b) == RemoveWhiteSpace(a) + RemoveWhiteSpace(b)
  {
    if a == [] {
      assert a + b == b;
    } else {
      assert (a + b)[1..] == a[1..] + b;
      RemoveWhiteSpaceAppend(a[1..], b);
    }
  }

  function TrimStart(s: string): (r: string)
    ensures |r| <= |s| && r == s[|s| - |r|..]
    ensures r == [] || !IsWhiteSpace(r[0])
  {
    if s != [] && IsWhiteSpace(s[0]) then TrimStart(s[1..]) else s
  }

  function TrimEnd(s: string): (r: string)
    ensures |r| <= |s| && r == s[..|r|]
    ensures r == [] || !IsWhiteSpace(r[|r| - 1])
  {
    if s != [] && IsWhiteSpace(s[|s| - 1]) then TrimEnd(s[..|s| - 1]) else s
  }

  /** `s.trim()`: the result neither starts nor ends with white space. */
  function Trim(s: string): (r: string)
    ensures r == [] || (!IsWhiteSpace(r[0]) && !IsWhiteSpace(r[|r| - 1]))
  {
    TrimEnd(TrimStart(s))
  }

  /** Text that neither starts nor ends with white space is left as it is by the trims. */
  lemma {:induction false} TrimUnchanged(s: string)
    requires s == [] || (!IsWhiteSpace(s[0]) && !IsWhiteSpace(s[|s| - 1]))
    ensures TrimStart(s) == s && TrimEnd(s) == s && Trim(s) == s
  {
  }

  /** `s.startsWith(prefix)`. */
  predicate StartsWith(s: string, prefix: string) {
    |prefix| <= |s| && s[..|prefix|] == prefix
  }

  /** `s.includes(sub)`: `sub` occurs at some position of `s`. */
  predicate Contains(s: string, sub: string) {
    exists i :: 0 <= i <= |s| - |sub| && OccursAt(s, sub, i)
  }

  predicate OccursAt(s: string, sub: string, i: int) {
    0 <= i <= |s| - |sub| && s[i..i + |sub|] == sub
  }

  lemma {:induction false} ContainsEmpty(s: string)
    ensures Contains(s, "")
  {
    assert OccursAt(s, "", 0);
  }

  /** `s.substring(0, n)` and `s.slice(0, n)` for `n >= 0`, on strings and arrays alike. */
  function Take<T>(s: seq<T>, n: nat): (r: seq<T>)
    ensures |r| == if n <= |s| then n else |s|
    ensures r == s[..|r|]
  {
    if n <= |s| then s[..n] else s
  }

  /** `s.slice(-n)` for `n > 0`: the last `n` characters, or all of `s` when it is shorter. */
  function TakeLast(s: string, n: nat): (r: string)
    requires n > 0
    ensures |r| == if n <= |s| then n else |s|
    ensures r == s[|s| - |r|..]
  {
    if n <= |s| then s[|s| - n..] else s
  }

  function LowerChar(c: char): char {
    if 'A' <= c <= 'Z' then (c as int + 32) as char else c
  }

  function UpperChar(c: char): char {
    if 'a' <= c <= 'z' then (c as int - 32) as char else c
  }

  /** `s.toLowerCase()` on ASCII letters; every other character is kept. */
  function ToLower(s: string): (r: string)
    ensures |r| == |s|
    ensures forall i :: 0 <= i < |s| ==> r[i] == LowerChar(s[i])
  {
    seq(|s|, i requires 0 <= i < |s| => LowerChar(s[i]))
  }

  /** `s.toUpperCase()` on ASCII letters; every other character is kept. */
  function ToUpper(s: string): (r: string)
    ensures |r| == |s|
    ensures forall i :: 0 <= i < |s| ==> r[i] == UpperChar(s[i])
  {
    seq(|s|, i requires 0 <= i < |s| => UpperChar(s[i]))
  }

  lemma {:induction false} ToUpperIdempotent(s: string)
    ensures ToUpper(ToUpper(s)) == ToUpper(s)
  {
  }

  /** `s.toLowerCase().includes(q.toLowerCase())`: the case-insensitive search of the dashboard lists. */
  predicate MatchesIgnoringCase(s: string, q: string) {
    Contains(ToLower(s), ToLower(q))
  }

  lemma {:induction false} EmptyQueryMatches(s: string)
    ensures MatchesIgnoringCase(s, "")
  {
    ContainsEmpty(ToLower(s));
  }

  /** `s.split(' ')`: the pieces between single spaces; never empty, and `""` gives `[""]`. */
  function Split(s: string): (r: seq<string>)
    ensures |r| >= 1
    ensures forall i :: 0 <= i < |r| ==> ' ' !in r[i]
  {
    if s == [] then [""]
    else
      var rest := Split(s[1..]);
      if s[0] == ' ' then [""] + rest else [[s[0]] + rest[0]] + rest[1..]
  }
}
