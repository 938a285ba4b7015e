/**
 * The text conversions of the Python 2 runtime that the request builder relies on:
 * `str()` of an integer, `','.join(...)`, `unicode.encode('UTF-8')` and the implicit
 * ASCII encoding `str()` applies to a unicode object. Each comes with the inverse
 * it is checked against.
 *
 * A Python 2 byte string is modelled as a `string` holding one character per byte
 * (every character below 256).
 */
module Text {
  import opened Wrappers

  // ---------------------------------------------------------------------------
  // Decimal rendering of integers (str(n) for int and long)
  // ---------------------------------------------------------------------------

  predicate IsDigit(c: char) {
    '0' <= c <= '9'
  }

  predicate AllDigits(s: string) {
    forall i :: 0 <= i < |s| ==> IsDigit(s[i])
  }

  function DigitChar(d: nat): (c: char)
    requires d < 10
    ensures IsDigit(c) && c as int - '0' as int == d
  {
    ('0' as int + d) as char
  }

  /** The decimal digits of `n`, most significant first, with no leading zero. */
  function Digits(n: nat): (s: string)
    ensures |s| >= 1 && AllDigits(s)
    ensures s[0] == '0' <==> n == 0
  {
    if n < 10 then [DigitChar(n)] else Digits(n / 10) + [DigitChar(n % 10)]
  }

  /** The number a string of decimal digits denotes. */
  function DigitsValue(s: string): nat
    requires AllDigits(s)
  {
    if s == [] then 0 else DigitsValue(s[..|s| - 1]) * 10 + (s[|s| - 1] as int - '0' as int)
  }

  lemma {:induction false} DigitsRoundTrip(n: nat)
    ensures DigitsValue(Digits(n)) == n
  {
    if n >= 10 {
      var s := Digits(n);
      assert s[..|s| - 1] == Digits(n / 10);
      DigitsRoundTrip(n / 10);
    }
  }

  /** `str(i)` for a Python int or long: an optional minus sign, then the digits. */
  function IntToString(i: int): (s: string)
    ensures |s| >= 1
    ensures forall c :: c in s ==> c == '-' || IsDigit(c)
  {
    if i < 0 then "-" + Digits(-i) else Digits(i)
  }

  /** Reads back a canonical decimal rendering. */
  function ParseInt(s: string): Option<int> {
    if |s| > 1 && s[0] == '-' && AllDigits(s[1..]) then Some(0 - DigitsValue(s[1..]))
    else if |s| > 0 && AllDigits(s) then Some(DigitsValue(s))
    else None
  }

  lemma IntToStringRoundTrip(i: int)
    ensures ParseInt(IntToString(i)) == Some(i)
  {
    var s := IntToString(i);
    if i < 0 {
      assert s[0] == '-' && s[1..] == Digits(-i);
      DigitsRoundTrip(-i);
    } else {
      assert s == Digits(i) && IsDigit(s[0]);
      DigitsRoundTrip(i);
    }
  }

  /** Distinct integers render differently, so the rendering loses nothing. */
  lemma IntToStringInjective(i: int, j: int)
    requires IntToString(i) == IntToString(j)
    ensures i == j
  {
    IntToStringRoundTrip(i);
    IntToStringRoundTrip(j);
  }

  // ---------------------------------------------------------------------------
  // sep.join(parts) and its inverse
  // ---------------------------------------------------------------------------

  /** `sep.join(parts)`: the parts in order, one separator between neighbours. */
  function Join(sep: char, parts: seq<string>): (s: string)
    ensures |parts| == 0 ==> s == ""
    ensures |parts| == 1 ==> s == parts[0]
  {
    if |parts| == 0 then ""
    else if |parts| == 1 then parts[0]
    else parts[0] + [sep] + Join(sep, parts[1..])
  }

  /** `s.split(sep)`: the maximal separator-free pieces of `s`, in order. */
  function Split(sep: char, s: string): (parts: seq<string>)
    ensures |parts| >= 1
    ensures forall i :: 0 <= i < |parts| ==> sep !in parts[i]
  {
    if |s| == 0 then [""]
    else
      var rest := Split(sep, s[1..]);
      if s[0] == sep then [""] + rest else [[s[0]] + rest[0]] + rest[1..]
  }

  lemma {:induction false} SplitNoSeparator(sep: char, p: string)
    requires sep !in p
    ensures Split(sep, p) == [p]
  {
    if |p| > 0 {
      SplitNoSeparator(sep, p[1..]);
      assert [p[0]] + p[1..] == p;
    }
  }

  lemma {:induction false} SplitFirstPiece(sep: char, p: string, t: string)
    requires sep !in p
    ensures Split(sep, p + [sep] + t) == [p] + Split(sep, t)
  {
    var s := p + [sep] + t;
    if |p| == 0 {
      assert s[0] == sep && s[1..] == t;
    } else {
      assert s[0] == p[0] && s[1..] == p[1..] + [sep] + t;
      SplitFirstPiece(sep, p[1..], t);
      assert [p[0]] + p[1..] == p;
    }
  }

  /** Splitting a join gives the parts back, provided no part holds the separator. */
  lemma {:induction false} SplitJoin(sep: char, parts: seq<string>)
    requires |parts| >= 1
    requires forall i :: 0 <= i < |parts| ==> sep !in parts[i]
    ensures Split(sep, Join(sep, parts)) == parts
  {
    if |parts| == 1 {
      SplitNoSeparator(sep, parts[0]);
    } else {
      SplitFirstPiece(sep, parts[0], Join(sep, parts[1..]));
      SplitJoin(sep, parts[1..]);
      assert [parts[0]] + parts[1..] == parts;
    }
  }

  // ---------------------------------------------------------------------------
  // ASCII and UTF-8 encoding of unicode text (RFC 3629)
  // ---------------------------------------------------------------------------

  predicate IsAscii(s: string) {
    forall i :: 0 <= i < |s| ==> s[i] as int < 0x80
  }

  predicate IsBytes(s: string) {
    forall i :: 0 <= i < |s| ==> s[i] as int < 0x100
  }

  /** `unicode.encode('ascii')`, which Python 2's `str()` applies to a unicode object. */
  function AsciiEncode(u: string): (r: Option<string>)
    ensures r.Some? <==> IsAscii(u)
    ensures r.Some? ==> IsBytes(r.value) && r.value == u
  {
    if IsAscii(u) then Some(u) else None
  }

  predicate IsUpper(c: char) {
    'A' <= c <= 'Z'
  }

  /** `s.lower()` of a byte string: each ASCII capital becomes its small letter, every other byte stays. */
  function Lower(s: string): (r: string)
    ensures |r| == |s|
    ensures forall i :: 0 <= i < |s| ==> !IsUpper(r[i])
    ensures forall i :: 0 <= i < |s| && !IsUpper(s[i]) ==> r[i] == s[i]
    ensures forall i :: 0 <= i < |s| && IsUpper(s[i]) ==> r[i] as int - s[i] as int == 'a' as int - 'A' as int
  {
    if s == [] then []
    else [if IsUpper(s[0]) then (s[0] as int + 32) as char else s[0]] + Lower(s[1..])
  }

  /** The UTF-8 bytes of one scalar value. */
  function Utf8Char(c: char): (b: string)
    ensures 1 <= |b| <= 4 && IsBytes(b)
    ensures (|b| == 1) == (c as int < 0x80)
  {
    var cp := c as int;
    if cp < 0x80 then [c]
    else if cp < 0x800 then
      [(0xC0 + cp / 64) as char, (0x80 + cp % 64) as char]
    else if cp < 0x10000 then
      [(0xE0 + cp / 64 / 64) as char, (0x80 + cp / 64 % 64) as char, (0x80 + cp % 64) as char]
    else
      [(0xF0 + cp / 64 / 64 / 64) as char, (0x80 + cp / 64 / 64 % 64) as char,
       (0x80 + cp / 64 % 64) as char, (0x80 + cp % 64) as char]
  }

  /** `u.encode('UTF-8')`. */
  function Utf8Encode(u: string): (b: string)
    ensures IsBytes(b) && |b| >= |u|
  {
    if u == [] then [] else Utf8Char(u[0]) + Utf8Encode(u[1..])
  }

  predicate IsContinuation(c: char) {
    0x80 <= c as int < 0xC0
  }

  /**
   * Decodes the scalar value at the head of `b`, with the number of bytes it
   * took; None for an ill-formed sequence (overlong forms, surrogates and values
   * beyond U+10FFFF included).
   */
  function DecodeFirst(b: string): (r: Option<(char, nat)>)
    requires |b| > 0
    ensures r.Some? ==> 1 <= r.value.1 <= |b|
  {
    var b0 := b[0] as int;
    if b0 < 0x80 then Some((b[0], 1))
    else if 0xC2 <= b0 < 0xE0 && |b| >= 2 && IsContinuation(b[1]) then
      var cp := (b0 - 0xC0) * 64 + (b[1] as int - 0x80);
      Some((cp as char, 2))
    else if 0xE0 <= b0 < 0xF0 && |b| >= 3 && IsContinuation(b[1]) && IsContinuation(b[2]) then
      var cp := (b0 - 0xE0) * 4096 + (b[1] as int - 0x80) * 64 + (b[2] as int - 0x80);
      if 0x800 <= cp && !(0xD800 <= cp < 0xE000) then Some((cp as char, 3)) else None
    else if 0xF0 <= b0 < 0xF5 && |b| >= 4
            && IsContinuation(b[1]) && IsContinuation(b[2]) && IsContinuation(b[3]) then
      var cp := (b0 - 0xF0) * 262144 + (b[1] as int - 0x80) * 4096
                + (b[2] as int - 0x80) * 64 + (b[3] as int - 0x80);
      if 0x10000 <= cp <= 0x10FFFF then Some((cp as char, 4)) else None
    else None
  }

  /** Strict UTF-8 decoding; None when `b` is not well-formed UTF-8. */
  function Utf8Decode(b: string): Option<string>
    decreases |b|
  {
    if b == [] then Some([])
    else match DecodeFirst(b)
      case None => None
      case Some((c, n)) =>
        match Utf8Decode(b[n..])
        case None => None
        case Some(rest) => Some([c] + rest)
  }

  lemma Utf8CharDecodes(c: char, rest: string)
    ensures DecodeFirst(Utf8Char(c) + rest) == Some((c, |Utf8Char(c)|))
  {
    var cp := c as int;
    if cp < 0x80 {
    } else if cp < 0x800 {
      TwoByteDecodes(c, rest);
    } else if cp < 0x10000 {
      ThreeByteDecodes(c, rest);
    } else {
      FourByteDecodes(c, rest);
    }
  }

  lemma TwoByteDecodes(c: char, rest: string)
    requires 0x80 <= c as int < 0x800
    ensures DecodeFirst(Utf8Char(c) + rest) == Some((c, 2))
  {
    var cp := c as int;
    var b := Utf8Char(c) + rest;
    var q, lo := cp / 64, cp % 64;
    assert b[0] as int == 0xC0 + q && b[1] as int == 0x80 + lo;
    assert cp == q * 64 + lo;
  }

  lemma ThreeByteDecodes(c: char, rest: string)
    requires 0x800 <= c as int < 0x10000
    ensures DecodeFirst(Utf8Char(c) + rest) == Some((c, 3))
  {
    var cp := c as int;
    var b := Utf8Char(c) + rest;
    var q1, lo := cp / 64, cp % 64;
    var hi, mid := q1 / 64, q1 % 64;
    assert cp == q1 * 64 + lo && q1 == hi * 64 + mid;
    assert b[0] as int == 0xE0 + hi && b[1] as int == 0x80 + mid && b[2] as int == 0x80 + lo;
    assert cp == hi * 4096 + mid * 64 + lo;
  }

  lemma FourByteDecodes(c: char, rest: string)
    requires 0x10000 <= c as int
    ensures DecodeFirst(Utf8Char(c) + rest) == Some((c, 4))
  {
    var cp := c as int;
    var b := Utf8Char(c) + rest;
    var q1, lo := cp / 64, cp % 64;
    var q2, mid := q1 / 64, q1 % 64;
    var top, hi := q2 / 64, q2 % 64;
    assert cp == q1 * 64 + lo && q1 == q2 * 64 + mid && q2 == top * 64 + hi;
    assert b[0] as int == 0xF0 + top && b[1] as int == 0x80 + hi;
    assert b[2] as int == 0x80 + mid && b[3] as int == 0x80 + lo;
    assert cp == top * 262144 + hi * 4096 + mid * 64 + lo;
  }

  /** Decoding the UTF-8 encoding of any text gives the text back. */
  lemma {:induction false} Utf8RoundTrip(u: string)
    ensures Utf8Decode(Utf8Encode(u)) == Some(u)
  {
    if u != [] {
      var head, tail := Utf8Char(u[0]), Utf8Encode(u[1..]);
      var b := Utf8Encode(u);
      assert b == head + tail;
      Utf8CharDecodes(u[0], tail);
      assert b[|head|..] == tail;
      Utf8RoundTrip(u[1..]);
      assert [u[0]] + u[1..] == u;
    }
  }

  /** ASCII text is its own UTF-8 encoding. */
  lemma {:induction false} Utf8OfAscii(u: string)
    requires IsAscii(u)
    ensures Utf8Encode(u) == u
  {
    if u != [] {
      Utf8OfAscii(u[1..]);
      assert [u[0]] + u[1..] == u;
    }
  }
}
