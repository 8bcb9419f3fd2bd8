/** UTF-8 (RFC 3629), the encoding `Buffer.from(string)` applies to a JavaScript string. */
module Utf8 {
  import opened Common

  /** A Unicode scalar value as one to four octets. */
  function EncodeChar(c: char): (r: seq<byte>)
    ensures 1 <= |r| <= 4
    ensures |r| == 1 <==> (c as int) < 0x80
    ensures |r| == 1 ==> r[0] == c as int
  {
    var n := c as int;
    if n < 0x80 then [n]
    else if n < 0x800 then [0xC0 + n / 64, 0x80 + n % 64]
    else if n < 0x10000 then [0xE0 + n / 4096, 0x80 + (n / 64) % 64, 0x80 + n % 64]
    else [0xF0 + n / 262144, 0x80 + (n / 4096) % 64, 0x80 + (n / 64) % 64, 0x80 + n % 64]
  }

  /** A string as its UTF-8 octets. */
  function Encode(s: string): (r: seq<byte>)
    ensures |r| >= |s|
  {
    if s == [] then [] else EncodeChar(s[0]) + Encode(s[1..])
  }

  /** Encoding distributes over concatenation, so literal separators can be reasoned about piecewise. */
  lemma {:induction false} EncodeAppend(a: string, b: string)
    ensures Encode(a + b) == Encode(a) + Encode(b)
  {
    if a == [] {
      assert a + b == b;
    } else {
      assert (a + b)[0] == a[0];
      assert (a + b)[1..] == a[1..] + b;
      EncodeAppend(a[1..], b);
    }
  }

  predicate IsContinuation(b: byte) {
    0x80 <= b < 0xC0
  }

  predicate IsScalar(n: int) {
    (0 <= n < 0xD800) || (0xE000 <= n < 0x11_0000)
  }

  /** The six payload bits of the continuation octet at `i`, or 0 past the end. */
  function Cont(bs: seq<byte>, i: nat): int {
    if i < |bs| then bs[i] as int - 0x80 else 0
  }

  /**
   * Decodes the first character of `bs`, with the number of octets it took. Overlong forms,
   * surrogates and values past U+10FFFF are rejected, as section 3 of RFC 3629 requires.
   */
  function DecodeFirst(bs: seq<byte>): (r: Option<(char, nat)>)
    requires |bs| > 0
    ensures r.Some? ==> 1 <= r.value.1 <= |bs|
  {
    var b0, b1, b2, b3 := bs[0] as int, Cont(bs, 1), Cont(bs, 2), Cont(bs, 3);
    if b0 < 0x80 then Some((bs[0] as char, 1))
    else if 0xC0 <= b0 < 0xE0 && |bs| >= 2 && IsContinuation(bs[1]) then
      var n := (b0 - 0xC0) * 64 + b1;
      if 0x80 <= n && IsScalar(n) then Some((n as char, 2)) else None
    else if 0xE0 <= b0 < 0xF0 && |bs| >= 3 && IsContinuation(bs[1]) && IsContinuation(bs[2]) then
      var n := (b0 - 0xE0) * 4096 + b1 * 64 + b2;
      if 0x800 <= n && IsScalar(n) then Some((n as char, 3)) else None
    else if 0xF0 <= b0 < 0xF8 && |bs| >= 4 && IsContinuation(bs[1]) && IsContinuation(bs[2]) && IsContinuation(bs[3]) then
      var n := (b0 - 0xF0) * 262144 + b1 * 4096 + b2 * 64 + b3;
      if 0x1_0000 <= n && IsScalar(n) then Some((n as char, 4)) else None
    else None
  }

  /** Octets back to a string; `None` on a malformed sequence. */
  function Decode(bs: seq<byte>): Option<string>
    decreases |bs|
  {
    if bs == [] then Some([])
    else
      match DecodeFirst(bs)
      case None => None
      case Some((c, k)) =>
        match Decode(bs[k..])
        case None => None
        case Some(rest) => Some([c] + rest)
  }

  /** `n` in base 64: its last digit and the rest. */
  lemma Radix64(n: int)
    requires n >= 0
    ensures n == (n / 64) * 64 + n % 64 && 0 <= n % 64 < 64
    ensures n / 4096 == (n / 64) / 64 && n / 262144 == (n / 4096) / 64
  {
  }

  lemma DecodeTwoOctets(c: char, rest: seq<byte>)
    requires 0x80 <= c as int < 0x800
    ensures DecodeFirst(EncodeChar(c) + rest) == Some((c, 2))
  {
    var n := c as int;
    var bs := EncodeChar(c) + rest;
    Radix64(n);
    assert bs[0] == 0xC0 + n / 64 && bs[1] == 0x80 + n % 64;
    assert Cont(bs, 1) == n % 64;
  }

  lemma DecodeThreeOctets(c: char, rest: seq<byte>)
    requires 0x800 <= c as int < 0x10000
    ensures DecodeFirst(EncodeChar(c) + rest) == Some((c, 3))
  {
    var n := c as int;
    var bs := EncodeChar(c) + rest;
    Radix64(n);
    Radix64(n / 64);
    var q, m, l := n / 4096, (n / 64) % 64, n % 64;
    assert bs[0] == 0xE0 + q && bs[1] == 0x80 + m && bs[2] == 0x80 + l;
    assert Cont(bs, 1) == m && Cont(bs, 2) == l;
    assert q * 4096 + m * 64 + l == n;
  }

  lemma DecodeFourOctets(c: char, rest: seq<byte>)
    requires 0x10000 <= c as int
    ensures DecodeFirst(EncodeChar(c) + rest) == Some((c, 4))
  {
    var n := c as int;
    var bs := EncodeChar(c) + rest;
    Radix64(n);
    Radix64(n / 64);
    Radix64(n / 4096);
    var q, h, m, l := n / 262144, (n / 4096) % 64, (n / 64) % 64, n % 64;
    assert bs[0] == 0xF0 + q && bs[1] == 0x80 + h && bs[2] == 0x80 + m && bs[3] == 0x80 + l;
    assert Cont(bs, 1) == h && Cont(bs, 2) == m && Cont(bs, 3) == l;
    assert q * 262144 + h * 4096 + m * 64 + l == n;
  }

  /** The first character decoded from an encoded character, followed by anything, is that character. */
  lemma DecodeFirstEncodeChar(c: char, rest: seq<byte>)
    ensures DecodeFirst(EncodeChar(c) + rest) == Some((c, |EncodeChar(c)|))
  {
    var n := c as int;
    if n < 0x80 {
    } else if n < 0x800 {
      DecodeTwoOctets(c, rest);
    } else if n < 0x10000 {
      DecodeThreeOctets(c, rest);
    } else {
      DecodeFourOctets(c, rest);
    }
  }

  /** Decoding the encoding of a string gives back the string. */
  lemma {:induction false} DecodeEncode(s: string)
    ensures Decode(Encode(s)) == Some(s)
  {
    if s != [] {
      var e := EncodeChar(s[0]);
      var tail := Encode(s[1..]);
      DecodeFirstEncodeChar(s[0], tail);
      assert (e + tail)[|e|..] == tail;
      DecodeEncode(s[1..]);
      assert [s[0]] + s[1..] == s;
    }
  }
}
