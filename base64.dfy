/** Base 64 encoding with the standard alphabet and `=` padding (section 4 of RFC 4648). */
module Base64 {
  import opened Common

  /** The alphabet of section 4 of RFC 4648, value to character. */
  function IndexChar(i: int): (c: char)
    requires 0 <= i < 64
    ensures CharIndex(c) == Some(i)
  {
    if i < 26 then ('A' as int + i) as char
    else if i < 52 then ('a' as int + (i - 26)) as char
    else if i < 62 then ('0' as int + (i - 52)) as char
    else if i == 62 then '+'
    else '/'
  }

  /** The alphabet, character to value; `None` for characters outside it (including `=`). */
  function CharIndex(c: char): (r: Option<int>)
    ensures r.Some? ==> 0 <= r.value < 64
  {
    if 'A' <= c <= 'Z' then Some(c as int - 'A' as int)
    else if 'a' <= c <= 'z' then Some(c as int - 'a' as int + 26)
    else if '0' <= c <= '9' then Some(c as int - '0' as int + 52)
    else if c == '+' then Some(62)
    else if c == '/' then Some(63)
    else None
  }

  predicate IsAlphabetChar(c: char) {
    CharIndex(c).Some?
  }

  /** Three octets as four characters. */
  function EncodeBlock(b0: byte, b1: byte, b2: byte): string {
    [IndexChar(b0 / 4), IndexChar((b0 % 4) * 16 + b1 / 16), IndexChar((b1 % 16) * 4 + b2 / 64), IndexChar(b2 % 64)]
  }

  /** Encodes a byte string; the final one or two octets are padded with `=`. */
  function Encode(bs: seq<byte>): (s: string)
    ensures forall k :: 0 <= k < |s| ==> IsAlphabetChar(s[k]) || s[k] == '='
    decreases |bs|
  {
    if |bs| == 0 then ""
    else if |bs| == 1 then [IndexChar(bs[0] / 4), IndexChar((bs[0] % 4) * 16), '=', '=']
    else if |bs| == 2 then [IndexChar(bs[0] / 4), IndexChar((bs[0] % 4) * 16 + bs[1] / 16), IndexChar((bs[1] % 16) * 4), '=']
    else EncodeBlock(bs[0], bs[1], bs[2]) + Encode(bs[3..])
  }

  /** Four alphabet characters as three octets. */
  function DecodeBlock(a: char, b: char, c: char, d: char): Option<seq<byte>> {
    match (CharIndex(a), CharIndex(b), CharIndex(c), CharIndex(d))
    case (Some(x0), Some(x1), Some(x2), Some(x3)) =>
      Some([x0 * 4 + x1 / 16, (x1 % 16) * 16 + x2 / 4, (x2 % 4) * 64 + x3])
    case _ => None
  }

  /** The last quantum, which may carry one or two `=`; the padding bits must be zero. */
  function DecodeLast(a: char, b: char, c: char, d: char): Option<seq<byte>> {
    if d == '=' && c == '=' then
      match (CharIndex(a), CharIndex(b))
      case (Some(x0), Some(x1)) =>
        if x1 % 16 == 0 then Some([x0 * 4 + x1 / 16]) else None
      case _ => None
    else if d == '=' then
      match (CharIndex(a), CharIndex(b), CharIndex(c))
      case (Some(x0), Some(x1), Some(x2)) =>
        if x2 % 4 == 0 then Some([x0 * 4 + x1 / 16, (x1 % 16) * 16 + x2 / 4]) else None
      case _ => None
    else DecodeBlock(a, b, c, d)
  }

  /** Strict decoding: `None` unless the text is a canonical encoding. */
  function Decode(s: string): Option<seq<byte>>
    decreases |s|
  {
    if |s| == 0 then Some([])
    else if |s| < 4 then None
    else if |s| == 4 then DecodeLast(s[0], s[1], s[2], s[3])
    else
      match DecodeBlock(s[0], s[1], s[2], s[3])
      case None => None
      case Some(head) =>
        match Decode(s[4..])
        case None => None
        case Some(tail) => Some(head + tail)
  }

  /** `q * d + r` with `0 <= r < d` splits back into `q` and `r`, for the divisors used here. */
  lemma DivMod(q: int, r: int, d: int)
    requires d == 4 || d == 16 || d == 64
    requires 0 <= r < d
    ensures (q * d + r) / d == q && (q * d + r) % d == r
  {
  }

  lemma BlockRoundTrip(b0: byte, b1: byte, b2: byte)
    ensures DecodeBlock(EncodeBlock(b0, b1, b2)[0], EncodeBlock(b0, b1, b2)[1],
                        EncodeBlock(b0, b1, b2)[2], EncodeBlock(b0, b1, b2)[3]) == Some([b0, b1, b2])
  {
    var x0, x1, x2, x3 := b0 / 4, (b0 % 4) * 16 + b1 / 16, (b1 % 16) * 4 + b2 / 64, b2 % 64;
    DivMod(b0 % 4, b1 / 16, 16);
    DivMod(b1 % 16, b2 / 64, 4);
    assert x1 / 16 == b0 % 4 && x1 % 16 == b1 / 16;
    assert x2 / 4 == b1 % 16 && x2 % 4 == b2 / 64;
    var e := EncodeBlock(b0, b1, b2);
    assert e == [IndexChar(x0), IndexChar(x1), IndexChar(x2), IndexChar(x3)];
    assert DecodeBlock(e[0], e[1], e[2], e[3]) == Some([x0 * 4 + x1 / 16, (x1 % 16) * 16 + x2 / 4, (x2 % 4) * 64 + x3]);
  }

  lemma OneRoundTrip(b0: byte)
    ensures Decode(Encode([b0])) == Some([b0])
  {
    var x0, x1 := b0 / 4, (b0 % 4) * 16;
    DivMod(b0 % 4, 0, 16);
    var s := Encode([b0]);
    assert s == [IndexChar(x0), IndexChar(x1), '=', '='];
    assert DecodeLast(s[0], s[1], s[2], s[3]) == Some([x0 * 4 + x1 / 16]);
  }

  lemma TwoRoundTrip(b0: byte, b1: byte)
    ensures Decode(Encode([b0, b1])) == Some([b0, b1])
  {
    var x0, x1, x2 := b0 / 4, (b0 % 4) * 16 + b1 / 16, (b1 % 16) * 4;
    DivMod(b0 % 4, b1 / 16, 16);
    DivMod(b1 % 16, 0, 4);
    var s := Encode([b0, b1]);
    assert s == [IndexChar(x0), IndexChar(x1), IndexChar(x2), '='];
    assert DecodeLast(s[0], s[1], s[2], s[3]) == Some([x0 * 4 + x1 / 16, (x1 % 16) * 16 + x2 / 4]);
  }

  /** Every started group of three octets becomes four characters. */
  lemma {:induction false} EncodeLength(bs: seq<byte>)
    ensures |Encode(bs)| == 4 * ((|bs| + 2) / 3)
    decreases |bs|
  {
    if |bs| > 2 {
      EncodeLength(bs[3..]);
      assert Encode(bs) == EncodeBlock(bs[0], bs[1], bs[2]) + Encode(bs[3..]);
      assert (|bs| + 2) / 3 == (|bs[3..]| + 2) / 3 + 1;
    }
  }

  lemma EncodeNonEmpty(bs: seq<byte>)
    requires |bs| > 0
    ensures |Encode(bs)| >= 4
  {
    if |bs| > 2 {
      assert Encode(bs) == EncodeBlock(bs[0], bs[1], bs[2]) + Encode(bs[3..]);
    }
  }

  lemma ThreeRoundTrip(b0: byte, b1: byte, b2: byte)
    ensures Decode(Encode([b0, b1, b2])) == Some([b0, b1, b2])
  {
    var bs := [b0, b1, b2];
    var blk := EncodeBlock(b0, b1, b2);
    assert bs[3..] == [];
    assert Encode(bs) == blk + "";
    assert blk + "" == blk;
    BlockRoundTrip(b0, b1, b2);
  }

  /** More than three octets: the first block decodes back, then the rest. */
  lemma BlockThenRest(bs: seq<byte>)
    requires |bs| > 3
    requires Decode(Encode(bs[3..])) == Some(bs[3..])
    ensures Decode(Encode(bs)) == Some(bs)
  {
    var blk := EncodeBlock(bs[0], bs[1], bs[2]);
    var rest := Encode(bs[3..]);
    assert Encode(bs) == blk + rest;
    EncodeNonEmpty(bs[3..]);
    BlockRoundTrip(bs[0], bs[1], bs[2]);
    DecodeAfterBlock(blk, rest, [bs[0], bs[1], bs[2]], bs[3..]);
    FirstThree(bs);
  }

  lemma FirstThree(bs: seq<byte>)
    requires |bs| >= 3
    ensures [bs[0], bs[1], bs[2]] + bs[3..] == bs
  {
  }

  /** A decodable block followed by a decodable, non-empty rest decodes to both, in order. */
  lemma DecodeAfterBlock(blk: string, rest: string, head: seq<byte>, tail: seq<byte>)
    requires |blk| == 4 && |rest| >= 4
    requires DecodeBlock(blk[0], blk[1], blk[2], blk[3]) == Some(head)
    requires Decode(rest) == Some(tail)
    ensures Decode(blk + rest) == Some(head + tail)
  {
    var s := blk + rest;
    assert s[0] == blk[0] && s[1] == blk[1] && s[2] == blk[2] && s[3] == blk[3];
    assert s[4..] == rest;
  }

  /** Decoding an encoding gives back the bytes. */
  lemma {:induction false} DecodeEncode(bs: seq<byte>)
    ensures Decode(Encode(bs)) == Some(bs)
    decreases |bs|
  {
    if |bs| == 1 {
      assert bs == [bs[0]];
      OneRoundTrip(bs[0]);
    } else if |bs| == 2 {
      assert bs == [bs[0], bs[1]];
      TwoRoundTrip(bs[0], bs[1]);
    } else if |bs| == 3 {
      assert bs == [bs[0], bs[1], bs[2]];
      ThreeRoundTrip(bs[0], bs[1], bs[2]);
    } else if |bs| > 3 {
      DecodeEncode(bs[3..]);
      BlockThenRest(bs);
    }
  }
}
