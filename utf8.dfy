/**
 * UTF-8 as defined by RFC 3629: the charset both header codecs use to turn a
 * propagation value (a Java `String`) into header bytes and back.
 *
 * A Dafny `char` is a Unicode scalar value, so every string has an encoding.
 * Decoding never fails: like `new String(bytes, UTF_8)`, an ill-formed byte is
 * replaced by U+FFFD.
 */
module Utf8 {

  newtype byte = x: int | 0 <= x < 256

  const Replacement: char := 0xFFFD as char

  predicate IsTail(b: byte) {
    0x80 <= b <= 0xBF
  }

  /** The bytes of one scalar value, per the table in section 3 of RFC 3629. */
  function EncodeChar(c: char): (bs: seq<byte>)
    ensures 1 <= |bs| <= 4
  {
    var n := c as int;
    if n < 0x80 then
      [n as byte]
    else if n < 0x800 then
      [(0xC0 + n / 0x40) as byte, (0x80 + n % 0x40) as byte]
    else if n < 0x10000 then
      [(0xE0 + n / 0x1000) as byte, (0x80 + (n / 0x40) % 0x40) as byte, (0x80 + n % 0x40) as byte]
    else
      [(0xF0 + n / 0x40000) as byte, (0x80 + (n / 0x1000) % 0x40) as byte,
       (0x80 + (n / 0x40) % 0x40) as byte, (0x80 + n % 0x40) as byte]
  }

  /** `String.getBytes(UTF_8)`. */
  function Encode(s: string): (bs: seq<byte>)
    ensures |s| <= |bs| <= 4 * |s|
  {
    if s == [] then [] else EncodeChar(s[0]) + Encode(s[1..])
  }

  /**
   * The first character of `bs` and the number of bytes it takes: a well-formed
   * sequence of the syntax in section 4 of RFC 3629, or one ill-formed byte read
   * as U+FFFD.
   */
  function DecodeFirst(bs: seq<byte>): (r: (char, nat))
    requires |bs| > 0
    ensures 1 <= r.1 <= |bs|
  {
    var b0 := bs[0] as int;
    if b0 < 0x80 then
      (b0 as char, 1)
    else if 0xC2 <= b0 <= 0xDF && 2 <= |bs| && IsTail(bs[1]) then
      (((b0 - 0xC0) * 0x40 + (bs[1] as int - 0x80)) as char, 2)
    else if 0xE0 <= b0 <= 0xEF && 3 <= |bs| && IsTail(bs[1]) && IsTail(bs[2])
         && (b0 == 0xE0 ==> 0xA0 <= bs[1]) && (b0 == 0xED ==> bs[1] <= 0x9F) then
      var n := (b0 - 0xE0) * 0x1000 + (bs[1] as int - 0x80) * 0x40 + (bs[2] as int - 0x80);
      (n as char, 3)
    else if 0xF0 <= b0 <= 0xF4 && 4 <= |bs| && IsTail(bs[1]) && IsTail(bs[2]) && IsTail(bs[3])
         && (b0 == 0xF0 ==> 0x90 <= bs[1]) && (b0 == 0xF4 ==> bs[1] <= 0x8F) then
      var n := (b0 - 0xF0) * 0x40000 + (bs[1] as int - 0x80) * 0x1000
               + (bs[2] as int - 0x80) * 0x40 + (bs[3] as int - 0x80);
      (n as char, 4)
    else
      (Replacement, 1)
  }

  /** `new String(bytes, UTF_8)`. */
  function Decode(bs: seq<byte>): (s: string)
    ensures |s| <= |bs|
    decreases |bs|
  {
    if bs == [] then []
    else
      var (c, k) := DecodeFirst(bs);
      [c] + Decode(bs[k..])
  }

  lemma DecodeFirstOfEncodeChar(c: char, rest: seq<byte>)
    ensures DecodeFirst(EncodeChar(c) + rest) == (c, |EncodeChar(c)|)
  {
    var n := c as int;
    if n < 0x80 {
    } else if n < 0x800 {
      DecodeTwo(c, rest);
    } else if n < 0x10000 {
      DecodeThree(c, rest);
    } else {
      DecodeFour(c, rest);
    }
  }

  lemma DecodeTwo(c: char, rest: seq<byte>)
    requires 0x80 <= c as int < 0x800
    ensures DecodeFirst(EncodeChar(c) + rest) == (c, 2)
  {
    var n := c as int;
    var hi, lo := n / 0x40, n % 0x40;
    assert n == hi * 0x40 + lo;
    var bs := EncodeChar(c) + rest;
    assert bs[0] as int - 0xC0 == hi && bs[1] as int - 0x80 == lo;
  }

  lemma DecodeThree(c: char, rest: seq<byte>)
    requires 0x800 <= c as int < 0x10000
    ensures DecodeFirst(EncodeChar(c) + rest) == (c, 3)
  {
    var n := c as int;
    var q := n / 0x40;
    var hi, mid, lo := q / 0x40, q % 0x40, n % 0x40;
    assert n == q * 0x40 + lo;
    assert q == hi * 0x40 + mid;
    assert hi == n / 0x1000;
    var bs := EncodeChar(c) + rest;
    assert bs[0] as int - 0xE0 == hi && bs[1] as int - 0x80 == mid && bs[2] as int - 0x80 == lo;
    assert n == hi * 0x1000 + mid * 0x40 + lo;
  }

  lemma DecodeFour(c: char, rest: seq<byte>)
    requires 0x10000 <= c as int
    ensures DecodeFirst(EncodeChar(c) + rest) == (c, 4)
  {
    var n := c as int;
    var q1 := n / 0x40;
    var q2 := q1 / 0x40;
    var top, hi, mid, lo := q2 / 0x40, q2 % 0x40, q1 % 0x40, n % 0x40;
    assert n == q1 * 0x40 + lo;
    assert q1 == q2 * 0x40 + mid;
    assert q2 == top * 0x40 + hi;
    assert q2 == n / 0x1000;
    assert top == n / 0x40000;
    var bs := EncodeChar(c) + rest;
    assert bs[0] as int - 0xF0 == top && bs[1] as int - 0x80 == hi;
    assert bs[2] as int - 0x80 == mid && bs[3] as int - 0x80 == lo;
    assert n == top * 0x40000 + hi * 0x1000 + mid * 0x40 + lo;
  }

  /** Decoding what was encoded gives back the original string. */
  lemma {:induction false} DecodeEncode(s: string)
    ensures Decode(Encode(s)) == s
  {
    if s != [] {
      var head, rest := EncodeChar(s[0]), Encode(s[1..]);
      DecodeFirstOfEncodeChar(s[0], rest);
      assert (head + rest)[|head|..] == rest;
      DecodeEncode(s[1..]);
    }
  }

  /** Hence two different strings never share header bytes. */
  lemma EncodeInjective(s: string, t: string)
    requires Encode(s) == Encode(t)
    ensures s == t
  {
    DecodeEncode(s);
    DecodeEncode(t);
  }
}
