/**
 * UTF-8 encoding of strings, as done by `Encoding.UTF8.GetBytes` on a string
 * of Unicode scalar values, together with a decoder that is its left inverse.
 */
module Utf8 {
  import opened Bytes
  import opened Wrappers

  /** The largest Unicode scalar value. */
  const MAX_SCALAR := 0x10FFFF

  /** Code points that a Dafny `char` can hold: everything but the surrogate range. */
  predicate IsScalar(v: int)
  {
    0 <= v < 0xD800 || 0xE000 <= v <= MAX_SCALAR
  }

  /** The one to four bytes that encode one scalar value. */
  function EncodeChar(c: char): (r: seq<byte>)
    ensures 1 <= |r| <= 4
    ensures |r| == 1 <==> c as int < 0x80
    ensures r[0] < 0x80 <==> |r| == 1
  {
    var v := c as int;
    if v < 0x80 then [v]
    else if v < 0x800 then [0xC0 + v / 64, 0x80 + v % 64]
    else if v < 0x10000 then [0xE0 + v / 4096, 0x80 + v / 64 % 64, 0x80 + v % 64]
    else [0xF0 + v / 262144, 0x80 + v / 4096 % 64, 0x80 + v / 64 % 64, 0x80 + v % 64]
  }

  /** The encoding of a string: the encodings of its characters, back to back. */
  function Encode(s: string): (r: seq<byte>)
    ensures |s| <= |r| <= 4 * |s|
  {
    if s == [] then [] else EncodeChar(s[0]) + Encode(s[1..])
  }

  predicate IsContinuation(b: byte)
  {
    0x80 <= b < 0xC0
  }

  /** The six payload bits of a continuation byte. */
  function Low6(b: byte): int
  {
    b as int - 0x80
  }

  /** The character with code point `v`, taking `n` bytes, if `v` is a scalar value. */
  function ScalarOf(v: int, n: nat): Option<(char, nat)>
  {
    if IsScalar(v) then Some((v as char, n)) else None
  }

  /** The first character encoded in `b` and the number of bytes its encoding takes. */
  function DecodeFirst(b: seq<byte>): (r: Option<(char, nat)>)
    requires |b| > 0
    ensures r.Some? ==> 1 <= r.value.1 <= |b|
  {
    var b0 := b[0] as int;
    if b0 < 0x80 then
      Some((b0 as char, 1))
    else if 0xC0 <= b0 < 0xE0 && |b| >= 2 && IsContinuation(b[1]) then
      ScalarOf((b0 - 0xC0) * 64 + Low6(b[1]), 2)
    else if 0xE0 <= b0 < 0xF0 && |b| >= 3 && IsContinuation(b[1]) && IsContinuation(b[2]) then
      ScalarOf((b0 - 0xE0) * 4096 + Low6(b[1]) * 64 + Low6(b[2]), 3)
    else if 0xF0 <= b0 < 0xF8 && |b| >= 4 && IsContinuation(b[1]) && IsContinuation(b[2]) && IsContinuation(b[3]) then
      ScalarOf((b0 - 0xF0) * 262144 + Low6(b[1]) * 4096 + Low6(b[2]) * 64 + Low6(b[3]), 4)
    else
      None
  }

  /** Decodes a whole byte sequence; `None` when some part of it is not an encoded character. */
  function Decode(b: seq<byte>): Option<string>
    decreases |b|
  {
    if b == [] then Some([])
    else match DecodeFirst(b)
      case None => None
      case Some((c, n)) =>
        match Decode(b[n..])
        case None => None
        case Some(s) => Some([c] + s)
  }

  lemma DecodeFirstOfEncodeChar(c: char, rest: seq<byte>)
    ensures DecodeFirst(EncodeChar(c) + rest) == Some((c, |EncodeChar(c)|))
  {
    var v := c as int;
    var b := EncodeChar(c) + rest;
    if v < 0x80 {
    } else if v < 0x800 {
      assert (v / 64) * 64 + v % 64 == v;
    } else if v < 0x10000 {
      var q := v / 64;
      assert q / 64 == v / 4096;
      assert (q / 64) * 64 + q % 64 == q;
      assert (v / 4096) * 4096 + (v / 64 % 64) * 64 + v % 64 == v;
    } else {
      var q := v / 64;
      var p := q / 64;
      assert q / 64 == v / 4096;
      assert p / 64 == v / 262144;
      assert (p / 64) * 64 + p % 64 == p;
      assert (q / 64) * 64 + q % 64 == q;
      assert (v / 262144) * 262144 + (v / 4096 % 64) * 4096 + (v / 64 % 64) * 64 + v % 64 == v;
    }
  }

  /** Decoding undoes encoding. */
  lemma {:induction false} DecodeEncode(s: string)
    ensures Decode(Encode(s)) == Some(s)
  {
    if s != [] {
      var e := EncodeChar(s[0]);
      DecodeFirstOfEncodeChar(s[0], Encode(s[1..]));
      assert Encode(s)[|e|..] == Encode(s[1..]);
      DecodeEncode(s[1..]);
      assert [s[0]] + s[1..] == s;
    }
  }

  /** Two strings have the same encoding exactly when they are equal. */
  lemma EncodeInjective(a: string, b: string)
    ensures Encode(a) == Encode(b) <==> a == b
  {
    DecodeEncode(a);
    DecodeEncode(b);
  }

  /** Encoding a concatenation gives the concatenation of the encodings. */
  lemma {:induction false} EncodeConcat(a: string, b: string)
    ensures Encode(a + b) == Encode(a) + Encode(b)
  {
    if a != [] {
      assert (a + b)[1..] == a[1..] + b;
      EncodeConcat(a[1..], b);
    } else {
      assert a + b == b;
    }
  }
}
