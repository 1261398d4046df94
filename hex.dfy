/**
 * Hexadecimal rendering of byte arrays: `BitConverter.ToString` (upper-case
 * digit pairs joined by '-') and `String.Replace("-", "")` on its result.
 */
module Hex {
  import opened Bytes
  import opened Wrappers

  predicate IsUpperHexChar(c: char)
  {
    '0' <= c <= '9' || 'A' <= c <= 'F'
  }

  /** The upper-case hexadecimal digit of a nibble. */
  function Digit(n: int): (c: char)
    requires 0 <= n < 16
    ensures IsUpperHexChar(c)
    ensures DigitValue(c) == Some(n)
  {
    if n < 10 then ('0' as int + n) as char else ('A' as int + n - 10) as char
  }

  /** The nibble an upper-case hexadecimal digit stands for. */
  function DigitValue(c: char): (r: Option<int>)
    ensures r.Some? <==> IsUpperHexChar(c)
    ensures r.Some? ==> 0 <= r.value < 16
  {
    if '0' <= c <= '9' then Some(c as int - '0' as int)
    else if 'A' <= c <= 'F' then Some(c as int - 'A' as int + 10)
    else None
  }

  /** The two digits of one byte, high nibble first. */
  function ByteToHex(b: byte): string
  {
    [Digit(b / 16), Digit(b % 16)]
  }

  /** Reference rendering: the digit pairs of the bytes, in order, with no separator. */
  function Hex(bytes: seq<byte>): string
  {
    if bytes == [] then "" else ByteToHex(bytes[0]) + Hex(bytes[1..])
  }

  /** `BitConverter.ToString`: the digit pairs of the bytes joined by '-'. */
  function BitConverterToString(bytes: seq<byte>): (r: string)
    ensures |r| == if bytes == [] then 0 else 3 * |bytes| - 1
    ensures forall k :: 0 <= k < |r| ==> (r[k] == '-' <==> k % 3 == 2)
  {
    if |bytes| == 0 then ""
    else if |bytes| == 1 then ByteToHex(bytes[0])
    else
      var tail := BitConverterToString(bytes[1..]);
      var r := ByteToHex(bytes[0]) + "-" + tail;
      assert forall k :: 3 <= k < |r| ==> r[k] == tail[k - 3];
      r
  }

  /** `String.Replace("-", "")`: every '-' dropped, every other character kept in order. */
  function RemoveDashes(s: string): (r: string)
    ensures '-' !in r
    ensures '-' !in s ==> r == s
    ensures s == "-" ==> r == ""
    ensures forall c :: c in r ==> c in s
    ensures |r| <= |s|
  {
    if s == "" then "" else (if s[0] == '-' then "" else [s[0]]) + RemoveDashes(s[1..])
  }

  /** Parses upper-case digit pairs back into bytes; `None` on an odd length or a non-digit. */
  function ParseHex(s: string): Option<seq<byte>>
    decreases |s|
  {
    if s == "" then Some([])
    else if |s| == 1 then None
    else match (DigitValue(s[0]), DigitValue(s[1]), ParseHex(s[2..]))
      case (Some(hi), Some(lo), Some(rest)) => Some([hi * 16 + lo] + rest)
      case _ => None
  }

  /** The layout of the rendering: two characters per byte, high nibble then low nibble. */
  lemma {:induction false} HexLayout(bytes: seq<byte>)
    ensures |Hex(bytes)| == 2 * |bytes|
    ensures forall i :: 0 <= i < |bytes| ==>
      Hex(bytes)[2 * i] == Digit(bytes[i] / 16) && Hex(bytes)[2 * i + 1] == Digit(bytes[i] % 16)
    ensures forall j :: 0 <= j < |Hex(bytes)| ==> IsUpperHexChar(Hex(bytes)[j])
  {
    if bytes != [] {
      HexLayout(bytes[1..]);
      var h := Hex(bytes);
      assert h == ByteToHex(bytes[0]) + Hex(bytes[1..]);
      forall i | 1 <= i < |bytes|
        ensures h[2 * i] == Digit(bytes[i] / 16) && h[2 * i + 1] == Digit(bytes[i] % 16)
      {
        assert h[2 * i] == Hex(bytes[1..])[2 * (i - 1)];
        assert h[2 * i + 1] == Hex(bytes[1..])[2 * (i - 1) + 1];
      }
    }
  }

  /** Parsing undoes the rendering. */
  lemma {:induction false} ParseHexOfHex(bytes: seq<byte>)
    ensures ParseHex(Hex(bytes)) == Some(bytes)
  {
    if bytes != [] {
      var b := bytes[0];
      var h := Hex(bytes);
      assert h[0] == Digit(b / 16) && h[1] == Digit(b % 16);
      assert h[2..] == Hex(bytes[1..]);
      ParseHexOfHex(bytes[1..]);
      assert [b / 16 * 16 + b % 16] + bytes[1..] == bytes;
    }
  }

  /** Two byte sequences have the same rendering exactly when they are equal. */
  lemma HexInjective(a: seq<byte>, b: seq<byte>)
    ensures Hex(a) == Hex(b) <==> a == b
  {
    ParseHexOfHex(a);
    ParseHexOfHex(b);
  }

  lemma {:induction false} RemoveDashesConcat(s: string, t: string)
    ensures RemoveDashes(s + t) == RemoveDashes(s) + RemoveDashes(t)
  {
    if s == "" {
      assert s + t == t;
    } else {
      assert (s + t)[1..] == s[1..] + t;
      RemoveDashesConcat(s[1..], t);
    }
  }

  /** Removing the dashes from `BitConverter.ToString` leaves the reference rendering. */
  lemma {:induction false} RemoveDashesOfBitConverterToString(bytes: seq<byte>)
    ensures RemoveDashes(BitConverterToString(bytes)) == Hex(bytes)
  {
    if |bytes| == 1 {
      assert Hex(bytes[1..]) == "";
      assert RemoveDashes(ByteToHex(bytes[0])) == ByteToHex(bytes[0]);
    } else if |bytes| > 1 {
      var pair := ByteToHex(bytes[0]);
      RemoveDashesOfBitConverterToString(bytes[1..]);
      RemoveDashesConcat(pair + "-", BitConverterToString(bytes[1..]));
      RemoveDashesConcat(pair, "-");
      assert RemoveDashes(pair) == pair;
      assert RemoveDashes("-") == "";
    }
  }

  /** The digits of `BitConverter.ToString`: byte i's high and low nibble at positions 3i and 3i+1. */
  lemma {:induction false} BitConverterToStringLayout(bytes: seq<byte>)
    ensures forall i :: 0 <= i < |bytes| ==>
      BitConverterToString(bytes)[3 * i] == Digit(bytes[i] / 16) &&
      BitConverterToString(bytes)[3 * i + 1] == Digit(bytes[i] % 16)
  {
    if |bytes| > 1 {
      BitConverterToStringLayout(bytes[1..]);
      var s := BitConverterToString(bytes);
      var tail := BitConverterToString(bytes[1..]);
      assert s == ByteToHex(bytes[0]) + "-" + tail;
      forall i | 1 <= i < |bytes|
        ensures s[3 * i] == Digit(bytes[i] / 16) && s[3 * i + 1] == Digit(bytes[i] % 16)
      {
        assert s[3 * i] == tail[3 * (i - 1)];
        assert s[3 * i + 1] == tail[3 * (i - 1) + 1];
      }
    }
  }
}
