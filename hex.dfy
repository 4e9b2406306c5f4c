/**
 * Hexadecimal text: the lower-case encoding of `hmac.digest("hex")`, and Node.js's
 * lenient decoding `Buffer.from(s, "hex")`, which accepts either case, stops at the first
 * pair that is not two hex digits and ignores an odd final character.
 */
module Hex {
  import opened Base

  /** A digit of the lower-case alphabet `0123456789abcdef`. */
  predicate IsLowerDigit(c: char) {
    '0' <= c <= '9' || 'a' <= c <= 'f'
  }

  /** The lower-case digit for a nibble. */
  function HexChar(n: int): (c: char)
    requires 0 <= n < 16
    ensures IsLowerDigit(c)
  {
    if n < 10 then ('0' as int + n) as char else ('a' as int + n - 10) as char
  }

  /** `digest("hex")`: two lower-case digits per byte, high nibble first. */
  function EncodeLower(bs: seq<byte>): (r: string)
    ensures |r| == 2 * |bs|
    ensures forall i :: 0 <= i < |r| ==> IsLowerDigit(r[i])
  {
    if bs == [] then []
    else [HexChar(bs[0] as int / 16), HexChar(bs[0] as int % 16)] + EncodeLower(bs[1..])
  }

  /** The value of one hex digit of either case. */
  function DigitValue(c: char): (r: Option<int>)
    ensures r.Some? ==> 0 <= r.value < 16
  {
    if '0' <= c <= '9' then Some(c as int - '0' as int)
    else if 'a' <= c <= 'f' then Some(c as int - 'a' as int + 10)
    else if 'A' <= c <= 'F' then Some(c as int - 'A' as int + 10)
    else None
  }

  /** `Buffer.from(s, "hex")`. */
  function NodeDecode(s: string): (r: seq<byte>)
    ensures |r| <= |s| / 2
  {
    if |s| < 2 then []
    else match (DigitValue(s[0]), DigitValue(s[1]))
      case (Some(hi), Some(lo)) => [(hi * 16 + lo) as byte] + NodeDecode(s[2..])
      case _ => []
  }

  lemma HexCharValue(n: int)
    requires 0 <= n < 16
    ensures DigitValue(HexChar(n)) == Some(n)
  {
  }

  /** A byte is its high nibble times 16 plus its low nibble. */
  lemma Nibbles(b: byte)
    ensures 0 <= b as int / 16 < 16 && 0 <= b as int % 16 < 16
    ensures (b as int / 16 * 16 + b as int % 16) as byte == b
  {
  }

  /** A leading pair of hex digits decodes to one byte, followed by the decoding of the rest. */
  lemma DecodePair(s: string, hi: int, lo: int)
    requires |s| >= 2 && DigitValue(s[0]) == Some(hi) && DigitValue(s[1]) == Some(lo)
    ensures NodeDecode(s) == [(hi * 16 + lo) as byte] + NodeDecode(s[2..])
  {
  }

  /** The two digits of one byte decode back to it, whatever follows them. */
  lemma DecodeStep(b: byte, rest: string)
    ensures NodeDecode(EncodeLower([b]) + rest) == [b] + NodeDecode(rest)
  {
    Nibbles(b);
    var hi, lo := b as int / 16, b as int % 16;
    var s := EncodeLower([b]) + rest;
    HexCharValue(hi);
    HexCharValue(lo);
    assert s[0] == HexChar(hi) && s[1] == HexChar(lo) && s[2..] == rest;
    DecodePair(s, hi, lo);
  }

  /** The encoding of a non-empty sequence is its first byte's digits, then the rest's. */
  lemma EncodeLowerCons(bs: seq<byte>)
    requires bs != []
    ensures EncodeLower(bs) == EncodeLower([bs[0]]) + EncodeLower(bs[1..])
  {
    var b := bs[0] as int;
    assert [bs[0]][1..] == [];
    assert EncodeLower([bs[0]]) == [HexChar(b / 16), HexChar(b % 16)];
  }

  /** Decoding the lower-case encoding gives back the bytes. */
  lemma {:induction false} DecodeEncodeLower(bs: seq<byte>)
    ensures NodeDecode(EncodeLower(bs)) == bs
  {
    if bs != [] {
      EncodeLowerCons(bs);
      DecodeStep(bs[0], EncodeLower(bs[1..]));
      DecodeEncodeLower(bs[1..]);
    }
  }

  lemma EncodeLowerInjective(a: seq<byte>, b: seq<byte>)
    requires EncodeLower(a) == EncodeLower(b)
    ensures a == b
  {
    DecodeEncodeLower(a);
    DecodeEncodeLower(b);
  }

  /** Characters after complete hex text change nothing once the decoder stops there. */
  lemma {:induction false} DecodeIgnoresTail(bs: seq<byte>, tail: string)
    requires |tail| < 2 || DigitValue(tail[0]).None? || DigitValue(tail[1]).None?
    ensures NodeDecode(EncodeLower(bs) + tail) == bs
  {
    if bs == [] {
      assert EncodeLower(bs) + tail == tail;
    } else {
      EncodeLowerCons(bs);
      assert EncodeLower(bs) + tail == EncodeLower([bs[0]]) + (EncodeLower(bs[1..]) + tail);
      DecodeStep(bs[0], EncodeLower(bs[1..]) + tail);
      DecodeIgnoresTail(bs[1..], tail);
    }
  }
}
