/**
 * The lower-case hexadecimal encoding the payment handler applies to an HMAC digest:
 * every byte becomes `b.toString(16).padStart(2, "0")` and the pieces are joined.
 * `Decode` is the inverse, used to state that the encoding loses nothing.
 */
module Hex {
  import opened Wrappers

  type byte = x: int | 0 <= x < 256

  predicate IsLowerHexDigit(c: char) {
    '0' <= c <= '9' || 'a' <= c <= 'f'
  }

  /** The digit `Number.prototype.toString(16)` writes for `d`: lower-case letters for 10..15. */
  function DigitChar(d: nat): (c: char)
    requires d < 16
    ensures IsLowerHexDigit(c)
  {
    if d < 10 then ('0' as int + d) as char else ('a' as int + d - 10) as char
  }

  /** The value of a lower-case hexadecimal digit. */
  function DigitValue(c: char): (v: Option<nat>)
    ensures v.Some? <==> IsLowerHexDigit(c)
    ensures v.Some? ==> v.value < 16 && DigitChar(v.value) == c
  {
    if '0' <= c <= '9' then Some(c as int - '0' as int)
    else if 'a' <= c <= 'f' then Some(c as int - 'a' as int + 10)
    else None
  }

  /** `n.toString(16)`: the base-16 numeral of `n` without leading zeros. */
  function ToRadix16(n: nat): string {
    if n < 16 then [DigitChar(n)] else ToRadix16(n / 16) + [DigitChar(n % 16)]
  }

  /**
   * `toString(16)` writes at least one lower-case digit and no leading zero; a byte
   * takes one digit below 16 and two from 16 on.
   */
  lemma {:induction false} ToRadix16Numeral(n: nat)
    ensures |ToRadix16(n)| >= 1 && (n > 0 ==> ToRadix16(n)[0] != '0')
    ensures forall i :: 0 <= i < |ToRadix16(n)| ==> IsLowerHexDigit(ToRadix16(n)[i])
    ensures n < 16 ==> ToRadix16(n) == [DigitChar(n)]
    ensures 16 <= n < 256 ==> ToRadix16(n) == [DigitChar(n / 16), DigitChar(n % 16)]
  {
    if n >= 16 {
      ToRadix16Numeral(n / 16);
      var r := ToRadix16(n);
      assert r == ToRadix16(n / 16) + [DigitChar(n % 16)];
      assert r[0] == ToRadix16(n / 16)[0];
    }
  }

  /** `s.padStart(width, fill)` with a one-character fill. */
  function PadStart(s: string, width: nat, fill: char): string {
    if |s| >= width then s else seq(width - |s|, _ => fill) + s
  }

  /** `padStart` reaches the width, keeps the string at the end and puts only the fill in front of it. */
  lemma PadStartShape(s: string, width: nat, fill: char)
    ensures |PadStart(s, width, fill)| == if |s| >= width then |s| else width
    ensures PadStart(s, width, fill)[|PadStart(s, width, fill)| - |s|..] == s
    ensures forall i :: 0 <= i < |PadStart(s, width, fill)| - |s| ==> PadStart(s, width, fill)[i] == fill
  {
  }

  /** One byte as exactly two lower-case digits, high nibble first. */
  function ByteToHex(b: byte): (r: string)
    ensures r == [DigitChar(b / 16), DigitChar(b % 16)]
  {
    if b < 16 then
      assert ToRadix16(b) == [DigitChar(b)];
      assert PadStart(ToRadix16(b), 2, '0') == ['0'] + [DigitChar(b)];
      PadStart(ToRadix16(b), 2, '0')
    else
      assert ToRadix16(b) == [DigitChar(b / 16), DigitChar(b % 16)];
      PadStart(ToRadix16(b), 2, '0')
  }

  /** `Array.from(bytes).map(ByteToHex).join("")`. */
  function Encode(bs: seq<byte>): (r: string)
    ensures |r| == 2 * |bs|
    ensures forall i :: 0 <= i < |r| ==> IsLowerHexDigit(r[i])
  {
    if bs == [] then "" else ByteToHex(bs[0]) + Encode(bs[1..])
  }

  /** Reads pairs of lower-case hexadecimal digits back into bytes. */
  function Decode(s: string): (r: Option<seq<byte>>)
    ensures r.Some? ==> 2 * |r.value| == |s|
    decreases |s|
  {
    if s == [] then Some([])
    else if |s| == 1 then None
    else match (DigitValue(s[0]), DigitValue(s[1]), Decode(s[2..]))
      case (Some(hi), Some(lo), Some(rest)) => Some([hi * 16 + lo] + rest)
      case _ => None
  }

  /** The encoding of a non-empty byte string: the first byte's two digits, then the rest's encoding. */
  lemma EncodeCons(bs: seq<byte>)
    requires bs != []
    ensures |Encode(bs)| >= 2
    ensures Encode(bs)[0] == DigitChar(bs[0] / 16) && Encode(bs)[1] == DigitChar(bs[0] % 16)
    ensures Encode(bs)[2..] == Encode(bs[1..])
  {
    assert Encode(bs) == [DigitChar(bs[0] / 16), DigitChar(bs[0] % 16)] + Encode(bs[1..]);
  }

  /** Decoding an encoding gives back the bytes. */
  lemma {:induction false} DecodeEncode(bs: seq<byte>)
    ensures Decode(Encode(bs)) == Some(bs)
  {
    if bs != [] {
      var b := bs[0];
      var s := Encode(bs);
      EncodeCons(bs);
      DecodeEncode(bs[1..]);
      DecodePair(s, b / 16, b % 16, bs[1..]);
      assert [b / 16 * 16 + b % 16] + bs[1..] == bs;
    }
  }

  /** Two digits in front of a decodable string decode to one more byte in front. */
  lemma DecodePair(s: string, hi: nat, lo: nat, rest: seq<byte>)
    requires |s| >= 2 && hi < 16 && lo < 16
    requires s[0] == DigitChar(hi) && s[1] == DigitChar(lo) && Decode(s[2..]) == Some(rest)
    ensures Decode(s) == Some([hi * 16 + lo] + rest)
  {
    assert DigitValue(s[0]) == Some(hi) && DigitValue(s[1]) == Some(lo);
  }

  /** Every string `Decode` accepts is the encoding of what it decodes to. */
  lemma {:induction false} EncodeDecode(s: string, bs: seq<byte>)
    requires Decode(s) == Some(bs)
    ensures Encode(bs) == s
    decreases |s|
  {
    if s != [] {
      var hi, lo := DigitValue(s[0]).value, DigitValue(s[1]).value;
      EncodeDecode(s[2..], bs[1..]);
      assert bs[0] == hi * 16 + lo;
      assert bs[0] / 16 == hi && bs[0] % 16 == lo;
      assert s == [s[0], s[1]] + s[2..];
    }
  }

  /** Two byte strings with the same encoding are equal. */
  lemma EncodeInjective(a: seq<byte>, b: seq<byte>)
    requires Encode(a) == Encode(b)
    ensures a == b
  {
    DecodeEncode(a);
    DecodeEncode(b);
  }

  /** Digit `2 * i` and `2 * i + 1` of the encoding are the two nibbles of byte `i`. */
  lemma {:induction false} EncodeAt(bs: seq<byte>, i: nat)
    requires i < |bs|
    ensures Encode(bs)[2 * i] == DigitChar(bs[i] / 16)
    ensures Encode(bs)[2 * i + 1] == DigitChar(bs[i] % 16)
  {
    EncodeCons(bs);
    if i > 0 {
      EncodeAt(bs[1..], i - 1);
      assert Encode(bs)[2 * i] == Encode(bs)[2..][2 * (i - 1)];
      assert Encode(bs)[2 * i + 1] == Encode(bs)[2..][2 * (i - 1) + 1];
    }
  }
}
