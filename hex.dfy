/**
 * The Base16 encoding of section 8 of RFC 4648 with the lower-case alphabet,
 * as Go's encoding/hex writes it: every byte becomes two characters, the high
 * nibble first.  `Decode` is the inverse that the same package provides; the
 * service never calls it, it is here to state what `Encode` preserves.
 */
module Hex {
  import opened Wrappers

  newtype byte = x: int | 0 <= x < 256

  /** The alphabet, in digit order. */
  const HexTable: string := "0123456789abcdef"

  predicate IsLowerHexDigit(c: char) {
    '0' <= c <= '9' || 'a' <= c <= 'f'
  }

  predicate IsLowerHex(s: string) {
    forall i :: 0 <= i < |s| ==> IsLowerHexDigit(s[i])
  }

  /** The character for a nibble. */
  function Digit(n: int): (c: char)
    requires 0 <= n < 16
    ensures IsLowerHexDigit(c)
    ensures c == HexTable[n]
  {
    if n < 10 then ('0' as int + n) as char else ('a' as int + n - 10) as char
  }

  /** The nibble a character stands for; upper-case digits are accepted too. */
  function FromHexChar(c: char): (r: Option<int>)
    ensures r.Some? ==> 0 <= r.value < 16
    ensures r.Some? <==> IsLowerHexDigit(c) || 'A' <= c <= 'F'
  {
    if '0' <= c <= '9' then Some(c as int - '0' as int)
    else if 'a' <= c <= 'f' then Some(c as int - 'a' as int + 10)
    else if 'A' <= c <= 'F' then Some(c as int - 'A' as int + 10)
    else None
  }

  /** The two characters of one byte: high nibble, then low nibble. */
  function EncodeByte(b: byte): (s: string)
    ensures |s| == 2 && IsLowerHex(s)
  {
    [Digit(b as int / 16), Digit(b as int % 16)]
  }

  function Encode(src: seq<byte>): (dst: string)
    ensures |dst| == 2 * |src|
    ensures IsLowerHex(dst)
  {
    if src == [] then [] else EncodeByte(src[0]) + Encode(src[1..])
  }

  /** Two characters per byte; an odd length or a non-hex character is an error. */
  function Decode(s: string): (r: Option<seq<byte>>)
    ensures r.Some? ==> 2 * |r.value| == |s|
  {
    if |s| == 0 then Some([])
    else if |s| == 1 then None
    else match (FromHexChar(s[0]), FromHexChar(s[1]), Decode(s[2..]))
      case (Some(hi), Some(lo), Some(rest)) => Some([(hi * 16 + lo) as byte] + rest)
      case _ => None
  }

  lemma {:induction false} EncodeAppend(a: seq<byte>, b: seq<byte>)
    ensures Encode(a + b) == Encode(a) + Encode(b)
  {
    if a == [] {
      assert a + b == b;
    } else {
      assert (a + b)[1..] == a[1..] + b;
      EncodeAppend(a[1..], b);
    }
  }

  /** Byte i sits at characters 2i and 2i+1, high nibble first. */
  lemma {:induction false} EncodeAt(src: seq<byte>, i: int)
    requires 0 <= i < |src|
    ensures Encode(src)[2 * i] == HexTable[src[i] as int / 16]
    ensures Encode(src)[2 * i + 1] == HexTable[src[i] as int % 16]
  {
    if i > 0 {
      EncodeAt(src[1..], i - 1);
    }
  }

  lemma DigitRoundTrip(n: int)
    requires 0 <= n < 16
    ensures FromHexChar(Digit(n)) == Some(n)
  {
  }

  /** Decoding undoes encoding, for every byte string. */
  lemma {:induction false} DecodeEncode(src: seq<byte>)
    ensures Decode(Encode(src)) == Some(src)
  {
    if src != [] {
      var s := Encode(src);
      var b := src[0] as int;
      DigitRoundTrip(b / 16);
      DigitRoundTrip(b % 16);
      assert s[2..] == Encode(src[1..]);
      DecodeEncode(src[1..]);
      assert [src[0]] + src[1..] == src;
    }
  }

  /** Distinct byte strings have distinct encodings. */
  lemma EncodeInjective(a: seq<byte>, b: seq<byte>)
    requires Encode(a) == Encode(b)
    ensures a == b
  {
    DecodeEncode(a);
    DecodeEncode(b);
  }

  /**
   * Go's hex.Encode: writes the encoding of `src` into the front of `dst`
   * and returns the number of characters written.
   */
  method EncodeInto(dst: array<char>, src: seq<byte>) returns (n: nat)
    requires 2 * |src| <= dst.Length
    modifies dst
    ensures n == 2 * |src|
    ensures dst[..n] == Encode(src)
    ensures dst[n..] == old(dst[n..])
  {
    var i := 0;
    while i < |src|
      invariant 0 <= i <= |src|
      invariant dst[..2 * i] == Encode(src[..i])
      invariant dst[2 * |src|..] == old(dst[2 * |src|..])
    {
      var v := src[i] as int;
      dst[2 * i] := HexTable[v / 16];
      dst[2 * i + 1] := HexTable[v % 16];
      EncodeAppend(src[..i], [src[i]]);
      assert src[..i + 1] == src[..i] + [src[i]];
      assert dst[..2 * (i + 1)] == dst[..2 * i] + EncodeByte(src[i]);
      i := i + 1;
    }
    assert src[..i] == src;
    n := 2 * |src|;
  }
}
