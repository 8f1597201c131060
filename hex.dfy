/**
 * Base16 encoding of the random bytes behind every verification and reset
 * token (`randomBytes.toString('hex')`): two characters per byte, high
 * nibble first, drawn from the lower-case alphabet (section 8 of RFC 4648,
 * lower-cased as Node emits it).
 */
module Hex {
  newtype byte = x: int | 0 <= x < 256

  /** Number of random bytes drawn for every token. */
  const TokenBytes: nat := 20

  const Alphabet: string := "0123456789abcdef"

  predicate IsHexChar(c: char) {
    '0' <= c <= '9' || 'a' <= c <= 'f'
  }

  predicate IsLowerHex(s: string) {
    forall i :: 0 <= i < |s| ==> IsHexChar(s[i])
  }

  function Digit(n: int): (c: char)
    requires 0 <= n < 16
    ensures IsHexChar(c)
    ensures DigitValue(c) == n
  {
    Alphabet[n]
  }

  /** The value of one hexadecimal digit; the inverse of Digit. */
  function DigitValue(c: char): (n: int)
    requires IsHexChar(c)
    ensures 0 <= n < 16
  {
    if c <= '9' then c as int - '0' as int else c as int - 'a' as int + 10
  }

  /** Encodes a byte string, high nibble first. */
  function Encode(bs: seq<byte>): (s: string)
    ensures |s| == 2 * |bs|
    ensures IsLowerHex(s)
  {
    if bs == [] then ""
    else [Digit(bs[0] as int / 16), Digit(bs[0] as int % 16)] + Encode(bs[1..])
  }

  /** Decodes a well-formed hexadecimal string of even length. */
  function Decode(s: string): (bs: seq<byte>)
    requires |s| % 2 == 0 && IsLowerHex(s)
    ensures 2 * |bs| == |s|
  {
    if s == [] then []
    else [(16 * DigitValue(s[0]) + DigitValue(s[1])) as byte] + Decode(s[2..])
  }

  /** Decoding undoes encoding. */
  lemma {:induction false} DecodeEncode(bs: seq<byte>)
    ensures Decode(Encode(bs)) == bs
  {
    if bs != [] {
      var s := Encode(bs);
      assert s[2..] == Encode(bs[1..]);
      DecodeEncode(bs[1..]);
      var b := bs[0] as int;
      assert 16 * (b / 16) + b % 16 == b;
    }
  }

  /** Distinct random byte strings give distinct tokens. */
  lemma EncodeInjective(a: seq<byte>, b: seq<byte>)
    ensures Encode(a) == Encode(b) <==> a == b
  {
    if Encode(a) == Encode(b) {
      DecodeEncode(a);
      DecodeEncode(b);
    }
  }

  /** The token drawn from twenty random bytes. */
  function Token(random: seq<byte>): (t: string)
    requires |random| == TokenBytes
    ensures |t| == 40 && IsLowerHex(t)
    ensures forall other: seq<byte> {:trigger Encode(other)} :: |other| == TokenBytes && other != random ==> Encode(other) != t
  {
    EncodeInjectiveAll(random);
    Encode(random)
  }

  lemma EncodeInjectiveAll(a: seq<byte>)
    ensures forall b: seq<byte> {:trigger Encode(b)} :: b != a ==> Encode(b) != Encode(a)
  {
    forall b: seq<byte> | b != a
      ensures Encode(b) != Encode(a)
    {
      EncodeInjective(a, b);
    }
  }
}
