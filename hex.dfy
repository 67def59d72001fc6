/**
 * Lowercase hexadecimal rendering of bytes, as `hex.EncodeToString` produces it:
 * two characters per byte, high nibble first, digits `0-9a-f`.
 * Decode is the inverse used to state what an encoding means.
 */
module Hex {
  import opened Wrappers

  type Byte = x: int | 0 <= x < 256

  predicate IsLowerHex(c: char)
  {
    '0' <= c <= '9' || 'a' <= c <= 'f'
  }

  /** The character for one nibble, as the table `0123456789abcdef` gives it. */
  function Digit(n: int): (c: char)
    requires 0 <= n < 16
    ensures IsLowerHex(c)
  {
    if n < 10 then ('0' as int + n) as char else ('a' as int + n - 10) as char
  }

  /** The nibble a hex character stands for; upper-case digits are read too. */
  function Value(c: char): (n: Option<int>)
    ensures n.Some? ==> 0 <= n.value < 16
  {
    if '0' <= c <= '9' then Some(c as int - '0' as int)
    else if 'a' <= c <= 'f' then Some(c as int - 'a' as int + 10)
    else if 'A' <= c <= 'F' then Some(c as int - 'A' as int + 10)
    else None
  }

  function Encode(src: seq<Byte>): (dst: string)
    ensures |dst| == 2 * |src|
    ensures forall i :: 0 <= i < |dst| ==> IsLowerHex(dst[i])
    // byte k occupies positions 2k (high nibble) and 2k+1 (low nibble)
    ensures forall k :: 0 <= k < |src| ==> dst[2 * k] == Digit(src[k] / 16) && dst[2 * k + 1] == Digit(src[k] % 16)
  {
    if src == [] then []
    else [Digit(src[0] / 16), Digit(src[0] % 16)] + Encode(src[1..])
  }

  function Decode(s: string): (r: Option<seq<Byte>>)
    ensures r.Some? ==> 2 * |r.value| == |s|
  {
    if s == [] then Some([])
    else if |s| == 1 then None
    else match (Value(s[0]), Value(s[1]), Decode(s[2..]))
      case (Some(hi), Some(lo), Some(rest)) => Some([hi * 16 + lo] + rest)
      case _ => None
  }

  lemma DigitValue(n: int)
    requires 0 <= n < 16
    ensures Value(Digit(n)) == Some(n)
  {
  }

  /** Decoding an encoding gives back the bytes. */
  lemma {:induction false} DecodeEncode(src: seq<Byte>)
    ensures Decode(Encode(src)) == Some(src)
  {
    if src != [] {
      var b := src[0];
      var dst := Encode(src);
      assert dst[2..] == Encode(src[1..]);
      DecodeEncode(src[1..]);
      DigitValue(b / 16);
      DigitValue(b % 16);
      assert [b] + src[1..] == src;
    }
  }

  /** Distinct byte strings have distinct encodings. */
  lemma EncodeInjective(a: seq<Byte>, b: seq<Byte>)
    ensures Encode(a) == Encode(b) <==> a == b
  {
    DecodeEncode(a);
    DecodeEncode(b);
  }

  /** A lowercase string that decodes is the encoding of what it decodes to. */
  lemma {:induction false} EncodeDecode(s: string)
    requires forall i :: 0 <= i < |s| ==> IsLowerHex(s[i])
    requires Decode(s).Some?
    ensures Encode(Decode(s).value) == s
  {
    if s != [] {
      var rest := Decode(s[2..]).value;
      EncodeDecode(s[2..]);
      var hi, lo := Value(s[0]).value, Value(s[1]).value;
      assert Decode(s).value == [hi * 16 + lo] + rest;
      assert (hi * 16 + lo) / 16 == hi && (hi * 16 + lo) % 16 == lo;
      assert Digit(hi) == s[0] && Digit(lo) == s[1];
      assert Encode(Decode(s).value) == [s[0], s[1]] + s[2..];
    }
  }
}
