/**
 * The JA3 digest (ja3rp.go, lines 80-85): the MD5 sum of the JA3 string,
 * rendered in lowercase hexadecimal.
 */
module Digest {
  import opened Wrappers
  import Hex

  /** An MD5 sum: sixteen bytes. */
  type Md5Sum = s: seq<Hex.Byte> | |s| == 16 witness [0, 0, 0, 0, 0, 0, 0, 0, 0, 0, 0, 0, 0, 0, 0, 0]

  /**
   * The digest of a JA3 string. The MD5 function itself is a parameter:
   * it is a library whose internals are not modelled.
   */
  function JA3Digest(md5: string -> Md5Sum, ja3: string): (digest: string)
    ensures |digest| == 32
    ensures forall i :: 0 <= i < |digest| ==> Hex.IsLowerHex(digest[i])
    ensures Hex.Decode(digest) == Some(md5(ja3))
  {
    Hex.DecodeEncode(md5(ja3));
    Hex.Encode(md5(ja3))
  }

  /** Two JA3 strings have the same digest exactly when their MD5 sums agree. */
  lemma DigestIdentifiesSum(md5: string -> Md5Sum, a: string, b: string)
    ensures JA3Digest(md5, a) == JA3Digest(md5, b) <==> md5(a) == md5(b)
  {
  }

  /**
   * The digest holds no `%`, so when the root handler passes it inside a
   * `fmt.Fprintf` format string it is written out verbatim.
   */
  lemma DigestHasNoFormatVerb(md5: string -> Md5Sum, ja3: string)
    ensures '%' !in JA3Digest(md5, ja3)
  {
  }
}
