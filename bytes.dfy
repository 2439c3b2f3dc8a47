/** Bytes on the serial wire and their big-endian reading as integers
    (Python's `int.from_bytes(data, 'big')`). */
module Bytes {

  newtype byte = x: int | 0 <= x < 256

  /** 256 to the power `n`: one more than the largest `n`-byte value. */
  function Pow256(n: nat): (p: nat)
    ensures p >= 1
  {
    if n == 0 then 1 else 256 * Pow256(n - 1)
  }

  /** The unsigned integer whose big-endian encoding is `s`. */
  function FromBigEndian(s: seq<byte>): (v: nat)
    ensures v < Pow256(|s|)
  {
    if s == [] then 0
    else
      var high := FromBigEndian(s[..|s| - 1]);
      assert high <= Pow256(|s| - 1) - 1;
      assert high * 256 <= Pow256(|s| - 1) * 256 - 256;
      high * 256 + s[|s| - 1] as nat
  }

  /** The `n`-byte big-endian encoding of `v`, the inverse of `FromBigEndian`. */
  function ToBigEndian(v: nat, n: nat): (s: seq<byte>)
    requires v < Pow256(n)
    ensures |s| == n
  {
    if n == 0 then []
    else
      assert v / 256 < Pow256(n - 1);
      ToBigEndian(v / 256, n - 1) + [(v % 256) as byte]
  }

  /** Two bytes read big-endian give `hi * 256 + lo`, always below 65536. */
  lemma FromBigEndianPair(hi: byte, lo: byte)
    ensures FromBigEndian([hi, lo]) == hi as nat * 256 + lo as nat
    ensures FromBigEndian([hi, lo]) < 65536
  {
  }

  /** Encoding a value and reading it back gives the value. */
  lemma {:induction false} FromToBigEndian(v: nat, n: nat)
    requires v < Pow256(n)
    ensures FromBigEndian(ToBigEndian(v, n)) == v
  {
    if n > 0 {
      var s := ToBigEndian(v, n);
      assert s[..|s| - 1] == ToBigEndian(v / 256, n - 1);
      FromToBigEndian(v / 256, n - 1);
    }
  }

  /** Reading bytes and encoding the value at the same width gives the bytes back. */
  lemma {:induction false} ToFromBigEndian(s: seq<byte>)
    ensures ToBigEndian(FromBigEndian(s), |s|) == s
  {
    if s != [] {
      var init, last := s[..|s| - 1], s[|s| - 1];
      var v := FromBigEndian(s);
      assert v == FromBigEndian(init) * 256 + last as nat;
      assert v / 256 == FromBigEndian(init);
      assert v % 256 == last as nat;
      ToFromBigEndian(init);
      assert s == init + [last];
    }
  }
}
