/**
  Byte images of unsigned integers. The crate's `repr(C, packed)` payloads use
  the host byte order; SEV-SNP hosts are x86-64, so that order is little-endian.
 */
module LittleEndian {
  import opened Ints

  function Pow256(n: nat): (r: nat)
    ensures r > 0
  {
    if n == 0 then 1 else 256 * Pow256(n - 1)
  }

  /** The widths the payloads use, as bounds. */
  lemma Pow256Widths()
    ensures Pow256(1) == 0x100
    ensures Pow256(2) == 0x1_0000
    ensures Pow256(4) == 0x1_0000_0000
    ensures Pow256(8) == 0x1_0000_0000_0000_0000
  {
    assert Pow256(2) == 0x1_0000;
    assert Pow256(4) == 0x1_0000_0000;
  }

  /** The `n` bytes of `x`, least significant first. */
  function Encode(x: nat, n: nat): (bytes: seq<u8>)
    requires x < Pow256(n)
    ensures |bytes| == n
  {
    if n == 0 then [] else [x % 256] + Encode(x / 256, n - 1)
  }

  /** The number whose little-endian image is `bytes`. */
  function Decode(bytes: seq<u8>): (x: nat)
    ensures x < Pow256(|bytes|)
  {
    if |bytes| == 0 then 0 else bytes[0] + 256 * Decode(bytes[1..])
  }

  lemma {:induction false} DecodeEncode(x: nat, n: nat)
    requires x < Pow256(n)
    ensures Decode(Encode(x, n)) == x
  {
    if n > 0 {
      DecodeEncode(x / 256, n - 1);
      assert Encode(x, n)[1..] == Encode(x / 256, n - 1);
    }
  }

  lemma {:induction false} EncodeDecode(bytes: seq<u8>)
    ensures Encode(Decode(bytes), |bytes|) == bytes
  {
    if |bytes| > 0 {
      var rest := Decode(bytes[1..]);
      assert Decode(bytes) % 256 == bytes[0];
      assert Decode(bytes) / 256 == rest;
      EncodeDecode(bytes[1..]);
      assert bytes == [bytes[0]] + bytes[1..];
    }
  }

  /** The image of zero is all zero bytes, and it is the only such image. */
  lemma {:induction false} ZeroImage(bytes: seq<u8>)
    ensures Decode(bytes) == 0 <==> forall i :: 0 <= i < |bytes| ==> bytes[i] == 0
  {
    if |bytes| > 0 {
      ZeroImage(bytes[1..]);
      if Decode(bytes) == 0 {
        assert bytes[0] == 0 && Decode(bytes[1..]) == 0;
        forall i | 0 <= i < |bytes| ensures bytes[i] == 0 {
          if i > 0 { assert bytes[i] == bytes[1..][i - 1]; }
        }
      }
      if forall i :: 0 <= i < |bytes| ==> bytes[i] == 0 {
        assert forall i :: 0 <= i < |bytes[1..]| ==> bytes[1..][i] == bytes[i + 1];
      }
    }
  }
}
