/**
  The KVM payload of SNP_INIT: one reserved `u64` in a packed struct. The
  field is private, and the only constructor the crate offers is the zero
  default, so outside its module every `Init` has `flags == 0`.
 */
module KvmTypes {
  import opened Ints
  import LittleEndian

  /** Every 8-byte `Init` image, reserved field included. */
  datatype Init = Init(flags: u64)

  /** The `Init` values other code can hold: the reserved field is zero. */
  type ReservedInit = i: Init | i.flags == 0 witness Init(0)

  const INIT_SIZE: nat := 8

  /** `Init::default()`: the one value code outside the module can build. */
  function DefaultInit(): (i: Init)
    ensures i.flags == 0
    ensures forall j :: 0 <= j < INIT_SIZE ==> Encode(i)[j] == 0
  {
    ZeroInitImage(Init(0));
    Init(0)
  }

  /** The packed image of an `Init`. */
  function Encode(i: Init): (bytes: seq<u8>)
    ensures |bytes| == INIT_SIZE
  {
    LittleEndian.Pow256Widths();
    LittleEndian.Encode(i.flags, 8)
  }

  function Decode(bytes: seq<u8>): Init
    requires |bytes| == INIT_SIZE
  {
    LittleEndian.Pow256Widths();
    Init(LittleEndian.Decode(bytes))
  }

  lemma DecodeEncode(i: Init)
    ensures Decode(Encode(i)) == i
  {
    LittleEndian.Pow256Widths();
    LittleEndian.DecodeEncode(i.flags, 8);
  }

  lemma EncodeDecode(bytes: seq<u8>)
    requires |bytes| == INIT_SIZE
    ensures Encode(Decode(bytes)) == bytes
  {
    LittleEndian.EncodeDecode(bytes);
  }

  /** The reserved field is zero exactly when the image is all zero bytes. */
  lemma ZeroInitImage(i: Init)
    ensures i.flags == 0 <==> forall j :: 0 <= j < INIT_SIZE ==> Encode(i)[j] == 0
  {
    LittleEndian.Pow256Widths();
    LittleEndian.DecodeEncode(i.flags, 8);
    LittleEndian.ZeroImage(Encode(i));
  }
}
