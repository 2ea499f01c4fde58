/**
  Payloads of the SEV platform commands. `PlatformStatus` is `repr(C, packed)`
  (SNP Firmware ABI, chapter 8.3, table 38): 19 bytes, no padding.
 */
module FirmwareTypes {
  import opened Ints
  import opened Snp
  import LittleEndian

  /** The raw platform status; `state` is a plain byte, not yet a `State`. */
  datatype PlatformStatus = PlatformStatus(
    version: Version,
    state: u8,
    buildId: u32,
    guestCount: u32,
    tcbVersion: u64)

  /** `PlatformStatus::default()`: every field zero. */
  const DEFAULT_PLATFORM_STATUS: PlatformStatus := PlatformStatus(DEFAULT_VERSION, 0, 0, 0, 0)

  const VERSION_OFFSET: nat := 0
  const STATE_OFFSET: nat := 2
  const BUILD_ID_OFFSET: nat := 3
  const GUEST_COUNT_OFFSET: nat := 7
  const TCB_VERSION_OFFSET: nat := 11
  const PLATFORM_STATUS_SIZE: nat := 19

  /** The packed image: each field at its offset, in declaration order, no gaps. */
  function Encode(p: PlatformStatus): (bytes: seq<u8>)
    ensures |bytes| == PLATFORM_STATUS_SIZE
    ensures bytes[VERSION_OFFSET] == p.version.major && bytes[VERSION_OFFSET + 1] == p.version.minor
    ensures bytes[STATE_OFFSET] == p.state
    ensures bytes[BUILD_ID_OFFSET..GUEST_COUNT_OFFSET] == LittleEndian.Encode(p.buildId, 4)
    ensures bytes[GUEST_COUNT_OFFSET..TCB_VERSION_OFFSET] == LittleEndian.Encode(p.guestCount, 4)
    ensures bytes[TCB_VERSION_OFFSET..PLATFORM_STATUS_SIZE] == LittleEndian.Encode(p.tcbVersion, 8)
  {
    LittleEndian.Pow256Widths();
    var head: seq<u8> := [p.version.major, p.version.minor, p.state];
    var build := LittleEndian.Encode(p.buildId, 4);
    var guests := LittleEndian.Encode(p.guestCount, 4);
    var tcb := LittleEndian.Encode(p.tcbVersion, 8);
    var bytes := head + build + guests + tcb;
    assert bytes[3..7] == build;
    assert bytes[7..11] == guests;
    assert bytes[11..19] == tcb;
    bytes
  }

  /** Reads a 19-byte image as a platform status. */
  function Decode(bytes: seq<u8>): PlatformStatus
    requires |bytes| == PLATFORM_STATUS_SIZE
  {
    LittleEndian.Pow256Widths();
    PlatformStatus(
      Version(bytes[0], bytes[1]),
      bytes[2],
      LittleEndian.Decode(bytes[3..7]),
      LittleEndian.Decode(bytes[7..11]),
      LittleEndian.Decode(bytes[11..19]))
  }

  /** Decoding an encoded status gives the status back. */
  lemma DecodeEncode(p: PlatformStatus)
    ensures Decode(Encode(p)) == p
  {
    LittleEndian.Pow256Widths();
    LittleEndian.DecodeEncode(p.buildId, 4);
    LittleEndian.DecodeEncode(p.guestCount, 4);
    LittleEndian.DecodeEncode(p.tcbVersion, 8);
  }

  /** Every field is a plain integer, so every 19-byte image is some status's image. */
  lemma EncodeDecode(bytes: seq<u8>)
    requires |bytes| == PLATFORM_STATUS_SIZE
    ensures Encode(Decode(bytes)) == bytes
  {
    LittleEndian.EncodeDecode(bytes[3..7]);
    LittleEndian.EncodeDecode(bytes[7..11]);
    LittleEndian.EncodeDecode(bytes[11..19]);
    var e := Encode(Decode(bytes));
    assert e[..3] == bytes[..3];
    assert e == e[..3] + e[3..7] + e[7..11] + e[11..19];
    assert bytes == bytes[..3] + bytes[3..7] + bytes[7..11] + bytes[11..19];
  }

  /** The default status is the all-zero image. */
  lemma DefaultIsAllZero()
    ensures forall i :: 0 <= i < PLATFORM_STATUS_SIZE ==> Encode(DEFAULT_PLATFORM_STATUS)[i] == 0
  {
    var e := Encode(DEFAULT_PLATFORM_STATUS);
    LittleEndian.ZeroImage(e[3..7]);
    LittleEndian.ZeroImage(e[7..11]);
    LittleEndian.ZeroImage(e[11..19]);
    LittleEndian.DecodeEncode(0, 4);
    LittleEndian.DecodeEncode(0, 8);
    forall i | 3 <= i < PLATFORM_STATUS_SIZE ensures e[i] == 0 {
      if i < 7 { assert e[i] == e[3..7][i - 3]; }
      else if i < 11 { assert e[i] == e[7..11][i - 7]; }
      else { assert e[i] == e[11..19][i - 11]; }
    }
  }

  /**
    Payload of SNP_SET_EXT_CONFIG, with the fields `set_ext_config` gives it.
    Its byte layout is not part of this model.
   */
  datatype SetExtConfig = SetExtConfig(configAddress: u64, certsAddress: u64, certsLen: u32)

  /** Payload of SNP_GET_EXT_CONFIG; its byte layout is not part of this model. */
  datatype GetExtConfig = GetExtConfig(configAddress: u64, certsAddress: u64, certsLen: u32)

  /** `GetExtConfig::default()`. */
  const DEFAULT_GET_EXT_CONFIG: GetExtConfig := GetExtConfig(0, 0, 0)
}
