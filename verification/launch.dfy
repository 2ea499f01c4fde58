/**
  Guest launch parameters: the policy and its 64-bit wire word, the page
  types and VMPL permission masks of a launch update, and the plain records
  handed to the launch steps.
 */
module Launch {
  import opened Ints
  import opened Wrappers
  import opened Snp

  // ------------------------------------------------------------ policy flags

  /** The named policy options. */
  datatype PolicyFlag = Smt | MigrateMa | Debug

  const SMT: bv16 := 1
  const MIGRATE_MA: bv16 := 1 << 2
  const DEBUG: bv16 := 1 << 3

  /** Bit 1 of the policy, reserved by the firmware and always sent as 1. */
  const RESERVED_POLICY_BIT: bv16 := 2

  predicate SingleBit16(b: bv16) {
    b != 0 && b & (b - 1) == 0
  }

  /** The bit of a named option: a single bit, never the reserved one. */
  function FlagBit(f: PolicyFlag): (b: bv16)
    ensures SingleBit16(b)
    ensures b & RESERVED_POLICY_BIT == 0
  {
    match f
    case Smt => SMT
    case MigrateMa => MIGRATE_MA
    case Debug => DEBUG
  }

  /** Different options own different bits. */
  lemma FlagBitsDisjoint(f: PolicyFlag, g: PolicyFlag)
    ensures f != g ==> FlagBit(f) & FlagBit(g) == 0
    ensures FlagBit(f) == FlagBit(g) <==> f == g
  {
  }

  /** `PolicyFlags`, a `u16` bit set; bits outside the named options are kept as given. */
  datatype PolicyFlags = PolicyFlags(bits: bv16)

  /** `PolicyFlags::default()`. */
  const EMPTY_POLICY_FLAGS: PolicyFlags := PolicyFlags(0)

  predicate HasFlag(flags: PolicyFlags, f: PolicyFlag) {
    flags.bits & FlagBit(f) == FlagBit(f)
  }

  /** The default flag set holds no option. */
  lemma DefaultPolicyFlagsEmpty(f: PolicyFlag)
    ensures !HasFlag(EMPTY_POLICY_FLAGS, f)
  {
  }

  // ------------------------------------------------------------------ policy

  /** A guest policy: option flags and the minimum firmware version. */
  datatype Policy = Policy(flags: PolicyFlags, minfw: Version)

  /** `Policy::default()`. */
  const DEFAULT_POLICY: Policy := Policy(EMPTY_POLICY_FLAGS, DEFAULT_VERSION)

  /** The low byte of a flag set with the reserved bit forced on: what the wire word keeps. */
  function WireFlags(flags: PolicyFlags): bv16 {
    (flags.bits | RESERVED_POLICY_BIT) & 0xFF
  }

  /**
    The packing on bit patterns: minor version in bits 0-7, major in bits
    8-15, and the flags, reserved bit 1 forced on before the shift, from bit
    16 up; the `0x00FFFFFF` mask then drops flag bits 8-15.
   */
  function Pack(minor: bv8, major: bv8, flags: bv16): bv64 {
    var minorVersion := minor as bv64;
    var majorVersion := (major as bv64) << 8;
    var flags64 := ((flags | RESERVED_POLICY_BIT) as bv64) << 16;
    (minorVersion | majorVersion | flags64) & 0x00FF_FFFF
  }

  function MinorOf(val: bv64): bv8 {
    (val & 0xFF) as bv8
  }

  function MajorOf(val: bv64): bv8 {
    ((val >> 8) & 0xFF) as bv8
  }

  function FlagsOf(val: bv64): bv16 {
    ((val >> 16) & 0xFF) as bv16
  }

  /** Each field reads back from the packed word; of the flags, only the low byte with bit 1 set. */
  lemma UnpackPack(minor: bv8, major: bv8, flags: bv16)
    ensures MinorOf(Pack(minor, major, flags)) == minor
    ensures MajorOf(Pack(minor, major, flags)) == major
    ensures FlagsOf(Pack(minor, major, flags)) == (flags | RESERVED_POLICY_BIT) & 0xFF
  {
  }

  /** A 24-bit word with bit 17 set is the packing of its own fields. */
  lemma PackUnpack(val: bv64)
    requires val < 1 << 24 && (val >> 17) & 1 == 1
    ensures Pack(MinorOf(val), MajorOf(val), FlagsOf(val)) == val
  {
  }

  /**
    `Policy::as_u64`. The reserved bit lands on bit 17 of the word; bit 1 of
    the word is bit 1 of the minor version.
   */
  function AsU64(p: Policy): (val: bv64)
    ensures val & 0xFF == Byte(p.minfw.minor) as bv64
    ensures (val >> 8) & 0xFF == Byte(p.minfw.major) as bv64
    ensures (val >> 16) == WireFlags(p.flags) as bv64
    ensures (val >> 17) & 1 == 1
    ensures val < 1 << 24
  {
    Pack(Byte(p.minfw.minor), Byte(p.minfw.major), p.flags.bits)
  }

  /** Reads a policy back out of a wire word. */
  function PolicyOfU64(val: bv64): Policy {
    Policy(PolicyFlags(FlagsOf(val)), Version(MajorOf(val) as int, MinorOf(val) as int))
  }

  /** Packing loses only flag bits 8-15 and the caller's choice of bit 1. */
  lemma UnpackAsU64(p: Policy)
    ensures PolicyOfU64(AsU64(p)) == Policy(PolicyFlags(WireFlags(p.flags)), p.minfw)
  {
    UnpackPack(Byte(p.minfw.minor), Byte(p.minfw.major), p.flags.bits);
  }

  /** Every 24-bit word with bit 17 set is the packing of some policy. */
  lemma AsU64Unpack(val: bv64)
    requires val < 1 << 24 && (val >> 17) & 1 == 1
    ensures AsU64(PolicyOfU64(val)) == val
  {
    PackUnpack(val);
    BitsValue(MinorOf(val));
    BitsValue(MajorOf(val));
  }

  /** Two policies pack alike exactly when they agree on the version and the kept flag bits. */
  lemma AsU64Injective(p: Policy, q: Policy)
    ensures AsU64(p) == AsU64(q) <==> p.minfw == q.minfw && WireFlags(p.flags) == WireFlags(q.flags)
  {
    UnpackAsU64(p);
    UnpackAsU64(q);
  }

  /** The default policy's word holds only the reserved bit, which lands on bit 17. */
  lemma DefaultPolicyWord()
    ensures AsU64(DEFAULT_POLICY) == 0x02_0000
  {
    assert Byte(0) == 0;
  }

  /** Applying the final mask again changes nothing. */
  lemma MaskIdempotent(p: Policy)
    ensures AsU64(p) & 0x00FF_FFFF == AsU64(p)
  {
  }

  // -------------------------------------------------------------- page types

  /** Launch-update page types (SNP Firmware ABI, table 58). */
  datatype PageType = Normal | Vmsa | Zero | Unmeasured | Secrets | Cpuid

  /** `PageType::value`: the wire code of a page type. */
  function PageTypeValue(t: PageType): (v: u8)
    ensures 1 <= v <= 6
    ensures PageTypeOfValue(v) == Some(t)
  {
    match t
    case Normal => 0x1
    case Vmsa => 0x2
    case Zero => 0x3
    case Unmeasured => 0x4
    case Secrets => 0x5
    case Cpuid => 0x6
  }

  /** The page type a wire code names, if any. */
  function PageTypeOfValue(v: u8): (r: Option<PageType>)
    ensures r.Some? <==> 1 <= v <= 6
  {
    match v
    case 1 => Some(Normal)
    case 2 => Some(Vmsa)
    case 3 => Some(Zero)
    case 4 => Some(Unmeasured)
    case 5 => Some(Secrets)
    case 6 => Some(Cpuid)
    case _ => None
  }

  /** The codes are one-to-one, onto 1..6, and 0 is none of them. */
  lemma PageTypeValueBijective(s: PageType, t: PageType, v: u8)
    ensures PageTypeValue(s) == PageTypeValue(t) <==> s == t
    ensures 1 <= v <= 6 ==> PageTypeValue(PageTypeOfValue(v).value) == v
    ensures PageTypeValue(s) != 0
  {
  }

  // ----------------------------------------------------------- VMPL perms

  /** The named VMPL permissions. */
  datatype VmplPerm = Read | Write | ExecuteUser | ExecuteSupervisor

  const READ: bv8 := 1
  const WRITE: bv8 := 1 << 1
  const EXECUTE_USER: bv8 := 1 << 2
  const EXECUTE_SUPERVISOR: bv8 := 1 << 3

  /** The bit of a permission: a single bit in the low nibble. */
  function PermBit(p: VmplPerm): (b: bv8)
    ensures b != 0 && b & (b - 1) == 0
    ensures b & 0xF0 == 0
  {
    match p
    case Read => READ
    case Write => WRITE
    case ExecuteUser => EXECUTE_USER
    case ExecuteSupervisor => EXECUTE_SUPERVISOR
  }

  /** Different permissions own different bits; together they fill the low nibble. */
  lemma PermBitsDistinct(p: VmplPerm, q: VmplPerm)
    ensures p != q ==> PermBit(p) & PermBit(q) == 0
    ensures PermBit(p) == PermBit(q) <==> p == q
    ensures PermBit(Read) | PermBit(Write) | PermBit(ExecuteUser) | PermBit(ExecuteSupervisor) == 0x0F
  {
  }

  /** `VmplPerms`, a `u8` bit set. */
  datatype VmplPerms = VmplPerms(bits: bv8)

  /** `VmplPerms::default()`. */
  const EMPTY_VMPL_PERMS: VmplPerms := VmplPerms(0)

  predicate HasPerm(perms: VmplPerms, p: VmplPerm) {
    perms.bits & PermBit(p) == PermBit(p)
  }

  /** The default mask grants nothing. */
  lemma DefaultVmplPermsEmpty(p: VmplPerm)
    ensures !HasPerm(EMPTY_VMPL_PERMS, p)
  {
  }

  // ---------------------------------------------------- launch step records

  /** Guest-OS-visible workaround bytes: exactly 16. */
  type Gosvw = s: seq<u8> | |s| == 16 witness [0, 0, 0, 0, 0, 0, 0, 0, 0, 0, 0, 0, 0, 0, 0, 0]

  /** The data needed to begin the launch. */
  datatype Start = Start(policy: Policy, maUaddr: u64, maEn: bool, imiEn: bool, gosvw: Gosvw)

  /** The data describing one launch update. */
  datatype Update = Update(
    imiPage: bool,
    pageType: PageType,
    vmpl3Perms: VmplPerms,
    vmpl2Perms: VmplPerms,
    vmpl1Perms: VmplPerms)

  /** `KVM_SEV_SNP_FINISH_DATA_SIZE`. */
  const FINISH_DATA_SIZE: nat := 32

  /** Opaque host data describing the guest. */
  type HostData = s: seq<u8> | |s| == FINISH_DATA_SIZE
    witness [0, 0, 0, 0, 0, 0, 0, 0, 0, 0, 0, 0, 0, 0, 0, 0, 0, 0, 0, 0, 0, 0, 0, 0, 0, 0, 0, 0, 0, 0, 0, 0]

  /** The data needed to complete the launch. */
  datatype Finish = Finish(
    idBlockUaddr: u64,
    idAuthUaddr: u64,
    idBlockEn: bool,
    authKeyEn: bool,
    hostData: HostData)
}
