/**
  The KVM launch commands. All four go through the one generic
  KVM_MEMORY_ENCRYPT_OP request, which the kernel declares with an
  `unsigned long` argument; the crate reuses it for each typed command
  (`Ioctl::lie`), so the command id is what tells the four apart.
 */
module LaunchIoctl {
  import opened Ints
  import opened Wrappers
  import opened Ioctl
  import opened KvmTypes
  import opened Launch

  /** The payload types that have a command id on the encrypt-op path. */
  datatype Kind = InitKind | LaunchStartKind | LaunchUpdateKind | LaunchFinishKind

  /**
    A launch payload, tagged with its type. `Init` is modelled to the byte;
    for the other three only the caller's data is kept, their wire layouts
    are not part of this model.
   */
  datatype Payload =
    | InitPayload(init: ReservedInit)
    | LaunchStartPayload(start: Start)
    | LaunchUpdatePayload(buffer: seq<u8>, update: Update)
    | LaunchFinishPayload(finish: Finish)

  function KindOf(p: Payload): Kind {
    match p
    case InitPayload(_) => InitKind
    case LaunchStartPayload(_) => LaunchStartKind
    case LaunchUpdatePayload(_, _) => LaunchUpdateKind
    case LaunchFinishPayload(_) => LaunchFinishKind
  }

  /** The const-id table. */
  function Id(k: Kind): (id: u32)
    ensures 256 <= id <= 259
    ensures KindOfId(id) == Some(k)
  {
    match k
    case InitKind => 256
    case LaunchStartKind => 257
    case LaunchUpdateKind => 258
    case LaunchFinishKind => 259
  }

  /** The payload type a command id stands for, if any. */
  function KindOfId(id: u32): (r: Option<Kind>)
    ensures r.Some? <==> 256 <= id <= 259
  {
    if id == 256 then Some(InitKind)
    else if id == 257 then Some(LaunchStartKind)
    else if id == 258 then Some(LaunchUpdateKind)
    else if id == 259 then Some(LaunchFinishKind)
    else None
  }

  /** The position of a step in the launch protocol. */
  function ProtocolStep(k: Kind): nat {
    match k
    case InitKind => 0
    case LaunchStartKind => 1
    case LaunchUpdateKind => 2
    case LaunchFinishKind => 3
  }

  /** The ids are one-to-one and increase in protocol order: init, start, update, finish. */
  lemma IdsFollowProtocol(k1: Kind, k2: Kind)
    ensures Id(k1) == Id(k2) <==> k1 == k2
    ensures ProtocolStep(k1) < ProtocolStep(k2) <==> Id(k1) < Id(k2)
  {
  }

  /** KVMIO, the KVM ioctl group. */
  const KVMIO: u8 := 0xAE

  /** KVM_MEMORY_ENCRYPT_OP: write-read, group KVMIO, number 0xba. */
  const ENC_OP: Request := Request(WriteRead, KVMIO, 0xBA)

  /** The request code each launch payload type is issued with. */
  function RequestFor(k: Kind): (r: Request)
    ensures r == ENC_OP
  {
    match k
    case InitKind => ENC_OP
    case LaunchStartKind => ENC_OP
    case LaunchUpdateKind => ENC_OP
    case LaunchFinishKind => ENC_OP
  }

  /** A KVM SEV command: the payload's id, the payload, and the SEV handle it names. */
  datatype Command = Command(id: u32, payload: Payload, sev: Handle)

  /** `Command::from(sev, &payload)`: the id comes from the payload's type alone. */
  function CommandFor(sev: Handle, p: Payload): (c: Command)
    ensures KindOfId(c.id) == Some(KindOf(p))
    ensures c.payload == p && c.sev == sev
  {
    Command(Id(KindOf(p)), p, sev)
  }

  /** On the shared request code, equal ids mean equal payload types. */
  lemma OnlyIdDiscriminates(sev: Handle, p: Payload, q: Payload)
    ensures RequestFor(KindOf(p)) == RequestFor(KindOf(q))
    ensures CommandFor(sev, p).id == CommandFor(sev, q).id <==> KindOf(p) == KindOf(q)
  {
  }
}
