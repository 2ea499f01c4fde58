/**
  The SEV platform commands: each payload type has a fixed command id
  (`include/uapi/linux/psp-sev.h`), and all of them travel through one
  shared request code, so the id is what tells them apart.
 */
module FirmwareIoctl {
  import opened Ints
  import opened Wrappers
  import opened Ioctl
  import opened FirmwareTypes

  /** The payload types that have a command id on the SEV device. */
  datatype Kind = PlatformStatusKind | SetExtConfigKind | GetExtConfigKind

  /** A payload value, tagged with its type. */
  datatype Payload =
    | PlatformStatusPayload(status: PlatformStatus)
    | SetExtConfigPayload(config: SetExtConfig)
    | GetExtConfigPayload(get: GetExtConfig)

  function KindOf(p: Payload): Kind {
    match p
    case PlatformStatusPayload(_) => PlatformStatusKind
    case SetExtConfigPayload(_) => SetExtConfigKind
    case GetExtConfigPayload(_) => GetExtConfigKind
  }

  /** The const-id table. */
  function Id(k: Kind): (id: u32)
    ensures 256 <= id <= 258
    ensures KindOfId(id) == Some(k)
  {
    match k
    case PlatformStatusKind => 256
    case SetExtConfigKind => 257
    case GetExtConfigKind => 258
  }

  /** The payload type a command id stands for, if any. */
  function KindOfId(id: u32): (r: Option<Kind>)
    ensures r.Some? <==> 256 <= id <= 258
  {
    if id == 256 then Some(PlatformStatusKind)
    else if id == 257 then Some(SetExtConfigKind)
    else if id == 258 then Some(GetExtConfigKind)
    else None
  }

  /** An id identifies its payload type: the table is one-to-one. */
  lemma IdsIdentifyKinds(k1: Kind, k2: Kind, id: u32)
    ensures Id(k1) == Id(k2) <==> k1 == k2
    ensures KindOfId(id).Some? ==> Id(KindOfId(id).value) == id
  {
  }

  /** The SEV group, `b'S'`. */
  const SEV_GROUP: u8 := 0x53

  /** The one request code of every SEV-SNP platform command: write-read, group 'S', number 0. */
  const SEV_ISSUE_CMD: Request := Request(WriteRead, SEV_GROUP, 0)

  /** The request code each payload type is issued with. */
  function RequestFor(k: Kind): (r: Request)
    ensures r == SEV_ISSUE_CMD
  {
    match k
    case PlatformStatusKind => Request(WriteRead, SEV_GROUP, 0)
    case SetExtConfigKind => Request(WriteRead, SEV_GROUP, 0)
    case GetExtConfigKind => Request(WriteRead, SEV_GROUP, 0)
  }

  /** A command: the id of its payload's type, the payload it borrows, and how it borrows it. */
  datatype Command = Command(id: u32, payload: Payload, intent: Intent)

  /** `Command::from` / `Command::from_mut`: the id comes from the payload's type alone. */
  function CommandFor(p: Payload, intent: Intent): (c: Command)
    ensures KindOfId(c.id) == Some(KindOf(p))
    ensures c.payload == p && c.intent == intent
  {
    Command(Id(KindOf(p)), p, intent)
  }

  /** Both entry points give the same id. */
  lemma IntentDoesNotChangeId(p: Payload)
    ensures CommandFor(p, Shared).id == CommandFor(p, Mutable).id
  {
  }

  /**
    Since the request code is shared, two commands issued on it are told apart
    by their ids alone: equal ids mean equal payload types.
   */
  lemma OnlyIdDiscriminates(p: Payload, q: Payload, i: Intent, j: Intent)
    ensures RequestFor(KindOf(p)) == RequestFor(KindOf(q))
    ensures CommandFor(p, i).id == CommandFor(q, j).id <==> KindOf(p) == KindOf(q)
  {
  }
}
