/** Platform state, status and extended configuration, and the firmware error type. */
module Firmware {
  import opened Ints
  import opened Wrappers
  import opened Cmp
  import opened Ioctl
  import opened Snp

  /** The platform state; `repr(u8)` with discriminants 0 and 1. */
  datatype State = Uninitialized | Initialized

  /** The `repr(u8)` discriminant of a state. */
  function Discriminant(s: State): (d: u8)
    ensures d < 2
    ensures StateOfByte(d) == Some(s)
  {
    match s
    case Uninitialized => 0
    case Initialized => 1
  }

  /** The state a raw byte names, if any: 0 and 1 do, no other byte does. */
  function StateOfByte(b: u8): (r: Option<State>)
    ensures r.Some? <==> b < 2
  {
    match b
    case 0 => Some(Uninitialized)
    case 1 => Some(Initialized)
    case _ => None
  }

  /** The raw byte of a state is that state's discriminant. */
  lemma StateOfByteInvertsDiscriminant(b: u8)
    requires b < 2
    ensures Discriminant(StateOfByte(b).value) == b
  {
  }

  /** `Display for State`: each state prints as its own name. */
  function DisplayState(s: State): (text: string)
    ensures text == "Uninitialized" <==> s == Uninitialized
    ensures text == "Initialized" <==> s == Initialized
  {
    match s
    case Uninitialized => "Uninitialized"
    case Initialized => "Initialized"
  }

  /** The two states print as their names, and differently. */
  lemma DisplayStateNames(s: State, t: State)
    ensures DisplayState(Uninitialized) == "Uninitialized"
    ensures DisplayState(Initialized) == "Initialized"
    ensures DisplayState(s) == DisplayState(t) ==> s == t
  {
  }

  /** A snapshot of the platform's status. */
  datatype Status = Status(build: Build, state: State, guests: u32, tcbVersion: u64)

  /** The system-wide SNP configuration. */
  datatype ExtConfig = ExtConfig(configAddress: u64, certsAddress: u64, certsLen: u32)

  /** `ExtConfig::default()`. */
  const DEFAULT_EXT_CONFIG: ExtConfig := ExtConfig(0, 0, 0)

  /** The derived `Ord::cmp` of `ExtConfig`: field by field in declaration order. */
  function CompareExtConfigs(a: ExtConfig, b: ExtConfig): (o: Ordering)
    ensures o == Equal <==> a == b
    ensures o == Less <==> (|| a.configAddress < b.configAddress
                            || (a.configAddress == b.configAddress && a.certsAddress < b.certsAddress)
                            || (a.configAddress == b.configAddress && a.certsAddress == b.certsAddress
                                && a.certsLen < b.certsLen))
  {
    CompareInts(a.configAddress, b.configAddress)
      .Then(CompareInts(a.certsAddress, b.certsAddress))
      .Then(CompareInts(a.certsLen, b.certsLen))
  }

  /** The three fields read as one 160-bit number, first field most significant. */
  function ExtConfigKey(c: ExtConfig): nat {
    (c.configAddress * 0x1_0000_0000_0000_0000 + c.certsAddress) * 0x1_0000_0000 + c.certsLen
  }

  /** Configurations are ordered exactly as their numeric keys. */
  lemma ExtConfigOrderIsNumeric(a: ExtConfig, b: ExtConfig)
    ensures CompareExtConfigs(a, b) == CompareInts(ExtConfigKey(a), ExtConfigKey(b))
  {
    LexicographicIsPositional(a.configAddress, a.certsAddress, b.configAddress, b.certsAddress,
                              0x1_0000_0000_0000_0000);
    LexicographicIsPositional(a.configAddress * 0x1_0000_0000_0000_0000 + a.certsAddress, a.certsLen,
                              b.configAddress * 0x1_0000_0000_0000_0000 + b.certsAddress, b.certsLen,
                              0x1_0000_0000);
  }

  /** The default configuration is the least one. */
  lemma DefaultExtConfigIsLeast(c: ExtConfig)
    ensures CompareExtConfigs(DEFAULT_EXT_CONFIG, c) != Greater
  {
    ExtConfigOrderIsNumeric(DEFAULT_EXT_CONFIG, c);
  }

  /** What a configuration asks of the reported TCB. */
  datatype TcbRequest = KeepReportedTcb | UpdateReportedTcb(configAddress: u64)

  /** What a configuration asks of the certificate chain. */
  datatype CertsRequest = RemoveCertificates | InstallCertificates(certsAddress: u64, certsLen: u32)

  /**
    The meaning of a configuration: address 0 is a sentinel, not a null
    pointer. A zero config address leaves the reported TCB alone; a zero
    certificate address removes the previously installed chain.
   */
  function Interpret(c: ExtConfig): (r: (TcbRequest, CertsRequest))
    ensures r.0 == KeepReportedTcb <==> c.configAddress == 0
    ensures r.0.UpdateReportedTcb? ==> r.0.configAddress == c.configAddress
    ensures r.1 == RemoveCertificates <==> c.certsAddress == 0
    ensures r.1.InstallCertificates? ==> r.1 == InstallCertificates(c.certsAddress, c.certsLen)
  {
    var tcb := if c.configAddress == 0 then KeepReportedTcb else UpdateReportedTcb(c.configAddress);
    var certs := if c.certsAddress == 0 then RemoveCertificates else InstallCertificates(c.certsAddress, c.certsLen);
    (tcb, certs)
  }

  /**
    What the reading forgets: the certificate length matters only when a
    chain is installed, and the addresses always matter.
   */
  lemma InterpretDiscards(x: ExtConfig, y: ExtConfig)
    ensures Interpret(x) == Interpret(y)
            <==> (&& x.configAddress == y.configAddress
                  && x.certsAddress == y.certsAddress
                  && (x.certsAddress == 0 || x.certsLen == y.certsLen))
  {
  }

  /** The firmware error type; only the transport case appears in this model. */
  datatype Error = IoError(os: OsError)

  /** A failure the crate understood (`Known`) or one it has no mapping for (`Unknown`). */
  datatype Indeterminate<+E> = Known(error: E) | Unknown

  /** The conversion `?` applies to a transport error: a known I/O error carrying it. */
  function FromIoError(e: OsError): (r: Indeterminate<Error>)
    ensures r.Known? && r.error.IoError? && r.error.os == e
  {
    Known(IoError(e))
  }
}
