/**
  The platform operations of `Firmware`: each builds its payload, issues it
  on the SEV handle, and maps the kernel's answer to the crate's result.
 */
module FirmwareLinux {
  import opened Ints
  import opened Wrappers
  import opened Ioctl
  import opened Snp
  import opened Firmware
  import opened FirmwareTypes
  import opened FirmwareIoctl

  /** An ioctl as issued: the `/dev/sev` handle it went to, the request code and the command. */
  datatype Issued = Issued(fd: Handle, request: Request, command: Command)

  /** The issued ioctl and the operation's result. */
  datatype Call<+T> = Call(issued: Issued, result: Result<T, Indeterminate<Error>>)

  /** The raw record a status was read from: its state written back as its discriminant. */
  function RawOf(s: Status): PlatformStatus {
    PlatformStatus(s.build.version, Discriminant(s.state), s.build.build, s.guests, s.tcbVersion)
  }

  /**
    `platform_status`: issue PLATFORM_STATUS on a zeroed payload; a transport
    failure is propagated, a state byte other than 0 or 1 is `Unknown`, and
    otherwise every field is copied.
   */
  function PlatformStatusOp(fw: Handle, kernel: Outcome<PlatformStatus>): (c: Call<Status>)
    ensures c.issued.fd == fw
    ensures c.issued.request == SEV_ISSUE_CMD
    ensures c.issued.command.id == 256 && c.issued.command.intent == Mutable
    ensures c.issued.command.payload == PlatformStatusPayload(DEFAULT_PLATFORM_STATUS)
    ensures kernel.Failed? ==> c.result == Err(FromIoError(kernel.error))
    ensures kernel.Completed? ==> (c.result.Ok? <==> kernel.buffer.state < 2)
    ensures kernel.Completed? && kernel.buffer.state >= 2 ==> c.result == Err(Unknown)
    ensures c.result.Ok? ==> kernel.Completed? && RawOf(c.result.value) == kernel.buffer
  {
    var info := DEFAULT_PLATFORM_STATUS;
    var command := CommandFor(PlatformStatusPayload(info), Mutable);
    var issued := Issued(fw, RequestFor(PlatformStatusKind), command);
    match kernel
    case Failed(e) => Call(issued, Err(FromIoError(e)))
    case Completed(info) =>
      match StateOfByte(info.state)
      case None => Call(issued, Err(Unknown))
      case Some(state) =>
        var build := Build(Version(info.version.major, info.version.minor), info.buildId);
        Call(issued, Ok(Status(build, state, info.guestCount, info.tcbVersion)))
  }

  /** Every status is reported exactly when the kernel fills in its raw record. */
  lemma PlatformStatusOfRaw(fw: Handle, s: Status)
    ensures PlatformStatusOp(fw, Completed(RawOf(s))).result == Ok(s)
  {
  }

  /**
    `set_ext_config`: issue SNP_SET_EXT_CONFIG with the three values as given
    (zero addresses included: they are sentinels); success is `Ok(())`, a
    failure is `Known(IoError(e))`.
   */
  function SetExtConfigOp(fw: Handle, configAddress: u64, certsAddress: u64, certsLen: u32, kernel: Outcome<()>)
    : (c: Call<()>)
    ensures c.issued.fd == fw
    ensures c.issued.request == SEV_ISSUE_CMD
    ensures c.issued.command.id == 257 && c.issued.command.intent == Shared
    ensures c.issued.command.payload == SetExtConfigPayload(SetExtConfig(configAddress, certsAddress, certsLen))
    ensures c.result.Ok? <==> kernel.Completed?
    ensures kernel.Failed? ==> c.result == Err(Known(IoError(kernel.error)))
  {
    var info := SetExtConfig(configAddress, certsAddress, certsLen);
    var issued := Issued(fw, RequestFor(SetExtConfigKind), CommandFor(SetExtConfigPayload(info), Shared));
    match kernel
    case Completed(_) => Call(issued, Ok(()))
    case Failed(e) => Call(issued, Err(Known(IoError(e))))
  }

  /** The configuration `get_ext_config` reports for a raw payload: nothing is lost. */
  function ExtConfigOf(g: GetExtConfig): (c: ExtConfig)
    ensures GetExtConfig(c.configAddress, c.certsAddress, c.certsLen) == g
  {
    ExtConfig(g.configAddress, g.certsAddress, g.certsLen)
  }

  /**
    `get_ext_config`: issue SNP_GET_EXT_CONFIG on a zeroed payload and report
    the three fields unchanged, or propagate the transport error.
   */
  function GetExtConfigOp(fw: Handle, kernel: Outcome<GetExtConfig>): (c: Call<ExtConfig>)
    ensures c.issued.fd == fw
    ensures c.issued.request == SEV_ISSUE_CMD
    ensures c.issued.command.id == 258 && c.issued.command.intent == Mutable
    ensures c.issued.command.payload == GetExtConfigPayload(DEFAULT_GET_EXT_CONFIG)
    ensures c.result.Ok? <==> kernel.Completed?
    ensures kernel.Failed? ==> c.result == Err(FromIoError(kernel.error))
    ensures kernel.Completed? ==> (c.result.value.configAddress == kernel.buffer.configAddress
                                   && c.result.value.certsAddress == kernel.buffer.certsAddress
                                   && c.result.value.certsLen == kernel.buffer.certsLen)
  {
    var info := DEFAULT_GET_EXT_CONFIG;
    var issued := Issued(fw, RequestFor(GetExtConfigKind), CommandFor(GetExtConfigPayload(info), Mutable));
    match kernel
    case Failed(e) => Call(issued, Err(FromIoError(e)))
    case Completed(info) => Call(issued, Ok(ExtConfigOf(info)))
  }

  /**
    The values `set_ext_config` sends are the values `get_ext_config` reports
    when the kernel answers with them: the two payloads carry the same fields.
   */
  lemma SetThenGetAgree(fw: Handle, configAddress: u64, certsAddress: u64, certsLen: u32)
    ensures var sent := SetExtConfigOp(fw, configAddress, certsAddress, certsLen, Completed(())).issued.command.payload.config;
            GetExtConfigOp(fw, Completed(GetExtConfig(sent.configAddress, sent.certsAddress, sent.certsLen))).result
              == Ok(ExtConfig(configAddress, certsAddress, certsLen))
  {
  }

  /**
    `set_ext_config` passes zero addresses through as the sentinels they are:
    the configuration it sends keeps the reported TCB exactly when the config
    address is 0 and removes the certificates exactly when the certificate
    address is 0, and it succeeds whenever the kernel completes.
   */
  lemma SetExtConfigSentinels(fw: Handle, configAddress: u64, certsAddress: u64, certsLen: u32, kernel: Outcome<()>)
    ensures var c := SetExtConfigOp(fw, configAddress, certsAddress, certsLen, kernel);
            var sent := c.issued.command.payload.config;
            var meaning := Interpret(ExtConfig(sent.configAddress, sent.certsAddress, sent.certsLen));
            && (meaning.0 == KeepReportedTcb <==> configAddress == 0)
            && (meaning.1 == RemoveCertificates <==> certsAddress == 0)
            && (meaning.1.InstallCertificates? ==> meaning.1.certsLen == certsLen)
            && (kernel.Completed? ==> c.result == Ok(()))
  {
  }

  /** The three platform operations issue three different ids on one request code and one handle. */
  lemma OperationsDifferOnlyById(fw: Handle, k1: Outcome<PlatformStatus>, k2: Outcome<()>, k3: Outcome<GetExtConfig>,
                                 configAddress: u64, certsAddress: u64, certsLen: u32)
    ensures var a := PlatformStatusOp(fw, k1).issued;
            var b := SetExtConfigOp(fw, configAddress, certsAddress, certsLen, k2).issued;
            var c := GetExtConfigOp(fw, k3).issued;
            a.fd == b.fd == c.fd == fw && a.request == b.request == c.request
            && a.command.id != b.command.id && b.command.id != c.command.id && a.command.id != c.command.id
  {
  }
}
