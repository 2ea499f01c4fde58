# A Dafny model of the `snp` crate's core

The `snp` crate is the Rust interface to AMD SEV-SNP (Secure Encrypted
Virtualization with Secure Nested Paging) on Linux. It has two halves:

- management of the SEV-SNP platform through ioctls on `/dev/sev`;
- the launch of an SNP-encrypted guest through the KVM memory-encryption ioctl.

This project models the parts of the crate that are pure data and protocol:

- the version and build records, their derived ordering and their `Display`
  text (`Snp`);
- the platform `State`, `Status` and `ExtConfig` records (`Firmware`);
- the packed `PlatformStatus` and `Init` layouts as byte sequences
  (`FirmwareTypes`, `KvmTypes`, `LittleEndian`);
- the guest policy word built by `Policy::as_u64`, the policy and VMPL
  permission bit flags, and the page-type wire table (`Launch`);
- the command-id tables and shared request codes of both ioctl families
  (`FirmwareIoctl`, `LaunchIoctl`, `Ioctl`);
- what `platform_status`, `set_ext_config` and `get_ext_config` make of the
  kernel's answer (`FirmwareLinux`);
- the launcher typestate `New` → `Started` → `Finished`, with a log of the
  ioctls it issued and the whole launch as a caller drives it (`Launcher`).

Every ioctl is a parameter: an `Outcome` is either `Completed` with the
buffer the kernel filled in or `Failed` with an OS error. Each operation
returns the ioctl it issued (handle, request code, command) together with
its result: the platform operations record the `/dev/sev` handle, and the
launcher records the VM handle. The contracts can therefore speak about both what was sent and
what came back.

Integer fields are bounded subsets of `int` (`u8`, `u16`, `u32`, `u64`).
The policy word is a `bv64`. Byte layouts are little-endian, since SEV-SNP
hosts are x86-64. Decimal text is modelled in `Decimal`. Rust's derived
lexicographic order is modelled in `Cmp` as chained `Ordering`s.

## Model

| member | source | states |
|---|---|---|
| Snp.CompareVersions | src/lib.rs:38-47 | The derived order on `Version` is `Equal` exactly for equal records and `Less` exactly when the major number is smaller, or the majors tie and the minor number is smaller. |
| Snp.VersionOrderIsNumeric | src/lib.rs:40-47 | Comparing versions is the same as comparing the numbers `major * 256 + minor`. |
| Snp.VersionOrderIsTotal | src/lib.rs:40 | The version order is antisymmetric, total and transitive, and swapping the arguments reverses the result. |
| Snp.DefaultVersionIsLeast | src/lib.rs:40-47 | The default version 0.0 is at or below every version. |
| Snp.CompareBuilds | src/lib.rs:55-64 | The derived order on `Build` compares the versions first and the build ids second, and is `Equal` exactly for equal records. |
| Snp.BuildOrderIsNumeric | src/lib.rs:57-64 | Comparing builds is the same as comparing `version key * 2^32 + build`. |
| Snp.BuildOrderIsTotal | src/lib.rs:57 | The build order is antisymmetric, total and transitive, and swapping the arguments reverses the result. |
| Snp.DefaultBuildIsLeast | src/lib.rs:57-64 | The default build, version 0.0 with build 0, is at or below every build. |
| Decimal.Show | src/lib.rs:51 | The decimal text of a number is non-empty, all digits, and starts with `0` only for zero itself. |
| Decimal.ValueShow | src/lib.rs:51 | Reading back the decimal text of a number gives the number. |
| Decimal.ShowValue | src/lib.rs:51 | Every canonical digit string is the decimal text of its value. |
| Decimal.ShowInjective | src/lib.rs:51 | Different numbers have different decimal texts. |
| Snp.NumeralHasNoDot | src/lib.rs:51 | A decimal number's text contains no dot, so the dot in "major.minor" is unambiguous. |
| Snp.DisplayVersion | src/lib.rs:49-53 | `Display for Version` prints the major numeral, a dot and the minor numeral: cutting the text at its first dot gives the two numerals back. |
| Snp.ParseShown | src/lib.rs:51 | Parsing the decimal text of a number below a width's bound gives the number back. |
| Snp.ParseDisplayVersion | src/lib.rs:49-53 | A version's "major.minor" text parses back to the same version. |
| Snp.DisplayBuild | src/lib.rs:66-70 | `Display for Build` prints the version's text, a dot and the build numeral: cutting at the first dot gives the major numeral, then "minor.build". |
| Snp.DisplayVersionInjective | src/lib.rs:49-53 | Two versions with the same text are the same version. |
| Snp.ParseDisplayBuild | src/lib.rs:66-70 | A build's "major.minor.build" text parses back to the same build. |
| Snp.DisplayBuildInjective | src/lib.rs:66-70 | Two builds with the same text are the same build. |
| Firmware.Discriminant | src/firmware/mod.rs:15-28 | The `repr(u8)` discriminant of a state is 0 or 1, and that byte maps back to the state. |
| Firmware.StateOfByte | src/firmware/mod.rs:15-28 | A raw state byte names a state exactly when it is 0 or 1. |
| Firmware.StateOfByteInvertsDiscriminant | src/firmware/mod.rs:15-28 | For the bytes 0 and 1, the discriminant of the state they name is the byte itself. |
| Firmware.DisplayState | src/firmware/mod.rs:30-38 | A state prints "Uninitialized" exactly when it is `Uninitialized` and "Initialized" exactly when it is `Initialized`. |
| Firmware.DisplayStateNames | src/firmware/mod.rs:30-38 | The states display as "Uninitialized" and "Initialized", and different states have different texts. |
| Firmware.CompareExtConfigs | src/firmware/mod.rs:56-68 | The derived order on `ExtConfig` is `Equal` exactly for equal records, and `Less` exactly when the first differing field, in the order config address, certificate address, certificate length, is smaller. |
| Firmware.ExtConfigOrderIsNumeric | src/firmware/mod.rs:56-68 | The order is lexicographic on (config address, certificate address, certificate length): the same as comparing one positional number built from the three fields. |
| Firmware.DefaultExtConfigIsLeast | src/firmware/mod.rs:56-68 | The all-zero default is never above any configuration. |
| Firmware.Interpret | src/firmware/mod.rs:60-65 | A config address of 0 means the reported TCB is not updated, and a certificate address of 0 means the previous certificates are removed. Any other value is used as given. |
| Firmware.InterpretDiscards | src/firmware/mod.rs:60-65 | Two configurations mean the same exactly when their addresses agree and, unless the certificates are removed, their lengths agree too. |
| Firmware.FromIoError | src/firmware/linux/mod.rs:56-59 | A transport error becomes a `Known` I/O error that carries it, never `Unknown`. |
| FirmwareTypes.Encode | src/firmware/types.rs:5-25 | The packed 19-byte image stores version at offset 0, state at 2, build id at 3, guest count at 7 and TCB version at 11, with no padding. |
| FirmwareTypes.DecodeEncode | src/firmware/types.rs:5-25 | Decoding the image of a platform status gives that status back. |
| FirmwareTypes.EncodeDecode | src/firmware/types.rs:12-24 | Every 19-byte image, whatever its state byte, decodes and re-encodes to itself. |
| FirmwareTypes.DefaultIsAllZero | src/firmware/types.rs:8 | The default platform status has an all-zero image. |
| KvmTypes.DefaultInit | src/kvm/types.rs:10-14 | `Init::default()` has reserved flags 0, and its 8-byte image is all zero. |
| KvmTypes.Encode | src/kvm/types.rs:3-8 | The packed `Init` image is 8 bytes long. |
| KvmTypes.DecodeEncode | src/kvm/types.rs:3-8 | Decoding the image of an `Init` gives it back. |
| KvmTypes.EncodeDecode | src/kvm/types.rs:3-8 | Every 8-byte image decodes and re-encodes to itself. |
| KvmTypes.ZeroInitImage | src/kvm/types.rs:6 | The reserved flags are 0 exactly when the issued image is all zero bytes. |
| LittleEndian.DecodeEncode | src/firmware/types.rs:12-24 | Reading back the little-endian image of a field gives the field's value. |
| LittleEndian.EncodeDecode | src/firmware/types.rs:12-24 | Every byte string is the little-endian image of its value. |
| LittleEndian.ZeroImage | src/firmware/types.rs:8 | A field is zero exactly when its image is all zero bytes. |
| Launch.FlagBit | src/launch/mod.rs:15-27 | Each policy flag is a single bit, and none of them is the reserved bit 1. |
| Launch.FlagBitsDisjoint | src/launch/mod.rs:15-27 | Different policy flags are different, non-overlapping bits. |
| Launch.DefaultPolicyFlagsEmpty | src/launch/mod.rs:16-18 | The default flag set holds no flag. |
| Launch.UnpackPack | src/launch/mod.rs:55-63 | Packing puts minor in bits 0-7 and major in bits 8-15. The flags are ORed with the reserved bit before the shift and then cut to their low byte. |
| Launch.PackUnpack | src/launch/mod.rs:55-63 | Every word below 2^24 with bit 17 set is the packing of its own three bytes. |
| Launch.AsU64 | src/launch/mod.rs:41-66 | The low byte of the policy word is `minfw.minor` and bits 8-15 are `minfw.major`. Bits 16-23 are the low byte of the flags with bit 1 ORed in. Bit 17 is always set, and the word is below 2^24. |
| Launch.UnpackAsU64 | src/launch/mod.rs:41-66 | Unpacking the policy word recovers the minimum firmware version and the wire flags. |
| Launch.AsU64Unpack | src/launch/mod.rs:41-66 | Every 24-bit word with bit 17 set is the policy word of the policy it unpacks to. |
| Launch.AsU64Injective | src/launch/mod.rs:41-66 | Two policies give the same word exactly when their versions and wire flags agree; flag bits 8-15 are discarded. |
| Launch.DefaultPolicyWord | src/launch/mod.rs:41-66 | The default policy packs to `0x020000`: only the reserved bit is set, at bit 17 of the word. |
| Launch.MaskIdempotent | src/launch/mod.rs:63 | Applying the `0x00FFFFFF` mask again leaves the policy word unchanged. |
| Launch.PageTypeValue | src/launch/mod.rs:148-160 | Each page type's wire value lies in 1..6 and maps back to the page type. |
| Launch.PageTypeOfValue | src/launch/mod.rs:148-160 | A byte names a page type exactly when it lies in 1..6. |
| Launch.PageTypeValueBijective | src/launch/mod.rs:148-160 | The table is injective, onto 1..6, and never yields 0. |
| Launch.PermBit | src/launch/mod.rs:107-123 | Each VMPL permission is a single bit in the low nibble. |
| Launch.PermBitsDistinct | src/launch/mod.rs:107-123 | The four permissions are distinct, non-overlapping bits that together fill the low nibble. |
| Launch.DefaultVmplPermsEmpty | src/launch/mod.rs:107-110 | The default permission mask holds no permission. |
| FirmwareIoctl.Id | src/firmware/linux/ioctl.rs:14-19 | Platform status, set ext config and get ext config have ids 256, 257 and 258, and each id maps back to its payload kind. |
| FirmwareIoctl.KindOfId | src/firmware/linux/ioctl.rs:14-19 | An id names a platform command exactly when it lies in 256..258. |
| FirmwareIoctl.IdsIdentifyKinds | src/firmware/linux/ioctl.rs:14-19 | The three ids are pairwise distinct, so an id identifies its payload type. |
| FirmwareIoctl.RequestFor | src/firmware/linux/ioctl.rs:22-32 | All three commands use one request code: group `'S'`, number 0, write-read. |
| FirmwareIoctl.CommandFor | src/firmware/linux/ioctl.rs:14-32 | The command carries its payload unchanged, and its id names the payload's kind. |
| FirmwareIoctl.IntentDoesNotChangeId | src/firmware/linux/ioctl.rs:14-19 | Passing the payload shared or mutable does not change the command id. |
| FirmwareIoctl.OnlyIdDiscriminates | src/firmware/linux/ioctl.rs:25-32 | Any two operations share the request code, and their ids differ exactly when their kinds do. |
| LaunchIoctl.Id | src/launch/linux/ioctl.rs:11-17 | Init, start, update and finish have ids 256..259, and each id maps back to its payload kind. |
| LaunchIoctl.KindOfId | src/launch/linux/ioctl.rs:11-17 | An id names a launch command exactly when it lies in 256..259. |
| LaunchIoctl.IdsFollowProtocol | src/launch/linux/ioctl.rs:13-16 | The four ids are pairwise distinct and increase in protocol order. |
| LaunchIoctl.RequestFor | src/launch/linux/ioctl.rs:32-41 | All four launch commands use the one encrypt-op request: KVM group 0xAE, number 0xBA, write-read. |
| LaunchIoctl.CommandFor | src/launch/linux/ioctl.rs:32-41 | The command carries its payload and the `sev` handle, and its id names the payload's kind. |
| LaunchIoctl.OnlyIdDiscriminates | src/launch/linux/ioctl.rs:32-41 | Any two launch commands share the request, and their ids differ exactly when their kinds do. |
| FirmwareLinux.PlatformStatusOp | src/firmware/linux/mod.rs:25-46 | Sends a zeroed status buffer with id 256 on the given `/dev/sev` handle and propagates an ioctl failure. A raw state of 0 or 1 gives a `Status` whose fields are copied unchanged; any other state byte gives `Unknown`. |
| FirmwareLinux.PlatformStatusOfRaw | src/firmware/linux/mod.rs:30-45 | Every `Status` is what `platform_status` returns when the kernel reports that status's raw image. |
| FirmwareLinux.SetExtConfigOp | src/firmware/linux/mod.rs:48-60 | Sends the three values with id 257 on the given `/dev/sev` handle. Returns `Ok` exactly when the ioctl completes, and wraps a failure as `Known(IoError(e))`. |
| FirmwareLinux.SetExtConfigSentinels | src/firmware/linux/mod.rs:48-60 | `set_ext_config` sends zero addresses unchanged, so its configuration keeps the reported TCB exactly when the config address is 0, and removes the certificates exactly when the certificate address is 0. It succeeds whenever the kernel completes. |
| FirmwareLinux.GetExtConfigOp | src/firmware/linux/mod.rs:62-72 | Sends a zeroed buffer with id 258 on the given `/dev/sev` handle. Returns the three fields the kernel filled in unchanged, or propagates the failure. |
| FirmwareLinux.ExtConfigOf | src/firmware/linux/mod.rs:67-71 | The reported configuration copies the raw payload losslessly: its three fields rebuild the payload. |
| FirmwareLinux.SetThenGetAgree | src/firmware/linux/mod.rs:48-72 | A composition of the two field-copying contracts: when the kernel answers `get_ext_config` with the values `set_ext_config` sent, the reported configuration is the one set. |
| FirmwareLinux.OperationsDifferOnlyById | src/firmware/linux/mod.rs:25-72 | The three operations issue the same request code on the same handle, with pairwise different ids. |
| Launcher.NewLauncher | src/launch/launcher.rs:19-35 | `new` issues one SNP_INIT (id 256) with the zero `Init`. The command is built with the `sev` handle and issued on the `kvm` handle. A failure yields no launcher; success yields a `New` launcher holding exactly the two handles. |
| Launcher.NewOnlyFromNewLauncher | src/launch/launcher.rs:10-17 | Every valid `New` launcher is the one `new` returns for its handles. |
| Launcher.StartLaunch | tests/launch.rs:59 | Start issues id 257 on the VM handle, and on success turns a `New` launcher into a `Started` one with that command logged. |
| Launcher.UpdateData | tests/launch.rs:69-71 | An update issues id 258 and logs it. The launcher stays `Started` whatever the outcome. |
| Launcher.FinishLaunch | tests/launch.rs:83 | Finish issues id 259, and on success turns a `Started` launcher into a `Finished` one. |
| Launcher.Ids | src/launch/linux/ioctl.rs:11-17 | The id trace of a log has one id per issued command, in order. |
| Launcher.RunStarted | tests/launch.rs:41-71 | The protocol automaton reaches the started phase exactly on the traces 256, 257, 258…, and the new phase exactly on 256. |
| Launcher.RunFinished | tests/launch.rs:41-83 | The automaton reaches the finished phase exactly on the traces 256, 257, 258…, 259. |
| Launcher.StartedLogIds | tests/launch.rs:41-71 | A started launcher's log has the trace 256, 257, 258…. |
| Launcher.FinishedTrace | tests/launch.rs:41-83 | A finished launcher's log is a complete protocol trace. |
| Launcher.ValidLaunchersRun | src/launch/launcher.rs:19-35 | The log of every valid `New`, `Started` or `Finished` launcher is accepted by the automaton in the matching phase. |
| Launcher.FinishedIdsAscend | src/launch/linux/ioctl.rs:13-16 | The ids of a finished launch never decrease along its log. |
| Launcher.UpdateAll | tests/launch.rs:69-71 | Updating a started launcher with every page, each update completing, keeps it `Started` on the same handles and appends one update per page to its log. |
| Launcher.StartedOnlyFromTransitions | tests/launch.rs:59-71 | Every valid `Started` launcher is the one built by `new`, then `start` with the start record it logged, then one `update_data` per page it logged. |
| Launcher.UpdatesFor | tests/launch.rs:61-71 | The update commands for a list of pages are one per page, in order. |
| Launcher.AddPages | tests/launch.rs:61-71 | Updating page by page succeeds exactly when every answer completes, and otherwise reports the first failure. The launcher stays `Started` on the same handles. Its log gains one update per page on success, and on failure one per page up to and including the failed one. |
| Launcher.LaunchGuest | tests/launch.rs:41-83 | The whole launch succeeds exactly when every ioctl completes, and otherwise returns the first failure. On success the launcher is `Finished` on the given handles, its log is init, start, one update per page and finish, and its ids form a complete protocol trace. |

## Left out

- `Firmware::open` and `AsRawFd` (src/firmware/linux/mod.rs:19-23, 75-79) open and expose a device file. Handles are opaque `Handle` tokens.
- The ioctl call itself, through the `iocuddle` and `sev_iocuddle` libraries, and how request numbers are encoded. The kernel's answer is a parameter, and a request is the triple (direction, group, number). Of the command record that `Command::from`/`from_mut` build, the model keeps the id, the payload, and the borrow intent or `sev` handle. It drops the data pointer and the error field the kernel writes back.
- `TypeLoad`/`TypeSave` (src/util/mod.rs) and the `codicon` encoder and decoder of `Build` (src/lib.rs:72-86). They copy raw memory, and `Build` is `repr(C)` with padding whose bytes are unspecified.
- The serde `Serialize`/`Deserialize` derives, which are external library behaviour.
- StartLaunch, UpdateData and FinishLaunch: the bodies of `start`, `update_data` and `finish` are not part of this model. They are abstract steps that issue ids 257, 258 and 259 in the order the launch test uses them. The payload records `Start`, `Update` and `Finish` are carried as given; their C layouts are not modelled.
- FirmwareLinux.PlatformStatusOp, FirmwareLinux.GetExtConfigOp: the `?` operator converts an I/O error through a `From` implementation that is not part of this model. It is modelled as `Known(IoError(e))`, the same wrapping `set_ext_config` writes out. The firmware error-code translation table is not modelled.
- The byte layouts of `SetExtConfig` and `GetExtConfig` are not part of this model. They are three-field records.
- FirmwareLinux.SetExtConfigOp, FirmwareLinux.GetExtConfigOp: `SetExtConfig::new` (src/firmware/linux/mod.rs:55) and `GetExtConfig::default()` (mod.rs:64) are defined in a file that is not part of this model. They are taken to be the field-wise constructor and the all-zero value. The claims that zero addresses are sent unchanged and that the get buffer starts zeroed rest on this.
- `KVM_SEV_SNP_FINISH_DATA_SIZE` is defined in a file that is not part of this model. It is fixed at 32, because tests/launch.rs:73-80 passes a `[u8; 32]` as `host_data`.
- Launcher.LaunchGuest: the launch test adds one page. The model accepts any number of pages, including none, because nothing in the launcher code requires an update before `finish`.
- Concurrency and device ownership: the Rust borrows (`&mut`) that keep the handles exclusive are not modelled.
