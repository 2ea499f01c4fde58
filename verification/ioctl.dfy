/**
  The ioctl transport, abstracted. The kernel call itself is not modelled: an
  operation receives the call's `Outcome` as a parameter (an oracle) and
  reports the request it issued, so that both the issued command and the
  handling of every possible answer can be stated.
 */
module Ioctl {
  import opened Ints

  /** Data direction of an ioctl request. */
  datatype Direction = Read | Write | WriteRead

  /** The parts of an ioctl request code: direction, group letter and number. */
  datatype Request = Request(direction: Direction, group: u8, nr: u8)

  /** An open device file, as an opaque token. */
  datatype Handle = Handle(fd: int)

  /** `std::io::Error`, reduced to its OS error number. */
  datatype OsError = OsError(errno: int)

  /** What the kernel did with the call: completed, leaving `buffer` in the payload, or failed. */
  datatype Outcome<+T> = Completed(buffer: T) | Failed(error: OsError)

  /**
    How a `Command` borrows its payload: `Command::from` shares it (the kernel
    is not expected to write back), `Command::from_mut` lends it mutably.
   */
  datatype Intent = Shared | Mutable
}
