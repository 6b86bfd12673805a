/** Machine integers, GUIDs and status codes of the UEFI firmware interface,
    as far as the variable services use them. */
module Efi {

  newtype u8 = x: int | 0 <= x < 0x100
  newtype u16 = x: int | 0 <= x < 0x1_0000
  newtype u32 = x: int | 0 <= x < 0x1_0000_0000
  newtype u64 = x: int | 0 <= x < 0x1_0000_0000_0000_0000

  /** The native word of the firmware; the model takes a 64-bit target. */
  type usize = u64

  /** A 128-bit globally unique identifier, kept as its 16 bytes. */
  type Guid = b: seq<u8> | |b| == 16
    witness [0, 0, 0, 0, 0, 0, 0, 0, 0, 0, 0, 0, 0, 0, 0, 0]

  const ZERO_GUID: Guid := [0, 0, 0, 0, 0, 0, 0, 0, 0, 0, 0, 0, 0, 0, 0, 0]

  /** EFI_STATUS: a native word whose top bit marks an error code. */
  datatype Status = Status(value: usize)

  const ERROR_BIT: usize := 0x8000_0000_0000_0000
  const INVALID_PARAMETER: Status := Status(ERROR_BIT + 2)
  const NOT_FOUND: Status := Status(ERROR_BIT + 14)

  /** The `Result<T, efi::Status>` of the firmware bindings. */
  datatype Result<+T> = Ok(value: T) | Err(status: Status)
}

module Wrappers {

  datatype Option<+T> = None | Some(value: T)
}
