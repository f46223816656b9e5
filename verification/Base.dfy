/**
 * Common vocabulary of the model: bytes, 32-bit words, the library's return
 * codes, its size constants and the public life-cycle states.
 */
module Base {

  type byte = x: int | 0 <= x < 256
  type bytes = seq<byte>

  const U32: int := 0x1_0000_0000
  type u32 = x: int | 0 <= x < 0x1_0000_0000
  type u16 = x: int | 0 <= x < 0x1_0000

  datatype Option<+T> = None | Some(value: T)

  /** Return codes, include/sodchan.h. */
  datatype Rc =
    | Ok | ErrParam | ErrState | ErrNoMem | ErrCrypto | ErrProtocol
    | ErrWindow | ErrFull | ErrNotFound | ErrRejected

  /** Public states in the order of the life cycle, ERROR and CLOSED last. */
  datatype State = Hello | SsHeader | Auth | Ready | Draining | Error | Closed

  datatype Role = Server | Client

  const MAX_CHANNELS: nat := 16
  const CHANNEL_NAME_MAX: nat := 63
  const DATA_MAX: nat := 65536
  const USER_MAX: nat := 128
  const DEVICE_ID_MAX: nat := 128
  const CLAIMS_MAX: nat := 1024
  const MAX_CLEAR_FRAME: nat := 512
  const SS_ABYTES: nat := 17
  const SS_HEADER_BYTES: nat := 24
  const OUT_BUF_SIZE: nat := 131072
  const IN_BUF_SIZE: nat := 131072

  const REASON_ADMIN_PROHIBITED: u32 := 1
  const REASON_RESOURCE_SHORTAGE: u32 := 4

  /** uint32_t addition as the C code performs it: modulo 2^32, unchecked. */
  function Add32(a: u32, b: u32): u32 {
    (a + b) % U32
  }

  function Min(a: nat, b: nat): nat {
    if a <= b then a else b
  }

  /** A buffer after memset to zero. */
  function Zeros(n: nat): (r: bytes)
    ensures |r| == n && forall i :: 0 <= i < n ==> r[i] == 0
  {
    if n == 0 then [] else [0] + Zeros(n - 1)
  }

  /** The C string held in a byte buffer: everything before the first NUL. */
  function CString(s: bytes): (r: bytes)
    ensures 0 !in r && |r| <= |s|
    ensures 0 !in s ==> r == s
  {
    if s == [] || s[0] == 0 then [] else [s[0]] + CString(s[1..])
  }
}
