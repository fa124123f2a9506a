/** Fixed-width integers, the status type and an optional value, shared by every module. */
module BasicTypes {

  const UINT32_LIMIT: int := 0x1_0000_0000
  const UINT64_LIMIT: int := 0x1_0000_0000_0000_0000

  type uint8 = x: int | 0 <= x < 0x100
  type uint32 = x: int | 0 <= x < 0x1_0000_0000
  type uint64 = x: int | 0 <= x < 0x1_0000_0000_0000_0000

  /** A 32-bit hash (MurmurHash3 in the pipeline; the hash function itself is not modelled). */
  type Hash32 = uint32

  /** The index value that means "no texture". */
  const InvalidIndex32: nat := 0xFFFF_FFFF

  /** uint32 addition as the compiled code performs it: modulo 2^32. */
  function AddU32(a: uint32, b: uint32): (r: uint32)
    ensures a + b < UINT32_LIMIT ==> r == a + b
    ensures a + b >= UINT32_LIMIT ==> r == a + b - UINT32_LIMIT
  {
    (a + b) % UINT32_LIMIT
  }

  datatype Option<T> = None | Some(value: T)

  /** The status value returned by the build functions: Success_ or Error_(message). */
  datatype Error = Success | Failure(message: string)
}
