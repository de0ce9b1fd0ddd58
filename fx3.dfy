/** Integer widths, status codes and records of the Cypress FX3 SDK as the
    vendor-command code in rdwr.c sees them. The SDK calls themselves are not
    modelled: each call's result is an input of the operation that makes it. */
module Fx3 {

  type byte = x: int | 0 <= x < 0x100
  type u16 = x: int | 0 <= x < 0x1_0000
  type u32 = x: int | 0 <= x < 0x1_0000_0000

  /** CyU3PReturnStatus_t: zero is CY_U3P_SUCCESS, anything else an error. */
  type Status = u32

  /** A status an SDK call or callback reports when it fails. */
  type ErrorStatus = s: Status | s != 0 witness 1

  const Success: Status := 0

  /** CY_U3P_ERROR_BAD_ARGUMENT; the callers only test it against zero. */
  const BadArgument: ErrorStatus := 0x40

  /** CyBool_t */
  const CyTrue: u32 := 1
  const CyFalse: u32 := 0

  datatype Option<T> = None | Some(value: T)

  /** The value a 32-bit status keeps once it is stored in a uint16_t. */
  function ToU16(x: u32): (r: u16)
    ensures x < 0x1_0000 ==> r == x
    ensures r <= x && (x - r) % 0x1_0000 == 0
  {
    x % 0x1_0000
  }

  /** CyU3PI2cPreamble_t: the first `length` bytes of its buffer, here the
      sequence `bytes`, and the control mask that says after which of them a
      repeated start is sent. */
  datatype Preamble = Preamble(bytes: seq<byte>, ctrlMask: u16)
}
