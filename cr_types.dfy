/** Scalar types of the Camera Remote SDK interface, with their C widths
    written out, and the opaque pointers the helper only compares with NULL. */
module CrTypes {

  /** CrInt32u: unsigned 32-bit. */
  type U32 = x: int | 0 <= x < 0x1_0000_0000

  /** CrInt8u: one byte. */
  type Byte = x: int | 0 <= x < 0x100

  /** CrError: signed 32-bit. */
  type CrError = x: int | -0x8000_0000 <= x < 0x8000_0000

  /** A pointer the helper never dereferences (a device handle, a module
      handle, a procedure address): only its being NULL matters. */
  type Address = nat

  const NULL: Address := 0

  /** CrError_Generic, returned whenever the helper itself declines to go on. */
  const CrErrorGeneric: CrError := 0x8001
}
