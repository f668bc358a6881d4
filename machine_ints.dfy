/** The fixed-width integer types of the source, as bounded integers. */
module MachineInts {
  /** A `u8`. */
  type Byte = x: int | 0 <= x < 256

  const TWO_TO_63: int := 0x8000_0000_0000_0000
  const TWO_TO_64: int := 0x1_0000_0000_0000_0000

  /** An `i64`. */
  type I64 = x: int | -TWO_TO_63 <= x < TWO_TO_63
  /** A `u32`. */
  type U32 = x: int | 0 <= x < 0x1_0000_0000
}
