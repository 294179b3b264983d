/** The C integer types the driver uses, and the conversions C applies to them. */
module CTypes {

  /** `u8` of the Xilinx headers. */
  type u8 = bv8

  /** `u16` of the Xilinx headers. */
  type u16 = bv16

  /** A C `int` holding a promoted, non-negative intermediate value (32 bits wide). */
  type CInt = bv32

  /** Assigning an `int` to a `u16` keeps the low 16 bits (C's unsigned conversion). */
  function NarrowToU16(v: CInt): (r: u16)
    ensures v < 0x1_0000 ==> r as CInt == v
  {
    (v & 0xFFFF) as u16
  }

  /** Assigning a `u16` value to a `u8` keeps the low 8 bits. */
  function NarrowToU8(v: u16): (r: u8)
    ensures v < 0x100 ==> r as u16 == v
  {
    (v & 0xFF) as u8
  }
}
