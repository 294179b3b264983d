/** Device address, register pointers and configuration-field constants of the ADS1115 header. */
module Ads1115Header {
  import opened CTypes

  /** 7-bit I2C address of the converter (ADDR pin tied to VDD). */
  const ADDRESS: u8 := 0x49

  /** Register pointer selecting the conversion result register. */
  const POINTER_CONVERSION: u8 := 0x0
  /** Register pointer selecting the configuration register. */
  const POINTER_CONFIG: u8 := 0x1

  /** The macros below are plain integer literals, so they take part in C `int` arithmetic. */
  const CONFIG_OS_SINGLE: CInt := 0x8000
  const CONFIG_MUX_OFFSET: nat := 12
  const CONFIG_MODE_CONTINUOUS: CInt := 0x0
  const CONFIG_MODE_SINGLE: CInt := 0x100
  const CONFIG_COMP_QUE_DISABLE: CInt := 0x3

  /** What the header's constants promise about themselves and the register layout. */
  lemma HeaderConstants()
    ensures ADDRESS < 0x80
    ensures POINTER_CONVERSION != POINTER_CONFIG
    ensures POINTER_CONVERSION < 4 && POINTER_CONFIG < 4
    ensures CONFIG_OS_SINGLE == 1 << 15
    ensures CONFIG_OS_SINGLE & (7 << CONFIG_MUX_OFFSET) == 0
    ensures CONFIG_MODE_CONTINUOUS == 0
    ensures CONFIG_MODE_SINGLE == 1 << 8
    ensures CONFIG_COMP_QUE_DISABLE & !0x3 == 0
    ensures CONFIG_COMP_QUE_DISABLE < 1 << 5
  {
  }
}
