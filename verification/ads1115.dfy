/**
 * The ADS1115 register codec: the lookup tables, the configuration word
 * packed and written by `ADS1115_Config`, and the conversion result read
 * back by `ADS1115_Read`, each with the bus transfers it performs.
 */
module Ads1115 {
  import opened CTypes
  import opened Ads1115Header
  import opened I2cBus
  import opened ConfigWord

  /** PGA register fragments for full scales 6.144, 4.096, 2.048, 1.024, 0.512 and 0.256 V. */
  const ConfigGain: seq<u16> := [0x0, 0x200, 0x400, 0x600, 0x800, 0xA00]

  /** DR register fragments for 8, 16, 32, 64, 128, 250, 475 and 860 samples per second. */
  const ConfigDr: seq<u8> := [0x0, 0x20, 0x40, 0x60, 0x80, 0xA0, 0xC0, 0xE0]

  /** The table indices `ADS1115_Config` can use without reading past either table. */
  predicate ValidSettings(gain: u8, dataRate: u8)
  {
    gain < 6 && dataRate < 8
  }

  /**
   * The configuration word of `ADS1115_Config`. Each `|=` is evaluated at
   * C `int` width and narrowed back into the `u16` variable.
   */
  function EncodeConfig(channel: u8, gain: u8, dataRate: u8): (config: u16)
    requires ValidSettings(gain, dataRate)
    ensures config & OS_MASK == OS_MASK
    ensures (config & MUX_MASK) >> MUX_SHIFT == (channel & 7) as u16
    ensures (config & PGA_MASK) >> PGA_SHIFT == gain as u16
    ensures config & MODE_MASK == 0
    ensures (config & DR_MASK) >> DR_SHIFT == dataRate as u16
    ensures config & COMP_MASK == 0x03
  {
    var c0 := NarrowToU16(CONFIG_OS_SINGLE);
    var c1 := NarrowToU16(c0 as CInt | (((channel & 0x07) as CInt) << CONFIG_MUX_OFFSET));
    var c2 := NarrowToU16(c1 as CInt | ConfigGain[gain as int] as CInt);
    var c3 := NarrowToU16(c2 as CInt | CONFIG_MODE_CONTINUOUS);
    var c4 := NarrowToU16(c3 as CInt | ConfigDr[dataRate as int] as CInt);
    NarrowToU16(c4 as CInt | CONFIG_COMP_QUE_DISABLE)
  }

  /** The two bytes `{config >> 8, config & 0xFF}` of the local `data` array. */
  function SplitWord(w: u16): (data: seq<u8>)
    ensures |data| == 2
    ensures JoinBytes(data[0], data[1]) == w
  {
    [NarrowToU8(w >> 8), NarrowToU8(w)]
  }

  /** A big-endian byte pair read as one 16-bit value. */
  function JoinBytes(msb: u8, lsb: u8): (w: u16)
  {
    ((msb as u16) << 8) | lsb as u16
  }

  /**
   * `ADS1115_Config`: pack the word, then pass `data[1]` as `data_msb` and
   * `data[0]` as `data_lsb` to `I2CByteWrites`.
   */
  function Config(channel: u8, gain: u8, dataRate: u8): (t: Trace)
    requires ValidSettings(gain, dataRate)
    ensures |t| == 1 && t[0].MasterSend? && t[0].addr == ADDRESS
    ensures |t[0].bytes| == 3 && t[0].bytes[0] == POINTER_CONFIG
    ensures JoinBytes(t[0].bytes[1], t[0].bytes[2]) == EncodeConfig(channel, gain, dataRate)
  {
    var config := EncodeConfig(channel, gain, dataRate);
    var data := SplitWord(config);
    ByteWrites(ADDRESS, POINTER_CONFIG, data[1], data[0])
  }

  /** What `ADS1115_Read` does: the transfers it performs and the raw result it computes. */
  datatype Conversion = Conversion(trace: Trace, raw: u16)

  /**
   * `ADS1115_Read`: point at the conversion register, read two bytes and
   * rebuild `data[0]*256 + data[1]` (C `int` arithmetic, narrowed to `u16`).
   * `answer0` and `answer1` are the bytes the device returns, in bus order.
   */
  function Read(answer0: u8, answer1: u8): (c: Conversion)
    ensures c.trace == [MasterSend(ADDRESS, [POINTER_CONVERSION]), MasterRecv(ADDRESS, 2)]
    ensures c.raw >> 8 == answer0 as u16 && c.raw & 0xFF == answer1 as u16
  {
    var pointed := ByteWrite(ADDRESS, POINTER_CONVERSION);
    var received := ReadBytes(ADDRESS, answer0, answer1);
    var data := received.data;
    var raw := NarrowToU16((data[0] as CInt) * 256 + data[1] as CInt);
    Conversion(pointed + received.trace, raw)
  }
}
