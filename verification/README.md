# ADS1115 register codec

A Dafny model of the ADS1115 driver in `i2c_ps/`. The ADS1115 is a 16-bit
analog-to-digital converter reached over I2C at address 0x49. The driver does
two things:

- `ADS1115_Config` packs a channel selector, a gain index and a data-rate
  index into the 16-bit configuration word. It then writes that word to the
  configuration register (pointer 0x01).
- `ADS1115_Read` points the device at the conversion register (pointer 0x00),
  reads two bytes back, and rebuilds the unsigned 16-bit raw result.

The model is organised as follows:

- `CTypes` gives the C types: `u8` is `bv8`, `u16` is `bv16`, and a promoted C
  `int` is `bv32`. It also gives the explicit narrowing conversions C applies
  when a value is stored back into a `u8` or `u16`.
- `Ads1115Header` holds the header's address, register pointers and
  configuration constants.
- `I2cBus` models `I2CByteWrite`, `I2CByteWrites` and `I2CReadBytes`. Each one
  returns the transfers it performs as a trace of `BusOp` events
  (`MasterSend(addr, bytes)` or `MasterRecv(addr, count)`). The bytes the
  device answers with are parameters.
- `ConfigWord` describes the register layout: bit 15 OS, bits 14–12 MUX,
  bits 11–9 PGA, bit 8 MODE, bits 7–5 DR, bits 4–0 comparator. It provides
  `Pack`/`Unpack` between a word and its six fields.
- `Ads1115` holds the two lookup tables and the modelled operations:
  `EncodeConfig` (the word), `Config` (the write) and `Read`.
- `Ads1115Props` holds the lemmas that relate several calls or quantify over
  every input.

Two points about the code are worth stating up front:

- **Wire order.** The parameter names of `I2CByteWrites` (i2c_ps/ads1115.c:55-56,
  :61) suggest that the LSB follows the register pointer. `ADS1115_Config`
  passes the bytes swapped: `data[1]` as `data_msb` and `data[0]` as `data_lsb`
  (i2c_ps/ads1115.c:118). The buffer at i2c_ps/ads1115.c:62 swaps them back.
  `WireOrder` proves that the bytes go out MSB first.
- **Gain table.** Channel 1, gain 1, rate 4 encodes to 0x9283, because
  `ADS1115_ConfigGain[1]` is 0x200. `MainVectors` proves this value.

## Model

| member | source | states |
|---|---|---|
| `Ads1115Header.HeaderConstants` | i2c_ps/ads1115.h:16-25 | The address 0x49 fits in 7 bits. The two register pointers are distinct and fit the 2-bit pointer field. OS_SINGLE is exactly bit 15 and does not overlap the MUX field at offset 12. MODE_CONTINUOUS is 0 and MODE_SINGLE is bit 8. COMP_QUE_DISABLE lies in bits 1–0, below the data-rate field. |
| `CTypes.NarrowToU16` | i2c_ps/ads1115.c:111-116 | Storing a C `int` into the `u16` `config` keeps the value unchanged whenever it is below 0x10000. Above that, only the low 16 bits survive, which is C's modulo rule for unsigned conversion. |
| `CTypes.NarrowToU8` | i2c_ps/ads1115.c:117 | Storing a value into a `u8` element of `data` keeps it unchanged whenever it is below 0x100. Above that, only the low 8 bits survive, which is C's modulo rule for unsigned conversion. |
| `Ads1115Props.HeaderMatchesLayout` | i2c_ps/ads1115.h:21-25 | The header's constants agree with the register layout. The MUX offset is the MUX field's position. OS_SINGLE is the OS field and MODE_SINGLE is the MODE field. COMP_QUE_DISABLE lies inside the comparator field. |
| `ConfigWord.FieldsArePartition` | i2c_ps/ads1115.h:21-25 | The OS, MUX, PGA, MODE, DR and comparator fields are pairwise disjoint and together cover exactly the 16 bits of the word. |
| `ConfigWord.Pack` | i2c_ps/ads1115.c:111-116 | Each field value placed in the word reads back from its own bit range. |
| `ConfigWord.Unpack` | i2c_ps/ads1115.c:111-116 | Every field read from a word fits its bit range. |
| `ConfigWord.UnpackPack` | i2c_ps/ads1115.c:111-116 | Unpacking a packed word gives back the fields. |
| `ConfigWord.PackUnpack` | i2c_ps/ads1115.c:111-116 | Re-packing the fields of any word gives back that word, so the fields determine the word. |
| `I2cBus.SendPolled` | i2c_ps/ads1115.c:39 | A polled send transmits exactly the first `count` bytes of the buffer to the given address. |
| `I2cBus.ByteWrite` | i2c_ps/ads1115.c:37-46 | `I2CByteWrite` performs one send of exactly one byte, the data byte. The buffer's padding 0 is never transmitted. |
| `I2cBus.ByteWrites` | i2c_ps/ads1115.c:61-70 | `I2CByteWrites` performs one 3-byte send. The register byte comes first, then the argument named `data_lsb`, then the one named `data_msb`. |
| `I2cBus.ReadBytes` | i2c_ps/ads1115.c:83-94 | `I2CReadBytes` performs one 2-byte receive and hands the two received bytes to the caller in bus order. |
| `Ads1115.EncodeConfig` | i2c_ps/ads1115.c:109-116 | The word has bit 15 set and bits 14–12 equal to `channel & 7`. Bits 11–9 hold the gain index and bit 8 is clear. Bits 7–5 hold the data-rate index and bits 4–0 are 0b00011. This holds for every u8 channel, gain < 6 and data_rate < 8. |
| `Ads1115.SplitWord` | i2c_ps/ads1115.c:117 | The two bytes `{config >> 8, config & 0xFF}`, read big-endian, give back the word. |
| `Ads1115.Config` | i2c_ps/ads1115.c:109-118 | `ADS1115_Config` performs exactly one 3-byte write to the device address, starting with the config pointer. The two data bytes, read MSB first, give back the encoded word. |
| `Ads1115.Read` | i2c_ps/ads1115.c:135-142 | `ADS1115_Read` performs a 1-byte write of pointer 0x00 and then a 2-byte read, both to 0x49. The high byte of the raw value is the first received byte and the low byte is the second. |
| `Ads1115Props.GainTableEntry` | i2c_ps/ads1115.c:18 | For i < 6, gain-table entry i equals `i << 9` and has no bit outside the PGA field. |
| `Ads1115Props.GainTableIncreasing` | i2c_ps/ads1115.c:16-18 | The gain table has six entries and is strictly increasing. |
| `Ads1115Props.DrTableEntry` | i2c_ps/ads1115.c:22 | For i < 8, data-rate-table entry i equals `i << 5` and has no bit outside the DR field. |
| `Ads1115Props.DrTableIncreasing` | i2c_ps/ads1115.c:20-22 | The data-rate table has eight entries and is strictly increasing. |
| `Ads1115Props.NoNarrowingLoss` | i2c_ps/ads1115.c:111-116 | The OR of all terms at C `int` width is below 0x10000, and the `u16` config equals it. Storing into the `u16` therefore never drops a bit. |
| `Ads1115Props.FieldRoundTrip` | i2c_ps/ads1115.c:111-116 | Unpacking an encoded word recovers start = set, mux = `channel & 7`, the gain, mode = continuous, the rate and comparator = 3. |
| `Ads1115Props.EncodeInjective` | i2c_ps/ads1115.c:111-116 | Two requests encode to the same word if and only if they agree on `channel & 7`, gain and data rate. |
| `Ads1115Props.EncoderImage` | i2c_ps/ads1115.c:111-116 | A word is `EncodeConfig(c, g, r)` for some u8 channel, gain < 6 and rate < 8 exactly when four conditions hold: the start bit is set, the mode bit is clear, the PGA field is below 6 and the comparator bits are 3. |
| `Ads1115Props.EncoderWordSelfEncodes` | i2c_ps/ads1115.c:111-116 | A word meets those four conditions exactly when it is the encoding of its own MUX, PGA and DR fields with PGA below 6. |
| `Ads1115Props.ChannelMasking` | i2c_ps/ads1115.c:112 | Channels equal mod 8 give the same word. Outside the MUX field, every channel gives the same bits. |
| `Ads1115Props.WireOrder` | i2c_ps/ads1115.c:117-118 | The transfer of `ADS1115_Config` is exactly `[MasterSend(0x49, [0x01, config >> 8, config & 0xFF])]`, MSB first. |
| `Ads1115Props.RawBytesBijection` | i2c_ps/ads1115.c:142 | The raw result maps to the received byte pair one-to-one. Splitting the raw value gives back the received bytes, and rebuilding from the bytes of any 16-bit value gives back that value. |
| `Ads1115Props.RawArithmetic` | i2c_ps/ads1115.c:142 | The raw value is `data[0]*256 + data[1]` read big-endian. Dividing it by 256 gives the first received byte, and the remainder is the second. |
| `Ads1115Props.RawUnsigned` | i2c_ps/ads1115.c:142 | There is no sign extension: the raw value is at least 0x8000 exactly when the first received byte is at least 0x80. |
| `Ads1115Props.MainVectors` | i2c_ps/i2c_main.c:69-75 | The loop's requests (1,1,4), (2,1,4) and (3,1,4) encode to 0x9283, 0xA283 and 0xB283. The first is written as the bytes 0x01, 0x92, 0x83. |

## Left out

- Voltage conversion `raw_result * 4.096 / 32768` (i2c_ps/ads1115.c:143) is left out because it is floating point. It uses 4.096 V whatever gain was configured, and it applies no sign extension first.
- The settling delay `usleep((int)((1.0/ADS1115_ConfigDr[data_rate]) + 100))` (i2c_ps/ads1115.c:122) is left out because it is a floating-point timing call. It divides by the register fragment rather than the sample rate, and for data_rate 0 it divides by zero.
- Transport status and the `XIicPs_BusIsBusy` spin loops are left out. In the source a failed send or receive is only printed. The model treats every transfer as successful, and the received bytes are an arbitrary input.
- `I2CReadByte` is left out because it is declared in i2c_ps/ads1115.h:31 but never defined.
- The `printf`/`xil_printf` logging is left out because it is output only.
- I2C controller initialisation, the infinite loop in `main` and the `sleep(1)` are left out because they are platform set-up. The loop's three requests appear only as the vectors of `MainVectors`.
- The watchdog example (`scu_watchdog/watchdog_example.c`) is left out because it is interrupt and GPIO set-up with no codec logic.
- Out-of-range gain or data-rate indices are not modelled. The source reads past its tables for them, so `ValidSettings` is a precondition of `EncodeConfig` and `Config`, not an error result.
