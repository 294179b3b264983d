/** Properties of the ADS1115 codec that relate several calls or hold for all inputs. */
module Ads1115Props {
  import opened CTypes
  import opened Ads1115Header
  import opened I2cBus
  import opened ConfigWord
  import opened Ads1115

  /** Entry i of the gain table is i placed in the PGA field, and nothing outside it. */
  lemma GainTableEntry(i: u8)
    requires i < 6
    ensures ConfigGain[i as int] == (i as u16) << PGA_SHIFT
    ensures ConfigGain[i as int] & !PGA_MASK == 0
  {
  }

  /** The gain table has one entry per full scale and rises strictly. */
  lemma GainTableIncreasing()
    ensures |ConfigGain| == 6
    ensures forall i, j :: 0 <= i < j < |ConfigGain| ==> ConfigGain[i] < ConfigGain[j]
  {
  }

  /** Entry i of the data-rate table is i placed in the DR field, and nothing outside it. */
  lemma DrTableEntry(i: u8)
    requires i < 8
    ensures ConfigDr[i as int] == i << DR_SHIFT
    ensures (ConfigDr[i as int] as u16) & !DR_MASK == 0
  {
  }

  /** The data-rate table has one entry per sample rate and rises strictly. */
  lemma DrTableIncreasing()
    ensures |ConfigDr| == 8
    ensures forall i, j :: 0 <= i < j < |ConfigDr| ==> ConfigDr[i] < ConfigDr[j]
  {
  }

  /** The header's constants are the fields of the register layout. */
  lemma HeaderMatchesLayout()
    ensures CONFIG_MUX_OFFSET == MUX_SHIFT
    ensures CONFIG_OS_SINGLE as u16 == OS_MASK
    ensures CONFIG_MODE_SINGLE as u16 == MODE_MASK
    ensures CONFIG_COMP_QUE_DISABLE as u16 & !COMP_MASK == 0
  {
  }

  /** The OR of the configuration terms at full C `int` width. */
  function WideConfig(channel: u8, gain: u8, dataRate: u8): (wide: CInt)
    requires ValidSettings(gain, dataRate)
  {
    CONFIG_OS_SINGLE
    | (((channel & 0x07) as CInt) << CONFIG_MUX_OFFSET)
    | ConfigGain[gain as int] as CInt
    | CONFIG_MODE_CONTINUOUS
    | ConfigDr[dataRate as int] as CInt
    | CONFIG_COMP_QUE_DISABLE
  }

  /** No term reaches above bit 15, so narrowing into the `u16` `config` never drops a bit. */
  lemma NoNarrowingLoss(channel: u8, gain: u8, dataRate: u8)
    requires ValidSettings(gain, dataRate)
    ensures WideConfig(channel, gain, dataRate) < 0x1_0000
    ensures EncodeConfig(channel, gain, dataRate) as CInt == WideConfig(channel, gain, dataRate)
  {
  }

  /** The fields read back from an encoded word are exactly the request, with the channel masked. */
  lemma FieldRoundTrip(channel: u8, gain: u8, dataRate: u8)
    requires ValidSettings(gain, dataRate)
    ensures Unpack(EncodeConfig(channel, gain, dataRate))
         == ConfigFields(true, (channel & 7) as u16, gain as u16, false, dataRate as u16, 3)
  {
  }

  /** Two requests give the same word exactly when they agree on channel mod 8, gain and rate. */
  lemma EncodeInjective(c1: u8, g1: u8, r1: u8, c2: u8, g2: u8, r2: u8)
    requires ValidSettings(g1, r1) && ValidSettings(g2, r2)
    ensures EncodeConfig(c1, g1, r1) == EncodeConfig(c2, g2, r2)
        <==> (c1 & 7 == c2 & 7 && g1 == g2 && r1 == r2)
  {
  }

  /** The words `ADS1115_Config` can produce: start set, continuous mode, a listed gain, comparator off. */
  predicate IsEncoderWord(w: u16)
  {
    var f := Unpack(w);
    f.start && !f.singleShot && f.pga < 6 && f.comp == 3
  }

  /** An encoder word is the encoding of its own fields, and no other word is. */
  lemma EncoderWordSelfEncodes(w: u16)
    ensures IsEncoderWord(w) <==>
      var f := Unpack(w);
      f.pga < 6 && EncodeConfig(f.mux as u8, f.pga as u8, f.rate as u8) == w
  {
  }

  /** The words the encoder produces, over all requests, are exactly the encoder words. */
  lemma EncoderImage(w: u16)
    ensures (exists c: u8, g: u8, r: u8 :: ValidSettings(g, r) && EncodeConfig(c, g, r) == w)
        <==> IsEncoderWord(w)
  {
    if exists c: u8, g: u8, r: u8 :: ValidSettings(g, r) && EncodeConfig(c, g, r) == w {
      var c: u8, g: u8, r: u8 :| ValidSettings(g, r) && EncodeConfig(c, g, r) == w;
      FieldRoundTrip(c, g, r);
    }
    if IsEncoderWord(w) {
      EncoderWordSelfEncodes(w);
      var f := Unpack(w);
      assert ValidSettings(f.pga as u8, f.rate as u8);
    }
  }

  /** Only the low three channel bits matter, and only the MUX field depends on the channel. */
  lemma ChannelMasking(c1: u8, c2: u8, gain: u8, dataRate: u8)
    requires ValidSettings(gain, dataRate)
    ensures c1 % 8 == c2 % 8 ==> EncodeConfig(c1, gain, dataRate) == EncodeConfig(c2, gain, dataRate)
    ensures EncodeConfig(c1, gain, dataRate) & !MUX_MASK == EncodeConfig(c2, gain, dataRate) & !MUX_MASK
  {
  }

  /** The write of `ADS1115_Config` puts the word on the bus most significant byte first. */
  lemma WireOrder(channel: u8, gain: u8, dataRate: u8)
    requires ValidSettings(gain, dataRate)
    ensures var w := EncodeConfig(channel, gain, dataRate);
      Config(channel, gain, dataRate)
        == [MasterSend(0x49, [0x01, (w >> 8) as u8, (w & 0xFF) as u8])]
  {
    var w := EncodeConfig(channel, gain, dataRate);
    var data := SplitWord(w);
    assert data[0] == (w >> 8) as u8;
    assert data[1] == (w & 0xFF) as u8;
    var t := Config(channel, gain, dataRate);
    assert t == ByteWrites(ADDRESS, POINTER_CONFIG, data[1], data[0]);
    assert t[0].bytes == [POINTER_CONFIG, data[0], data[1]];
  }

  /** The raw result and the received byte pair determine each other. */
  lemma RawBytesBijection(answer0: u8, answer1: u8, raw: u16)
    ensures SplitWord(Read(answer0, answer1).raw) == [answer0, answer1]
    ensures Read(SplitWord(raw)[0], SplitWord(raw)[1]).raw == raw
  {
  }

  /** The raw value is the big-endian reading of the byte pair: quotient and remainder by 256. */
  lemma RawArithmetic(answer0: u8, answer1: u8)
    ensures Read(answer0, answer1).raw == JoinBytes(answer0, answer1)
    ensures Read(answer0, answer1).raw / 256 == answer0 as u16
    ensures Read(answer0, answer1).raw % 256 == answer1 as u16
  {
  }

  /** No sign extension: a first byte with its top bit set reads as a raw value of 0x8000 or more. */
  lemma RawUnsigned(answer0: u8, answer1: u8)
    ensures Read(answer0, answer1).raw >= 0x8000 <==> answer0 >= 0x80
  {
  }

  /** The three requests of the application loop and the words they produce. */
  lemma MainVectors()
    ensures EncodeConfig(1, 1, 4) == 0x9283
    ensures EncodeConfig(2, 1, 4) == 0xA283
    ensures EncodeConfig(3, 1, 4) == 0xB283
    ensures Config(1, 1, 4) == [MasterSend(0x49, [0x01, 0x92, 0x83])]
  {
    WireOrder(1, 1, 4);
  }
}
