/**
 * Field layout of the ADS1115 16-bit configuration register:
 * bit 15 start (OS), bits 14-12 input multiplexer (MUX), bits 11-9 gain (PGA),
 * bit 8 mode, bits 7-5 data rate (DR), bits 4-0 comparator settings.
 */
module ConfigWord {
  import opened CTypes

  const OS_MASK: u16 := 0x8000
  const MUX_MASK: u16 := 0x7000
  const PGA_MASK: u16 := 0x0E00
  const MODE_MASK: u16 := 0x0100
  const DR_MASK: u16 := 0x00E0
  const COMP_MASK: u16 := 0x001F

  const MUX_SHIFT: nat := 12
  const PGA_SHIFT: nat := 9
  const DR_SHIFT: nat := 5

  /** The field masks are pairwise disjoint and together cover exactly the 16 register bits. */
  predicate FieldsPartitionWord()
  {
    && OS_MASK & MUX_MASK == 0 && OS_MASK & PGA_MASK == 0 && OS_MASK & MODE_MASK == 0
    && OS_MASK & DR_MASK == 0 && OS_MASK & COMP_MASK == 0
    && MUX_MASK & PGA_MASK == 0 && MUX_MASK & MODE_MASK == 0 && MUX_MASK & DR_MASK == 0
    && MUX_MASK & COMP_MASK == 0
    && PGA_MASK & MODE_MASK == 0 && PGA_MASK & DR_MASK == 0 && PGA_MASK & COMP_MASK == 0
    && MODE_MASK & DR_MASK == 0 && MODE_MASK & COMP_MASK == 0
    && DR_MASK & COMP_MASK == 0
    && (OS_MASK | MUX_MASK | PGA_MASK | MODE_MASK | DR_MASK | COMP_MASK) == 0xFFFF
  }

  lemma FieldsArePartition()
    ensures FieldsPartitionWord()
  {
  }

  /** The configuration register read as its six fields. */
  datatype ConfigFields = ConfigFields(
    start: bool,        // OS: begin a single conversion
    mux: u16,           // input multiplexer selector, 0..7
    pga: u16,           // programmable gain selector, 0..7
    singleShot: bool,   // MODE: true = single-shot, false = continuous
    rate: u16,          // data rate selector, 0..7
    comp: u16)          // comparator mode, polarity, latch and queue bits, 0..31

  /** Every field value fits its bit range. */
  predicate FieldsInRange(f: ConfigFields)
  {
    f.mux < 8 && f.pga < 8 && f.rate < 8 && f.comp < 32
  }

  /** Place each field at its bit position. */
  function Pack(f: ConfigFields): (w: u16)
    requires FieldsInRange(f)
    ensures (w & OS_MASK != 0) == f.start
    ensures (w & MODE_MASK != 0) == f.singleShot
    ensures (w & MUX_MASK) >> MUX_SHIFT == f.mux
    ensures (w & PGA_MASK) >> PGA_SHIFT == f.pga
    ensures (w & DR_MASK) >> DR_SHIFT == f.rate
    ensures w & COMP_MASK == f.comp
  {
    (if f.start then OS_MASK else 0)
    | (f.mux << MUX_SHIFT)
    | (f.pga << PGA_SHIFT)
    | (if f.singleShot then MODE_MASK else 0)
    | (f.rate << DR_SHIFT)
    | f.comp
  }

  /** Read each field from its bit position. */
  function Unpack(w: u16): (f: ConfigFields)
    ensures FieldsInRange(f)
  {
    ConfigFields(
      w & OS_MASK != 0,
      (w & MUX_MASK) >> MUX_SHIFT,
      (w & PGA_MASK) >> PGA_SHIFT,
      w & MODE_MASK != 0,
      (w & DR_MASK) >> DR_SHIFT,
      w & COMP_MASK)
  }

  /** Unpacking a packed word gives back the fields. */
  lemma UnpackPack(f: ConfigFields)
    requires FieldsInRange(f)
    ensures Unpack(Pack(f)) == f
  {
  }

  /** Packing the fields of a word gives back the word: no bit lies outside a field. */
  lemma PackUnpack(w: u16)
    ensures Pack(Unpack(w)) == w
  {
  }
}
