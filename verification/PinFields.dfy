/** The fields of a pin configuration default (HD Audio specification, section
    7.3.3.31) and the editor commands of tools/edit_layout.py on a layout. */
module PinFields {

  const WORD: nat := 0x1_0000_0000

  /** The fields as the editor holds them: any integers until they are encoded. */
  datatype Fields = Fields(connectivity: int, location: int, device: int, connType: int,
                           color: int, misc: int, assoc: int, sequence: int)

  function DecodePin(pc: nat): Fields
  {
    Fields(pc / 0x4000_0000 % 4, pc / 0x100_0000 % 0x40, pc / 0x10_0000 % 16, pc / 0x1_0000 % 16,
           pc / 0x1000 % 16, pc / 0x100 % 16, pc / 0x10 % 16, pc % 16)
  }

  /** Fields are masked to their width; they do not overlap, so the sum is the
      or. */
  function EncodePin(d: Fields): (pc: nat)
    ensures pc < WORD
  {
    d.connectivity % 4 * 0x4000_0000 + d.location % 0x40 * 0x100_0000 + d.device % 16 * 0x10_0000
    + d.connType % 16 * 0x1_0000 + d.color % 16 * 0x1000 + d.misc % 16 * 0x100 + d.assoc % 16 * 0x10 + d.sequence % 16
  }

  function Masked(d: Fields): Fields
  {
    Fields(d.connectivity % 4, d.location % 0x40, d.device % 16, d.connType % 16,
           d.color % 16, d.misc % 16, d.assoc % 16, d.sequence % 16)
  }

  /** One hexadecimal digit off the end. */
  lemma LastDigit(v: nat, q: nat, r: nat)
    requires v == q * 16 + r && r < 16
    ensures v / 16 == q && v % 16 == r
  {
  }

  lemma ShiftsCompose(v: nat)
    ensures v / 0x100 == v / 16 / 16 && v / 0x1000 == v / 0x100 / 16 && v / 0x1_0000 == v / 0x1000 / 16
    ensures v / 0x10_0000 == v / 0x1_0000 / 16 && v / 0x100_0000 == v / 0x10_0000 / 16
    ensures v / 0x4000_0000 == v / 0x100_0000 / 0x40
  {
  }

  /** What is encoded is decoded again, masked to the widths of the fields. */
  lemma DecodeInvertsEncode(d: Fields)
    ensures DecodePin(EncodePin(d)) == Masked(d)
  {
    var v, m := EncodePin(d), Masked(d);
    ShiftsCompose(v);
    var q7 := m.connectivity * 0x40 + m.location;
    var q6 := q7 * 16 + m.device;
    var q5 := q6 * 16 + m.connType;
    var q4 := q5 * 16 + m.color;
    var q3 := q4 * 16 + m.misc;
    var q2 := q3 * 16 + m.assoc;
    LastDigit(v, q2, m.sequence);
    LastDigit(q2, q3, m.assoc);
    LastDigit(q3, q4, m.misc);
    LastDigit(q4, q5, m.color);
    LastDigit(q5, q6, m.connType);
    LastDigit(q6, q7, m.device);
  }

  lemma SplitDigit(v: nat)
    ensures v == v / 16 * 16 + v % 16
  {
  }

  /** Decoding loses nothing of a 32-bit value. */
  lemma EncodeInvertsDecode(pc: nat)
    requires pc < WORD
    ensures EncodePin(DecodePin(pc)) == pc
  {
    ShiftsCompose(pc);
    SplitDigit(pc);
    SplitDigit(pc / 0x10);
    SplitDigit(pc / 0x100);
    SplitDigit(pc / 0x1000);
    SplitDigit(pc / 0x1_0000);
    SplitDigit(pc / 0x10_0000);
    TopByte(pc, pc / 0x100_0000);
    DecodedFits(pc);
    Digits(DecodePin(pc), pc);
  }

  lemma DecodedFits(pc: nat)
    ensures Masked(DecodePin(pc)) == DecodePin(pc)
  {
  }

  /** A value composed of the digits of fields that fit. */
  lemma Digits(d: Fields, pc: nat)
    requires Masked(d) == d
    requires pc == ((((((d.connectivity * 0x40 + d.location) * 16 + d.device) * 16 + d.connType) * 16 + d.color) * 16
                    + d.misc) * 16 + d.assoc) * 16 + d.sequence
    ensures EncodePin(d) == pc
  {
  }

  lemma TopByte(pc: nat, top: nat)
    requires pc < WORD && top == pc / 0x100_0000
    ensures top < 0x100 && top == top / 0x40 % 4 * 0x40 + top % 0x40
  {
  }
}
