/** Modbus CRC-16 as computed by the relay client: the table-driven update of
  * the MODBUS over Serial Line specification (section 6.2.2 of V1.02), with
  * the two 256-entry lookup tables copied entry for entry from relay.py. */
module ModbusCrc {
  import opened Bits

  /** A Python int holding one byte (0..255). */
  type Byte = b: int | 0 <= b < 256

  // The two 256-entry tables as lookups on the index: row `index / 16`,
  // column `index % 16`, sixteen entries per line in source order.

  /** `CRCTableHigh` (relay.py:18-37): entry `index` of the source list.
    * Entry 0 is 0, so an index of 0 leaves the high register unmixed. */
  function TableHigh(index: Byte): (entry: bv8)
    ensures index == 0 ==> entry == 0
  {
    match index / 16
    case 0 => match index % 16 { case 0 => 0x00 case 1 => 0xC1 case 2 => 0x81 case 3 => 0x40 case 4 => 0x01 case 5 => 0xC0 case 6 => 0x80 case 7 => 0x41 case 8 => 0x01 case 9 => 0xC0 case 10 => 0x80 case 11 => 0x41 case 12 => 0x00 case 13 => 0xC1 case 14 => 0x81 case _ => 0x40 }
    case 1 => match index % 16 { case 0 => 0x01 case 1 => 0xC0 case 2 => 0x80 case 3 => 0x41 case 4 => 0x00 case 5 => 0xC1 case 6 => 0x81 case 7 => 0x40 case 8 => 0x00 case 9 => 0xC1 case 10 => 0x81 case 11 => 0x40 case 12 => 0x01 case 13 => 0xC0 case 14 => 0x80 case _ => 0x41 }
    case 2 => match index % 16 { case 0 => 0x01 case 1 => 0xC0 case 2 => 0x80 case 3 => 0x41 case 4 => 0x00 case 5 => 0xC1 case 6 => 0x81 case 7 => 0x40 case 8 => 0x00 case 9 => 0xC1 case 10 => 0x81 case 11 => 0x40 case 12 => 0x01 case 13 => 0xC0 case 14 => 0x80 case _ => 0x41 }
    case 3 => match index % 16 { case 0 => 0x00 case 1 => 0xC1 case 2 => 0x81 case 3 => 0x40 case 4 => 0x01 case 5 => 0xC0 case 6 => 0x80 case 7 => 0x41 case 8 => 0x01 case 9 => 0xC0 case 10 => 0x80 case 11 => 0x41 case 12 => 0x00 case 13 => 0xC1 case 14 => 0x81 case _ => 0x40 }
    case 4 => match index % 16 { case 0 => 0x01 case 1 => 0xC0 case 2 => 0x80 case 3 => 0x41 case 4 => 0x00 case 5 => 0xC1 case 6 => 0x81 case 7 => 0x40 case 8 => 0x00 case 9 => 0xC1 case 10 => 0x81 case 11 => 0x40 case 12 => 0x01 case 13 => 0xC0 case 14 => 0x80 case _ => 0x41 }
    case 5 => match index % 16 { case 0 => 0x00 case 1 => 0xC1 case 2 => 0x81 case 3 => 0x40 case 4 => 0x01 case 5 => 0xC0 case 6 => 0x80 case 7 => 0x41 case 8 => 0x01 case 9 => 0xC0 case 10 => 0x80 case 11 => 0x41 case 12 => 0x00 case 13 => 0xC1 case 14 => 0x81 case _ => 0x40 }
    case 6 => match index % 16 { case 0 => 0x00 case 1 => 0xC1 case 2 => 0x81 case 3 => 0x40 case 4 => 0x01 case 5 => 0xC0 case 6 => 0x80 case 7 => 0x41 case 8 => 0x01 case 9 => 0xC0 case 10 => 0x80 case 11 => 0x41 case 12 => 0x00 case 13 => 0xC1 case 14 => 0x81 case _ => 0x40 }
    case 7 => match index % 16 { case 0 => 0x01 case 1 => 0xC0 case 2 => 0x80 case 3 => 0x41 case 4 => 0x00 case 5 => 0xC1 case 6 => 0x81 case 7 => 0x40 case 8 => 0x00 case 9 => 0xC1 case 10 => 0x81 case 11 => 0x40 case 12 => 0x01 case 13 => 0xC0 case 14 => 0x80 case _ => 0x41 }
    case 8 => match index % 16 { case 0 => 0x01 case 1 => 0xC0 case 2 => 0x80 case 3 => 0x41 case 4 => 0x00 case 5 => 0xC1 case 6 => 0x81 case 7 => 0x40 case 8 => 0x00 case 9 => 0xC1 case 10 => 0x81 case 11 => 0x40 case 12 => 0x01 case 13 => 0xC0 case 14 => 0x80 case _ => 0x41 }
    case 9 => match index % 16 { case 0 => 0x00 case 1 => 0xC1 case 2 => 0x81 case 3 => 0x40 case 4 => 0x01 case 5 => 0xC0 case 6 => 0x80 case 7 => 0x41 case 8 => 0x01 case 9 => 0xC0 case 10 => 0x80 case 11 => 0x41 case 12 => 0x00 case 13 => 0xC1 case 14 => 0x81 case _ => 0x40 }
    case 10 => match index % 16 { case 0 => 0x00 case 1 => 0xC1 case 2 => 0x81 case 3 => 0x40 case 4 => 0x01 case 5 => 0xC0 case 6 => 0x80 case 7 => 0x41 case 8 => 0x01 case 9 => 0xC0 case 10 => 0x80 case 11 => 0x41 case 12 => 0x00 case 13 => 0xC1 case 14 => 0x81 case _ => 0x40 }
    case 11 => match index % 16 { case 0 => 0x01 case 1 => 0xC0 case 2 => 0x80 case 3 => 0x41 case 4 => 0x00 case 5 => 0xC1 case 6 => 0x81 case 7 => 0x40 case 8 => 0x00 case 9 => 0xC1 case 10 => 0x81 case 11 => 0x40 case 12 => 0x01 case 13 => 0xC0 case 14 => 0x80 case _ => 0x41 }
    case 12 => match index % 16 { case 0 => 0x00 case 1 => 0xC1 case 2 => 0x81 case 3 => 0x40 case 4 => 0x01 case 5 => 0xC0 case 6 => 0x80 case 7 => 0x41 case 8 => 0x01 case 9 => 0xC0 case 10 => 0x80 case 11 => 0x41 case 12 => 0x00 case 13 => 0xC1 case 14 => 0x81 case _ => 0x40 }
    case 13 => match index % 16 { case 0 => 0x01 case 1 => 0xC0 case 2 => 0x80 case 3 => 0x41 case 4 => 0x00 case 5 => 0xC1 case 6 => 0x81 case 7 => 0x40 case 8 => 0x00 case 9 => 0xC1 case 10 => 0x81 case 11 => 0x40 case 12 => 0x01 case 13 => 0xC0 case 14 => 0x80 case _ => 0x41 }
    case 14 => match index % 16 { case 0 => 0x01 case 1 => 0xC0 case 2 => 0x80 case 3 => 0x41 case 4 => 0x00 case 5 => 0xC1 case 6 => 0x81 case 7 => 0x40 case 8 => 0x00 case 9 => 0xC1 case 10 => 0x81 case 11 => 0x40 case 12 => 0x01 case 13 => 0xC0 case 14 => 0x80 case _ => 0x41 }
    case _ => match index % 16 { case 0 => 0x00 case 1 => 0xC1 case 2 => 0x81 case 3 => 0x40 case 4 => 0x01 case 5 => 0xC0 case 6 => 0x80 case 7 => 0x41 case 8 => 0x01 case 9 => 0xC0 case 10 => 0x80 case 11 => 0x41 case 12 => 0x00 case 13 => 0xC1 case 14 => 0x81 case _ => 0x40 }
  }

  /** `CRCTableLow` (relay.py:40-59): entry `index` of the source list.
    * Entry 0 is its only zero entry. */
  function TableLow(index: Byte): (entry: bv8)
    ensures entry == 0 <==> index == 0
  {
    match index / 16
    case 0 => match index % 16 { case 0 => 0x00 case 1 => 0xC0 case 2 => 0xC1 case 3 => 0x01 case 4 => 0xC3 case 5 => 0x03 case 6 => 0x02 case 7 => 0xC2 case 8 => 0xC6 case 9 => 0x06 case 10 => 0x07 case 11 => 0xC7 case 12 => 0x05 case 13 => 0xC5 case 14 => 0xC4 case _ => 0x04 }
    case 1 => match index % 16 { case 0 => 0xCC case 1 => 0x0C case 2 => 0x0D case 3 => 0xCD case 4 => 0x0F case 5 => 0xCF case 6 => 0xCE case 7 => 0x0E case 8 => 0x0A case 9 => 0xCA case 10 => 0xCB case 11 => 0x0B case 12 => 0xC9 case 13 => 0x09 case 14 => 0x08 case _ => 0xC8 }
    case 2 => match index % 16 { case 0 => 0xD8 case 1 => 0x18 case 2 => 0x19 case 3 => 0xD9 case 4 => 0x1B case 5 => 0xDB case 6 => 0xDA case 7 => 0x1A case 8 => 0x1E case 9 => 0xDE case 10 => 0xDF case 11 => 0x1F case 12 => 0xDD case 13 => 0x1D case 14 => 0x1C case _ => 0xDC }
    case 3 => match index % 16 { case 0 => 0x14 case 1 => 0xD4 case 2 => 0xD5 case 3 => 0x15 case 4 => 0xD7 case 5 => 0x17 case 6 => 0x16 case 7 => 0xD6 case 8 => 0xD2 case 9 => 0x12 case 10 => 0x13 case 11 => 0xD3 case 12 => 0x11 case 13 => 0xD1 case 14 => 0xD0 case _ => 0x10 }
    case 4 => match index % 16 { case 0 => 0xF0 case 1 => 0x30 case 2 => 0x31 case 3 => 0xF1 case 4 => 0x33 case 5 => 0xF3 case 6 => 0xF2 case 7 => 0x32 case 8 => 0x36 case 9 => 0xF6 case 10 => 0xF7 case 11 => 0x37 case 12 => 0xF5 case 13 => 0x35 case 14 => 0x34 case _ => 0xF4 }
    case 5 => match index % 16 { case 0 => 0x3C case 1 => 0xFC case 2 => 0xFD case 3 => 0x3D case 4 => 0xFF case 5 => 0x3F case 6 => 0x3E case 7 => 0xFE case 8 => 0xFA case 9 => 0x3A case 10 => 0x3B case 11 => 0xFB case 12 => 0x39 case 13 => 0xF9 case 14 => 0xF8 case _ => 0x38 }
    case 6 => match index % 16 { case 0 => 0x28 case 1 => 0xE8 case 2 => 0xE9 case 3 => 0x29 case 4 => 0xEB case 5 => 0x2B case 6 => 0x2A case 7 => 0xEA case 8 => 0xEE case 9 => 0x2E case 10 => 0x2F case 11 => 0xEF case 12 => 0x2D case 13 => 0xED case 14 => 0xEC case _ => 0x2C }
    case 7 => match index % 16 { case 0 => 0xE4 case 1 => 0x24 case 2 => 0x25 case 3 => 0xE5 case 4 => 0x27 case 5 => 0xE7 case 6 => 0xE6 case 7 => 0x26 case 8 => 0x22 case 9 => 0xE2 case 10 => 0xE3 case 11 => 0x23 case 12 => 0xE1 case 13 => 0x21 case 14 => 0x20 case _ => 0xE0 }
    case 8 => match index % 16 { case 0 => 0xA0 case 1 => 0x60 case 2 => 0x61 case 3 => 0xA1 case 4 => 0x63 case 5 => 0xA3 case 6 => 0xA2 case 7 => 0x62 case 8 => 0x66 case 9 => 0xA6 case 10 => 0xA7 case 11 => 0x67 case 12 => 0xA5 case 13 => 0x65 case 14 => 0x64 case _ => 0xA4 }
    case 9 => match index % 16 { case 0 => 0x6C case 1 => 0xAC case 2 => 0xAD case 3 => 0x6D case 4 => 0xAF case 5 => 0x6F case 6 => 0x6E case 7 => 0xAE case 8 => 0xAA case 9 => 0x6A case 10 => 0x6B case 11 => 0xAB case 12 => 0x69 case 13 => 0xA9 case 14 => 0xA8 case _ => 0x68 }
    case 10 => match index % 16 { case 0 => 0x78 case 1 => 0xB8 case 2 => 0xB9 case 3 => 0x79 case 4 => 0xBB case 5 => 0x7B case 6 => 0x7A case 7 => 0xBA case 8 => 0xBE case 9 => 0x7E case 10 => 0x7F case 11 => 0xBF case 12 => 0x7D case 13 => 0xBD case 14 => 0xBC case _ => 0x7C }
    case 11 => match index % 16 { case 0 => 0xB4 case 1 => 0x74 case 2 => 0x75 case 3 => 0xB5 case 4 => 0x77 case 5 => 0xB7 case 6 => 0xB6 case 7 => 0x76 case 8 => 0x72 case 9 => 0xB2 case 10 => 0xB3 case 11 => 0x73 case 12 => 0xB1 case 13 => 0x71 case 14 => 0x70 case _ => 0xB0 }
    case 12 => match index % 16 { case 0 => 0x50 case 1 => 0x90 case 2 => 0x91 case 3 => 0x51 case 4 => 0x93 case 5 => 0x53 case 6 => 0x52 case 7 => 0x92 case 8 => 0x96 case 9 => 0x56 case 10 => 0x57 case 11 => 0x97 case 12 => 0x55 case 13 => 0x95 case 14 => 0x94 case _ => 0x54 }
    case 13 => match index % 16 { case 0 => 0x9C case 1 => 0x5C case 2 => 0x5D case 3 => 0x9D case 4 => 0x5F case 5 => 0x9F case 6 => 0x9E case 7 => 0x5E case 8 => 0x5A case 9 => 0x9A case 10 => 0x9B case 11 => 0x5B case 12 => 0x99 case 13 => 0x59 case 14 => 0x58 case _ => 0x98 }
    case 14 => match index % 16 { case 0 => 0x88 case 1 => 0x48 case 2 => 0x49 case 3 => 0x89 case 4 => 0x4B case 5 => 0x8B case 6 => 0x8A case 7 => 0x4A case 8 => 0x4E case 9 => 0x8E case 10 => 0x8F case 11 => 0x4F case 12 => 0x8D case 13 => 0x4D case 14 => 0x4C case _ => 0x8C }
    case _ => match index % 16 { case 0 => 0x44 case 1 => 0x84 case 2 => 0x85 case 3 => 0x45 case 4 => 0x87 case 5 => 0x47 case 6 => 0x46 case 7 => 0x86 case 8 => 0x82 case 9 => 0x42 case 10 => 0x43 case 11 => 0x83 case 12 => 0x41 case 13 => 0x81 case 14 => 0x80 case _ => 0x40 }
  }

  datatype Registers = Registers(hi: Byte, lo: Byte)

  /** `crcHigh, crcLow = 0xff, 0xff` */
  const Initial := Registers(0xFF, 0xFF)

  /** One iteration of the loop body: the index is taken from the old low
    * register, the new low register mixes in the old high one, and the new
    * high register comes from the same index. Every index is a Byte, so both
    * lookups are in range. The new high register is 0 exactly when the byte
    * fed in equals the low register, and then the old high register moves
    * down into the low one. */
  function Step(r: Registers, b: Byte): (s: Registers)
    ensures s.hi == 0 <==> b == r.lo
    ensures b == r.lo ==> s.lo == r.hi
  {
    var index := Xor(r.lo, b);
    XorZero(r.lo, b);
    XorByte(r.lo, b);
    XorByte(r.hi, TableHigh(index) as int);
    Registers(TableLow(index) as int, Xor(r.hi, TableHigh(index) as int))
  }

  /** The registers after feeding `data` into `r`, one byte at a time. */
  function Run(r: Registers, data: seq<Byte>): Registers
  {
    if data == [] then r else Step(Run(r, data[..|data| - 1]), data[|data| - 1])
  }

  /** The 16-bit value with `hi` in the upper byte and `lo` in the lower one:
    * the checksum read off the registers, and a big-endian Modbus field. */
  function Word(hi: Byte, lo: Byte): (w: int)
    ensures 0 <= w < 0x1_0000
    ensures w / 256 == hi && w % 256 == lo
  {
    hi * 256 + lo
  }

  /** The checksum of `data`. */
  function Crc(data: seq<Byte>): (crc: int)
    ensures 0 <= crc <= 0xFFFF
    ensures data == [] ==> crc == 0xFFFF
  {
    var r := Run(Initial, data);
    Word(r.hi, r.lo)
  }

  /** Feeding `a + b` is feeding `a`, then `b`. */
  lemma {:induction false} RunAppend(r: Registers, a: seq<Byte>, b: seq<Byte>)
    ensures Run(r, a + b) == Run(Run(r, a), b)
    decreases |b|
  {
    if b == [] {
      assert a + b == a;
    } else {
      var b' := b[..|b| - 1];
      assert (a + b)[..|a + b| - 1] == a + b';
      RunAppend(r, a, b');
    }
  }

  /** Feeding two bytes is two steps. */
  lemma RunPair(r: Registers, x: Byte, y: Byte)
    ensures Run(r, [x, y]) == Step(Step(r, x), y)
  {
    calc {
      Run(r, [x, y]);
      Step(Run(r, [x, y][..1]), y);
      { assert [x, y][..1] == [x]; }
      Step(Run(r, [x]), y);
      { assert [x][..0] == []; }
      Step(Step(Run(r, []), x), y);
    }
  }

  /** Appending two bytes brings the checksum of the whole message to 0
    * exactly when they are the checksum of the message, low byte first: the
    * check a Modbus receiver makes on a frame. */
  lemma CrcResidue(data: seq<Byte>, x: Byte, y: Byte)
    ensures Crc(data + [x, y]) == 0 <==> x == Crc(data) % 256 && y == Crc(data) / 256
  {
    var r := Run(Initial, data);
    RunAppend(Initial, data, [x, y]);
    RunPair(r, x, y);
  }

  /** `crcHigh << 8 | crcLow` is the checksum the registers hold. */
  lemma JoinRegisters(hi: Byte, lo: Byte)
    ensures Or(ShiftLeft(hi, 8), lo) == Word(hi, lo)
  {
    JoinByte(hi, lo);
  }

  /** `ModbusCRC` (relay.py:62-68): the loop over the data with the two
    * registers, returning `crcHigh << 8 | crcLow`. */
  method ModbusCRC(data: seq<Byte>) returns (crc: int)
    ensures crc == Crc(data)
  {
    var crcHigh: Byte, crcLow: Byte := 0xFF, 0xFF;
    for i := 0 to |data|
      invariant Registers(crcHigh, crcLow) == Run(Initial, data[..i])
    {
      var index := Xor(crcLow, data[i]);
      XorByte(crcLow, data[i]);
      XorByte(crcHigh, TableHigh(index) as int);
      crcLow := Xor(crcHigh, TableHigh(index) as int);
      crcHigh := TableLow(index) as int;
      assert data[..i + 1][..i] == data[..i];
    }
    assert data[..|data|] == data;
    crc := Or(ShiftLeft(crcHigh, 8), crcLow);
    JoinRegisters(crcHigh, crcLow);
  }
}
