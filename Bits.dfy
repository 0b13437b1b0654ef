/** Machine-level value types of the ATmega328P: 8-bit I/O registers seen as
    bit fields, and the C integer widths (uint8_t, uint16_t, unsigned long)
    seen as bounded naturals so that wrap-around is written out explicitly. */
module Bits {

  /** An 8-bit I/O register read or written as a whole. */
  type Byte = bv8

  /** 2^32: `unsigned long` on AVR-GCC is 32 bits wide. */
  const U32: int := 0x1_0000_0000

  type u8 = x: int | 0 <= x < 0x100
  type u16 = x: int | 0 <= x < 0x1_0000
  type u32 = x: int | 0 <= x < U32

  /** `(1 << b)` for a bit position of an 8-bit register. */
  function Mask(b: nat): Byte
    requires b < 8
  {
    match b
    case 0 => 0x01
    case 1 => 0x02
    case 2 => 0x04
    case 3 => 0x08
    case 4 => 0x10
    case 5 => 0x20
    case 6 => 0x40
    case 7 => 0x80
  }

  /** `(r & (1 << b)) != 0` */
  predicate IsSet(r: Byte, b: nat)
    requires b < 8
  {
    r & Mask(b) != 0
  }

  /** `r | (1 << b)` */
  function SetBit(r: Byte, b: nat): Byte
    requires b < 8
  {
    r | Mask(b)
  }

  /** `r & ~(1 << b)` */
  function ClearBit(r: Byte, b: nat): Byte
    requires b < 8
  {
    r & !Mask(b)
  }

  /** Setting bit b sets it and keeps every other bit. */
  lemma SetBitBits(r: Byte, b: nat)
    requires b < 8
    ensures forall i | 0 <= i < 8 :: IsSet(SetBit(r, b), i) == (i == b || IsSet(r, i))
  {
  }

  /** Clearing bit b clears it and keeps every other bit. */
  lemma ClearBitBits(r: Byte, b: nat)
    requires b < 8
    ensures forall i | 0 <= i < 8 :: IsSet(ClearBit(r, b), i) == (i != b && IsSet(r, i))
  {
  }

  /** A register is determined by its eight bits. */
  lemma BitsDetermine(r: Byte, s: Byte)
    requires forall i | 0 <= i < 8 :: IsSet(r, i) == IsSet(s, i)
    ensures r == s
  {
    assert IsSet(r, 0) == IsSet(s, 0) && IsSet(r, 1) == IsSet(s, 1);
    assert IsSet(r, 2) == IsSet(s, 2) && IsSet(r, 3) == IsSet(s, 3);
    assert IsSet(r, 4) == IsSet(s, 4) && IsSet(r, 5) == IsSet(s, 5);
    assert IsSet(r, 6) == IsSet(s, 6) && IsSet(r, 7) == IsSet(s, 7);
  }

  /** The unsigned value of a register, as C sees a `uint8_t`. */
  function ToU8(r: Byte): (n: u8)
  {
    r as int
  }
}
