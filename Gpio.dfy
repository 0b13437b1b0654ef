/** Pure part of the GPIO layer: where a logical pin lives (which port
    register, which bit), what setting or clearing that bit does to the port's
    register, what a digital read reports, and the ADC channel selection. */
module Gpio {
  import opened Bits
  import opened Wrappers
  import opened AvrLiteH

  /** The three 8-bit I/O ports; each has a DDRx, a PORTx and a PINx register. */
  datatype Port = PortB | PortC | PortD

  datatype Location = Location(port: Port, bit: nat)

  /** Port D carries pins 0..7 on bits 0..7, port B pins 8..13 on bits 0..5,
      port C pins 14..19 on bits 0..5. */
  predicate ValidLocation(loc: Location)
  {
    match loc.port
    case PortD => loc.bit < 8
    case PortB => loc.bit < 6
    case PortC => loc.bit < 6
  }

  /** The logical pin number wired to a port bit. */
  function PinOf(loc: Location): int
  {
    match loc.port
    case PortD => loc.bit
    case PortB => 8 + loc.bit
    case PortC => 14 + loc.bit
  }

  /** The pin -> (port, bit) table shared by every GPIO routine; pins above
      19 have no location and are ignored by those routines. */
  function PinLocation(pin: u8): (loc: Option<Location>)
    ensures loc.Some? <==> pin <= 19
    ensures loc.Some? ==> ValidLocation(loc.value) && PinOf(loc.value) == pin
  {
    if pin <= 7 then Some(Location(PortD, pin))
    else if pin <= 13 then Some(Location(PortB, pin - 8))
    else if pin <= 19 then Some(Location(PortC, pin - 14))
    else None
  }

  /** Every port bit that has a pin is found again from that pin, so the
      table is a bijection between pins 0..19 and the valid port bits. */
  lemma PinLocationInverse(loc: Location)
    requires ValidLocation(loc)
    ensures 0 <= PinOf(loc) <= 19
    ensures PinLocation(PinOf(loc) as u8) == Some(loc)
  {
    match loc.port
    case PortD =>
    case PortB =>
    case PortC =>
  }

  /** The analog pins A0..A5 are bits 0..5 of port C: the same lines the
      digital routines reach through `pin - 14`. */
  lemma AnalogPinsArePortC()
    ensures forall k | 0 <= k < |AnalogPins| :: PinLocation(AnalogPins[k]) == Some(Location(PortC, k))
  {
  }

  /** The register of `port` after the bit of `pin` is set (`high`) or
      cleared, as `GPIOInit` does to DDRx and the digital write does to
      PORTx: the register holding the pin gets `|= (1 << bit)` or
      `&= ~(1 << bit)`, any other register is left as it is. */
  function UpdatePinBit(reg: Byte, port: Port, pin: u8, high: bool): Byte
  {
    match PinLocation(pin)
    case Some(Location(p, b)) =>
      if p != port then reg else if high then SetBit(reg, b) else ClearBit(reg, b)
    case None => reg
  }

  /** Only the pin's own bit changes, and it becomes `high`; every other bit,
      and every bit of a register that does not hold the pin, keeps its value. */
  lemma UpdatePinBitBits(reg: Byte, port: Port, pin: u8, high: bool)
    ensures forall i | 0 <= i < 8 ::
      IsSet(UpdatePinBit(reg, port, pin, high), i) ==
      (if PinLocation(pin) == Some(Location(port, i)) then high else IsSet(reg, i))
  {
    match PinLocation(pin)
    case Some(Location(p, b)) =>
      if p == port {
        if high {
          SetBitBits(reg, b);
        } else {
          ClearBitBits(reg, b);
        }
      }
    case None =>
  }

  /** Setting or clearing the same pin bit twice is the same as once. */
  lemma UpdatePinBitIdempotent(reg: Byte, port: Port, pin: u8, high: bool)
    ensures UpdatePinBit(UpdatePinBit(reg, port, pin, high), port, pin, high) == UpdatePinBit(reg, port, pin, high)
  {
    var once := UpdatePinBit(reg, port, pin, high);
    var twice := UpdatePinBit(once, port, pin, high);
    UpdatePinBitBits(reg, port, pin, high);
    UpdatePinBitBits(once, port, pin, high);
    BitsDetermine(twice, once);
  }

  /** One register of each port: the three DDRx, the three PORTx or the three PINx. */
  datatype PortRegs = PortRegs(b: Byte, c: Byte, d: Byte)

  function Reg(r: PortRegs, port: Port): Byte
  {
    match port
    case PortB => r.b
    case PortC => r.c
    case PortD => r.d
  }

  /** Set (`high`) or clear the bit of `pin` in whichever register of the
      three holds it, as `GPIOInit` does to DDRx and the digital write to
      PORTx. */
  function UpdatePin(r: PortRegs, pin: u8, high: bool): PortRegs
  {
    PortRegs(UpdatePinBit(r.b, PortB, pin, high), UpdatePinBit(r.c, PortC, pin, high), UpdatePinBit(r.d, PortD, pin, high))
  }

  /** Only that one bit of that one register changes, to `high`; a pin above
      19 changes nothing. */
  lemma UpdatePinOnlyItsBit(r: PortRegs, pin: u8, high: bool)
    ensures forall port, i | 0 <= i < 8 ::
      IsSet(Reg(UpdatePin(r, pin, high), port), i) ==
      (if PinLocation(pin) == Some(Location(port, i)) then high else IsSet(Reg(r, port), i))
  {
    forall port
      ensures forall i | 0 <= i < 8 ::
        IsSet(Reg(UpdatePin(r, pin, high), port), i) ==
        (if PinLocation(pin) == Some(Location(port, i)) then high else IsSet(Reg(r, port), i))
    {
      assert Reg(UpdatePin(r, pin, high), port) == UpdatePinBit(Reg(r, port), port, pin, high);
      UpdatePinBitBits(Reg(r, port), port, pin, high);
    }
  }

  /** The update for each range of pins, in the register-level form of the
      source: one `|=` or `&= ~` on DDRD/PORTD, DDRB/PORTB or DDRC/PORTC. */
  lemma UpdatePinSpelledOut(r: PortRegs, pin: u8, high: bool)
    ensures pin <= 7 ==>
      UpdatePin(r, pin, high) == r.(d := if high then SetBit(r.d, pin) else ClearBit(r.d, pin))
    ensures 8 <= pin <= 13 ==>
      UpdatePin(r, pin, high) == r.(b := if high then SetBit(r.b, pin - 8) else ClearBit(r.b, pin - 8))
    ensures 14 <= pin <= 19 ==>
      UpdatePin(r, pin, high) == r.(c := if high then SetBit(r.c, pin - 14) else ClearBit(r.c, pin - 14))
    ensures pin > 19 ==> UpdatePin(r, pin, high) == r
  {
    if pin <= 7 {
      assert PinLocation(pin) == Some(Location(PortD, pin));
    } else if pin <= 13 {
      assert PinLocation(pin) == Some(Location(PortB, pin - 8));
    } else if pin <= 19 {
      assert PinLocation(pin) == Some(Location(PortC, pin - 14));
    } else {
      UpdateUnmappedPin(r, pin, high);
    }
  }

  /** A pin above 19 leaves all three registers alone. */
  lemma UpdateUnmappedPin(r: PortRegs, pin: u8, high: bool)
    requires pin > 19
    ensures UpdatePin(r, pin, high) == r
  {
  }

  /** Updates of two different pins commute, whether or not they share a port. */
  lemma UpdatePinsCommute(r: PortRegs, a: u8, x: bool, b: u8, y: bool)
    requires a != b
    ensures UpdatePin(UpdatePin(r, a, x), b, y) == UpdatePin(UpdatePin(r, b, y), a, x)
  {
    var ra, rb := UpdatePin(r, a, x), UpdatePin(r, b, y);
    var ab, ba := UpdatePin(ra, b, y), UpdatePin(rb, a, x);
    UpdatePinOnlyItsBit(r, a, x);
    UpdatePinOnlyItsBit(r, b, y);
    UpdatePinOnlyItsBit(ra, b, y);
    UpdatePinOnlyItsBit(rb, a, x);
    BitsDetermine(ab.b, ba.b);
    BitsDetermine(ab.c, ba.c);
    BitsDetermine(ab.d, ba.d);
  }

  /** Updating the same pin twice is the same as once. */
  lemma UpdatePinIdempotent(r: PortRegs, pin: u8, high: bool)
    ensures UpdatePin(UpdatePin(r, pin, high), pin, high) == UpdatePin(r, pin, high)
  {
    UpdatePinBitIdempotent(r.b, PortB, pin, high);
    UpdatePinBitIdempotent(r.c, PortC, pin, high);
    UpdatePinBitIdempotent(r.d, PortD, pin, high);
  }

  /** `GPIORead(pin, DIGITALREAD)` on the PINx registers: HIGH exactly when
      the pin is mapped and its bit is set, LOW otherwise (also for pins
      above 19). */
  function DigitalLevel(pin: u8, inputs: PortRegs): (level: u8)
    ensures level == LOW || level == HIGH
    ensures level == HIGH <==>
      PinLocation(pin).Some? && IsSet(Reg(inputs, PinLocation(pin).value.port), PinLocation(pin).value.bit)
  {
    if pin <= 7 then (if IsSet(inputs.d, pin) then HIGH else LOW)
    else if pin <= 13 then (if IsSet(inputs.b, pin - 8) then HIGH else LOW)
    else if pin <= 19 then (if IsSet(inputs.c, pin - 14) then HIGH else LOW)
    else LOW
  }

  /** A level stored into a mapped pin's bit is the level read back from it:
      the pin map used for writing and the one used for reading agree. */
  lemma ReadBackUpdatedPin(r: PortRegs, pin: u8, high: bool)
    requires pin <= 19
    ensures DigitalLevel(pin, UpdatePin(r, pin, high)) == if high then HIGH else LOW
  {
    var loc := PinLocation(pin).value;
    UpdatePinOnlyItsBit(r, pin, high);
    assert IsSet(Reg(UpdatePin(r, pin, high), loc.port), loc.bit) == high;
  }

  /** Updating one pin does not change the level read from any other pin. */
  lemma ReadOtherPinUnchanged(r: PortRegs, pin: u8, high: bool, other: u8)
    requires other != pin
    ensures DigitalLevel(other, UpdatePin(r, pin, high)) == DigitalLevel(other, r)
  {
    if PinLocation(other).Some? {
      var loc := PinLocation(other).value;
      UpdatePinOnlyItsBit(r, pin, high);
      assert IsSet(Reg(UpdatePin(r, pin, high), loc.port), loc.bit) == IsSet(Reg(r, loc.port), loc.bit);
    }
  }

  /** REFS0, bit 6 of ADMUX: AVcc as the ADC reference. */
  const REFS0: nat := 6

  /** `(pin - A0) & 0x07` as a register value, for the six ADC channels
      an analog pin can name. */
  function AdcChannel(k: nat): Byte
    requires k < 6
  {
    match k
    case 0 => 0x00
    case 1 => 0x01
    case 2 => 0x02
    case 3 => 0x03
    case 4 => 0x04
    case 5 => 0x05
  }

  /** `ADMUX = (1 << REFS0) | ((pin - A0) & 0x07)` for an analog pin: the
      reference bit and the channel number, which recovers the pin. */
  function AdmuxFor(pin: u8): (admux: Byte)
    requires A0 <= pin <= A5
    ensures IsSet(admux, REFS0)
    ensures A0 + ToU8(admux & 0x07) == pin
    ensures admux & 0xB8 == 0
  {
    Mask(REFS0) | AdcChannel(pin - A0)
  }
}
