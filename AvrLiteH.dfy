/** The public surface of the library header: logic levels, pin modes, the
    GPIO state selectors, the Arduino-style pin names and the default
    arguments of the prototypes. */
module AvrLiteH {
  import opened Bits

  // Logic levels
  const LOW: u8 := 0x0
  const HIGH: u8 := 0x1

  // Pin directions
  const INPUT: u8 := 0x2
  const OUTPUT: u8 := 0x3

  // GPIO state selectors
  const ANALOGREAD: u8 := 0x5
  const ANALOGWRITE: u8 := 0x6
  const DIGITALREAD: u8 := 0x7

  /** The seven mode codes `GPIOControl` dispatches on. */
  const ModeCodes: seq<u8> := [LOW, HIGH, INPUT, OUTPUT, ANALOGREAD, ANALOGWRITE, DIGITALREAD]

  predicate IsModeCode(mode: u8)
  {
    mode == LOW || mode == HIGH || mode == INPUT || mode == OUTPUT ||
    mode == ANALOGREAD || mode == ANALOGWRITE || mode == DIGITALREAD
  }

  // Digital pins D0..D13
  const D0: u8 := 0
  const D1: u8 := 1
  const D2: u8 := 2
  const D3: u8 := 3
  const D4: u8 := 4
  const D5: u8 := 5
  const D6: u8 := 6
  const D7: u8 := 7
  const D8: u8 := 8
  const D9: u8 := 9
  const D10: u8 := 10
  const D11: u8 := 11
  const D12: u8 := 12
  const D13: u8 := 13

  // Analog pins A0..A5
  const A0: u8 := 14
  const A1: u8 := 15
  const A2: u8 := 16
  const A3: u8 := 17
  const A4: u8 := 18
  const A5: u8 := 19

  const DigitalPins: seq<u8> := [D0, D1, D2, D3, D4, D5, D6, D7, D8, D9, D10, D11, D12, D13]
  const AnalogPins: seq<u8> := [A0, A1, A2, A3, A4, A5]

  /** The six pins that can produce PWM, two per hardware timer. */
  const PwmPins: seq<u8> := [D3, D5, D6, D9, D10, D11]

  /** Default of the `value` argument of `GPIOWrite` and `GPIOControl`. */
  const DefaultValue: u8 := 0

  /** Default of the `str` argument of `Serial_println`. */
  const DefaultLine: string := ""

  /** The mode codes are pairwise distinct, so a dispatch on them selects at most one branch. */
  lemma ModeCodesDistinct()
    ensures |ModeCodes| == 7
    ensures forall i, j | 0 <= i < j < |ModeCodes| :: ModeCodes[i] != ModeCodes[j]
    ensures 4 !in ModeCodes
    ensures forall mode: u8 :: IsModeCode(mode) <==> mode in ModeCodes
  {
  }

  /** D0..D13 are the numbers 0..13 and A0..A5 continue them as 14..19. */
  lemma PinNumbering()
    ensures forall k | 0 <= k < |DigitalPins| :: DigitalPins[k] == k
    ensures forall k | 0 <= k < |AnalogPins| :: AnalogPins[k] == 14 + k
  {
  }

  /** The PWM pins are 3, 5, 6, 9, 10 and 11, all within the digital range. */
  lemma PwmPinsAreDigital()
    ensures PwmPins == [3, 5, 6, 9, 10, 11]
    ensures forall k | 0 <= k < |PwmPins| :: PwmPins[k] in DigitalPins
  {
  }

  /** One call a program makes into the library, recorded in order. */
  datatype Call =
    | GpioControlCall(pin: u8, mode: u8, value: u8)
    | GpioWriteCall(pin: u8, mode: u8, value: u8)
    | SleepCall(ms: u32)
    | SleepMicrosecondsCall(us: u16)
}
