/** Pure part of the PWM layer: the configuration registers of the three
    hardware timers, the pin -> (timer, channel) pairing, and what one
    analog write does to them. Bit positions are those of the ATmega328P. */
module Pwm {
  import opened Bits
  import opened Wrappers
  import opened AvrLiteH

  datatype TimerId = Timer0 | Timer1 | Timer2

  /** Each timer drives two outputs, A (OCnA) and B (OCnB). */
  datatype Channel = ChannelA | ChannelB

  datatype Output = Output(timer: TimerId, channel: Channel)

  // Bit positions in TCCRnA (the same for n = 0, 1, 2)
  const COMnA1: nat := 7
  const COMnB1: nat := 5
  const WGMn1: nat := 1
  const WGMn0: nat := 0

  // Bit positions in TCCRnB
  const WGM13: nat := 4
  const WGMn2: nat := 3
  const CSn2: nat := 2
  const CSn1: nat := 1
  const CSn0: nat := 0

  /** The registers of one timer that the analog write touches: the two
      control registers and the two compare registers (16-bit on Timer1). */
  datatype TimerRegs = TimerRegs(tccrA: Byte, tccrB: Byte, ocrA: u16, ocrB: u16)

  datatype PwmRegs = PwmRegs(t0: TimerRegs, t1: TimerRegs, t2: TimerRegs)

  function Get(p: PwmRegs, id: TimerId): TimerRegs
  {
    match id
    case Timer0 => p.t0
    case Timer1 => p.t1
    case Timer2 => p.t2
  }

  function Put(p: PwmRegs, id: TimerId, t: TimerRegs): (r: PwmRegs)
    ensures Get(r, id) == t
    ensures forall other :: other != id ==> Get(r, other) == Get(p, other)
  {
    match id
    case Timer0 => p.(t0 := t)
    case Timer1 => p.(t1 := t)
    case Timer2 => p.(t2 := t)
  }

  /** D3/D11 share Timer2, D5/D6 share Timer0, D9/D10 share Timer1. */
  function OutputOf(pin: u8): (o: Option<Output>)
    ensures o.Some? <==> pin in PwmPins
  {
    if pin == D3 then Some(Output(Timer2, ChannelB))
    else if pin == D11 then Some(Output(Timer2, ChannelA))
    else if pin == D5 then Some(Output(Timer0, ChannelB))
    else if pin == D6 then Some(Output(Timer0, ChannelA))
    else if pin == D9 then Some(Output(Timer1, ChannelA))
    else if pin == D10 then Some(Output(Timer1, ChannelB))
    else None
  }

  /** The pin wired to each timer output. */
  function PinOfOutput(o: Output): u8
  {
    match o
    case Output(Timer0, ChannelA) => D6
    case Output(Timer0, ChannelB) => D5
    case Output(Timer1, ChannelA) => D9
    case Output(Timer1, ChannelB) => D10
    case Output(Timer2, ChannelA) => D11
    case Output(Timer2, ChannelB) => D3
  }

  /** The six outputs and the six PWM pins are in one-to-one correspondence. */
  lemma OutputPinRoundTrip(o: Output, pin: u8)
    ensures OutputOf(PinOfOutput(o)) == Some(o)
    ensures OutputOf(pin).Some? ==> PinOfOutput(OutputOf(pin).value) == pin
  {
    match o
    case Output(Timer0, ChannelA) =>
    case Output(Timer0, ChannelB) =>
    case Output(Timer1, ChannelA) =>
    case Output(Timer1, ChannelB) =>
    case Output(Timer2, ChannelA) =>
    case Output(Timer2, ChannelB) =>
  }

  /** The output-compare enable bit of a channel (COMnA1 or COMnB1). */
  function ComBit(ch: Channel): nat
  {
    if ch == ChannelA then COMnA1 else COMnB1
  }

  /** Waveform-generation bits an enabling write ORs into TCCRnA:
      WGMn0|WGMn1 (fast PWM) on Timers 0 and 2, WGM10 alone on Timer1. */
  function WgmMaskA(id: TimerId): Byte
  {
    if id == Timer1 then Mask(WGMn0) else Mask(WGMn0) | Mask(WGMn1)
  }

  /** Bits an enabling write ORs into TCCRnB: CS01 or CS21 on Timers 0 and 2,
      WGM12|CS11 on Timer1. */
  function MaskB(id: TimerId): Byte
  {
    if id == Timer1 then Mask(WGMn2) | Mask(CSn1) else Mask(CSn1)
  }

  function Duty(t: TimerRegs, ch: Channel): u16
  {
    if ch == ChannelA then t.ocrA else t.ocrB
  }

  /** Stores `v` in the channel's compare register (`OCRnx = ...`) and keeps
      every other register of the timer. */
  function WithDuty(t: TimerRegs, ch: Channel, v: u16): (r: TimerRegs)
    ensures Duty(r, ch) == v
    ensures forall other :: other != ch ==> Duty(r, other) == Duty(t, other)
    ensures r.tccrA == t.tccrA && r.tccrB == t.tccrB
  {
    if ch == ChannelA then t.(ocrA := v) else t.(ocrB := v)
  }

  /** The TCCRnA part of one channel write: value 0 clears the channel's COM
      bit; any other value ORs in the COM bit and the waveform bits. */
  function WriteControlA(x: Byte, id: TimerId, ch: Channel, value: u8): Byte
  {
    if value == 0 then ClearBit(x, ComBit(ch)) else x | Mask(ComBit(ch)) | WgmMaskA(id)
  }

  /** The TCCRnB part of one channel write: a non-zero value ORs in the
      clock-select (and, on Timer1, WGM12) bits. */
  function WriteControlB(y: Byte, id: TimerId, value: u8): Byte
  {
    if value == 0 then y else y | MaskB(id)
  }

  /** One analog write to channel `ch` of timer `id`. Both branches of the
      source leave the channel's compare register holding `value` (the zero
      branch writes the constant 0). */
  function WriteChannel(t: TimerRegs, id: TimerId, ch: Channel, value: u8): TimerRegs
  {
    WithDuty(t.(tccrA := WriteControlA(t.tccrA, id, ch, value),
                tccrB := WriteControlB(t.tccrB, id, value)), ch, value)
  }

  /** A disabling channel write in the register-level form of the source:
      the COM bit is ANDed out and the compare register zeroed. */
  lemma ChannelOffSpelledOut(t: TimerRegs, id: TimerId, ch: Channel)
    ensures ch == ChannelA ==>
      WriteChannel(t, id, ch, 0) == TimerRegs(t.tccrA & !Mask(COMnA1), t.tccrB, 0, t.ocrB)
    ensures ch == ChannelB ==>
      WriteChannel(t, id, ch, 0) == TimerRegs(t.tccrA & !Mask(COMnB1), t.tccrB, t.ocrA, 0)
  {
  }

  /** An enabling write to channel A of Timer0 or Timer2 in the
      register-level form of the source: COMnA1|WGMn0|WGMn1 ORed into TCCRnA,
      CSn1 into TCCRnB, and the value stored in OCRnA. */
  lemma EnableFastPwmA(t: TimerRegs, id: TimerId, value: u8)
    requires id != Timer1 && value != 0
    ensures WriteChannel(t, id, ChannelA, value) ==
      TimerRegs(t.tccrA | (Mask(COMnA1) | Mask(WGMn0) | Mask(WGMn1)), t.tccrB | Mask(CSn1), value, t.ocrB)
  {
    assert Mask(COMnA1) | Mask(WGMn0) | Mask(WGMn1) == 0x83;
    assert Mask(ComBit(ChannelA)) | WgmMaskA(id) == 0x83;
    assert MaskB(id) == Mask(CSn1);
  }

  /** The same for channel B of Timer0 or Timer2 (COMnB1, OCRnB). */
  lemma EnableFastPwmB(t: TimerRegs, id: TimerId, value: u8)
    requires id != Timer1 && value != 0
    ensures WriteChannel(t, id, ChannelB, value) ==
      TimerRegs(t.tccrA | (Mask(COMnB1) | Mask(WGMn0) | Mask(WGMn1)), t.tccrB | Mask(CSn1), t.ocrA, value)
  {
    assert Mask(COMnB1) | Mask(WGMn0) | Mask(WGMn1) == 0x23;
    assert Mask(ComBit(ChannelB)) | WgmMaskA(id) == 0x23;
    assert MaskB(id) == Mask(CSn1);
  }

  /** An enabling write to channel A of Timer1: COM1A1|WGM10 ORed into
      TCCR1A, WGM12|CS11 into TCCR1B, and the value stored in OCR1A. */
  lemma EnableTimer1A(t: TimerRegs, value: u8)
    requires value != 0
    ensures WriteChannel(t, Timer1, ChannelA, value) ==
      TimerRegs(t.tccrA | (Mask(COMnA1) | Mask(WGMn0)), t.tccrB | (Mask(WGMn2) | Mask(CSn1)), value, t.ocrB)
  {
    assert Mask(COMnA1) | Mask(WGMn0) == 0x81;
    assert Mask(ComBit(ChannelA)) | WgmMaskA(Timer1) == 0x81;
    assert MaskB(Timer1) == Mask(WGMn2) | Mask(CSn1);
  }

  /** The same for channel B of Timer1 (COM1B1, OCR1B). */
  lemma EnableTimer1B(t: TimerRegs, value: u8)
    requires value != 0
    ensures WriteChannel(t, Timer1, ChannelB, value) ==
      TimerRegs(t.tccrA | (Mask(COMnB1) | Mask(WGMn0)), t.tccrB | (Mask(WGMn2) | Mask(CSn1)), t.ocrA, value)
  {
    assert Mask(COMnB1) | Mask(WGMn0) == 0x21;
    assert Mask(ComBit(ChannelB)) | WgmMaskA(Timer1) == 0x21;
    assert MaskB(Timer1) == Mask(WGMn2) | Mask(CSn1);
  }

  /** `__GPIOAnalogWrite__(pin, value)` on the timer registers. */
  function AnalogWrite(p: PwmRegs, pin: u8, value: u8): (r: PwmRegs)
    ensures OutputOf(pin).None? ==> r == p
  {
    match OutputOf(pin)
    case None => p
    case Some(Output(id, ch)) => Put(p, id, WriteChannel(Get(p, id), id, ch, value))
  }

  /** The write for each PWM pin, spelled out per timer. */
  lemma AnalogWriteByPin(p: PwmRegs, pin: u8, value: u8)
    ensures pin == D3 ==> AnalogWrite(p, pin, value) == p.(t2 := WriteChannel(p.t2, Timer2, ChannelB, value))
    ensures pin == D11 ==> AnalogWrite(p, pin, value) == p.(t2 := WriteChannel(p.t2, Timer2, ChannelA, value))
    ensures pin == D5 ==> AnalogWrite(p, pin, value) == p.(t0 := WriteChannel(p.t0, Timer0, ChannelB, value))
    ensures pin == D6 ==> AnalogWrite(p, pin, value) == p.(t0 := WriteChannel(p.t0, Timer0, ChannelA, value))
    ensures pin == D9 ==> AnalogWrite(p, pin, value) == p.(t1 := WriteChannel(p.t1, Timer1, ChannelA, value))
    ensures pin == D10 ==> AnalogWrite(p, pin, value) == p.(t1 := WriteChannel(p.t1, Timer1, ChannelB, value))
  {
  }

  /** Whether an output drives its pin (its COMnx1 bit is set). */
  predicate Enabled(p: PwmRegs, o: Output)
  {
    IsSet(Get(p, o.timer).tccrA, ComBit(o.channel))
  }

  function DutyOf(p: PwmRegs, o: Output): u16
  {
    Duty(Get(p, o.timer), o.channel)
  }

  /** The written output ends enabled with duty `value` exactly when `value`
      is non-zero, and disabled with duty 0 otherwise. */
  lemma AnalogWriteOwnOutput(p: PwmRegs, pin: u8, value: u8)
    requires pin in PwmPins
    ensures Enabled(AnalogWrite(p, pin, value), OutputOf(pin).value) == (value != 0)
    ensures DutyOf(AnalogWrite(p, pin, value), OutputOf(pin).value) == value
  {
  }

  /** On one timer, a write to one channel keeps the other channel's COM
      bit and duty. */
  lemma WriteChannelKeepsSibling(t: TimerRegs, id: TimerId, ch: Channel, value: u8, other: Channel)
    requires other != ch
    ensures IsSet(WriteChannel(t, id, ch, value).tccrA, ComBit(other)) == IsSet(t.tccrA, ComBit(other))
    ensures Duty(WriteChannel(t, id, ch, value), other) == Duty(t, other)
  {

  }

  /** Sibling isolation: a write to one pin never changes whether any other
      output is enabled, nor its duty, in particular the other channel of the
      same timer. */
  lemma AnalogWriteIsolation(p: PwmRegs, pin: u8, value: u8, o: Output)
    requires OutputOf(pin) != Some(o)
    ensures Enabled(AnalogWrite(p, pin, value), o) == Enabled(p, o)
    ensures DutyOf(AnalogWrite(p, pin, value), o) == DutyOf(p, o)
  {
    match OutputOf(pin)
    case None =>
    case Some(Output(id, ch)) =>
      if id == o.timer {
        WriteChannelKeepsSibling(Get(p, id), id, ch, value, o.channel);
      }
  }

  /** Disabling clears the output's COM bit and zeroes its compare register,
      and touches nothing else: every other bit of TCCRnA and all of TCCRnB
      keep their value. */
  lemma DisableClearsOnlyComBit(p: PwmRegs, pin: u8)
    requires pin in PwmPins
    ensures var o := OutputOf(pin).value;
      var after := Get(AnalogWrite(p, pin, 0), o.timer);
      !IsSet(after.tccrA, ComBit(o.channel)) && Duty(after, o.channel) == 0
    ensures var o := OutputOf(pin).value;
      var before := Get(p, o.timer);
      var after := Get(AnalogWrite(p, pin, 0), o.timer);
      after.tccrB == before.tccrB &&
      forall i | 0 <= i < 8 && i != ComBit(o.channel) :: IsSet(after.tccrA, i) == IsSet(before.tccrA, i)
  {
  }

  /** Enabling only ORs bits in: every bit set in TCCRnA or TCCRnB before is
      still set afterwards. */
  lemma EnableOnlySetsBits(p: PwmRegs, pin: u8, value: u8)
    requires pin in PwmPins && value != 0
    ensures var o := OutputOf(pin).value;
      var before := Get(p, o.timer);
      var after := Get(AnalogWrite(p, pin, value), o.timer);
      before.tccrA & after.tccrA == before.tccrA && before.tccrB & after.tccrB == before.tccrB
  {
  }

  /** Repeating the same write changes nothing further. */
  lemma AnalogWriteIdempotent(p: PwmRegs, pin: u8, value: u8)
    ensures AnalogWrite(AnalogWrite(p, pin, value), pin, value) == AnalogWrite(p, pin, value)
  {
  }

  /** Two replacements of timers: in either order when they differ, the
      later one wins when they coincide. */
  lemma PutPut(p: PwmRegs, i: TimerId, x: TimerRegs, j: TimerId, y: TimerRegs)
    ensures i != j ==> Put(Put(p, i, x), j, y) == Put(Put(p, j, y), i, x)
    ensures i == j ==> Put(Put(p, i, x), j, y) == Put(p, j, y)
  {
  }

  /** The TCCRnA updates of the two channels of one timer commute. */
  lemma WriteControlACommute(x: Byte, id: TimerId, v: u8, w: u8)
    ensures WriteControlA(WriteControlA(x, id, ChannelA, v), id, ChannelB, w)
         == WriteControlA(WriteControlA(x, id, ChannelB, w), id, ChannelA, v)
  {
    var m := WgmMaskA(id);
    if v == 0 && w == 0 {
      assert x & !Mask(COMnA1) & !Mask(COMnB1) == x & !Mask(COMnB1) & !Mask(COMnA1);
    } else if v == 0 {
      assert (x & !Mask(COMnA1)) | Mask(COMnB1) | m == (x | Mask(COMnB1) | m) & !Mask(COMnA1);
    } else if w == 0 {
      assert (x | Mask(COMnA1) | m) & !Mask(COMnB1) == (x & !Mask(COMnB1)) | Mask(COMnA1) | m;
    }
  }

  /** On one timer, writes to its two channels commute. */
  lemma WriteChannelsCommute(t: TimerRegs, id: TimerId, ca: Channel, v: u8, cb: Channel, w: u8)
    requires ca != cb
    ensures WriteChannel(WriteChannel(t, id, ca, v), id, cb, w) == WriteChannel(WriteChannel(t, id, cb, w), id, ca, v)
  {
    if ca == ChannelA {
      WriteControlACommute(t.tccrA, id, v, w);
    } else {
      WriteControlACommute(t.tccrA, id, w, v);
    }
  }

  /** Writes to two different pins commute: configuring one channel of a
      pair cannot depend on, or undo, what was done to the other. */
  lemma AnalogWritesCommute(p: PwmRegs, a: u8, v: u8, b: u8, w: u8)
    requires a != b
    ensures AnalogWrite(AnalogWrite(p, a, v), b, w) == AnalogWrite(AnalogWrite(p, b, w), a, v)
  {
    match (OutputOf(a), OutputOf(b))
    case (Some(Output(ia, ca)), Some(Output(ib, cb))) =>
      OutputPinRoundTrip(Output(ia, ca), a);
      OutputPinRoundTrip(Output(ib, cb), b);
      var xa := WriteChannel(Get(p, ia), ia, ca, v);
      var xb := WriteChannel(Get(p, ib), ib, cb, w);
      if ia == ib {
        assert ca != cb;
        WriteChannelsCommute(Get(p, ia), ia, ca, v, cb, w);
        PutPut(p, ia, xa, ib, WriteChannel(xa, ib, cb, w));
        PutPut(p, ib, xb, ia, WriteChannel(xb, ia, ca, v));
      } else {
        PutPut(p, ia, xa, ib, xb);
      }
    case _ =>
  }

  /** The timer registers after `__initTimers__` has run from the reset state
      (all zero): Timer0 counting at clk/64 in normal mode; Timer1 in CTC mode
      at clk/64 with OCR1A = 249, a compare match every millisecond; Timer2
      untouched. */
  function InitialTimers(): PwmRegs
  {
    PwmRegs(TimerRegs(0, Mask(CSn1) | Mask(CSn0), 0, 0),
            TimerRegs(0, Mask(WGMn2) | Mask(CSn1) | Mask(CSn0), 249, 0),
            TimerRegs(0, 0, 0, 0))
  }

  function Bit(r: Byte, b: nat): nat
    requires b < 8
  {
    if IsSet(r, b) then 1 else 0
  }

  /** The clock-select field CSn2:0: 0 stopped, 2 clk/8, 3 clk/64. */
  function ClockSelect(t: TimerRegs): nat
  {
    4 * Bit(t.tccrB, CSn2) + 2 * Bit(t.tccrB, CSn1) + Bit(t.tccrB, CSn0)
  }

  /** The waveform-generation mode WGMn3:0 (WGMn3 exists on Timer1 only):
      0 normal, 3 fast PWM, 4 CTC on OCR1A, 5 fast PWM 8-bit. */
  function WaveformMode(t: TimerRegs, id: TimerId): nat
  {
    (if id == Timer1 then 8 * Bit(t.tccrB, WGM13) else 0)
      + 4 * Bit(t.tccrB, WGMn2) + 2 * Bit(t.tccrA, WGMn1) + Bit(t.tccrA, WGMn0)
  }

  /** The start state of the timers used by the clock: Timer0 in normal mode
      at clk/64 (the base of `uptimeUs`), Timer1 in CTC mode at clk/64 with
      top 249 (the base of `uptimeMs`), Timer2 stopped. */
  lemma InitialTimersClocking()
    ensures ClockSelect(InitialTimers().t0) == 3 && WaveformMode(InitialTimers().t0, Timer0) == 0
    ensures ClockSelect(InitialTimers().t1) == 3 && WaveformMode(InitialTimers().t1, Timer1) == 4
    ensures InitialTimers().t1.ocrA == 249
    ensures ClockSelect(InitialTimers().t2) == 0
  {
  }

  /** An enabling write ORs CSn1 into a clock select that already holds
      CSn1|CSn0, and a disabling write leaves TCCRnB alone, so Timers 0 and 1
      keep counting at clk/64 whatever is written (the source's "Prescaler 8"
      comments notwithstanding). */
  lemma AnalogWriteKeepsClockSelect(p: PwmRegs, pin: u8, value: u8, id: TimerId)
    requires ClockSelect(Get(p, id)) == 3
    ensures ClockSelect(Get(AnalogWrite(p, pin, value), id)) == 3
  {
    match OutputOf(pin)
    case None =>
    case Some(Output(i, ch)) =>
      if i == id {
        var y := Get(p, id).tccrB;
        var y' := WriteControlB(y, id, value);
        assert IsSet(y, CSn0) && IsSet(y, CSn1) && !IsSet(y, CSn2);
        assert IsSet(y', CSn0) && IsSet(y', CSn1) && !IsSet(y', CSn2);
      }
  }

  /** Timer1 is the millisecond time base. An enabling write to D9 or D10
      moves it from CTC (mode 4) to 8-bit fast PWM (mode 5); a write to D9
      also replaces the 249 in OCR1A by the duty value. */
  lemma PwmOnTimer1TakesOverTimeBase(pin: u8, value: u8)
    requires pin == D9 || pin == D10
    ensures var t1 := AnalogWrite(InitialTimers(), pin, value).t1;
      (value != 0 ==> WaveformMode(t1, Timer1) == 5) &&
      (value == 0 ==> WaveformMode(t1, Timer1) == 4) &&
      ClockSelect(t1) == 3 &&
      (t1.ocrA == 249 <==> pin == D10 || value == 249)
  {
  }

  /** An enabling write to D5 or D6 moves Timer0, the microsecond time base,
      from normal mode to fast PWM; both count 0..255 and overflow every 256
      ticks at clk/64. */
  lemma PwmOnTimer0KeepsOverflowPeriod(pin: u8, value: u8)
    requires pin == D5 || pin == D6
    requires value != 0
    ensures var t0 := AnalogWrite(InitialTimers(), pin, value).t0;
      WaveformMode(t0, Timer0) == 3 && ClockSelect(t0) == 3
  {
  }

  /** Timer2 is started by its first enabling write, at clk/8. */
  lemma PwmOnTimer2StartsIt(pin: u8, value: u8)
    requires pin == D3 || pin == D11
    ensures var t2 := AnalogWrite(InitialTimers(), pin, value).t2;
      (value != 0 ==> WaveformMode(t2, Timer2) == 3 && ClockSelect(t2) == 2) &&
      (value == 0 ==> ClockSelect(t2) == 0)
  {
  }
}
