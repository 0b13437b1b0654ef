/** The library as it runs on the device: the register file of the
    ATmega328P that the library touches, the two interrupt-maintained
    counters, and every routine of the HAL as a method that updates them in
    place. What each routine computes is specified by the pure functions of
    Clock, Gpio, Pwm and Serial, whose properties are proved there. */
module AvrLite {
  import opened Bits
  import opened AvrLiteH
  import opened Gpio
  import opened Pwm
  import Clock
  import Serial

  // Interrupt-related bit positions
  const SREG_I: nat := 7   // global interrupt enable in SREG
  const TOV0: nat := 0     // Timer0 overflow flag in TIFR0
  const TOIE0: nat := 0    // Timer0 overflow interrupt enable in TIMSK0
  const OCIE1A: nat := 1   // Timer1 compare-A interrupt enable in TIMSK1

  // ADC and USART bit positions
  const ADSC: nat := 6     // start conversion, in ADCSRA
  const RXEN0: nat := 4    // receiver enable, in UCSR0B
  const TXEN0: nat := 3    // transmitter enable, in UCSR0B
  const UCSZ01: nat := 2   // character size, in UCSR0C
  const UCSZ00: nat := 1

  /** A 10-bit ADC conversion result. */
  type Adc = x: int | 0 <= x < 1024

  /** The microcontroller state the library reads and writes. The input
      registers (PINx, TCNT0, TIFR0) are changed by the hardware; a caller
      models that by assigning them between calls. */
  class Mcu {
    // `volatile unsigned long` counters bumped by the two interrupt handlers
    var timer0OverflowCount: u32
    var timer1OverflowCount: u32

    // Timer counters, flags and interrupt masks
    var tcnt0: u8
    var tcnt1: u16
    var tifr0: Byte
    var timsk0: Byte
    var timsk1: Byte
    var sreg: Byte

    // Timer control and compare registers, shared by the clock and PWM
    var tccr0a: Byte
    var tccr0b: Byte
    var tccr1a: Byte
    var tccr1b: Byte
    var tccr2a: Byte
    var tccr2b: Byte
    var ocr0a: u8
    var ocr0b: u8
    var ocr1a: u16
    var ocr1b: u16
    var ocr2a: u8
    var ocr2b: u8

    // GPIO ports
    var ddrb: Byte
    var ddrc: Byte
    var ddrd: Byte
    var portb: Byte
    var portc: Byte
    var portd: Byte
    var pinb: Byte
    var pinc: Byte
    var pind: Byte

    // ADC
    var admux: Byte
    var adcsra: Byte

    // USART0; the divisor registers are held as the numbers written to them
    var ubrr0h: u8
    var ubrr0l: u8
    var ucsr0b: Byte
    var ucsr0c: Byte
    /** Every byte written to UDR0, in order. */
    var tx: seq<char>

    function T0(): TimerRegs
      reads this
    {
      TimerRegs(tccr0a, tccr0b, ocr0a, ocr0b)
    }

    function T1(): TimerRegs
      reads this
    {
      TimerRegs(tccr1a, tccr1b, ocr1a, ocr1b)
    }

    function T2(): TimerRegs
      reads this
    {
      TimerRegs(tccr2a, tccr2b, ocr2a, ocr2b)
    }

    function Pwm(): PwmRegs
      reads this
    {
      PwmRegs(T0(), T1(), T2())
    }

    function Directions(): PortRegs
      reads this
    {
      PortRegs(ddrb, ddrc, ddrd)
    }

    function Outputs(): PortRegs
      reads this
    {
      PortRegs(portb, portc, portd)
    }

    function Inputs(): PortRegs
      reads this
    {
      PortRegs(pinb, pinc, pind)
    }

    /** Power-on reset (every register and global zero), followed by
        `__initTimers__`, which the compiler runs before `main`. */
    constructor ()
      ensures timer0OverflowCount == 0 && timer1OverflowCount == 0
      ensures tcnt0 == 0 && tcnt1 == 0 && tifr0 == 0
      ensures Pwm() == InitialTimers()
      ensures timsk0 == Mask(TOIE0) && timsk1 == Mask(OCIE1A)
      ensures IsSet(sreg, SREG_I)
      ensures Directions() == PortRegs(0, 0, 0) && Outputs() == PortRegs(0, 0, 0)
      ensures admux == 0 && adcsra == 0
      ensures ubrr0h == 0 && ubrr0l == 0 && ucsr0b == 0 && ucsr0c == 0
      ensures tx == []
    {
      timer0OverflowCount, timer1OverflowCount := 0, 0;
      tcnt0, tcnt1, tifr0, timsk0, timsk1, sreg := 0, 0, 0, 0, 0, 0;
      tccr0a, tccr0b, tccr1a, tccr1b, tccr2a, tccr2b := 0, 0, 0, 0, 0, 0;
      ocr0a, ocr0b, ocr1a, ocr1b, ocr2a, ocr2b := 0, 0, 0, 0, 0, 0;
      ddrb, ddrc, ddrd, portb, portc, portd, pinb, pinc, pind := 0, 0, 0, 0, 0, 0, 0, 0, 0;
      admux, adcsra := 0, 0;
      ubrr0h, ubrr0l, ucsr0b, ucsr0c := 0, 0, 0, 0;
      tx := [];
      new;
      InitTimers();
    }

    /** `__initTimers__()`: Timer0 counts at clk/64 in normal mode with its
        overflow interrupt on (the base of `uptimeUs`); Timer1 runs in CTC
        mode at clk/64 with OCR1A = 249, one compare-match interrupt per
        millisecond (the base of `uptimeMs`); global interrupts on. */
    method InitTimers()
      modifies this`tccr0a, this`tccr0b, this`tcnt0, this`timsk0
      modifies this`tccr1a, this`tccr1b, this`tcnt1, this`ocr1a, this`timsk1, this`sreg
      ensures tccr0a == 0 && tccr0b == Mask(CSn1) | Mask(CSn0) && tcnt0 == 0
      ensures tccr1a == 0 && tccr1b == Mask(WGMn2) | Mask(CSn1) | Mask(CSn0) && tcnt1 == 0 && ocr1a == 249
      ensures timsk0 == SetBit(old(timsk0), TOIE0) && timsk1 == SetBit(old(timsk1), OCIE1A)
      ensures sreg == SetBit(old(sreg), SREG_I)
    {
      tccr0a := 0;
      tccr0b := 0;
      tcnt0 := 0;
      tccr0b := tccr0b | (Mask(CSn1) | Mask(CSn0));
      timsk0 := timsk0 | Mask(TOIE0);

      tccr1a := 0;
      tccr1b := 0;
      tcnt1 := 0;
      ocr1a := 249;
      tccr1b := tccr1b | Mask(WGMn2);
      tccr1b := tccr1b | (Mask(CSn1) | Mask(CSn0));
      timsk1 := timsk1 | Mask(OCIE1A);

      sreg := SetBit(sreg, SREG_I);  // sei()
    }

    /** `ISR(TIMER0_OVF_vect)`: one more Timer0 overflow, in 32-bit arithmetic. */
    method Timer0OverflowIsr()
      modifies this`timer0OverflowCount
      ensures timer0OverflowCount == (old(timer0OverflowCount) + 1) % U32
    {
      timer0OverflowCount := (timer0OverflowCount + 1) % U32;
    }

    /** `ISR(TIMER1_COMPA_vect)`: one more Timer1 compare match (millisecond). */
    method Timer1CompareAIsr()
      modifies this`timer1OverflowCount
      ensures timer1OverflowCount == (old(timer1OverflowCount) + 1) % U32
    {
      timer1OverflowCount := (timer1OverflowCount + 1) % U32;
    }

    /** `uptimeMs()`: the millisecond count, read with interrupts disabled.
        The closing `sei()` leaves interrupts enabled even when they were
        disabled on entry. */
    method UptimeMs() returns (ms: u32)
      modifies this`sreg
      ensures ms == timer1OverflowCount
      ensures IsSet(sreg, SREG_I)
      ensures forall i | 0 <= i < 8 && i != SREG_I :: IsSet(sreg, i) == IsSet(old(sreg), i)
    {
      sreg := ClearBit(sreg, SREG_I);  // cli()
      ms := timer1OverflowCount;
      sreg := SetBit(sreg, SREG_I);    // sei()
    }

    /** `uptimeUs()`: the microsecond reading of `Clock.Micros` on the
        overflow count, TCNT0 and the pending TOV0 flag. The stored count is
        not corrected in place, and SREG is restored to its entry value. */
    method UptimeUs() returns (us: u32)
      modifies this`sreg
      ensures us == Clock.Micros(timer0OverflowCount, tcnt0, IsSet(tifr0, TOV0))
      ensures sreg == old(sreg)
    {
      var oldSreg := sreg;
      sreg := ClearBit(sreg, SREG_I);  // cli()
      var m := timer0OverflowCount;
      var t := tcnt0;
      if IsSet(tifr0, TOV0) && t < 255 {
        m := (m + 1) % U32;
      }
      sreg := oldSreg;
      us := ((m * 256) % U32 + t * Clock.MicrosPerTick) % U32;
    }

    /** A write confined to the DDRx registers leaves the output latches and
        the timers as they were. */
    twostate lemma OnlyDirectionsChanged()
      requires unchanged(this`portb, this`portc, this`portd)
      requires unchanged(this`tccr0a, this`tccr0b, this`ocr0a, this`ocr0b)
      requires unchanged(this`tccr1a, this`tccr1b, this`ocr1a, this`ocr1b)
      requires unchanged(this`tccr2a, this`tccr2b, this`ocr2a, this`ocr2b)
      ensures Outputs() == old(Outputs()) && Pwm() == old(Pwm())
    {
    }

    /** `GPIOInit(pin, mode)`: the pin's DDRx bit is set for OUTPUT and
        cleared for any other mode; the result is always 1. */
    method GpioInit(pin: u8, mode: u8) returns (r: int)
      modifies this`ddrb, this`ddrc, this`ddrd
      ensures r == 1
      ensures Directions() == UpdatePin(old(Directions()), pin, mode == OUTPUT)
      ensures Outputs() == old(Outputs()) && Pwm() == old(Pwm())
    {
      UpdatePinSpelledOut(Directions(), pin, mode == OUTPUT);
      if mode == OUTPUT {
        if pin <= 7 {
          ddrd := SetBit(ddrd, pin);
        } else if 8 <= pin <= 13 {
          ddrb := SetBit(ddrb, pin - 8);
        } else if 14 <= pin <= 19 {
          ddrc := SetBit(ddrc, pin - 14);
        }
      } else {
        if pin <= 7 {
          ddrd := ClearBit(ddrd, pin);
        } else if 8 <= pin <= 13 {
          ddrb := ClearBit(ddrb, pin - 8);
        } else if 14 <= pin <= 19 {
          ddrc := ClearBit(ddrc, pin - 14);
        }
      }
      OnlyDirectionsChanged();
      return 1;
    }

    /** `__GPIODigitalWrite__(pin, mode)`: HIGH sets and LOW clears the pin's
        PORTx bit; any other mode changes nothing. */
    method GpioDigitalWrite(pin: u8, mode: u8)
      modifies this`portb, this`portc, this`portd
      ensures mode == HIGH || mode == LOW ==> Outputs() == UpdatePin(old(Outputs()), pin, mode == HIGH)
      ensures mode != HIGH && mode != LOW ==> Outputs() == old(Outputs())
    {
      UpdatePinSpelledOut(Outputs(), pin, mode == HIGH);
      if mode == HIGH {
        if pin <= 7 {
          portd := SetBit(portd, pin);
        } else if 8 <= pin <= 13 {
          portb := SetBit(portb, pin - 8);
        } else if 14 <= pin <= 19 {
          portc := SetBit(portc, pin - 14);
        }
      } else if mode == LOW {
        if pin <= 7 {
          portd := ClearBit(portd, pin);
        } else if 8 <= pin <= 13 {
          portb := ClearBit(portb, pin - 8);
        } else if 14 <= pin <= 19 {
          portc := ClearBit(portc, pin - 14);
        }
      }
    }

    /** `__GPIOAnalogWrite__(pin, value)`: the timer registers change as
        `Pwm.AnalogWrite` says, and no others. The innermost branch for each
        pin is the method named after it. */
    method GpioAnalogWrite(pin: u8, value: u8)
      modifies this`tccr0a, this`tccr0b, this`ocr0a, this`ocr0b
      modifies this`tccr1a, this`tccr1b, this`ocr1a, this`ocr1b
      modifies this`tccr2a, this`tccr2b, this`ocr2a, this`ocr2b
      ensures Pwm() == AnalogWrite(old(Pwm()), pin, value)
    {
      AnalogWriteByPin(Pwm(), pin, value);
      if pin == D3 || pin == D11 {
        if pin == D3 {
          AnalogWriteD3(value);
        } else if pin == D11 {
          AnalogWriteD11(value);
        }
      } else if pin == D5 || pin == D6 {
        if pin == D5 {
          AnalogWriteD5(value);
        } else if pin == D6 {
          AnalogWriteD6(value);
        }
      } else if pin == D9 || pin == D10 {
        if pin == D9 {
          AnalogWriteD9(value);
        } else if pin == D10 {
          AnalogWriteD10(value);
        }
      }
    }

    /** The D3 branch: OC2B, channel B of Timer2. */
    method AnalogWriteD3(value: u8)
      modifies this`tccr2a, this`tccr2b, this`ocr2b
      ensures T2() == WriteChannel(old(T2()), Timer2, ChannelB, value)
    {
      if value == 0 {
        ChannelOffSpelledOut(T2(), Timer2, ChannelB);
        tccr2a := tccr2a & !Mask(COMnB1);
        ocr2b := 0;
      } else {
        EnableFastPwmB(T2(), Timer2, value);
        tccr2a := tccr2a | (Mask(COMnB1) | Mask(WGMn0) | Mask(WGMn1));
        tccr2b := tccr2b | Mask(CSn1);
        ocr2b := value;
      }
    }

    /** The D11 branch: OC2A, channel A of Timer2. */
    method AnalogWriteD11(value: u8)
      modifies this`tccr2a, this`tccr2b, this`ocr2a
      ensures T2() == WriteChannel(old(T2()), Timer2, ChannelA, value)
    {
      if value == 0 {
        ChannelOffSpelledOut(T2(), Timer2, ChannelA);
        tccr2a := tccr2a & !Mask(COMnA1);
        ocr2a := 0;
      } else {
        EnableFastPwmA(T2(), Timer2, value);
        tccr2a := tccr2a | (Mask(COMnA1) | Mask(WGMn0) | Mask(WGMn1));
        tccr2b := tccr2b | Mask(CSn1);
        ocr2a := value;
      }
    }

    /** The D5 branch: OC0B, channel B of Timer0. */
    method AnalogWriteD5(value: u8)
      modifies this`tccr0a, this`tccr0b, this`ocr0b
      ensures T0() == WriteChannel(old(T0()), Timer0, ChannelB, value)
    {
      if value == 0 {
        ChannelOffSpelledOut(T0(), Timer0, ChannelB);
        tccr0a := tccr0a & !Mask(COMnB1);
        ocr0b := 0;
      } else {
        EnableFastPwmB(T0(), Timer0, value);
        tccr0a := tccr0a | (Mask(COMnB1) | Mask(WGMn0) | Mask(WGMn1));
        tccr0b := tccr0b | Mask(CSn1);
        ocr0b := value;
      }
    }

    /** The D6 branch: OC0A, channel A of Timer0. */
    method AnalogWriteD6(value: u8)
      modifies this`tccr0a, this`tccr0b, this`ocr0a
      ensures T0() == WriteChannel(old(T0()), Timer0, ChannelA, value)
    {
      if value == 0 {
        ChannelOffSpelledOut(T0(), Timer0, ChannelA);
        tccr0a := tccr0a & !Mask(COMnA1);
        ocr0a := 0;
      } else {
        EnableFastPwmA(T0(), Timer0, value);
        tccr0a := tccr0a | (Mask(COMnA1) | Mask(WGMn0) | Mask(WGMn1));
        tccr0b := tccr0b | Mask(CSn1);
        ocr0a := value;
      }
    }

    /** The D9 branch: OC1A, channel A of Timer1. */
    method AnalogWriteD9(value: u8)
      modifies this`tccr1a, this`tccr1b, this`ocr1a
      ensures T1() == WriteChannel(old(T1()), Timer1, ChannelA, value)
    {
      if value == 0 {
        ChannelOffSpelledOut(T1(), Timer1, ChannelA);
        tccr1a := tccr1a & !Mask(COMnA1);
        ocr1a := 0;
      } else {
        EnableTimer1A(T1(), value);
        tccr1a := tccr1a | (Mask(COMnA1) | Mask(WGMn0));
        tccr1b := tccr1b | (Mask(WGMn2) | Mask(CSn1));
        ocr1a := value;
      }
    }

    /** The D10 branch: OC1B, channel B of Timer1. */
    method AnalogWriteD10(value: u8)
      modifies this`tccr1a, this`tccr1b, this`ocr1b
      ensures T1() == WriteChannel(old(T1()), Timer1, ChannelB, value)
    {
      if value == 0 {
        ChannelOffSpelledOut(T1(), Timer1, ChannelB);
        tccr1a := tccr1a & !Mask(COMnB1);
        ocr1b := 0;
      } else {
        EnableTimer1B(T1(), value);
        tccr1a := tccr1a | (Mask(COMnB1) | Mask(WGMn0));
        tccr1b := tccr1b | (Mask(WGMn2) | Mask(CSn1));
        ocr1b := value;
      }
    }

    /** `GPIOWrite(pin, mode, value)`: ANALOGWRITE drives PWM and returns
        `value`; HIGH or LOW drives the port bit and returns the mode; any
        other mode changes nothing and returns 0. */
    method GpioWrite(pin: u8, mode: u8, value: u8 := DefaultValue) returns (r: u8)
      modifies this`portb, this`portc, this`portd
      modifies this`tccr0a, this`tccr0b, this`ocr0a, this`ocr0b
      modifies this`tccr1a, this`tccr1b, this`ocr1a, this`ocr1b
      modifies this`tccr2a, this`tccr2b, this`ocr2a, this`ocr2b
      ensures mode == ANALOGWRITE ==>
        r == value && Pwm() == AnalogWrite(old(Pwm()), pin, value) && Outputs() == old(Outputs())
      ensures mode == HIGH || mode == LOW ==>
        r == mode && Pwm() == old(Pwm()) && Outputs() == UpdatePin(old(Outputs()), pin, mode == HIGH)
      ensures mode != ANALOGWRITE && mode != HIGH && mode != LOW ==>
        r == 0 && Pwm() == old(Pwm()) && Outputs() == old(Outputs())
      ensures Directions() == old(Directions())
    {
      if mode == ANALOGWRITE {
        GpioAnalogWrite(pin, value);
        return value;
      }
      if mode == HIGH || mode == LOW {
        GpioDigitalWrite(pin, mode);
        return mode;
      }
      return 0;
    }

    /** `GPIORead(pin, state)`. DIGITALREAD reports the pin's PINx bit.
        ANALOGREAD on A0..A5 selects the channel with the AVcc reference,
        starts a conversion and waits until the hardware clears ADSC again,
        then returns the conversion result `adc`. Anything else reads LOW and
        changes nothing. */
    method GpioRead(pin: u8, state: u8, adc: Adc) returns (r: int)
      modifies this`admux, this`adcsra
      ensures state == DIGITALREAD ==>
        r == DigitalLevel(pin, Inputs()) && admux == old(admux) && adcsra == old(adcsra)
      ensures state == ANALOGREAD && A0 <= pin <= A5 ==>
        r == adc && admux == AdmuxFor(pin) && adcsra == ClearBit(old(adcsra), ADSC)
      ensures state == ANALOGREAD && !(A0 <= pin <= A5) ==>
        r == LOW && admux == old(admux) && adcsra == old(adcsra)
      ensures state != DIGITALREAD && state != ANALOGREAD ==>
        r == LOW && admux == old(admux) && adcsra == old(adcsra)
      ensures Directions() == old(Directions()) && Outputs() == old(Outputs()) && Pwm() == old(Pwm())
    {
      if state == DIGITALREAD {
        if pin <= 7 {
          return if IsSet(pind, pin) then HIGH else LOW;
        } else if 8 <= pin <= 13 {
          return if IsSet(pinb, pin - 8) then HIGH else LOW;
        } else if 14 <= pin <= 19 {
          return if IsSet(pinc, pin - 14) then HIGH else LOW;
        }
        return LOW;
      }
      if state == ANALOGREAD {
        if A0 <= pin <= A5 {
          var adcPin := pin - A0;
          admux := Mask(REFS0) | AdcChannel(adcPin);
          adcsra := SetBit(adcsra, ADSC);
          // while (ADCSRA & (1 << ADSC)); ends once the conversion is
          // complete and the hardware has cleared ADSC
          adcsra := ClearBit(adcsra, ADSC);
          return adc;
        }
      }
      return LOW;
    }

    /** `GPIOControl(pin, mode, value)` for one of the seven mode codes:
        OUTPUT and INPUT configure the direction, DIGITALREAD and ANALOGREAD
        read, HIGH, LOW and ANALOGWRITE write. */
    method GpioControl(pin: u8, mode: u8, adc: Adc, value: u8 := DefaultValue) returns (r: int)
      requires IsModeCode(mode)
      modifies this`ddrb, this`ddrc, this`ddrd, this`portb, this`portc, this`portd
      modifies this`tccr0a, this`tccr0b, this`ocr0a, this`ocr0b
      modifies this`tccr1a, this`tccr1b, this`ocr1a, this`ocr1b
      modifies this`tccr2a, this`tccr2b, this`ocr2a, this`ocr2b
      modifies this`admux, this`adcsra
      ensures mode == OUTPUT || mode == INPUT ==>
        r == 1 && Directions() == UpdatePin(old(Directions()), pin, mode == OUTPUT) &&
        Outputs() == old(Outputs()) && Pwm() == old(Pwm())
      ensures mode == DIGITALREAD ==> r == DigitalLevel(pin, Inputs())
      ensures mode == ANALOGREAD ==> r == if A0 <= pin <= A5 then adc else LOW
      ensures mode == DIGITALREAD || mode == ANALOGREAD ==>
        Directions() == old(Directions()) && Outputs() == old(Outputs()) && Pwm() == old(Pwm())
      ensures mode == HIGH || mode == LOW ==>
        r == mode && Outputs() == UpdatePin(old(Outputs()), pin, mode == HIGH) && Pwm() == old(Pwm())
      ensures mode == ANALOGWRITE ==>
        r == value && Pwm() == AnalogWrite(old(Pwm()), pin, value) && Outputs() == old(Outputs())
      ensures mode == ANALOGREAD && A0 <= pin <= A5 ==> admux == AdmuxFor(pin) && adcsra == ClearBit(old(adcsra), ADSC)
      ensures !(mode == ANALOGREAD && A0 <= pin <= A5) ==> admux == old(admux) && adcsra == old(adcsra)
      ensures mode != OUTPUT && mode != INPUT ==> Directions() == old(Directions())
    {
      if mode == OUTPUT || mode == INPUT {
        r := GpioInit(pin, mode);
        return;
      }
      if mode == DIGITALREAD || mode == ANALOGREAD {
        r := GpioRead(pin, mode, adc);
        return;
      }
      if mode == HIGH || mode == LOW || mode == ANALOGWRITE {
        var w := GpioWrite(pin, mode, value);
        r := w;
        return;
      }
      // the remaining codes are not mode codes
      assert false;
    }

    /** `Serial_begin(baud)`: the divisor `F_CPU/16/baud - 1` split over
        UBRR0H:UBRR0L, receiver and transmitter on, 8-bit frames. */
    method SerialBegin(baud: u32)
      requires baud > 0
      modifies this`ubrr0h, this`ubrr0l, this`ucsr0b, this`ucsr0c
      ensures 256 * ubrr0h + ubrr0l == Serial.Ubrr(baud) % 0x1_0000
      ensures ucsr0b == Mask(RXEN0) | Mask(TXEN0)
      ensures ucsr0c == Mask(UCSZ01) | Mask(UCSZ00)
    {
      var ubrr := Serial.Ubrr(baud);
      ubrr0h := Serial.HighByte(ubrr);
      ubrr0l := Serial.LowByte(ubrr);
      ucsr0b := Mask(RXEN0) | Mask(TXEN0);
      ucsr0c := Mask(UCSZ01) | Mask(UCSZ00);
      Serial.UbrrBytesRecombine(ubrr);
    }

    /** `Serial_write(str)`: the character `str` points at goes to UDR0 (the
        terminator when the string is empty). */
    method SerialWrite(str: seq<char>)
      modifies this`tx
      ensures tx == old(tx) + [if str == [] then Serial.NUL else str[0]]
    {
      tx := tx + [if str == [] then Serial.NUL else str[0]];
    }

    /** `Serial_print(str)`: walks the string up to its NUL (or its end),
        sending `'\r'` before each `'\n'`. */
    method SerialPrint(str: seq<char>)
      modifies this`tx
      ensures tx == old(tx) + Serial.Transmitted(Serial.CString(str))
    {
      var i := 0;
      while i < |str| && str[i] != Serial.NUL
        invariant 0 <= i <= |str|
        invariant Serial.NUL !in str[..i]
        invariant tx == old(tx) + Serial.Transmitted(str[..i])
      {
        if str[i] == '\n' {
          SerialWrite("\r");
        }
        SerialWrite(str[i..]);
        Serial.TransmittedOne(str[i]);
        Serial.TransmittedAppend(str[..i], [str[i]]);
        assert str[..i + 1] == str[..i] + [str[i]];
        i := i + 1;
      }
      Serial.CStringUpTo(str, i);
    }

    /** `Serial_println(str)`: the string, then `"\r\n"`. */
    method SerialPrintln(str: seq<char> := DefaultLine)
      modifies this`tx
      ensures tx == old(tx) + Serial.Transmitted(Serial.CString(str)) + ['\r', '\n']
    {
      SerialPrint(str);
      SerialPrint("\n");
      assert Serial.CString("\n") == "\n";
      Serial.TransmittedOne('\n');
    }
  }
}
