# AVRLite in Dafny

AVRLite is a small hardware-abstraction layer for the ATmega328P (an Arduino
Uno class board) with these parts:

- a millisecond and a microsecond clock, kept by two interrupt handlers;
- busy-wait sleeps;
- pin configuration, digital and PWM writes, and digital and analog reads,
  all reached through `GPIOControl`;
- a polled serial transmitter.

This project models that library and three of its example programs, and
proves properties of the model.

Structure:

- `Bits` has the 8-bit register type, bit masks, and the unsigned widths
  `uint8_t`, `uint16_t` and `unsigned long` (32 bits).
- `AvrLiteH` has the header's constants: the mode codes, the pin numbers and
  the default arguments. It also has `Call`, one library call as the example
  programs make it.
- `Gpio`, `Pwm`, `Clock` and `Serial` specify each routine as pure functions
  over register values, with their laws proved:
  - `Gpio`: pin-to-port mapping, read back, commutation and idempotence;
  - `Pwm`: isolation of the six PWM outputs, commutation, and what a write
    does to the timers the clock relies on;
  - `Clock`: the closed form of the microsecond reading and its steps, and
    the justification of every `sleep` step;
  - `Serial`: CR/LF translation, its round trip, and the baud divisor.
- `AvrLite.Mcu` is the device. It holds the registers and the two
  `volatile` counters as fields. The interrupt handlers, `uptimeMs`,
  `uptimeUs` and the GPIO and serial routines are methods that update them
  in place. The constructor is the reset state followed by `__initTimers__`.
- `sleep` and `sleepMicroseconds` are not `Mcu` methods. They are
  `Clock.Sleep` and `Clock.SleepMicroseconds`: busy-wait loops that change
  no register. `Clock.Sleep` sees the clock only through the sequence of
  values its calls of `uptimeUs` return.
- `Sketch` holds what the examples share:
  - the setup loop;
  - the fade loops;
  - the bouncing mode counter of examples 3 and 5, with its closed form.
- `Example3`, `Example4` and `Example5` model one `main` each. A program is
  modelled by the sequence of library calls it makes. `Run(passes)` performs
  the first `passes` passes of the endless loop. It is proved to produce
  exactly `Trace(passes)` and the mode state the closed form predicts.

## Model

| member | source | states |
|---|---|---|
| AvrLiteH.ModeCodesDistinct | include/AVRLite.h:11-22 | the seven mode codes are pairwise distinct, 4 is not one of them, and `IsModeCode` holds exactly for them |
| AvrLiteH.PinNumbering | include/AVRLite.h:24-46 | D0..D13 are the numbers 0..13 and A0..A5 are 14..19 |
| AvrLiteH.PwmPinsAreDigital | example/include/AVRLite.cpp:126-190 | the pins with a PWM branch are D3, D5, D6, D9, D10 and D11, all digital pins |
| Gpio.PinLocation | example/include/AVRLite.cpp:93-95 | a pin has a port bit exactly when it is at most 19: 0..7 on PORTD, 8..13 on PORTB, 14..19 on PORTC; the location maps back to the pin |
| Gpio.PinLocationInverse | example/include/AVRLite.cpp:93-95 | every valid port bit belongs to exactly one pin in 0..19 |
| Gpio.AnalogPinsArePortC | example/include/AVRLite.cpp:95 | A0..A5 are bits 0..5 of port C |
| Gpio.UpdatePinBit | example/include/AVRLite.cpp:113-120 | one register of the `|=` / `&= ~` branches: sets (HIGH) or clears (LOW) the pin's bit when the pin belongs to that port, and leaves the register alone otherwise |
| Gpio.UpdatePin | example/include/AVRLite.cpp:111-122 | the pin's update applied to each of the three port registers (PORTD for 0..7, PORTB for 8..13, PORTC for 14..19) |
| Gpio.UpdatePinSpelledOut | example/include/AVRLite.cpp:113-120 | a pin update is the source's per-port branch: for 0..7 it sets or clears bit `pin` of PORTD, for 8..13 bit `pin - 8` of PORTB, for 14..19 bit `pin - 14` of PORTC, each leaving the other two registers alone; above 19 nothing changes |
| Gpio.UpdatePinBitIdempotent | example/include/AVRLite.cpp:113-120 | setting or clearing a bit twice is the same as once |
| Gpio.UpdatePinOnlyItsBit | example/include/AVRLite.cpp:113-120 | a pin update changes its own port bit to the requested level and no other bit of any port |
| Gpio.UpdateUnmappedPin | example/include/AVRLite.cpp:93-95 | an update of a pin above 19 changes nothing |
| Gpio.UpdatePinsCommute | example/include/AVRLite.cpp:111-122 | updates of two different pins commute |
| Gpio.UpdatePinIdempotent | example/include/AVRLite.cpp:111-122 | updating a pin twice to the same level is the same as once |
| Gpio.DigitalLevel | example/include/AVRLite.cpp:209-217 | a digital read is LOW or HIGH, and HIGH exactly when the pin is mapped and its PINx bit is set |
| Gpio.ReadBackUpdatedPin | example/include/AVRLite.cpp:111-122 | the pin map used for writing (PORTx) and the one used for reading (PINx) agree: `DigitalLevel` applied to the same port values after `UpdatePin` gives the level written. This is a statement about the two maps on one set of port values, not a round trip on the device, where PINx is driven by the pin itself |
| Gpio.ReadOtherPinUnchanged | example/include/AVRLite.cpp:111-122 | updating one pin does not change what another pin reads |
| Gpio.AdmuxFor | example/include/AVRLite.cpp:220-222 | ADMUX selects the AVcc reference (REFS0), its low three bits are the channel `pin - A0`, and every other bit is clear |
| Pwm.Put | example/include/AVRLite.cpp:125-192 | replacing one timer's registers leaves the other timers unchanged |
| Pwm.OutputOf | example/include/AVRLite.cpp:126-190 | a pin drives a PWM output exactly when it is one of the six PWM pins |
| Pwm.OutputPinRoundTrip | example/include/AVRLite.cpp:126-190 | mapping pins to outputs (OC2B, OC2A, OC0B, OC0A, OC1A, OC1B) and back is the identity in both directions |
| Pwm.WithDuty | example/include/AVRLite.cpp:130-188 | the channel's compare register holds the new duty value; the other channel's compare register and both control registers are unchanged |
| Pwm.WriteControlA | example/include/AVRLite.cpp:129-186 | the TCCRnA update of one branch: clear COMnx1 for 0, otherwise set COMnx1 and the fast-PWM WGM bits (WGMn0 and WGMn1, or only WGMn0 on Timer1) |
| Pwm.WriteControlB | example/include/AVRLite.cpp:133-187 | the TCCRnB update of one branch: unchanged for 0, otherwise CSn1 is set, and WGMn2 too on Timer1 |
| Pwm.WriteChannel | example/include/AVRLite.cpp:128-189 | one innermost branch of `__GPIOAnalogWrite__`: both control updates, then the compare register set to the value (0 when disabling) through `WithDuty` |
| Pwm.ChannelOffSpelledOut | example/include/AVRLite.cpp:128-130 | a zero write (each of the six `value == 0` branches) clears only COMnA1 or COMnB1 in TCCRnA, keeps TCCRnB and the sibling compare register, and sets the channel's compare register to 0 |
| Pwm.EnableFastPwmA | example/include/AVRLite.cpp:141-144 | on Timers 0 and 2, a nonzero channel-A write ORs 0x83 (COMnA1, WGMn1, WGMn0) into TCCRnA, sets CSn1 in TCCRnB and stores the value in OCRnA |
| Pwm.EnableFastPwmB | example/include/AVRLite.cpp:131-134 | on Timers 0 and 2, a nonzero channel-B write ORs 0x23 (COMnB1, WGMn1, WGMn0) into TCCRnA, sets CSn1 in TCCRnB and stores the value in OCRnB |
| Pwm.EnableTimer1A | example/include/AVRLite.cpp:175-178 | a nonzero D9 write ORs COM1A1 and WGM10 into TCCR1A, WGM12 and CS11 into TCCR1B, and stores the value in OCR1A |
| Pwm.EnableTimer1B | example/include/AVRLite.cpp:185-188 | a nonzero D10 write ORs COM1B1 and WGM10 into TCCR1A, WGM12 and CS11 into TCCR1B, and stores the value in OCR1B |
| Pwm.InitialTimers | example/include/AVRLite.cpp:16-41 | the timer registers `__initTimers__` leaves: TCCR0B = CS01 and CS00, TCCR1B = WGM12, CS11 and CS10, OCR1A = 249, all else 0 |
| Pwm.AnalogWrite | example/include/AVRLite.cpp:125-192 | a write to a pin without PWM changes no register |
| Pwm.AnalogWriteByPin | example/include/AVRLite.cpp:126-190 | each of the six pins writes exactly its own timer and channel (D3 Timer2 B, D11 Timer2 A, D5 Timer0 B, D6 Timer0 A, D9 Timer1 A, D10 Timer1 B) |
| Pwm.AnalogWriteOwnOutput | example/include/AVRLite.cpp:128-188 | after a write, the pin's output is enabled exactly when the value is nonzero and its duty register holds the value (0 when disabled) |
| Pwm.WriteChannelKeepsSibling | example/include/AVRLite.cpp:129-186 | writing one channel leaves the sibling channel's enable bit and duty register alone |
| Pwm.AnalogWriteIsolation | example/include/AVRLite.cpp:125-192 | a write never changes the enable bit or duty of any other output |
| Pwm.DisableClearsOnlyComBit | example/include/AVRLite.cpp:128-189 | writing 0 clears only the output's COM bit in TCCRnA, zeroes its compare register and leaves TCCRnB unchanged |
| Pwm.EnableOnlySetsBits | example/include/AVRLite.cpp:131-188 | a nonzero write only sets bits in TCCRnA and TCCRnB and never clears one |
| Pwm.AnalogWriteIdempotent | example/include/AVRLite.cpp:125-192 | writing the same value to a pin twice is the same as once |
| Pwm.PutPut | example/include/AVRLite.cpp:125-192 | updates of different timers commute, and a second update of the same timer overrides the first |
| Pwm.WriteControlACommute | example/include/AVRLite.cpp:129-186 | the TCCRnA updates of channel A and channel B of a timer commute |
| Pwm.WriteChannelsCommute | example/include/AVRLite.cpp:128-189 | writes to the two channels of a timer commute |
| Pwm.AnalogWritesCommute | example/include/AVRLite.cpp:125-192 | analog writes to two different pins commute |
| Pwm.InitialTimersClocking | example/include/AVRLite.cpp:16-41 | after start-up Timer0 runs in normal mode at clk/64, Timer1 in CTC mode at clk/64 with top 249, and Timer2 is stopped |
| Pwm.AnalogWriteKeepsClockSelect | example/include/AVRLite.cpp:133-187 | a timer counting at clk/64 still counts at clk/64 after any analog write: the "Prescaler 8" writes OR into CS bits already set |
| Pwm.PwmOnTimer1TakesOverTimeBase | example/include/AVRLite.cpp:171-188 | from the start-up state, a nonzero write to D9 or D10 moves Timer1 from CTC (mode 4) to 8-bit fast PWM (mode 5), and a write to D9 replaces OCR1A = 249 unless the value is 249 |
| Pwm.PwmOnTimer0KeepsOverflowPeriod | example/include/AVRLite.cpp:149-167 | a nonzero write to D5 or D6 puts Timer0 in fast PWM at clk/64, which still overflows every 256 ticks |
| Pwm.PwmOnTimer2StartsIt | example/include/AVRLite.cpp:127-145 | a nonzero write to D3 or D11 starts Timer2 in fast PWM at clk/8; a zero write leaves it stopped |
| Clock.Micros | example/include/AVRLite.cpp:54-67 | the value `uptimeUs` returns as written, `(m << 8) + t * 4` in `unsigned long` arithmetic on the corrected overflow count |
| Clock.CorrectedOverflows | example/include/AVRLite.cpp:59-62 | the overflow count is incremented (with 32-bit wrap) exactly when an overflow is pending and TCNT0 is below 255 |
| Clock.MicrosClosedForm | example/include/AVRLite.cpp:54-67 | the conversion as written, `(m << 8) + t * 4`, is `256·m + 4·t` modulo 2^32 on the corrected count `m` |
| Clock.PendingOverflowCounted | example/include/AVRLite.cpp:61-62 | with an overflow pending, the reading equals the one with the count already incremented |
| Clock.UncorrectedReadingIsBehind | example/include/AVRLite.cpp:61-62 | without the correction the reading would be exactly 256 µs behind |
| Clock.MicrosTickStep | example/include/AVRLite.cpp:66 | one Timer0 tick within an overflow period advances the reading by 4 µs |
| Clock.MicrosOverflowStep | example/include/AVRLite.cpp:66 | across an overflow (TCNT0 255, then count+1 with TCNT0 0) the reading moves back by 764 µs |
| Clock.MicrosNotMonotone | example/include/AVRLite.cpp:66 | as written, count 0 with TCNT0 255 reads 1020 and the next tick reads 256 |
| Clock.IntendedMicros | example/include/AVRLite.cpp:66 | the evidently intended conversion `((m << 8) + t) * 4` in `unsigned long` arithmetic |
| Clock.IntendedClosedForm | example/include/AVRLite.cpp:66 | the intended `((m << 8) + t) · 4` is `1024·m + 4·t` modulo 2^32 |
| Clock.IntendedMicrosStep | example/include/AVRLite.cpp:66 | the intended reading advances by exactly 4 µs on every tick, including across an overflow |
| Clock.WindowAdvance | example/include/AVRLite.cpp:77 | each `start += 1000` moves the window start by 1000 in 32-bit arithmetic |
| Clock.StepsJustifiedExtend | example/include/AVRLite.cpp:74-78 | a reading at least 1000 µs past the current window start justifies one more step |
| Clock.NoStepMissedStep | example/include/AVRLite.cpp:74-78 | a step closes the current gap of passed-over readings and opens an empty one |
| Clock.NoStepMissedSkip | example/include/AVRLite.cpp:74 | a reading less than 1000 µs past the current window start joins the current gap |
| Clock.ProgressStep | example/include/AVRLite.cpp:74-78 | a step on the next reading (`ms--`, `start += 1000`) keeps `start` at the window start and every step justified with no qualifying reading passed over |
| Clock.ProgressSkip | example/include/AVRLite.cpp:74 | passing over a reading that is not far enough keeps the same facts |
| Clock.CatchUp | example/include/AVRLite.cpp:74-78 | the inner loop moves time from `ms` to the steps taken and keeps `start` at first reading + 1000·steps. It takes a step on a reading if and only if that reading is at least 1000 µs past the window start: each step's reading qualifies, and each consumed reading that gave no step does not. It stops right after the last step when `ms` reaches 0, and after a non-qualifying reading otherwise |
| Clock.Sleep | example/include/AVRLite.cpp:70-80 | `sleep(ms)` takes at most `ms` steps, all `ms` when it returns. Step j is taken on a reading at least 1000 µs past the j-th window start, the readings come in order, and every other consumed reading is less than 1000 µs past the window start of its gap. It returns right after the reading that gave the last step; `sleep(0)` reads the clock once and returns |
| Clock.SleepStepsEarlyAtOverflow | example/include/AVRLite.cpp:66-77 | the early case: started at reading 1020 (one tick before the first overflow), `sleep(1)` takes its step on the next reading, 256, which is 2^32 - 764 µs past `start` in unsigned arithmetic, although only one 4 µs tick has passed |
| Clock.MicrosFirstPeriods | example/include/AVRLite.cpp:66 | in the first two overflow periods the reading as written is 256·m + 4·t, with no wrap |
| Clock.TicksFrom25 | example/include/AVRLite.cpp:54-67 | the 443 readings `uptimeUs` returns on successive Timer0 ticks from count 0, TCNT0 25 to count 1, TCNT0 211 |
| Clock.SleepStepsLateAcrossOverflow | example/include/AVRLite.cpp:66-77 | the late case: started at reading 100 (count 0, TCNT0 25), `sleep(1)` passes over every reading up to 1096 and takes its step on the reading 442 ticks (1768 µs) later, while the intended clock is exactly 1000 µs past the start 250 ticks later |
| Clock.SleepMicroseconds | example/include/AVRLite.cpp:83-88 | `sleepMicroseconds(us)` performs exactly `us` one-microsecond delays |
| Serial.Translate | example/include/AVRLite.cpp:263-267 | the bytes sent for one character: `"\r\n"` for `'\n'`, the character alone otherwise |
| Serial.Transmitted | example/include/AVRLite.cpp:261-270 | the bytes `Serial_print` sends for a NUL-free string: each character, with `'\r'` in front of each `'\n'` |
| Serial.CString | example/include/AVRLite.cpp:262 | the string walked is the longest NUL-free prefix, ending at the first NUL |
| Serial.TransmittedLength | example/include/AVRLite.cpp:261-270 | the bytes sent are the string's characters plus one per newline |
| Serial.TransmittedAppend | example/include/AVRLite.cpp:261-270 | printing two strings one after the other sends what printing their concatenation sends |
| Serial.CarriageReturnBeforeEveryNewline | example/include/AVRLite.cpp:263-266 | every `'\n'` sent is immediately preceded by `'\r'` |
| Serial.TransmittedHead | example/include/AVRLite.cpp:263-267 | the first byte sent is never `'\n'` |
| Serial.TransmittedRoundTrip | example/include/AVRLite.cpp:261-270 | dropping the `'\r'` in front of each `'\n'` restores the printed string |
| Serial.Ubrr | example/include/AVRLite.cpp:244 | `F_CPU / 16 / baud - 1` in `unsigned long` arithmetic |
| Serial.HighByte | example/include/AVRLite.cpp:246 | `(unsigned char)(ubrr >> 8)` |
| Serial.LowByte | example/include/AVRLite.cpp:247 | `(unsigned char)ubrr` |
| Serial.UbrrRange | example/include/AVRLite.cpp:244 | the divisor is `1000000/baud - 1` for baud up to 1000000 and wraps to 2^32 - 1 above it |
| Serial.UbrrCommonRates | example/include/AVRLite.cpp:244 | 9600 baud gives divisor 103 and 115200 gives 7 |
| Serial.UbrrBytesRecombine | example/include/AVRLite.cpp:246-247 | UBRR0H:UBRR0L recombine to the divisor modulo 2^16 |
| AvrLite.Mcu.constructor | example/include/AVRLite.cpp:16-41 | start-up: counters and counts zero, timers in the start-up state, both timer interrupts enabled, global interrupts on, ports, ADC and USART at reset values |
| AvrLite.Mcu.InitTimers | example/include/AVRLite.cpp:16-41 | Timer0 at clk/64 in normal mode, Timer1 in CTC at clk/64 with OCR1A = 249, the TOIE0 and OCIE1A enables set and the I bit set, other bits kept |
| AvrLite.Mcu.Timer0OverflowIsr | example/include/AVRLite.cpp:4-7 | the Timer0 overflow count goes up by one, wrapping at 2^32 |
| AvrLite.Mcu.Timer1CompareAIsr | example/include/AVRLite.cpp:10-13 | the millisecond count goes up by one, wrapping at 2^32 |
| AvrLite.Mcu.UptimeMs | example/include/AVRLite.cpp:44-51 | returns the millisecond count and leaves interrupts enabled, every other SREG bit as it was |
| AvrLite.Mcu.UptimeUs | example/include/AVRLite.cpp:54-67 | returns `Clock.Micros` of the overflow count, TCNT0 and the pending TOV0 flag: the conversion as written, on a count one higher when TOV0 is pending and TCNT0 is below 255; restores SREG |
| AvrLite.Mcu.GpioInit | example/include/AVRLite.cpp:91-108 | returns 1; the pin's DDRx bit is set for OUTPUT and cleared for any other mode; latches and timers are unchanged |
| AvrLite.Mcu.GpioDigitalWrite | example/include/AVRLite.cpp:111-122 | HIGH sets and LOW clears the pin's PORTx bit; any other mode changes nothing |
| AvrLite.Mcu.GpioAnalogWrite | example/include/AVRLite.cpp:125-192 | the timer registers become `Pwm.AnalogWrite` of the old ones |
| AvrLite.Mcu.AnalogWriteD3 | example/include/AVRLite.cpp:127-136 | Timer2 becomes its channel-B write of the value |
| AvrLite.Mcu.AnalogWriteD11 | example/include/AVRLite.cpp:137-146 | Timer2 becomes its channel-A write of the value |
| AvrLite.Mcu.AnalogWriteD5 | example/include/AVRLite.cpp:149-158 | Timer0 becomes its channel-B write of the value |
| AvrLite.Mcu.AnalogWriteD6 | example/include/AVRLite.cpp:159-168 | Timer0 becomes its channel-A write of the value |
| AvrLite.Mcu.AnalogWriteD9 | example/include/AVRLite.cpp:171-180 | Timer1 becomes its channel-A write of the value |
| AvrLite.Mcu.AnalogWriteD10 | example/include/AVRLite.cpp:181-190 | Timer1 becomes its channel-B write of the value |
| AvrLite.Mcu.GpioWrite | example/include/AVRLite.cpp:194-205 | ANALOGWRITE writes PWM and returns the value; HIGH/LOW update the latch and return the mode; anything else changes nothing and returns 0; directions never change |
| AvrLite.Mcu.GpioRead | example/include/AVRLite.cpp:208-230 | DIGITALREAD returns the pin's level; ANALOGREAD on A0..A5 programs ADMUX, runs a conversion and returns its result; every other case returns LOW; ports and timers are untouched |
| AvrLite.Mcu.GpioControl | example/include/AVRLite.cpp:233-240 | dispatches each of the seven mode codes to configure, read or write, with each case's result and effect: ANALOGREAD on A0..A5 programs ADMUX for the pin and leaves ADSC clear; ADMUX and ADCSRA are unchanged in every other case |
| AvrLite.Mcu.SerialBegin | example/include/AVRLite.cpp:243-252 | UBRR0H:UBRR0L hold the divisor modulo 2^16, receiver and transmitter are enabled, frames are 8 bits |
| AvrLite.Mcu.SerialWrite | example/include/AVRLite.cpp:255-258 | exactly the first character of the string is sent |
| AvrLite.Mcu.SerialPrint | example/include/AVRLite.cpp:261-270 | sends the string up to its NUL with a `'\r'` before each `'\n'` |
| AvrLite.Mcu.SerialPrintln | example/include/AVRLite.cpp:273-276 | sends the string as `SerialPrint` does, then `"\r\n"`; the default argument is the empty string |
| Sketch.SetupCalls | example/src/example3.cpp:16-18 | the calls of the setup loop: `GPIOControl(LED[i], OUTPUT)` for each LED in order |
| Sketch.SetupCallsSpec | example/src/example3.cpp:16-18 | setup makes one `GPIOControl(LED[i], OUTPUT)` per LED, in order, with the default value 0 |
| Sketch.Setup | example/src/example4.cpp:17-19 | the setup loop produces exactly those calls |
| Sketch.FadeUp | example/src/example4.cpp:32-35 | the levels of the up loop, `brightness = 0; brightness <= 255; brightness += 5` |
| Sketch.FadeDown | example/src/example4.cpp:36-39 | the levels of the down loop, `brightness = 255; brightness >= 0; brightness -= 5` |
| Sketch.FadeCalls | example/src/example4.cpp:32-39 | the calls of the two brightness loops for one LED: the up ramp's writes and sleeps, then the down ramp's |
| Sketch.FadeAllCalls | example/src/example4.cpp:30-40 | the calls of the LED `for` loop: one fade of each LED, in order |
| Sketch.Writes | example/src/example4.cpp:32-39 | the calls of one fade loop: `GPIOWrite(pin, ANALOGWRITE, level)` then `sleep(delay)` per level |
| Sketch.FadeRamps | example/src/example4.cpp:32-39 | the up ramp is 0, 5, ..., 255 (52 levels), and the down ramp is the same levels in reverse |
| Sketch.WritesSpec | example/src/example4.cpp:32-39 | each level produces an analog write of that level followed by a sleep of the pass delay |
| Sketch.Fade | example/src/example5.cpp:34-41 | the two brightness loops on `int16_t` produce the up ramp's writes, then the down ramp's, each followed by its sleep |
| Sketch.FadeAll | example/src/example4.cpp:30-40 | the LED loop fades each LED in turn |
| Sketch.BounceStep | example/src/example5.cpp:45-63 | one pass keeps the invariant; the mode changes exactly on the fifth pass of a period; it then moves one step in the current direction, turning at the last mode and at 0 |
| Sketch.BounceUpdate | example/src/example3.cpp:34-52 | the counter and mode update in the loop body computes `BounceStep` |
| Sketch.BounceAfter | example/src/example3.cpp:21-23 | every reachable state satisfies the invariant (counter below the period, mode between 0 and the last mode, direction pointing inwards) |
| Sketch.BounceStepWave | example/src/example5.cpp:45-63 | from a state at step k of the walk, one pass stays at step k or, on the fifth pass, moves to step k + 1 |
| Sketch.PeriodsAfter | example/src/example5.cpp:45-49 | the number of completed mode periods and the counter after n passes, counted pass by pass; the counter is below the period |
| Sketch.PeriodsAfterDivMod | example/src/example5.cpp:45-49 | that count is `(n / period, n % period)` |
| Sketch.BounceAfterPeriods | example/src/example5.cpp:45-63 | after n passes the counter and the mode state are those of the completed-period count |
| Sketch.BounceClosedForm | example/src/example5.cpp:24-64 | after n passes the counter is n mod period and the mode is step n / period of the walk 0, 1, ..., last, ..., 1, 0, ... |
| Sketch.BounceModeChanges | example/src/example5.cpp:45-63 | the mode changes on pass n + 1 exactly when n + 1 is a multiple of the period |
| Example3.LedsAreAnalogPins | example/src/example3.cpp:12 | the LED pins 14, 15 and 16 are A0, A1 and A2 |
| Example3.BlinkCalls | example/src/example3.cpp:27-31 | the calls of the LED loop: HIGH, `sleep(ms)`, LOW for each LED |
| Example3.BlinkCallsSpec | example/src/example3.cpp:27-31 | each LED is switched HIGH, held for the mode's interval, then switched LOW |
| Example3.Blink | example/src/example3.cpp:27-31 | the LED loop produces exactly those calls |
| Example3.PassCalls | example/src/example3.cpp:27-56 | the calls of one pass of the endless loop: the blink round at the current mode's interval, then `sleepMicroseconds(50)` |
| Example3.Trace | example/src/example3.cpp:16-57 | the calls of setup followed by those of the first n passes |
| Example3.Run | example/src/example3.cpp:14-57 | after any number of passes, the calls made are the setup followed by one blink round and a 50 µs pause per pass, and the mode state is the one `BounceAfter` gives |
| Example3.ModeSchedule | example/src/example3.cpp:34-52 | after n passes the counter is n mod 5 and the mode is entry (n / 5) mod 4 of 0, 1, 2, 1; it changes on every fifth pass and on no other |
| Example3.ModeSequence | example/src/example3.cpp:41-51 | the modes visited are 0, 1, 2, 1, 0 |
| Example3.PatternRepeats | example/src/example3.cpp:25-57 | the mode state repeats every 20 passes |
| Example4.Delays | example/src/example4.cpp:22-34 | the pauses `interval[mode] / 255` are 3, 1, 0 and 0 ms |
| Example4.Delay | example/src/example4.cpp:22-34 | `interval[mode] / 255` |
| Example4.PassCalls | example/src/example4.cpp:30-52 | the calls of one pass: the fade round of each LED at the current delay, then `sleepMicroseconds(50)` |
| Example4.Trace | example/src/example4.cpp:17-53 | the calls of setup followed by those of the first n passes |
| Example4.CycleStep | example/src/example4.cpp:43-49 | one pass keeps counter below 10 and mode below 4; the mode changes exactly when the counter reaches 10, to `(mode + 1) % 4` |
| Example4.CycleAfter | example/src/example4.cpp:25-26 | every reachable state satisfies the invariant |
| Example4.CycleUpdate | example/src/example4.cpp:43-49 | the update in the loop body computes `CycleStep` |
| Example4.Run | example/src/example4.cpp:15-53 | after any number of passes, the calls made are the setup followed by one fade round and a 50 µs pause per pass, and the mode state is `CycleAfter` |
| Example4.ModeSchedule | example/src/example4.cpp:43-49 | after n passes the mode is `(n / 10) % 4` and the counter is `n % 10` |
| Example4.PatternRepeats | example/src/example4.cpp:28-53 | the mode state repeats every 40 passes |
| Example5.Delays | example/src/example5.cpp:23-36 | the pauses `interval[mode] / 255` are 39, 19, 3, 1, 0 and 0 ms |
| Example5.Delay | example/src/example5.cpp:23-36 | `interval[mode] / 255` |
| Example5.PassCalls | example/src/example5.cpp:32-67 | the calls of one pass: the fade round of each LED at the current delay, then `sleepMicroseconds(50)` |
| Example5.Trace | example/src/example5.cpp:18-68 | the calls of setup followed by those of the first n passes |
| Example5.Run | example/src/example5.cpp:16-68 | after any number of passes, the calls made are the setup followed by one fade round and a 50 µs pause per pass, and the mode state is the one `BounceAfter` gives |
| Example5.ModeSchedule | example/src/example5.cpp:45-63 | after n passes the counter is n mod 5 and the mode is entry (n / 5) mod 10 of 0, 1, 2, 3, 4, 5, 4, 3, 2, 1; it changes on every fifth pass and on no other |
| Example5.ModeSequence | example/src/example5.cpp:52-62 | the modes visited are 0, 1, 2, 3, 4, 5, 4, 3, 2, 1, 0 |
| Example5.PatternRepeats | example/src/example5.cpp:30-68 | the mode state repeats every 50 passes |

## Left out

- `Serial_printf` (example/include/AVRLite.cpp:279 onwards) is not modelled. It formats through `vsnprintf` and a heap buffer, which are library code outside this model.
- The wait for UDRE0 in `Serial_write` is not modelled: a byte goes to the transmit log at once.
- The ADC wait in `GPIORead` is not modelled. The hardware clears ADSC when the conversion completes, and the 10-bit result is a parameter (`adc`) of `GpioRead` and `GpioControl`.
- `_delay_ms` and `_delay_us` change no modelled state. `Clock.SleepMicroseconds` counts them.
- Interrupts and concurrency are not modelled. The handlers are methods a caller invokes between library calls. Every library method runs atomically, so the critical sections (`cli`/`sei`, SREG save and restore) are modelled only for their effect on SREG.
- The registers the hardware changes (PINx, TCNT0, TCNT1, TIFR0) are fields a caller assigns. Clearing TOV0 when the overflow handler runs is not modelled.
- `Clock.Sleep`: the clock readings are an input sequence, the values successive `uptimeUs()` calls would return. The method proves only what a run on those readings does. Whether the loop terminates depends on the clock advancing and is not proved; running out of readings is reported as `finished == false`.
- `Clock.Sleep` takes the readings as given. What the jump back of `uptimeUs` across an overflow does to it is shown for a step that comes early by `Clock.SleepStepsEarlyAtOverflow` and for one that comes late by `Clock.SleepStepsLateAcrossOverflow` (see Findings).
- F_CPU is fixed at 16 MHz, so `64 / (F_CPU / 1000000L)` is 4 µs per Timer0 tick.
- The PWM waveform itself (counter compare timing, output pin levels) is not modelled. Only register contents are modelled.
- AvrLite.Mcu.UptimeMs re-enables interrupts unconditionally with `sei()`, as the code does, rather than restoring the caller's state.
- AvrLite.Mcu.GpioControl requires a mode code. For any other mode, the C++ function falls off its end without a return value, which is undefined behaviour.
- AvrLite.Mcu.SerialBegin requires a nonzero baud rate, because `F_CPU / 16 / baud` divides by zero otherwise.
- AvrLite.Mcu.GpioInit and AvrLite.Mcu.GpioWrite follow the definitions in AVRLite.cpp (returning `int` and `uint8_t`), not the header's `void` declarations.
- AvrLite.Mcu.GpioAnalogWrite delegates each innermost branch to a method named after its pin (`AnalogWriteD3` and so on). The branch structure of the source is kept.
- The "Prescaler 8" comments in `__GPIOAnalogWrite__` do not hold for Timers 0 and 1, whose CS bits already select clk/64. The model follows the register writes; see `Pwm.AnalogWriteKeepsClockSelect`.
- Serial output is modelled as characters, with NUL as the terminator of a C string. Character encodings are not modelled.
- Example3.Run, Example4.Run, Example5.Run: the endless `while (1)` is modelled as its first `passes` passes. Each library call is recorded as a `Call` value rather than executed. How the calls act on the device is what `AvrLite.Mcu` states.
- Example3.LED uses `D14`, `D15` and `D16`, which the header does not define (it stops at D13). They are modelled as the pin numbers 14, 15 and 16 that the program's comments name A0, A1 and A2.
- Sketch.BounceUpdate, Sketch.FadeAll, Example3.Blink and Example4.CycleUpdate are the loop bodies of `main` as separate methods. Each computes exactly what the inline code does.
- src/main.cpp, src/example2.cpp and src/example3.cpp are not part of this model.

## Findings

| source | as written | input that shows it | evidently intended | confidence | as-written member | corrected member |
|---|---|---|---|---|---|---|
| example/include/AVRLite.cpp:66 | `(m << 8) + t * 4`: the overflow count is scaled by 256, while each of the 256 ticks of an overflow period is 4 µs, so one overflow is 1024 µs | `m = 0, t = 255` reads 1020 µs; the next tick, `m = 1, t = 0`, reads 256 µs; the clock runs backwards by 764 µs on every overflow. In `sleep`, the wait for the clock then ends early or late, depending on TCNT0 `t` at the call. For `t >= 65` the first reading after the overflow is below `start`, so `uptimeUs() - start` wraps to 2^32 - (start - reading), passes the `>= 1000` test, and the step comes early: started at reading 1020, `sleep(1)` takes about 1.004 ms instead of about 2 ms. For `6 <= t <= 64` no reading of the rest of the period is 1000 µs past `start`, and after the jump back the readings must climb again, so the step comes late: started at `m = 0, t = 25` (reading 100), the first qualifying reading is 1100, 442 ticks (1768 µs) later instead of 250, and `sleep(1)` takes about 2.77 ms instead of about 2 ms. Each step still runs `_delay_ms(1)`, so `sleep(ms)` lasts at least `ms` ms | `((m << 8) + t) * 4`: 1024 µs per overflow, 4 µs per tick, monotone across overflows | not executed | Clock.MicrosNotMonotone, Clock.MicrosOverflowStep, Clock.SleepStepsEarlyAtOverflow, Clock.SleepStepsLateAcrossOverflow | Clock.IntendedMicros, Clock.IntendedMicrosStep |
