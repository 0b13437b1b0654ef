/** Example 3: three LEDs on the analog pins A0, A1 and A2 light one at a
    time; every five passes the on-time moves one step through three
    modes, forward to the shortest and back again. */
module Example3 {
  import opened Bits
  import opened AvrLiteH
  import opened Sketch

  /** `LED[3] = {D14, D15, D16}`: the header stops at D13, so these are the
      pin numbers 14, 15 and 16, which it calls A0, A1 and A2. */
  const LED: seq<u8> := [14, 15, 16]

  /** `interval[3]`: how long each LED stays on per mode, in ms. */
  const Interval: seq<u32> := [1000, 500, 100]

  /** The mode at which the direction turns back. */
  const LastMode: u8 := 2

  /** Passes between two mode changes (`counter >= 5`). */
  const Period: u8 := 5

  /** `sleepMicroseconds(50)` at the end of every pass. */
  const PassPause: u16 := 50

  /** The LEDs are the first three analog pins, on port C. */
  lemma LedsAreAnalogPins()
    ensures LED == AnalogPins[..3]
  {
  }

  /** For each LED: `GPIOControl(LED[i], HIGH); sleep(ms); GPIOControl(LED[i], LOW);`. */
  function BlinkCalls(leds: seq<u8>, ms: u32): seq<Call>
  {
    if leds == [] then []
    else BlinkCalls(leds[..|leds| - 1], ms) +
         [GpioControlCall(leds[|leds| - 1], HIGH, DefaultValue), SleepCall(ms),
          GpioControlCall(leds[|leds| - 1], LOW, DefaultValue)]
  }

  /** The LEDs are driven in array order, each switched on, held for `ms`
      and switched off before the next one starts. */
  lemma {:induction false} BlinkCallsSpec(leds: seq<u8>, ms: u32)
    ensures |BlinkCalls(leds, ms)| == 3 * |leds|
    ensures forall i | 0 <= i < |leds| ::
      BlinkCalls(leds, ms)[3 * i] == GpioControlCall(leds[i], HIGH, DefaultValue) &&
      BlinkCalls(leds, ms)[3 * i + 1] == SleepCall(ms) &&
      BlinkCalls(leds, ms)[3 * i + 2] == GpioControlCall(leds[i], LOW, DefaultValue)
  {
    if leds != [] {
      BlinkCallsSpec(leds[..|leds| - 1], ms);
    }
  }

  /** The `for` loop over the LEDs in one pass. */
  method Blink(leds: seq<u8>, ms: u32) returns (calls: seq<Call>)
    ensures calls == BlinkCalls(leds, ms)
  {
    calls := [];
    var i := 0;
    while i < |leds|
      invariant 0 <= i <= |leds|
      invariant calls == BlinkCalls(leds[..i], ms)
    {
      assert leds[..i + 1][..i] == leds[..i];
      calls := calls + [GpioControlCall(leds[i], HIGH, DefaultValue)];
      calls := calls + [SleepCall(ms)];
      calls := calls + [GpioControlCall(leds[i], LOW, DefaultValue)];
      i := i + 1;
    }
    assert leds[..i] == leds;
  }

  /** The calls of one pass of the main loop in state s. */
  function PassCalls(s: Bounce): seq<Call>
    requires BounceInv(s, LastMode, Period)
  {
    BlinkCalls(LED, Interval[s.mode]) + [SleepMicrosecondsCall(PassPause)]
  }

  /** The calls `main` has made once it has completed n passes. */
  function Trace(n: nat): seq<Call>
  {
    if n == 0 then SetupCalls(LED)
    else Trace(n - 1) + PassCalls(BounceAfter(n - 1, LastMode, Period))
  }

  /** `main`, run for `passes` passes of its endless loop. */
  method Run(passes: nat) returns (calls: seq<Call>, mode: u8, counter: u8, direction: bool)
    ensures Bounce(mode, counter, direction) == BounceAfter(passes, LastMode, Period)
    ensures calls == Trace(passes)
  {
    calls := Setup(LED);
    direction := true;
    mode := 0;
    counter := 0;
    var pass := 0;
    while pass < passes
      invariant pass <= passes
      invariant Bounce(mode, counter, direction) == BounceAfter(pass, LastMode, Period)
      invariant calls == Trace(pass)
    {
      ghost var before := calls;
      var blinks := Blink(LED, Interval[mode]);
      calls := calls + blinks;
      mode, counter, direction := BounceUpdate(mode, counter, direction, LastMode, Period);
      calls := calls + [SleepMicrosecondsCall(PassPause)];
      assert calls == before + PassCalls(BounceAfter(pass, LastMode, Period));
      pass := pass + 1;
    }
  }

  /** After n passes the counter is n mod 5 and the mode is entry
      (n / 5) mod 4 of the repeating walk 0, 1, 2, 1; the mode changes on
      every fifth pass and on no other. */
  lemma ModeSchedule(n: nat)
    ensures BounceAfter(n, LastMode, Period).counter == n % 5
    ensures BounceAfter(n, LastMode, Period).mode == [0, 1, 2, 1][(n / 5) % 4]
    ensures BounceAfter(n + 1, LastMode, Period).mode != BounceAfter(n, LastMode, Period).mode <==> (n + 1) % 5 == 0
  {
    BounceClosedForm(n, LastMode, Period);
    BounceModeChanges(n, LastMode, Period);
  }

  /** The first four mode changes go up to the shortest interval and back. */
  lemma ModeSequence()
    ensures seq(5, k requires 0 <= k => TriangleMode(k, LastMode)) == [0, 1, 2, 1, 0]
  {
  }

  /** The whole pattern repeats every 20 passes. */
  lemma {:induction false} PatternRepeats(n: nat)
    ensures BounceAfter(n + 20, LastMode, Period) == BounceAfter(n, LastMode, Period)
  {
    BounceClosedForm(n, LastMode, Period);
    BounceClosedForm(n + 20, LastMode, Period);
    var k := n / 5;
    DivModUnique(n + 20, k + 4, n % 5, 5);
    DivModUnique(k + 4, k / 4 + 1, k % 4, 4);
  }
}
