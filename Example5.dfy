/** Example 5: three LEDs on the PWM pins D9, D10 and D11 fade up and down
    one after another; every five passes the fade speed moves one step
    through six modes, forward to the fastest and back again. */
module Example5 {
  import opened Bits
  import opened AvrLiteH
  import opened Sketch

  /** `LED[3] = {D9, D10, D11}` */
  const LED: seq<u8> := [D9, D10, D11]

  /** `interval[6]`: the length of one fade ramp per mode, in ms. */
  const Interval: seq<u32> := [10000, 5000, 1000, 500, 100, 50]

  /** The mode at which the direction turns back. */
  const LastMode: u8 := 5

  /** Passes between two mode changes (`counter >= 5`). */
  const Period: u8 := 5

  /** `sleepMicroseconds(50)` at the end of every pass. */
  const PassPause: u16 := 50

  /** `interval[mode] / 255`: the pause after each brightness step. */
  function Delay(mode: u8): u32
    requires mode < |Interval|
  {
    Interval[mode] / 255
  }

  /** One interval per mode, and the truncating division leaves pauses of
      39, 19, 3, 1, 0 and 0 ms: the two fastest modes do not pause at all. */
  lemma Delays()
    ensures |Interval| == LastMode as int + 1
    ensures Delay(0) == 39 && Delay(1) == 19 && Delay(2) == 3
    ensures Delay(3) == 1 && Delay(4) == 0 && Delay(5) == 0
  {
  }

  /** The calls of one pass of the main loop in state s. */
  function PassCalls(s: Bounce): seq<Call>
    requires BounceInv(s, LastMode, Period)
  {
    FadeAllCalls(LED, Delay(s.mode)) + [SleepMicrosecondsCall(PassPause)]
  }

  /** The calls `main` has made once it has completed n passes. */
  function Trace(n: nat): seq<Call>
  {
    if n == 0 then SetupCalls(LED)
    else Trace(n - 1) + PassCalls(BounceAfter(n - 1, LastMode, Period))
  }

  /** `main`, run for `passes` passes of its endless loop. */
  method Run(passes: nat) returns (calls: seq<Call>, mode: u8, counter: u8, direction: bool)
    ensures Bounce(mode, counter, direction) == BounceAfter(passes, LastMode, Period)
    ensures calls == Trace(passes)
  {
    calls := Setup(LED);
    direction := true;
    counter := 0;
    mode := 0;
    var pass := 0;
    while pass < passes
      invariant pass <= passes
      invariant Bounce(mode, counter, direction) == BounceAfter(pass, LastMode, Period)
      invariant calls == Trace(pass)
    {
      ghost var before := calls;
      var fades := FadeAll(LED, Interval[mode] / 255);
      calls := calls + fades;
      mode, counter, direction := BounceUpdate(mode, counter, direction, LastMode, Period);
      calls := calls + [SleepMicrosecondsCall(PassPause)];
      assert calls == before + PassCalls(BounceAfter(pass, LastMode, Period));
      pass := pass + 1;
    }
  }

  /** After n passes the counter is n mod 5 and the mode is entry
      (n / 5) mod 10 of the repeating walk 0, 1, 2, 3, 4, 5, 4, 3, 2, 1; the
      mode changes on every fifth pass and on no other. */
  lemma ModeSchedule(n: nat)
    ensures BounceAfter(n, LastMode, Period).counter == n % 5
    ensures BounceAfter(n, LastMode, Period).mode == [0, 1, 2, 3, 4, 5, 4, 3, 2, 1][(n / 5) % 10]
    ensures BounceAfter(n + 1, LastMode, Period).mode != BounceAfter(n, LastMode, Period).mode <==> (n + 1) % 5 == 0
  {
    BounceClosedForm(n, LastMode, Period);
    BounceModeChanges(n, LastMode, Period);
  }

  /** The first ten mode changes visit every mode, climbing and then falling. */
  lemma ModeSequence()
    ensures seq(11, k requires 0 <= k => TriangleMode(k, LastMode)) == [0, 1, 2, 3, 4, 5, 4, 3, 2, 1, 0]
  {
  }

  /** The whole pattern repeats every 50 passes. */
  lemma {:induction false} PatternRepeats(n: nat)
    ensures BounceAfter(n + 50, LastMode, Period) == BounceAfter(n, LastMode, Period)
  {
    BounceClosedForm(n, LastMode, Period);
    BounceClosedForm(n + 50, LastMode, Period);
    var k := n / 5;
    DivModUnique(n + 50, k + 10, n % 5, 5);
    DivModUnique(k + 10, k / 10 + 1, k % 10, 10);
  }
}
