/** Example 4: three LEDs on the PWM pins D9, D10 and D11 fade up and down
    one after another; every ten passes the fade speed moves on to the next
    of four modes, wrapping from the fastest back to the slowest. */
module Example4 {
  import opened Bits
  import opened AvrLiteH
  import opened Sketch

  /** `LED[3] = {D9, D10, D11}` */
  const LED: seq<u8> := [D9, D10, D11]

  /** `interval[4]`: the length of one fade ramp per mode, in ms. */
  const Interval: seq<u32> := [1000, 500, 100, 50]

  /** The number of modes (`% 4`). */
  const Modes: u8 := 4

  /** Passes between two mode changes (`counter >= 10`). */
  const Period: u8 := 10

  /** `sleepMicroseconds(50)` at the end of every pass. */
  const PassPause: u16 := 50

  /** `interval[mode] / 255`: the pause after each brightness step. */
  function Delay(mode: u8): u32
    requires mode < |Interval|
  {
    Interval[mode] / 255
  }

  /** One interval per mode, and the truncating division leaves pauses of
      3, 1, 0 and 0 ms. */
  lemma Delays()
    ensures |Interval| == Modes as int
    ensures Delay(0) == 3 && Delay(1) == 1 && Delay(2) == 0 && Delay(3) == 0
  {
  }

  /** The state kept between passes: `mode` and `counter`. */
  datatype Cycle = Cycle(mode: u8, counter: u8)

  predicate CycleInv(s: Cycle)
  {
    s.mode < Modes && s.counter < Period
  }

  /** The end of one pass: `counter++`; once it reaches 10 it is reset and
      `mode = (mode + 1) % 4`. */
  function CycleStep(s: Cycle): (r: Cycle)
    ensures CycleInv(s) ==> CycleInv(r)
    ensures CycleInv(s) ==> (r.mode != s.mode <==> s.counter == Period - 1)
    ensures CycleInv(s) && s.counter == Period - 1 ==> r == Cycle((s.mode + 1) % 4, 0)
    ensures CycleInv(s) && s.counter < Period - 1 ==> r == s.(counter := s.counter + 1)
  {
    var counter := (s.counter + 1) % 256;
    if counter >= Period then Cycle((s.mode + 1) % 4, 0) else s.(counter := counter)
  }

  /** The state after n passes of the main loop. */
  function CycleAfter(n: nat): (s: Cycle)
    ensures CycleInv(s)
  {
    if n == 0 then Cycle(0, 0) else CycleStep(CycleAfter(n - 1))
  }

  /** The end of a pass as `main` writes it, on `uint8_t` variables. */
  method CycleUpdate(mode0: u8, counter0: u8) returns (mode: u8, counter: u8)
    ensures Cycle(mode, counter) == CycleStep(Cycle(mode0, counter0))
  {
    mode, counter := mode0, counter0;
    counter := (counter + 1) % 256;
    if counter >= Period {
      counter := 0;
      mode := (mode + 1) % 4;
    }
  }

  /** The calls of one pass of the main loop in state s. */
  function PassCalls(s: Cycle): seq<Call>
    requires CycleInv(s)
  {
    FadeAllCalls(LED, Delay(s.mode)) + [SleepMicrosecondsCall(PassPause)]
  }

  /** The calls `main` has made once it has completed n passes. */
  function Trace(n: nat): seq<Call>
  {
    if n == 0 then SetupCalls(LED) else Trace(n - 1) + PassCalls(CycleAfter(n - 1))
  }

  /** `main`, run for `passes` passes of its endless loop. */
  method Run(passes: nat) returns (calls: seq<Call>, mode: u8, counter: u8)
    ensures Cycle(mode, counter) == CycleAfter(passes)
    ensures calls == Trace(passes)
  {
    calls := Setup(LED);
    counter := 0;
    mode := 0;
    var pass := 0;
    while pass < passes
      invariant pass <= passes
      invariant Cycle(mode, counter) == CycleAfter(pass)
      invariant calls == Trace(pass)
    {
      ghost var before, s := calls, Cycle(mode, counter);
      var fades := FadeAll(LED, Interval[mode] / 255);
      calls := calls + fades;
      mode, counter := CycleUpdate(mode, counter);
      calls := calls + [SleepMicrosecondsCall(PassPause)];
      assert calls == before + PassCalls(s);
      pass := pass + 1;
    }
  }

  /** After n passes the counter is n mod 10 and the mode is (n / 10) mod 4:
      the modes come round in the order 0, 1, 2, 3, 0, ..., each held for
      ten passes. */
  lemma {:induction false} ModeSchedule(n: nat)
    ensures CycleAfter(n) == Cycle((n / 10) % 4, n % 10)
  {
    if n > 0 {
      ModeSchedule(n - 1);
      DivModSucc(n - 1, 10);
      DivModSucc((n - 1) / 10, 4);
    }
  }

  /** The whole pattern repeats every 40 passes. */
  lemma PatternRepeats(n: nat)
    ensures CycleAfter(n + 40) == CycleAfter(n)
  {
    ModeSchedule(n);
    ModeSchedule(n + 40);
    var k := n / 10;
    DivModUnique(n + 40, k + 4, n % 10, 10);
    DivModUnique(k + 4, k / 4 + 1, k % 4, 4);
  }
}
