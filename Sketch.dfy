/** Pieces the example programs have in common: putting the LED pins in
    output mode, fading one LED up and down through the PWM duty range, and
    the bouncing mode selector of examples 3 and 5. A program is modelled by
    the calls it makes into the library, in order. */
module Sketch {
  import opened Bits
  import opened AvrLiteH

  /** The calls of `for (i...) GPIOControl(LED[i], OUTPUT);`. */
  function SetupCalls(leds: seq<u8>): (calls: seq<Call>)
  {
    if leds == [] then [] else SetupCalls(leds[..|leds| - 1]) + [GpioControlCall(leds[|leds| - 1], OUTPUT, DefaultValue)]
  }

  /** One call per LED, in array order, each switching that pin to output. */
  lemma {:induction false} SetupCallsSpec(leds: seq<u8>)
    ensures |SetupCalls(leds)| == |leds|
    ensures forall i | 0 <= i < |leds| :: SetupCalls(leds)[i] == GpioControlCall(leds[i], OUTPUT, DefaultValue)
  {
    if leds != [] {
      SetupCallsSpec(leds[..|leds| - 1]);
    }
  }

  /** The setup loop at the top of each example's `main`. */
  method Setup(leds: seq<u8>) returns (calls: seq<Call>)
    ensures calls == SetupCalls(leds)
  {
    calls := [];
    var i := 0;
    while i < |leds|
      invariant 0 <= i <= |leds|
      invariant calls == SetupCalls(leds[..i])
    {
      assert leds[..i + 1][..i] == leds[..i];
      calls := calls + [GpioControlCall(leds[i], OUTPUT, DefaultValue)];
      i := i + 1;
    }
    assert leds[..i] == leds;
  }

  /** Step of both fade loops (`fadeAmount`). */
  const FadeAmount: int := 5

  /** The brightness values of `for (b = 0; b <= 255; b += 5)`. */
  function FadeUp(): seq<u8>
  {
    seq(52, k requires 0 <= k < 52 => 5 * k)
  }

  /** The brightness values of `for (b = 255; b >= 0; b -= 5)`. */
  function FadeDown(): seq<u8>
  {
    seq(52, k requires 0 <= k < 52 => 255 - 5 * k)
  }

  /** The up ramp starts dark, climbs by 5 and ends at full duty; the down
      ramp is the same values in reverse order. */
  lemma FadeRamps()
    ensures |FadeUp()| == |FadeDown()| == 52
    ensures FadeUp()[0] == 0 && FadeUp()[51] == 255
    ensures forall k | 0 < k < 52 :: FadeUp()[k] == FadeUp()[k - 1] + FadeAmount
    ensures forall k | 0 <= k < 52 :: FadeDown()[k] == FadeUp()[51 - k]
  {
  }

  /** For each level, `GPIOWrite(pin, ANALOGWRITE, level); sleep(delay);`. */
  function Writes(pin: u8, delay: u32, levels: seq<u8>): seq<Call>
  {
    if levels == [] then []
    else Writes(pin, delay, levels[..|levels| - 1]) +
         [GpioWriteCall(pin, ANALOGWRITE, levels[|levels| - 1]), SleepCall(delay)]
  }

  /** Writes alternate: the 2k-th call sets the k-th level, the next sleeps. */
  lemma {:induction false} WritesSpec(pin: u8, delay: u32, levels: seq<u8>)
    ensures |Writes(pin, delay, levels)| == 2 * |levels|
    ensures forall k | 0 <= k < |levels| ::
      Writes(pin, delay, levels)[2 * k] == GpioWriteCall(pin, ANALOGWRITE, levels[k]) &&
      Writes(pin, delay, levels)[2 * k + 1] == SleepCall(delay)
  {
    if levels != [] {
      WritesSpec(pin, delay, levels[..|levels| - 1]);
    }
  }

  /** Both fade loops of one LED. */
  function FadeCalls(pin: u8, delay: u32): seq<Call>
  {
    Writes(pin, delay, FadeUp()) + Writes(pin, delay, FadeDown())
  }

  /** The two `for` loops over `brightness` (an `int16_t`, which never leaves
      -5..260 and so never wraps). Every value passed to `GPIOWrite` is a
      valid 8-bit duty. */
  method Fade(pin: u8, delay: u32) returns (calls: seq<Call>)
    ensures calls == FadeCalls(pin, delay)
  {
    calls := [];
    var brightness: int := 0;
    while brightness <= 255
      invariant 0 <= brightness <= 260 && brightness % FadeAmount == 0
      invariant calls == Writes(pin, delay, FadeUp()[..brightness / FadeAmount])
    {
      ghost var k := brightness / FadeAmount;
      assert FadeUp()[..k + 1][..k] == FadeUp()[..k];
      calls := calls + [GpioWriteCall(pin, ANALOGWRITE, brightness), SleepCall(delay)];
      brightness := brightness + FadeAmount;
    }
    assert FadeUp()[..52] == FadeUp();
    ghost var up := calls;
    brightness := 255;
    while brightness >= 0
      invariant -5 <= brightness <= 255 && (255 - brightness) % FadeAmount == 0
      invariant calls == up + Writes(pin, delay, FadeDown()[..(255 - brightness) / FadeAmount])
    {
      ghost var k := (255 - brightness) / FadeAmount;
      assert FadeDown()[..k + 1][..k] == FadeDown()[..k];
      calls := calls + [GpioWriteCall(pin, ANALOGWRITE, brightness), SleepCall(delay)];
      brightness := brightness - FadeAmount;
    }
    assert FadeDown()[..52] == FadeDown();
  }

  /** `for (i...)` over the LEDs, fading each in turn. */
  function FadeAllCalls(leds: seq<u8>, delay: u32): seq<Call>
  {
    if leds == [] then [] else FadeAllCalls(leds[..|leds| - 1], delay) + FadeCalls(leds[|leds| - 1], delay)
  }

  /** The loop over the LEDs that fades each in turn. */
  method FadeAll(leds: seq<u8>, delay: u32) returns (calls: seq<Call>)
    ensures calls == FadeAllCalls(leds, delay)
  {
    calls := [];
    var i := 0;
    while i < |leds|
      invariant 0 <= i <= |leds|
      invariant calls == FadeAllCalls(leds[..i], delay)
    {
      var fade := Fade(leds[i], delay);
      assert leds[..i + 1][..i] == leds[..i];
      calls := calls + fade;
      i := i + 1;
    }
    assert leds[..i] == leds;
  }

  /** The state examples 3 and 5 keep between passes: `mode`, `counter` and
      `direction` (true is forward). */
  datatype Bounce = Bounce(mode: u8, counter: u8, forward: bool)

  const BounceStart: Bounce := Bounce(0, 0, true)

  /** The reachable states: the counter is below the period, the mode within
      0..last, and the direction points away from the end just reached. */
  predicate BounceInv(s: Bounce, last: u8, period: u8)
  {
    s.counter < period && s.mode <= last &&
    (s.forward ==> s.mode < last) && (!s.forward ==> s.mode > 0)
  }

  /** The end of one pass: `counter++`; once it reaches `period` it is reset
      and `mode` moves one step in the current direction, which reverses when
      `mode` arrives at `last` (going forward) or 0 (going backward). The
      `uint8_t` increments and decrements wrap. */
  function BounceStep(s: Bounce, last: u8, period: u8): (r: Bounce)
    requires 0 < last < 255 && 0 < period
    ensures BounceInv(s, last, period) ==> BounceInv(r, last, period)
    ensures BounceInv(s, last, period) ==> (r.mode != s.mode <==> s.counter == period - 1)
    ensures BounceInv(s, last, period) && s.counter < period - 1 ==> r == s.(counter := s.counter + 1)
    ensures BounceInv(s, last, period) && s.counter == period - 1 ==>
      r.counter == 0 && r.mode == (if s.forward then s.mode + 1 else s.mode - 1) &&
      r.forward == (if s.forward then r.mode != last else r.mode == 0)
  {
    var counter := (s.counter + 1) % 256;
    if counter >= period then
      if s.forward then
        var mode := (s.mode + 1) % 256;
        Bounce(mode, 0, if mode == last then false else s.forward)
      else
        var mode := (s.mode - 1) % 256;
        Bounce(mode, 0, if mode == 0 then true else s.forward)
    else
      s.(counter := counter)
  }

  /** The end of a pass as the examples write it, on `uint8_t` variables. */
  method BounceUpdate(mode0: u8, counter0: u8, direction0: bool, last: u8, period: u8)
    returns (mode: u8, counter: u8, direction: bool)
    requires 0 < last < 255 && 0 < period
    ensures Bounce(mode, counter, direction) == BounceStep(Bounce(mode0, counter0, direction0), last, period)
  {
    mode, counter, direction := mode0, counter0, direction0;
    counter := (counter + 1) % 256;
    if counter >= period {
      counter := 0;
      if direction {
        mode := (mode + 1) % 256;
        if mode == last {
          direction := false;
        }
      } else {
        mode := (mode - 1) % 256;
        if mode == 0 {
          direction := true;
        }
      }
    }
  }

  /** The state after n passes of the main loop. */
  function BounceAfter(n: nat, last: u8, period: u8): (s: Bounce)
    requires 0 < last < 255 && 0 < period
    ensures BounceInv(s, last, period)
  {
    if n == 0 then BounceStart else BounceStep(BounceAfter(n - 1, last, period), last, period)
  }

  /** The mode after k mode changes: a triangle wave 0, 1, ..., last, ...,
      1, 0, 1, ... of period 2·last. */
  function TriangleMode(k: nat, last: u8): int
    requires last > 0
  {
    var j := k % (2 * last);
    if j <= last then j else 2 * last - j
  }

  /** The direction after k mode changes: forward in the rising half. */
  predicate TriangleForward(k: nat, last: u8)
    requires last > 0
  {
    k % (2 * last) < last
  }

  /** A non-zero multiple of m is at least m away from 0. */
  lemma MultipleBounds(d: int, m: int)
    requires m > 0
    ensures d >= 1 ==> d * m >= m
    ensures d <= -1 ==> d * m <= -m
  {
    if d >= 1 {
      assert d * m == m + (d - 1) * m;
    } else if d <= -1 {
      assert d * m == -m + (d + 1) * m;
    }
  }

  /** Quotient and remainder are determined by any split with 0 <= r < m. */
  lemma DivModUnique(x: int, q: int, r: int, m: int)
    requires m > 0 && x == q * m + r && 0 <= r < m
    ensures x / m == q && x % m == r
  {
    var q', r' := x / m, x % m;
    assert (q - q') * m == r' - r;
    MultipleBounds(q - q', m);
  }

  /** Counting one more step either advances the remainder or wraps it to 0
      and advances the quotient. */
  lemma DivModSucc(k: nat, m: nat)
    requires m > 0
    ensures (k + 1) % m == if k % m == m - 1 then 0 else k % m + 1
    ensures (k + 1) / m == if k % m == m - 1 then k / m + 1 else k / m
  {
    var q, r := k / m, k % m;
    if r == m - 1 {
      DivModUnique(k + 1, q + 1, 0, m);
    } else {
      DivModUnique(k + 1, q, r + 1, m);
    }
  }

  /** One more mode change moves the triangle wave one step in its current
      direction, and the direction turns exactly at last and at 0. */
  lemma TriangleStep(k: nat, last: u8)
    requires last > 0
    ensures TriangleMode(k + 1, last) ==
      if TriangleForward(k, last) then TriangleMode(k, last) + 1 else TriangleMode(k, last) - 1
    ensures TriangleForward(k + 1, last) ==
      if TriangleForward(k, last) then TriangleMode(k + 1, last) != last else TriangleMode(k + 1, last) == 0
  {
    DivModSucc(k, 2 * last);
  }

  /** One pass on a state that sits at step k of the triangle wave: the
      counter advances, and on its wrap the state moves to step k + 1. */
  lemma BounceStepWave(s: Bounce, k: nat, last: u8, period: u8)
    requires 0 < last < 255 && 0 < period
    requires BounceInv(s, last, period)
    requires s.mode == TriangleMode(k, last) && s.forward == TriangleForward(k, last)
    ensures var r := BounceStep(s, last, period);
      var k' := if s.counter == period - 1 then k + 1 else k;
      r.counter == (if s.counter == period - 1 then 0 else s.counter + 1) &&
      r.mode == TriangleMode(k', last) && r.forward == TriangleForward(k', last)
  {
    if s.counter == period - 1 {
      TriangleStep(k, last);
    }
  }

  /** Passes counted the way the loop counts them: (completed periods,
      passes into the current period), without division. */
  function PeriodsAfter(n: nat, period: u8): (w: (nat, nat))
    requires 0 < period
    ensures w.1 < period
  {
    if n == 0 then (0, 0)
    else
      var w := PeriodsAfter(n - 1, period);
      if w.1 == period - 1 then (w.0 + 1, 0) else (w.0, w.1 + 1)
  }

  /** That count is quotient and remainder by the period. */
  lemma {:induction false} PeriodsAfterDivMod(n: nat, period: u8)
    requires 0 < period
    ensures PeriodsAfter(n, period) == (n / period, n % period)
  {
    if n > 0 {
      PeriodsAfterDivMod(n - 1, period);
      DivModSucc(n - 1, period);
    }
  }

  /** After n passes the state sits at the counted place of the wave. */
  lemma {:induction false} BounceAfterPeriods(n: nat, last: u8, period: u8)
    requires 0 < last < 255 && 0 < period
    ensures var w := PeriodsAfter(n, period);
      BounceAfter(n, last, period).counter == w.1 &&
      BounceAfter(n, last, period).mode == TriangleMode(w.0, last) &&
      BounceAfter(n, last, period).forward == TriangleForward(w.0, last)
  {
    if n > 0 {
      BounceAfterPeriods(n - 1, last, period);
      BounceStepWave(BounceAfter(n - 1, last, period), PeriodsAfter(n - 1, period).0, last, period);
    }
  }

  /** The state after n passes in closed form: the counter is n mod period
      and the mode has changed n / period times along the triangle wave. */
  lemma BounceClosedForm(n: nat, last: u8, period: u8)
    requires 0 < last < 255 && 0 < period
    ensures BounceAfter(n, last, period).counter == n % period
    ensures BounceAfter(n, last, period).mode == TriangleMode(n / period, last)
    ensures BounceAfter(n, last, period).forward == TriangleForward(n / period, last)
  {
    BounceAfterPeriods(n, last, period);
    PeriodsAfterDivMod(n, period);
  }

  /** The mode changes on the passes that complete a period and on no
      others. */
  lemma BounceModeChanges(n: nat, last: u8, period: u8)
    requires 0 < last < 255 && 0 < period
    ensures BounceAfter(n + 1, last, period).mode != BounceAfter(n, last, period).mode <==> (n + 1) % period == 0
  {
    BounceClosedForm(n, last, period);
    DivModSucc(n, period);
  }
}
