/** Timekeeping arithmetic and the busy-wait delays. The interrupt-driven
    counters themselves live in the register file (AvrLite.Mcu); this module
    holds what `uptimeUs` computes from them and the two sleep loops, which
    see the clock only through the successive values `uptimeUs` returns. */
module Clock {
  import opened Bits

  /** The CPU clock the library is built for: 16 MHz. */
  const F_CPU: nat := 16_000_000

  /** `64 / (F_CPU / 1000000L)`: microseconds per Timer0 tick at prescaler 64. */
  const MicrosPerTick: nat := 64 / (F_CPU / 1_000_000)

  /** `a - b` on `unsigned long`: the distance from b forward to a, modulo 2^32. */
  function Elapsed(a: u32, b: u32): u32
  {
    (a - b) % U32
  }

  /** Euclidean division by 2^32. */
  lemma ModDecomp(x: int)
    ensures x == (x / U32) * U32 + x % U32 && 0 <= x % U32 < U32
  {
  }

  /** A residue is determined by any quotient/remainder split. */
  lemma ModUnique(x: int, q: int, r: int)
    requires x == q * U32 + r && 0 <= r < U32
    ensures x % U32 == r
  {
  }

  /** `(a % 2^32 + b) % 2^32 == (a + b) % 2^32` */
  lemma ModAddLeft(a: int, b: int)
    ensures (a % U32 + b) % U32 == (a + b) % U32
  {
    ModDecomp(a);
    ModDecomp(a % U32 + b);
    ModUnique(a + b, a / U32 + (a % U32 + b) / U32, (a % U32 + b) % U32);
  }

  /** Unsigned subtraction of two residues is the residue of the difference. */
  lemma ModSub(a: int, b: int)
    ensures Elapsed(a % U32, b % U32) == (a - b) % U32
  {
    ModDecomp(a);
    ModDecomp(b);
    ModDecomp(a % U32 - b % U32);
    ModUnique(a - b, a / U32 - b / U32 + (a % U32 - b % U32) / U32, (a % U32 - b % U32) % U32);
  }

  /** Adding a multiple of 2^32 does not change a residue. */
  lemma ModShift(x: int, q: int)
    ensures (x + q * U32) % U32 == x % U32
  {
    ModDecomp(x);
    ModUnique(x + q * U32, x / U32 + q, x % U32);
  }

  /** The overflow count `uptimeUs` uses: the stored count, plus one when an
      overflow is pending (TOV0 set, handler not yet run) and the counter has
      not reached 255. Incrementing an `unsigned long` wraps. */
  function CorrectedOverflows(m: u32, t: u8, pending: bool): (c: u32)
    ensures c == m || c == (m + 1) % U32
    ensures c != m <==> pending && t < 255
  {
    if pending && t < 255 then (m + 1) % U32 else m
  }

  /** The value `uptimeUs` returns, as written: `(m << 8) + t * 4` in 32-bit
      unsigned arithmetic, where only the tick count `t` is scaled to
      microseconds. */
  function Micros(m: u32, t: u8, pending: bool): u32
  {
    ((CorrectedOverflows(m, t, pending) * 256) % U32 + t * MicrosPerTick) % U32
  }

  /** The result is 256·m' + 4·t modulo 2^32, m' the corrected overflow count. */
  lemma MicrosClosedForm(m: u32, t: u8, pending: bool)
    ensures Micros(m, t, pending) == (256 * CorrectedOverflows(m, t, pending) + 4 * t) % U32
  {
    var c := CorrectedOverflows(m, t, pending);
    assert Micros(m, t, pending) == ((c * 256) % U32 + t * 4) % U32 by {
      assert MicrosPerTick == 4;
    }
    assert ((c * 256) % U32 + t * 4) % U32 == (256 * c + 4 * t) % U32 by {
      ModAddLeft(c * 256, t * 4);
    }
  }

  /** The pending-overflow correction: a reading taken while the overflow
      interrupt is held off gives the value a reading gives once the
      overflow handler has run. */
  lemma PendingOverflowCounted(m: u32, t: u8)
    requires t < 255
    ensures Micros(m, t, true) == Micros((m + 1) % U32, t, false)
  {
  }

  /** `(m + 1) % 2^32` is m + 1, or 0 when m is the largest count. */
  lemma Increment(m: u32)
    ensures (m + 1) % U32 == if m + 1 < U32 then m + 1 else 0
  {
    if m + 1 < U32 {
      ModUnique(m + 1, 0, m + 1);
    } else {
      ModUnique(m + 1, 1, 0);
    }
  }

  /** Without the correction, such a reading would come out 256 lower. */
  lemma UncorrectedReadingIsBehind(m: u32, t: u8)
    requires t < 255
    ensures Elapsed(Micros(m, t, true), Micros(m, t, false)) == 256
  {
    var c := CorrectedOverflows(m, t, true);
    Increment(m);
    MicrosClosedForm(m, t, true);
    MicrosClosedForm(m, t, false);
    var a := 256 * c + 4 * t;
    var b := 256 * m + 4 * t;
    ModSub(a, b);
    if m + 1 < U32 {
      ModUnique(a - b, 0, 256);
    } else {
      ModUnique(a - b, -256, 256);
    }
  }

  /** Between two ticks of Timer0 within one overflow period, the reading as
      written advances by 4 µs. */
  lemma MicrosTickStep(m: u32, t: u8)
    requires t < 255
    ensures Elapsed(Micros(m, t + 1, false), Micros(m, t, false)) == 4
  {
    MicrosClosedForm(m, t + 1, false);
    MicrosClosedForm(m, t, false);
    ModSub(256 * m + 4 * (t + 1), 256 * m + 4 * t);
    ModUnique(4, 0, 4);
  }

  /** On the tick that overflows Timer0 the reading as written jumps back by
      764 µs (from 256·m + 1020 to 256·(m+1)), so it is not monotone. */
  lemma MicrosOverflowStep(m: u32)
    ensures Elapsed(Micros((m + 1) % U32, 0, false), Micros(m, 255, false)) == U32 - 764
  {
    var m' := (m + 1) % U32;
    Increment(m);
    MicrosClosedForm(m', 0, false);
    MicrosClosedForm(m, 255, false);
    ModSub(256 * m', 256 * m + 1020);
    if m + 1 < U32 {
      ModUnique(256 * m' - (256 * m + 1020), -1, U32 - 764);
    } else {
      ModUnique(256 * m' - (256 * m + 1020), -257, U32 - 764);
    }
  }

  /** The smallest instance: one tick before the first overflow the call
      returns 1020, one tick later 256. */
  lemma MicrosNotMonotone()
    ensures Micros(0, 255, false) == 1020 && Micros(1, 0, false) == 256
    ensures Micros(1, 0, false) < Micros(0, 255, false)
  {
    MicrosClosedForm(0, 255, false);
    MicrosClosedForm(1, 0, false);
    ModUnique(1020, 0, 1020);
    ModUnique(256, 0, 256);
  }

  /** The evidently intended conversion, `((m << 8) + t) * 4`: the whole tick
      count is scaled, so one overflow period is 1024 µs. */
  function IntendedMicros(m: u32, t: u8): u32
  {
    (((m * 256) % U32 + t) % U32 * MicrosPerTick) % U32
  }

  lemma IntendedClosedForm(m: u32, t: u8)
    ensures IntendedMicros(m, t) == (1024 * m + 4 * t) % U32
  {
    var x := ((m * 256) % U32 + t) % U32;
    assert IntendedMicros(m, t) == (x * 4) % U32 by {
      assert MicrosPerTick == 4;
    }
    var q := (m * 256 + t) / U32;
    assert x == m * 256 + t - q * U32 by {
      ModAddLeft(m * 256, t);
      ModDecomp(m * 256 + t);
    }
    assert (x * 4) % U32 == (1024 * m + 4 * t) % U32 by {
      assert x * 4 == (1024 * m + 4 * t) + (-4 * q) * U32;
      ModShift(1024 * m + 4 * t, -4 * q);
    }
  }

  /** The intended reading advances by exactly 4 µs on every tick, the
      overflowing one included, so differences of readings measure time. */
  lemma IntendedMicrosStep(m: u32, t: u8)
    ensures t < 255 ==> Elapsed(IntendedMicros(m, t + 1), IntendedMicros(m, t)) == 4
    ensures t == 255 ==> Elapsed(IntendedMicros((m + 1) % U32, 0), IntendedMicros(m, t)) == 4
  {
    IntendedClosedForm(m, t);
    if t < 255 {
      IntendedClosedForm(m, t + 1);
      ModSub(1024 * m + 4 * (t + 1), 1024 * m + 4 * t);
      ModUnique(4, 0, 4);
    } else {
      var m' := (m + 1) % U32;
      Increment(m);
      IntendedClosedForm(m', 0);
      ModSub(1024 * m', 1024 * m + 1020);
      if m + 1 < U32 {
        ModUnique(1024 * m' - (1024 * m + 1020), 0, 4);
      } else {
        ModUnique(1024 * m' - (1024 * m + 1020), -1024, 4);
      }
    }
  }

  /** `start` after j inner steps of `sleep`: the first reading plus 1000·j,
      in `unsigned long` arithmetic. */
  function WindowStart(first: u32, j: nat): u32
  {
    (first + 1000 * j) % U32
  }

  lemma WindowAdvance(first: u32, j: nat)
    ensures WindowStart(first, j + 1) == (WindowStart(first, j) + 1000) % U32
  {
    ModAddLeft(first + 1000 * j, 1000);
  }

  /** Step j of `sleep` was taken on reading `at[j]`, which lies among the
      first `used` readings and is at least 1000 µs past the j-th window start;
      the readings that justify successive steps come in order. */
  ghost predicate StepsJustified(readings: seq<u32>, at: seq<nat>, used: nat)
    requires 0 < |readings|
  {
    (forall j {:trigger WindowStart(readings[0], j), at[j]} | 0 <= j < |at| ::
       0 < at[j] < used && at[j] < |readings| &&
       Elapsed(readings[at[j]], WindowStart(readings[0], j)) >= 1000) &&
    (forall i, j | 0 <= i < j < |at| :: at[i] < at[j])
  }

  /** Where gap j of the consumed readings starts: after the reading that
      justified step j - 1 (or after the first reading, the start time). */
  function GapStart(at: seq<nat>, j: nat): nat
    requires j <= |at|
  {
    if j == 0 then 0 else at[j - 1]
  }

  /** Where gap j ends: at the reading that justified step j, or at the
      first reading not yet consumed. */
  function GapEnd(at: seq<nat>, j: nat, used: nat): nat
    requires j <= |at|
  {
    if j < |at| then at[j] else used
  }

  /** The converse of StepsJustified: every consumed reading that did not
      give a step lies in the gap before step j and is less than 1000 µs past
      the j-th window start, so no reading that qualified was passed over. */
  ghost predicate NoStepMissed(readings: seq<u32>, at: seq<nat>, used: nat)
    requires 0 < |readings|
  {
    forall j, k {:trigger GapEnd(at, j, used), readings[k]}
      | 0 <= j <= |at| && GapStart(at, j) < k < GapEnd(at, j, used) && k < |readings| ::
      Elapsed(readings[k], WindowStart(readings[0], j)) < 1000
  }

  /** A reading that gives a step closes the current gap and opens an empty one. */
  lemma NoStepMissedStep(readings: seq<u32>, at: seq<nat>, used: nat)
    requires 0 < |readings| && (|at| > 0 ==> at[|at| - 1] < used)
    requires NoStepMissed(readings, at, used)
    ensures NoStepMissed(readings, at + [used], used + 1)
  {
    var at' := at + [used];
    forall j, k | 0 <= j <= |at'| && GapStart(at', j) < k < GapEnd(at', j, used + 1) && k < |readings|
      ensures Elapsed(readings[k], WindowStart(readings[0], j)) < 1000
    {
      assert j <= |at|;
      assert GapStart(at', j) == GapStart(at, j) && GapEnd(at', j, used + 1) == GapEnd(at, j, used);
    }
  }

  /** A reading that is not far enough past the current window start
      extends the current gap. */
  lemma NoStepMissedSkip(readings: seq<u32>, at: seq<nat>, used: nat)
    requires 0 < |readings| && used < |readings|
    requires NoStepMissed(readings, at, used)
    requires Elapsed(readings[used], WindowStart(readings[0], |at|)) < 1000
    ensures NoStepMissed(readings, at, used + 1)
  {
    forall j, k | 0 <= j <= |at| && GapStart(at, j) < k < GapEnd(at, j, used + 1) && k < |readings|
      ensures Elapsed(readings[k], WindowStart(readings[0], j)) < 1000
    {
      if j < |at| {
        assert GapEnd(at, j, used + 1) == GapEnd(at, j, used);
      } else if k < used {
        assert GapEnd(at, j, used) == used;
      }
    }
  }

  lemma StepsJustifiedExtend(readings: seq<u32>, at: seq<nat>, used: nat)
    requires 0 < |readings| && 0 < used < |readings|
    requires StepsJustified(readings, at, used)
    requires Elapsed(readings[used], WindowStart(readings[0], |at|)) >= 1000
    ensures StepsJustified(readings, at + [used], used + 1)
  {
    var at' := at + [used];
    forall j | 0 <= j < |at'|
      ensures 0 < at'[j] < used + 1 && at'[j] < |readings|
      ensures Elapsed(readings[at'[j]], WindowStart(readings[0], j)) >= 1000
    {
      if j < |at| {
        assert at'[j] == at[j];
        assert 0 < at[j] < used && at[j] < |readings| &&
          Elapsed(readings[at[j]], WindowStart(readings[0], j)) >= 1000;
      } else {
        assert at'[j] == used;
      }
    }
    forall i, j | 0 <= i < j < |at'|
      ensures at'[i] < at'[j]
    {
      assert at'[i] == at[i] && WindowStart(readings[0], i) == WindowStart(readings[0], i);
      if j < |at| {
        assert at'[j] == at[j];
      }
    }
  }

  /** What `sleep` has done after consuming `used` readings and taking
      `|at|` steps: `start` is the matching window start, every step was
      justified and no qualifying reading was passed over. */
  ghost predicate Progress(readings: seq<u32>, at: seq<nat>, used: nat, start: u32)
  {
    0 < used <= |readings| &&
    start == WindowStart(readings[0], |at|) &&
    StepsJustified(readings, at, used) && NoStepMissed(readings, at, used)
  }

  /** Taking a step on the next reading keeps Progress. */
  lemma ProgressStep(readings: seq<u32>, at: seq<nat>, used: nat, start: u32)
    requires Progress(readings, at, used, start) && used < |readings|
    requires Elapsed(readings[used], start) >= 1000
    ensures Progress(readings, at + [used], used + 1, (start + 1000) % U32)
  {
    StepsJustifiedExtend(readings, at, used);
    if |at| > 0 {
      var j := |at| - 1;
      assert StepsJustified(readings, at, used);
      assert 0 < at[j] < used && Elapsed(readings[at[j]], WindowStart(readings[0], j)) >= 1000;
    }
    NoStepMissedStep(readings, at, used);
    WindowAdvance(readings[0], |at|);
  }

  /** Passing over a reading that is not far enough keeps Progress. */
  lemma ProgressSkip(readings: seq<u32>, at: seq<nat>, used: nat, start: u32)
    requires Progress(readings, at, used, start) && used < |readings|
    requires Elapsed(readings[used], start) < 1000
    ensures Progress(readings, at, used + 1, start)
  {
    NoStepMissedSkip(readings, at, used);
  }

  /** The inner loop of `sleep`: while time is left and the next reading is
      at least 1000 µs past `start`, take one millisecond step. It stops after
      a reading that is not far enough, when no time is left, or when the
      readings run out; it consumes at least one reading when it can. */
  method CatchUp(readings: seq<u32>, left0: u32, steps0: nat, start0: u32, used0: nat, ghost at0: seq<nat>)
    returns (left: u32, steps: nat, start: u32, used: nat, ghost at: seq<nat>)
    requires |at0| == steps0 && Progress(readings, at0, used0, start0)
    ensures used0 <= used <= |readings|
    ensures left0 > 0 && used0 < |readings| ==> used > used0
    ensures steps + left == steps0 + left0
    ensures |at| == steps && Progress(readings, at, used, start)
    ensures left > 0 ==> used == |readings| || (used > used0 && Elapsed(readings[used - 1], start) < 1000)
    ensures left == 0 && left0 > 0 ==> 0 < |at| && at[steps - 1] == used - 1
  {
    left, steps, start, used, at := left0, steps0, start0, used0, at0;
    while left > 0
      invariant used0 <= used <= |readings|
      invariant used == used0 ==> left == left0
      invariant steps + left == steps0 + left0
      invariant |at| == steps && Progress(readings, at, used, start)
      invariant left == 0 && left0 > 0 ==> 0 < |at| && at[steps - 1] == used - 1
      decreases |readings| - used
    {
      if used == |readings| {
        break;
      }
      var now := readings[used];
      if Elapsed(now, start) < 1000 {
        ProgressSkip(readings, at, used, start);
        used := used + 1;
        break;
      }
      // _delay_ms(1) has no effect on the modelled state
      ProgressStep(readings, at, used, start);
      assert (at + [used])[steps] == used;
      at := at + [used];
      used := used + 1;
      start := (start + 1000) % U32;
      steps := steps + 1;
      left := left - 1;
    }
  }

  /** `sleep(ms)`. The clock is read through `readings`: the values the
      successive calls of `uptimeUs` return, the first of them being the start
      time. Each inner step (`_delay_ms(1); ms--; start += 1000;`) is taken
      only on a reading at least 1000 µs past `start`. If the readings run out
      before `ms` reaches 0, the loop would still be waiting: the method then
      reports `finished == false`. */
  method Sleep(ms: u32, readings: seq<u32>)
    returns (finished: bool, steps: nat, start: u32, used: nat, ghost at: seq<nat>)
    requires |readings| > 0
    ensures 1 <= used <= |readings|
    ensures steps <= ms
    ensures finished ==> steps == ms
    ensures !finished ==> used == |readings|
    ensures ms == 0 ==> finished && used == 1
    ensures !finished ==> steps < ms
    ensures |at| == steps && Progress(readings, at, used, start)
    ensures finished && ms > 0 ==> at[ms - 1] == used - 1
  {
    start := readings[0];
    used := 1;
    var left := ms;
    steps, at, finished := 0, [], true;
    while left > 0
      invariant 1 <= used <= |readings|
      invariant ms == 0 ==> used == 1
      invariant steps + left == ms
      invariant |at| == steps && Progress(readings, at, used, start)
      invariant finished
      invariant left == 0 && ms > 0 ==> 0 < |at| && at[steps - 1] == used - 1
      decreases |readings| - used
    {
      if used == |readings| {
        finished := false;
        break;
      }
      left, steps, start, used, at := CatchUp(readings, left, steps, start, used, at);
    }
  }

  /** What the jump back does to `sleep(1)` when started late in an overflow
      period (TCNT0 at least 65): started one tick before the first overflow
      (reading 1020), the next reading (256) is 2^32 - 764 µs past `start` in
      unsigned arithmetic, so that reading already justifies the one
      millisecond step although a single 4 µs tick has gone by. The opposite
      case, a step that comes late, is SleepStepsLateAcrossOverflow. */
  lemma SleepStepsEarlyAtOverflow()
    ensures var readings := [Micros(0, 255, false), Micros(1, 0, false)];
      Elapsed(readings[1], readings[0]) == U32 - 764 &&
      Progress(readings, [1], 2, (readings[0] + 1000) % U32)
    ensures Elapsed(IntendedMicros(1, 0), IntendedMicros(0, 255)) == 4
  {
    MicrosNotMonotone();
    MicrosOverflowStep(0);
    var readings := [Micros(0, 255, false), Micros(1, 0, false)];
    ProgressStep(readings, [], 1, readings[0]);
    IntendedMicrosStep(0, 255);
  }

  /** Before the second overflow period the reading as written is 256·m + 4·t. */
  lemma MicrosFirstPeriods(m: u32, t: u8)
    requires m <= 1
    ensures Micros(m, t, false) == 256 * m + 4 * t
  {
    MicrosClosedForm(m, t, false);
    ModUnique(256 * m + 4 * t, 0, 256 * m + 4 * t);
  }

  /** The readings of `uptimeUs` on successive Timer0 ticks from count 0,
      TCNT0 25 (reading 100) to count 1, TCNT0 211 (reading 1100). */
  function TicksFrom25(): (r: seq<u32>)
    ensures |r| == 443
  {
    seq(231, i requires 0 <= i < 231 => Micros(0, (25 + i) as u8, false)) +
    seq(212, i requires 0 <= i < 212 => Micros(1, i as u8, false))
  }

  /** What the jump back does to `sleep(1)` when started early in an overflow
      period (TCNT0 between 6 and 64): started at reading 100, no reading of
      the rest of the period is 1000 µs past `start`, and after the jump back
      to 256 the readings must climb to 1100 first. The step is taken on tick
      442 (1768 µs later), while with the intended conversion the reading 250
      ticks later is already exactly 1000 µs past the start. */
  lemma SleepStepsLateAcrossOverflow()
    ensures var readings := TicksFrom25();
      readings[0] == 100 && readings[442] == 1100 &&
      Progress(readings, [442], 443, (readings[0] + 1000) % U32)
    ensures Elapsed(IntendedMicros(1, 19), IntendedMicros(0, 25)) == 1000
  {
    var r := TicksFrom25();
    MicrosFirstPeriods(0, 25);
    MicrosFirstPeriods(1, 211);
    assert r[0] == 100 && r[442] == 1100;
    forall k | 0 < k < 442
      ensures Elapsed(r[k], 100) < 1000
    {
      if k < 231 {
        MicrosFirstPeriods(0, (25 + k) as u8);
      } else {
        MicrosFirstPeriods(1, (k - 231) as u8);
      }
      ModUnique(r[k] - 100, 0, r[k] - 100);
    }
    ModUnique(1000, 0, 1000);
    assert WindowStart(100, 0) == 100 && WindowStart(100, 1) == 1100;
    forall j, k | 0 <= j <= 1 && GapStart([442], j) < k < GapEnd([442], j, 443) && k < |r|
      ensures Elapsed(r[k], WindowStart(r[0], j)) < 1000
    {
    }
    assert StepsJustified(r, [442], 443);
    IntendedClosedForm(1, 19);
    IntendedClosedForm(0, 25);
    ModUnique(1100, 0, 1100);
    ModUnique(100, 0, 100);
  }

  /** `sleepMicroseconds(us)`: one `_delay_us(1)` per unit of `us`. */
  method SleepMicroseconds(us: u16) returns (delays: nat)
    ensures delays == us
  {
    var left := us;
    delays := 0;
    while left > 0
      invariant 0 <= left <= us
      invariant delays + left == us
    {
      // _delay_us(1) has no effect on the modelled state
      left := left - 1;
      delays := delays + 1;
    }
  }
}
