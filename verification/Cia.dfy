// The timers of the two CIA chips, advanced lazily between scheduled events, against timers that
// are stepped on every E-clock.

module Cia {
  import Division

  const DIV10 := 2560

  datatype Mode = EClock | Cnt | Cascade

  // Timer counters and latches, the control bits that matter for them, the interrupt bits set so
  // far and the bits left in the serial port.
  datatype Chip = Chip(
    ta: nat, tb: nat, la: nat, lb: nat,
    startA: bool, oneShotA: bool, modeA: Mode, serialOut: bool,
    startB: bool, oneShotB: bool, modeB: Mode,
    icrA: bool, icrB: bool, icrSerial: bool, sdrCount: nat)
  {
    predicate RunsA() { startA && modeA == EClock }
    predicate RunsB() { startB && modeB == EClock }
    predicate Cascaded() { startB && modeB == Cascade }
  }

  // ---- one E-clock after another ----

  predicate UnderflowA(c: Chip) { c.RunsA() && c.ta == 0 }

  // Timer B is due to count in this E-clock.
  predicate PulseB(c: Chip) { c.RunsB() || (c.Cascaded() && UnderflowA(c)) }

  predicate UnderflowB(c: Chip) { PulseB(c) && c.tb == 0 }

  predicate SerialDone(c: Chip) { UnderflowA(c) && c.serialOut && !c.oneShotA && c.sdrCount == 1 }

  function Tick(c: Chip): Chip {
    c.(ta := if !c.RunsA() then c.ta else if c.ta == 0 then c.la else c.ta - 1,
       tb := if !PulseB(c) then c.tb else if c.tb == 0 then c.lb else c.tb - 1,
       startA := c.startA && !(UnderflowA(c) && c.oneShotA),
       startB := c.startB && !(UnderflowB(c) && c.oneShotB),
       icrA := c.icrA || UnderflowA(c), icrB := c.icrB || UnderflowB(c), icrSerial := c.icrSerial || SerialDone(c),
       sdrCount := if UnderflowA(c) && c.serialOut && !c.oneShotA && c.sdrCount > 0 then c.sdrCount - 1 else c.sdrCount)
  }

  function Ticks(c: Chip, n: nat): Chip { if n == 0 then c else Tick(Ticks(c, n - 1)) }

  lemma {:induction false} TicksAdd(c: Chip, m: nat, n: nat)
    ensures Ticks(c, m + n) == Ticks(Ticks(c, m), n)
  {
    hide Tick;
    if n > 0 { TicksAdd(c, m, n - 1); }
  }

  // ---- all at once ----

  // No running timer gets past its underflow: the condition the source asserts.
  predicate Bounded(c: Chip, n: nat) { (c.RunsA() ==> c.ta + 1 >= n) && (c.RunsB() ==> c.tb + 1 >= n) }

  function Down(c: Chip, n: nat): Chip
    requires (c.RunsA() ==> n <= c.ta) && (c.RunsB() ==> n <= c.tb)
  {
    c.(ta := if c.RunsA() then c.ta - n else c.ta, tb := if c.RunsB() then c.tb - n else c.tb)
  }

  // Until just before an underflow the counters only go down.
  lemma {:induction false} Countdown(c: Chip, n: nat)
    requires (c.RunsA() ==> n <= c.ta) && (c.RunsB() ==> n <= c.tb)
    ensures Ticks(c, n) == Down(c, n)
  {
    if n > 0 { Countdown(c, n - 1); }
  }

  lemma LastTick(c: Chip, n: nat)
    requires Bounded(c, n)
    ensures Ticks(c, n) == if n == 0 then c else Tick(Down(c, n - 1))
  {
    hide Tick, Down;
    if n > 0 { Countdown(c, n - 1); }
  }

  // The counters after n E-clocks and which of them underflowed, before CIA_update reloads them.
  datatype Counted = Counted(ta: int, tb: int, sdrCount: nat, overA: bool, overB: bool, serial: bool)

  function CountedTo(c: Chip, n: nat): Counted {
    var overA := c.RunsA() && c.ta + 1 == n;
    Counted(
      if c.RunsA() then c.ta - n else c.ta,
      if overA && c.Cascaded() then c.tb - 1 else if c.RunsB() then c.tb - n else c.tb,
      if overA && c.serialOut && !c.oneShotA && c.sdrCount > 0 then c.sdrCount - 1 else c.sdrCount,
      overA, (overA && c.Cascaded() && c.tb == 0) || (c.RunsB() && c.tb + 1 == n),
      overA && c.serialOut && !c.oneShotA && c.sdrCount == 1)
  }

  method Count(c: Chip, n: nat) returns (k: Counted)
    requires Bounded(c, n)
    ensures k == CountedTo(c, n)
  {
    var ta: int, tb: int, sdrCount := c.ta, c.tb, c.sdrCount;
    var overA, overB, serial := false, false, false;
    if c.RunsA() {
      assert ta + 1 >= n;
      if ta + 1 == n {
        if c.serialOut && !c.oneShotA && sdrCount > 0 {
          sdrCount := sdrCount - 1;
          serial := sdrCount == 0;
        }
        overA := true;
        if c.Cascaded() {
          overB := tb == 0;
          tb := tb - 1;
        }
      }
      ta := ta - n;
    }
    if c.RunsB() {
      assert tb + 1 >= n;
      if tb + 1 == n { overB := true; }
      tb := tb - n;
    }
    k := Counted(ta, tb, sdrCount, overA, overB, serial);
  }

  // What CIA_update does about underflows: interrupt bits, reloading, stopping.
  function Reloaded(c: Chip, k: Counted): Chip
    requires (!k.overA ==> k.ta >= 0) && (!k.overB ==> k.tb >= 0)
  {
    c.(ta := if k.overA then c.la else k.ta, tb := if k.overB then c.lb else k.tb,
       startA := c.startA && !(k.overA && c.oneShotA), startB := c.startB && !(k.overB && c.oneShotB),
       icrA := c.icrA || k.overA, icrB := c.icrB || k.overB, icrSerial := c.icrSerial || k.serial,
       sdrCount := k.sdrCount)
  }

  // CIA_update for one chip, when n E-clocks have passed.
  method UpdateChip(c: Chip, n: nat) returns (r: Chip)
    requires Bounded(c, n)
    ensures r == Ticks(c, n)
  {
    hide Ticks, Tick, Reloaded, CountedTo, Bounded;
    LastTick(c, n);
    JumpIsTick(c, n);
    var k := Count(c, n);
    r := Reloaded(c, k);
  }

  lemma OverIs(c: Chip, n: nat)
    requires n > 0 && Bounded(c, n)
    ensures var m, k := Down(c, n - 1), CountedTo(c, n);
      && UnderflowA(m) == k.overA && PulseB(m) == (c.RunsB() || (c.Cascaded() && k.overA))
      && UnderflowB(m) == k.overB && SerialDone(m) == k.serial
  {
  }

  lemma JumpIsTick(c: Chip, n: nat)
    requires Bounded(c, n)
    ensures var k := CountedTo(c, n); (!k.overA ==> k.ta >= 0) && (!k.overB ==> k.tb >= 0)
    ensures Reloaded(c, CountedTo(c, n)) == if n == 0 then c else Tick(Down(c, n - 1))
  {
    if n > 0 {
      OverIs(c, n);
      JumpCounters(c, n);
      hide UnderflowA, UnderflowB, PulseB, SerialDone;
    }
  }

  lemma JumpCounters(c: Chip, n: nat)
    requires n > 0 && Bounded(c, n)
    ensures var k, t := CountedTo(c, n), Tick(Down(c, n - 1));
      && (!k.overA ==> k.ta >= 0) && (!k.overB ==> k.tb >= 0)
      && t.ta == (if k.overA then c.la else k.ta) && t.tb == (if k.overB then c.lb else k.tb)
      && t.sdrCount == k.sdrCount
  {
  }

  // ---- when the next underflow is ----

  predicate AnyRuns(a: Chip, b: Chip) { a.RunsA() || a.RunsB() || b.RunsA() || b.RunsB() }

  // The time until a counter underflows, seen from phase div10; -1 stands for never.
  function Wait(t: int, div10: nat): int { if t == -1 then -1 else (DIV10 - div10) + DIV10 * t }

  function Sooner(x: int, y: int): int { if x == -1 || (y != -1 && y < x) then y else x }

  function Due(runs: bool, t: nat): int { if runs then t else -1 }

  // The earliest of the running ones.
  function Earliest(a: Chip, b: Chip): int {
    Sooner(Sooner(Sooner(Due(a.RunsA(), a.ta), Due(a.RunsB(), a.tb)), Due(b.RunsA(), b.ta)), Due(b.RunsB(), b.tb))
  }

  lemma EarliestBounds(a: Chip, b: Chip, n: nat)
    requires AnyRuns(a, b) ==> n <= Earliest(a, b) + 1
    ensures Bounded(a, n) && Bounded(b, n)
  {
  }

  lemma EarliestRuns(a: Chip, b: Chip)
    ensures Earliest(a, b) >= -1 && (AnyRuns(a, b) <==> Earliest(a, b) != -1)
  {
  }

  lemma SoonerWait(x: int, y: int, div10: nat)
    requires x >= -1 && y >= -1 && div10 < DIV10
    ensures Sooner(Wait(x, div10), Wait(y, div10)) == Wait(Sooner(x, y), div10)
    ensures Wait(x, div10) >= -1 && (Wait(x, div10) == -1 <==> x == -1)
  {
  }

  lemma WaitEarliest(a: Chip, b: Chip, div10: nat)
    requires div10 < DIV10
    ensures Sooner(Sooner(Sooner(Wait(Due(a.RunsA(), a.ta), div10), Wait(Due(a.RunsB(), a.tb), div10)),
                          Wait(Due(b.RunsA(), b.ta), div10)), Wait(Due(b.RunsB(), b.tb), div10))
         == Wait(Earliest(a, b), div10)
    ensures Wait(Earliest(a, b), div10) != -1 <==> AnyRuns(a, b)
    ensures AnyRuns(a, b) ==> Wait(Earliest(a, b), div10) > 0
  {
    EarliestRuns(a, b);
    hide AnyRuns;
    var x1, x2 := Due(a.RunsA(), a.ta), Due(a.RunsB(), a.tb);
    var y1, y2 := Due(b.RunsA(), b.ta), Due(b.RunsB(), b.tb);
    SoonerWait(x1, x2, div10);
    SoonerWait(Sooner(x1, x2), y1, div10);
    SoonerWait(Sooner(Sooner(x1, x2), y1), y2, div10);
    SoonerWait(Earliest(a, b), y2, div10);
  }

  // ---- time ----

  // What the timers would show if they were stepped all along, and the phase within an E-clock.
  datatype Now = Now(a: Chip, b: Chip, phase: nat)

  function Advance(x: Now, cycles: nat): Now {
    var n := (x.phase + cycles) / DIV10;
    Now(Ticks(x.a, n), Ticks(x.b, n), (x.phase + cycles) % DIV10)
  }

  lemma DivMod(x: nat, n: nat)
    ensures (x / DIV10) + (x % DIV10 + n) / DIV10 == (x + n) / DIV10
    ensures (x % DIV10 + n) % DIV10 == (x + n) % DIV10
  {
    var q := x / DIV10;
    assert x + n == DIV10 * q + (x % DIV10 + n);
  }

  // Time can be split anywhere: only the sum counts.
  lemma AdvanceAdds(x: Now, m: nat, n: nat)
    ensures Advance(Advance(x, m), n) == Advance(x, m + n)
  {
    hide Ticks;
    var k := (x.phase + m) / DIV10;
    DivMod(x.phase + m, n);
    var j := ((x.phase + m) % DIV10 + n) / DIV10;
    TicksAdd(x.a, k, j);
    TicksAdd(x.b, k, j);
  }

  // An E-clock takes 2560 cycles, that is five of the chipset's; so many E-clocks are counted in any number of
  // cycles, and the rest is kept.
  lemma ClockCycles(x: Now, n: nat, rest: nat)
    requires x.phase + rest < 2560
    ensures Advance(x, 2560 * n + rest) == Now(Ticks(x.a, n), Ticks(x.b, n), x.phase + rest)
  {
    hide Advance, Ticks;
    Clocks(n, x.phase + rest);
    assert x.phase + (2560 * n + rest) == 2560 * n + (x.phase + rest);
    CountedCycles(x, 2560 * n + rest, n, x.phase + rest);
  }

  lemma CountedCycles(x: Now, cycles: nat, n: nat, phase: nat)
    requires (x.phase + cycles) / 2560 == n && (x.phase + cycles) % 2560 == phase
    ensures Advance(x, cycles) == Now(Ticks(x.a, n), Ticks(x.b, n), phase)
  {
    hide Ticks;
  }

  lemma Clocks(n: nat, rest: nat)
    requires rest < 2560
    ensures (2560 * n + rest) / 2560 == n && (2560 * n + rest) % 2560 == rest
  {
  }

  // ---- how often timers underflow ----

  // A counter that starts at t and is reloaded with l: its value and its underflows after n counts.
  function ValueAfter(t: nat, l: nat, n: nat): nat { if n <= t then t - n else l - (n - t - 1) % (l + 1) }

  function UnderflowsAfter(t: nat, l: nat, n: nat): nat { if n <= t then 0 else 1 + (n - t - 1) / (l + 1) }

  lemma OneCount(t: nat, l: nat, n: nat)
    ensures ValueAfter(t, l, n + 1) == if ValueAfter(t, l, n) == 0 then l else ValueAfter(t, l, n) - 1
    ensures UnderflowsAfter(t, l, n + 1) == UnderflowsAfter(t, l, n) + if ValueAfter(t, l, n) == 0 then 1 else 0
  {
    if n > t {
      NextMultiple(n - t - 1, l + 1);
    } else if n == t {
      assert 0 % (l + 1) == 0 && 0 / (l + 1) == 0;
    }
  }

  lemma NextMultiple(x: nat, d: nat)
    requires d > 0
    ensures x % d == d - 1 ==> (x + 1) % d == 0 && (x + 1) / d == x / d + 1
    ensures x % d < d - 1 ==> (x + 1) % d == x % d + 1 && (x + 1) / d == x / d
  {
    var q, r := x / d, x % d;
    if r == d - 1 {
      assert q * d + d == (q + 1) * d;
      Division.Unique(x + 1, d, q + 1, 0);
    } else {
      Division.Unique(x + 1, d, q, r + 1);
    }
  }

  function CountA(c: Chip, n: nat): nat {
    if n == 0 then 0 else CountA(c, n - 1) + if UnderflowA(Ticks(c, n - 1)) then 1 else 0
  }

  function CountB(c: Chip, n: nat): nat {
    if n == 0 then 0 else CountB(c, n - 1) + if UnderflowB(Ticks(c, n - 1)) then 1 else 0
  }

  predicate ContinuousA(c: Chip) { c.RunsA() && !c.oneShotA }

  predicate ContinuousCascade(c: Chip) { c.Cascaded() && !c.oneShotB }

  // A continuous timer A underflows every la + 1 E-clocks, after the first ta + 1.
  lemma {:induction false} PeriodA(c: Chip, n: nat)
    requires ContinuousA(c)
    ensures var r := Ticks(c, n);
      ContinuousA(r) && r.la == c.la && r.ta == ValueAfter(c.ta, c.la, n)
      && CountA(c, n) == UnderflowsAfter(c.ta, c.la, n)
  {
    if n > 0 {
      PeriodA(c, n - 1);
      OneCount(c.ta, c.la, n - 1);
    }
  }

  // Timer B counting the underflows of A underflows every lb + 1 of them.
  lemma {:induction false} PeriodCascade(c: Chip, n: nat)
    requires ContinuousA(c) && ContinuousCascade(c)
    ensures var r := Ticks(c, n);
      && ContinuousCascade(r) && r.lb == c.lb && r.tb == ValueAfter(c.tb, c.lb, CountA(c, n))
      && CountB(c, n) == UnderflowsAfter(c.tb, c.lb, CountA(c, n))
  {
    if n > 0 {
      PeriodCascade(c, n - 1);
      PeriodA(c, n - 1);
      OneCount(c.tb, c.lb, CountA(c, n - 1));
    }
  }

  lemma WholePeriods(l: nat, m: nat)
    ensures UnderflowsAfter(l, l, m * (l + 1)) == m
  {
    if m > 0 {
      assert m * (l + 1) == (m - 1) * (l + 1) + (l + 1);
      Division.Unique(m * (l + 1) - l - 1, l + 1, m - 1, 0);
    }
  }

  // From full counters, m underflows of B take m times (la + 1) times (lb + 1) E-clocks.
  lemma CascadePeriod(c: Chip, m: nat)
    requires ContinuousA(c) && ContinuousCascade(c) && c.ta == c.la && c.tb == c.lb
    ensures CountB(c, (m * (c.lb + 1)) * (c.la + 1)) == m
  {
    hide CountA, CountB, UnderflowsAfter, ValueAfter, Ticks;
    var n := (m * (c.lb + 1)) * (c.la + 1);
    PeriodA(c, n);
    WholePeriods(c.la, m * (c.lb + 1));
    PeriodCascade(c, n);
    WholePeriods(c.lb, m);
  }

  // ---- the registers ----

  type Byte = v: int | 0 <= v < 256

  datatype Write =
    | LatchALow(v: Byte)
    | LatchAHigh(v: Byte)
    | LatchBLow(v: Byte)
    | LatchBHigh(v: Byte)
    | Serial
    | ControlA(start: bool, oneShot: bool, force: bool, mode: Mode, serialOut: bool)
    | ControlB(start: bool, oneShot: bool, force: bool, mode: Mode)

  function Written(c: Chip, w: Write): Chip {
    match w
    case LatchALow(v) => c.(la := c.la - c.la % 256 + v)
    case LatchAHigh(v) =>
      var l := c.la % 256 + 256 * v;
      c.(la := l, ta := if !c.startA || c.oneShotA then l else c.ta, startA := c.startA || c.oneShotA)
    case LatchBLow(v) => c.(lb := c.lb - c.lb % 256 + v)
    case LatchBHigh(v) =>
      var l := c.lb % 256 + 256 * v;
      c.(lb := l, tb := if !c.startB || c.oneShotB then l else c.tb, startB := c.startB || c.oneShotB)
    case Serial =>
      var count := if c.serialOut then c.sdrCount else 0;
      c.(sdrCount := if c.serialOut && c.startA && count == 0 then 16 else count)
    case ControlA(start, oneShot, force, mode, serialOut) =>
      c.(startA := start, oneShotA := oneShot, modeA := mode, serialOut := serialOut,
         ta := if force then c.la else c.ta)
    case ControlB(start, oneShot, force, mode) =>
      c.(startB := start, oneShotB := oneShot, modeB := mode, tb := if force then c.lb else c.tb)
  }

  // A timer that stops by itself counts down once: it underflows once, and stands still at its latch.
  lemma {:induction false} OnceA(c: Chip, n: nat)
    requires c.RunsA() && c.oneShotA
    ensures var r := Ticks(c, n);
      && r.la == c.la && r.oneShotA && r.modeA == c.modeA
      && r.startA == (n <= c.ta) && r.ta == (if n <= c.ta then c.ta - n else c.la)
      && CountA(c, n) == (if n <= c.ta then 0 else 1)
  {
    if n > 0 { OnceA(c, n - 1); }
  }

  lemma {:induction false} OnceB(c: Chip, n: nat)
    requires c.RunsB() && c.oneShotB
    ensures var r := Ticks(c, n);
      && r.lb == c.lb && r.oneShotB && r.modeB == c.modeB
      && r.startB == (n <= c.tb) && r.tb == (if n <= c.tb then c.tb - n else c.lb)
      && CountB(c, n) == (if n <= c.tb then 0 else 1)
  {
    if n > 0 { OnceB(c, n - 1); }
  }

  // A one-shot timer needs no more than its two latch bytes: whatever it did before, it underflows exactly once,
  // 256 * hi + lo + 1 E-clocks later, and stops.
  lemma OneShotA(c: Chip, lo: Byte, hi: Byte, n: nat)
    requires c.oneShotA && c.modeA == EClock
    ensures var w := Written(Written(c, LatchALow(lo)), LatchAHigh(hi));
      && CountA(w, n) == (if n < 256 * hi + lo + 1 then 0 else 1)
      && Ticks(w, n).startA == (n < 256 * hi + lo + 1)
      && Ticks(w, n).ta == (if n <= 256 * hi + lo then 256 * hi + lo - n else 256 * hi + lo)
  {
    hide CountA;
    TwoBytes(c.la, lo, hi);
    OnceA(Written(Written(c, LatchALow(lo)), LatchAHigh(hi)), n);
  }

  lemma OneShotB(c: Chip, lo: Byte, hi: Byte, n: nat)
    requires c.oneShotB && c.modeB == EClock
    ensures var w := Written(Written(c, LatchBLow(lo)), LatchBHigh(hi));
      && CountB(w, n) == (if n < 256 * hi + lo + 1 then 0 else 1)
      && Ticks(w, n).startB == (n < 256 * hi + lo + 1)
      && Ticks(w, n).tb == (if n <= 256 * hi + lo then 256 * hi + lo - n else 256 * hi + lo)
  {
    hide CountB;
    TwoBytes(c.lb, lo, hi);
    OnceB(Written(Written(c, LatchBLow(lo)), LatchBHigh(hi)), n);
  }

  // A latch takes its two bytes in either order.
  lemma LatchedA(c: Chip, lo: Byte, hi: Byte)
    ensures Written(Written(c, LatchALow(lo)), LatchAHigh(hi)).la == 256 * hi + lo
    ensures Written(Written(c, LatchAHigh(hi)), LatchALow(lo)).la == 256 * hi + lo
  {
    TwoBytes(c.la, lo, hi);
  }

  lemma LatchedB(c: Chip, lo: Byte, hi: Byte)
    ensures Written(Written(c, LatchBLow(lo)), LatchBHigh(hi)).lb == 256 * hi + lo
    ensures Written(Written(c, LatchBHigh(hi)), LatchBLow(lo)).lb == 256 * hi + lo
  {
    TwoBytes(c.lb, lo, hi);
  }

  lemma TwoBytes(l: nat, lo: Byte, hi: Byte)
    ensures (l - l % 256 + lo) % 256 == lo
    ensures (l % 256 + 256 * hi) - (l % 256 + 256 * hi) % 256 == 256 * hi
  {
    assert (l % 256 + 256 * hi) % 256 == l % 256;
  }

  // A continuous timer, given its latch and then started: it underflows every 256 * hi + lo + 1 E-clocks, the first
  // time so long after the start, or when the count is through that it was in if it was running and not forced.
  lemma StartedA(c: Chip, lo: Byte, hi: Byte, force: bool, serialOut: bool, n: nat)
    requires !c.oneShotA
    ensures var l := 256 * hi + lo;
      var w := Written(Written(c, LatchALow(lo)), LatchAHigh(hi));
      var r := Written(w, ControlA(true, false, force, EClock, serialOut));
      var first := if c.startA && !force then c.ta else l;
      CountA(r, n) == if n <= first then 0 else 1 + (n - first - 1) / (l + 1)
  {
    hide CountA;
    var w := Written(Written(c, LatchALow(lo)), LatchAHigh(hi));
    TwoBytes(c.la, lo, hi);
    PeriodA(Written(w, ControlA(true, false, force, EClock, serialOut)), n);
  }

  // The same for timer B, counting E-clocks or the underflows of a continuous timer A.
  lemma StartedB(c: Chip, lo: Byte, hi: Byte, n: nat)
    requires ContinuousA(c)
    ensures var l := 256 * hi + lo;
      var w := Written(Written(c, LatchBLow(lo)), LatchBHigh(hi));
      var r := Written(w, ControlB(true, false, true, Cascade));
      CountB(r, n) == if CountA(r, n) <= l then 0 else 1 + (CountA(r, n) - l - 1) / (l + 1)
  {
    hide CountA, CountB;
    var w := Written(Written(c, LatchBLow(lo)), LatchBHigh(hi));
    TwoBytes(c.lb, lo, hi);
    PeriodCascade(Written(w, ControlB(true, false, true, Cascade)), n);
  }

  // Sixteen underflows of a timer that shifts out its serial port, and the byte is gone: eight bits, two
  // underflows each.
  lemma {:induction false} Shifting(c: Chip, n: nat)
    requires ContinuousA(c) && c.serialOut
    ensures var r := Ticks(c, n);
      && r.serialOut && r.sdrCount == (if c.sdrCount <= CountA(c, n) then 0 else c.sdrCount - CountA(c, n))
      && r.icrSerial == (c.icrSerial || 0 < c.sdrCount <= CountA(c, n))
  {
    if n > 0 {
      Shifting(c, n - 1);
      PeriodA(c, n - 1);
    }
  }

  lemma ByteSent(c: Chip, n: nat)
    requires ContinuousA(c) && c.serialOut && c.sdrCount == 0 && !c.icrSerial
    ensures Ticks(Written(c, Serial), n).icrSerial <==> CountA(c, n) >= 16
  {
    Shifting(Written(c, Serial), n);
    PeriodA(c, n);
    PeriodA(Written(c, Serial), n);
  }

  // ---- the timers as the source keeps them ----

  class Timers {
    var a: Chip
    var b: Chip
    var div10: nat
    var oldcycles: int
    var cycles: int
    var active: bool
    var evtime: int

    // The event is scheduled for the earliest underflow, and time has not run past it.
    ghost predicate Valid()
      reads this
    {
      && div10 < DIV10 && oldcycles <= cycles
      && active == AnyRuns(a, b)
      && (active ==> evtime == oldcycles + Wait(Earliest(a, b), div10) && cycles <= evtime)
    }

    ghost function View(): Now
      requires oldcycles <= cycles
      reads this
    {
      Advance(Now(a, b, div10), cycles - oldcycles)
    }

    constructor (a: Chip, b: Chip)
      ensures Valid() && View() == Now(a, b, 0)
    {
      this.a, this.b := a, b;
      div10, oldcycles, cycles, evtime := 0, 0, 0, 0;
      active := false;
      new;
      CalcTimers();
    }

    // The asserted bound holds for both chips whenever time has not run past the event.
    lemma BoundHolds()
      requires Valid()
      ensures var n := (cycles - oldcycles + div10) / DIV10; Bounded(a, n) && Bounded(b, n)
    {
      var x := cycles - oldcycles + div10;
      if active {
        var t := Earliest(a, b);
        EarliestRuns(a, b);
        assert x <= DIV10 * (t + 1);
        DivBound(x, t + 1);
      }
      EarliestBounds(a, b, x / DIV10);
    }

    // CIA_update
    method Update()
      requires Valid()
      modifies this`a, this`b, this`div10
      ensures Now(a, b, div10) == old(View()) && div10 < DIV10
    {
      hide Ticks, Bounded, Wait, Earliest;
      BoundHolds();
      var ccount := cycles - oldcycles + div10;
      var clocks := ccount / DIV10;
      div10 := ccount % DIV10;
      a := UpdateChip(a, clocks);
      b := UpdateChip(b, clocks);
    }

    // CIA_calctimers, in the same cycle as an update
    method CalcTimers()
      requires div10 < DIV10
      modifies this`oldcycles, this`active, this`evtime
      ensures Valid() && View() == Now(a, b, div10) && (active ==> cycles < evtime)
    {
      hide Sooner, Wait, AnyRuns;
      oldcycles := cycles;
      var timeA1, timeA2 := Wait(Due(a.RunsA(), a.ta), div10), Wait(Due(a.RunsB(), a.tb), div10);
      var timeB1, timeB2 := Wait(Due(b.RunsA(), b.ta), div10), Wait(Due(b.RunsB(), b.tb), div10);
      var time := Sooner(Sooner(Sooner(timeA1, timeA2), timeB1), timeB2);
      WaitEarliest(a, b, div10);
      active := time != -1;
      if active { evtime := time + cycles; }
      assert Ticks(a, 0) == a && Ticks(b, 0) == b;
    }

    method Handler()
      requires Valid()
      modifies this
      ensures Valid() && View() == old(View()) && (active ==> cycles < evtime) && cycles == old(cycles)
    {
      hide Ticks, Wait, Earliest, AnyRuns;
      Update();
      CalcTimers();
    }

    // A write to a timer register: up to date, changed, rescheduled. Nothing else moves.
    method WriteRegister(toA: bool, w: Write)
      requires Valid()
      modifies this
      ensures Valid() && cycles == old(cycles) && (active ==> cycles < evtime)
      ensures var x := old(View());
        View() == Now(if toA then Written(x.a, w) else x.a, if toA then x.b else Written(x.b, w), x.phase)
    {
      hide Ticks, Wait, Earliest, AnyRuns, Written;
      Update();
      if toA { a := Written(a, w); } else { b := Written(b, w); }
      CalcTimers();
    }

    // compute_passed_time and the reads that follow: what is read is what the timers would show.
    method ReadTimers() returns (ta: int, tb: int)
      requires Valid() && (active ==> cycles < evtime)
      ensures ta == View().a.ta && tb == View().a.tb
    {
      var clocks := (cycles - oldcycles + div10) / DIV10;
      var passedA, passedB := 0, 0;
      BeforeUnderflow();
      if a.RunsA() { passedA := clocks; }
      if a.RunsB() { passedB := clocks; }
      Countdown(a, clocks);
      ta, tb := a.ta - passedA, a.tb - passedB;
    }

    // Strictly before the event no counter has reached its underflow.
    lemma BeforeUnderflow()
      requires Valid() && (active ==> cycles < evtime)
      ensures var n := (cycles - oldcycles + div10) / DIV10;
        && (a.RunsA() ==> n <= a.ta) && (a.RunsB() ==> n <= a.tb) && (b.RunsA() ==> n <= b.ta)
        && (b.RunsB() ==> n <= b.tb)
    {
      var x := cycles - oldcycles + div10;
      if active {
        var t := Earliest(a, b);
        EarliestRuns(a, b);
        assert x < DIV10 * (t + 1);
        DivStrict(x, t + 1);
      }
      EarliestIsEarly(a, b);
    }

    // do_cycles, as far as this event is concerned: time stops at the event for the handler to run.
    method DoCycles(n: nat)
      requires Valid()
      modifies this
      ensures Valid() && View() == Advance(old(View()), n) && cycles == old(cycles) + n
      ensures active ==> cycles < evtime
    {
      hide Ticks, Wait, Earliest, AnyRuns, Advance;
      var rest := n;
      ghost var x := View();
      NoTime(x);
      while active && evtime - cycles <= rest
        invariant 0 <= rest <= n && cycles == old(cycles) + (n - rest)
        invariant Valid() && View() == Advance(x, n - rest)
        decreases rest, if active && evtime == cycles then 1 else 0
      {
        var step := evtime - cycles;
        PassTime(x, n - rest, step);
        cycles := evtime;
        rest := rest - step;
        Handler();
      }
      PassTime(x, n - rest, rest);
      cycles := cycles + rest;
    }

    lemma PassTime(x: Now, done: nat, step: nat)
      requires Valid() && View() == Advance(x, done)
      ensures Advance(Now(a, b, div10), cycles + step - oldcycles) == Advance(x, done + step)
    {
      AdvanceAdds(Now(a, b, div10), cycles - oldcycles, step);
      AdvanceAdds(x, done, step);
    }

    lemma NoTime(x: Now)
      requires Valid() && x == View()
      ensures x == Advance(x, 0)
    {
      AdvanceAdds(Now(a, b, div10), cycles - oldcycles, 0);
    }
  }

  lemma DivBound(x: int, k: nat)
    requires 0 <= x <= DIV10 * k
    ensures x / DIV10 <= k
  {
  }

  lemma DivStrict(x: int, k: nat)
    requires 0 <= x < DIV10 * k
    ensures x / DIV10 < k
  {
  }

  lemma EarliestIsEarly(a: Chip, b: Chip)
    ensures a.RunsA() ==> Earliest(a, b) <= a.ta
    ensures a.RunsB() ==> Earliest(a, b) <= a.tb
    ensures b.RunsA() ==> Earliest(a, b) <= b.ta
    ensures b.RunsB() ==> Earliest(a, b) <= b.tb
  {
  }
}
