// The CIA timers as one of the events of the table: that time never runs past their underflows, and
// that they are always right, follows from the scheduler.

module CiaEvents {
  import Division
  import opened Cia
  import Events

  const EV_CIA := 3

  // The counters and latches of the hardware have 16 bits.
  predicate Fits(c: Chip) { c.ta < 0x1_0000 && c.tb < 0x1_0000 && c.la < 0x1_0000 && c.lb < 0x1_0000 }

  type Chip16 = c: Chip | Fits(c)
    witness Chip(0, 0, 0, 0, false, false, EClock, false, false, false, EClock, false, false, false, 0)

  // The longest time to an underflow.
  const LONGEST := DIV10 * 0x1_0000

  type Phase = p: nat | p < DIV10

  // The timers, and whatever the other handlers work on.
  datatype World<+R> = World(a: Chip16, b: Chip16, div10: Phase, oldcycles: int, rest: R)

  type Machine<R> = Events.State<World<R>>

  lemma {:induction false} TicksFit(c: Chip, n: nat)
    requires Fits(c)
    ensures Fits(Ticks(c, n))
  {
    if n > 0 { TicksFit(c, n - 1); }
  }

  // CIA_update for one chip; it does nothing sensible where the bound that it asserts is broken.
  function Updated(c: Chip16, n: nat): (r: Chip16)
    ensures Bounded(c, n) ==> r == Ticks(c, n)
  {
    if !Bounded(c, n) then c
    else
      JumpIsTick(c, n);
      LastTick(c, n);
      TicksFit(c, n);
      Reloaded(c, CountedTo(c, n))
  }

  // The cycles since the last update, as an unsigned difference.
  function Elapsed<R>(s: Machine<R>, wrap: nat): nat
    requires wrap > 0
  {
    Events.Wrapped(s.now - s.world.oldcycles, wrap)
  }

  function Clocks<R>(s: Machine<R>, wrap: nat): nat
    requires wrap > 0
  {
    (Elapsed(s, wrap) + s.world.div10) / DIV10
  }

  // CIA_handler: CIA_update and CIA_calctimers.
  function Handled<R>(s: Machine<R>, wrap: nat): Machine<R>
    requires wrap > 0 && |s.tab| == Events.EV_MAX
  {
    var n := Clocks(s, wrap);
    var a, b, div10 := Updated(s.world.a, n), Updated(s.world.b, n), (Elapsed(s, wrap) + s.world.div10) % DIV10;
    var time := Wait(Earliest(a, b), div10);
    s.(world := s.world.(a := a, b := b, div10 := div10, oldcycles := s.now),
       tab := s.tab[EV_CIA := Events.Ev(
         time != -1, if time != -1 then Events.Wrapped(s.now + time, wrap) else s.tab[EV_CIA].evtime)])
  }

  function Handlers<R>(others: Events.Handler<World<R>>, wrap: nat): Events.Handler<World<R>>
    requires wrap > 0
  {
    (i: nat, s: Machine<R>) => if i == EV_CIA && |s.tab| == Events.EV_MAX then Handled(s, wrap) else others(i, s)
  }

  // The other handlers leave the timers and their event alone, and the CIA's handler gives them no work.
  ghost predicate LeaveAlone<R(!new)>(others: Events.Handler<World<R>>, rank: Machine<R> -> nat, wrap: nat)
    requires wrap > 0
  {
    && (forall i: nat, s: Machine<R> | |s.tab| == Events.EV_MAX :: KeepsCia(s, others(i, s)))
    && (forall s: Machine<R> | |s.tab| == Events.EV_MAX :: rank(Handled(s, wrap)) <= rank(s))
  }

  // What is left to do in a cycle, the CIA's handler included.
  function WithCia<R>(rank: Machine<R> -> nat, wrap: nat): Machine<R> -> nat
    requires wrap > 0
  {
    (s: Machine<R>) =>
      rank(s) + if |s.tab| == Events.EV_MAX && Events.Due(s.tab[EV_CIA], s.now, wrap) then 1 else 0
  }

  predicate KeepsCia<R>(s: Machine<R>, t: Machine<R>) {
    && |s.tab| == |t.tab| == Events.EV_MAX && t.now == s.now && t.tab[EV_CIA] == s.tab[EV_CIA]
    && t.world.a == s.world.a && t.world.b == s.world.b && t.world.div10 == s.world.div10
    && t.world.oldcycles == s.world.oldcycles
  }

  lemma WaitFits(a: Chip, b: Chip, div10: nat)
    requires Fits(a) && Fits(b) && div10 < DIV10
    ensures Wait(Earliest(a, b), div10) != -1 <==> AnyRuns(a, b)
    ensures AnyRuns(a, b) ==> 0 < Wait(Earliest(a, b), div10) <= LONGEST
  {
    WaitEarliest(a, b, div10);
    assert Earliest(a, b) < 0x1_0000;
  }

  lemma Distance(now: int, time: int, wrap: nat)
    requires 0 <= time < wrap
    ensures Events.Wrapped(Events.Wrapped(now + time, wrap) - now, wrap) == time
  {
    var q := (now + time) / wrap;
    Division.Negated(q, wrap);
    Division.Unique(Events.Wrapped(now + time, wrap) - now, wrap, -q, time);
  }

  // With the CIA's handler added the handlers are what the scheduler needs them to be.
  lemma HandlersAreLawful<R(!new)>(others: Events.Handler<World<R>>, rank: Machine<R> -> nat, wrap: nat)
    requires wrap > LONGEST && Events.Lawful(others, rank, wrap) && LeaveAlone(others, rank, wrap)
    ensures Events.Lawful(Handlers(others, wrap), WithCia(rank, wrap), wrap)
  {
    hide Handled;
    var h, r := Handlers(others, wrap), WithCia(rank, wrap);
    forall i: nat, s: Machine<R> | i < Events.EV_MAX && |s.tab| == Events.EV_MAX
      ensures Events.Behaves(h, r, i, s, wrap)
    {
      if i == EV_CIA {
        HandledLater(s, wrap);
      } else {
        assert Events.Behaves(others, rank, i, s, wrap) && KeepsCia(s, others(i, s));
      }
    }
  }

  lemma HandledLater<R>(s: Machine<R>, wrap: nat)
    requires wrap > LONGEST && |s.tab| == Events.EV_MAX
    ensures |Handled(s, wrap).tab| == Events.EV_MAX && Handled(s, wrap).now == s.now
    ensures !Events.Due(Handled(s, wrap).tab[EV_CIA], s.now, wrap)
  {
    hide Wait, Earliest, AnyRuns, Updated, Events.Wrapped;
    var w := Handled(s, wrap).world;
    WaitFits(w.a, w.b, w.div10);
    if AnyRuns(w.a, w.b) { Distance(s.now, Wait(Earliest(w.a, w.b), w.div10), wrap); }
  }

  // ---- what holds at every cycle ----

  // The event stands at the earliest underflow, which is still to come or now.
  predicate OnTime<R>(s: Machine<R>, wrap: nat)
    requires wrap > 0
  {
    && |s.tab| == Events.EV_MAX && s.tab[EV_CIA].active == AnyRuns(s.world.a, s.world.b)
    && (AnyRuns(s.world.a, s.world.b) ==>
          Elapsed(s, wrap) + Events.Ahead(s.tab[EV_CIA], s.now, wrap)
            == Wait(Earliest(s.world.a, s.world.b), s.world.div10))
  }

  function View<R>(s: Machine<R>, wrap: nat): Now
    requires wrap > 0
  {
    Advance(Now(s.world.a, s.world.b, s.world.div10), Elapsed(s, wrap))
  }

  // So the bound that CIA_update asserts holds whenever it is called.
  lemma NeverLate<R>(s: Machine<R>, wrap: nat)
    requires wrap > 0 && OnTime(s, wrap)
    ensures Bounded(s.world.a, Clocks(s, wrap)) && Bounded(s.world.b, Clocks(s, wrap))
  {
    var a, b, x := s.world.a, s.world.b, Elapsed(s, wrap) + s.world.div10;
    if AnyRuns(a, b) {
      EarliestRuns(a, b);
      assert x <= DIV10 * (Earliest(a, b) + 1);
      DivBound(x, Earliest(a, b) + 1);
    }
    EarliestBounds(a, b, x / DIV10);
  }

  lemma HandledOnTime<R>(s: Machine<R>, wrap: nat)
    requires wrap > LONGEST && |s.tab| == Events.EV_MAX
    ensures OnTime(Handled(s, wrap), wrap) && Elapsed(Handled(s, wrap), wrap) == 0
  {
    hide Wait, Earliest, AnyRuns, Updated, Events.Wrapped;
    var w := Handled(s, wrap).world;
    WaitFits(w.a, w.b, w.div10);
    NoTime(wrap);
    if AnyRuns(w.a, w.b) { Distance(s.now, Wait(Earliest(w.a, w.b), w.div10), wrap); }
  }

  lemma NoTime(wrap: nat)
    requires wrap > 0
    ensures Events.Wrapped(0, wrap) == 0
  {
  }

  // The handler does not change what the timers show.
  lemma HandledView<R>(s: Machine<R>, wrap: nat)
    requires wrap > LONGEST && OnTime(s, wrap)
    ensures OnTime(Handled(s, wrap), wrap) && View(Handled(s, wrap), wrap) == View(s, wrap)
    ensures Handled(s, wrap).now == s.now
  {
    hide Wait, Earliest, AnyRuns, Ticks, Bounded, Elapsed, OnTime, Reloaded, CountedTo;
    NeverLate(s, wrap);
    TableSize(s, wrap);
    HandledOnTime(s, wrap);
    var t := Handled(s, wrap);
    NoTicks(t.world.a);
    NoTicks(t.world.b);
  }

  lemma NoTicks(c: Chip)
    ensures Ticks(c, 0) == c
  {
  }

  lemma OtherView<R>(s: Machine<R>, t: Machine<R>, wrap: nat)
    requires wrap > 0 && OnTime(s, wrap) && KeepsCia(s, t)
    ensures OnTime(t, wrap) && View(t, wrap) == View(s, wrap)
  {
    hide Wait, Earliest, AnyRuns, Advance;
  }

  // Neither do all the handlers of one cycle.
  lemma {:induction false} DueView<R(!new)>(others: Events.Handler<World<R>>, rank: Machine<R> -> nat,
                                            s: Machine<R>, n: nat, wrap: nat)
    requires wrap > LONGEST && LeaveAlone(others, rank, wrap) && OnTime(s, wrap) && n <= Events.EV_MAX
    ensures var t := Events.HandleDue(Handlers(others, wrap), s, n, wrap);
      OnTime(t, wrap) && View(t, wrap) == View(s, wrap) && t.now == s.now
  {
    hide OnTime, View, Events.Due, Events.Wrapped, Handled;
    if n > 0 {
      DueView(others, rank, s, n - 1, wrap);
      var t := Events.HandleDue(Handlers(others, wrap), s, n - 1, wrap);
      TableSize(t, wrap);
      HandledView(t, wrap);
      var u := others(n - 1, t);
      assert KeepsCia(t, u);
      OtherView(t, u, wrap);
    }
  }

  // Nor does handling all that is due, and what becomes due with it.
  lemma {:induction false} SettledView<R(!new)>(others: Events.Handler<World<R>>, rank: Machine<R> -> nat,
                                                s: Machine<R>, wrap: nat)
    requires wrap > LONGEST && LeaveAlone(others, rank, wrap) && OnTime(s, wrap) && |s.tab| == Events.EV_MAX
    requires Events.Lawful(Handlers(others, wrap), WithCia(rank, wrap), wrap)
    ensures var t := Events.Settled(Handlers(others, wrap), WithCia(rank, wrap), s, wrap);
      OnTime(t, wrap) && View(t, wrap) == View(s, wrap) && t.now == s.now
    decreases WithCia(rank, wrap)(s)
  {
    hide OnTime, View, Events.HandleDue, LeaveAlone, Events.Lawful, Events.Wrapped;
    var h, r := Handlers(others, wrap), WithCia(rank, wrap);
    Events.PassShrinks(h, r, s, Events.EV_MAX, wrap);
    if Events.AnyDue(s, wrap) {
      DueView(others, rank, s, Events.EV_MAX, wrap);
      SettledView(others, rank, Events.HandleDue(h, s, Events.EV_MAX, wrap), wrap);
    }
  }

  lemma TableSize<R>(s: Machine<R>, wrap: nat)
    requires wrap > 0 && OnTime(s, wrap)
    ensures |s.tab| == Events.EV_MAX
  {
  }

  // The timers stand still for so long that the cycle counter comes round.
  predicate StandsStill<R>(s: Machine<R>, wrap: nat)
    requires wrap > 0
  {
    !AnyRuns(s.world.a, s.world.b) && Elapsed(s, wrap) == wrap - 1
  }

  // One more cycle is one more cycle.
  lemma OneCycle<R>(s: Machine<R>, wrap: nat)
    requires wrap > LONGEST && OnTime(s, wrap) && Events.Clear(s, wrap) && !StandsStill(s, wrap)
    ensures var t := s.(now := Events.Wrapped(s.now + 1, wrap));
      OnTime(t, wrap) && View(t, wrap) == Advance(View(s, wrap), 1)
  {
    hide Wait, Earliest, AnyRuns, Advance;
    var t := s.(now := Events.Wrapped(s.now + 1, wrap));
    var w := s.world;
    WaitFits(w.a, w.b, w.div10);
    if AnyRuns(w.a, w.b) {
      Events.NotDue(s, EV_CIA, wrap);
      Events.Nearer(s.tab[EV_CIA], s.now, 1, wrap);
    }
    ElapsedNext(s, wrap);
    AdvanceAdds(Now(w.a, w.b, w.div10), Elapsed(s, wrap), 1);
  }

  // Then the phase within the E-clock is lost, unless a round is a whole number of E-clocks.
  lemma RoundLost<R>(s: Machine<R>, wrap: nat)
    requires wrap > 0 && StandsStill(s, wrap)
    ensures View(s.(now := Events.Wrapped(s.now + 1, wrap)), wrap) == Advance(View(s, wrap), 1) <==> wrap % DIV10 == 0
  {
    hide Advance, Elapsed, AnyRuns;
    var w := s.world;
    AdvanceAdds(Now(w.a, w.b, w.div10), wrap - 1, 1);
    ElapsedRound(s, wrap);
    AdvanceIdle(w.a, w.b, w.div10, wrap);
    AdvanceIdle(w.a, w.b, w.div10, 0);
    SamePhase(w.div10, wrap);
  }

  // Timers that stand still have nothing but a phase.
  lemma AdvanceIdle(a: Chip, b: Chip, phase: nat, n: nat)
    requires !AnyRuns(a, b)
    ensures Advance(Now(a, b, phase), n) == Now(a, b, (phase + n) % DIV10)
  {
    hide Ticks;
    Idle(a, (phase + n) / DIV10);
    Idle(b, (phase + n) / DIV10);
  }

  lemma SamePhase(phase: nat, n: nat)
    requires phase < DIV10
    ensures phase % DIV10 == phase && ((phase + n) % DIV10 == phase <==> n % DIV10 == 0)
  {
  }

  lemma ElapsedRound<R>(s: Machine<R>, wrap: nat)
    requires wrap > 0 && Elapsed(s, wrap) == wrap - 1
    ensures Elapsed(s.(now := Events.Wrapped(s.now + 1, wrap)), wrap) == 0
  {
    var d, q, p := s.now - s.world.oldcycles, (s.now - s.world.oldcycles) / wrap, (s.now + 1) / wrap;
    assert Events.Wrapped(s.now + 1, wrap) - s.world.oldcycles == (q - p + 1) * wrap;
    Division.Unique(Events.Wrapped(s.now + 1, wrap) - s.world.oldcycles, wrap, q - p + 1, 0);
  }

  lemma Idle(c: Chip, n: nat)
    requires !c.RunsA() && !c.RunsB()
    ensures Ticks(c, n) == c
  {
    Countdown(c, n);
  }

  lemma ElapsedNext<R>(s: Machine<R>, wrap: nat)
    requires wrap > 0 && Elapsed(s, wrap) < wrap - 1
    ensures Elapsed(s.(now := Events.Wrapped(s.now + 1, wrap)), wrap) == Elapsed(s, wrap) + 1
  {
    var d, q, p := s.now - s.world.oldcycles, (s.now - s.world.oldcycles) / wrap, (s.now + 1) / wrap;
    assert Events.Wrapped(s.now + 1, wrap) - s.world.oldcycles == (q - p) * wrap + (d % wrap + 1);
    Division.Unique(Events.Wrapped(s.now + 1, wrap) - s.world.oldcycles, wrap, q - p, d % wrap + 1);
  }

  // Over any number of cycles of the whole machine, with any other handlers, the timers show what they would
  // show if they were stepped on every E-clock, as long as they never stand still for a whole round of the
  // cycle counter; and the asserted bound holds at every cycle.
  lemma {:induction false} AlwaysRight<R(!new)>(others: Events.Handler<World<R>>, rank: Machine<R> -> nat,
                                                s: Machine<R>, n: nat, wrap: nat)
    requires wrap > LONGEST && Events.Lawful(others, rank, wrap) && LeaveAlone(others, rank, wrap)
    requires Events.Clear(s, wrap) && OnTime(s, wrap)
    requires Events.Lawful(Handlers(others, wrap), WithCia(rank, wrap), wrap)
    requires forall k | 0 <= k < n ::
      !StandsStill(Events.Ticks(Handlers(others, wrap), WithCia(rank, wrap), s, k, wrap), wrap)
    ensures var t := Events.Ticks(Handlers(others, wrap), WithCia(rank, wrap), s, n, wrap);
      && Events.Clear(t, wrap) && OnTime(t, wrap) && View(t, wrap) == Advance(View(s, wrap), n)
      && Bounded(t.world.a, Clocks(t, wrap)) && Bounded(t.world.b, Clocks(t, wrap))
  {
    hide OnTime, View, Advance, Events.Clear, Events.Settled, Events.Lawful, LeaveAlone, StandsStill, Bounded,
         Events.Wrapped;
    var h, r := Handlers(others, wrap), WithCia(rank, wrap);
    TableSize(s, wrap);
    if n > 0 {
      AlwaysRight(others, rank, s, n - 1, wrap);
      var p := Events.Ticks(h, r, s, n - 1, wrap);
      var q := p.(now := Events.Wrapped(p.now + 1, wrap));
      OneCycle(p, wrap);
      SettledView(others, rank, q, wrap);
      ClearAfter(h, r, p, wrap);
      AdvanceAdds(View(s, wrap), n - 1, 1);
    } else {
      AdvanceNone(s, wrap);
    }
    NeverLate(Events.Ticks(h, r, s, n, wrap), wrap);
  }

  lemma ClearAfter<R(!new)>(h: Events.Handler<World<R>>, rank: Machine<R> -> nat, p: Machine<R>, wrap: nat)
    requires wrap > 0 && Events.Lawful(h, rank, wrap) && |p.tab| == Events.EV_MAX
    ensures Events.Clear(Events.Tick(h, rank, p, wrap), wrap)
  {
    hide Events.Tick, Events.Lawful;
    NoneDue(Events.Tick(h, rank, p, wrap), wrap);
  }

  lemma NoneDue<R>(s: Machine<R>, wrap: nat)
    requires wrap > 0 && |s.tab| == Events.EV_MAX && 0 <= s.now < wrap && !Events.AnyDue(s, wrap)
    ensures Events.Clear(s, wrap)
  {
  }

  lemma AdvanceNone<R>(s: Machine<R>, wrap: nat)
    requires wrap > 0
    ensures Advance(View(s, wrap), 0) == View(s, wrap)
  {
    AdvanceAdds(Now(s.world.a, s.world.b, s.world.div10), Elapsed(s, wrap), 0);
  }

  // What the loop of do_cycles does to the timers among all the other events; some of them may be due when
  // it begins.
  method RunCycles<R(!new)>(m: Events.Scheduler<World<R>>, ghost others: Events.Handler<World<R>>,
                            ghost rank: Machine<R> -> nat, cycles: nat)
    requires m.Valid() && m.wrap > LONGEST && m.handler == Handlers(others, m.wrap) && m.rank == WithCia(rank, m.wrap)
    requires Events.Lawful(others, rank, m.wrap) && LeaveAlone(others, rank, m.wrap) && OnTime(m.state, m.wrap)
    requires forall k | 0 <= k < cycles ::
      var s := Events.Settled(m.handler, m.rank, m.state, m.wrap);
      !StandsStill(Events.Ticks(m.handler, m.rank, s, k, m.wrap), m.wrap)
    modifies m
    ensures m.Valid() && OnTime(m.state, m.wrap)
    ensures View(m.state, m.wrap) == Advance(old(View(m.state, m.wrap)), cycles)
  {
    hide OnTime, View, Events.Settled, Events.Ticks, Advance, Bounded, StandsStill, LeaveAlone, Events.Lawful,
         Events.Wrapped;
    ghost var s := Events.Settled(m.handler, m.rank, m.state, m.wrap);
    SettledView(others, rank, m.state, m.wrap);
    NoneDue(s, m.wrap);
    AlwaysRight(others, rank, s, cycles, m.wrap);
    m.RunCycles(cycles);
  }
}
