// The event table: time jumps from one scheduled event to the next, and the result is that of
// stepping cycle by cycle and looking for due events each time.

module Events {
  import Division

  const EV_HSYNC := 0
  const EV_MAX := 6
  const CYCLE_UNIT := 512

  datatype Ev = Ev(active: bool, evtime: int)

  // What the handlers work on besides the table is `world`. Times wrap around at `wrap`.
  datatype State<+S> = State(tab: seq<Ev>, now: int, world: S)

  type Handler<!S> = (nat, State<S>) -> State<S>

  // Times are unsigned numbers below `wrap`.
  function Wrapped(x: int, wrap: nat): (r: nat)
    requires wrap > 0
    ensures r < wrap
  {
    x % wrap
  }

  // The cycles from now to the time of an event, as an unsigned difference.
  function Ahead(e: Ev, now: int, wrap: nat): int
    requires wrap > 0
  {
    Wrapped(e.evtime - now, wrap)
  }

  predicate Due(e: Ev, now: int, wrap: nat)
    requires wrap > 0
  {
    e.active && Ahead(e, now, wrap) == 0
  }

  // A handler takes no time. It may make any event due, at once too, but then there is less left to do in
  // this cycle, by some measure of the state: no two events keep calling each other for ever.
  ghost predicate Lawful<S(!new)>(h: Handler<S>, rank: State<S> -> nat, wrap: nat)
    requires wrap > 0
  {
    forall i: nat, s: State<S> | i < EV_MAX && |s.tab| == EV_MAX :: Behaves(h, rank, i, s, wrap)
  }

  ghost predicate Behaves<S(!new)>(h: Handler<S>, rank: State<S> -> nat, i: nat, s: State<S>, wrap: nat)
    requires wrap > 0 && i < EV_MAX && |s.tab| == EV_MAX
  {
    var t := h(i, s);
    |t.tab| == EV_MAX && t.now == s.now && (Due(s.tab[i], s.now, wrap) ==> rank(t) < rank(s))
  }

  predicate AnyDue<S>(s: State<S>, wrap: nat)
    requires wrap > 0
  {
    exists i :: 0 <= i < |s.tab| && Due(s.tab[i], s.now, wrap)
  }

  // The handlers of the due events among the first n, in order.
  function HandleDue<S>(h: Handler<S>, s: State<S>, n: nat, wrap: nat): State<S>
    requires wrap > 0
  {
    if n == 0 then s else
      var t := HandleDue(h, s, n - 1, wrap);
      if n - 1 < |t.tab| && Due(t.tab[n - 1], t.now, wrap) then h(n - 1, t) else t
  }

  lemma {:induction false} PassShrinks<S(!new)>(h: Handler<S>, rank: State<S> -> nat, s: State<S>, n: nat, wrap: nat)
    requires wrap > 0 && Lawful(h, rank, wrap) && |s.tab| == EV_MAX && n <= EV_MAX
    ensures var t := HandleDue(h, s, n, wrap);
      && |t.tab| == EV_MAX && t.now == s.now && rank(t) <= rank(s)
      && (if exists i :: 0 <= i < n && Due(s.tab[i], s.now, wrap) then rank(t) < rank(s) else t == s)
  {
    if n > 0 {
      PassShrinks(h, rank, s, n - 1, wrap);
      var t := HandleDue(h, s, n - 1, wrap);
      assert Behaves(h, rank, n - 1, t, wrap);
    }
  }

  // All handlers whose time has come, and again until no time has.
  ghost function Settled<S(!new)>(h: Handler<S>, rank: State<S> -> nat, s: State<S>, wrap: nat): (t: State<S>)
    requires wrap > 0 && Lawful(h, rank, wrap) && |s.tab| == EV_MAX
    ensures |t.tab| == EV_MAX && t.now == s.now && !AnyDue(t, wrap)
    decreases rank(s)
  {
    PassShrinks(h, rank, s, EV_MAX, wrap);
    if AnyDue(s, wrap) then Settled(h, rank, HandleDue(h, s, EV_MAX, wrap), wrap) else s
  }

  // One cycle, and any number of them.
  ghost function Tick<S(!new)>(h: Handler<S>, rank: State<S> -> nat, s: State<S>, wrap: nat): (t: State<S>)
    requires wrap > 0 && Lawful(h, rank, wrap) && |s.tab| == EV_MAX
    ensures |t.tab| == EV_MAX && 0 <= t.now < wrap && !AnyDue(t, wrap)
  {
    Settled(h, rank, s.(now := Wrapped(s.now + 1, wrap)), wrap)
  }

  ghost function Ticks<S(!new)>(h: Handler<S>, rank: State<S> -> nat, s: State<S>, n: nat, wrap: nat): (t: State<S>)
    requires wrap > 0 && Lawful(h, rank, wrap) && |s.tab| == EV_MAX
    ensures |t.tab| == EV_MAX
  {
    if n == 0 then s else Tick(h, rank, Ticks(h, rank, s, n - 1, wrap), wrap)
  }

  lemma {:induction false} TicksAdd<S(!new)>(h: Handler<S>,
                                             rank: State<S> -> nat, s: State<S>, m: nat, n: nat, wrap: nat)
    requires wrap > 0 && Lawful(h, rank, wrap) && |s.tab| == EV_MAX
    ensures Ticks(h, rank, s, m + n, wrap) == Ticks(h, rank, Ticks(h, rank, s, m, wrap), n, wrap)
  {
    if n > 0 { TicksAdd(h, rank, s, m, n - 1, wrap); }
  }

  lemma NoTicks<S(!new)>(h: Handler<S>, rank: State<S> -> nat, s: State<S>, wrap: nat)
    requires wrap > 0 && Lawful(h, rank, wrap) && |s.tab| == EV_MAX
    ensures Ticks(h, rank, s, 0, wrap) == s
  {
  }

  // One pass more or less makes no difference to what there is when all is done.
  lemma SettledPass<S(!new)>(h: Handler<S>, rank: State<S> -> nat, s: State<S>, wrap: nat)
    requires wrap > 0 && Lawful(h, rank, wrap) && |s.tab| == EV_MAX
    ensures |HandleDue(h, s, EV_MAX, wrap).tab| == EV_MAX
    ensures Settled(h, rank, HandleDue(h, s, EV_MAX, wrap), wrap) == Settled(h, rank, s, wrap)
  {
    PassShrinks(h, rank, s, EV_MAX, wrap);
  }

  // Nothing is due.
  predicate Clear<S>(s: State<S>, wrap: nat)
    requires wrap > 0
  {
    |s.tab| == EV_MAX && 0 <= s.now < wrap && forall i | 0 <= i < EV_MAX :: !Due(s.tab[i], s.now, wrap)
  }

  // No active event lies nearer than d.
  predicate NoneWithin<S>(s: State<S>, d: nat, wrap: nat)
    requires wrap > 0
  {
    forall i | 0 <= i < |s.tab| && s.tab[i].active :: Ahead(s.tab[i], s.now, wrap) >= d
  }

  lemma AheadRange(e: Ev, now: int, wrap: nat)
    requires wrap > 0
    ensures 0 <= Ahead(e, now, wrap) < wrap
  {
  }

  lemma Reached(now: int, m: nat, wrap: nat)
    requires m < wrap
    ensures Wrapped(Wrapped(now + m, wrap) - now, wrap) == m
  {
    var q := (now + m) / wrap;
    Division.Negated(q, wrap);
    Division.Unique(Wrapped(now + m, wrap) - now, wrap, -q, m);
  }

  lemma NotDue<S>(s: State<S>, i: nat, wrap: nat)
    requires wrap > 0 && Clear(s, wrap) && i < EV_MAX && s.tab[i].active
    ensures 0 < Ahead(s.tab[i], s.now, wrap) < wrap
  {
    assert !Due(s.tab[i], s.now, wrap);
  }

  // After k cycles every event is nearer by k.
  lemma Nearer(e: Ev, now: int, k: nat, wrap: nat)
    requires wrap > 0 && k <= Ahead(e, now, wrap)
    ensures Ahead(e, Wrapped(now + k, wrap), wrap) == Ahead(e, now, wrap) - k
  {
    var a, b := (e.evtime - now) / wrap, (now + k) / wrap;
    assert e.evtime - Wrapped(now + k, wrap) == (a + b) * wrap + (Ahead(e, now, wrap) - k);
    Division.Unique(e.evtime - Wrapped(now + k, wrap), wrap, a + b, Ahead(e, now, wrap) - k);
  }

  lemma Later(now: int, k: nat, wrap: nat)
    requires wrap > 0 && k > 0
    ensures Wrapped(Wrapped(now + (k - 1), wrap) + 1, wrap) == Wrapped(now + k, wrap)
  {
    var a, b := (now + (k - 1)) / wrap, (now + k) / wrap;
    assert Wrapped(now + (k - 1), wrap) + 1 == (b - a) * wrap + Wrapped(now + k, wrap);
    Division.Unique(Wrapped(now + (k - 1), wrap) + 1, wrap, b - a, Wrapped(now + k, wrap));
  }

  lemma ItsOwn(now: int, wrap: nat)
    requires 0 <= now < wrap
    ensures Wrapped(now, wrap) == now
  {
    Division.Unique(now, wrap, 0, now);
  }

  lemma CloserTo(next: int, now: int, k: nat, wrap: nat)
    requires wrap > 0 && k <= Wrapped(next - now, wrap)
    ensures Wrapped(next - Wrapped(now + k, wrap), wrap) == Wrapped(next - now, wrap) - k
  {
    Nearer(Ev(true, next), now, k, wrap);
  }

  lemma NoneWithinLess<S>(s: State<S>, d: nat, k: nat, wrap: nat)
    requires wrap > 0 && NoneWithin(s, d, wrap) && k <= d
    ensures NoneWithin(s, k, wrap)
  {
  }

  lemma AllNearer<S>(s: State<S>, d: nat, k: nat, wrap: nat)
    requires wrap > 0 && NoneWithin(s, d, wrap) && k < d
    ensures var t := s.(now := Wrapped(s.now + k, wrap)); NoneWithin(t, d - k, wrap) && !AnyDue(t, wrap)
  {
    hide Ahead;
    forall i | 0 <= i < |s.tab| && s.tab[i].active
      ensures Ahead(s.tab[i], Wrapped(s.now + k, wrap), wrap) == Ahead(s.tab[i], s.now, wrap) - k
    {
      Nearer(s.tab[i], s.now, k, wrap);
    }
  }

  // Up to the nearest event nothing happens.
  lemma {:induction false} Quiet<S(!new)>(h: Handler<S>, rank: State<S> -> nat, s: State<S>, k: nat, wrap: nat)
    requires wrap > 0 && Lawful(h, rank, wrap) && Clear(s, wrap) && NoneWithin(s, k + 1, wrap)
    ensures Ticks(h, rank, s, k, wrap) == s.(now := Wrapped(s.now + k, wrap))
  {
    hide Wrapped, Lawful, Ahead, HandleDue;
    if k == 0 {
      ItsOwn(s.now, wrap);
    } else {
      NoneWithinLess(s, k + 1, k, wrap);
      Quiet(h, rank, s, k - 1, wrap);
      Later(s.now, k, wrap);
      AllNearer(s, k + 1, k, wrap);
    }
  }

  // A jump by d, which no active event is nearer than.
  lemma Jump<S(!new)>(h: Handler<S>, rank: State<S> -> nat, s: State<S>, d: nat, wrap: nat)
    requires wrap > 0 && Lawful(h, rank, wrap) && Clear(s, wrap) && d > 0 && NoneWithin(s, d, wrap)
    ensures Ticks(h, rank, s, d, wrap) == Settled(h, rank, s.(now := Wrapped(s.now + d, wrap)), wrap)
  {
    hide Wrapped, Settled, HandleDue, Lawful;
    NoneWithinLess(s, d, (d - 1) + 1, wrap);
    Quiet(h, rank, s, d - 1, wrap);
    Later(s.now, d, wrap);
  }

  class Scheduler<S(!new)> {
    const wrap: nat
    const handler: Handler<S>
    ghost const rank: State<S> -> nat
    var state: State<S>
    var nextevent: int
    var pissoff: int

    // nextevent is the nearest event, or as far ahead as can be.
    ghost predicate Valid()
      reads this
    {
      && wrap > 1 && Lawful(handler, rank, wrap) && |state.tab| == EV_MAX && 0 <= state.now < wrap
      && 0 <= nextevent < wrap
      && NoneWithin(state, Until(), wrap) && (Until() == 0 ==> AnyDue(state, wrap))
    }

    // The cycles until nextevent.
    function Until(): nat
      requires wrap > 0
      reads this
    {
      Wrapped(nextevent - state.now, wrap)
    }

    constructor (wrap: nat, handler: Handler<S>, ghost rank: State<S> -> nat, tab: seq<Ev>, world: S)
      requires wrap > 1 && Lawful(handler, rank, wrap) && |tab| == EV_MAX
      ensures Valid() && state == State(tab, 0, world) && this.wrap == wrap && this.handler == handler
        && this.rank == rank
    {
      this.wrap := wrap;
      this.handler := handler;
      this.rank := rank;
      state := State(tab, 0, world);
      nextevent := 0;
      pissoff := 0;
      new;
      EventsSchedule();
    }

    // events_schedule: the nearest of the active events, or as far ahead as can be.
    method EventsSchedule()
      requires wrap > 1 && |state.tab| == EV_MAX
      modifies this`nextevent
      ensures 0 <= nextevent < wrap && NoneWithin(state, Until(), wrap)
      ensures Until() == wrap - 1
        || exists i :: 0 <= i < EV_MAX && state.tab[i].active && Ahead(state.tab[i], state.now, wrap) == Until()
      ensures Until() == 0 ==> AnyDue(state, wrap)
    {
      hide Ahead;
      var mintime := wrap - 1;
      var i := 0;
      while i < EV_MAX
        invariant 0 <= i <= EV_MAX && 0 <= mintime < wrap
        invariant forall j | 0 <= j < i && state.tab[j].active :: Ahead(state.tab[j], state.now, wrap) >= mintime
        invariant mintime == wrap - 1
          || exists j :: 0 <= j < EV_MAX && state.tab[j].active && Ahead(state.tab[j], state.now, wrap) == mintime
      {
        if state.tab[i].active {
          var eventtime := Ahead(state.tab[i], state.now, wrap);
          AheadRange(state.tab[i], state.now, wrap);
          if eventtime < mintime { mintime := eventtime; }
        }
        i := i + 1;
      }
      nextevent := Wrapped(state.now + mintime, wrap);
      Reached(state.now, mintime, wrap);
    }

    // handle_active_events
    method HandleActiveEvents()
      requires wrap > 0 && Lawful(handler, rank, wrap) && |state.tab| == EV_MAX
      modifies this`state
      ensures state == HandleDue(handler, old(state), EV_MAX, wrap) && |state.tab| == EV_MAX
        && state.now == old(state).now
    {
      PassShrinks(handler, rank, state, 0, wrap);
      var i := 0;
      while i < EV_MAX
        invariant 0 <= i <= EV_MAX && state == HandleDue(handler, old(state), i, wrap)
        invariant |state.tab| == EV_MAX && state.now == old(state).now
      {
        PassShrinks(handler, rank, old(state), i + 1, wrap);
        if Due(state.tab[i], state.now, wrap) { state := handler(i, state); }
        i := i + 1;
      }
    }

    // The loop of do_cycles: the same as that many single cycles; no active event is ever run past, and
    // whatever is due, now or at a later cycle, is handled in that cycle.
    method RunCycles(cycles: nat)
      requires Valid()
      modifies this`state, this`nextevent
      ensures Valid() && !AnyDue(state, wrap)
      ensures state == Ticks(handler, rank, Settled(handler, rank, old(state), wrap), cycles, wrap)
    {
      hide Ticks, Settled, HandleDue, Lawful, NoneWithin, AnyDue, Wrapped;
      ghost var goal := Ticks(handler, rank, Settled(handler, rank, state, wrap), cycles, wrap);
      var left := cycles;
      while Until() <= left
        invariant Valid() && 0 <= left && Ticks(handler, rank, Settled(handler, rank, state, wrap), left, wrap) == goal
        decreases left, if AnyDue(state, wrap) then rank(state) + 1 else 0
      {
        ghost var d := Until();
        NextPass(left);
        left := left - Until();
        state := state.(now := nextevent);
        HandleActiveEvents();
        EventsSchedule();
      }
      StillAhead(left);
      state := state.(now := Wrapped(state.now + left, wrap));
    }

    // Going to nextevent and handling what is due there.
    lemma NextPass(left: nat)
      requires Valid() && Until() <= left
      ensures var t := HandleDue(handler, state.(now := nextevent), EV_MAX, wrap);
        && |t.tab| == EV_MAX && t.now == nextevent
        && Ticks(handler, rank, Settled(handler, rank, state, wrap), left, wrap)
           == Ticks(handler, rank, Settled(handler, rank, t, wrap), left - Until(), wrap)
        && (Until() == 0 && AnyDue(t, wrap) ==> rank(t) < rank(state))
      ensures Until() == 0 ==> AnyDue(state, wrap)
    {
      hide Ticks, HandleDue;
      Reaches();
      var u := state.(now := nextevent);
      SettledPass(handler, rank, u, wrap);
      PassShrinks(handler, rank, u, EV_MAX, wrap);
      if Until() == 0 {
        Division.Unique(state.now, wrap, 0, state.now);
        assert u == state;
      } else {
        NotYet();
        Jump(handler, rank, state, Until(), wrap);
        TicksAdd(handler, rank, state, Until(), left - Until(), wrap);
      }
    }

    // Before its time nothing is due.
    lemma NotYet()
      requires Valid() && Until() > 0
      ensures Clear(state, wrap) && !AnyDue(state, wrap) && Settled(handler, rank, state, wrap) == state
    {
      forall i | 0 <= i < EV_MAX
        ensures !Due(state.tab[i], state.now, wrap)
      {
      }
    }

    // Where the last line of a frame would end too early, time does not pass.
    predicate Waits(cycles: int, lastLine: bool, early: bool)
      requires wrap > 0 && |state.tab| == EV_MAX
      reads this
    {
      lastLine && early && Ahead(state.tab[EV_HSYNC], state.now, wrap) <= cycles
    }

    // do_cycles: cycles are first taken from what pissoff still grants, and the rest are run. None is lost
    // and none is made up, except for those that fall into a wait, after which 3000 are granted.
    method DoCycles(cycles: nat, lastLine: bool, early: bool) returns (ghost run: nat, ghost waited: bool)
      requires Valid()
      modifies this
      ensures Valid() && (pissoff > 0 ==> run == 0)
      ensures cycles > old(pissoff) && !waited ==>
        state == Ticks(handler, rank, Settled(handler, rank, old(state), wrap), run, wrap)
      ensures cycles <= old(pissoff) || waited ==> state == old(state)
      ensures waited <==> cycles > old(pissoff) && old(Waits(cycles - pissoff, lastLine, early))
      ensures if waited then run == 0 && pissoff == 3000 * 512
        else run + old(pissoff) == cycles + pissoff && pissoff >= 0
    {
      hide Ticks, Settled, Lawful, NoneWithin, Ahead;
      run, waited := 0, false;
      pissoff := pissoff - cycles;
      if pissoff >= 0 { return; }
      var left := -pissoff;
      pissoff := 0;
      if lastLine && Ahead(state.tab[EV_HSYNC], state.now, wrap) <= left && early {
        pissoff := 3000 * CYCLE_UNIT;
        waited := true;
        return;
      }
      RunCycles(left);
      run := left;
    }

    lemma Reaches()
      requires wrap > 0 && 0 <= nextevent < wrap
      ensures Wrapped(state.now + Until(), wrap) == nextevent
    {
      var q := (nextevent - state.now) / wrap;
      Division.Negated(q, wrap);
      Division.Unique(state.now + Until(), wrap, -q, nextevent);
    }

    // Short of the next event, the distances only shrink.
    lemma StillAhead(k: nat)
      requires Valid() && k < Until()
      ensures var t := state.(now := Wrapped(state.now + k, wrap));
        && Wrapped(nextevent - t.now, wrap) == Until() - k && NoneWithin(t, Until() - k, wrap) && !AnyDue(t, wrap)
        && Ticks(handler, rank, Settled(handler, rank, state, wrap), k, wrap) == t
    {
      hide Ticks, Settled, HandleDue, Lawful, NoneWithin, AnyDue, Clear, Wrapped;
      NotYet();
      CloserTo(nextevent, state.now, k, wrap);
      AllNearer(state, Until(), k, wrap);
      NoneWithinLess(state, Until(), k + 1, wrap);
      Quiet(handler, rank, state, k, wrap);
    }
  }
}
