// Paula's four channels and the output samples, advanced from deadline to deadline.

module Audio {
  import Division
  import opened Options

  const PERIOD_MAX := 0x7fff_ffff

  // A channel; `evtime` is the time to its next event, None for none (MAX_EV). The attach bits and
  // the mask come from registers that do not change in between.
  datatype Channel = Channel(
    evtime: Option<nat>, state: int, per: nat, dmaen: bool, intreq2: bool, requestWord: int,
    lc: int, pt: int, len: int, wlen: int, dat: int, dat2: int, current: int, last: int, vol: int,
    attachVolume: bool, attachPeriod: bool, audible: bool)

  datatype Setup = Setup(level: int, interval: nat, shortest: nat)

  // What the output handler gets to see of a channel.
  datatype Heard = Heard(sample: int, vol: int)

  datatype Sys = Sys(ch: seq<Channel>, irq: seq<bool>, next: nat, samples: seq<seq<Heard>>)

  ghost predicate Valid(c: Setup, s: Sys) {
    && 1 <= c.level && c.interval > 0 && c.shortest > 0
    && |s.ch| == |s.irq| == 4 && s.next > 0
    && (forall i | 0 <= i < 4 :: s.ch[i].per > 0 && (s.ch[i].evtime.Some? ==> s.ch[i].state == 2 || s.ch[i].state == 3))
  }

  // ---- audio_handler in states 2 and 3 ----

  function Napnav(d: Channel): bool { d.attachVolume || !d.attachPeriod }

  // state23: the word count, when the data of the last word has been fetched.
  function NextWord(d: Channel): Channel {
    if !d.dmaen || d.requestWord >= 0 then d
    else if d.wlen == 1 then d.(requestWord := 0, wlen := d.len, pt := d.lc, intreq2 := true)
    else d.(requestWord := 0, wlen := (d.wlen - 1) % 0x1_0000)
  }

  function NewSample(d: Channel): Channel {
    d.(last := d.current, current := if d.audible then (d.dat / 256) % 256 else 0, dat := (d.dat * 256) % 0x1_0000)
  }

  // The period that attached data stands for.
  function AttachedPeriod(c: Setup, dat: int): nat
    requires c.shortest > 0
  {
    if dat <= 0 then PERIOD_MAX else if dat < c.shortest && c.level < 3 then c.shortest else dat * 512
  }

  // Ends the channel: interrupt pending and nothing to fetch.
  predicate Stops(d: Channel, irq: bool) { d.state == 2 && !d.dmaen && irq }

  // The channel itself after its event.
  function Own(d: Channel, irq: bool): Channel {
    if Stops(d, irq) then d.(state := 0, evtime := None, requestWord := 0)
    else
      var n := NewSample(NextWord(d).(evtime := Some(d.per)));
      if d.state == 2 then
        var m := n.(state := 3);
        if d.attachPeriod then m.(intreq2 := false, requestWord := 1, dat := m.dat2) else m
      else
        n.(state := 2, dat := n.dat2, intreq2 := false,
           requestWord := if d.dmaen && Napnav(d) then 1 else n.requestWord)
  }

  // Whether it asks for an interrupt.
  predicate Interrupts(d: Channel, irq: bool) {
    var n := NextWord(d);
    if Stops(d, irq) then false
    else if d.state == 2 then d.attachPeriod && n.intreq2 && d.dmaen
    else Napnav(d) && (!d.dmaen || n.intreq2)
  }

  // What it does to the channel after it.
  function Attached(c: Setup, d: Channel, irq: bool, e: Channel): Channel
    requires c.shortest > 0
  {
    if Stops(d, irq) then e
    else if d.state == 2 then (if d.attachPeriod then e.(per := AttachedPeriod(c, d.dat2)) else e)
    else if d.attachVolume then e.(vol := d.dat2) else e
  }

  function Handle(c: Setup, s: Sys, nr: nat): Sys
    requires c.shortest > 0 && |s.ch| == |s.irq| == 4 && nr < 4
  {
    var d := s.ch[nr];
    var ch := s.ch[nr := Own(d, s.irq[nr])];
    s.(ch := if nr < 3 then ch[nr + 1 := Attached(c, d, s.irq[nr], ch[nr + 1])] else ch,
       irq := s.irq[nr := s.irq[nr] || Interrupts(d, s.irq[nr])])
  }

  function HandleIfDue(c: Setup, s: Sys, nr: nat): Sys
    requires c.shortest > 0 && |s.ch| == |s.irq| == 4 && nr < 4
  {
    if s.ch[nr].evtime == Some(0) then Handle(c, s, nr) else s
  }

  // ---- from deadline to deadline ----

  function Least(x: int, e: Option<nat>): int { if e.Some? && x > e.value then e.value else x }

  // The time to the earliest deadline, if it lies within n; n + 1 otherwise.
  function Best(c: Setup, s: Sys, n: nat): int
    requires |s.ch| == 4
  {
    var best := Least(Least(Least(Least(n + 1, s.ch[0].evtime), s.ch[1].evtime), s.ch[2].evtime), s.ch[3].evtime);
    if c.level > 1 && best > s.next then s.next else best
  }

  function Later(d: Channel, t: nat): Channel {
    if d.evtime.Some? && d.evtime.value >= t then d.(evtime := Some(d.evtime.value - t)) else d
  }

  function Hear(d: Channel): Heard { Heard(d.current, d.vol) }

  // Time moves on by t, and a sample is put out if its deadline has come.
  function Elapse(c: Setup, s: Sys, t: nat): Sys
    requires |s.ch| == 4
  {
    var ch := [Later(s.ch[0], t), Later(s.ch[1], t), Later(s.ch[2], t), Later(s.ch[3], t)];
    if c.level <= 1 || t > s.next then s.(ch := ch)
    else if s.next == t then
      s.(ch := ch, next := c.interval, samples := s.samples + [[Hear(ch[0]), Hear(ch[1]), Hear(ch[2]), Hear(ch[3])]])
    else s.(ch := ch, next := s.next - t)
  }

  function Events(c: Setup, s: Sys): Sys
    requires c.shortest > 0 && |s.ch| == |s.irq| == 4
  {
    HandleIfDue(c, HandleIfDue(c, HandleIfDue(c, HandleIfDue(c, s, 0), 1), 2), 3)
  }

  function Step(c: Setup, s: Sys, t: nat): Sys
    requires c.shortest > 0 && |s.ch| == |s.irq| == 4
  {
    Events(c, Elapse(c, s, t))
  }

  // No timer is at zero.
  predicate AllAhead(s: Sys)
    requires |s.ch| == 4
  {
    forall i | 0 <= i < 4 :: s.ch[i].evtime != Some(0)
  }

  lemma OwnIsAhead(d: Channel, irq: bool)
    requires d.per > 0
    ensures var n := Own(d, irq);
      n.evtime != Some(0) && n.per == d.per && (n.evtime.Some? ==> n.state == 2 || n.state == 3)
  {
  }

  lemma AttachedKeeps(c: Setup, d: Channel, irq: bool, e: Channel)
    requires c.shortest > 0 && e.per > 0
    ensures var n := Attached(c, d, irq, e); n.per > 0 && n.evtime == e.evtime && n.state == e.state
  {
  }

  lemma HandleKeeps(c: Setup, s: Sys, nr: nat)
    requires Valid(c, s) && nr < 4
    requires forall i | 0 <= i < nr :: s.ch[i].evtime != Some(0)
    ensures var t := HandleIfDue(c, s, nr);
      Valid(c, t) && t.next == s.next && t.samples == s.samples && forall i | 0 <= i <= nr :: t.ch[i].evtime != Some(0)
  {
    hide Own, Attached, Interrupts;
    OwnIsAhead(s.ch[nr], s.irq[nr]);
    if nr < 3 { AttachedKeeps(c, s.ch[nr], s.irq[nr], s.ch[nr + 1]); }
  }

  lemma EventsKeep(c: Setup, s: Sys)
    requires Valid(c, s)
    ensures var t := Events(c, s); Valid(c, t) && AllAhead(t) && t.next == s.next && t.samples == s.samples
  {
    hide HandleIfDue;
    HandleKeeps(c, s, 0);
    var s1 := HandleIfDue(c, s, 0);
    HandleKeeps(c, s1, 1);
    var s2 := HandleIfDue(c, s1, 1);
    HandleKeeps(c, s2, 2);
    HandleKeeps(c, HandleIfDue(c, s2, 2), 3);
  }

  lemma LaterKeeps(d: Channel, t: nat)
    ensures var n := Later(d, t); n.per == d.per && n.state == d.state && (n.evtime.Some? <==> d.evtime.Some?)
  {
  }

  lemma ElapseKeeps(c: Setup, s: Sys, t: nat)
    requires Valid(c, s)
    ensures Valid(c, Elapse(c, s, t))
    ensures c.level > 1 && t <= s.next ==> Elapse(c, s, t).next == if t == s.next then c.interval else s.next - t
    ensures c.level > 1 && t <= s.next ==> |Elapse(c, s, t).samples| == |s.samples| + if t == s.next then 1 else 0
    ensures s.samples <= Elapse(c, s, t).samples
  {
    hide Later;
    LaterKeeps(s.ch[0], t);
    LaterKeeps(s.ch[1], t);
    LaterKeeps(s.ch[2], t);
    LaterKeeps(s.ch[3], t);
  }

  lemma StepKeeps(c: Setup, s: Sys, t: nat)
    requires Valid(c, s)
    ensures Valid(c, Step(c, s, t)) && AllAhead(Step(c, s, t))
    ensures Step(c, s, t).next == Elapse(c, s, t).next && Step(c, s, t).samples == Elapse(c, s, t).samples
  {
    hide Events, Elapse;
    ElapseKeeps(c, s, t);
    EventsKeep(c, Elapse(c, s, t));
  }

  lemma BestBounds(c: Setup, s: Sys, n: nat)
    requires Valid(c, s)
    ensures 0 <= Best(c, s, n) <= n + 1 && (AllAhead(s) ==> Best(c, s, n) > 0)
    ensures c.level > 1 ==> Best(c, s, n) <= s.next
  {
  }

  // Everything that falls due within n, and the time that is left over.
  function Run(c: Setup, s: Sys, n: nat): (Sys, nat)
    requires Valid(c, s)
    decreases n, if AllAhead(s) then 0 else 1
  {
    BestBounds(c, s, n);
    var t := Best(c, s, n);
    if t > n then (s, n) else
      StepKeeps(c, s, t);
      Run(c, Step(c, s, t), n - t)
  }

  // ---- processing in pieces ----

  lemma BestWithin(c: Setup, s: Sys, m: nat, n: nat)
    requires Valid(c, s)
    ensures Best(c, s, m) <= m ==> Best(c, s, m + n) == Best(c, s, m)
  {
  }

  // One call for the whole interval, or one for each of its parts: the same channels, the same samples.
  lemma {:induction false} RunSplits(c: Setup, s: Sys, m: nat, n: nat)
    requires Valid(c, s)
    ensures Valid(c, Run(c, s, m).0) && Run(c, s, m + n) == Run(c, Run(c, s, m).0, Run(c, s, m).1 + n)
    decreases m, if AllAhead(s) then 0 else 1
  {
    hide Best, Step;
    BestBounds(c, s, m);
    BestBounds(c, s, m + n);
    BestWithin(c, s, m, n);
    var t := Best(c, s, m);
    if t <= m {
      StepKeeps(c, s, t);
      RunSplits(c, Step(c, s, t), m - t, n);
      assert m + n - t == m - t + n;
    }
  }

  // ---- samples ----

  // How many samples fall due within n.
  function Due(next: nat, interval: nat, n: nat): nat
    requires interval > 0
  {
    if n < next then 0 else 1 + (n - next) / interval
  }

  lemma DueLater(next: nat, interval: nat, n: nat, t: nat)
    requires interval > 0 && next > 0 && t <= n && t <= next
    ensures Due(next, interval, n) == if t == next then 1 + Due(interval, interval, n - t)
      else Due(next - t, interval, n - t)
  {
    if t == next && n - next >= interval {
      var x := n - next;
      assert x == (x - interval) + interval;
      OneMore(x - interval, interval);
    } else if t == next {
      Less(n - next, interval);
    }
  }

  lemma OneMore(x: nat, d: nat)
    requires d > 0
    ensures (x + d) / d == x / d + 1
  {
    var q, r := x / d, x % d;
    assert x + d == (q + 1) * d + r;
    Division.Unique(x + d, d, q + 1, r);
  }

  lemma Less(x: nat, d: nat)
    requires x < d
    ensures x / d == 0
  {
  }

  // Exactly the samples whose deadlines have passed are put out, one interval apart, and the next
  // deadline lies where it always would have: nothing is lost and nothing drifts.
  lemma {:induction false} SamplesAreExact(c: Setup, s: Sys, n: nat)
    requires Valid(c, s) && c.level > 1
    ensures var r := Run(c, s, n); var k := Due(s.next, c.interval, n);
      && |r.0.samples| == |s.samples| + k && s.samples <= r.0.samples
      && r.1 <= n && r.1 < r.0.next
      && n - r.1 + r.0.next == s.next + k * c.interval
    decreases n, if AllAhead(s) then 0 else 1
  {
    hide Best, Step, Due, Elapse;
    BestBounds(c, s, n);
    var t := Best(c, s, n);
    if t <= n {
      StepKeeps(c, s, t);
      ElapseKeeps(c, s, t);
      var s1 := Step(c, s, t);
      SamplesAreExact(c, s1, n - t);
      DueLater(s.next, c.interval, n, t);
      OneInterval(Due(s1.next, c.interval, n - t), c.interval);
    } else {
      NoneDue(s.next, c.interval, n);
    }
  }

  lemma OneInterval(k: nat, d: nat)
    ensures (k + 1) * d == k * d + d && (1 + k) * d == k * d + d
  {
  }

  lemma NoneDue(next: nat, interval: nat, n: nat)
    requires interval > 0 && n < next
    ensures Due(next, interval, n) == 0
  {
  }

  // Nothing that is due is left undone.
  lemma {:induction false} NothingOverdue(c: Setup, s: Sys, n: nat)
    requires Valid(c, s)
    ensures var r := Run(c, s, n);
      Valid(c, r.0) && forall i | 0 <= i < 4 && r.0.ch[i].evtime.Some? :: r.0.ch[i].evtime.value > r.1
    decreases n, if AllAhead(s) then 0 else 1
  {
    hide Step;
    BestBounds(c, s, n);
    var t := Best(c, s, n);
    if t <= n {
      StepKeeps(c, s, t);
      NothingOverdue(c, Step(c, s, t), n - t);
    }
  }

  // ---- update_audio ----

  class Paula {
    const setup: Setup
    var sys: Sys
    var cycles: int
    var lastCycles: int

    ghost predicate Ready()
      reads this
    {
      Valid(setup, sys) && lastCycles <= cycles
    }

    constructor (setup: Setup, sys: Sys, now: int)
      requires Valid(setup, sys)
      ensures Ready()
    {
      this.setup, this.sys, cycles, lastCycles := setup, sys, now, now;
    }

    // audio_handler for a channel in state 2 or 3
    method Handler(nr: nat)
      requires Valid(setup, sys) && nr < 4
      requires sys.ch[nr].state == 2 || sys.ch[nr].state == 3
      modifies this`sys
      ensures sys == Handle(setup, old(sys), nr)
    {
      hide NextWord, NewSample, AttachedPeriod;
      var d := sys.ch[nr];
      var irq := sys.irq[nr];
      if d.state == 2 {
        if !d.dmaen && irq {
          sys := sys.(ch := sys.ch[nr := d.(state := 0, evtime := None, requestWord := 0)]);
          HandledIs(setup, old(sys), nr, sys.ch[nr], false);
          return;
        }
        d := NewSample(NextWord(d).(evtime := Some(d.per))).(state := 3);
        var ask := false;
        if d.attachPeriod {
          ask := d.intreq2 && d.dmaen;
          d := d.(intreq2 := false, requestWord := 1, dat := d.dat2);
        }
        NewSampleKeeps(sys.ch[nr]);
        Finish(nr, d, ask);
      } else {
        d := NewSample(NextWord(d).(evtime := Some(d.per))).(state := 2);
        d := d.(dat := d.dat2);
        var ask := false;
        if d.dmaen {
          if Napnav(d) { d := d.(requestWord := 1); }
          ask := d.intreq2 && Napnav(d);
        } else {
          ask := Napnav(d);
        }
        d := d.(intreq2 := false);
        NewSampleKeeps(sys.ch[nr]);
        Finish(nr, d, ask);
      }
    }

    // Stores the channel, its interrupt request and what it hands to the next channel.
    method Finish(nr: nat, d: Channel, ask: bool)
      requires Valid(setup, sys) && nr < 4
      requires d == Own(sys.ch[nr], sys.irq[nr]) && ask == Interrupts(sys.ch[nr], sys.irq[nr])
      modifies this`sys
      ensures sys == Handle(setup, old(sys), nr)
    {
      hide Own, Interrupts, Attached;
      var was, irq := sys.ch[nr], sys.irq[nr];
      var ch := sys.ch[nr := d];
      if nr < 3 { ch := ch[nr + 1 := Attached(setup, was, irq, ch[nr + 1])]; }
      sys := sys.(ch := ch, irq := if ask then sys.irq[nr := true] else sys.irq);
      HandledIs(setup, old(sys), nr, d, ask);
    }

    // Every deadline up to now is dealt with; what has not been used up counts next time.
    method UpdateAudio()
      requires Ready()
      modifies this`sys, this`lastCycles
      ensures Ready()
      ensures var r := Run(setup, old(sys), cycles - old(lastCycles)); sys == r.0 && lastCycles == cycles - r.1
    {
      hide Valid, Best, Elapse, Handle;
      var n := cycles - lastCycles;
      while true
        invariant 0 <= n <= cycles - old(lastCycles) && Valid(setup, sys)
        invariant Run(setup, sys, n) == Run(setup, old(sys), cycles - old(lastCycles))
        decreases n, if AllAheadOf(setup, sys) then 0 else 1
      {
        BestBounds(setup, sys, n);
        FourChannels(setup, sys);
        var best := Best(setup, sys, n);
        if best > n { break; }
        StepKeeps(setup, sys, best);
        ElapseKeeps(setup, sys, best);
        sys := Elapse(setup, sys, best);
        n := n - best;
        EventsKeep(setup, sys);
        HandleDue();
      }
      lastCycles := cycles - n;
    }

    // The handlers of the channels that are due, in order.
    method HandleDue()
      requires Valid(setup, sys)
      modifies this`sys
      ensures sys == Events(setup, old(sys))
    {
      hide Handle;
      HandleKeeps0(setup, sys);
      if sys.ch[0].evtime == Some(0) { Handler(0); }
      if sys.ch[1].evtime == Some(0) { Handler(1); }
      if sys.ch[2].evtime == Some(0) { Handler(2); }
      if sys.ch[3].evtime == Some(0) { Handler(3); }
    }
  }

  // The valid states between the four handlers.
  lemma HandleKeeps0(c: Setup, s: Sys)
    requires Valid(c, s)
    ensures Valid(c, HandleIfDue(c, s, 0)) && Valid(c, HandleIfDue(c, HandleIfDue(c, s, 0), 1))
    ensures Valid(c, HandleIfDue(c, HandleIfDue(c, HandleIfDue(c, s, 0), 1), 2))
  {
    hide HandleIfDue;
    HandleKeeps(c, s, 0);
    var s1 := HandleIfDue(c, s, 0);
    HandleKeeps(c, s1, 1);
    HandleKeeps(c, HandleIfDue(c, s1, 1), 2);
  }

  lemma NewSampleKeeps(d: Channel)
    ensures var n := NextWord(d);
      && n.dmaen == d.dmaen && n.per == d.per && n.attachPeriod == d.attachPeriod && n.attachVolume == d.attachVolume
      && n.dat2 == d.dat2 && n.state == d.state
    ensures var n := NewSample(NextWord(d).(evtime := Some(d.per)));
      && n.dmaen == d.dmaen && n.per == d.per && n.attachPeriod == d.attachPeriod && n.attachVolume == d.attachVolume
      && n.dat2 == d.dat2 && n.intreq2 == NextWord(d).intreq2 && n.requestWord == NextWord(d).requestWord
  {
  }

  lemma HandledIs(c: Setup, s: Sys, nr: nat, d: Channel, ask: bool)
    requires Valid(c, s) && nr < 4 && d == Own(s.ch[nr], s.irq[nr]) && ask == Interrupts(s.ch[nr], s.irq[nr])
    ensures Handle(c, s, nr).irq == if ask then s.irq[nr := true] else s.irq
    ensures Stops(s.ch[nr], s.irq[nr]) ==> Handle(c, s, nr).ch == s.ch[nr := d]
  {
    hide Own, Interrupts;
    if !ask { assert s.irq[nr := s.irq[nr]] == s.irq; }
    if nr < 3 { assert s.ch[nr := d][nr + 1 := s.ch[nr := d][nr + 1]] == s.ch[nr := d]; }
  }

  ghost predicate AllAheadOf(c: Setup, s: Sys)
    requires Valid(c, s)
  {
    AllAhead(s)
  }

  lemma FourChannels(c: Setup, s: Sys)
    requires Valid(c, s)
    ensures |s.ch| == |s.irq| == 4 && c.shortest > 0
  {
  }
}
