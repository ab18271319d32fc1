// The CD sector double buffer: a thread that fills buffers and a reader that hands sectors over,
// in every interleaving of their steps.

module Akiko {
  import opened Options

  const SIZE := 64
  const GONE := 0xff

  // A buffer: contents, how often each cell may still be handed over, and the first sector.
  // `taken` counts how often a cell has been handed over since it was filled.
  datatype Buffer<P> = Buffer(data: seq<P>, info: seq<int>, base: int, taken: seq<nat>)

  datatype ThreadAt =
    | Ready
    | Decided(fill: bool)
    | Clearing
    | Filling(offset: nat)
    | Filled
    | Swapping(part: nat)
    | Swapped

  datatype ReaderAt =
    | Idle
    | Wanting
    | Locating
    | Handing
    | Leaving(served: bool)

  datatype Handover<P> = Handover(slot: nat, sector: int, payload: P)

  datatype State<P> = State(
    one: Buffer<P>, two: Buffer<P>, free: bool,
    t: ThreadAt, fillSector: int,
    r: ReaderAt, offset: int, counter: int, wanted: set<nat>, enabled: bool, unit: int,
    current: int, dataEnd: int, sec: int, log: seq<Handover<P>>)

  // ---- the reader: cdrom_run_read ----

  function Slot(counter: int): nat { counter % 16 }

  // Nothing to do, or nothing wanted in this slot, or wait for the semaphore.
  function ReaderStart<P>(s: State<P>): State<P> {
    if !s.enabled || s.wanted == {} || s.offset < 0 then s
    else if s.unit >= 0 && Slot(s.counter) in s.wanted then s.(r := Wanting)
    else s.(counter := s.counter + 1)
  }

  function ReaderTake<P>(s: State<P>): State<P> { s.(free := false, current := s.offset + s.counter, r := Locating) }

  function ReaderLocate<P>(s: State<P>): State<P> {
    var sec := s.current - s.one.base;
    s.(sec := sec, r := if s.one.base >= 0 && 0 <= sec < SIZE then Handing else Leaving(false))
  }

  // A byte counts down, and goes from 0 to 255.
  function Less(info: int): int { (info + 255) % 256 }

  function ReaderHand<P>(s: State<P>): State<P>
    requires 0 <= s.sec < |s.one.data| == |s.one.info| == |s.one.taken|
  {
    var i := s.sec;
    var info := s.one.info[i];
    var hand := info != GONE && info != 0;
    s.(r := Leaving(true),
       log := if hand then s.log + [Handover(Slot(s.counter), s.current, s.one.data[i])] else s.log,
       one := s.one.(info := if info != GONE then s.one.info[i := Less(info)] else s.one.info,
                     taken := if hand then s.one.taken[i := s.one.taken[i] + 1] else s.one.taken))
  }

  function ReaderLeave<P>(s: State<P>): State<P>
    requires s.r.Leaving?
  {
    if s.r.served then s.(free := true, r := Idle, wanted := s.wanted - {Slot(s.counter)}, counter := s.counter + 1)
    else s.(free := true, r := Idle)
  }

  // ---- the thread: akiko_thread ----

  predicate NeedsFill<P>(s: State<P>) {
    && s.dataEnd > 0 && s.current >= 0
    && (s.one.base < 0 || s.current < s.one.base || s.current >= s.one.base + SIZE * 2 / 3 || GONE in s.one.info)
  }

  function ThreadTake<P>(s: State<P>): State<P> {
    s.(free := false, fillSector := s.current, t := Decided(NeedsFill(s)))
  }

  function ThreadDecide<P>(s: State<P>): State<P>
    requires s.t.Decided?
  {
    s.(free := true, t := if s.t.fill then Clearing else Ready)
  }

  function ThreadClear<P>(s: State<P>): State<P> {
    s.(two := s.two.(info := seq(SIZE, i => 0), base := s.fillSector, taken := seq(SIZE, i => 0)), t := Filling(0))
  }

  // One sector read from the disc, where there is one.
  function ThreadFill<P>(s: State<P>, disc: int -> Option<P>): State<P>
    requires s.t.Filling? && s.t.offset < |s.two.data| == |s.two.info|
  {
    var k := s.t.offset;
    var p := if s.fillSector < s.dataEnd then disc(s.fillSector) else None;
    s.(two := s.two.(data := if p.Some? then s.two.data[k := p.value] else s.two.data,
                     info := s.two.info[k := if p.Some? then 3 else 0]),
       fillSector := s.fillSector + 1, t := Filling(k + 1))
  }

  // The buffers change places in three assignments.
  function ThreadSwap<P>(s: State<P>): State<P>
    requires s.t.Swapping?
  {
    if s.t.part == 0 then
      s.(one := s.one.(info := s.two.info, taken := s.two.taken),
         two := s.two.(info := s.one.info, taken := s.one.taken), t := Swapping(1))
    else if s.t.part == 1 then
      s.(one := s.one.(data := s.two.data), two := s.two.(data := s.one.data), t := Swapping(2))
    else
      s.(one := s.one.(base := s.two.base), two := s.two.(base := s.one.base), t := Swapped)
  }

  // ---- all steps ----

  ghost predicate ReaderStep<P(!new)>(s: State<P>, s': State<P>) {
    match s.r
    case Idle => s' == ReaderStart(s)
    case Wanting => s.free && s' == ReaderTake(s)
    case Locating => s' == ReaderLocate(s)
    case Handing => 0 <= s.sec < |s.one.data| == |s.one.info| == |s.one.taken| && s' == ReaderHand(s)
    case Leaving(_) => s' == ReaderLeave(s)
  }

  ghost predicate ThreadStep<P(!new)>(s: State<P>, s': State<P>, disc: int -> Option<P>) {
    match s.t
    case Ready => s.free && s' == ThreadTake(s)
    case Decided(_) => s' == ThreadDecide(s)
    case Clearing => s' == ThreadClear(s)
    case Filling(k) =>
      if k < SIZE then k < |s.two.data| == |s.two.info| && s' == ThreadFill(s, disc) else s' == s.(t := Filled)
    case Filled => s.free && s' == s.(free := false, t := Swapping(0))
    case Swapping(_) => s' == ThreadSwap(s)
    case Swapped => s' == s.(free := true, t := Ready)
  }

  // What the rest of the machine may do between two reads: commands, new read masks, other discs' ends.
  ghost predicate Outside<P(!new)>(s: State<P>, s': State<P>) {
    && s.r == Idle
    && s' == s.(offset := s'.offset, counter := s'.counter, wanted := s'.wanted, enabled := s'.enabled,
                unit := s'.unit, current := s'.current, dataEnd := s'.dataEnd)
  }

  ghost predicate Next<P(!new)>(s: State<P>, s': State<P>, disc: int -> Option<P>) {
    ReaderStep(s, s') || ThreadStep(s, s', disc) || Outside(s, s')
  }

  ghost predicate Init<P(!new)>(s: State<P>) {
    && |s.one.data| == |s.two.data| == |s.one.info| == |s.two.info| == |s.one.taken| == |s.two.taken| == SIZE
    && s.one.base == s.two.base == -1 && s.free && s.t == Ready && s.r == Idle && s.log == []
    && (forall i | 0 <= i < SIZE :: s.one.info[i] == 0 && s.one.taken[i] == 0)
  }

  // ---- what holds in every state ----

  predicate ThreadHolds<P>(s: State<P>) { s.t.Decided? || s.t.Swapping? || s.t.Swapped? }

  predicate ReaderHolds<P>(s: State<P>) { s.r.Locating? || s.r.Handing? || s.r.Leaving? }

  // Never both inside.
  predicate Exclusive<P>(s: State<P>) {
    && !(ThreadHolds(s) && ReaderHolds(s)) && (s.free <==> !ThreadHolds(s) && !ReaderHolds(s))
  }

  predicate Sized<P>(b: Buffer<P>) { |b.data| == |b.info| == |b.taken| == SIZE }

  // A cell that may still be handed over holds the disc's sector, and the count is kept.
  ghost predicate CellOk<P(!new)>(b: Buffer<P>, i: int, disc: int -> Option<P>)
    requires Sized(b) && 0 <= i < SIZE
  {
    && (b.info[i] == GONE || 0 <= b.info[i] <= 3)
    && (1 <= b.info[i] <= 3 ==> disc(b.base + i) == Some(b.data[i]) && b.taken[i] + b.info[i] == 3)
    && b.taken[i] <= 3
  }

  ghost predicate Good<P(!new)>(b: Buffer<P>, disc: int -> Option<P>) {
    Sized(b) && forall i | 0 <= i < SIZE :: CellOk(b, i, disc)
  }

  // The buffer being filled, up to its k-th cell.
  ghost predicate GoodUpTo<P(!new)>(b: Buffer<P>, k: nat, disc: int -> Option<P>) {
    && Sized(b) && k <= SIZE
    && (forall i | 0 <= i < k :: CellOk(b, i, disc) && b.taken[i] == 0)
    && (forall i | k <= i < SIZE :: b.info[i] == 0 && b.taken[i] == 0)
  }

  // The buffer the reader sees, as it is or as it will be after the swap.
  function Seen<P>(s: State<P>): Buffer<P> {
    if !s.t.Swapping? || s.t.part == 0 then s.one
    else if s.t.part == 1 then Buffer(s.two.data, s.one.info, s.two.base, s.one.taken)
    else Buffer(s.one.data, s.one.info, s.two.base, s.one.taken)
  }

  ghost predicate Logged<P(!new)>(log: seq<Handover<P>>, disc: int -> Option<P>) {
    forall h | h in log :: disc(h.sector) == Some(h.payload)
  }

  ghost predicate Inv<P(!new)>(s: State<P>, disc: int -> Option<P>) {
    && Exclusive(s) && Good(Seen(s), disc) && Sized(s.one) && Sized(s.two) && Logged(s.log, disc)
    && (s.t.Filling? ==> GoodUpTo(s.two, s.t.offset, disc) && s.fillSector == s.two.base + s.t.offset)
    && (s.t.Filled? ==> Good(s.two, disc))
    && (s.t.Swapping? ==> s.t.part <= 2)
    && (s.t.Swapping? && s.t.part == 0 ==> Good(s.two, disc))
    && (s.r.Locating? || s.r.Handing? ==> s.current == s.offset + s.counter)
    && (s.r.Handing? ==> s.one.base >= 0 && s.sec == s.current - s.one.base && 0 <= s.sec < SIZE)
  }

  lemma InitInv<P(!new)>(s: State<P>, disc: int -> Option<P>)
    requires Init(s)
    ensures Inv(s, disc)
  {
  }

  lemma ReaderKeeps<P(!new)>(s: State<P>, s': State<P>, disc: int -> Option<P>)
    requires Inv(s, disc) && ReaderStep(s, s')
    ensures Inv(s', disc)
  {
    if s.r.Handing? {
      HandKeeps(s, disc);
    }
  }

  // Handing a sector over keeps the buffer good, and hands over the sector that was asked for.
  lemma HandKeeps<P(!new)>(s: State<P>, disc: int -> Option<P>)
    requires Inv(s, disc) && s.r.Handing?
    ensures Good(ReaderHand(s).one, disc) && Logged(ReaderHand(s).log, disc)
  {
    var b, i := s.one, s.sec;
    assert CellOk(b, i, disc);
    var b' := ReaderHand(s).one;
    forall j | 0 <= j < SIZE
      ensures CellOk(b', j, disc)
    {
      assert CellOk(b, j, disc);
    }
  }

  lemma ThreadKeeps<P(!new)>(s: State<P>, s': State<P>, disc: int -> Option<P>)
    requires Inv(s, disc) && ThreadStep(s, s', disc)
    ensures Inv(s', disc)
  {
    match s.t
    case Filling(k) => if k < SIZE { FillKeeps(s, disc); }
    case _ =>
  }

  lemma FillKeeps<P(!new)>(s: State<P>, disc: int -> Option<P>)
    requires Inv(s, disc) && s.t.Filling? && s.t.offset < SIZE
    ensures GoodUpTo(ThreadFill(s, disc).two, s.t.offset + 1, disc)
  {
    var k := s.t.offset;
    var b, b' := s.two, ThreadFill(s, disc).two;
    forall i | 0 <= i < k + 1
      ensures CellOk(b', i, disc) && b'.taken[i] == 0
    {
      if i < k { assert CellOk(b, i, disc); }
    }
  }

  // ---- over whole runs ----

  ghost predicate Run<P(!new)>(tr: seq<State<P>>, disc: int -> Option<P>) {
    Path(tr, disc) && Init(tr[0])
  }

  ghost predicate Path<P(!new)>(tr: seq<State<P>>, disc: int -> Option<P>) {
    |tr| > 0 && forall n | 0 <= n < |tr| - 1 :: Next(tr[n], tr[n + 1], disc)
  }

  lemma {:induction false} RunKeeps<P(!new)>(tr: seq<State<P>>, n: nat, disc: int -> Option<P>)
    requires Run(tr, disc) && n < |tr|
    ensures Inv(tr[n], disc)
  {
    if n == 0 {
      InitInv(tr[0], disc);
    } else {
      RunKeeps(tr, n - 1, disc);
      var s, s' := tr[n - 1], tr[n];
      assert Next(tr[n - 1], tr[n - 1 + 1], disc);
      if ReaderStep(s, s') { ReaderKeeps(s, s', disc); }
      else if ThreadStep(s, s', disc) { ThreadKeeps(s, s', disc); }
    }
  }

  // In every run, every sector ever handed over is what the disc holds at its number, the two sides
  // are never both inside the semaphore, and no cell the reader sees has been handed over more than
  // three times since it was filled.
  lemma HandoversAreRight<P(!new)>(tr: seq<State<P>>, n: nat, disc: int -> Option<P>)
    requires Run(tr, disc) && n < |tr|
    ensures forall h | h in tr[n].log :: disc(h.sector) == Some(h.payload)
    ensures !(ThreadHolds(tr[n]) && ReaderHolds(tr[n]))
    ensures Sized(Seen(tr[n])) && forall i | 0 <= i < SIZE :: Seen(tr[n]).taken[i] <= 3
  {
    RunKeeps(tr, n, disc);
    var b := Seen(tr[n]);
    forall i | 0 <= i < SIZE
      ensures b.taken[i] <= 3
    {
      assert CellOk(b, i, disc);
    }
  }

  // What is added to the log is the sector asked for, in the slot of the counter.
  lemma HandsOverWhatIsAsked<P(!new)>(s: State<P>, s': State<P>, disc: int -> Option<P>)
    requires Inv(s, disc) && Next(s, s', disc) && s'.log != s.log
    ensures s.r.Handing? && s.current == s.offset + s.counter
    ensures exists p :: s'.log == s.log + [Handover(Slot(s.counter), s.current, p)] && disc(s.current) == Some(p)
  {
    assert CellOk(s.one, s.sec, disc);
  }

  // A request that reaches a cell is answered with data if and only if the cell may still be handed
  // over; it is taken back either way, and a cell found empty asks the thread for a new filling.
  lemma AnsweredIff<P(!new)>(s: State<P>, disc: int -> Option<P>)
    requires Inv(s, disc) && s.r.Handing? && s.dataEnd > 0
    ensures var n := ReaderLeave(ReaderHand(s));
      && (n.log != s.log <==> s.one.taken[s.sec] < 3 && s.one.info[s.sec] in {1, 2, 3})
      && Slot(s.counter) !in n.wanted && n.counter == s.counter + 1
      && (n.log == s.log ==> n.one.info[s.sec] == GONE && (s.current >= 0 ==> NeedsFill(n)))
  {
    assert CellOk(s.one, s.sec, disc);
    var n := ReaderLeave(ReaderHand(s));
    if n.log == s.log { assert n.one.info[s.sec] == GONE; }
  }

  // ---- a request without an answer ----

  // Sector 1 of a disc that ends before it is wanted.
  function Asked<P>(s: State<P>): State<P> {
    s.(enabled := true, unit := 0, offset := 1, counter := 0, wanted := {0}, current := 1, dataEnd := 1)
  }

  // The thread after k sectors, none of which was there.
  function Emptied<P>(s: State<P>, k: nat): State<P> {
    s.(two := s.two.(info := seq(SIZE, i => 0), base := 1, taken := seq(SIZE, i => 0)),
       fillSector := 1 + k, t := Filling(k))
  }

  // The buffers have changed places, and the reader takes its turn.
  function Turned<P>(s: State<P>): State<P> {
    s.(one := Buffer(s.two.data, seq(SIZE, i => 0), 1, seq(SIZE, i => 0)),
       two := Buffer(s.one.data, s.one.info, s.one.base, s.one.taken), fillSector := 1 + SIZE, t := Ready)
  }

  function Begun<P>(s: State<P>): seq<State<P>> {
    [s, Asked(s), ThreadTake(Asked(s)), ThreadDecide(ThreadTake(Asked(s)))]
  }

  function Emptying<P>(a: State<P>): seq<State<P>> { seq(SIZE + 1, k requires 0 <= k => Emptied(a, k)) }

  function Turning<P>(f: State<P>): seq<State<P>> {
    var w := f.(free := false, t := Swapping(0));
    [f.(t := Filled), w, ThreadSwap(w), ThreadSwap(ThreadSwap(w)), ThreadSwap(ThreadSwap(ThreadSwap(w)))]
  }

  function Refused<P>(b: State<P>): seq<State<P>>
    requires |b.one.data| == |b.one.info| == |b.one.taken| == SIZE && b.offset + b.counter == b.one.base
  {
    var h := ReaderLocate(ReaderTake(b));
    [b, b.(r := Wanting), ReaderTake(b), h, ReaderHand(h), ReaderLeave(ReaderHand(h))]
  }

  function Unanswered<P>(s: State<P>): seq<State<P>>
    requires Sized(s.one) && Sized(s.two)
  {
    var a := Asked(s);
    Begun(s) + Emptying(a) + Turning(Emptied(a, SIZE)) + Refused(Turned(a))
  }

  lemma Joined<P(!new)>(a: seq<State<P>>, b: seq<State<P>>, disc: int -> Option<P>)
    requires Path(a, disc) && Path(b, disc) && Next(a[|a| - 1], b[0], disc)
    ensures Path(a + b, disc)
  {
    hide Next;
    forall n | 0 <= n < |a + b| - 1
      ensures Next((a + b)[n], (a + b)[n + 1], disc)
    {
      if n < |a| - 1 {
        assert Next(a[n], a[n + 1], disc);
      } else if n >= |a| {
        assert Next(b[n - |a|], b[n - |a| + 1], disc);
      }
    }
  }

  lemma BeginPath<P(!new)>(s: State<P>, disc: int -> Option<P>)
    requires Init(s)
    ensures Path(Begun(s), disc) && Next(Begun(s)[3], Emptied(Asked(s), 0), disc)
  {
    assert Outside(s, Asked(s));
  }

  lemma EmptyPath<P(!new)>(a: State<P>, disc: int -> Option<P>)
    requires Sized(a.two) && a.dataEnd == 1
    ensures Path(Emptying(a), disc)
  {
    forall k | 0 <= k < SIZE
      ensures ThreadStep(Emptying(a)[k], Emptying(a)[k + 1], disc)
    {
      assert Emptied(a, k).two.info[k := 0] == Emptied(a, k + 1).two.info;
    }
  }

  lemma TurnPath<P(!new)>(a: State<P>, disc: int -> Option<P>)
    requires a.free
    ensures var f := Emptied(a, SIZE);
      && Path(Turning(f), disc) && Next(f, Turning(f)[0], disc) && Next(Turning(f)[4], Turned(a), disc)
  {
    hide Outside, ReaderStep;
  }

  lemma RefusePath<P(!new)>(b: State<P>, disc: int -> Option<P>)
    requires Sized(b.one) && b.offset + b.counter == b.one.base == 1 && b.one.info[0] == 0 && b.r == Idle && b.free
    requires b.enabled && b.wanted == {0} && b.unit == 0 && b.counter == 0
    ensures Path(Refused(b), disc)
    ensures var e := Refused(b)[5]; e.wanted == {} && e.r == Idle && e.log == b.log
  {
    hide Outside, ThreadStep;
  }

  // A run in which a request is taken back without ever having been answered.
  lemma TakenBack<P(!new)>(s: State<P>, disc: int -> Option<P>)
    requires Init(s)
    ensures var tr := Unanswered(s);
      && Run(tr, disc) && tr[0] == s && tr[1].wanted == {0}
      && tr[|tr| - 1].wanted == {} && tr[|tr| - 1].r == Idle && tr[|tr| - 1].log == []
  {
    hide Path, Next;
    var a := Asked(s);
    BeginPath(s, disc);
    EmptyPath(a, disc);
    TurnPath(a, disc);
    RefusePath(Turned(a), disc);
    Joined(Begun(s), Emptying(a), disc);
    Joined(Begun(s) + Emptying(a), Turning(Emptied(a, SIZE)), disc);
    Joined(Begun(s) + Emptying(a) + Turning(Emptied(a, SIZE)), Refused(Turned(a)), disc);
  }

  // ---- what a filling leaves ----

  // The first k cells of a buffer hold what the disc has in front of `end`, and nothing else.
  ghost predicate Holds<P(!new)>(b: Buffer<P>, k: nat, base: int, end: int, disc: int -> Option<P>) {
    && Sized(b) && k <= SIZE && b.base == base
    && forall i | 0 <= i < k ::
      if base + i < end && disc(base + i).Some? then b.info[i] == 3 && b.data[i] == disc(base + i).value
      else b.info[i] == 0
  }

  // Between clearing and the swap.
  ghost predicate InFilling<P(!new)>(s: State<P>, base: int, end: int, disc: int -> Option<P>) {
    && s.dataEnd == end
    && (s.t.Clearing? ==> s.fillSector == base)
    && (s.t.Filling? ==> Holds(s.two, s.t.offset, base, end, disc) && s.fillSector == base + s.t.offset)
    && (s.t.Filled? ==> Holds(s.two, SIZE, base, end, disc))
  }

  // Nobody but the thread moves, so nothing else changes.
  ghost predicate OnlyThread<P(!new)>(s: State<P>, s': State<P>) {
    s' == s.(one := s'.one, two := s'.two, free := s'.free, t := s'.t, fillSector := s'.fillSector)
  }

  lemma OneMore<P(!new)>(f: State<P>, base: int, k: nat, disc: int -> Option<P>)
    requires k < SIZE && f.t == Filling(k) && f.fillSector == base + k && Holds(f.two, k, base, f.dataEnd, disc)
    ensures var f' := ThreadFill(f, disc);
      && f'.t == Filling(k + 1) && f'.fillSector == base + k + 1 && f'.free == f.free && f'.one == f.one
      && OnlyThread(f, f') && Holds(f'.two, k + 1, base, f.dataEnd, disc)
  {
  }

  lemma ReaderElsewhere<P(!new)>(s: State<P>, s': State<P>)
    requires ReaderStep(s, s')
    ensures s'.two == s.two && s'.t == s.t && s'.fillSector == s.fillSector && s'.dataEnd == s.dataEnd
  {
  }

  lemma FillingGoesOn<P(!new)>(s: State<P>, s': State<P>, base: int, end: int, disc: int -> Option<P>)
    requires Next(s, s', disc) && InFilling(s, base, end, disc) && s'.dataEnd == end && Sized(s.two)
    requires (s.t.Clearing? || s.t.Filling?) && (s'.t.Clearing? || s'.t.Filling? || s'.t.Filled?)
    ensures InFilling(s', base, end, disc) && Sized(s'.two)
  {
    hide ReaderStep, Holds, ThreadFill;
    if ReaderStep(s, s') {
      ReaderElsewhere(s, s');
    } else if s.t.Filling? && s.t.offset < SIZE {
      OneMore(s, base, s.t.offset, disc);
      StillSized(s, disc);
    } else if s.t.Filling? {
      NoMoreThanAll(s.two, s.t.offset, base, end, disc);
    } else {
      NothingYet(s, base, end, disc);
    }
  }

  lemma StillSized<P(!new)>(s: State<P>, disc: int -> Option<P>)
    requires s.t.Filling? && s.t.offset < SIZE && Sized(s.two)
    ensures Sized(ThreadFill(s, disc).two) && ThreadFill(s, disc).dataEnd == s.dataEnd
  {
  }

  lemma NoMoreThanAll<P(!new)>(b: Buffer<P>, k: nat, base: int, end: int, disc: int -> Option<P>)
    requires Holds(b, k, base, end, disc)
    ensures k <= SIZE
  {
  }

  lemma NothingYet<P(!new)>(s: State<P>, base: int, end: int, disc: int -> Option<P>)
    requires Sized(s.two) && s.fillSector == base
    ensures Holds(ThreadClear(s).two, 0, base, end, disc)
  {
  }

  // Whatever the reader does meanwhile: once the thread has filled a buffer, its cells hold the sectors that
  // the disc has from the one on that was asked for, and the others are empty.
  lemma {:induction false} FilledRight<P(!new)>(tr: seq<State<P>>, n: nat, end: int, disc: int -> Option<P>)
    requires Path(tr, disc) && n < |tr| && tr[0].t.Clearing? && Sized(tr[0].two)
    requires forall m | 0 <= m <= n :: tr[m].dataEnd == end
    requires forall m | 0 <= m < n :: tr[m].t.Clearing? || tr[m].t.Filling?
    requires tr[n].t.Clearing? || tr[n].t.Filling? || tr[n].t.Filled?
    ensures InFilling(tr[n], tr[0].fillSector, end, disc) && Sized(tr[n].two)
    ensures tr[n].t.Filled? ==>
      tr[n].two.base == tr[0].fillSector && forall k | 0 <= k < SIZE ::
        if tr[0].fillSector + k < end && disc(tr[0].fillSector + k).Some?
        then tr[n].two.info[k] == 3 && tr[n].two.data[k] == disc(tr[0].fillSector + k).value
        else tr[n].two.info[k] == 0
  {
    if n > 0 {
      FilledRight(tr, n - 1, end, disc);
      assert Next(tr[n - 1], tr[n - 1 + 1], disc);
      FillingGoesOn(tr[n - 1], tr[n], tr[0].fillSector, end, disc);
    }
  }

  // ---- a request with an answer ----

  // The step that the thread takes next.
  function ThreadMove<P>(s: State<P>, disc: int -> Option<P>): State<P>
    requires Sized(s.two)
  {
    match s.t
    case Ready => ThreadTake(s)
    case Decided(_) => ThreadDecide(s)
    case Clearing => ThreadClear(s)
    case Filling(k) => if k < SIZE then ThreadFill(s, disc) else s.(t := Filled)
    case Filled => s.(free := false, t := Swapping(0))
    case Swapping(_) => ThreadSwap(s)
    case Swapped => s.(free := true, t := Ready)
  }

  function ThreadMoves<P>(s: State<P>, disc: int -> Option<P>, n: nat): (r: State<P>)
    requires Sized(s.one) && Sized(s.two)
    ensures Sized(r.one) && Sized(r.two)
  {
    if n == 0 then s else ThreadMove(ThreadMoves(s, disc, n - 1), disc)
  }

  // The thread's turn: take and leave the semaphore, clear, fill all cells, and swap.
  const TURN := SIZE + 9

  lemma FirstMoves<P(!new)>(s: State<P>, disc: int -> Option<P>)
    requires Sized(s.one) && Sized(s.two) && s.t == Ready && s.free && NeedsFill(s)
    ensures ThreadMoves(s, disc, 0) == s && ThreadMoves(s, disc, 1) == ThreadTake(s)
    ensures ThreadMoves(s, disc, 2) == ThreadDecide(ThreadTake(s)) && ThreadTake(s).t == Decided(true)
    ensures ThreadMoves(s, disc, 3) == ThreadClear(ThreadDecide(ThreadTake(s)))
  {
  }

  lemma {:induction false} Fillings<P(!new)>(s: State<P>, disc: int -> Option<P>, k: nat)
    requires Sized(s.one) && Sized(s.two) && s.t == Ready && s.free && NeedsFill(s) && k <= SIZE
    ensures var f := ThreadMoves(s, disc, 3 + k);
      && f.t == Filling(k) && f.fillSector == s.current + k && f.free && f.one == s.one && OnlyThread(s, f)
      && Holds(f.two, k, s.current, s.dataEnd, disc)
  {
    hide ThreadFill, NeedsFill, Holds;
    if k == 0 {
      FirstMoves(s, disc);
      NothingYet(ThreadDecide(ThreadTake(s)), s.current, s.dataEnd, disc);
    } else {
      Fillings(s, disc, k - 1);
      OneMore(ThreadMoves(s, disc, 2 + k), s.current, k - 1, disc);
    }
  }

  // The five moves from the last cell to the open semaphore.
  lemma SwapMoves<P(!new)>(s: State<P>, disc: int -> Option<P>)
    requires Sized(s.one) && Sized(s.two) && s.t == Ready && s.free && NeedsFill(s)
    ensures var f := ThreadMoves(s, disc, 3 + SIZE);
      var w := f.(free := false, t := Swapping(0));
      && f.t == Filling(SIZE) && f.free && f.one == s.one && OnlyThread(s, f)
      && Holds(f.two, SIZE, s.current, s.dataEnd, disc)
      && ThreadMoves(s, disc, 4 + SIZE) == f.(t := Filled)
      && ThreadMoves(s, disc, 5 + SIZE) == w
      && ThreadMoves(s, disc, 6 + SIZE) == ThreadSwap(w)
      && ThreadMoves(s, disc, 7 + SIZE) == ThreadSwap(ThreadSwap(w))
      && ThreadMoves(s, disc, 8 + SIZE) == ThreadSwap(ThreadSwap(ThreadSwap(w)))
      && ThreadMoves(s, disc, TURN) == f.(one := f.two, two := f.one, t := Ready)
  {
    hide Holds;
    Fillings(s, disc, SIZE);
  }

  lemma TurnDone<P(!new)>(s: State<P>, disc: int -> Option<P>)
    requires Sized(s.one) && Sized(s.two) && s.t == Ready && s.free && NeedsFill(s)
    ensures var f := ThreadMoves(s, disc, TURN);
      f.t == Ready && f.free && OnlyThread(s, f) && Holds(f.one, SIZE, s.current, s.dataEnd, disc)
  {
    SwapMoves(s, disc);
  }

  // A move is a step that the thread may take, if it need not wait for the semaphore.
  lemma MoveIsStep<P(!new)>(s: State<P>, disc: int -> Option<P>)
    requires Sized(s.two) && (s.t.Ready? || s.t.Filled? ==> s.free) && (s.t.Filling? ==> s.t.offset <= SIZE)
    ensures ThreadStep(s, ThreadMove(s, disc), disc)
  {
  }

  lemma NeedNotWait<P(!new)>(s: State<P>, disc: int -> Option<P>, n: nat)
    requires Sized(s.one) && Sized(s.two) && s.t == Ready && s.free && NeedsFill(s) && n < TURN
    ensures var f := ThreadMoves(s, disc, n);
      (f.t.Ready? || f.t.Filled? ==> f.free) && (f.t.Filling? ==> f.t.offset <= SIZE)
  {
    hide Holds, OnlyThread, Sized, ThreadMoves, NeedsFill;
    if n < 3 {
      FirstMoves(s, disc);
    } else if n <= 3 + SIZE {
      Fillings(s, disc, n - 3);
    } else {
      SwapMoves(s, disc);
    }
  }

  function Turn<P>(s: State<P>, disc: int -> Option<P>): seq<State<P>>
    requires Sized(s.one) && Sized(s.two)
  {
    seq(TURN, n requires 0 <= n => ThreadMoves(s, disc, n))
  }

  // The reader's turn from the moment it waits for the semaphore.
  function Served<P>(b: State<P>): seq<State<P>>
    requires Sized(b.one) && 0 <= b.offset + b.counter - b.one.base < SIZE && b.one.base >= 0
  {
    var h := ReaderLocate(ReaderTake(b));
    [b, ReaderTake(b), h, ReaderHand(h), ReaderLeave(ReaderHand(h))]
  }

  lemma ServedPath<P(!new)>(b: State<P>, disc: int -> Option<P>)
    requires Sized(b.one) && b.one.base >= 0 && 0 <= b.offset + b.counter - b.one.base < SIZE
    requires b.r == Wanting && b.free
    ensures Path(Served(b), disc)
  {
    hide Outside, ThreadStep;
  }

  lemma ServedWell<P(!new)>(b: State<P>, end: int, disc: int -> Option<P>)
    requires b.one.base >= 0 && 0 <= b.offset + b.counter - b.one.base < SIZE
    requires b.offset + b.counter < end && disc(b.offset + b.counter).Some?
    requires Holds(b.one, SIZE, b.one.base, end, disc)
    ensures var e, sector := Served(b)[4], b.offset + b.counter;
      && e.log == b.log + [Handover(b.counter % 16, sector, disc(sector).value)]
      && e.wanted == b.wanted - {b.counter % 16} && e.counter == b.counter + 1 && e.r == Idle && e.free
  {
    assert b.one.base + (b.offset + b.counter - b.one.base) == b.offset + b.counter;
  }

  lemma TurnIsPath<P(!new)>(s: State<P>, disc: int -> Option<P>)
    requires Sized(s.one) && Sized(s.two) && s.t == Ready && s.free && NeedsFill(s)
    ensures Path(Turn(s, disc), disc) && Turn(s, disc)[0] == s
    ensures ThreadStep(Turn(s, disc)[TURN - 1], ThreadMoves(s, disc, TURN), disc)
  {
    hide ThreadStep, NeedsFill, ThreadMove;
    forall n | 0 <= n < TURN
      ensures ThreadStep(ThreadMoves(s, disc, n), ThreadMoves(s, disc, n + 1), disc)
    {
      NeedNotWait(s, disc, n);
      MoveIsStep(ThreadMoves(s, disc, n), disc);
    }
  }

  lemma Alone<P(!new)>(s: State<P>, disc: int -> Option<P>)
    ensures Path([s], disc)
  {
  }

  // One turn of the thread, and then the reader's.
  function Answering<P>(s: State<P>, disc: int -> Option<P>): (tr: seq<State<P>>)
    requires Sized(s.one) && Sized(s.two)
  {
    var f := ThreadMoves(s, disc, TURN);
    var b := f.(r := Wanting);
    var h := ReaderLocate(ReaderTake(b));
    if 0 <= b.offset + b.counter - b.one.base < SIZE && b.one.base >= 0 then
      Turn(s, disc) + (if s.r == Idle then [f] else []) + Served(b)
    else [s]
  }

  // A sector in the first two thirds of a buffer that nobody has missed a sector in causes no filling.
  lemma NoFilling<P(!new)>(s: State<P>, disc: int -> Option<P>)
    requires Inv(s, disc) && s.t == Ready && s.free
    requires 0 <= s.one.base <= s.current < s.one.base + 42 && 0xff !in s.one.info
    ensures ThreadMoves(s, disc, 2) == s.(fillSector := s.current)
  {
    assert ThreadMoves(s, disc, 1) == ThreadTake(s);
  }

  // Whenever the thread is about to take the semaphore and a filling is due, one filling and the exchange of
  // the buffers followed by the reader's turn hand over the sector asked for, and nothing else, if it lies
  // among those filled, in front of the end of the data, and is on the disc.
  lemma Answered<P(!new)>(s: State<P>, disc: int -> Option<P>)
    requires Inv(s, disc) && s.t == Ready && s.free && s.dataEnd > 0 && s.current >= 0
    requires s.one.base < 0 || s.current < s.one.base || s.current >= s.one.base + 42 || 0xff in s.one.info
    requires s.r == Idle ==> s.enabled && s.unit >= 0 && s.offset >= 0 && s.counter % 16 in s.wanted
    requires s.current <= s.offset + s.counter < s.current + SIZE && s.offset + s.counter < s.dataEnd
    requires disc(s.offset + s.counter).Some?
    ensures var tr, sector := Answering(s, disc), s.offset + s.counter;
      && Path(tr, disc) && tr[0] == s
      && var e := tr[|tr| - 1];
         && e.log == s.log + [Handover(s.counter % 16, sector, disc(sector).value)]
         && e.wanted == s.wanted - {s.counter % 16} && e.counter == s.counter + 1
         && e.r == Idle && e.t == Ready && e.free
  {
    hide Path, Holds, ThreadStep, ThreadMoves, Outside, Good, Logged;
    TurnDone(s, disc);
    TurnIsPath(s, disc);
    var f := ThreadMoves(s, disc, TURN);
    var b := f.(r := Wanting);
    ServedPath(b, disc);
    ServedWell(b, s.dataEnd, disc);
    if s.r == Idle {
      Alone(f, disc);
      Joined(Turn(s, disc), [f], disc);
      Joined(Turn(s, disc) + [f], Served(b), disc);
    } else {
      assert b == f;
      assert Turn(s, disc) + [] == Turn(s, disc);
      Joined(Turn(s, disc), Served(b), disc);
    }
  }

  // ---- which request comes next ----

  function ReaderStarts<P>(s: State<P>, n: nat): State<P> {
    if n == 0 then s else ReaderStart(ReaderStarts(s, n - 1))
  }

  predicate WantedAfter<P>(s: State<P>, j: int) { (s.counter + j) % 16 in s.wanted }

  // The reader passes over slots that nobody wants, one at a time, and stops at the first that somebody does.
  lemma {:induction false} NextWanted<P>(s: State<P>, k: nat)
    requires s.r == Idle && s.enabled && s.unit >= 0 && s.offset >= 0 && WantedAfter(s, k)
    requires forall j | 0 <= j < k :: !WantedAfter(s, j)
    ensures ReaderStarts(s, k + 1) == s.(counter := s.counter + k, r := Wanting)
  {
    PassedOver(s, k);
  }

  lemma {:induction false} PassedOver<P>(s: State<P>, k: nat)
    requires s.r == Idle && s.enabled && s.unit >= 0 && s.offset >= 0 && s.wanted != {}
    requires forall j | 0 <= j < k :: !WantedAfter(s, j)
    ensures ReaderStarts(s, k) == s.(counter := s.counter + k)
  {
    if k > 0 {
      PassedOver(s, k - 1);
      assert !WantedAfter(s, k - 1);
    }
  }

  // So after at most sixteen looks a wanted slot has been found.
  lemma SixteenLooks<P>(s: State<P>) returns (k: nat)
    requires s.r == Idle && s.enabled && s.unit >= 0 && s.offset >= 0
    requires exists x :: x in s.wanted && x < 16
    ensures k < 16 && ReaderStarts(s, k + 1) == s.(counter := s.counter + k, r := Wanting)
    ensures (s.counter + k) % 16 in s.wanted
  {
    var x :| x in s.wanted && x < 16;
    assert (s.counter + (x - s.counter) % 16) % 16 == x;
    k := 0;
    while !WantedAfter(s, k)
      invariant 0 <= k <= (x - s.counter) % 16
      invariant forall j | 0 <= j < k :: !WantedAfter(s, j)
      decreases 16 - k
    {
      k := k + 1;
    }
    NextWanted(s, k);
  }
}
