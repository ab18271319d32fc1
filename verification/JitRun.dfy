// A whole block through the allocator: what the emitted code leaves in memory after the final flush
// is what interpreting the block instruction by instruction would have left there.

module JitRun {
  import opened Word32
  import opened JitState
  import opened JitAlloc
  import opened JitOps
  import opened JitFlush

  // `flags` says whether the flags of an instruction are needed.
  datatype Op =
    | Const(d: int, w: Word)                                             // mov_l_ri
    | Move(d: int, s: int)                                               // mov_l_rr
    | MoveLow(d: int, s: int, size: int)                                 // mov_b_rr, mov_w_rr
    | Alu(f: (Word, Word) -> Word, d: int, s: int, size: int)            // and_l, and_w, and_b, or_w, or_b, xor_*
    | Fold(f: (Word, Word) -> Word, d: int, s: int, flags: bool)         // or_l
    | FoldImm(g: Word -> Word, d: int, flags: bool)                      // and_l_ri, or_l_ri
    | AddSub(minus: bool, d: int, s: int, size: int, flags: bool)        // add_l, add_w, sub_b, ...
    | AddSubImm(minus: bool, d: int, w: Word, size: int, flags: bool)    // add_l_ri, sub_w_ri, ...
    | Forget(d: int)                                                     // forget_about

  predicate ReadsOther(op: Op) { op.Move? || op.MoveLow? || op.Alu? || op.Fold? || op.AddSub? }

  function Source(op: Op): int { if ReadsOther(op) then op.s else op.d }

  // Of FLAGX only 16 bits mean anything, so it is no operand of a 32-bit instruction.
  ghost predicate Legal(op: Op) {
    && IsVreg(op.d) && IsVreg(Source(op))
    && match op
       case Const(_, _) => true
       case Move(d, s) => s == FLAGX ==> d == FLAGX
       case MoveLow(_, _, size) => size == 1 || size == 2
       case Alu(f, d, s, size) => IsSize(size) && Local(f, size) && (size == 4 ==> d != FLAGX && s != FLAGX)
       case Fold(f, d, s, _) => Local(f, 4) && d != FLAGX && s != FLAGX
       case FoldImm(g, d, _) => LocalAt(g, 4) && d != FLAGX
       case AddSub(_, d, s, size, _) => IsSize(size) && (size == 4 ==> d != FLAGX && s != FLAGX)
       case AddSubImm(_, d, _, size, flags) => IsSize(size) && (size == 4 && flags ==> d != FLAGX)
       case Forget(_) => true
  }

  // ---- interpreting a block ----

  function Result(op: Op, env: seq<Word>): Word
    requires |env| == VREGS && IsVreg(op.d) && IsVreg(Source(op))
  {
    match op
    case Const(_, w) => w
    case Move(_, s) => env[s]
    case MoveLow(d, s, size) => Merge(env[d], env[s], size)
    case Alu(f, d, s, size) => Merge(env[d], f(env[d], env[s]), size)
    case Fold(f, d, s, _) => f(env[d], env[s])
    case FoldImm(g, d, _) => g(env[d])
    case AddSub(minus, d, s, size, _) => Merge(env[d], Sum(minus, env[d], env[s]), size)
    case AddSubImm(minus, d, w, size, _) => Merge(env[d], Sum(minus, env[d], w), size)
    case Forget(d) => env[d]
  }

  ghost function Interpreted(block: seq<Op>, env: seq<Word>): (r: seq<Word>)
    requires |env| == VREGS && forall op | op in block :: Legal(op)
    ensures |r| == VREGS
  {
    if block == [] then env
    else
      var before := Interpreted(block[..|block| - 1], env);
      var op := block[|block| - 1];
      assert op in block && Legal(op);
      before[op.d := Result(op, before)]
  }

  // Which virtual registers have a value after op, given those that had one before.
  function Defined(op: Op, defined: set<int>): set<int> {
    match op
    case Const(d, _) => defined + {d}
    case Move(d, s) => if s in defined then defined + {d} else defined - {d}
    case Forget(d) => defined - {d}
    case _ => if Source(op) in defined && op.d in defined then defined else defined - {op.d}
  }

  function DefinedAfter(block: seq<Op>, defined: set<int>): set<int> {
    if block == [] then defined else Defined(block[|block| - 1], DefinedAfter(block[..|block| - 1], defined))
  }

  // What has a value at the start of a block.
  function Initial(): set<int> { set v | 0 <= v <= FLAGTMP && ToHome(v) }

  lemma InitialIs()
    ensures forall v :: v in Initial() <==> 0 <= v <= 15 || v == PC_P || v == FLAGX || v == FLAGTMP
  {
  }

  // ---- what the text of a block says about the allocator ----

  // The registers that are constants, those of which perhaps not all bytes are valid, those that are in
  // memory, up to date, because nothing has touched them, and those that are certainly valid in part.
  datatype Text = Text(consts: map<int, Word>, narrow: set<int>, home: set<int>, part: set<int>)

  // What becomes of an instruction when the constants among its operands are looked at.
  function Seen(op: Op, consts: map<int, Word>): Op {
    match op
    case Move(d, s) => if d != s && s in consts then Const(d, consts[s]) else op
    case Fold(f, d, s, flags) =>
      if d in consts && s in consts && !flags then Const(d, f(consts[d], consts[s])) else Alu(f, d, s, 4)
    case FoldImm(g, d, flags) => if d in consts && !flags then Const(d, g(consts[d])) else op
    case AddSub(minus, d, s, size, flags) =>
      if s in consts then AddSubImm(minus, d, Merge(ZERO, consts[s], size), size, flags)
      else Alu((x, y) => Sum(minus, x, y), d, s, size)
    case _ => op
  }

  function After(op: Op, t: Text): Text {
    match Seen(op, t.consts)
    case Const(d, w) => Text(t.consts[d := w], t.narrow - {d}, t.home - {d}, t.part - {d})
    case Move(d, s) => if d == s then t else Text(t.consts - {d}, t.narrow - {d, s}, t.home - {d, s}, {})
    case MoveLow(d, s, size) =>
      if d == s then t
      else Text(t.consts - {d}, t.narrow + {d}, t.home - {d, s}, if d in t.home then {d} else {})
    case Alu(f, d, s, size) =>
      Text(t.consts - {d, s}, if size == 4 then t.narrow - {d, s} else t.narrow, t.home - {d, s}, {})
    case AddSubImm(minus, d, w, size, flags) =>
      if !Offsets(w, size, flags) then
        Text(t.consts - {d}, if size == 4 then t.narrow - {d} else t.narrow, t.home - {d}, {})
      else if w == ZERO then t
      else
        t.(consts := if d in t.consts then t.consts[d := Add(t.consts[d], Signed(minus, w))] else t.consts,
           home := t.home - {d})
    case Forget(d) => Text(t.consts - {d}, t.narrow - {d}, t.home - {d}, t.part - {d})
    case FoldImm(_, d, _) => Text(t.consts - {d}, t.narrow - {d}, t.home - {d}, {})
    case _ => t
  }

  // The PC begins as a constant, everything else that has a value in memory.
  function TextOf(block: seq<Op>, pc: Word): Text {
    if block == [] then Text(map[PC_P := pc], {}, Initial() - {PC_P}, {})
    else After(block[|block| - 1], TextOf(block[..|block| - 1], pc))
  }

  // An instruction that leaves something to be added later.
  predicate LeavesOffset(op: Op) { op.AddSubImm? && Offsets(op.w, op.size, op.flags) && op.w != ZERO }

  // The i-th instruction leaves no offset on a register of which some bytes may be invalid.
  predicate Harmless(block: seq<Op>, pc: Word, i: int)
    requires 0 <= i < |block|
  {
    var t := TextOf(block[..i], pc);
    LeavesOffset(Seen(block[i], t.consts)) ==> block[i].d !in t.narrow
  }

  // It leaves one on a register of which some bytes certainly are.
  predicate Harmful(block: seq<Op>, pc: Word, i: int)
    requires 0 <= i < |block|
  {
    var t := TextOf(block[..i], pc);
    LeavesOffset(Seen(block[i], t.consts)) && block[i].d in t.part
  }

  ghost predicate ConstAt(l: BigState, consts: map<int, Word>, v: int)
    requires |l.state| == VREGS && IsVreg(v)
  {
    (l.state[v].status == ISCONST <==> v in consts) && (v in consts ==> Same(v, l.state[v].val, consts[v]))
  }

  ghost predicate AllConst(l: BigState, consts: map<int, Word>)
    requires |l.state| == VREGS
  {
    forall v | IsVreg(v) :: ConstAt(l, consts, v)
  }

  ghost predicate AllWideBut(l: BigState, narrow: set<int>)
    requires |l.state| == VREGS
  {
    forall v | IsVreg(v) && v !in narrow :: Wide(l.state[v])
  }

  ghost predicate AllHome(l: BigState, home: set<int>)
    requires |l.state| == VREGS
  {
    forall v | IsVreg(v) && v in home :: Claims(l, v)
  }

  ghost predicate AllPart(l: BigState, part: set<int>)
    requires |l.state| == VREGS
  {
    forall v | IsVreg(v) && v in part :: !Wide(l.state[v])
  }

  // The text is right about the allocator.
  ghost predicate Tracks(l: BigState, t: Text)
    requires |l.state| == VREGS
  {
    AllConst(l, t.consts) && AllWideBut(l, t.narrow) && AllHome(l, t.home) && AllPart(l, t.part)
  }

  lemma ConstsAfter(l0: BigState, m0: Machine, l1: BigState, m1: Machine, d: int, s: int,
                    c0: map<int, Word>, c1: map<int, Word>)
    requires Shape(l0, m0) && Shape(l1, m1) && Untouched(l0, m0, l1, m1, d, s) && AllConst(l0, c0)
    requires forall v | IsVreg(v) && v != d && v != s :: (v in c1 <==> v in c0) && (v in c0 ==> c1[v] == c0[v])
    requires IsVreg(d) && IsVreg(s) && ConstAt(l1, c1, d) && ConstAt(l1, c1, s)
    ensures AllConst(l1, c1)
  {
    forall v | IsVreg(v) && v != d && v != s
      ensures ConstAt(l1, c1, v)
    {
      assert Kept(l0, m0, l1, m1, v) && ConstAt(l0, c0, v);
    }
  }

  lemma WideAfter(l0: BigState, m0: Machine, l1: BigState, m1: Machine, d: int, narrow: set<int>, after: set<int>)
    requires Shape(l0, m0) && Shape(l1, m1) && Preserves(l0, m0, l1, m1, d) && AllWideBut(l0, narrow)
    requires forall v | IsVreg(v) && v !in after && (v == d || v in narrow) :: Wide(l1.state[v])
    ensures AllWideBut(l1, after)
  {
    forall v | IsVreg(v) && v !in after && v != d && v !in narrow
      ensures Wide(l1.state[v])
    {
      WidePreserved(l0, m0, l1, m1, d, v);
    }
  }

  lemma HomeStays(l0: BigState, m0: Machine, l1: BigState, m1: Machine, d: int, s: int, home: set<int>)
    requires Shape(l0, m0) && Shape(l1, m1) && Untouched(l0, m0, l1, m1, d, s) && AllHome(l0, home)
    ensures AllHome(l1, home - {d, s})
  {
    forall v | IsVreg(v) && v in home - {d, s}
      ensures Claims(l1, v)
    {
      assert Kept(l0, m0, l1, m1, v) && Claims(l0, v);
    }
  }

  lemma PartStays(l0: BigState, l1: BigState, d: int, part: set<int>)
    requires |l0.state| == |l1.state| == VREGS && PartsStay(l0, l1, d) && AllPart(l0, part)
    ensures AllPart(l1, part - {d})
  {
  }

  // ---- compiling it ----

  // The allocator and the machine stand for the interpreter's environment.
  ghost predicate StandsFor(l: BigState, m: Machine, env: seq<Word>, defined: set<int>)
    requires Shape(l, m)
  {
    |env| == VREGS && forall v | IsVreg(v) && v in defined :: Coh(l, m, v) && Same(v, LogVal(l, m, v), env[v])
  }

  // One step that changes no value but d's, to what the interpreter says.
  lemma StepStandsFor(l0: BigState, m0: Machine, l1: BigState, m1: Machine, d: int, w: Word,
                      env: seq<Word>, defined: set<int>, after: set<int>)
    requires Shape(l0, m0) && Shape(l1, m1) && IsVreg(d) && Preserves(l0, m0, l1, m1, d)
    requires StandsFor(l0, m0, env, defined) && after <= defined + {d}
    requires d in after ==> Coh(l1, m1, d) && Same(d, LogVal(l1, m1, d), w)
    ensures StandsFor(l1, m1, env[d := w], after)
  {
    forall v | IsVreg(v) && v in after && v != d
      ensures Coh(l1, m1, v) && Same(v, LogVal(l1, m1, v), env[v])
    {
      ValueKept(l0, m0, l1, m1, d, v);
      AgreeTrans(v, 0, 4, LogVal(l1, m1, v), LogVal(l0, m0, v), env[v]);
    }
  }

  lemma ValueIs(l: BigState, m: Machine, env: seq<Word>, defined: set<int>, v: int)
    requires Shape(l, m) && StandsFor(l, m, env, defined) && IsVreg(v) && v in defined
    ensures Coh(l, m, v) && Same(v, LogVal(l, m, v), env[v]) && (v != FLAGX ==> LogVal(l, m, v) == env[v])
  {
  }

  // An offset that an instruction leaves pending can be.
  predicate Takes(l: BigState, op: Op)
    requires |l.state| == VREGS && IsVreg(op.d) && IsVreg(Source(op))
  {
    match op
    case AddSub(_, d, s, size, flags) => TakesSum(l, d, s, size, flags)
    case AddSubImm(_, d, w, size, flags) => Offsets(w, size, flags) ==> TakesOffset(l, d, w)
    case _ => true
  }

  // One instruction. It is exact unless an offset is put on a partly valid register; then it is right if
  // and only if the invalid bytes happen to be those in memory.
  method Emit(a: Allocator, op: Op, ghost env: seq<Word>, ghost defined: set<int>, ghost t: Text) returns (exact: bool)
    requires a.Valid() && Idle(a.live) && Legal(op) && StandsFor(a.live, a.machine, env, defined) && Tracks(a.live, t)
    modifies a
    ensures a.Valid() && Idle(a.live) && Tracks(a.live, After(op, t))
    ensures Untouched(old(a.live), old(a.machine), a.live, a.machine, op.d, Source(op))
    ensures exact <==> Takes(old(a.live), op)
    ensures exact ==> StandsFor(a.live, a.machine, env[op.d := Result(op, env)], Defined(op, defined))
    ensures !exact && op.d in defined && Source(op) in defined ==>
      && Usable(a.live, a.machine, op.d)
      && (Same(op.d, Effective(a.live, a.machine, op.d), Result(op, env)) <==>
        InvalidAgree(old(a.live), old(a.machine), op.d))
  {
    hide Keeps, KeepsAllBut, Ok, LockedKept, Coh, LogVal, Add, Agree, Preserves, StandsFor, Idle, Local, LocalAt,
         Tracks, TakesOffset, TakesSum, Untouched, Effective, Usable, InvalidAgree, Same, Sum, Merge;
    exact := true;
    EnvSize(a.live, a.machine, env, defined);
    match op
    case Const(d, w) => EmitConst(a, d, w, env, defined, t);
    case Move(d, s) => EmitMove(a, d, s, env, defined, t);
    case MoveLow(d, s, size) => EmitMoveLow(a, d, s, size, env, defined, t);
    case Alu(f, d, s, size) => EmitAlu(a, f, d, s, size, env, defined, t);
    case Fold(f, d, s, flags) => EmitFold(a, f, d, s, flags, env, defined, t);
    case FoldImm(g, d, flags) => EmitFoldImm(a, g, d, flags, env, defined, t);
    case AddSub(minus, d, s, size, flags) => exact := EmitAddSub(a, minus, d, s, size, flags, env, defined, t);
    case AddSubImm(minus, d, w, size, flags) => exact := EmitAddSubImm(a, minus, d, w, size, flags, env, defined, t);
    case Forget(d) => EmitForget(a, d, env, defined, t);
  }

  lemma EnvSize(l: BigState, m: Machine, env: seq<Word>, defined: set<int>)
    requires Shape(l, m) && StandsFor(l, m, env, defined)
    ensures |env| == VREGS
  {
  }

  // Dropping or setting a register leaves the locks of an idle allocator as they were.
  lemma SetIsIdle(l0: BigState, m0: Machine, l1: BigState, m1: Machine, d: int)
    requires Inv(l0, m0) && Inv(l1, m1) && Idle(l0) && IsVreg(d)
    requires SameLocks(l0, l1) && LockedKept(l0, m0, l1, m1, Where(l0, d)) && KeepsAllBut(l0, m0, l1, m1, d)
    ensures Idle(l1) && Preserves(l0, m0, l1, m1, d) && Untouched(l0, m0, l1, m1, d, d)
  {
    hide Keeps, KeepsAllBut, LockedKept, Preserves, Untouched;
    IdleNotLocked(l0, m0, d);
    LockedKeptUnlocked(l0, m0, l1, m1, Where(l0, d), -1);
    IdleAgain(l0, m0, l1, m1);
    PreservesFrom(l0, m0, l1, m1, d, d);
    UntouchedFrom(l0, m0, l1, m1, d, d, d);
  }

  method EmitConst(a: Allocator, d: int, w: Word, ghost env: seq<Word>, ghost defined: set<int>, ghost t: Text)
    requires a.Valid() && Idle(a.live) && IsVreg(d) && StandsFor(a.live, a.machine, env, defined) && Tracks(a.live, t)
    requires |env| == VREGS
    modifies a
    ensures a.Valid() && Idle(a.live) && Tracks(a.live, After(Const(d, w), t))
    ensures Untouched(old(a.live), old(a.machine), a.live, a.machine, d, d)
    ensures StandsFor(a.live, a.machine, env[d := w], defined + {d})
  {
    hide Keeps, KeepsAllBut, Ok, LockedKept, Coh, LogVal, Agree, Preserves, StandsFor, Idle, Untouched, AllWideBut,
         AllHome, AllPart, AllConst, PartsStay;
    ghost var l0, m0 := a.live, a.machine;
    IdleNotLocked(l0, m0, d);
    SetConst(a, d, w);
    SetIsIdle(l0, m0, a.live, a.machine, d);
    SameRefl(d, w);
    StepStandsFor(l0, m0, a.live, a.machine, d, w, env, defined, defined + {d});
    SetTracks(l0, m0, a.live, a.machine, d, t);
    ConstsAfter(l0, m0, a.live, a.machine, d, d, t.consts, t.consts[d := w]);
  }

  // After a step that leaves d in no native register.
  lemma SetTracks(l0: BigState, m0: Machine, l1: BigState, m1: Machine, d: int, t: Text)
    requires Shape(l0, m0) && Shape(l1, m1) && IsVreg(d) && Preserves(l0, m0, l1, m1, d)
    requires Untouched(l0, m0, l1, m1, d, d) && PartsStay(l0, l1, d)
    requires Tracks(l0, t) && !InReg(l1.state[d])
    ensures AllWideBut(l1, t.narrow - {d}) && AllHome(l1, t.home - {d}) && AllPart(l1, t.part - {d})
  {
    hide AllConst;
    HomeStays(l0, m0, l1, m1, d, d, t.home);
    assert t.home - {d, d} == t.home - {d};
    WideAfter(l0, m0, l1, m1, d, t.narrow, t.narrow - {d});
    PartStays(l0, l1, d, t.part);
  }

  method EmitForget(a: Allocator, d: int, ghost env: seq<Word>, ghost defined: set<int>, ghost t: Text)
    requires a.Valid() && Idle(a.live) && IsVreg(d) && StandsFor(a.live, a.machine, env, defined) && Tracks(a.live, t)
    requires |env| == VREGS
    modifies a
    ensures a.Valid() && Idle(a.live) && Tracks(a.live, After(Forget(d), t))
    ensures Untouched(old(a.live), old(a.machine), a.live, a.machine, d, d)
    ensures StandsFor(a.live, a.machine, env[d := env[d]], defined - {d})
  {
    hide Keeps, KeepsAllBut, Ok, LockedKept, Coh, LogVal, Agree, Preserves, StandsFor, Idle, Untouched, AllWideBut,
         AllHome, AllPart, AllConst, PartsStay;
    ghost var l0, m0 := a.live, a.machine;
    IdleNotLocked(l0, m0, d);
    ForgetAbout(a, d);
    SetIsIdle(l0, m0, a.live, a.machine, d);
    StepStandsFor(l0, m0, a.live, a.machine, d, env[d], env, defined, defined - {d});
    SetTracks(l0, m0, a.live, a.machine, d, t);
    ConstsAfter(l0, m0, a.live, a.machine, d, d, t.consts, t.consts - {d});
  }

  method EmitMove(a: Allocator, d: int, s: int, ghost env: seq<Word>, ghost defined: set<int>, ghost t: Text)
    requires a.Valid() && Idle(a.live) && Legal(Move(d, s)) && StandsFor(a.live, a.machine, env, defined)
      && Tracks(a.live, t)
    requires |env| == VREGS
    modifies a
    ensures a.Valid() && Idle(a.live) && Tracks(a.live, After(Move(d, s), t))
    ensures Untouched(old(a.live), old(a.machine), a.live, a.machine, d, s)
    ensures StandsFor(a.live, a.machine, env[d := env[s]], Defined(Move(d, s), defined))
  {
    hide Keeps, KeepsAllBut, Ok, LockedKept, Coh, LogVal, Agree, Preserves, StandsFor, Idle, Same, Untouched,
         AllWideBut, AllHome, PartsStay;
    ghost var l0, m0 := a.live, a.machine;
    MovLRR(a, d, s);
    if s in defined {
      ValueIs(l0, m0, env, defined, s);
      SameWord(s, d, LogVal(a.live, a.machine, d), LogVal(l0, m0, s), env[s]);
    }
    StepStandsFor(l0, m0, a.live, a.machine, d, env[s], env, defined, Defined(Move(d, s), defined));
    UntouchedRefl(l0, m0, d, s);
    if d != s {
      assert ConstAt(l0, t.consts, s);
      if s in t.consts {
        ConstCopied(s, d, a.live.state[d].val, t.consts[s]);
        SetTracks(l0, m0, a.live, a.machine, d, t);
        ConstsAfter(l0, m0, a.live, a.machine, d, d, t.consts, t.consts[d := t.consts[s]]);
      } else {
        HomeStays(l0, m0, a.live, a.machine, d, s, t.home);
        WideAfter(l0, m0, a.live, a.machine, d, t.narrow, t.narrow - {d, s});
        ConstsAfter(l0, m0, a.live, a.machine, d, s, t.consts, t.consts - {d});
      }
    }
  }

  lemma ConstCopied(s: int, d: int, x: Word, y: Word)
    requires Same(s, x, y) && (s == FLAGX ==> d == FLAGX)
    ensures Same(d, x, y)
  {
  }

  lemma SameWord(s: int, d: int, x: Word, y: Word, z: Word)
    requires Same(s, x, y) && Same(s, y, z) && (s == FLAGX ==> d == FLAGX)
    ensures Same(d, x, z)
  {
  }

  method EmitMoveLow(a: Allocator, d: int, s: int, size: int, ghost env: seq<Word>, ghost defined: set<int>,
                     ghost t: Text)
    requires a.Valid() && Idle(a.live) && Legal(MoveLow(d, s, size)) && StandsFor(a.live, a.machine, env, defined)
    requires Tracks(a.live, t) && |env| == VREGS
    modifies a
    ensures a.Valid() && Idle(a.live) && Tracks(a.live, After(MoveLow(d, s, size), t))
    ensures Untouched(old(a.live), old(a.machine), a.live, a.machine, d, s)
    ensures StandsFor(a.live, a.machine, env[d := Merge(env[d], env[s], size)], Defined(MoveLow(d, s, size), defined))
  {
    hide Keeps, KeepsAllBut, Ok, LockedKept, Coh, LogVal, Agree, Preserves, StandsFor, Idle, Same, Untouched,
         AllWideBut, AllHome, Narrowed, Merge, Claims, PartsStay;
    ghost var l0, m0 := a.live, a.machine;
    MovNarrowRR(a, d, s, size);
    if s in defined && d in defined {
      ValueIs(l0, m0, env, defined, s);
      ValueIs(l0, m0, env, defined, d);
      MergeSameLow(d, s, LogVal(a.live, a.machine, d), LogVal(l0, m0, d), LogVal(l0, m0, s), env[d], env[s], size);
    }
    StepStandsFor(l0, m0, a.live, a.machine, d, Merge(env[d], env[s], size), env, defined,
                  Defined(MoveLow(d, s, size), defined));
    if d != s {
      HomeStays(l0, m0, a.live, a.machine, d, s, t.home);
      WideAfter(l0, m0, a.live, a.machine, d, t.narrow, t.narrow + {d});
      if d in t.home { HomeAt(l0, t.home, d); }
      assert ConstAt(l0, t.consts, s);
      ConstsAfter(l0, m0, a.live, a.machine, d, if s in t.consts then d else s, t.consts, t.consts - {d});
    }
  }

  lemma HomeAt(l: BigState, home: set<int>, v: int)
    requires |l.state| == VREGS && AllHome(l, home) && IsVreg(v) && v in home
    ensures Claims(l, v)
  {
  }

  lemma MergeSameLow(d: int, s: int, z: Word, x: Word, y: Word, x': Word, y': Word, size: int)
    requires size == 1 || size == 2
    requires Same(d, x, x') && Same(s, y, y') && Same(d, z, Merge(x, y, size))
    ensures Same(d, z, Merge(x', y', size))
  {
  }

  method EmitAlu(a: Allocator, f: (Word, Word) -> Word, d: int, s: int, size: int,
                 ghost env: seq<Word>, ghost defined: set<int>, ghost t: Text)
    requires a.Valid() && Idle(a.live) && Legal(Alu(f, d, s, size)) && StandsFor(a.live, a.machine, env, defined)
    requires Tracks(a.live, t) && |env| == VREGS
    modifies a
    ensures a.Valid() && Idle(a.live) && Tracks(a.live, After(Alu(f, d, s, size), t))
    ensures Untouched(old(a.live), old(a.machine), a.live, a.machine, d, s)
    ensures StandsFor(a.live, a.machine, env[d := Merge(env[d], f(env[d], env[s]), size)],
                      Defined(Alu(f, d, s, size), defined))
  {
    hide Keeps, KeepsAllBut, Ok, LockedKept, Coh, LogVal, Agree, Preserves, StandsFor, Idle, Same, Local, Untouched,
         AllHome, Merge, AllWideBut, AllConst, Wide;
    ghost var l0, m0 := a.live, a.machine;
    AluRR(a, f, d, s, size);
    if s in defined && d in defined {
      ValueIs(l0, m0, env, defined, s);
      ValueIs(l0, m0, env, defined, d);
      AluSame(f, d, s, LogVal(a.live, a.machine, d), LogVal(l0, m0, d), LogVal(l0, m0, s), env[d], env[s], size);
    }
    StepStandsFor(l0, m0, a.live, a.machine, d, Merge(env[d], f(env[d], env[s]), size), env, defined,
                  Defined(Alu(f, d, s, size), defined));
    AluTracks(l0, m0, a.live, a.machine, d, s, size, t);
  }

  // After a step that reads s and writes d, both in native registers.
  lemma AluTracks(l0: BigState, m0: Machine, l1: BigState, m1: Machine, d: int, s: int, size: int, t: Text)
    requires Shape(l0, m0) && Shape(l1, m1) && IsVreg(d) && IsVreg(s) && Preserves(l0, m0, l1, m1, d)
    requires Untouched(l0, m0, l1, m1, d, s) && Tracks(l0, t)
    requires InReg(l1.state[d]) && l1.state[s].status != ISCONST
    requires (Wide(l0.state[d]) || size == 4 ==> Wide(l1.state[d])) && (size == 4 ==> Wide(l1.state[s]))
    ensures Tracks(l1, Text(t.consts - {d, s}, if size == 4 then t.narrow - {d, s} else t.narrow, t.home - {d, s}, {}))
  {
    hide Untouched, Preserves, AllHome, AllConst;
    HomeStays(l0, m0, l1, m1, d, s, t.home);
    WideAfter(l0, m0, l1, m1, d, t.narrow, if size == 4 then t.narrow - {d, s} else t.narrow);
    ConstsAfter(l0, m0, l1, m1, d, s, t.consts, t.consts - {d, s});
  }

  lemma AluSame(f: (Word, Word) -> Word, d: int, s: int, z: Word, x: Word, y: Word, x': Word, y': Word, size: int)
    requires IsSize(size) && Local(f, size) && (size == 4 ==> d != FLAGX && s != FLAGX)
    requires Same(d, x, x') && Same(s, y, y') && Same(d, z, Merge(x, f(x, y), size))
    ensures Same(d, z, Merge(x', f(x', y'), size))
  {
    assert LowAgree(size, x, x') && LowAgree(size, y, y');
    assert LowAgree(size, f(x, y), f(x', y'));
  }

  method EmitFold(a: Allocator, f: (Word, Word) -> Word, d: int, s: int, flags: bool,
                  ghost env: seq<Word>, ghost defined: set<int>, ghost t: Text)
    requires a.Valid() && Idle(a.live) && Legal(Fold(f, d, s, flags)) && StandsFor(a.live, a.machine, env, defined)
    requires Tracks(a.live, t) && |env| == VREGS
    modifies a
    ensures a.Valid() && Idle(a.live) && Tracks(a.live, After(Fold(f, d, s, flags), t))
    ensures Untouched(old(a.live), old(a.machine), a.live, a.machine, d, s)
    ensures StandsFor(a.live, a.machine, env[d := f(env[d], env[s])], Defined(Fold(f, d, s, flags), defined))
  {
    hide Keeps, KeepsAllBut, Ok, LockedKept, Coh, LogVal, Agree, Preserves, StandsFor, Idle, Same, Local, Untouched,
         AllHome, AllWideBut, AllPart;
    ghost var l0, m0 := a.live, a.machine;
    FoldRR(a, f, d, s, flags);
    if s in defined && d in defined {
      ValueIs(l0, m0, env, defined, s);
      ValueIs(l0, m0, env, defined, d);
    }
    StepStandsFor(l0, m0, a.live, a.machine, d, f(env[d], env[s]), env, defined,
                  Defined(Fold(f, d, s, flags), defined));
    assert ConstAt(l0, t.consts, d) && ConstAt(l0, t.consts, s);
    if d in t.consts && s in t.consts && !flags {
      SameIsEqual(d, l0.state[d].val, t.consts[d]);
      SameIsEqual(s, l0.state[s].val, t.consts[s]);
      FoldTracks(l0, m0, a.live, d, f(t.consts[d], t.consts[s]), t);
    } else {
      AluTracks(l0, m0, a.live, a.machine, d, s, 4, t);
    }
  }

  method EmitFoldImm(a: Allocator, g: Word -> Word, d: int, flags: bool,
                     ghost env: seq<Word>, ghost defined: set<int>, ghost t: Text)
    requires a.Valid() && Idle(a.live) && Legal(FoldImm(g, d, flags)) && StandsFor(a.live, a.machine, env, defined)
    requires Tracks(a.live, t) && |env| == VREGS
    modifies a
    ensures a.Valid() && Idle(a.live) && Tracks(a.live, After(FoldImm(g, d, flags), t))
    ensures Untouched(old(a.live), old(a.machine), a.live, a.machine, d, d)
    ensures StandsFor(a.live, a.machine, env[d := g(env[d])], Defined(FoldImm(g, d, flags), defined))
  {
    hide Keeps, KeepsAllBut, Ok, LockedKept, Coh, LogVal, Agree, Preserves, StandsFor, Idle, Same, LocalAt, Untouched,
         AllHome, AllWideBut, AllPart;
    ghost var l0, m0 := a.live, a.machine;
    FoldRI(a, g, d, flags);
    if d in defined { ValueIs(l0, m0, env, defined, d); }
    StepStandsFor(l0, m0, a.live, a.machine, d, g(env[d]), env, defined, Defined(FoldImm(g, d, flags), defined));
    assert ConstAt(l0, t.consts, d);
    if d in t.consts && !flags {
      SameIsEqual(d, l0.state[d].val, t.consts[d]);
      FoldTracks(l0, m0, a.live, d, g(t.consts[d]), t);
    } else {
      AluTracks(l0, m0, a.live, a.machine, d, d, 4, t);
      SetTwice(t, d);
    }
  }

  lemma SetTwice(t: Text, d: int)
    ensures t.consts - {d, d} == t.consts - {d} && t.narrow - {d, d} == t.narrow - {d}
      && t.home - {d, d} == t.home - {d}
  {
  }

  // After a constant has become another one.
  lemma FoldTracks(l0: BigState, m: Machine, l1: BigState, d: int, w: Word, t: Text)
    requires Shape(l0, m) && Shape(l1, m) && IsVreg(d) && Tracks(l0, t) && l0.state[d].status == ISCONST
    requires l1 == l0.(state := l0.state[d := l0.state[d].(val := w)])
    ensures Tracks(l1, Text(t.consts[d := w], t.narrow - {d}, t.home - {d}, t.part - {d}))
  {
    SameRefl(d, w);
    forall v | IsVreg(v)
      ensures ConstAt(l1, t.consts[d := w], v)
    {
      assert ConstAt(l0, t.consts, v);
    }
  }

  // ---- sums ----

  lemma SumSame(minus: bool, d: int, x: Word, x': Word, w: Word, size: int)
    requires Same(d, x, x') && IsSize(size)
    ensures Same(d, Merge(x, Sum(minus, x, w), size), Merge(x', Sum(minus, x', w), size))
  {
  }

  // After a sum with an immediate.
  lemma SumTracks(l0: BigState, m0: Machine, l1: BigState, m1: Machine, minus: bool, d: int, w: Word, size: int,
                  flags: bool, t: Text)
    requires Shape(l0, m0) && Shape(l1, m1) && IsVreg(d) && Preserves(l0, m0, l1, m1, d)
    requires Untouched(l0, m0, l1, m1, d, d) && Tracks(l0, t)
    requires Offsets(w, size, flags) ==>
      m1 == m0 && l1 == l0.(state := l0.state[d := l0.state[d].(val := Add(l0.state[d].val, Signed(minus, w)))])
    requires !Offsets(w, size, flags) ==>
      InReg(l1.state[d]) && (Wide(l0.state[d]) || size == 4 ==> Wide(l1.state[d]))
    ensures Tracks(l1, After(AddSubImm(minus, d, w, size, flags), t))
  {
    hide Preserves, Untouched, Signed, Add;
    if !Offsets(w, size, flags) {
      AluTracks(l0, m0, l1, m1, d, d, size, t);
      SetTwice(t, d);
    } else {
      SumIsOffset(minus, ZERO, w);
      AddZero(l0.state[d].val);
      OffsetTracks(l0, l1, d, Signed(minus, w), t);
    }
  }

  lemma OffsetTracks(l0: BigState, l1: BigState, d: int, i: Word, t: Text)
    requires |l0.state| == VREGS && IsVreg(d) && Tracks(l0, t)
    requires l1 == l0.(state := l0.state[d := l0.state[d].(val := Add(l0.state[d].val, i))])
    ensures i == ZERO ==> l1 == l0
    ensures Tracks(l1, t.(consts := if d in t.consts then t.consts[d := Add(t.consts[d], i)] else t.consts,
                          home := t.home - {d}))
  {
    hide Add;
    AddZero(l0.state[d].val);
    var consts := if d in t.consts then t.consts[d := Add(t.consts[d], i)] else t.consts;
    forall v | IsVreg(v)
      ensures ConstAt(l1, consts, v)
    {
      assert ConstAt(l0, t.consts, v);
      if v == d && d in t.consts { AddKeepsLowBytes(d, l0.state[d].val, t.consts[d], i); }
    }
    if i == ZERO { assert l0.state[d := l0.state[d].(val := l0.state[d].val)] == l0.state; }
  }

  method EmitAddSubImm(a: Allocator, minus: bool, d: int, w: Word, size: int, flags: bool,
                       ghost env: seq<Word>, ghost defined: set<int>, ghost t: Text) returns (exact: bool)
    requires a.Valid() && Idle(a.live) && Legal(AddSubImm(minus, d, w, size, flags)) && Tracks(a.live, t)
    requires StandsFor(a.live, a.machine, env, defined) && |env| == VREGS
    modifies a
    ensures a.Valid() && Idle(a.live) && Tracks(a.live, After(AddSubImm(minus, d, w, size, flags), t))
    ensures Untouched(old(a.live), old(a.machine), a.live, a.machine, d, d)
    ensures exact <==> Takes(old(a.live), AddSubImm(minus, d, w, size, flags))
    ensures exact ==> StandsFor(a.live, a.machine, env[d := Merge(env[d], Sum(minus, env[d], w), size)],
                                Defined(AddSubImm(minus, d, w, size, flags), defined))
    ensures !exact && d in defined ==>
      && Usable(a.live, a.machine, d)
      && (Same(d, Effective(a.live, a.machine, d), Merge(env[d], Sum(minus, env[d], w), size))
          <==> InvalidAgree(old(a.live), old(a.machine), d))
  {
    hide Keeps, KeepsAllBut, LockedKept, Coh, LogVal, Agree, Preserves, StandsFor, Idle, Same, Untouched, Effective,
      InvalidAgree, Tracks, Sum, Merge, Add, Signed;
    ghost var l0, m0 := a.live, a.machine;
    exact := Offsets(w, size, flags) ==> TakesOffset(a.live, d, w);
    SumRI(a, minus, d, w, size, flags);
    SumTracks(l0, m0, a.live, a.machine, minus, d, w, size, flags, t);
    if d in defined {
      ValueIs(l0, m0, env, defined, d);
      SumSame(minus, d, LogVal(l0, m0, d), env[d], w, size);
      if size == 4 {
        MergeAll(env[d], Sum(minus, env[d], w));
        MergeAll(LogVal(l0, m0, d), Sum(minus, LogVal(l0, m0, d), w));
      }
      var x, y := Merge(LogVal(l0, m0, d), Sum(minus, LogVal(l0, m0, d), w), size),
        Merge(env[d], Sum(minus, env[d], w), size);
      SameThen(d, LogVal(a.live, a.machine, d), x, y);
      SameThen(d, Effective(a.live, a.machine, d), x, y);
    }
    if exact {
      StepStandsFor(l0, m0, a.live, a.machine, d, Merge(env[d], Sum(minus, env[d], w), size), env, defined,
                    Defined(AddSubImm(minus, d, w, size, flags), defined));
    } else if d in defined {
      IsUsable(a.live, a.machine, d);
    }
  }

  lemma IsUsable(l: BigState, m: Machine, d: int)
    requires Inv(l, m) && IsVreg(d) && (Coh(l, m, d) || Bent(l.state[d]))
    ensures Usable(l, m, d)
  {
    OkAt(l, m, d);
  }

  lemma SameThen(d: int, z: Word, x: Word, y: Word)
    requires Same(d, x, y)
    ensures Same(d, z, x) <==> Same(d, z, y)
  {
  }

  method EmitAddSub(a: Allocator, minus: bool, d: int, s: int, size: int, flags: bool,
                    ghost env: seq<Word>, ghost defined: set<int>, ghost t: Text) returns (exact: bool)
    requires a.Valid() && Idle(a.live) && Legal(AddSub(minus, d, s, size, flags)) && Tracks(a.live, t)
    requires StandsFor(a.live, a.machine, env, defined) && |env| == VREGS
    modifies a
    ensures a.Valid() && Idle(a.live) && Tracks(a.live, After(AddSub(minus, d, s, size, flags), t))
    ensures Untouched(old(a.live), old(a.machine), a.live, a.machine, d, s)
    ensures exact <==> TakesSum(old(a.live), d, s, size, flags)
    ensures exact ==> StandsFor(a.live, a.machine, env[d := Merge(env[d], Sum(minus, env[d], env[s]), size)],
                                Defined(AddSub(minus, d, s, size, flags), defined))
    ensures !exact && d in defined && s in defined ==>
      && Usable(a.live, a.machine, d)
      && (Same(d, Effective(a.live, a.machine, d), Merge(env[d], Sum(minus, env[d], env[s]), size))
          <==> InvalidAgree(old(a.live), old(a.machine), d))
  {
    hide Keeps, KeepsAllBut, LockedKept, Coh, LogVal, Agree, Preserves, StandsFor, Idle, Same, Untouched, Effective,
      InvalidAgree, Tracks, ConstAt, Sum, Merge, Add, Signed, Usable, Bent, NativeWord, SumValue,
      TakesSum, Offsets, Immediate, Wide, InReg, After, Defined;
    ghost var l0, m0 := a.live, a.machine;
    exact := TakesSum(a.live, d, s, size, flags);
    SumRR(a, minus, d, s, size, flags);
    TracksConst(l0, t, s, size);
    AfterAddSub(minus, d, s, size, flags, t);
    if s in t.consts {
      SumTracks(l0, m0, a.live, a.machine, minus, d, Merge(ZERO, t.consts[s], size), size, flags, t);
    } else {
      AluTracks(l0, m0, a.live, a.machine, d, s, size, t);
    }
    if d in defined && s in defined {
      ValueIs(l0, m0, env, defined, d);
      ValueIs(l0, m0, env, defined, s);
      SumInEnv(l0, m0, a.live, a.machine, minus, d, s, size, flags, env[d], env[s]);
    }
    if exact {
      StepStandsFor(l0, m0, a.live, a.machine, d, Merge(env[d], Sum(minus, env[d], env[s]), size), env, defined,
                    Defined(AddSub(minus, d, s, size, flags), defined));
    }
  }

  lemma AfterAddSub(minus: bool, d: int, s: int, size: int, flags: bool, t: Text)
    ensures After(AddSub(minus, d, s, size, flags), t)
      == if s in t.consts then After(AddSubImm(minus, d, Merge(ZERO, t.consts[s], size), size, flags), t)
         else Text(t.consts - {d, s}, if size == 4 then t.narrow - {d, s} else t.narrow, t.home - {d, s}, {})
    ensures forall defined ::
      Defined(AddSub(minus, d, s, size, flags), defined)
        == (if s in defined && d in defined then defined else defined - {d})
  {
  }

  // The sum as the interpreter sees it.
  lemma SumInEnv(l0: BigState, m0: Machine, l1: BigState, m1: Machine, minus: bool, d: int, s: int, size: int,
                 flags: bool, x: Word, y: Word)
    requires Shape(l0, m0) && Inv(l1, m1) && IsVreg(d) && IsVreg(s) && IsSize(size)
    requires size == 4 ==> d != FLAGX && s != FLAGX
    requires SumValue(l0, m0, l1, m1, minus, d, s, size, flags)
    requires Same(d, LogVal(l0, m0, d), x) && Same(s, LogVal(l0, m0, s), y)
    ensures TakesSum(l0, d, s, size, flags) ==>
      Coh(l1, m1, d) && Same(d, LogVal(l1, m1, d), Merge(x, Sum(minus, x, y), size))
    ensures !TakesSum(l0, d, s, size, flags) ==>
      && Usable(l1, m1, d)
      && (Same(d, Effective(l1, m1, d), Merge(x, Sum(minus, x, y), size)) <==> InvalidAgree(l0, m0, d))
  {
    hide Coh, LogVal, Same, Effective, InvalidAgree, Sum, Merge, TakesSum, Usable, Bent;
    var d0, s0 := LogVal(l0, m0, d), LogVal(l0, m0, s);
    SumsSame(minus, d, s, d0, x, s0, y, size);
    SameThen(d, LogVal(l1, m1, d), Merge(d0, Sum(minus, d0, s0), size), Merge(x, Sum(minus, x, y), size));
    SameThen(d, Effective(l1, m1, d), Merge(d0, Sum(minus, d0, s0), size), Merge(x, Sum(minus, x, y), size));
    if !TakesSum(l0, d, s, size, flags) { IsUsable(l1, m1, d); }
  }

  lemma TracksConst(l: BigState, t: Text, s: int, size: int)
    requires |l.state| == VREGS && IsVreg(s) && Tracks(l, t) && IsSize(size) && (size == 4 ==> s != FLAGX)
    ensures l.state[s].status == ISCONST <==> s in t.consts
    ensures s in t.consts ==> Immediate(l, s, size) == Merge(ZERO, t.consts[s], size)
  {
    assert ConstAt(l, t.consts, s);
    if s in t.consts { SameImmediate(s, l.state[s].val, t.consts[s], size); }
  }

  lemma SameImmediate(s: int, x: Word, y: Word, size: int)
    requires Same(s, x, y) && IsSize(size) && (size == 4 ==> s != FLAGX)
    ensures Merge(ZERO, x, size) == Merge(ZERO, y, size)
  {
  }

  lemma SumsSame(minus: bool, d: int, s: int, x: Word, x': Word, y: Word, y': Word, size: int)
    requires Same(d, x, x') && Same(s, y, y') && IsSize(size) && (size == 4 ==> d != FLAGX && s != FLAGX)
    ensures Same(d, Merge(x, Sum(minus, x, y), size), Merge(x', Sum(minus, x', y'), size))
  {
  }

  lemma SameIsEqual(v: int, x: Word, y: Word)
    requires Same(v, x, y) && v != FLAGX
    ensures x == y
  {
  }

  lemma StartStandsFor(a: Allocator, home: seq<Word>, pc: Word)
    requires a.Valid() && |home| == VREGS
    requires forall n | 0 <= n < N_REGS ::
        a.live.native[n].holds == [] && a.live.native[n].locked == (if n == 4 then 1 else 0)
    requires forall v | 0 <= v < VREGS ::
        if v < 16 || v == FLAGX || v == FLAGTMP then
          Coh(a.live, a.machine, v) && LogVal(a.live, a.machine, v) == home[v]
        else if v == PC_P then Coh(a.live, a.machine, v) && LogVal(a.live, a.machine, v) == pc
        else a.live.state[v].status == UNDEF
    ensures Idle(a.live) && StandsFor(a.live, a.machine, home[PC_P := pc], Initial())
  {
    hide Coh, LogVal;
  }

  lemma NoneStandsFor(l: BigState, m: Machine, env: seq<Word>)
    requires Shape(l, m) && |env| == VREGS
    ensures StandsFor(l, m, env, {})
  {
  }

  lemma FlushStandsFor(l0: BigState, m0: Machine, l1: BigState, m1: Machine, env: seq<Word>, defined: set<int>)
    requires Shape(l0, m0) && Shape(l1, m1) && StandsFor(l0, m0, env, defined)
    requires forall v | (0 <= v <= 15 || v == FLAGX || v == FLAGTMP) && Coh(l0, m0, v) ::
      Same(v, m1.home[v], LogVal(l0, m0, v))
    ensures forall v | (0 <= v <= 15 || v == FLAGX || v == FLAGTMP) && v in defined :: Same(v, m1.home[v], env[v])
  {
    forall v | (0 <= v <= 15 || v == FLAGX || v == FLAGTMP) && v in defined
      ensures Same(v, m1.home[v], env[v])
    {
      assert IsVreg(v);
      AgreeTrans(v, 0, 4, m1.home[v], LogVal(l0, m0, v), env[v]);
    }
  }

  lemma StartTracks(a: Allocator, pc: Word)
    requires a.Valid()
    requires forall v | 0 <= v < VREGS ::
      if v < 16 || v == FLAGX || v == FLAGTMP then Claims(a.live, v) else !InReg(a.live.state[v])
    requires forall v | 0 <= v < VREGS :: a.live.state[v].status == ISCONST <==> v == PC_P
    requires a.live.state[PC_P].val == pc
    ensures Tracks(a.live, TextOf([], pc))
  {
  }

  // ---- a whole block ----

  // The i-th instruction leaves an offset on its register d that is certainly valid in part, everything
  // before it was harmless, and nothing after it has to do with d.
  predicate LastOffset(block: seq<Op>, pc: Word, i: int) {
    && 0 <= i < |block| && Harmful(block, pc, i) && (forall j | 0 <= j < i :: Harmless(block, pc, j))
    && (0 <= block[i].d <= 15 || block[i].d == FLAGX || block[i].d == FLAGTMP)
    && block[i].d in DefinedAfter(block[..i], Initial()) && Source(block[i]) in DefinedAfter(block[..i], Initial())
    && forall j | i < j < |block| :: block[j].d != block[i].d && Source(block[j]) != block[i].d
  }

  // What the allocator takes for the value of d is right if and only if the bytes that were not valid in
  // an earlier state agreed with memory.
  ghost predicate Pending(l: BigState, m: Machine, l0: BigState, m0: Machine, d: int, x: Word)
    requires Shape(l, m) && Shape(l0, m0) && IsVreg(d)
  {
    Usable(l, m, d) && (Same(d, Effective(l, m, d), x) <==> InvalidAgree(l0, m0, d))
  }

  lemma PendingStays(l0: BigState, m0: Machine, l1: BigState, m1: Machine, l2: BigState, m2: Machine,
                     d: int, s: int, v: int, x: Word)
    requires Shape(l0, m0) && Shape(l1, m1) && Inv(l2, m2) && IsVreg(v) && v != d && v != s
    requires Pending(l1, m1, l0, m0, v, x) && Untouched(l1, m1, l2, m2, d, s)
    ensures Pending(l2, m2, l0, m0, v, x)
  {
    hide Links, Add;
    assert Kept(l1, m1, l2, m2, v);
    if Coh(l1, m1, v) {
      CohUsable(l1, m1, v);
      CohUsable(l2, m2, v);
    }
    OkAt(l2, m2, v);
  }

  // The states before each instruction and after the last: as long as nothing harmful has happened they
  // stand for what the interpreter has.
  ghost predicate Passed(block: seq<Op>, pc: Word, env: seq<Word>, ls: seq<BigState>, ms: seq<Machine>, n: nat)
    requires |env| == VREGS && n <= |block| && forall op | op in block :: Legal(op)
  {
    && |ls| == |ms| == n + 1
    && (forall k | 0 <= k <= n :: Inv(ls[k], ms[k]) && Tracks(ls[k], TextOf(block[..k], pc)))
    && (forall k | 0 <= k <= n && (forall j | 0 <= j < k :: Harmless(block, pc, j)) ::
          StandsFor(ls[k], ms[k], Interpreted(block[..k], env), DefinedAfter(block[..k], Initial())))
    && (forall k | 0 <= k < n && LastOffset(block, pc, k) ::
          Pending(ls[n], ms[n], ls[k], ms[k], block[k].d, Interpreted(block[..n], env)[block[k].d]))
  }

  lemma Extended(block: seq<Op>, pc: Word, i: int)
    requires 0 <= i < |block|
    ensures block[..i + 1][..i] == block[..i] && block[..i + 1][i] == block[i] && block[i] in block
    ensures TextOf(block[..i + 1], pc) == After(block[i], TextOf(block[..i], pc))
  {
    assert block[..i + 1][..i] == block[..i];
  }

  lemma ExtendedResult(block: seq<Op>, env: seq<Word>, i: int)
    requires 0 <= i < |block| && |env| == VREGS && forall op | op in block :: Legal(op)
    ensures block[i] in block && IsVreg(block[i].d) && IsVreg(Source(block[i]))
    ensures Interpreted(block[..i + 1], env)
      == Interpreted(block[..i], env)[block[i].d := Result(block[i], Interpreted(block[..i], env))]
    ensures DefinedAfter(block[..i + 1], Initial()) == Defined(block[i], DefinedAfter(block[..i], Initial()))
  {
    assert block[..i + 1][..i] == block[..i];
    hide Result, Defined;
  }

  // What the text says about the i-th instruction.
  lemma OffsetTaken(block: seq<Op>, pc: Word, i: int, l: BigState)
    requires 0 <= i < |block| && Legal(block[i]) && |l.state| == VREGS && Tracks(l, TextOf(block[..i], pc))
    ensures Harmless(block, pc, i) ==> Takes(l, block[i])
    ensures Harmful(block, pc, i) ==> !Takes(l, block[i])
  {
    hide TextOf;
    var op, t := block[i], TextOf(block[..i], pc);
    if op.AddSub? { TracksConst(l, t, op.s, op.size); }
  }

  // One more instruction.
  lemma PassedMore(block: seq<Op>, pc: Word, env: seq<Word>, ls: seq<BigState>, ms: seq<Machine>, n: nat,
                   l: BigState, m: Machine)
    requires |env| == VREGS && n < |block| && (forall op | op in block :: Legal(op))
      && Passed(block, pc, env, ls, ms, n)
    requires Inv(l, m) && Tracks(l, TextOf(block[..n + 1], pc)) && block[n] in block
    requires Untouched(ls[n], ms[n], l, m, block[n].d, Source(block[n]))
    requires (forall j | 0 <= j < n + 1 :: Harmless(block, pc, j)) ==>
      StandsFor(l, m, Interpreted(block[..n + 1], env), DefinedAfter(block[..n + 1], Initial()))
    requires LastOffset(block, pc, n) ==>
      Pending(l, m, ls[n], ms[n], block[n].d, Interpreted(block[..n + 1], env)[block[n].d])
    ensures Passed(block, pc, env, ls + [l], ms + [m], n + 1)
  {
    hide Tracks, TextOf, Harmless, StandsFor, Interpreted, DefinedAfter, Pending, Untouched, Legal, Links;
    forall k | 0 <= k < n + 1 && LastOffset(block, pc, k)
      ensures Pending(l, m, (ls + [l])[k], (ms + [m])[k], block[k].d, Interpreted(block[..n + 1], env)[block[k].d])
    {
      if k < n {
        ExtendedResult(block, env, n);
        LegalIs(block[k]);
        PendingStays(ls[k], ms[k], ls[n], ms[n], l, m, block[n].d, Source(block[n]), block[k].d,
                     Interpreted(block[..n], env)[block[k].d]);
      }
    }
  }

  lemma LegalIs(op: Op)
    requires Legal(op)
    ensures IsVreg(op.d) && IsVreg(Source(op))
  {
  }

  lemma NonePassed(block: seq<Op>, pc: Word, env: seq<Word>, l: BigState, m: Machine)
    requires |env| == VREGS && (forall op | op in block :: Legal(op)) && Inv(l, m) && Tracks(l, TextOf([], pc))
    requires StandsFor(l, m, env, Initial())
    ensures Passed(block, pc, env, [l], [m], 0)
    ensures Interpreted(block[..0], env) == env && DefinedAfter(block[..0], Initial()) == Initial()
  {
    hide Tracks, Links, StandsFor, LastOffset;
    assert block[..0] == [];
  }

  lemma PassedTracks(block: seq<Op>, pc: Word, env: seq<Word>, ls: seq<BigState>, ms: seq<Machine>, n: nat)
    requires |env| == VREGS && n <= |block| && (forall op | op in block :: Legal(op))
      && Passed(block, pc, env, ls, ms, n)
    ensures |ls| == |ms| == n + 1 && Shape(ls[n], ms[n]) && Tracks(ls[n], TextOf(block[..n], pc))
  {
    hide Tracks, TextOf;
  }

  lemma PassedPending(block: seq<Op>, pc: Word, env: seq<Word>, ls: seq<BigState>, ms: seq<Machine>, n: nat, k: nat)
    requires |env| == VREGS && n <= |block| && (forall op | op in block :: Legal(op))
      && Passed(block, pc, env, ls, ms, n)
    requires k < n && LastOffset(block, pc, k)
    ensures |ls| == |ms| == n + 1 && Shape(ls[n], ms[n]) && Shape(ls[k], ms[k])
    ensures IsVreg(block[k].d)
    ensures Pending(ls[n], ms[n], ls[k], ms[k], block[k].d, Interpreted(block[..n], env)[block[k].d])
  {
    hide Tracks, TextOf, Pending;
    assert block[k] in block;
  }

  lemma LastIs(block: seq<Op>, pc: Word, i: int)
    requires LastOffset(block, pc, i)
    ensures 0 <= i < |block| && Harmful(block, pc, i) && forall j | 0 <= j < i :: Harmless(block, pc, j)
    ensures 0 <= block[i].d <= 15 || block[i].d == FLAGX || block[i].d == FLAGTMP
    ensures block[i].d in DefinedAfter(block[..i], Initial()) && Source(block[i]) in DefinedAfter(block[..i], Initial())
  {
  }

  lemma NowPending(l: BigState, m: Machine, l0: BigState, m0: Machine, d: int, x: Word)
    requires Shape(l, m) && Shape(l0, m0) && IsVreg(d) && Usable(l, m, d)
    requires Same(d, Effective(l, m, d), x) <==> InvalidAgree(l0, m0, d)
    ensures Pending(l, m, l0, m0, d, x)
  {
  }

  lemma FlushedPending(l: BigState, m: Machine, l0: BigState, m0: Machine, d: int, x: Word, w: Word)
    requires Shape(l, m) && Shape(l0, m0) && IsVreg(d) && Pending(l, m, l0, m0, d, x)
    requires Usable(l, m, d) ==> Same(d, w, Effective(l, m, d))
    ensures Same(d, w, x) <==> InvalidAgree(l0, m0, d)
  {
    hide Effective, Usable, InvalidAgree;
  }

  lemma AllFlushed(block: seq<Op>, pc: Word, env: seq<Word>, ls: seq<BigState>, ms: seq<Machine>, after: seq<Word>)
    requires |env| == |after| == VREGS && (forall op | op in block :: Legal(op))
      && Passed(block, pc, env, ls, ms, |block|)
    requires forall v | (0 <= v <= 15 || v == FLAGX || v == FLAGTMP) && Usable(ls[|block|], ms[|block|], v) ::
      Same(v, after[v], Effective(ls[|block|], ms[|block|], v))
    ensures forall k | LastOffset(block, pc, k) :: var d := block[k].d;
      Same(d, after[d], Interpreted(block, env)[d]) <==> InvalidAgree(ls[k], ms[k], d)
  {
    hide Harmful, Harmless, Effective, Usable, Same, InvalidAgree, Pending, Interpreted, Legal, Tracks, StandsFor,
         TextOf, Links;
    forall k | LastOffset(block, pc, k)
      ensures var d := block[k].d; Same(d, after[d], Interpreted(block, env)[d]) <==> InvalidAgree(ls[k], ms[k], d)
    {
      var d, n := block[k].d, |block|;
      PassedPending(block, pc, env, ls, ms, n, k);
      assert block[..n] == block;
      FlushedPending(ls[n], ms[n], ls[k], ms[k], d, Interpreted(block, env)[d], after[d]);
    }
  }

  // Running the emitted code of a block, starting from init_comp and ending with flush(1): the homes
  // of the 68k registers and the flags hold what the interpreter computes from what they held before.
  // That is so if no offset is left on a register of which some bytes may be invalid; if one is left on a
  // register of which some bytes certainly are, the block is not exact, and what that register ends up with
  // is right if and only if those bytes agreed with memory.
  method Translate(regs: seq<Word>, home: seq<Word>, pc: Word, block: seq<Op>)
    returns (exact: bool, after: seq<Word>, ghost ls: seq<BigState>, ghost ms: seq<Machine>)
    requires |regs| == N_REGS && |home| == VREGS && forall op | op in block :: Legal(op)
    ensures |after| == VREGS
    ensures exact ==>
      forall v | (0 <= v <= 15 || v == FLAGX || v == FLAGTMP) && v in DefinedAfter(block, Initial()) ::
        Same(v, after[v], Interpreted(block, home[PC_P := pc])[v])
    ensures (forall i | 0 <= i < |block| :: Harmless(block, pc, i)) ==> exact
    ensures (exists i | 0 <= i < |block| :: Harmful(block, pc, i)) ==> !exact
    ensures Passed(block, pc, home[PC_P := pc], ls, ms, |block|) && ms[0] == Machine(regs, home)
    ensures forall i | LastOffset(block, pc, i) :: var d := block[i].d;
      Same(d, after[d], Interpreted(block, home[PC_P := pc])[d]) <==> InvalidAgree(ls[i], ms[i], d)
  {
    hide Keeps, KeepsAllBut, Ok, LockedKept, Coh, LogVal, Agree, Preserves, StandsFor, Same, Add, Local, Legal, Links,
         Idle, Effective, Usable, Tracks, Harmless, Harmful, Untouched, Takes, Pending, InvalidAgree, Passed,
         LastOffset, Result, Defined, After;
    var a := new Allocator.InitComp(regs, home, pc);
    ghost var env := home[PC_P := pc];
    StartStandsFor(a, home, pc);
    StartTracks(a, pc);
    exact := true;
    ls, ms := [a.live], [a.machine];
    NonePassed(block, pc, env, a.live, a.machine);
    var i := 0;
    while i < |block|
      invariant 0 <= i <= |block| && a.Valid() && fresh(a) && Idle(a.live)
      invariant exact ==> StandsFor(a.live, a.machine, Interpreted(block[..i], env),
                                    DefinedAfter(block[..i], Initial()))
      invariant |ls| == |ms| == i + 1 && ls[i] == a.live && ms[i] == a.machine && ms[0] == Machine(regs, home)
      invariant Passed(block, pc, env, ls, ms, i)
      invariant (forall j | 0 <= j < i :: Harmless(block, pc, j)) ==> exact
      invariant (exists j | 0 <= j < i :: Harmful(block, pc, j)) ==> !exact
    {
      PassedTracks(block, pc, env, ls, ms, i);
      ghost var env', defined := Interpreted(block[..i], env), DefinedAfter(block[..i], Initial());
      if !exact {
        NoneStandsFor(a.live, a.machine, env);
        env', defined := env, {};
      }
      Extended(block, pc, i);
      ExtendedResult(block, env, i);
      OffsetTaken(block, pc, i, a.live);
      ghost var before := exact;
      var e := Emit(a, block[i], env', defined, TextOf(block[..i], pc));
      exact := exact && e;
      if LastOffset(block, pc, i) {
        LastIs(block, pc, i);
        LegalIs(block[i]);
        NowPending(a.live, a.machine, ls[i], ms[i], block[i].d, Result(block[i], env'));
      }
      PassedMore(block, pc, env, ls, ms, i, a.live, a.machine);
      ls, ms := ls + [a.live], ms + [a.machine];
      i := i + 1;
    }
    assert block[..i] == block;
    ghost var l1, m1 := a.live, a.machine;
    FlushRegisters(a);
    after := a.machine.home;
    if exact { FlushStandsFor(l1, m1, a.live, a.machine, Interpreted(block, env), DefinedAfter(block, Initial())); }
    AllFlushed(block, pc, env, ls, ms, after);
  }

  // ---- a block that is not exact ----

  // A word moved into a register and a constant added to it or taken from it, right after init_comp, as
  // MOVE.W #w,D0 and ADDI.L #c,D0 are compiled where the flags are not needed. The upper half of the result
  // comes from whatever was in the native register chosen for it, and not from memory.
  function WordThenLong(minus: bool, w: Word, c: Word): seq<Op> {
    [Const(19, w), MoveLow(0, 19, 2), Const(20, c), AddSub(minus, 0, 20, 4, false)]
  }

  method MoveWordAddLong(regs: seq<Word>, home: seq<Word>, pc: Word, minus: bool, w: Word, c: Word)
    returns (after: seq<Word>)
    requires |regs| == N_REGS && |home| == VREGS && c != ZERO
    ensures |after| == VREGS
    ensures exists n :: IsNreg(n) && after[0] == Sum(minus, Word(w.b0, w.b1, regs[n].hi), c)
    ensures (forall n | IsNreg(n) :: regs[n].hi != home[0].hi) ==> after[0] != Wanted(home, minus, w, c)
    ensures (forall n | IsNreg(n) :: regs[n].hi == home[0].hi) ==> after[0] == Wanted(home, minus, w, c)
  {
    hide Keeps, KeepsAllBut, Ok, LockedKept, LogVal, Agree, Preserves, Same, Add, Links, Idle, Usable, Untouched, Sum,
         Signed, SumValue;
    var a := new Allocator.InitComp(regs, home, pc);
    StartStandsFor(a, home, pc);
    ghost var l0, m0 := a.live, a.machine;
    IdleNotLocked(l0, m0, 19);
    SetConst(a, 19, w);
    SetIsIdle(l0, m0, a.live, a.machine, 19);
    MovNarrowRR(a, 0, 19, 2);
    ghost var l2, m2, n := a.live, a.machine, Where(a.live, 0);
    IdleNotLocked(l2, m2, 20);
    SetConst(a, 20, c);
    SetIsIdle(l2, m2, a.live, a.machine, 20);
    ghost var l3 := a.live;
    SumRR(a, minus, 0, 20, 4, false);
    MergeAll(ZERO, c);
    SumIsOffset(minus, m2.regs[n], c);
    NarrowOffset(l3, m2, a.live, 0, n, Signed(minus, c));
    FlushRegisters(a);
    after := a.machine.home;
    assert after[0] == Sum(minus, m2.regs[n], c) by { SameIsEqual(0, after[0], Sum(minus, m2.regs[n], c)); }
    HalvesDiffer(m2.regs[n], Merge(home[0], w, 2), minus, c);
  }

  // What the interpreter makes of it.
  function Wanted(home: seq<Word>, minus: bool, w: Word, c: Word): Word
    requires |home| == VREGS
  {
    Sum(minus, Word(w.b0, w.b1, home[0].hi), c)
  }

  lemma WantedIs(home: seq<Word>, pc: Word, minus: bool, w: Word, c: Word)
    requires |home| == VREGS && c != ZERO
    ensures var block := WordThenLong(minus, w, c);
      && (forall op | op in block :: Legal(op))
      && Interpreted(block, home[PC_P := pc])[0] == Wanted(home, minus, w, c)
      && Harmful(block, pc, 3) && LastOffset(block, pc, 3)
  {
    hide Sum, Add;
    var block, env := WordThenLong(minus, w, c), home[PC_P := pc];
    assert block[..0] == [] && block[..4] == block;
    ExtendedResult(block, env, 0);
    ExtendedResult(block, env, 1);
    ExtendedResult(block, env, 2);
    ExtendedResult(block, env, 3);
    Extended(block, pc, 0);
    Extended(block, pc, 1);
    Extended(block, pc, 2);
    Extended(block, pc, 3);
    MergeAll(env[0], Wanted(home, minus, w, c));
    MergeAll(ZERO, c);
  }

  lemma NarrowOffset(l0: BigState, m: Machine, l1: BigState, d: int, n: int, c: Word)
    requires Shape(l0, m) && Inv(l1, m) && IsVreg(d) && IsNreg(n) && c != ZERO
    requires InReg(l0.state[d]) && l0.state[d].realreg == n && l0.state[d].validsize == 2 && l0.state[d].val == ZERO
    requires l1.state[d] == l0.state[d].(val := Add(ZERO, c))
    ensures Usable(l1, m, d) && Effective(l1, m, d) == Add(m.regs[n], c)
  {
    AddZero(c);
    assert Ok(l1, d);
  }

  lemma HalvesDiffer(x: Word, y: Word, minus: bool, c: Word)
    requires x.b0 == y.b0 && x.b1 == y.b1
    ensures Sum(minus, x, c) == Sum(minus, y, c) <==> x.hi == y.hi
  {
    hide Sum;
    SumIsOffset(minus, x, c);
    SumIsOffset(minus, y, c);
    if Sum(minus, x, c) == Sum(minus, y, c) { AddCancels(x, y, Signed(minus, c)); }
  }

  lemma FiveAbove(h: Half)
    ensures Add(Word(1, 0, h), Word(4, 0, 0)) == Word(5, 0, h)
  {
  }

  // With these registers and memory D0 ends up as 0x10005, where it should be 5.
  method UpperHalfLost() returns (after: seq<Word>)
    ensures |after| == VREGS && after[0] == Word(5, 0, 1)
    ensures var block := WordThenLong(false, Word(1, 0, 0), Word(4, 0, 0));
      (forall op | op in block :: Legal(op)) && Interpreted(block, seq(VREGS, v => ZERO))[0] == Word(5, 0, 0)
  {
    hide Add, Legal, Interpreted, Harmful, LastOffset;
    var regs, home := seq(N_REGS, n => Word(0, 0, 1)), seq(VREGS, v => ZERO);
    after := MoveWordAddLong(regs, home, ZERO, false, Word(1, 0, 0), Word(4, 0, 0));
    WantedIs(home, ZERO, false, Word(1, 0, 0), Word(4, 0, 0));
    assert home[PC_P := ZERO] == home;
    FiveAbove(0);
    FiveAbove(1);
  }
}
