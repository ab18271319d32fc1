// Blocks run one after the other. Between them nothing but the homes of the 68k registers and of the
// flags is kept, and what the native registers hold when a block begins is anything at all.

module JitRuns {
  import opened Word32
  import opened JitState
  import opened JitOps
  import opened JitFlush
  import opened JitRun

  function Flat(blocks: seq<seq<Op>>): seq<Op> {
    if blocks == [] then [] else Flat(blocks[..|blocks| - 1]) + blocks[|blocks| - 1]
  }

  ghost predicate AllLegal(blocks: seq<seq<Op>>) {
    forall k | 0 <= k < |blocks| :: forall op | op in blocks[k] :: Legal(op)
  }

  // ---- what is defined, over several blocks ----

  // What has a value after these blocks; what is not in memory is lost between two of them.
  function DefinedRun(blocks: seq<seq<Op>>): set<int> {
    if blocks == [] then Initial()
    else DefinedAfter(blocks[|blocks| - 1], DefinedRun(blocks[..|blocks| - 1]) * Initial())
  }

  predicate Reads(op: Op, r: int) {
    !op.Const? && !op.Forget? && (r == Source(op) || (!op.Move? && r == op.d))
  }

  predicate Forgets(op: Op, r: int) { op.Forget? && op.d == r }

  // No register of the 68k is forgotten, and every scratch register is written before it is read.
  ghost predicate Plain(block: seq<Op>) {
    && (forall i | 0 <= i < |block| && block[i].Forget? ::
          !(0 <= block[i].d <= 15 || block[i].d == PC_P || block[i].d == FLAGX || block[i].d == FLAGTMP))
    && (forall i, r | 0 <= i < |block| && Reads(block[i], r) ::
          0 <= r <= 15 || r == PC_P || r == FLAGX || r == FLAGTMP || Written(block[..i], r))
  }

  predicate Written(block: seq<Op>, r: int) {
    (exists j :: 0 <= j < |block| && block[j].d == r) && forall j | 0 <= j < |block| :: !Forgets(block[j], r)
  }

  lemma PlainPart(block: seq<Op>, n: nat)
    requires Plain(block) && n <= |block|
    ensures Plain(block[..n])
  {
    var part := block[..n];
    forall i, r | 0 <= i < |part| && Reads(part[i], r)
      ensures 0 <= r <= 15 || r == PC_P || r == FLAGX || r == FLAGTMP || Written(part[..i], r)
    {
      assert part[i] == block[i] && part[..i] == block[..i];
    }
  }

  // In such a block everything that is read has a value, and nothing that has one loses it.
  lemma {:induction false} PlainDefined(block: seq<Op>, start: set<int>, r: int)
    requires Plain(block) && Initial() <= start
    ensures Initial() <= DefinedAfter(block, start)
    ensures Written(block, r) ==> r in DefinedAfter(block, start)
  {
    InitialIs();
    if block == [] { return; }
    var n := |block| - 1;
    var rest, op := block[..n], block[n];
    PlainPart(block, n);
    PlainDefined(rest, start, r);
    PlainDefined(rest, start, op.d);
    PlainDefined(rest, start, Source(op));
    assert Reads(op, Source(op)) ==> Source(op) in DefinedAfter(rest, start);
    assert Reads(op, op.d) ==> op.d in DefinedAfter(rest, start);
    if Written(block, r) && op.d != r {
      assert forall j | 0 <= j < n :: rest[j] == block[j];
      assert Written(rest, r);
    }
    if Written(block, r) { assert !Forgets(block[n], r); }
  }

  lemma {:induction false} PlainRun(blocks: seq<seq<Op>>)
    requires forall k | 0 <= k < |blocks| :: Plain(blocks[k])
    ensures Initial() <= DefinedRun(blocks)
  {
    if blocks != [] {
      var n := |blocks| - 1;
      PlainRun(blocks[..n]);
      assert DefinedRun(blocks[..n]) * Initial() == Initial();
      PlainDefined(blocks[n], Initial(), 0);
    }
  }

  lemma {:induction false} DefinedMore(block: seq<Op>, c: set<int>, d: set<int>)
    requires c <= d
    ensures DefinedAfter(block, c) <= DefinedAfter(block, d)
  {
    if block != [] { DefinedMore(block[..|block| - 1], c, d); }
  }

  // ---- the interpreter ----

  lemma {:induction false} InterpretedThen(a: seq<Op>, b: seq<Op>, env: seq<Word>)
    requires |env| == VREGS && (forall op | op in a :: Legal(op)) && (forall op | op in b :: Legal(op))
    ensures forall op | op in a + b :: Legal(op)
    ensures Interpreted(a + b, env) == Interpreted(b, Interpreted(a, env))
  {
    hide Legal;
    if b == [] {
      assert a + b == a;
    } else {
      var n := |b| - 1;
      InterpretedThen(a, b[..n], env);
      assert (a + b)[..|a + b| - 1] == a + b[..n] && (a + b)[|a + b| - 1] == b[n];
    }
  }

  // One instruction on operands that agree.
  lemma ResultAgrees(op: Op, x: seq<Word>, y: seq<Word>)
    requires |x| == |y| == VREGS && Legal(op)
    requires forall r | Reads(op, r) && IsVreg(r) :: Same(r, x[r], y[r])
    requires !op.Forget?
    ensures Same(op.d, Result(op, x), Result(op, y))
  {
    match op
    case Const(_, _) =>
    case Move(d, s) =>
      assert Reads(op, s);
      ConstCopied(s, d, x[s], y[s]);
    case MoveLow(d, s, size) =>
      assert Reads(op, s) && Reads(op, d);
      SameItself(d, Result(op, x));
      MergeSameLow(d, s, Result(op, x), x[d], x[s], y[d], y[s], size);
    case Alu(f, d, s, size) =>
      assert Reads(op, s) && Reads(op, d);
      SameItself(d, Result(op, x));
      AluSame(f, d, s, Result(op, x), x[d], x[s], y[d], y[s], size);
    case Fold(f, d, s, _) =>
      assert Reads(op, s) && Reads(op, d);
      SameIsEqual(d, x[d], y[d]);
      SameIsEqual(s, x[s], y[s]);
      SameItself(d, Result(op, x));
    case FoldImm(g, d, _) =>
      assert Reads(op, d);
      SameIsEqual(d, x[d], y[d]);
      SameItself(d, Result(op, x));
    case AddSub(minus, d, s, size, _) =>
      assert Reads(op, s) && Reads(op, d);
      SumsSame(minus, d, s, x[d], y[d], x[s], y[s], size);
    case AddSubImm(minus, d, w, size, _) =>
      assert Reads(op, d);
      SumSame(minus, d, x[d], y[d], w, size);
  }

  lemma SameItself(v: int, x: Word)
    ensures Same(v, x, x)
  {
  }

  // What is defined depends on nothing else.
  lemma {:induction false} InterpretedAgrees(block: seq<Op>, x: seq<Word>, y: seq<Word>, start: set<int>)
    requires |x| == |y| == VREGS && forall op | op in block :: Legal(op)
    requires forall v | IsVreg(v) && v in start :: Same(v, x[v], y[v])
    ensures forall v | IsVreg(v) && v in DefinedAfter(block, start) ::
      Same(v, Interpreted(block, x)[v], Interpreted(block, y)[v])
  {
    hide Legal, Same, Result;
    if block != [] {
      var n := |block| - 1;
      var op := block[n];
      InterpretedAgrees(block[..n], x, y, start);
      assert op in block && Legal(op);
      LegalIs(op);
      var x1, y1, d := Interpreted(block[..n], x), Interpreted(block[..n], y), DefinedAfter(block[..n], start);
      if op.d in Defined(op, d) && !op.Forget? { ResultAgrees(op, x1, y1); }
    }
  }

  // ---- any number of blocks ----

  // What the interpreter has after the first k blocks.
  ghost function RunTo(blocks: seq<seq<Op>>, k: nat, env: seq<Word>): (r: seq<Word>)
    requires |env| == VREGS && AllLegal(blocks) && k <= |blocks|
    ensures |r| == VREGS
  {
    FlatLegal(blocks, k);
    Interpreted(Flat(blocks[..k]), env)
  }

  // Each block is compiled for the address at which the one before it ends.
  ghost predicate Follow(blocks: seq<seq<Op>>, pcs: seq<Word>, env: seq<Word>)
    requires |env| == VREGS && AllLegal(blocks)
  {
    |pcs| == |blocks| && forall k | 0 <= k < |blocks| :: pcs[k] == RunTo(blocks, k, env)[PC_P]
  }

  lemma {:induction false} FlatLegal(blocks: seq<seq<Op>>, k: nat)
    requires AllLegal(blocks) && k <= |blocks|
    ensures AllLegal(blocks[..k]) && forall op | op in Flat(blocks[..k]) :: Legal(op)
  {
    hide Legal;
    if k > 0 {
      FlatLegal(blocks, k - 1);
      assert blocks[..k][..k - 1] == blocks[..k - 1] && blocks[..k][k - 1] == blocks[k - 1];
    }
  }

  // What memory has to hold after the first k blocks.
  ghost predicate Homes(mem: seq<Word>, blocks: seq<seq<Op>>, k: nat, env: seq<Word>)
    requires |mem| == |env| == VREGS && AllLegal(blocks) && k <= |blocks|
  {
    forall v | (0 <= v <= 15 || v == FLAGX || v == FLAGTMP) && v in DefinedRun(blocks[..k]) ::
      Same(v, mem[v], RunTo(blocks, k, env)[v])
  }

  // One more block.
  lemma HomesThen(mem: seq<Word>, after: seq<Word>, blocks: seq<seq<Op>>, k: nat, env: seq<Word>, pc: Word)
    requires |mem| == |after| == |env| == VREGS && AllLegal(blocks) && k < |blocks| && Homes(mem, blocks, k, env)
    requires pc == RunTo(blocks, k, env)[PC_P]
    requires forall v | (0 <= v <= 15 || v == FLAGX || v == FLAGTMP) && v in DefinedAfter(blocks[k], Initial()) ::
      Same(v, after[v], Interpreted(blocks[k], mem[PC_P := pc])[v])
    ensures Homes(after, blocks, k + 1, env)
  {
    hide Legal, Same, Interpreted, DefinedAfter;
    FlatLegal(blocks, k);
    FlatLegal(blocks, k + 1);
    var flat, block := Flat(blocks[..k]), blocks[k];
    var env1, mem1, d := Interpreted(flat, env), mem[PC_P := pc], DefinedRun(blocks[..k]) * Initial();
    assert blocks[..k + 1][..k] == blocks[..k] && blocks[..k + 1][k] == block;
    InitialIs();
    SameItself(PC_P, pc);
    InterpretedAgrees(block, mem1, env1, d);
    DefinedMore(block, d, Initial());
    InterpretedThen(flat, block, env);
    forall v | (0 <= v <= 15 || v == FLAGX || v == FLAGTMP) && v in DefinedAfter(block, d)
      ensures Same(v, after[v], Interpreted(block, env1)[v])
    {
      assert IsVreg(v);
      SameThen(v, after[v], Interpreted(block, mem1)[v], Interpreted(block, env1)[v]);
    }
  }

  // Translating and running one block after the other, each from the homes that the one before it left and
  // with anything in the native registers, leaves what interpreting them all in one go would have left.
  method TranslateAll(regs: seq<seq<Word>>, home: seq<Word>, pc: Word, pcs: seq<Word>, blocks: seq<seq<Op>>)
    returns (exact: bool, after: seq<Word>)
    requires |home| == VREGS && AllLegal(blocks) && Follow(blocks, pcs, home[PC_P := pc])
    requires |regs| == |blocks| && forall k | 0 <= k < |regs| :: |regs[k]| == N_REGS
    ensures |after| == VREGS && AllLegal(blocks[..|blocks|]) && forall op | op in Flat(blocks) :: Legal(op)
    ensures (forall k, i | 0 <= k < |blocks| && 0 <= i < |blocks[k]| :: Harmless(blocks[k], pcs[k], i)) ==> exact
    ensures exact ==>
      forall v | (0 <= v <= 15 || v == FLAGX || v == FLAGTMP) && v in DefinedRun(blocks) ::
        Same(v, after[v], Interpreted(Flat(blocks), home[PC_P := pc])[v])
    // Where nothing is read that has no value, nothing more need be said: of FLAGX 16 bits count.
    ensures exact && (forall k | 0 <= k < |blocks| :: Plain(blocks[k])) ==>
      var all := Interpreted(Flat(blocks), home[PC_P := pc]);
      && (forall v | 0 <= v <= 15 || v == FLAGTMP :: after[v] == all[v])
      && after[FLAGX].b0 == all[FLAGX].b0 && after[FLAGX].b1 == all[FLAGX].b1
  {
    hide Legal, Interpreted, DefinedAfter, Harmless, Passed, Plain, LastOffset, InvalidAgree;
    ghost var env := home[PC_P := pc];
    exact, after := true, home;
    FlatLegal(blocks, 0);
    HomesFirst(home, blocks, env, pc);
    var k := 0;
    while k < |blocks|
      invariant 0 <= k <= |blocks| && |after| == VREGS && (exact ==> Homes(after, blocks, k, env))
      invariant (forall j, i | 0 <= j < k && 0 <= i < |blocks[j]| :: Harmless(blocks[j], pcs[j], i)) ==> exact
    {
      ghost var mem := after;
      FlatLegal(blocks, k);
      var e, next, ls, ms := Translate(regs[k], after, pcs[k], blocks[k]);
      if exact && e { HomesThen(mem, next, blocks, k, env, pcs[k]); }
      exact, after := exact && e, next;
      k := k + 1;
    }
    FlatLegal(blocks, |blocks|);
    assert blocks[..|blocks|] == blocks;
    if exact && forall k | 0 <= k < |blocks| :: Plain(blocks[k]) {
      PlainRun(blocks);
      InitialIs();
      AllHomes(after, blocks, env);
    }
  }

  lemma HomesFirst(home: seq<Word>, blocks: seq<seq<Op>>, env: seq<Word>, pc: Word)
    requires |home| == VREGS && AllLegal(blocks) && env == home[PC_P := pc]
    ensures Homes(home, blocks, 0, env)
  {
    hide Legal;
    FlatLegal(blocks, 0);
    forall v | 0 <= v <= 15 || v == FLAGX || v == FLAGTMP
      ensures Same(v, home[v], env[v])
    {
    }
  }

  lemma AllHomes(mem: seq<Word>, blocks: seq<seq<Op>>, env: seq<Word>)
    requires |mem| == |env| == VREGS && AllLegal(blocks) && Homes(mem, blocks, |blocks|, env)
    requires forall v | 0 <= v <= 15 || v == FLAGX || v == FLAGTMP :: v in DefinedRun(blocks)
    ensures forall op | op in Flat(blocks) :: Legal(op)
    ensures var all := Interpreted(Flat(blocks), env);
      && (forall v | 0 <= v <= 15 || v == FLAGTMP :: mem[v] == all[v])
      && mem[FLAGX].b0 == all[FLAGX].b0 && mem[FLAGX].b1 == all[FLAGX].b1
  {
    hide Legal, Interpreted;
    FlatLegal(blocks, |blocks|);
    assert blocks[..|blocks|] == blocks;
    forall v | 0 <= v <= 15 || v == FLAGTMP
      ensures mem[v] == Interpreted(Flat(blocks), env)[v]
    {
      SameIsEqual(v, mem[v], Interpreted(Flat(blocks), env)[v]);
    }
  }
}
