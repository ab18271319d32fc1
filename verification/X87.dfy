// The mapping of FP registers onto the x87 stack, and the emitters built on it.
// Every emitted instruction is an immediate step of an x87 stack machine; the
// arithmetic itself is a parameter.

module X87 {

  const N_FREGS := 6
  const X87_DEPTH := 8

  datatype UnOp = FSQRT | FABS | FRNDINT | FSIN | FCOS | FCHS | F2XM1
  datatype BinOp = FADD | FSUB | FMUL | FDIV | FPREM | FPREM1 | FSCALE | FYL2X
  datatype Constant = LD1 | LDZ | LDPI | LDLG2 | LDL2E | LDLN2

  // The formats of memory operands. Registers are extended, so only an extended store is exact.
  datatype Width = INTEGER | SINGLE | DOUBLE | EXTENDED

  // fit is what a store in a narrower format makes of a value.
  datatype Arith<!F> = Arith(un: (UnOp, F) -> F, bin: (BinOp, F, F) -> F, constant: Constant -> F, fit: (Width, F) -> F)

  datatype Cell<F> = Cell(width: Width, value: F)

  function Stored<F>(ar: Arith<F>, w: Width, x: F): Cell<F> { Cell(w, if w.EXTENDED? then x else ar.fit(w, x)) }

  datatype Instr =
    | FldC(c: Constant)          // push a constant
    | FldSt(i: nat)              // push a copy of st(i)
    | FldM(w: Width, m: int)     // push from memory
    | Fxch(i: nat)               // swap st(0) and st(i)
    | FstM(w: Width, m: int)     // store st(0), not in extended format
    | FstpM(w: Width, m: int)    // store st(0) and pop it
    | FstSt(i: nat)              // st(i) := st(0)
    | FstpSt(i: nat)             // st(i) := st(0), then pop
    | Fcompp                     // pop two
    | Unary(u: UnOp)             // st(0) := u(st(0))
    | OpSt0(b: BinOp, i: nat)    // st(0) := b(st(0), st(i))
    | OpSti(b: BinOp, i: nat)    // st(i) := b(st(i), st(0))
    | OpPop(b: BinOp)            // st(1) := b(st(1), st(0)), then pop
    | AddOne                     // st(0) := st(0) + 1, from memory
    | Compare(i: nat)            // st(0) against st(i), flags only
    | Test                       // st(0) against 0, flags only

  // The stack grows to the right: st(i) is the i-th element from the end.
  datatype Fpu<F> = Fpu(stack: seq<F>, mem: map<int, Cell<F>>)

  function At(i: nat, depth: nat): int { depth - 1 - i }

  function Growth(ins: Instr): int {
    match ins
    case FldC(_) => 1
    case FldSt(_) => 1
    case FldM(_, _) => 1
    case FstpM(_, _) => -1
    case FstpSt(_) => -1
    case OpPop(_) => -1
    case Fcompp => -2
    case _ => 0
  }

  // Operands are on the stack or in memory in the right format, and a push does not overflow the stack.
  predicate Legal<F>(ins: Instr, s: Fpu<F>) {
    && |s.stack| + Growth(ins) <= X87_DEPTH
    && (match ins
        case FldC(_) => true
        case FldSt(i) => i < |s.stack|
        case FldM(w, m) => m in s.mem && s.mem[m].width == w
        case FstM(w, _) => !w.EXTENDED? && 1 <= |s.stack|
        case Fxch(i) => i < |s.stack|
        case FstSt(i) => i < |s.stack|
        case FstpSt(i) => i < |s.stack|
        case Fcompp => 2 <= |s.stack|
        case OpSt0(_, i) => i < |s.stack|
        case OpSti(_, i) => i < |s.stack|
        case OpPop(_) => 2 <= |s.stack|
        case Compare(i) => i < |s.stack|
        case _ => 1 <= |s.stack|)
  }

  function Exec<F>(ar: Arith<F>, ins: Instr, s: Fpu<F>): Fpu<F>
    requires Legal(ins, s)
  {
    var st := s.stack;
    var n := |st|;
    match ins
    case FldC(c) => s.(stack := st + [ar.constant(c)])
    case FldSt(i) => s.(stack := st + [st[At(i, n)]])
    case FldM(_, m) => s.(stack := st + [s.mem[m].value])
    case Fxch(i) => s.(stack := st[n - 1 := st[At(i, n)]][At(i, n) := st[n - 1]])
    case FstM(w, m) => s.(mem := s.mem[m := Stored(ar, w, st[n - 1])])
    case FstpM(w, m) => Fpu(st[..n - 1], s.mem[m := Stored(ar, w, st[n - 1])])
    case FstSt(i) => s.(stack := st[At(i, n) := st[n - 1]])
    case FstpSt(i) => s.(stack := st[At(i, n) := st[n - 1]][..n - 1])
    case Fcompp => s.(stack := st[..n - 2])
    case Unary(u) => s.(stack := st[n - 1 := ar.un(u, st[n - 1])])
    case OpSt0(b, i) => s.(stack := st[n - 1 := ar.bin(b, st[n - 1], st[At(i, n)])])
    case OpSti(b, i) => s.(stack := st[At(i, n) := ar.bin(b, st[At(i, n)], st[n - 1])])
    case OpPop(b) => s.(stack := st[n - 2 := ar.bin(b, st[n - 2], st[n - 1])][..n - 1])
    case AddOne => s.(stack := st[n - 1 := ar.bin(FADD, st[n - 1], ar.constant(LD1))])
    case Compare(_) => s
    case Test => s
  }

  // spos and onstack[..tos+1] are inverse to each other.
  predicate Mapped(tos: int, spos: seq<int>, onstack: seq<int>) {
    && |spos| == N_FREGS && |onstack| == N_FREGS
    && -1 <= tos < N_FREGS
    && (forall r | 0 <= r < N_FREGS && spos[r] >= 0 :: spos[r] <= tos && onstack[spos[r]] == r)
    && (forall p | 0 <= p <= tos :: 0 <= onstack[p] < N_FREGS && spos[onstack[p]] == p)
  }

  // The flat register file that the stack stands for.
  function File<F>(spos: seq<int>, stack: seq<F>): map<int, F>
    requires forall r | 0 <= r < |spos| :: spos[r] < |stack|
  {
    map r | 0 <= r < |spos| && spos[r] >= 0 :: stack[spos[r]]
  }

  lemma {:induction false} Pigeonhole(s: seq<int>, n: nat, slots: set<int>)
    requires n <= |s| && forall i | 0 <= i < n :: s[i] in slots
    requires forall i, j | 0 <= i < j < n :: s[i] != s[j]
    ensures n <= |slots|
  {
    if n > 0 {
      Pigeonhole(s, n - 1, slots - {s[n - 1]});
    }
  }

  // If r is not on the stack there is room for it.
  lemma RoomFor(tos: int, spos: seq<int>, onstack: seq<int>, r: int)
    requires Mapped(tos, spos, onstack) && 0 <= r < N_FREGS && spos[r] < 0
    ensures tos < N_FREGS - 1
  {
    var others := {0, 1, 2, 3, 4, 5} - {r};
    forall p | 0 <= p <= tos
      ensures onstack[p] in others
    {
      assert spos[onstack[p]] == p;
    }
    assert forall i, j | 0 <= i < j < tos + 1 :: spos[onstack[i]] == i && spos[onstack[j]] == j;
    Pigeonhole(onstack, tos + 1, others);
  }

  // Moving r to the top by an exchange.
  lemma Exchanged<F>(tos: int, spos: seq<int>, onstack: seq<int>, stack: seq<F>, r: int)
    requires Mapped(tos, spos, onstack) && |stack| == tos + 1
    requires 0 <= r < N_FREGS && 0 <= spos[r] < tos
    ensures var p, q := spos[r], onstack[tos];
      var spos' := spos[r := tos][q := p];
      && Mapped(tos, spos', onstack[tos := r][p := q])
      && File(spos', stack[tos := stack[p]][p := stack[tos]]) == File(spos, stack)
  {
    var p, q := spos[r], onstack[tos];
    var spos' := spos[r := tos][q := p];
    var stack' := stack[tos := stack[p]][p := stack[tos]];
    assert q != r && spos[q] == tos;
    forall k | 0 <= k < N_FREGS && k != r && k != q && spos[k] >= 0
      ensures spos[k] != p && spos[k] != tos
    {
      assert onstack[spos[k]] == k;
    }
    assert File(spos', stack').Keys == File(spos, stack).Keys;
  }

  // Growing the stack by r.
  lemma Grown<F>(tos: int, spos: seq<int>, onstack: seq<int>, stack: seq<F>, r: int)
    requires Mapped(tos, spos, onstack) && |stack| == tos + 2
    requires 0 <= r < N_FREGS && spos[r] < 0
    ensures tos < N_FREGS - 1
    ensures Mapped(tos + 1, spos[r := tos + 1], onstack[tos + 1 := r])
    ensures File(spos[r := tos + 1], stack) == File(spos, stack[..tos + 1])[r := stack[tos + 1]]
  {
    RoomFor(tos, spos, onstack, r);
    assert File(spos[r := tos + 1], stack).Keys == File(spos, stack[..tos + 1]).Keys + {r};
  }

  // Storing over the slot of r.
  lemma Overwritten<F>(tos: int, spos: seq<int>, onstack: seq<int>, stack: seq<F>, r: int, x: F)
    requires Mapped(tos, spos, onstack) && |stack| == tos + 1
    requires 0 <= r < N_FREGS && spos[r] >= 0
    ensures File(spos, stack[spos[r] := x]) == File(spos, stack)[r := x]
  {
    forall k | 0 <= k < N_FREGS && k != r && spos[k] >= 0
      ensures spos[k] != spos[r]
    {
      assert onstack[spos[k]] == k && onstack[spos[r]] == r;
    }
    assert File(spos, stack[spos[r] := x]).Keys == File(spos, stack).Keys + {r};
  }

  // Popping the top, which is r.
  lemma Dropped<F>(tos: int, spos: seq<int>, onstack: seq<int>, stack: seq<F>, r: int)
    requires Mapped(tos, spos, onstack) && |stack| == tos + 1
    requires 0 <= r < N_FREGS && 0 <= spos[r] == tos
    ensures Mapped(tos - 1, spos[r := -2], onstack[tos := -1])
    ensures File(spos[r := -2], stack[..tos]) == File(spos, stack) - {r}
  {
    forall k | 0 <= k < N_FREGS && k != r && spos[k] >= 0
      ensures spos[k] < tos
    {
      assert onstack[spos[k]] == k && onstack[tos] == r;
    }
    assert File(spos[r := -2], stack[..tos]).Keys == File(spos, stack).Keys - {r};
  }

  lemma FileAt<F>(tos: int, spos: seq<int>, onstack: seq<int>, stack: seq<F>, r: int)
    requires Mapped(tos, spos, onstack) && |stack| == tos + 1
    requires 0 <= r < N_FREGS && spos[r] >= 0
    ensures r in File(spos, stack) && File(spos, stack)[r] == stack[spos[r]]
  {
  }

  lemma NotInFile<F>(tos: int, spos: seq<int>, onstack: seq<int>, stack: seq<F>, r: int)
    requires Mapped(tos, spos, onstack) && |stack| == tos + 1
    requires 0 <= r < N_FREGS && spos[r] < 0
    ensures r !in File(spos, stack)
  {
  }

  // What the instructions on the top two entries do, seen from below.
  lemma ExecTopTwo<F>(ar: Arith<F>, ins: Instr, s: Fpu<F>, below: seq<F>, x: F, y: F)
    requires s.stack == below + [x, y] && Legal(ins, s)
    ensures ins.Unary? ==> Exec(ar, ins, s) == Fpu(below + [x, ar.un(ins.u, y)], s.mem)
    ensures ins == Fxch(1) ==> Exec(ar, ins, s) == Fpu(below + [y, x], s.mem)
    ensures ins.OpSt0? && ins.i == 1 ==> Exec(ar, ins, s) == Fpu(below + [x, ar.bin(ins.b, y, x)], s.mem)
    ensures ins.OpPop? ==> Exec(ar, ins, s) == Fpu(below + [ar.bin(ins.b, x, y)], s.mem)
    ensures ins == AddOne ==> Exec(ar, ins, s) == Fpu(below + [x, ar.bin(FADD, y, ar.constant(LD1))], s.mem)
    ensures ins == FstpSt(1) ==> Exec(ar, ins, s) == Fpu(below + [y], s.mem)
  {
  }

  // The top of the stack against a slot p below it.
  lemma ExecDeep<F>(ar: Arith<F>, s: Fpu<F>, st: seq<F>, z: F, p: nat)
    requires s.stack == st + [z] && p < |st| && |st| < X87_DEPTH
    ensures Exec(ar, Fxch(1 + p), s) == Fpu(st[|st| - 1 - p := z] + [st[|st| - 1 - p]], s.mem)
    ensures Exec(ar, FstpSt(1 + p), s) == Fpu(st[|st| - 1 - p := z], s.mem)
  {
  }

  class Emitter<F> {
    const arith: Arith<F>
    var tos: int
    var spos: seq<int>
    var onstack: seq<int>
    var fpu: Fpu<F>

    predicate Valid()
      reads this
    {
      Mapped(tos, spos, onstack) && |fpu.stack| == tos + 1
    }

    predicate OnStack(r: int)
      reads this
      requires |spos| == N_FREGS && 0 <= r < N_FREGS
    {
      spos[r] >= 0
    }

    function Regs(): map<int, F>
      reads this
      requires Valid()
    {
      File(spos, fpu.stack)
    }

    // raw_fp_init
    constructor (arith: Arith<F>, mem: map<int, Cell<F>>)
      ensures Valid() && Regs() == map[] && fpu.mem == mem && this.arith == arith
    {
      this.arith := arith;
      spos := seq(N_FREGS, _ => -2);
      onstack := seq(N_FREGS, _ => -1);
      tos := -1;
      fpu := Fpu([], mem);
    }

    method Emit(ins: Instr)
      requires Legal(ins, fpu)
      modifies this`fpu
      ensures fpu == Exec(arith, ins, old(fpu))
    {
      fpu := Exec(arith, ins, fpu);
    }

    method Place(r: int, p: int)
      requires |spos| == N_FREGS && |onstack| == N_FREGS && 0 <= r < N_FREGS && 0 <= p < N_FREGS
      modifies this`spos, this`onstack
      ensures spos == old(spos)[r := p] && onstack == old(onstack)[p := r]
    {
      spos := spos[r := p];
      onstack := onstack[p := r];
    }

    method MakeTos(r: int)
      requires Valid() && 0 <= r < N_FREGS
      modifies this`tos, this`spos, this`onstack, this`fpu
      ensures Valid() && spos[r] == tos && fpu.mem == old(fpu).mem
      ensures old(OnStack(r)) ==> Regs() == old(Regs()) && tos == old(tos)
      ensures !old(OnStack(r)) ==> Regs() == old(Regs())[r := arith.constant(LD1)] && tos == old(tos) + 1
      ensures forall k | 0 <= k < N_FREGS && k != r && old(spos)[k] != old(tos) :: spos[k] == old(spos)[k]
      ensures !old(OnStack(r)) ==> forall k | 0 <= k < N_FREGS && k != r :: spos[k] == old(spos)[k]
      ensures forall k | 0 <= k < N_FREGS && old(OnStack(k)) :: OnStack(k)
    {
      hide File;
      if spos[r] < 0 {
        Grown(tos, spos, onstack, fpu.stack + [arith.constant(LD1)], r);
        assert (fpu.stack + [arith.constant(LD1)])[..tos + 1] == fpu.stack;
        Emit(FldC(LD1));
        tos := tos + 1;
        Place(r, tos);
        return;
      }
      if tos == spos[r] { return; }
      var p := spos[r];
      var q := onstack[tos];
      Exchanged(tos, spos, onstack, fpu.stack, r);
      Emit(Fxch(tos - spos[r]));
      Place(r, tos);
      Place(q, p);
    }

    // r comes to the top and r2 below it, wherever they were.
    method MakeTos2(r: int, r2: int)
      requires Valid() && 0 <= r < N_FREGS && 0 <= r2 < N_FREGS && r != r2
      modifies this`tos, this`spos, this`onstack, this`fpu
      ensures Valid() && Regs() == old(UsedBoth(r2, r)) && fpu.mem == old(fpu).mem
      ensures spos[r] == tos && spos[r2] == tos - 1
      ensures old(OnStack(r)) && old(OnStack(r2)) ==> tos == old(tos)
    {
      hide File;
      MakeTos(r2);
      FileAt(tos, spos, onstack, fpu.stack, r2);
      if spos[r] < 0 {
        NotInFile(tos, spos, onstack, fpu.stack, r);
        MakeTos(r);
        return;
      }
      FileAt(tos, spos, onstack, fpu.stack, r);
      Swap2(r, r2);
      MakeTos(r);
    }

    // r2 on top changes places with what is below it.
    method Swap2(r: int, r2: int)
      requires Valid() && 0 <= r < N_FREGS && 0 <= r2 < N_FREGS && r != r2 && OnStack(r) && OnStack(r2)
        && spos[r2] == tos
      modifies this`tos, this`spos, this`onstack, this`fpu
      ensures Valid() && Regs() == old(Regs()) && tos == old(tos) && fpu.mem == old(fpu).mem
      ensures OnStack(r) && spos[r2] == tos - 1
    {
      hide File;
      assert onstack[spos[r]] == r;
      Exchanged(tos, spos, onstack, fpu.stack, onstack[tos - 1]);
      Emit(Fxch(1));
      var q := onstack[tos - 1];
      Place(q, tos);
      Place(r2, tos - 1);
    }

    method StackPos(r: int) returns (i: nat)
      requires Valid() && 0 <= r < N_FREGS && OnStack(r)
      ensures i < |fpu.stack| && spos[r] == At(i, |fpu.stack|)
    {
      i := tos - spos[r];
    }

    method UseReg(r: int)
      requires Valid() && 0 <= r < N_FREGS
      modifies this`tos, this`spos, this`onstack, this`fpu
      ensures Valid() && OnStack(r) && fpu.mem == old(fpu).mem
      ensures old(OnStack(r)) ==> Regs() == old(Regs()) && tos == old(tos) && spos == old(spos)
      ensures !old(OnStack(r)) ==> Regs() == old(Regs())[r := arith.constant(LD1)]
      ensures forall k | 0 <= k < N_FREGS && old(OnStack(k)) :: OnStack(k)
    {
      hide File;
      if spos[r] < 0 {
        MakeTos(r);
      }
    }

    // Called with one value above tos.
    method TosMake(r: int)
      requires Mapped(tos, spos, onstack) && |fpu.stack| == tos + 2 && 0 <= r < N_FREGS
      modifies this`tos, this`spos, this`onstack, this`fpu
      ensures Valid() && fpu.mem == old(fpu).mem
      ensures Regs() == File(old(spos), old(fpu).stack[..old(tos) + 1])[r := old(fpu).stack[old(tos) + 1]]
    {
      hide File;
      if spos[r] < 0 {
        Grown(tos, spos, onstack, fpu.stack, r);
        tos := tos + 1;
        Place(r, tos);
        return;
      }
      ghost var below, x := fpu.stack[..tos + 1], fpu.stack[tos + 1];
      Overwritten(tos, spos, onstack, below, r, x);
      Emit(FstpSt(tos + 1 - spos[r]));
      assert fpu.stack == below[spos[r] := x];
    }

    // ---- moves to and from memory ----

    // The register file once every register in `rs` has a slot.
    function Used(r: int): map<int, F>
      reads this
      requires Valid() && 0 <= r < N_FREGS
    {
      if OnStack(r) then Regs() else Regs()[r := arith.constant(LD1)]
    }

    // raw_fmov_mr, raw_fmovs_mr and raw_fmovi_mr: memory gets the value in the narrower format, the
    // register keeps all of it.
    method FmovMr(w: Width, m: int, r: int)
      requires Valid() && 0 <= r < N_FREGS && !w.EXTENDED?
      modifies this`tos, this`spos, this`onstack, this`fpu
      ensures Valid() && Regs() == old(Used(r)) && r in Regs()
      ensures fpu.mem == old(fpu).mem[m := Cell(w, arith.fit(w, Regs()[r]))]
    {
      hide File;
      MakeTos(r);
      FileAt(tos, spos, onstack, fpu.stack, r);
      Emit(FstM(w, m));
    }

    // raw_fmov_ext_mr: the x87 can store an extended value only by popping it
    method FmovExtMr(m: int, r: int)
      requires Valid() && 0 <= r < N_FREGS
      modifies this`tos, this`spos, this`onstack, this`fpu
      ensures Valid() && Regs() == old(Used(r)) && r in Regs()
      ensures fpu.mem == old(fpu).mem[m := Cell(EXTENDED, Regs()[r])]
    {
      hide File;
      UseReg(r);
      FileAt(tos, spos, onstack, fpu.stack, r);
      var rs := StackPos(r);
      ghost var st := fpu.stack;
      Emit(FldSt(rs));
      Emit(FstpM(EXTENDED, m));
      assert fpu.stack == st;
    }

    // raw_fmov_mr_drop and raw_fmov_ext_mr_drop
    method FmovMrDrop(w: Width, m: int, r: int)
      requires Valid() && 0 <= r < N_FREGS
      modifies this`tos, this`spos, this`onstack, this`fpu
      ensures Valid() && Regs() == old(Used(r)) - {r} && r in old(Used(r))
      ensures fpu.mem == old(fpu).mem[m :=
        Cell(w, if w.EXTENDED? then old(Used(r))[r] else arith.fit(w, old(Used(r))[r]))]
    {
      hide File;
      ghost var before := Used(r);
      MakeTos(r);
      FileAt(tos, spos, onstack, fpu.stack, r);
      ghost var sp, st := spos, fpu.stack;
      assert before == File(sp, st);
      Emit(FstpM(w, m));
      Dropped(tos, spos, onstack, st, r);
      onstack := onstack[tos := -1];
      tos := tos - 1;
      spos := spos[r := -2];
    }

    // raw_fmov_rm and the other loading forms
    method FmovRm(w: Width, r: int, m: int)
      requires Valid() && 0 <= r < N_FREGS && m in fpu.mem && fpu.mem[m].width == w
      modifies this`tos, this`spos, this`onstack, this`fpu
      ensures Valid() && fpu.mem == old(fpu).mem && Regs() == old(Regs())[r := fpu.mem[m].value]
    {
      ghost var st := fpu.stack;
      Emit(FldM(w, m));
      assert fpu.stack[..tos + 1] == st;
      TosMake(r);
    }

    // raw_fmov_pi, raw_fmov_1, raw_fmov_0, ...
    method FmovConst(r: int, c: Constant)
      requires Valid() && 0 <= r < N_FREGS
      modifies this`tos, this`spos, this`onstack, this`fpu
      ensures Valid() && Regs() == old(Regs())[r := arith.constant(c)] && fpu.mem == old(fpu).mem
    {
      ghost var st := fpu.stack;
      Emit(FldC(c));
      assert fpu.stack[..tos + 1] == st;
      TosMake(r);
    }

    method FmovRr(d: int, s: int)
      requires Valid() && 0 <= d < N_FREGS && 0 <= s < N_FREGS
      modifies this`tos, this`spos, this`onstack, this`fpu
      ensures Valid() && fpu.mem == old(fpu).mem
      ensures s in old(Used(s)) && Regs() == old(Used(s))[d := old(Used(s))[s]]
    {
      hide File;
      UseReg(s);
      var ds := StackPos(s);
      FileAt(tos, spos, onstack, fpu.stack, s);
      ghost var st := fpu.stack;
      if ds == 0 && spos[d] >= 0 {
        var dd := StackPos(d);
        Overwritten(tos, spos, onstack, st, d, st[tos]);
        Emit(FstSt(dd));
      } else {
        Emit(FldSt(ds));
        assert fpu.stack[..tos + 1] == st;
        TosMake(d);
      }
    }

    // ---- one operand ----

    // raw_fsqrt_rr, raw_fabs_rr, raw_frndint_rr, raw_fcos_rr, raw_fsin_rr, raw_fneg_rr
    method UnaryRr(u: UnOp, d: int, s: int)
      requires Valid() && 0 <= d < N_FREGS && 0 <= s < N_FREGS
      modifies this`tos, this`spos, this`onstack, this`fpu
      ensures Valid() && fpu.mem == old(fpu).mem
      ensures s in old(Used(s)) && Regs() == old(Used(s))[d := arith.un(u, old(Used(s))[s])]
    {
      hide File;
      if d != s {
        UseReg(s);
        var ds := StackPos(s);
        FileAt(tos, spos, onstack, fpu.stack, s);
        ghost var st := fpu.stack;
        Emit(FldSt(ds));
        Emit(Unary(u));
        assert fpu.stack[..tos + 1] == st;
        TosMake(d);
      } else {
        MakeTos(d);
        FileAt(tos, spos, onstack, fpu.stack, d);
        ghost var st := fpu.stack;
        Overwritten(tos, spos, onstack, st, d, arith.un(u, st[tos]));
        Emit(Unary(u));
      }
    }

    // 2^x as the x87 computes it: the integral part by fscale, the rest by f2xm1.
    function TwoTo(x: F): F
      reads this
    {
      var n := arith.un(FRNDINT, x);
      arith.bin(FSCALE, arith.bin(FADD, arith.un(F2XM1, arith.bin(FSUB, x, n)), arith.constant(LD1)), n)
    }

    // The tail shared by raw_ftwotox_rr and raw_fetox_rr, for the value above tos.
    method RaiseTwo(d: int)
      requires Mapped(tos, spos, onstack) && |fpu.stack| == tos + 2 && 0 <= d < N_FREGS
      modifies this`tos, this`spos, this`onstack, this`fpu
      ensures Valid() && fpu.mem == old(fpu).mem
      ensures Regs() == File(old(spos), old(fpu).stack[..old(tos) + 1])[d := old(TwoTo(fpu.stack[tos + 1]))]
    {
      hide File;
      ghost var below, x := fpu.stack[..tos + 1], fpu.stack[tos + 1];
      ghost var n := arith.un(FRNDINT, x);
      Emit(FldSt(0));
      assert fpu.stack == below + [x, x];
      EmitTop(Unary(FRNDINT), below, x, x);
      EmitTop(Fxch(1), below, x, n);
      EmitTop(OpSt0(FSUB, 1), below, n, x);
      EmitTop(Unary(F2XM1), below, n, arith.bin(FSUB, x, n));
      EmitTop(AddOne, below, n, arith.un(F2XM1, arith.bin(FSUB, x, n)));
      EmitTop(OpSt0(FSCALE, 1), below, n,
              arith.bin(FADD, arith.un(F2XM1, arith.bin(FSUB, x, n)), arith.constant(LD1)));
      EmitTop(FstpSt(1), below, n, TwoTo(x));
      assert fpu.stack[..tos + 1] == below;
      TosMake(d);
    }

    method EmitTop(ins: Instr, ghost below: seq<F>, ghost x: F, ghost y: F)
      requires fpu.stack == below + [x, y] && |below| + 2 <= X87_DEPTH
      requires ins.Unary? || ins == Fxch(1) || (ins.OpSt0? && ins.i == 1) || ins.OpPop?
               || ins == AddOne || ins == FstpSt(1)
      modifies this`fpu
      ensures fpu.mem == old(fpu).mem
      ensures fpu.stack == below + match ins
        case Unary(u) => [x, arith.un(u, y)]
        case Fxch(_) => [y, x]
        case OpSt0(b, _) => [x, arith.bin(b, y, x)]
        case OpPop(b) => [arith.bin(b, x, y)]
        case AddOne => [x, arith.bin(FADD, y, arith.constant(LD1))]
        case _ => [y]
    {
      ExecTopTwo(arith, ins, fpu, below, x, y);
      hide Exec;
      Emit(ins);
    }

    method FtwotoxRr(d: int, s: int)
      requires Valid() && 0 <= d < N_FREGS && 0 <= s < N_FREGS
      modifies this`tos, this`spos, this`onstack, this`fpu
      ensures Valid() && fpu.mem == old(fpu).mem
      ensures s in old(Used(s)) && Regs() == old(Used(s))[d := TwoTo(old(Used(s))[s])]
    {
      hide File;
      UseReg(s);
      var ds := StackPos(s);
      FileAt(tos, spos, onstack, fpu.stack, s);
      ghost var st := fpu.stack;
      Emit(FldSt(ds));
      assert fpu.stack[..tos + 1] == st;
      RaiseTwo(d);
    }

    method FetoxRr(d: int, s: int)
      requires Valid() && 0 <= d < N_FREGS && 0 <= s < N_FREGS
      modifies this`tos, this`spos, this`onstack, this`fpu
      ensures Valid() && fpu.mem == old(fpu).mem
      ensures s in old(Used(s))
      ensures Regs() == old(Used(s))[d := TwoTo(arith.bin(FMUL, old(Used(s))[s], arith.constant(LDL2E)))]
    {
      hide File;
      UseReg(s);
      var ds := StackPos(s);
      FileAt(tos, spos, onstack, fpu.stack, s);
      ghost var st := fpu.stack;
      Emit(FldSt(ds));
      Emit(FldC(LDL2E));
      EmitTop(OpPop(FMUL), st, st[spos[s]], arith.constant(LDL2E));
      assert fpu.stack[..tos + 1] == st;
      RaiseTwo(d);
    }

    method Flog2Rr(d: int, s: int)
      requires Valid() && 0 <= d < N_FREGS && 0 <= s < N_FREGS
      modifies this`tos, this`spos, this`onstack, this`fpu
      ensures Valid() && fpu.mem == old(fpu).mem
      ensures s in old(Used(s))
      ensures Regs() == old(Used(s))[d := arith.bin(FYL2X, arith.constant(LD1), old(Used(s))[s])]
    {
      hide File;
      UseReg(s);
      var ds := StackPos(s);
      FileAt(tos, spos, onstack, fpu.stack, s);
      ghost var st := fpu.stack;
      Emit(FldSt(ds));
      Emit(FldC(LD1));
      EmitTop(Fxch(1), st, st[spos[s]], arith.constant(LD1));
      EmitTop(OpPop(FYL2X), st, arith.constant(LD1), st[spos[s]]);
      assert fpu.stack[..tos + 1] == st;
      TosMake(d);
    }

    // ---- two operands ----

    // The register file once both s and d have a slot.
    function UsedBoth(s: int, d: int): map<int, F>
      reads this
      requires Valid() && 0 <= s < N_FREGS && 0 <= d < N_FREGS
    {
      if d in Used(s) then Used(s) else Used(s)[d := arith.constant(LD1)]
    }

    method UseBoth(s: int, d: int)
      requires Valid() && 0 <= s < N_FREGS && 0 <= d < N_FREGS
      modifies this`tos, this`spos, this`onstack, this`fpu
      ensures Valid() && OnStack(s) && OnStack(d) && fpu.mem == old(fpu).mem
      ensures Regs() == old(UsedBoth(s, d)) && s in Regs() && d in Regs()
    {
      UseReg(s);
      UseReg(d);
    }

    // raw_fadd_rr, raw_fsub_rr, raw_fmul_rr, raw_fdiv_rr
    method BinaryRr(b: BinOp, d: int, s: int)
      requires Valid() && 0 <= d < N_FREGS && 0 <= s < N_FREGS
      modifies this`tos, this`spos, this`onstack, this`fpu
      ensures Valid() && fpu.mem == old(fpu).mem
      ensures var u := old(UsedBoth(s, d));
        s in u && d in u && Regs() == u[d := arith.bin(b, u[d], u[s])]
    {
      hide File;
      UseBoth(s, d);
      FileAt(tos, spos, onstack, fpu.stack, s);
      FileAt(tos, spos, onstack, fpu.stack, d);
      if spos[s] == tos {
        var ds := StackPos(d);
        Overwritten(tos, spos, onstack, fpu.stack, d, arith.bin(b, fpu.stack[spos[d]], fpu.stack[tos]));
        Emit(OpSti(b, ds));
      } else {
        MakeTos(d);
        var ds := StackPos(s);
        FileAt(tos, spos, onstack, fpu.stack, s);
        FileAt(tos, spos, onstack, fpu.stack, d);
        Overwritten(tos, spos, onstack, fpu.stack, d, arith.bin(b, fpu.stack[tos], fpu.stack[spos[s]]));
        Emit(OpSt0(b, ds));
      }
    }

    // raw_frem_rr and raw_frem1_rr; they give up unless the registers differ
    method FremRr(b: BinOp, d: int, s: int)
      requires Valid() && 0 <= d < N_FREGS && 0 <= s < N_FREGS && d != s
      modifies this`tos, this`spos, this`onstack, this`fpu
      ensures Valid() && fpu.mem == old(fpu).mem
      ensures var u := old(UsedBoth(s, d));
        s in u && d in u && Regs() == u[d := arith.bin(b, u[d], u[s])]
    {
      hide File;
      UseBoth(s, d);
      MakeTos2(d, s);
      FileAt(tos, spos, onstack, fpu.stack, s);
      FileAt(tos, spos, onstack, fpu.stack, d);
      var ds := StackPos(s);
      assert ds == 1;
      Overwritten(tos, spos, onstack, fpu.stack, d, arith.bin(b, fpu.stack[tos], fpu.stack[tos - 1]));
      Emit(OpSt0(b, 1));
    }

    // d on top is compared with s.
    method FcmpRr(d: int, s: int) returns (ghost compared: (F, F))
      requires Valid() && 0 <= d < N_FREGS && 0 <= s < N_FREGS
      modifies this`tos, this`spos, this`onstack, this`fpu
      ensures Valid() && fpu.mem == old(fpu).mem && Regs() == old(UsedBoth(s, d))
      ensures s in Regs() && d in Regs() && compared == (Regs()[d], Regs()[s])
    {
      UseBoth(s, d);
      MakeTos(d);
      FileAt(tos, spos, onstack, fpu.stack, s);
      FileAt(tos, spos, onstack, fpu.stack, d);
      var ds := StackPos(s);
      compared := (fpu.stack[At(0, |fpu.stack|)], fpu.stack[At(ds, |fpu.stack|)]);
      Emit(Compare(ds));
    }

    method FtstR(r: int)
      requires Valid() && 0 <= r < N_FREGS
      modifies this`tos, this`spos, this`onstack, this`fpu
      ensures Valid() && fpu.mem == old(fpu).mem && Regs() == old(Used(r)) && spos[r] == tos
    {
      MakeTos(r);
      Emit(Test);
    }

    method EmitDeep(ins: Instr, p: nat, ghost st: seq<F>, ghost z: F)
      requires fpu.stack == st + [z] && p < |st| < X87_DEPTH
      requires ins == Fxch(1 + p) || ins == FstpSt(1 + p) || ins == Compare(1 + p)
      modifies this`fpu
      ensures fpu.mem == old(fpu).mem
      ensures fpu.stack == match ins
        case Fxch(_) => st[|st| - 1 - p := z] + [st[|st| - 1 - p]]
        case Compare(_) => st + [z]
        case _ => st[|st| - 1 - p := z]
    {
      ExecDeep(arith, fpu, st, z, p);
      Emit(ins);
    }

    // The slot p below the top is compared with 0 while it is on top, and put back where it was.
    method CompareWithZero(p: nat) returns (ghost compared: (F, F))
      requires p < |fpu.stack| < X87_DEPTH
      modifies this`fpu
      ensures fpu == old(fpu)
      ensures compared == (fpu.stack[At(p, |fpu.stack|)], arith.constant(LDZ))
    {
      ghost var st, z := fpu.stack, arith.constant(LDZ);
      ghost var k := |st| - 1 - p;
      Emit(FldC(LDZ));
      hide Exec;
      EmitDeep(Fxch(1 + p), p, st, z);
      compared := (fpu.stack[|st|], fpu.stack[k]);
      EmitDeep(Compare(1 + p), p, st[k := z], st[k]);
      EmitDeep(FstpSt(1 + p), p, st[k := z], st[k]);
      assert fpu.stack == st;
    }

    method FflagsIntoFlags(r: int) returns (ghost compared: (F, F))
      requires Valid() && 0 <= r < N_FREGS
      modifies this`tos, this`spos, this`onstack, this`fpu
      ensures Valid() && fpu.mem == old(fpu).mem && Regs() == old(Used(r))
      ensures r in Regs() && compared == (Regs()[r], arith.constant(LDZ))
    {
      hide File;
      UseReg(r);
      FileAt(tos, spos, onstack, fpu.stack, r);
      var p := StackPos(r);
      compared := CompareWithZero(p);
    }

    method FpCleanupDrop()
      requires Valid()
      modifies this`tos, this`spos, this`onstack, this`fpu
      ensures Valid() && fpu.stack == [] && Regs() == map[] && fpu.mem == old(fpu).mem
    {
      while tos >= 1
        invariant -1 <= tos < N_FREGS && |fpu.stack| == tos + 1 && |onstack| == N_FREGS
        invariant fpu.mem == old(fpu).mem
      {
        Emit(Fcompp);
        tos := tos - 2;
      }
      while tos >= 0
        invariant -1 <= tos <= 0 && |fpu.stack| == tos + 1 && |onstack| == N_FREGS
        invariant fpu.mem == old(fpu).mem
      {
        Emit(FstpSt(0));
        tos := tos - 1;
      }
      spos := seq(N_FREGS, _ => -2);
      tos := -1;
    }
  }

  // ---- what the sequences for powers and logarithms compute ----

  // The laws of exact arithmetic with `pow` for powers of two and `log` for logarithms to base two: frndint goes to an
  // integer less than 1 away, f2xm1 is right from -1 to 1 only, and fscale by whole powers only.
  ghost predicate Lawful(ar: Arith<real>, pow: real -> real, log: real -> real) {
    && (forall x, y :: pow(x + y) == pow(x) * pow(y))
    && (forall x :: pow(x) > 0.0 && log(pow(x)) == x)
    && ar.constant(LD1) == 1.0
    && (forall x, y :: ar.bin(FADD, x, y) == x + y && ar.bin(FSUB, x, y) == x - y)
    && (forall x :: var n := ar.un(FRNDINT, x); n == n.Floor as real && -1.0 < x - n < 1.0)
    && (forall x | -1.0 <= x <= 1.0 :: ar.un(F2XM1, x) == pow(x) - 1.0)
    && (forall x: real, n: real | n == n.Floor as real :: ar.bin(FSCALE, x, n) == x * pow(n))
    && (forall x, y | x > 0.0 :: ar.bin(FYL2X, y, x) == y * log(x))
  }

  // The rest of the argument is one that f2xm1 can take, and the whole is two to the power of it.
  lemma TwoToIsPower(e: Emitter<real>, pow: real -> real, log: real -> real, x: real)
    requires Lawful(e.arith, pow, log)
    ensures e.TwoTo(x) == pow(x)
  {
    var n := e.arith.un(FRNDINT, x);
    var rest := x - n;
    assert pow(rest + n) == pow(rest) * pow(n);
    assert rest + n == x;
    assert e.arith.bin(FSUB, x, n) == rest;
    assert e.arith.un(F2XM1, rest) == pow(rest) - 1.0;
    assert e.arith.bin(FADD, pow(rest) - 1.0, 1.0) == pow(rest);
  }

  // The sequences of raw_ftwotox_rr and raw_flog2_rr undo each other.
  lemma LogOfPower(e: Emitter<real>, pow: real -> real, log: real -> real, x: real)
    requires Lawful(e.arith, pow, log)
    ensures e.arith.bin(FYL2X, e.arith.constant(LD1), e.TwoTo(x)) == x
  {
    TwoToIsPower(e, pow, log, x);
    assert pow(x) > 0.0 && log(pow(x)) == x;
    assert e.arith.bin(FYL2X, 1.0, pow(x)) == 1.0 * log(pow(x));
  }
}
