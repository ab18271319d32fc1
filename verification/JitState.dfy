// The state of the JIT's register allocator (bigstate live) and the abstract
// machine on which every emitted instruction takes effect at once.

module Word32 {
  type Byte = x: int | 0 <= x < 0x100
  type Half = x: int | 0 <= x < 0x1_0000

  // A 32-bit word, split where the 1-, 2- and 4-byte accesses of the JIT split it.
  datatype Word = Word(b0: Byte, b1: Byte, hi: Half)

  const ZERO := Word(0, 0, 0)

  function Value(w: Word): int { w.b0 + 0x100 * w.b1 + 0x1_0000 * w.hi }

  function Carry(sum: int, base: int): int { if sum >= base then 1 else 0 }

  // 32-bit addition that wraps around, carrying from part to part.
  function Add(x: Word, y: Word): Word {
    var lo := x.b0 + y.b0;
    var c0 := Carry(lo, 0x100);
    var mid := x.b1 + y.b1 + c0;
    var c1 := Carry(mid, 0x100);
    var hi := x.hi + y.hi + c1;
    Word(lo - 0x100 * c0, mid - 0x100 * c1, hi - 0x1_0000 * Carry(hi, 0x1_0000))
  }

  function Borrow(difference: int): int { if difference < 0 then 1 else 0 }

  // 32-bit subtraction that wraps around, borrowing from part to part.
  function Sub(x: Word, y: Word): Word {
    var lo := x.b0 - y.b0;
    var mid := x.b1 - y.b1 - Borrow(lo);
    var hi := x.hi - y.hi - Borrow(mid);
    Word(lo + 0x100 * Borrow(lo), mid + 0x100 * Borrow(mid), hi + 0x1_0000 * Borrow(hi))
  }

  function Neg(x: Word): Word { Sub(ZERO, x) }

  // What a 1-, 2- or 4-byte store of `low` leaves in a word that held `prev`.
  function Merge(prev: Word, low: Word, size: int): Word {
    if size == 4 then low
    else if size == 2 then Word(low.b0, low.b1, prev.hi)
    else if size == 1 then Word(low.b0, prev.b1, prev.hi)
    else prev
  }

  lemma ValueInjective(x: Word, y: Word)
    requires Value(x) == Value(y)
    ensures x == y
  {
    var d := (x.b1 - y.b1) + 0x100 * (x.hi - y.hi);
    assert x.b0 - y.b0 == -0x100 * d;
    assert d == 0;
  }

  lemma AddZero(x: Word)
    ensures Add(x, ZERO) == x && Add(ZERO, x) == x
  {
  }

  lemma AddWraps(x: Word, y: Word)
    ensures Value(Add(x, y)) == Value(x) + Value(y) - 0x1_0000_0000 * Carry(Value(x) + Value(y), 0x1_0000_0000)
    ensures 0 <= Value(Add(x, y)) < 0x1_0000_0000
  {
  }

  lemma SubWraps(x: Word, y: Word)
    ensures Value(Sub(x, y)) == Value(x) - Value(y) + 0x1_0000_0000 * Borrow(Value(x) - Value(y))
    ensures 0 <= Value(Sub(x, y)) < 0x1_0000_0000
  {
  }

  lemma ValueRange(x: Word)
    ensures 0 <= Value(x) < 0x1_0000_0000 && Value(ZERO) == 0
  {
  }

  lemma NegWraps(x: Word)
    ensures Value(Neg(x)) == if Value(x) == 0 then 0 else 0x1_0000_0000 - Value(x)
  {
    hide Sub, Value;
    ValueRange(x);
    SubWraps(ZERO, x);
  }

  lemma NegZero(x: Word)
    ensures Neg(x) == ZERO <==> x == ZERO
  {
    hide Neg, Value;
    ValueRange(x);
    NegWraps(x);
    if Value(x) == 0 {
      ValueInjective(x, ZERO);
      ValueInjective(Neg(x), ZERO);
    }
  }

  // Subtracting is adding the negative.
  lemma SubIsAdd(x: Word, y: Word)
    ensures Sub(x, y) == Add(x, Neg(y))
  {
    hide Add, Sub, Neg, Value;
    SubWraps(x, y);
    ValueRange(x);
    ValueRange(y);
    NegWraps(y);
    AddWraps(x, Neg(y));
    ValueInjective(Sub(x, y), Add(x, Neg(y)));
  }

  lemma AddAssociative(x: Word, y: Word, z: Word)
    ensures Add(Add(x, y), z) == Add(x, Add(y, z))
  {
    hide Add;
    AddWraps(x, y);
    AddWraps(Add(x, y), z);
    AddWraps(y, z);
    AddWraps(x, Add(y, z));
    ValueInjective(Add(Add(x, y), z), Add(x, Add(y, z)));
  }
}

module JitState {
  import opened Word32

  const VREGS := 32
  const N_REGS := 8
  const PC_P := 16
  const FLAGX := 17
  const FLAGTMP := 18
  const HINT_BONUS := 200000000

  datatype Status = INMEM | CLEAN | DIRTY | UNDEF | ISCONST

  datatype RegStatus = RegStatus(
    val: Word, status: Status, realreg: int, realind: int, validsize: int, dirtysize: int)

  // holds is the used part holds[..nholds] of the C array.
  datatype NatReg = NatReg(holds: seq<int>, locked: nat, touched: nat)

  datatype BigState = BigState(state: seq<RegStatus>, native: seq<NatReg>)

  // Native register contents, and the home word `mem` points at for each virtual register.
  datatype Machine = Machine(regs: seq<Word>, home: seq<Word>)

  predicate CanByte(n: int) { 0 <= n <= 3 }
  predicate CanWord(n: int) { 0 <= n <= 3 || 5 <= n <= 7 }
  predicate Can(n: int, size: int) {
    (size == 1 && CanByte(n)) || (size == 2 && CanWord(n)) || size == 4
  }

  predicate IsVreg(v: int) { 0 <= v < VREGS }
  predicate IsNreg(n: int) { 0 <= n < N_REGS }
  predicate IsSize(size: int) { size == 1 || size == 2 || size == 4 }

  predicate InReg(s: RegStatus) { s.status == CLEAN || s.status == DIRTY }

  // ---- the bookkeeping invariants ----

  predicate Shape(l: BigState, m: Machine) {
    |l.state| == VREGS && |l.native| == N_REGS && |m.regs| == N_REGS && |m.home| == VREGS
  }

  // realreg/realind and holds/nholds are inverse to each other.
  predicate Links(l: BigState)
    requires |l.state| == VREGS && |l.native| == N_REGS
  {
    && (forall v | 0 <= v < VREGS && InReg(l.state[v]) ::
          0 <= l.state[v].realreg < N_REGS
          && 0 <= l.state[v].realind < |l.native[l.state[v].realreg].holds|
          && l.native[l.state[v].realreg].holds[l.state[v].realind] == v)
    && (forall n, i | 0 <= n < N_REGS && 0 <= i < |l.native[n].holds| ::
          0 <= l.native[n].holds[i] < VREGS
          && InReg(l.state[l.native[n].holds[i]])
          && l.state[l.native[n].holds[i]].realreg == n
          && l.state[l.native[n].holds[i]].realind == i)
  }

  // The sizes recorded for v fit its status and the native register it sits in.
  predicate Ok(l: BigState, v: int)
    requires |l.state| == VREGS && |l.native| == N_REGS && IsVreg(v)
  {
    var s := l.state[v];
    InReg(s) ==>
      && IsNreg(s.realreg)
      && IsSize(s.validsize)
      && (|l.native[s.realreg].holds| > 1 ==> s.validsize == 4)
      && (s.status == DIRTY ==> IsSize(s.dirtysize) && Can(s.realreg, s.dirtysize))
      && (s.dirtysize == 0 || IsSize(s.dirtysize))
  }

  predicate Inv(l: BigState, m: Machine) {
    Shape(l, m) && Links(l) && forall v | 0 <= v < VREGS :: Ok(l, v)
  }

  // ---- logical values ----

  // x and y agree on the bytes from lo up to hi that matter to v (FLAGX is 16 bits wide).
  predicate Agree(v: int, lo: int, hi: int, x: Word, y: Word) {
    && (lo < 1 <= hi ==> x.b0 == y.b0)
    && (lo < 2 <= hi ==> x.b1 == y.b1)
    && (lo < 4 <= hi && v != FLAGX ==> x.hi == y.hi)
  }

  predicate Same(v: int, x: Word, y: Word) { Agree(v, 0, 4, x, y) }

  function NativeWord(l: BigState, m: Machine, v: int): Word
    requires Shape(l, m) && IsVreg(v)
  {
    if IsNreg(l.state[v].realreg) then m.regs[l.state[v].realreg] else ZERO
  }

  // Constant, or native/memory content plus the pending offset `val`.
  function LogVal(l: BigState, m: Machine, v: int): Word
    requires Shape(l, m) && IsVreg(v)
  {
    var s := l.state[v];
    if s.status == ISCONST then s.val
    else if InReg(s) then Add(Merge(m.home[v], NativeWord(l, m, v), s.validsize), s.val)
    else Add(m.home[v], s.val)
  }

  // How many low bytes of the native register memory does not have yet.
  function DirtyBytes(s: RegStatus): int { if s.status == DIRTY then s.dirtysize else 0 }

  // v has a well-defined logical value: it is not UNDEF, no offset is pending on a partially
  // valid register, and memory holds the valid bytes that are not dirty.
  predicate Coh(l: BigState, m: Machine, v: int)
    requires Shape(l, m) && IsVreg(v)
  {
    var s := l.state[v];
    && s.status != UNDEF
    && (InReg(s) ==>
          && (s.val != ZERO ==> s.validsize == 4)
          && s.dirtysize <= s.validsize
          && Agree(v, DirtyBytes(s), s.validsize, m.home[v], NativeWord(l, m, v)))
  }

  // Memory is up to date and no offset is pending.
  predicate Settled(s: RegStatus) { (s.status == INMEM || s.status == CLEAN) && s.val == ZERO }

  // All four bytes of v are valid if it is in a native register.
  predicate Wide(s: RegStatus) { InReg(s) ==> s.validsize == 4 }

  // An offset is pending on a partly valid register, or has just been added to it.
  predicate Bent(s: RegStatus) {
    InReg(s) && s.validsize < 4 && (s.val != ZERO || (s.status == DIRTY && s.dirtysize == 4))
  }

  // What the allocator will make of v: of a bent register it takes all four bytes for valid.
  function Effective(l: BigState, m: Machine, v: int): Word
    requires Shape(l, m) && IsVreg(v)
  {
    if Bent(l.state[v]) then Add(NativeWord(l, m, v), l.state[v].val) else LogVal(l, m, v)
  }

  // What every allocator step does to a virtual register it is not asked to overwrite.
  predicate Keeps(l0: BigState, m0: Machine, l1: BigState, m1: Machine, v: int)
    requires Shape(l0, m0) && Shape(l1, m1) && IsVreg(v)
  {
    && (Ok(l0, v) ==> Ok(l1, v))
    && (Settled(l0.state[v]) ==> Settled(l1.state[v]))
    && (Wide(l0.state[v]) ==> Wide(l1.state[v]))
    && (Coh(l0, m0, v) ==> Coh(l1, m1, v) && Same(v, LogVal(l1, m1, v), LogVal(l0, m0, v)))
  }

  // What sits in no native register is not brought into one, and constants stay constants.
  predicate Stays(l0: BigState, l1: BigState, v: int)
    requires |l0.state| == VREGS && |l1.state| == VREGS && IsVreg(v)
  {
    && (InReg(l1.state[v]) ==> InReg(l0.state[v]))
    && (l1.state[v].status == ISCONST <==> l0.state[v].status == ISCONST)
  }

  // A bent register stays so, or what the allocator makes of it is in memory.
  predicate KeepsBent(l0: BigState, m0: Machine, l1: BigState, m1: Machine, v: int)
    requires Shape(l0, m0) && Shape(l1, m1) && IsVreg(v)
  {
    Bent(l0.state[v]) && Ok(l0, v) ==>
      (Bent(l1.state[v]) || Coh(l1, m1, v)) && Same(v, Effective(l1, m1, v), Effective(l0, m0, v))
  }

  // All this together, for a register that the step is not about.
  predicate Kept(l0: BigState, m0: Machine, l1: BigState, m1: Machine, v: int)
    requires Shape(l0, m0) && Shape(l1, m1) && IsVreg(v)
  {
    Keeps(l0, m0, l1, m1, v) && Stays(l0, l1, v) && KeepsBent(l0, m0, l1, m1, v)
  }

  predicate KeepsAllBut(l0: BigState, m0: Machine, l1: BigState, m1: Machine, r: int)
    requires Shape(l0, m0) && Shape(l1, m1)
  {
    forall v | 0 <= v < VREGS && v != r :: Kept(l0, m0, l1, m1, v)
  }

  predicate KeepsAll(l0: BigState, m0: Machine, l1: BigState, m1: Machine)
    requires Shape(l0, m0) && Shape(l1, m1)
  {
    forall v | 0 <= v < VREGS :: Kept(l0, m0, l1, m1, v)
  }

  predicate SameLocks(l0: BigState, l1: BigState)
    requires |l0.native| == N_REGS && |l1.native| == N_REGS
  {
    forall n | 0 <= n < N_REGS :: l1.native[n].locked == l0.native[n].locked
  }

  predicate HeldBy(l: BigState, n: int, v: int)
    requires |l.state| == VREGS && IsVreg(v)
  {
    InReg(l.state[v]) && l.state[v].realreg == n
  }

  // A locked native register keeps its content; unless it is x it also keeps its holders.
  predicate LockedKept(l0: BigState, m0: Machine, l1: BigState, m1: Machine, x: int)
    requires Shape(l0, m0) && Shape(l1, m1)
  {
    forall n | 0 <= n < N_REGS && l0.native[n].locked > 0 ::
      && m1.regs[n] == m0.regs[n]
      && (n != x ==> l1.native[n].holds == l0.native[n].holds)
      && (n != x ==> forall v | 0 <= v < VREGS && HeldBy(l0, n, v) :: l1.state[v] == l0.state[v])
  }

  // ---- small facts about words ----

  lemma AddKeepsLowBytes(v: int, x: Word, y: Word, z: Word)
    requires Same(v, x, y)
    ensures Same(v, Add(x, z), Add(y, z))
  {
  }

  // A virtual register sits in one place only.
  lemma HeldOnce(l: BigState, n: int, i: int, k: int, j: int)
    requires |l.state| == VREGS && |l.native| == N_REGS && Links(l)
    requires 0 <= n < N_REGS && 0 <= i < |l.native[n].holds|
    requires 0 <= k < N_REGS && 0 <= j < |l.native[k].holds|
    ensures l.native[n].holds[i] == l.native[k].holds[j] ==> n == k && i == j
  {
  }

  // ---- one-register steps ----

  // A step that touches only state[r], home[r] and native registers nobody else holds.
  lemma KeepsOthers(l0: BigState, m0: Machine, l1: BigState, m1: Machine, r: int)
    requires Shape(l0, m0) && Shape(l1, m1) && IsVreg(r)
    requires forall v | 0 <= v < VREGS && v != r :: l1.state[v] == l0.state[v] && m1.home[v] == m0.home[v]
    requires forall v | 0 <= v < VREGS && v != r && InReg(l0.state[v]) && IsNreg(l0.state[v].realreg) ::
      m1.regs[l0.state[v].realreg] == m0.regs[l0.state[v].realreg]
      && |l1.native[l0.state[v].realreg].holds| <= |l0.native[l0.state[v].realreg].holds|
    ensures KeepsAllBut(l0, m0, l1, m1, r)
  {
    forall v | 0 <= v < VREGS && v != r
      ensures Kept(l0, m0, l1, m1, v)
    {
      assert l1.state[v] == l0.state[v] && m1.home[v] == m0.home[v];
    }
  }

  // Folding the pending offset into a register that r has for itself.
  lemma FoldKeeps(l0: BigState, m0: Machine, l1: BigState, m1: Machine, r: int)
    requires Shape(l0, m0) && Links(l0) && IsVreg(r) && Ok(l0, r)
    requires InReg(l0.state[r]) && l0.state[r].val != ZERO
    requires |l0.native[l0.state[r].realreg].holds| == 1
    requires l1 == l0.(state := l0.state[r := l0.state[r].(val := ZERO, dirtysize := 4, status := DIRTY)])
    requires var n := l0.state[r].realreg; m1 == m0.(regs := m0.regs[n := Add(m0.regs[n], l0.state[r].val)])
    ensures Links(l1) && KeepsAll(l0, m0, l1, m1)
  {
    var n := l0.state[r].realreg;
    assert l0.native[n].holds[0] == r;
    forall v | 0 <= v < VREGS && v != r && InReg(l0.state[v])
      ensures l0.state[v].realreg != n
    {
    }
    KeepsOthers(l0, m0, l1, m1, r);
    AddZero(m1.regs[n]);
  }

  // Storing the dirty bytes of r to its home.
  lemma StoreKeeps(l0: BigState, m0: Machine, l1: BigState, m1: Machine, r: int)
    requires Shape(l0, m0) && Links(l0) && IsVreg(r) && Ok(l0, r)
    requires l0.state[r].status == DIRTY
    requires l1 == l0.(state := l0.state[r := l0.state[r].(status := CLEAN, dirtysize := 0)])
    requires m1 == m0.(home := m0.home[r :=
      Merge(m0.home[r], m0.regs[l0.state[r].realreg], l0.state[r].dirtysize)])
    ensures Links(l1) && KeepsAll(l0, m0, l1, m1)
  {
    hide Add;
    KeepsOthers(l0, m0, l1, m1, r);
    var n := m0.regs[l0.state[r].realreg];
    var s := l0.state[r];
    if Coh(l0, m0, r) {
      AddKeepsLowBytes(r, Merge(m1.home[r], n, s.validsize), Merge(m0.home[r], n, s.validsize), s.val);
    }
  }

  lemma KeepsTrans(l0: BigState, m0: Machine, l1: BigState, m1: Machine, l2: BigState, m2: Machine, v: int)
    requires Shape(l0, m0) && Shape(l1, m1) && Shape(l2, m2) && IsVreg(v)
    requires Keeps(l0, m0, l1, m1, v) && Keeps(l1, m1, l2, m2, v)
    ensures Keeps(l0, m0, l2, m2, v)
  {
    hide LogVal, Ok;
  }

  lemma KeepsBentTrans(l0: BigState, m0: Machine, l1: BigState, m1: Machine, l2: BigState, m2: Machine, v: int)
    requires Shape(l0, m0) && Shape(l1, m1) && Shape(l2, m2) && IsVreg(v)
    requires Keeps(l0, m0, l1, m1, v) && Keeps(l1, m1, l2, m2, v)
    requires KeepsBent(l0, m0, l1, m1, v) && KeepsBent(l1, m1, l2, m2, v)
    ensures KeepsBent(l0, m0, l2, m2, v)
  {
    hide LogVal, Ok, Add;
  }

  // Once a register is no longer bent, keeping its value is enough.
  lemma UnbentThen(l0: BigState, m0: Machine, l1: BigState, m1: Machine, l2: BigState, m2: Machine, v: int)
    requires Shape(l0, m0) && Shape(l1, m1) && Shape(l2, m2) && IsVreg(v)
    requires KeepsBent(l0, m0, l1, m1, v) && Keeps(l1, m1, l2, m2, v) && !Bent(l1.state[v])
    ensures KeepsBent(l0, m0, l2, m2, v)
  {
    hide LogVal, Ok, Add;
  }

  lemma KeptTrans(l0: BigState, m0: Machine, l1: BigState, m1: Machine, l2: BigState, m2: Machine, v: int)
    requires Shape(l0, m0) && Shape(l1, m1) && Shape(l2, m2) && IsVreg(v)
    requires Kept(l0, m0, l1, m1, v) && Kept(l1, m1, l2, m2, v)
    ensures Kept(l0, m0, l2, m2, v)
  {
    KeepsTrans(l0, m0, l1, m1, l2, m2, v);
    KeepsBentTrans(l0, m0, l1, m1, l2, m2, v);
    hide Keeps, KeepsBent;
  }

  lemma KeepsWide(l0: BigState, m0: Machine, l1: BigState, m1: Machine, v: int)
    requires Shape(l0, m0) && Shape(l1, m1) && IsVreg(v) && Keeps(l0, m0, l1, m1, v)
    ensures Wide(l0.state[v]) ==> Wide(l1.state[v])
    ensures Settled(l0.state[v]) ==> Settled(l1.state[v])
  {
  }

  lemma KeepsAllTrans(l0: BigState, m0: Machine, l1: BigState, m1: Machine, l2: BigState, m2: Machine)
    requires Shape(l0, m0) && Shape(l1, m1) && Shape(l2, m2)
    requires KeepsAll(l0, m0, l1, m1) && KeepsAll(l1, m1, l2, m2)
    ensures KeepsAll(l0, m0, l2, m2)
  {
    forall v | 0 <= v < VREGS
      ensures Kept(l0, m0, l2, m2, v)
    {
      KeptTrans(l0, m0, l1, m1, l2, m2, v);
    }
  }

  lemma KeepsAllButTrans(l0: BigState, m0: Machine, l1: BigState, m1: Machine, l2: BigState, m2: Machine, r: int)
    requires Shape(l0, m0) && Shape(l1, m1) && Shape(l2, m2)
    requires KeepsAllBut(l0, m0, l1, m1, r) && KeepsAllBut(l1, m1, l2, m2, r)
    ensures KeepsAllBut(l0, m0, l2, m2, r)
  {
    forall v | 0 <= v < VREGS && v != r
      ensures Kept(l0, m0, l2, m2, v)
    {
      KeptTrans(l0, m0, l1, m1, l2, m2, v);
    }
  }

  lemma KeepsAllRefl(l: BigState, m: Machine)
    requires Shape(l, m)
    ensures KeepsAll(l, m, l, m)
  {
  }

  // Dropping a clean register r out of the native register it sits in: swap-with-last.
  function RemoveAt(holds: seq<int>, ind: int): seq<int>
    requires 0 <= ind < |holds|
  {
    var last := |holds| - 1;
    if last == ind then holds[..last] else holds[ind := holds[last]][..last]
  }

  function Unlinked(l: BigState, r: int): BigState
    requires |l.state| == VREGS && |l.native| == N_REGS && IsVreg(r)
    requires IsNreg(l.state[r].realreg)
    requires 0 <= l.state[r].realind < |l.native[l.state[r].realreg].holds|
    requires forall i | 0 <= i < |l.native[l.state[r].realreg].holds| ::
      IsVreg(l.native[l.state[r].realreg].holds[i])
  {
    var n := l.state[r].realreg;
    var ind := l.state[r].realind;
    var holds := l.native[n].holds;
    var top := holds[|holds| - 1];
    assert IsVreg(top);
    var st := if ind == |holds| - 1 then l.state else l.state[top := l.state[top].(realind := ind)];
    BigState(st[r := st[r].(realreg := -1, status := INMEM)],
             l.native[n := l.native[n].(holds := RemoveAt(holds, ind))])
  }

  lemma UnlinkFrame(l0: BigState, m: Machine, r: int)
    requires Shape(l0, m) && Links(l0) && IsVreg(r) && InReg(l0.state[r])
    ensures Shape(Unlinked(l0, r), m)
    ensures forall v | 0 <= v < VREGS && v != r ::
      Unlinked(l0, r).state[v] == l0.state[v].(realind := Unlinked(l0, r).state[v].realind)
    ensures Unlinked(l0, r).state[r] == l0.state[r].(realreg := -1, status := INMEM)
    ensures forall n | 0 <= n < N_REGS :: |Unlinked(l0, r).native[n].holds| <= |l0.native[n].holds|
  {
    var n := l0.state[r].realreg;
    var last := |l0.native[n].holds| - 1;
    var top := l0.native[n].holds[last];
    assert l0.state[top].realreg == n && l0.state[top].realind == last;
  }

  lemma UnlinkLinks(l0: BigState, m: Machine, r: int)
    requires Shape(l0, m) && Links(l0) && IsVreg(r) && InReg(l0.state[r])
    ensures Shape(Unlinked(l0, r), m) && Links(Unlinked(l0, r))
  {
    UnlinkFrame(l0, m, r);
    var l1 := Unlinked(l0, r);
    var n, ind := l0.state[r].realreg, l0.state[r].realind;
    var last := |l0.native[n].holds| - 1;
    var top := l0.native[n].holds[last];
    assert l0.state[top].realreg == n && l0.state[top].realind == last;
    forall v | 0 <= v < VREGS && InReg(l1.state[v])
      ensures 0 <= l1.state[v].realreg < N_REGS
      ensures 0 <= l1.state[v].realind < |l1.native[l1.state[v].realreg].holds|
      ensures l1.native[l1.state[v].realreg].holds[l1.state[v].realind] == v
    {
      assert v != r && InReg(l0.state[v]);
      assert l0.native[l0.state[v].realreg].holds[l0.state[v].realind] == v;
    }
    forall k, i | 0 <= k < N_REGS && 0 <= i < |l1.native[k].holds|
      ensures 0 <= l1.native[k].holds[i] < VREGS
      ensures InReg(l1.state[l1.native[k].holds[i]])
      ensures l1.state[l1.native[k].holds[i]].realreg == k
      ensures l1.state[l1.native[k].holds[i]].realind == i
    {
      var j := if k == n && i == ind then last else i;
      assert l1.native[k].holds[i] == l0.native[k].holds[j];
      HeldOnce(l0, k, j, n, ind);
    }
  }

  // v stays where it is, at another index perhaps.
  lemma RenumberedKept(l0: BigState, m: Machine, l1: BigState, v: int)
    requires Shape(l0, m) && Shape(l1, m) && IsVreg(v)
    requires l1.state[v] == l0.state[v].(realind := l1.state[v].realind)
    requires InReg(l0.state[v]) && IsNreg(l0.state[v].realreg) ==>
      |l1.native[l0.state[v].realreg].holds| <= |l0.native[l0.state[v].realreg].holds|
    ensures Kept(l0, m, l1, m, v)
  {
  }

  lemma UnlinkKeeps(l0: BigState, m: Machine, r: int)
    requires Shape(l0, m) && Links(l0) && IsVreg(r) && Ok(l0, r) && l0.state[r].status == CLEAN
    requires !Bent(l0.state[r])
    ensures Shape(Unlinked(l0, r), m) && KeepsAll(l0, m, Unlinked(l0, r), m)
  {
    UnlinkFrame(l0, m, r);
    var l1 := Unlinked(l0, r);
    UnlinkedValue(l0, m, l1, r);
    hide Unlinked, Links, Kept, Ok;
    forall v | 0 <= v < VREGS && v != r
      ensures Kept(l0, m, l1, m, v)
    {
      RenumberedKept(l0, m, l1, v);
    }
  }

  lemma UnlinkedValue(l0: BigState, m: Machine, l1: BigState, r: int)
    requires Shape(l0, m) && Shape(l1, m) && IsVreg(r) && l0.state[r].status == CLEAN && !Bent(l0.state[r])
    requires l1.state[r] == l0.state[r].(realreg := -1, status := INMEM)
    ensures Kept(l0, m, l1, m, r)
  {
    hide Add;
    if Coh(l0, m, r) {
      AddKeepsLowBytes(r, m.home[r], Merge(m.home[r], NativeWord(l0, m, r), l0.state[r].validsize), l0.state[r].val);
    }
  }

  // The effect of tomem(r).
  predicate Stored(l0: BigState, m0: Machine, l1: BigState, m1: Machine, r: int)
    requires Shape(l0, m0) && Shape(l1, m1) && IsVreg(r)
  {
    var s0 := l0.state[r];
    var s1 := l1.state[r];
    && l1 == l0.(state := l0.state[r := s1])
    && m1.home == m0.home[r := m1.home[r]]
    && (forall n | 0 <= n < N_REGS && (!InReg(s0) || n != s0.realreg || l0.native[n].locked > 0) ::
          m1.regs[n] == m0.regs[n])
    && s1.status == (if InReg(s0) then CLEAN else s0.status)
    && s1.realreg == s0.realreg && s1.realind == s0.realind && s1.validsize == s0.validsize
    && (s1.val == s0.val || s1.val == ZERO)
    && (InReg(s0) && IsNreg(s0.realreg) && s1.val != ZERO ==>
          l0.native[s0.realreg].locked > 0 || |l0.native[s0.realreg].holds| != 1)
    && (s0.status == CLEAN && s0.val == ZERO ==> m1 == m0)
  }

  // What tomem(r) leaves in memory: a pending offset is folded into all four bytes, whether they are
  // valid or not, unless the register is shared or locked.
  function StoredWord(l: BigState, m: Machine, r: int): Word
    requires Shape(l, m) && IsVreg(r)
  {
    var s := l.state[r];
    if InReg(s) && IsNreg(s.realreg) && s.val != ZERO
       && |l.native[s.realreg].holds| == 1 && l.native[s.realreg].locked == 0
    then Add(NativeWord(l, m, r), s.val)
    else if s.status == DIRTY then Merge(m.home[r], NativeWord(l, m, r), s.dirtysize)
    else m.home[r]
  }

  lemma NotBentStored(l0: BigState, m0: Machine, l1: BigState, m1: Machine, r: int)
    requires Shape(l0, m0) && Links(l0) && Shape(l1, m1) && IsVreg(r) && InReg(l0.state[r]) && Ok(l0, r)
    requires Stored(l0, m0, l1, m1, r)
    requires var n := l0.state[r].realreg; IsNreg(n) && (l0.native[n].locked == 0 || |l0.native[n].holds| != 1)
    ensures !Bent(l1.state[r])
  {
    LinkAt(l0, m0, r);
  }

  // The effect of evicting r from its native register.
  predicate Evicted(l0: BigState, m0: Machine, l1: BigState, m1: Machine, r: int)
    requires Shape(l0, m0) && Shape(l1, m1) && IsVreg(r) && Links(l0) && InReg(l0.state[r])
  {
    LinkAt(l0, m0, r);
    var n := l0.state[r].realreg;
    var s := l1.state[r];
    && l1.native == l0.native[n := l0.native[n].(holds := RemoveAt(l0.native[n].holds, l0.state[r].realind))]
    && s.status == INMEM
    && (s.val == ZERO || s.val == l0.state[r].val)
    && (forall v | 0 <= v < VREGS && v != r :: l1.state[v] == l0.state[v].(realind := l1.state[v].realind))
    && (forall v | 0 <= v < VREGS && !(InReg(l0.state[v]) && l0.state[v].realreg == n) ::
          l1.state[v] == l0.state[v])
    && (forall v | 0 <= v < VREGS && v != r :: m1.home[v] == m0.home[v])
    && (forall k | 0 <= k < N_REGS && (k != n || l0.native[n].locked > 0) :: m1.regs[k] == m0.regs[k])
    && (l0.state[r].status == CLEAN && l0.state[r].val == ZERO ==> m1 == m0)
  }

  lemma LinkAt(l: BigState, m: Machine, r: int)
    requires Shape(l, m) && Links(l) && IsVreg(r) && InReg(l.state[r])
    ensures IsNreg(l.state[r].realreg)
    ensures var holds := l.native[l.state[r].realreg].holds;
      && 0 <= l.state[r].realind < |holds|
      && holds[l.state[r].realind] == r
      && forall i | 0 <= i < |holds| ::
           IsVreg(holds[i]) && l.state[holds[i]].realind == i && (holds[i] == r <==> i == l.state[r].realind)
  {
  }

  lemma StoredUnlinkedIsEvicted(l0: BigState, m0: Machine, l1: BigState, m1: Machine, r: int)
    requires Shape(l0, m0) && Links(l0) && Shape(l1, m1) && Links(l1) && IsVreg(r) && InReg(l0.state[r])
    requires Stored(l0, m0, l1, m1, r)
    ensures Shape(Unlinked(l1, r), m1) && Evicted(l0, m0, Unlinked(l1, r), m1, r)
  {
    UnlinkFrame(l1, m1, r);
    LinkAt(l1, m1, r);
    var l2 := Unlinked(l1, r);
    forall v | 0 <= v < VREGS && !(InReg(l0.state[v]) && l0.state[v].realreg == l0.state[r].realreg)
      ensures l2.state[v] == l0.state[v]
    {
      assert l1.state[v] == l0.state[v];
    }
  }

  // The effect of evicting the holders of n from index i upwards.
  predicate FreedFrom(l0: BigState, m0: Machine, l1: BigState, m1: Machine, n: int, i: int)
    requires Shape(l0, m0) && Shape(l1, m1) && IsNreg(n) && 0 <= i <= |l0.native[n].holds|
  {
    && l1.native == l0.native[n := l0.native[n].(holds := l0.native[n].holds[..i])]
    && (forall v | 0 <= v < VREGS ::
          if HeldBy(l0, n, v) && l0.state[v].realind >= i
          then l1.state[v].status == INMEM && (l1.state[v].val == ZERO || l1.state[v].val == l0.state[v].val)
          else l1.state[v] == l0.state[v] && m1.home[v] == m0.home[v])
    && (forall k | 0 <= k < N_REGS && (k != n || l0.native[n].locked > 0) :: m1.regs[k] == m0.regs[k])
  }

  lemma EvictedExtendsFreed(l0: BigState, m0: Machine, l1: BigState, m1: Machine,
                            l2: BigState, m2: Machine, n: int, i: int)
    requires Shape(l0, m0) && Shape(l1, m1) && Shape(l2, m2) && IsNreg(n)
    requires Links(l0) && Links(l1) && Links(l2)
    requires 0 <= i < |l0.native[n].holds|
    requires FreedFrom(l0, m0, l1, m1, n, i + 1)
    requires IsVreg(l1.native[n].holds[i]) && InReg(l1.state[l1.native[n].holds[i]])
    requires Evicted(l1, m1, l2, m2, l1.native[n].holds[i])
    ensures FreedFrom(l0, m0, l2, m2, n, i)
  {
    var r := l1.native[n].holds[i];
    assert l1.state[r].realreg == n && l1.state[r].realind == i;
    assert l1.native[n].holds == l0.native[n].holds[..i + 1];
    assert l2.native[n].holds == l0.native[n].holds[..i];
    forall v | 0 <= v < VREGS
      ensures if HeldBy(l0, n, v) && l0.state[v].realind >= i
              then l2.state[v].status == INMEM && (l2.state[v].val == ZERO || l2.state[v].val == l0.state[v].val)
              else l2.state[v] == l0.state[v] && m2.home[v] == m0.home[v]
    {
      if HeldBy(l0, n, v) && l0.state[v].realind < i {
        assert l2.native[n].holds[l0.state[v].realind] == v;
      } else if HeldBy(l0, n, v) && l0.state[v].realind == i {
        assert l0.native[n].holds[i] == v;
      }
    }
  }

  lemma OkFromKeeps(l0: BigState, m0: Machine, l1: BigState, m1: Machine)
    requires Inv(l0, m0) && Shape(l1, m1) && Links(l1) && KeepsAll(l0, m0, l1, m1)
    ensures Inv(l1, m1)
  {
    hide Ok, Coh, LogVal, Same;
    forall v | 0 <= v < VREGS
      ensures Ok(l1, v)
    {
      assert Kept(l0, m0, l1, m1, v);
    }
  }

  // ---- instructions used to widen a half-valid register ----

  function Bswap(w: Word): Word {
    Word(w.hi / 0x100, w.hi % 0x100, w.b1 + 0x100 * w.b0)
  }

  function ZeroExtend16(w: Word): Word { Word(w.b0, w.b1, 0) }

  // The bswap/zero-extend/lea sequence of alloc_reg_hinted joins the low half of x
  // with the high half of the word in memory.
  lemma WidenIsMerge(x: Word, inMemory: Word)
    ensures Add(ZeroExtend16(x), Bswap(ZeroExtend16(Bswap(inMemory)))) == Merge(inMemory, x, 2)
  {
  }

  // ---- picking a native register ----

  predicate Eligible(l: BigState, n: int, size: int)
    requires |l.native| == N_REGS
  {
    IsNreg(n) && l.native[n].locked == 0 && Can(n, size)
  }

  function Badness(l: BigState, n: int, hint: int): int
    requires |l.native| == N_REGS && IsNreg(n)
  {
    (if |l.native[n].holds| == 0 then 0 else l.native[n].touched) - (if n == hint then HINT_BONUS else 0)
  }

  // ---- what survives in locked registers ----

  lemma LockedKeptTrans(l0: BigState, m0: Machine, l1: BigState, m1: Machine, l2: BigState, m2: Machine, x: int)
    requires Shape(l0, m0) && Shape(l1, m1) && Shape(l2, m2)
    requires SameLocks(l0, l1)
    requires LockedKept(l0, m0, l1, m1, x) && LockedKept(l1, m1, l2, m2, x)
    ensures LockedKept(l0, m0, l2, m2, x)
  {
  }

  lemma FreedLockedKept(l0: BigState, m0: Machine, l1: BigState, m1: Machine, n: int)
    requires Shape(l0, m0) && Shape(l1, m1) && IsNreg(n) && l0.native[n].locked == 0
    requires FreedFrom(l0, m0, l1, m1, n, 0)
    ensures SameLocks(l0, l1) && LockedKept(l0, m0, l1, m1, -1)
  {
  }

  lemma EvictedLockedKept(l0: BigState, m0: Machine, l1: BigState, m1: Machine, r: int, x: int)
    requires Shape(l0, m0) && Links(l0) && Shape(l1, m1) && IsVreg(r) && InReg(l0.state[r])
    requires Evicted(l0, m0, l1, m1, r)
    requires x == l0.state[r].realreg || l0.native[l0.state[r].realreg].locked == 0
    ensures SameLocks(l0, l1) && LockedKept(l0, m0, l1, m1, x)
  {
  }

  // ---- putting a register that sits nowhere into native register n ----

  function Attached(l: BigState, r: int, n: int, s: RegStatus, touched: nat): BigState
    requires |l.state| == VREGS && |l.native| == N_REGS && IsVreg(r) && IsNreg(n)
  {
    var holds := l.native[n].holds;
    BigState(l.state[r := s.(realreg := n, realind := |holds|)],
             l.native[n := l.native[n].(holds := holds + [r], touched := touched)])
  }

  lemma AttachLinks(l: BigState, m: Machine, r: int, n: int, s: RegStatus, touched: nat)
    requires Shape(l, m) && Links(l) && IsVreg(r) && IsNreg(n) && !InReg(l.state[r]) && InReg(s)
    ensures Shape(Attached(l, r, n, s, touched), m) && Links(Attached(l, r, n, s, touched))
  {
    var l1 := Attached(l, r, n, s, touched);
    forall k, i | 0 <= k < N_REGS && 0 <= i < |l1.native[k].holds|
      ensures 0 <= l1.native[k].holds[i] < VREGS
      ensures InReg(l1.state[l1.native[k].holds[i]])
      ensures l1.state[l1.native[k].holds[i]].realreg == k
      ensures l1.state[l1.native[k].holds[i]].realind == i
    {
      if k != n || i < |l.native[n].holds| {
        assert l1.native[k].holds[i] == l.native[k].holds[i];
      }
    }
  }

  // An empty register can be given any content without disturbing the others.
  lemma AttachKeepsOthers(l: BigState, m: Machine, r: int, n: int, s: RegStatus, touched: nat, w: Word)
    requires Shape(l, m) && Links(l) && IsVreg(r) && IsNreg(n) && !InReg(l.state[r])
    requires |l.native[n].holds| == 0
    ensures var l1 := Attached(l, r, n, s, touched);
      var m1 := m.(regs := m.regs[n := w]);
      Shape(l1, m1) && KeepsAllBut(l, m, l1, m1, r) && SameLocks(l, l1)
      && (l.native[n].locked == 0 ==> LockedKept(l, m, l1, m1, -1))
  {
    var l1 := Attached(l, r, n, s, touched);
    var m1 := m.(regs := m.regs[n := w]);
    forall v | 0 <= v < VREGS && InReg(l.state[v])
      ensures l.state[v].realreg != n
    {
    }
    KeepsOthers(l, m, l1, m1, r);
  }

  // ---- the value of the register just allocated ----

  function LoadWord(m: Machine, r: int, n: int): Word
    requires |m.regs| == N_REGS && |m.home| == VREGS && IsVreg(r) && IsNreg(n)
  {
    if r == FLAGX && CanWord(n) then Merge(m.regs[n], m.home[r], 2) else m.home[r]
  }

  // The status a register gets when its content is loaded.
  function LoadedStatus(s: RegStatus): RegStatus {
    match s.status
    case ISCONST => s.(val := ZERO, dirtysize := 4, status := DIRTY, validsize := 4)
    case UNDEF => s.(val := ZERO, dirtysize := 0, status := CLEAN, validsize := 4)
    case _ => s.(dirtysize := 0, status := CLEAN, validsize := 4)
  }

  function LoadedWord(l: BigState, m: Machine, r: int, n: int): Word
    requires Shape(l, m) && IsVreg(r) && IsNreg(n)
  {
    match l.state[r].status
    case ISCONST => l.state[r].val
    case UNDEF => m.regs[n]
    case _ => LoadWord(m, r, n)
  }

  lemma LoadKeeps(l: BigState, m: Machine, r: int, n: int, touched: nat)
    requires Shape(l, m) && IsVreg(r) && IsNreg(n) && !InReg(l.state[r]) && |l.native[n].holds| == 0
    ensures var l1 := Attached(l, r, n, LoadedStatus(l.state[r]), touched);
      var m1 := m.(regs := m.regs[n := LoadedWord(l, m, r, n)]);
      Shape(l1, m1) && Keeps(l, m, l1, m1, r) && Ok(l1, r)
  {
    hide Add;
    var w := LoadedWord(l, m, r, n);
    if l.state[r].status == ISCONST {
      AddZero(w);
    } else if l.state[r].status == INMEM {
      AddKeepsLowBytes(r, w, m.home[r], l.state[r].val);
    }
  }

  // The status a register gets when its low `size` bytes are about to be overwritten.
  function ClaimedStatus(s: RegStatus, size: int): RegStatus {
    if s.status != ISCONST || size == 4
    then s.(validsize := size, dirtysize := size, val := ZERO, status := DIRTY)
    else s.(validsize := 4, dirtysize := 4, val := ZERO, status := DIRTY)
  }

  function ClaimedWord(l: BigState, m: Machine, r: int, n: int, size: int): Word
    requires Shape(l, m) && IsVreg(r) && IsNreg(n)
  {
    if l.state[r].status != ISCONST || size == 4 then m.regs[n] else l.state[r].val
  }

  // The bytes above `size` survive, unless an offset was still pending on memory.
  lemma ClaimKeepsHighBytes(l: BigState, m: Machine, r: int, n: int, size: int, touched: nat)
    requires Shape(l, m) && IsVreg(r) && IsNreg(n) && !InReg(l.state[r]) && |l.native[n].holds| == 0
    requires IsSize(size) && Can(n, size)
    ensures var l1 := Attached(l, r, n, ClaimedStatus(l.state[r], size), touched);
      var m1 := m.(regs := m.regs[n := ClaimedWord(l, m, r, n, size)]);
      && Shape(l1, m1) && Ok(l1, r) && Coh(l1, m1, r)
      && (l.state[r].status == ISCONST || l.state[r].val == ZERO ==>
            Agree(r, size, 4, LogVal(l1, m1, r), LogVal(l, m, r)))
  {
    hide Add;
    var w := m.regs[n];
    AddZero(Merge(m.home[r], w, size));
    AddZero(m.home[r]);
    AddZero(ClaimedWord(l, m, r, n, size));
  }

  // ---- widening in place ----

  lemma WidenKeeps(l0: BigState, m0: Machine, r: int, tmp: int, w: Word, touched: nat)
    requires Shape(l0, m0) && Links(l0) && IsVreg(r) && Ok(l0, r)
    requires InReg(l0.state[r]) && l0.state[r].validsize == 2
    requires IsNreg(tmp) && |l0.native[tmp].holds| == 0
    ensures var n := l0.state[r].realreg;
      var l1 := BigState(l0.state[r := l0.state[r].(validsize := 4)],
                         l0.native[n := l0.native[n].(touched := touched)]);
      var m1 := m0.(regs := m0.regs[tmp := w][n := Merge(m0.home[r], m0.regs[n], 2)]);
      && Shape(l1, m1) && Links(l1) && KeepsAllBut(l0, m0, l1, m1, r) && Keeps(l0, m0, l1, m1, r)
      && SameLocks(l0, l1)
      && (l0.native[n].locked == 0 && l0.native[tmp].locked == 0 ==> LockedKept(l0, m0, l1, m1, -1))
  {
    hide Add;
    var n := l0.state[r].realreg;
    LinkAt(l0, m0, r);
    var l1 := BigState(l0.state[r := l0.state[r].(validsize := 4)],
                       l0.native[n := l0.native[n].(touched := touched)]);
    var m1 := m0.(regs := m0.regs[tmp := w][n := Merge(m0.home[r], m0.regs[n], 2)]);
    assert l0.native[n].holds[0] == r;
    forall v | 0 <= v < VREGS && v != r && InReg(l0.state[v])
      ensures l0.state[v].realreg != n && l0.state[v].realreg != tmp
    {
    }
    KeepsOthers(l0, m0, l1, m1, r);
  }

  lemma LocksTrans(l0: BigState, l1: BigState, l2: BigState)
    requires |l0.native| == N_REGS && |l1.native| == N_REGS && |l2.native| == N_REGS
    requires SameLocks(l0, l1) && SameLocks(l1, l2)
    ensures SameLocks(l0, l2)
  {
  }

  lemma NothingFreed(l: BigState, m: Machine, n: int)
    requires Shape(l, m) && Links(l) && IsNreg(n) && |l.native[n].holds| == 0
    ensures FreedFrom(l, m, l, m, n, 0) && KeepsAll(l, m, l, m)
  {
    assert l.native[n].holds == l.native[n].holds[..0];
  }

  lemma AloneWhenNarrow(l: BigState, m: Machine, r: int)
    requires Inv(l, m) && IsVreg(r) && InReg(l.state[r]) && l.state[r].validsize < 4
    ensures IsNreg(l.state[r].realreg) && |l.native[l.state[r].realreg].holds| == 1
  {
    assert Ok(l, r);
  }

  // r has the native register n for itself.
  predicate Placed(l: BigState, r: int, n: int)
    requires |l.state| == VREGS && |l.native| == N_REGS
  {
    IsVreg(r) && IsNreg(n) && InReg(l.state[r]) && l.state[r].realreg == n && l.native[n].holds == [r]
  }

  lemma KeepsAllSplit(l0: BigState, m0: Machine, l1: BigState, m1: Machine, r: int)
    requires Shape(l0, m0) && Shape(l1, m1) && IsVreg(r)
    ensures KeepsAll(l0, m0, l1, m1) <==>
      KeepsAllBut(l0, m0, l1, m1, r) && Kept(l0, m0, l1, m1, r)
  {
  }

  lemma OkButFromKeeps(l0: BigState, m0: Machine, l1: BigState, m1: Machine, r: int)
    requires Inv(l0, m0) && Shape(l1, m1) && Links(l1) && IsVreg(r)
    requires KeepsAllBut(l0, m0, l1, m1, r) && Keeps(l0, m0, l1, m1, r)
    ensures Inv(l1, m1)
  {
    hide Ok, Coh, LogVal, Same;
    forall v | 0 <= v < VREGS
      ensures Ok(l1, v)
    {
      assert v != r ==> Kept(l0, m0, l1, m1, v);
    }
  }

  lemma KeptMost(l0: BigState, m0: Machine, l1: BigState, m1: Machine, r: int)
    requires Shape(l0, m0) && Shape(l1, m1) && IsVreg(r) && KeepsAll(l0, m0, l1, m1)
    ensures KeepsAllBut(l0, m0, l1, m1, r) && Kept(l0, m0, l1, m1, r)
    ensures Keeps(l0, m0, l1, m1, r) && Stays(l0, l1, r) && KeepsBent(l0, m0, l1, m1, r)
  {
    assert Kept(l0, m0, l1, m1, r);
  }

  // l0 to l1 makes room, l1 to l2 places r.
  lemma AllocDone(l0: BigState, m0: Machine, l1: BigState, m1: Machine, l2: BigState, m2: Machine, r: int)
    requires Inv(l0, m0) && Inv(l1, m1) && Shape(l2, m2) && IsVreg(r)
    requires KeepsAllBut(l0, m0, l1, m1, r) && SameLocks(l0, l1) && LockedKept(l0, m0, l1, m1, -1)
    requires KeepsAllBut(l1, m1, l2, m2, r) && SameLocks(l1, l2) && LockedKept(l1, m1, l2, m2, -1)
    requires Links(l2) && Ok(l2, r)
    ensures Inv(l2, m2) && KeepsAllBut(l0, m0, l2, m2, r) && SameLocks(l0, l2) && LockedKept(l0, m0, l2, m2, -1)
  {
    hide Links, Coh, LogVal, Same;
    KeepsAllButTrans(l0, m0, l1, m1, l2, m2, r);
    LockedKeptTrans(l0, m0, l1, m1, l2, m2, -1);
    forall v | 0 <= v < VREGS
      ensures Ok(l2, v)
    {
      assert v != r ==> Kept(l0, m0, l2, m2, v) && Ok(l0, v);
    }
  }

  lemma AgreeTrans(v: int, lo: int, hi: int, x: Word, y: Word, z: Word)
    requires Agree(v, lo, hi, x, y) && Same(v, y, z) && 0 <= lo && hi <= 4
    ensures Agree(v, lo, hi, x, z)
  {
  }

  lemma PlacedAlone(l: BigState, m: Machine, r: int)
    requires Inv(l, m) && IsVreg(r) && InReg(l.state[r]) && |l.native[l.state[r].realreg].holds| == 1
    ensures Placed(l, r, l.state[r].realreg)
  {
    LinkAt(l, m, r);
  }

  lemma CohElsewhere(l0: BigState, m0: Machine, l1: BigState, m1: Machine, r: int)
    requires Shape(l0, m0) && Shape(l1, m1) && IsVreg(r)
    requires l0.state[r].status == ISCONST || l0.state[r].status == INMEM
    requires Keeps(l0, m0, l1, m1, r)
    ensures Same(r, LogVal(l1, m1, r), LogVal(l0, m0, r))
  {
    hide LogVal;
  }

  // ---- moving a whole native register ----

  function MovedState(l: BigState, d: int, s: int, upto: int): seq<RegStatus>
    requires |l.state| == VREGS
    ensures |MovedState(l, d, s, upto)| == VREGS
  {
    seq(VREGS, v requires 0 <= v < VREGS =>
      if HeldBy(l, s, v) && l.state[v].realind < upto then l.state[v].(realreg := d) else l.state[v])
  }

  function Moved(l: BigState, d: int, s: int): BigState
    requires |l.state| == VREGS && |l.native| == N_REGS && IsNreg(d) && IsNreg(s)
  {
    BigState(MovedState(l, d, s, |l.native[s].holds|),
             l.native[d := l.native[d].(holds := l.native[s].holds)][s := l.native[s].(holds := [])])
  }

  lemma MoveLinks(l: BigState, m: Machine, d: int, s: int)
    requires Shape(l, m) && Links(l) && IsNreg(d) && IsNreg(s) && d != s && |l.native[d].holds| == 0
    ensures Links(Moved(l, d, s))
  {
    var l1 := Moved(l, d, s);
    forall v | 0 <= v < VREGS && InReg(l1.state[v])
      ensures 0 <= l1.state[v].realreg < N_REGS
      ensures 0 <= l1.state[v].realind < |l1.native[l1.state[v].realreg].holds|
      ensures l1.native[l1.state[v].realreg].holds[l1.state[v].realind] == v
    {
      assert l.native[l.state[v].realreg].holds[l.state[v].realind] == v;
    }
    forall k, i | 0 <= k < N_REGS && 0 <= i < |l1.native[k].holds|
      ensures 0 <= l1.native[k].holds[i] < VREGS
      ensures InReg(l1.state[l1.native[k].holds[i]])
      ensures l1.state[l1.native[k].holds[i]].realreg == k
      ensures l1.state[l1.native[k].holds[i]].realind == i
    {
      var j := if k == d then s else k;
      assert l1.native[k].holds[i] == l.native[j].holds[i];
    }
  }

  // d can store whatever the holders of s still have to store.
  predicate CanTakeOver(l: BigState, d: int, s: int)
    requires |l.state| == VREGS
  {
    forall v | 0 <= v < VREGS && HeldBy(l, s, v) && l.state[v].status == DIRTY :: Can(d, l.state[v].dirtysize)
  }

  // d can store what of a register has not been stored yet.
  predicate Fits(s: RegStatus, d: int) { s.status == DIRTY ==> Can(d, s.dirtysize) }

  // What has to be stored is what had to be, or all of the register.
  predicate Dirtied(s0: RegStatus, s1: RegStatus) {
    s1.status == DIRTY ==> s1.dirtysize == 4 || (s0.status == DIRTY && s1.dirtysize == s0.dirtysize)
  }

  lemma AloneTakenOver(l: BigState, m: Machine, r: int, n: int, d: int)
    requires Inv(l, m) && Placed(l, r, n) && Fits(l.state[r], d)
    ensures CanTakeOver(l, d, n)
  {
    forall v | 0 <= v < VREGS && HeldBy(l, n, v) && l.state[v].status == DIRTY
      ensures Can(d, l.state[v].dirtysize)
    {
      LinkAt(l, m, v);
    }
  }

  lemma StillTakesOver(l0: BigState, m0: Machine, l1: BigState, m1: Machine, d: int, s: int)
    requires Shape(l0, m0) && Shape(l1, m1) && IsNreg(d) && d != s && FreedFrom(l0, m0, l1, m1, d, 0)
    requires CanTakeOver(l0, d, s)
    ensures CanTakeOver(l1, d, s)
  {
  }

  lemma MoveKeeps(l: BigState, m: Machine, d: int, s: int)
    requires Shape(l, m) && Links(l) && IsNreg(d) && IsNreg(s) && d != s && |l.native[d].holds| == 0
    requires CanTakeOver(l, d, s)
    ensures var m1 := m.(regs := m.regs[d := m.regs[s]]);
      Shape(Moved(l, d, s), m1) && KeepsAll(l, m, Moved(l, d, s), m1)
  {
    hide Add;
    var l1 := Moved(l, d, s);
    var m1 := m.(regs := m.regs[d := m.regs[s]]);
    forall v | 0 <= v < VREGS
      ensures Kept(l, m, l1, m1, v)
    {
      if InReg(l.state[v]) {
        LinkAt(l, m, v);
        assert l1.state[v] == if l.state[v].realreg == s then l.state[v].(realreg := d) else l.state[v];
        assert NativeWord(l1, m1, v) == NativeWord(l, m, v);
      }
    }
  }

  // The effect of mov_nregs(d,s) on what s held and on s itself.
  predicate MovedTo(l0: BigState, m0: Machine, l1: BigState, m1: Machine, d: int, s: int)
    requires Shape(l0, m0) && Shape(l1, m1) && IsNreg(d) && IsNreg(s)
  {
    && (forall v | 0 <= v < VREGS && HeldBy(l0, s, v) ::
          l1.state[v] == l0.state[v].(realreg := d) && m1.home[v] == m0.home[v])
    && l1.native[d].holds == l0.native[s].holds
    && m1.regs[d] == m0.regs[s] && m1.regs[s] == m0.regs[s]
  }

  lemma HolderAt(l: BigState, m: Machine, n: int, i: int)
    requires Shape(l, m) && Links(l) && IsNreg(n) && 0 <= i < |l.native[n].holds|
    ensures IsVreg(l.native[n].holds[i]) && HeldBy(l, n, l.native[n].holds[i])
    ensures l.state[l.native[n].holds[i]].realind == i
  {
  }

  lemma MovedStep(l: BigState, m: Machine, d: int, s: int, i: int)
    requires Shape(l, m) && Links(l) && IsNreg(d) && IsNreg(s) && d != s && 0 <= i < |l.native[s].holds|
    ensures var vs := l.native[s].holds[i];
      IsVreg(vs) && MovedState(l, d, s, i + 1)
      == MovedState(l, d, s, i)[vs := MovedState(l, d, s, i)[vs].(realreg := d, realind := i)]
  {
    HolderAt(l, m, s, i);
    var vs := l.native[s].holds[i];
    forall v | 0 <= v < VREGS && v != vs && HeldBy(l, s, v)
      ensures l.state[v].realind != i
    {
      LinkAt(l, m, v);
    }
  }

  lemma MovedFrame(l0: BigState, m0: Machine, l1: BigState, m1: Machine, d: int, s: int)
    requires Shape(l0, m0) && Links(l0) && Shape(l1, m1) && Links(l1) && IsNreg(d) && IsNreg(s) && d != s
    requires l0.native[d].locked == 0
    requires FreedFrom(l0, m0, l1, m1, d, 0)
    ensures var l2 := Moved(l1, d, s);
      var m2 := m1.(regs := m1.regs[d := m1.regs[s]]);
      Shape(l2, m2) && SameLocks(l0, l2) && LockedKept(l0, m0, l2, m2, s) && MovedTo(l0, m0, l2, m2, d, s)
  {
    var l2 := Moved(l1, d, s);
    forall v | 0 <= v < VREGS && HeldBy(l0, s, v)
      ensures l2.state[v] == l0.state[v].(realreg := d)
    {
      LinkAt(l1, m1, v);
    }
  }

  lemma NothingMovedYet(l: BigState, m: Machine, d: int, s: int)
    requires Shape(l, m) && Links(l)
    ensures MovedState(l, d, s, 0) == l.state
  {
    forall v | 0 <= v < VREGS && HeldBy(l, s, v)
      ensures l.state[v].realind >= 0
    {
      LinkAt(l, m, v);
    }
  }

  // ---- forgetting and splitting ----

  lemma CleanedKeepsOthers(l0: BigState, m: Machine, r: int)
    requires Inv(l0, m) && IsVreg(r) && InReg(l0.state[r])
    ensures var l1 := l0.(state := l0.state[r :=
        l0.state[r].(validsize := 4, dirtysize := 0, val := ZERO, status := CLEAN)]);
      Inv(l1, m) && KeepsAllBut(l0, m, l1, m, r)
  {
    var l1 := l0.(state := l0.state[r :=
      l0.state[r].(validsize := 4, dirtysize := 0, val := ZERO, status := CLEAN)]);
    KeepsOthers(l0, m, l1, m, r);
    forall v | 0 <= v < VREGS
      ensures Ok(l1, v)
    {
      assert Ok(l0, v);
    }
  }

  // r has been dropped from its native register without any code being emitted.
  predicate Dropped(l0: BigState, m0: Machine, l1: BigState, m1: Machine, r: int)
    requires Shape(l0, m0) && Shape(l1, m1) && IsVreg(r)
  {
    && l1.state[r].status == INMEM && l1.state[r].val == ZERO
    && m1 == m0
    && IsNreg(l0.state[r].realreg)
    && (forall k | 0 <= k < N_REGS && k != l0.state[r].realreg :: l1.native[k] == l0.native[k])
    && |l1.native[l0.state[r].realreg].holds| == |l0.native[l0.state[r].realreg].holds| - 1
    && (forall v | 0 <= v < VREGS && v != r && !HeldBy(l0, l0.state[r].realreg, v) :: l1.state[v] == l0.state[v])
  }

  lemma KeepsAllIsBut(l0: BigState, m0: Machine, l1: BigState, m1: Machine, l2: BigState, m2: Machine, r: int)
    requires Shape(l0, m0) && Shape(l1, m1) && Shape(l2, m2)
    requires KeepsAllBut(l0, m0, l1, m1, r) && KeepsAll(l1, m1, l2, m2)
    ensures KeepsAllBut(l0, m0, l2, m2, r)
  {
    hide Keeps;
    assert KeepsAllBut(l1, m1, l2, m2, r);
    KeepsAllButTrans(l0, m0, l1, m1, l2, m2, r);
  }

  lemma LockedKeptRefl(l: BigState, m: Machine)
    requires Shape(l, m)
    ensures LockedKept(l, m, l, m, -1) && SameLocks(l, l)
  {
  }

  lemma OnlyHolder(l: BigState, m: Machine, r: int)
    requires Shape(l, m) && Links(l) && IsVreg(r) && InReg(l.state[r])
    requires forall j | 0 <= j < |l.native[l.state[r].realreg].holds| :: l.native[l.state[r].realreg].holds[j] == r
    ensures Placed(l, r, l.state[r].realreg) && l.state[r].realind == 0
  {
    LinkAt(l, m, r);
    var holds := l.native[l.state[r].realreg].holds;
    assert l.state[holds[0]].realind == 0;
    assert l.state[holds[|holds| - 1]].realind == |holds| - 1;
  }

  predicate SameHolds(l0: BigState, l1: BigState)
    requires |l0.native| == N_REGS && |l1.native| == N_REGS
  {
    forall n | 0 <= n < N_REGS :: l1.native[n].holds == l0.native[n].holds
  }

  // Locking and unlocking disturb nothing.
  lemma LocksDisturbNothing(l0: BigState, m: Machine, l1: BigState)
    requires Inv(l0, m) && Shape(l1, m) && l1.state == l0.state && SameHolds(l0, l1)
    ensures Inv(l1, m) && KeepsAll(l0, m, l1, m)
  {
    forall v | 0 <= v < VREGS
      ensures Ok(l1, v)
    {
      assert Ok(l0, v);
    }
  }

  // Giving r, alone in n, another status and n another content.
  lemma RestatusKeeps(l0: BigState, m0: Machine, r: int, n: int, s: RegStatus, w: Word)
    requires Inv(l0, m0) && Placed(l0, r, n)
    requires InReg(s) && s.realreg == n && s.realind == l0.state[r].realind
    requires IsSize(s.validsize) && (s.dirtysize == 0 || IsSize(s.dirtysize))
    requires s.status == DIRTY ==> IsSize(s.dirtysize) && Can(n, s.dirtysize)
    ensures var l1 := l0.(state := l0.state[r := s]);
      var m1 := m0.(regs := m0.regs[n := w]);
      Inv(l1, m1) && KeepsAllBut(l0, m0, l1, m1, r)
  {
    var l1 := l0.(state := l0.state[r := s]);
    var m1 := m0.(regs := m0.regs[n := w]);
    assert l0.native[n].holds[0] == r;
    forall v | 0 <= v < VREGS && v != r && InReg(l0.state[v])
      ensures l0.state[v].realreg != n
    {
      LinkAt(l0, m0, v);
    }
    KeepsOthers(l0, m0, l1, m1, r);
    forall v | 0 <= v < VREGS
      ensures Ok(l1, v)
    {
      assert Ok(l0, v);
    }
  }

  // The value of r after make_exclusive has given it a register of its own.
  lemma SplitValue(l0: BigState, m0: Machine, l1: BigState, m1: Machine, r: int)
    requires Shape(l0, m0) && Shape(l1, m1) && IsVreg(r) && InReg(l0.state[r])
    requires IsNreg(l0.state[r].realreg) && IsNreg(l1.state[r].realreg)
    requires m1.home[r] == m0.home[r] && Ok(l1, r)
    requires if l0.state[r].val == ZERO
      then l1.state[r] == l0.state[r].(realreg := l1.state[r].realreg, realind := l1.state[r].realind)
           && NativeWord(l1, m1, r) == NativeWord(l0, m0, r)
      else l1.state[r].status == DIRTY && l1.state[r].val == ZERO
           && l1.state[r].dirtysize == 4 && l1.state[r].validsize == l0.state[r].validsize
           && NativeWord(l1, m1, r) == Add(NativeWord(l0, m0, r), l0.state[r].val)
    ensures Keeps(l0, m0, l1, m1, r)
  {
    hide Add;
    AddZero(NativeWord(l1, m1, r));
  }

  predicate IsSizeOrNone(size: int) { size == 0 || IsSize(size) }

  // Some unlocked register other than x can hold operands of every size.
  ghost predicate Spare(l: BigState, x: int)
    requires |l.native| == N_REGS
  {
    exists n :: n != x && Eligible(l, n, 1)
  }

  // Some unlocked register, other than that of r if r shares it, can hold an operand of this size,
  // and what r has that memory has not if it has to move there.
  ghost predicate RoomFor(l: BigState, r: int, size: int)
    requires |l.state| == VREGS && |l.native| == N_REGS && IsVreg(r)
  {
    exists n :: (Shared(l, r) ==> n != Where(l, r)) && Eligible(l, n, size) && CanMoveTo(l, r, n)
  }

  predicate CanMoveTo(l: BigState, r: int, n: int)
    requires |l.state| == VREGS && |l.native| == N_REGS && IsVreg(r)
  {
    Shared(l, r) && l.state[r].status == DIRTY ==> Can(n, l.state[r].dirtysize)
  }

  lemma SpareIsRoom(l: BigState, m: Machine, r: int, size: int)
    requires Inv(l, m) && IsVreg(r) && IsSize(size) && Spare(l, Where(l, r))
    ensures RoomFor(l, r, size)
  {
    OkAt(l, m, r);
    var n :| n != Where(l, r) && Eligible(l, n, 1);
    assert Eligible(l, n, size) && CanMoveTo(l, r, n);
  }

  // Locks alone decide about it, once r does not share a register.
  lemma RoomStillThere(l0: BigState, l1: BigState, r: int, size: int)
    requires |l0.state| == |l1.state| == VREGS && |l0.native| == N_REGS && |l1.native| == N_REGS && IsVreg(r)
    requires RoomFor(l0, r, size) && SameLocks(l0, l1)
    ensures exists n :: Eligible(l1, n, size)
    ensures exists n :: Eligible(l1, n, 4)
  {
    var n :| (Shared(l0, r) ==> n != Where(l0, r)) && Eligible(l0, n, size) && CanMoveTo(l0, r, n);
    assert Eligible(l1, n, size) && Eligible(l1, n, 4);
  }

  lemma RoomToDetach(l0: BigState, l2: BigState, r: int)
    requires |l0.state| == |l2.state| == VREGS && |l0.native| == N_REGS && |l2.native| == N_REGS && IsVreg(r)
    requires RoomFor(l0, r, 4) && Shared(l0, r)
    requires forall n | 0 <= n < N_REGS && n != Where(l0, r) :: l2.native[n].locked == l0.native[n].locked
    ensures exists n :: Eligible(l2, n, 4)
    ensures l0.state[r].status == DIRTY ==> exists n :: Eligible(l2, n, l0.state[r].dirtysize)
  {
    var n :| n != Where(l0, r) && Eligible(l0, n, 4) && CanMoveTo(l0, r, n);
    assert Eligible(l2, n, 4);
    if l0.state[r].status == DIRTY { assert Eligible(l2, n, l0.state[r].dirtysize); }
  }

  lemma RoomForWord(l: BigState, r: int, size: int)
    requires |l.state| == VREGS && |l.native| == N_REGS && IsVreg(r) && RoomFor(l, r, size)
    ensures RoomFor(l, r, 4)
  {
    var n :| (Shared(l, r) ==> n != Where(l, r)) && Eligible(l, n, size) && CanMoveTo(l, r, n);
    assert Eligible(l, n, 4);
  }

  // v can leave the register it shares with r at no cost.
  predicate Idles(l: BigState, r: int, v: int)
    requires |l.state| == VREGS && IsVreg(v)
  {
    v == r || (l.state[v].status != DIRTY && l.state[v].val == ZERO)
  }

  // r shares a register that it cannot keep for itself when `size` bytes of it are overwritten.
  predicate MustMove(l: BigState, r: int, size: int)
    requires |l.state| == VREGS && |l.native| == N_REGS && IsVreg(r)
  {
    Shared(l, r) && !(size < l.state[r].validsize && l.native[l.state[r].realreg].locked == 0
                      && forall v | 0 <= v < VREGS && HeldBy(l, l.state[r].realreg, v) :: Idles(l, r, v))
  }

  // The holders of a register are those that say so.
  lemma AllIdle(l: BigState, m: Machine, r: int, n: int)
    requires Shape(l, m) && Links(l) && IsVreg(r) && IsNreg(n)
    ensures forall j | 0 <= j < |l.native[n].holds| :: IsVreg(l.native[n].holds[j])
    ensures (forall j | 0 <= j < |l.native[n].holds| :: Idles(l, r, l.native[n].holds[j]))
       <==> (forall v | 0 <= v < VREGS && HeldBy(l, n, v) :: Idles(l, r, v))
  {
    forall j | 0 <= j < |l.native[n].holds|
      ensures HeldBy(l, n, l.native[n].holds[j])
    {
      HolderAt(l, m, n, j);
    }
    forall v | 0 <= v < VREGS && HeldBy(l, n, v)
      ensures v in l.native[n].holds
    {
      LinkAt(l, m, v);
    }
  }

  // r has its native register for itself, or can have it, and all of it is valid.
  predicate Own(l: BigState, r: int)
    requires |l.state| == VREGS && |l.native| == N_REGS && IsVreg(r)
  {
    InReg(l.state[r]) && !MustMove(l, r, 0) && l.state[r].validsize == 4
  }

  // r is in a native register that serves for an access of this size.
  predicate InFit(l: BigState, r: int, size: int, spec: int)
    requires |l.state| == VREGS && IsVreg(r)
  {
    InReg(l.state[r]) && (Can(l.state[r].realreg, size) || spec >= 0)
  }

  // The accesses for which nothing has to be loaded or moved.
  predicate ReadAtHand(l: BigState, r: int, size: int, spec: int, canOffset: bool)
    requires |l.state| == VREGS && |l.native| == N_REGS && IsVreg(r)
  {
    && InFit(l, r, size, spec) && size <= l.state[r].validsize
    && (canOffset || l.state[r].val == ZERO || Own(l, r))
  }

  predicate WriteAtHand(l: BigState, r: int, size: int, spec: int)
    requires |l.state| == VREGS && |l.native| == N_REGS && IsVreg(r)
  {
    InFit(l, r, size, spec) && !MustMove(l, r, size) && (size == 4 || l.state[r].val == ZERO || Own(l, r))
  }

  predicate RmwAtHand(l: BigState, r: int, size: int, spec: int)
    requires |l.state| == VREGS && |l.native| == N_REGS && IsVreg(r)
  {
    && InFit(l, r, size, spec) && !MustMove(l, r, 0) && size <= l.state[r].validsize
    && (l.state[r].val == ZERO || Own(l, r))
  }

  // r is up to date in memory and in no native register.
  predicate Claims(l: BigState, r: int)
    requires |l.state| == VREGS && IsVreg(r)
  {
    l.state[r].status == INMEM && l.state[r].val == ZERO
  }

  // It has been given the native register n for a write of `size` bytes, no more of which are valid.
  predicate Claimed(l0: BigState, m0: Machine, l1: BigState, m1: Machine, r: int, size: int, n: int)
    requires Shape(l0, m0) && Shape(l1, m1) && IsVreg(r) && IsNreg(n)
  {
    && InReg(l1.state[r]) && l1.state[r].validsize == size && l1.state[r].realreg == n
    && (l0.native[n].holds == [] ==> m1 == m0)
  }

  // A native register that the caller may insist on: an unlocked one, or that of r if r stays there.
  predicate MaySpecify(l: BigState, r: int, spec: int, size: int, stays: bool)
    requires |l.state| == VREGS && |l.native| == N_REGS && IsVreg(r)
  {
    spec >= 0 ==>
      IsNreg(spec) && Can(spec, size) && (l.native[spec].locked == 0 || (stays && spec == Where(l, r)))
  }

  lemma SpecifiedAt(l0: BigState, l1: BigState, r: int, spec: int, size: int, stays: bool, answer: int)
    requires |l0.state| == VREGS && |l0.native| == |l1.native| == N_REGS && IsVreg(r) && IsSize(size)
    requires MaySpecify(l0, r, spec, size, stays) && SameLocks(l0, l1)
    requires stays ==> answer == Where(l0, r)
    ensures spec >= 0 ==> IsNreg(spec) && Can(spec, size)
    ensures spec >= 0 ==> spec == answer || l1.native[spec].locked == 0
  {
  }

  lemma OkAt(l: BigState, m: Machine, r: int)
    requires Inv(l, m) && IsVreg(r)
    ensures Ok(l, r)
    ensures var s := l.state[r];
      InReg(s) ==>
        && IsNreg(s.realreg) && IsSize(s.validsize)
        && (|l.native[s.realreg].holds| != 1 ==> s.validsize == 4)
        && (s.dirtysize == 0 || IsSize(s.dirtysize))
        && (s.status == DIRTY ==> IsSize(s.dirtysize) && Can(s.realreg, s.dirtysize))
  {
    if InReg(l.state[r]) { LinkAt(l, m, r); }
  }

  // r has been taken out of the still locked rr and owns nr.
  predicate Detached(l0: BigState, m0: Machine, l1: BigState, m1: Machine, r: int, rr: int, nr: int)
    requires Shape(l0, m0) && Shape(l1, m1) && IsVreg(r) && IsNreg(rr)
  {
    && Placed(l1, r, nr) && nr != rr && l1.native[nr].locked == 0
    && m1.regs[rr] == m0.regs[rr] && m1.home[r] == m0.home[r]
    && l1.native[rr].locked == l0.native[rr].locked + 1
    && (forall n | 0 <= n < N_REGS && n != rr :: l1.native[n].locked == l0.native[n].locked)
    && KeepsAllBut(l0, m0, l1, m1, r) && LockedKept(l0, m0, l1, m1, rr)
  }

  lemma DetachDone(l0: BigState, m0: Machine, l1: BigState, l2: BigState, l3: BigState, m3: Machine,
                   r: int, rr: int, nr: int)
    requires Shape(l0, m0) && Shape(l1, m0) && Shape(l2, m0) && Shape(l3, m3)
    requires IsVreg(r) && IsNreg(rr)
    requires l1 == l0.(native := l0.native[rr := l0.native[rr].(locked := l0.native[rr].locked + 1)])
    requires KeepsAll(l0, m0, l1, m0) && KeepsAllBut(l1, m0, l2, m0, r) && KeepsAllBut(l2, m0, l3, m3, r)
    requires SameLocks(l1, l2) && SameLocks(l2, l3)
    requires LockedKept(l1, m0, l2, m0, rr) && LockedKept(l2, m0, l3, m3, -1)
    requires Placed(l3, r, nr) && l3.native[nr].locked == 0 && m3.home[r] == m0.home[r]
    ensures Detached(l0, m0, l3, m3, r, rr, nr)
  {
    hide Keeps;
    KeepsAllButTrans(l1, m0, l2, m0, l3, m3, r);
    assert KeepsAllBut(l0, m0, l1, m0, r);
    KeepsAllButTrans(l0, m0, l1, m0, l3, m3, r);
    LockedKeptTrans(l1, m0, l2, m0, l3, m3, rr);
    forall n | 0 <= n < N_REGS && l0.native[n].locked > 0 && n != rr
      ensures forall v | 0 <= v < VREGS && HeldBy(l0, n, v) :: l3.state[v] == l0.state[v]
    {
      assert l1.native[n].locked > 0;
      forall v | 0 <= v < VREGS && HeldBy(l0, n, v)
        ensures l3.state[v] == l0.state[v]
      {
        assert HeldBy(l1, n, v);
      }
    }
  }

  // Filling nr and unlocking rr.
  lemma SplitDone(l0: BigState, m0: Machine, l3: BigState, m3: Machine, l4: BigState, l5: BigState, m5: Machine,
                  r: int, rr: int, nr: int)
    requires Shape(l0, m0) && Shape(l3, m3) && Shape(l4, m5) && Shape(l5, m5)
    requires IsVreg(r) && IsNreg(rr) && IsNreg(nr) && HeldBy(l0, rr, r)
    requires Detached(l0, m0, l3, m3, r, rr, nr)
    requires KeepsAllBut(l3, m3, l4, m5, r) && KeepsAll(l4, m5, l5, m5)
    requires l4 == l3.(state := l3.state[r := l4.state[r]]) && m5 == m3.(regs := m3.regs[nr := m5.regs[nr]])
    requires l5 == l4.(native := l4.native[rr := l4.native[rr].(locked := l4.native[rr].locked - 1)])
    ensures KeepsAllBut(l0, m0, l5, m5, r)
    ensures SameLocks(l0, l5) && LockedKept(l0, m0, l5, m5, rr)
  {
    hide Keeps;
    KeepsAllIsBut(l3, m3, l4, m5, l5, m5, r);
    KeepsAllButTrans(l0, m0, l3, m3, l5, m5, r);
  }

  lemma LockedWord(l0: BigState, m0: Machine, l1: BigState, m1: Machine, x: int, n: int)
    requires Shape(l0, m0) && Shape(l1, m1) && LockedKept(l0, m0, l1, m1, x)
    requires IsNreg(n) && l0.native[n].locked > 0
    ensures m1.regs[n] == m0.regs[n]
  {
  }

  // The native register r sits in, or -1.
  function Where(l: BigState, r: int): int
    requires |l.state| == VREGS && IsVreg(r)
  {
    if InReg(l.state[r]) then l.state[r].realreg else -1
  }

  predicate Shared(l: BigState, r: int)
    requires |l.state| == VREGS && |l.native| == N_REGS && IsVreg(r)
  {
    InReg(l.state[r]) && IsNreg(l.state[r].realreg) && |l.native[l.state[r].realreg].holds| != 1
  }

  predicate LockedAlone(l: BigState, r: int)
    requires |l.state| == VREGS && |l.native| == N_REGS && IsVreg(r)
  {
    InReg(l.state[r]) && IsNreg(l.state[r].realreg)
    && |l.native[l.state[r].realreg].holds| == 1 && l.native[l.state[r].realreg].locked > 0
  }

  // An exception for an unlocked register is no exception.
  lemma LockedKeptUnlocked(l0: BigState, m0: Machine, l1: BigState, m1: Machine, x: int, y: int)
    requires Shape(l0, m0) && Shape(l1, m1) && LockedKept(l0, m0, l1, m1, x)
    requires x == y || (IsNreg(x) ==> l0.native[x].locked == 0)
    ensures LockedKept(l0, m0, l1, m1, y)
  {
  }

  lemma LockedKeptMore(l0: BigState, m0: Machine, l1: BigState, m1: Machine, x: int)
    requires Shape(l0, m0) && Shape(l1, m1) && LockedKept(l0, m0, l1, m1, -1)
    ensures LockedKept(l0, m0, l1, m1, x)
  {
  }

  lemma EvictedInMemory(l0: BigState, m0: Machine, l1: BigState, m1: Machine, r: int)
    requires Shape(l0, m0) && Links(l0) && Shape(l1, m1) && IsVreg(r) && InReg(l0.state[r])
    requires Evicted(l0, m0, l1, m1, r)
    ensures !InReg(l1.state[r]) && (l1.state[r].val == ZERO || l1.state[r].val == l0.state[r].val)
    ensures SameLocks(l0, l1)
  {
  }

  // Folding an offset into an unlocked register leaves the locked ones alone.
  lemma FoldLockedKept(l0: BigState, m0: Machine, l1: BigState, m1: Machine, r: int)
    requires Shape(l0, m0) && Shape(l1, m1) && IsVreg(r) && InReg(l0.state[r]) && IsNreg(l0.state[r].realreg)
    requires l0.native[l0.state[r].realreg].locked == 0
    requires l1 == l0.(state := l0.state[r := l1.state[r]])
    requires m1 == m0.(regs := m0.regs[l0.state[r].realreg := m1.regs[l0.state[r].realreg]])
    ensures SameLocks(l0, l1) && LockedKept(l0, m0, l1, m1, -1)
  {
  }

  // make_exclusive(r) after r has possibly been loaded into an unlocked register.
  lemma ExclusiveStep(l0: BigState, m0: Machine, l1: BigState, m1: Machine, l2: BigState, m2: Machine, r: int, x: int)
    requires Shape(l0, m0) && Shape(l1, m1) && Shape(l2, m2) && IsVreg(r)
    requires SameLocks(l0, l1) && LockedKept(l0, m0, l1, m1, x)
    requires SameLocks(l1, l2) && LockedKept(l1, m1, l2, m2, Where(l1, r))
    requires Where(l1, r) == x || (IsNreg(Where(l1, r)) ==> l1.native[Where(l1, r)].locked == 0)
    ensures SameLocks(l0, l2) && LockedKept(l0, m0, l2, m2, x)
  {
    LockedKeptUnlocked(l1, m1, l2, m2, Where(l1, r), x);
    LockedKeptTrans(l0, m0, l1, m1, l2, m2, x);
  }

  // ---- what the readers and writers of a register are promised ----

  // The low bytes of the native register of r, plus the offset still pending, are r's value.
  lemma ReadValue(l: BigState, m: Machine, r: int, size: int)
    requires Inv(l, m) && IsVreg(r) && InReg(l.state[r]) && Coh(l, m, r)
    requires IsSize(size) && size <= l.state[r].validsize
    ensures Agree(r, 0, size, Add(NativeWord(l, m, r), l.state[r].val), LogVal(l, m, r))
  {
    hide Add;
    OkAt(l, m, r);
    AddZero(NativeWord(l, m, r));
    AddZero(Merge(m.home[r], NativeWord(l, m, r), l.state[r].validsize));
  }

  predicate LockedOneMore(l0: BigState, l1: BigState, n: int)
    requires |l0.native| == N_REGS && |l1.native| == N_REGS
  {
    IsNreg(n) && forall k | 0 <= k < N_REGS ::
      l1.native[k].locked == l0.native[k].locked + if k == n then 1 else 0
  }

  // Taking one more lock after a step that changed no locks.
  lemma LockAfterStep(l0: BigState, m0: Machine, l1: BigState, m1: Machine, l2: BigState, n: int, x: int)
    requires Shape(l0, m0) && Inv(l1, m1) && Shape(l2, m1) && IsNreg(n)
    requires SameLocks(l0, l1) && LockedKept(l0, m0, l1, m1, x)
    requires l2.state == l1.state && SameHolds(l1, l2)
    requires forall k | 0 <= k < N_REGS :: l2.native[k].locked == l1.native[k].locked + if k == n then 1 else 0
    ensures Inv(l2, m1) && KeepsAll(l1, m1, l2, m1) && LockedOneMore(l0, l2, n) && LockedKept(l0, m0, l2, m1, x)
  {
    LocksDisturbNothing(l1, m1, l2);
  }

  lemma LogValLocks(l1: BigState, m: Machine, l2: BigState, r: int)
    requires Shape(l1, m) && Shape(l2, m) && IsVreg(r) && l2.state == l1.state
    ensures LogVal(l2, m, r) == LogVal(l1, m, r) && (Coh(l1, m, r) <==> Coh(l2, m, r))
  {
  }

  lemma ReadBack(l0: BigState, m0: Machine, l1: BigState, m1: Machine, r: int, size: int)
    requires Shape(l0, m0) && Inv(l1, m1) && IsVreg(r) && Keeps(l0, m0, l1, m1, r)
    requires InReg(l1.state[r]) && IsSize(size) && size <= l1.state[r].validsize
    ensures Coh(l0, m0, r) ==>
      Coh(l1, m1, r) && Agree(r, 0, size, Add(NativeWord(l1, m1, r), l1.state[r].val), LogVal(l0, m0, r))
  {
    hide Add, LogVal, Ok;
    if Coh(l0, m0, r) {
      ReadValue(l1, m1, r, size);
    }
  }

  // A step on behalf of r: every logical value is kept, locked registers are respected, and r is
  // still in x or now in no locked register.
  predicate Step(l0: BigState, m0: Machine, l1: BigState, m1: Machine, r: int, x: int)
    requires Shape(l0, m0) && IsVreg(r)
  {
    && Inv(l1, m1)
    && KeepsAllBut(l0, m0, l1, m1, r) && Keeps(l0, m0, l1, m1, r)
    && SameLocks(l0, l1) && LockedKept(l0, m0, l1, m1, x)
    && (Where(l1, r) == x || (IsNreg(Where(l1, r)) ==> l1.native[Where(l1, r)].locked == 0))
  }

  lemma StepRefl(l: BigState, m: Machine, r: int)
    requires Inv(l, m) && IsVreg(r)
    ensures Step(l, m, l, m, r, Where(l, r))
  {
    hide Keeps, Links, Ok;
    KeepsAllRefl(l, m);
    KeepsAllSplit(l, m, l, m, r);
    LockedKeptRefl(l, m);
    LockedKeptMore(l, m, l, m, Where(l, r));
  }

  lemma StepThen(l0: BigState, m0: Machine, l1: BigState, m1: Machine, l2: BigState, m2: Machine, r: int, x: int)
    requires Shape(l0, m0) && Shape(l1, m1) && IsVreg(r)
    requires Step(l0, m0, l1, m1, r, x) && Step(l1, m1, l2, m2, r, Where(l1, r))
    ensures Step(l0, m0, l2, m2, r, x)
  {
    hide Keeps, Links, Ok, LockedKept;
    KeepsAllButTrans(l0, m0, l1, m1, l2, m2, r);
    KeepsTrans(l0, m0, l1, m1, l2, m2, r);
    ExclusiveStep(l0, m0, l1, m1, l2, m2, r, x);
  }

  lemma StepInv(l0: BigState, m0: Machine, l1: BigState, m1: Machine, r: int, x: int)
    requires Shape(l0, m0) && IsVreg(r) && Step(l0, m0, l1, m1, r, x)
    ensures Inv(l1, m1) && SameLocks(l0, l1)
  {
  }

  // ---- writing ----

  function Max(x: int, y: int): int { if x > y then x else y }

  lemma BentRefl(l: BigState, m: Machine, r: int)
    requires Shape(l, m) && IsVreg(r)
    ensures KeepsBent(l, m, l, m, r)
  {
  }

  // l0 to l1 evicts r if it is bent.
  lemma OffsetGone(l0: BigState, m0: Machine, l1: BigState, m1: Machine, l2: BigState, m2: Machine, r: int, x: int)
    requires Shape(l0, m0) && Shape(l1, m1) && Shape(l2, m2) && IsVreg(r)
    requires Step(l1, m1, l2, m2, r, Where(l1, r)) && KeepsBent(l0, m0, l1, m1, r)
    requires Bent(l0.state[r]) ==> !InReg(l1.state[r])
    ensures KeepsBent(l0, m0, l2, m2, r)
  {
    hide Keeps, KeepsBent, KeepsAllBut, LockedKept, Inv;
    if Bent(l0.state[r]) {
      UnbentThen(l0, m0, l1, m1, l2, m2, r);
    } else {
      NotBent(l0, m0, l2, m2, r);
    }
  }

  lemma NotBent(l0: BigState, m0: Machine, l1: BigState, m1: Machine, r: int)
    requires Shape(l0, m0) && Shape(l1, m1) && IsVreg(r) && !Bent(l0.state[r])
    ensures KeepsBent(l0, m0, l1, m1, r)
  {
  }

  // A step after which r may have lost its value.
  predicate StepBut(l0: BigState, m0: Machine, l1: BigState, m1: Machine, r: int, x: int)
    requires Shape(l0, m0) && IsVreg(r)
  {
    && Inv(l1, m1)
    && KeepsAllBut(l0, m0, l1, m1, r)
    && SameLocks(l0, l1) && LockedKept(l0, m0, l1, m1, x)
    && (Where(l1, r) == x || (IsNreg(Where(l1, r)) ==> l1.native[Where(l1, r)].locked == 0))
  }

  lemma StepIsBut(l0: BigState, m0: Machine, l1: BigState, m1: Machine, r: int, x: int)
    requires Shape(l0, m0) && IsVreg(r) && Step(l0, m0, l1, m1, r, x)
    ensures StepBut(l0, m0, l1, m1, r, x) && Shape(l1, m1) && Keeps(l0, m0, l1, m1, r)
  {
    hide Keeps, Links, Ok, LockedKept;
  }

  lemma StepButThen(l0: BigState, m0: Machine, l1: BigState, m1: Machine, l2: BigState, m2: Machine, r: int, x: int)
    requires Shape(l0, m0) && Shape(l1, m1) && IsVreg(r)
    requires StepBut(l0, m0, l1, m1, r, x) && StepBut(l1, m1, l2, m2, r, Where(l1, r))
    ensures StepBut(l0, m0, l2, m2, r, x)
  {
    hide Keeps, Links, Ok, LockedKept;
    KeepsAllButTrans(l0, m0, l1, m1, l2, m2, r);
    ExclusiveStep(l0, m0, l1, m1, l2, m2, r, x);
  }

  lemma StepButInv(l0: BigState, m0: Machine, l1: BigState, m1: Machine, r: int, x: int)
    requires Shape(l0, m0) && IsVreg(r) && StepBut(l0, m0, l1, m1, r, x)
    ensures Inv(l1, m1) && SameLocks(l0, l1)
  {
  }

  // r is where its low `size` bytes will be overwritten; its higher bytes are still those of before.
  predicate WriteReady(l0: BigState, m0: Machine, l1: BigState, m1: Machine, r: int, size: int)
    requires Shape(l0, m0) && Shape(l1, m1) && IsVreg(r)
  {
    var s := l1.state[r];
    && InReg(s) && size <= s.validsize && size <= s.dirtysize
    && (size < 4 ==> s.val == ZERO)
    && (size < 4 && Coh(l0, m0, r) ==>
          && s.dirtysize <= s.validsize
          && Agree(r, s.dirtysize, s.validsize, m1.home[r], NativeWord(l1, m1, r))
          && Agree(r, size, 4, LogVal(l1, m1, r), LogVal(l0, m0, r)))
  }

  lemma MarkReady(l0: BigState, m0: Machine, l1: BigState, m1: Machine, r: int, size: int)
    requires Shape(l0, m0) && Shape(l1, m1) && IsVreg(r) && IsSize(size)
    requires InReg(l1.state[r]) && Ok(l1, r)
    requires size < 4 ==> Keeps(l0, m0, l1, m1, r) && l1.state[r].val == ZERO
    ensures var s := l1.state[r];
      var l2 := l1.(state := l1.state[r := s.(dirtysize := Max(size, s.dirtysize),
                                              validsize := Max(size, s.validsize))]);
      WriteReady(l0, m0, l2, m1, r, size)
  {
    hide Add;
    var s := l1.state[r];
    var l2 := l1.(state := l1.state[r := s.(dirtysize := Max(size, s.dirtysize), validsize := Max(size, s.validsize))]);
    AddZero(Merge(m1.home[r], NativeWord(l1, m1, r), s.validsize));
    AddZero(Merge(m1.home[r], NativeWord(l1, m1, r), Max(size, s.validsize)));
  }

  lemma ClaimReady(l0: BigState, m0: Machine, l1: BigState, m1: Machine, l2: BigState, m2: Machine, r: int, size: int)
    requires Shape(l0, m0) && Shape(l1, m1) && Shape(l2, m2) && IsVreg(r) && IsSize(size)
    requires InReg(l2.state[r]) && l2.state[r].val == ZERO && Coh(l2, m2, r)
    requires l2.state[r].status == DIRTY && l2.state[r].validsize == l2.state[r].dirtysize
    requires size <= l2.state[r].dirtysize && !InReg(l1.state[r])
    requires size < 4 ==> Keeps(l0, m0, l1, m1, r) && (l1.state[r].status == ISCONST || l1.state[r].val == ZERO)
    requires l1.state[r].status == ISCONST || (l1.state[r].status == INMEM && l1.state[r].val == ZERO) ==>
      Agree(r, size, 4, LogVal(l2, m2, r), LogVal(l1, m1, r))
    ensures WriteReady(l0, m0, l2, m2, r, size)
  {
    hide LogVal;
    if size < 4 && Coh(l0, m0, r) {
      AgreeTrans(r, size, 4, LogVal(l2, m2, r), LogVal(l1, m1, r), LogVal(l0, m0, r));
    }
  }

  // Moving r keeps it ready, and so does declaring it dirty.
  lemma FinishReady(l0: BigState, m0: Machine, l1: BigState, m1: Machine, l2: BigState, m2: Machine, r: int, size: int)
    requires Shape(l0, m0) && Shape(l1, m1) && Shape(l2, m2) && IsVreg(r) && IsSize(size)
    requires WriteReady(l0, m0, l1, m1, r, size) && Ok(l1, r)
    requires l2.state[r] == l1.state[r].(realreg := l2.state[r].realreg, status := DIRTY,
                                         val := if size == 4 then ZERO else l1.state[r].val)
    requires m2.home[r] == m1.home[r] && NativeWord(l2, m2, r) == NativeWord(l1, m1, r)
    ensures size == 4 || Coh(l0, m0, r) ==> Coh(l2, m2, r)
    ensures size < 4 && Coh(l0, m0, r) ==> Agree(r, size, 4, LogVal(l2, m2, r), LogVal(l0, m0, r))
  {
    hide Add;
  }

  lemma LockAfterStepBut(l0: BigState, m0: Machine, l1: BigState, m1: Machine, l2: BigState, r: int, n: int, x: int)
    requires Shape(l0, m0) && IsVreg(r) && Shape(l2, m1) && IsNreg(n)
    requires StepBut(l0, m0, l1, m1, r, x)
    requires l2.state == l1.state && SameHolds(l1, l2)
    requires forall k | 0 <= k < N_REGS :: l2.native[k].locked == l1.native[k].locked + if k == n then 1 else 0
    ensures Inv(l2, m1) && KeepsAllBut(l0, m0, l2, m1, r)
    ensures LockedOneMore(l0, l2, n) && LockedKept(l0, m0, l2, m1, x)
  {
    hide Keeps, Links, Ok;
    LocksDisturbNothing(l1, m1, l2);
    KeepsAllIsBut(l0, m0, l1, m1, l2, m1, r);
  }

  // ---- reading and writing at once ----

  lemma ButIsStep(l0: BigState, m0: Machine, l1: BigState, m1: Machine, r: int, x: int)
    requires Shape(l0, m0) && Shape(l1, m1) && IsVreg(r)
    requires StepBut(l0, m0, l1, m1, r, x) && Keeps(l0, m0, l1, m1, r)
    ensures Step(l0, m0, l1, m1, r, x)
  {
    hide Keeps, Links, Ok, LockedKept;
  }

  // Declaring wsize bytes of r dirty, rsize of which are already valid.
  lemma RmwMark(l1: BigState, m1: Machine, l2: BigState, m2: Machine, r: int, wsize: int, rsize: int)
    requires Shape(l1, m1) && Shape(l2, m2) && IsVreg(r) && Coh(l1, m1, r)
    requires IsSize(wsize) && IsSize(rsize) && rsize <= wsize && IsSize(l1.state[r].validsize)
    requires InReg(l1.state[r]) && rsize <= l1.state[r].validsize && l1.state[r].val == ZERO
    requires l2.state[r] == l1.state[r].(realreg := l2.state[r].realreg, status := DIRTY,
      dirtysize := Max(wsize, l1.state[r].dirtysize), validsize := Max(wsize, l1.state[r].validsize))
    requires m2.home[r] == m1.home[r] && NativeWord(l2, m2, r) == NativeWord(l1, m1, r)
    ensures Coh(l2, m2, r)
    ensures Agree(r, 0, rsize, NativeWord(l2, m2, r), LogVal(l1, m1, r))
    ensures Agree(r, wsize, 4, LogVal(l2, m2, r), LogVal(l1, m1, r))
    ensures rsize == wsize ==> LogVal(l2, m2, r) == LogVal(l1, m1, r)
  {
    hide Add;
    var x := NativeWord(l1, m1, r);
    AddZero(Merge(m1.home[r], x, l1.state[r].validsize));
    AddZero(Merge(m1.home[r], x, l2.state[r].validsize));
  }

  lemma RmwValue(l0: BigState, m0: Machine, l1: BigState, m1: Machine, l2: BigState, m2: Machine,
                 r: int, wsize: int, rsize: int)
    requires Shape(l0, m0) && Inv(l1, m1) && Shape(l2, m2) && IsVreg(r) && Keeps(l0, m0, l1, m1, r)
    requires IsSize(wsize) && IsSize(rsize) && rsize <= wsize
    requires InReg(l1.state[r]) && rsize <= l1.state[r].validsize && l1.state[r].val == ZERO
    requires l2.state[r] == l1.state[r].(realreg := l2.state[r].realreg, status := DIRTY,
      dirtysize := Max(wsize, l1.state[r].dirtysize), validsize := Max(wsize, l1.state[r].validsize))
    requires m2.home[r] == m1.home[r] && NativeWord(l2, m2, r) == NativeWord(l1, m1, r)
    ensures Coh(l0, m0, r) ==>
      && Coh(l2, m2, r)
      && Agree(r, 0, rsize, NativeWord(l2, m2, r), LogVal(l0, m0, r))
      && Agree(r, wsize, 4, LogVal(l2, m2, r), LogVal(l0, m0, r))
      && (rsize == wsize ==> Same(r, LogVal(l2, m2, r), LogVal(l0, m0, r)))
  {
    hide LogVal, Ok, Links;
    OkAt(l1, m1, r);
    if Coh(l0, m0, r) {
      RmwMark(l1, m1, l2, m2, r, wsize, rsize);
    }
  }

  lemma StepParts(l0: BigState, m0: Machine, l1: BigState, m1: Machine, r: int, x: int)
    requires Shape(l0, m0) && IsVreg(r) && Step(l0, m0, l1, m1, r, x)
    ensures Shape(l1, m1) && KeepsAllBut(l0, m0, l1, m1, r) && Keeps(l0, m0, l1, m1, r)
    ensures LockedKept(l0, m0, l1, m1, x)
  {
  }
}
