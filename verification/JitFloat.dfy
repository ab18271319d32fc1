// The lazy allocator for FP registers, on top of the flat register file that the x87 stack stands
// for: virtual registers in memory or in native registers, which they may share. Memory is narrower
// than a register, so storing rounds.

module JitFloat {
  import opened Options
  import X87

  datatype Status = UNDEF | INMEM | CLEAN | DIRTY

  datatype FReg = FReg(status: Status, realreg: int, realind: int)

  datatype FNat = FNat(holds: seq<int>, locked: nat, touched: nat)

  datatype Live = Live(fate: seq<FReg>, fat: seq<FNat>, touchcnt: nat)

  // Native registers with contents, the home of each virtual register in memory, what a store makes of a
  // value: a double of it, or the value itself where memory is as wide as a register; and what a native
  // register counts as holding that is not on the stack.
  datatype Machine<!F> = Machine(regs: map<int, F>, mem: seq<F>, round: F -> F, blank: F)

  // What has been rounded stays as it is.
  ghost predicate RoundsOnce<F(!new)>(round: F -> F) { forall x :: round(round(x)) == round(x) }

  predicate InReg(l: Live, r: int)
    requires 0 <= r < |l.fate|
  {
    l.fate[r].status == CLEAN || l.fate[r].status == DIRTY
  }

  // What a virtual register records, and what the native register holds, say the same.
  ghost predicate Links(l: Live) {
    && (forall r | 0 <= r < |l.fate| && InReg(l, r) ::
          && 0 <= l.fate[r].realreg < |l.fat|
          && 0 <= l.fate[r].realind < |l.fat[l.fate[r].realreg].holds|
          && l.fat[l.fate[r].realreg].holds[l.fate[r].realind] == r)
    && (forall n, i | 0 <= n < |l.fat| && 0 <= i < |l.fat[n].holds| ::
          var v := l.fat[n].holds[i];
          0 <= v < |l.fate| && InReg(l, v) && l.fate[v].realreg == n && l.fate[v].realind == i)
  }

  // Registers in use have contents, memory holds rounded values, and that of a clean register is what
  // storing it would leave there.
  ghost predicate Coherent<F(!new)>(l: Live, m: Machine<F>) {
    && |m.mem| == |l.fate|
    && (forall r | 0 <= r < |l.fate| && InReg(l, r) :: l.fate[r].realreg in m.regs)
    && (forall r | 0 <= r < |l.fate| && l.fate[r].status == CLEAN :: m.mem[r] == m.round(m.regs[l.fate[r].realreg]))
    && (forall r | 0 <= r < |m.mem| :: m.round(m.mem[r]) == m.mem[r]) && RoundsOnce(m.round)
  }

  ghost predicate Ok<F(!new)>(l: Live, m: Machine<F>) { Links(l) && Coherent(l, m) }

  function Value<F>(l: Live, m: Machine<F>, r: int): F
    requires 0 <= r < |l.fate| == |m.mem| && (InReg(l, r) ==> l.fate[r].realreg in m.regs)
  {
    if InReg(l, r) then m.regs[l.fate[r].realreg] else m.mem[r]
  }

  // What becomes of a value x that v had: it is rounded if v is in no native register any more.
  function Carried<F>(l: Live, m: Machine<F>, v: int, x: F): F
    requires 0 <= v < |l.fate|
  {
    if InReg(l, v) then x else m.round(x)
  }

  // Every register but those in xs keeps its value, rounded if it had to be stored, and none of them
  // comes into a native register.
  ghost predicate ValuesKept<F(!new)>(l0: Live, m0: Machine<F>, l1: Live, m1: Machine<F>, xs: set<int>)
    requires Ok(l0, m0) && Ok(l1, m1)
  {
    && |l1.fate| == |l0.fate| && |l1.fat| == |l0.fat| && m1.round == m0.round
    && (forall v | 0 <= v < |l0.fate| && v !in xs && l0.fate[v].status != UNDEF ::
          && l1.fate[v].status != UNDEF && (InReg(l1, v) ==> InReg(l0, v))
          && Value(l1, m1, v) == Carried(l1, m1, v, Value(l0, m0, v)))
  }

  lemma ValuesKeptOn<F(!new)>(l0: Live, m0: Machine<F>, l1: Live, m1: Machine<F>, l2: Live, m2: Machine<F>,
                              xs: set<int>)
    requires Ok(l0, m0) && Ok(l1, m1) && Ok(l2, m2)
    requires ValuesKept(l0, m0, l1, m1, xs) && ValuesKept(l1, m1, l2, m2, xs)
    ensures ValuesKept(l0, m0, l2, m2, xs)
  {
    assert RoundsOnce(m0.round);
    hide Links, Coherent, Value;
    forall v | 0 <= v < |l0.fate| && v !in xs && l0.fate[v].status != UNDEF
      ensures l2.fate[v].status != UNDEF && (InReg(l2, v) ==> InReg(l0, v))
      ensures Value(l2, m2, v) == Carried(l2, m2, v, Value(l0, m0, v))
    {
      var x := Value(l0, m0, v);
      assert m0.round(m0.round(x)) == m0.round(x);
      assert Value(l1, m1, v) == Carried(l1, m1, v, x);
    }
  }

  lemma ValuesKeptMore<F(!new)>(l0: Live, m0: Machine<F>, l1: Live, m1: Machine<F>, xs: set<int>, ys: set<int>)
    requires Ok(l0, m0) && Ok(l1, m1) && ValuesKept(l0, m0, l1, m1, xs) && xs <= ys
    ensures ValuesKept(l0, m0, l1, m1, ys)
  {
    hide Links, Coherent, Value, Carried;
  }

  // Values are kept, nothing is locked or unlocked, and locked registers keep their contents.
  ghost predicate Keeps<F(!new)>(l0: Live, m0: Machine<F>, l1: Live, m1: Machine<F>, xs: set<int>)
    requires Ok(l0, m0) && Ok(l1, m1)
  {
    && ValuesKept(l0, m0, l1, m1, xs)
    && (forall n | 0 <= n < |l0.fat| :: l1.fat[n].locked == l0.fat[n].locked)
    && (forall n | 0 <= n < |l0.fat| && l0.fat[n].locked > 0 && n in m0.regs ::
      n in m1.regs && m1.regs[n] == m0.regs[n])
  }

  lemma KeepsTrans<F(!new)>(l0: Live, m0: Machine<F>, l1: Live, m1: Machine<F>, l2: Live, m2: Machine<F>, xs: set<int>)
    requires Ok(l0, m0) && Ok(l1, m1) && Ok(l2, m2)
    requires Keeps(l0, m0, l1, m1, xs) && Keeps(l1, m1, l2, m2, xs)
    ensures Keeps(l0, m0, l2, m2, xs)
  {
    ValuesKeptOn(l0, m0, l1, m1, l2, m2, xs);
    hide Links, Coherent, Value, Carried;
  }

  lemma KeepsMore<F(!new)>(l0: Live, m0: Machine<F>, l1: Live, m1: Machine<F>, xs: set<int>)
    requires Ok(l0, m0) && Ok(l1, m1) && Keeps(l0, m0, l1, m1, {})
    ensures Keeps(l0, m0, l1, m1, xs)
  {
  }

  // ---- whole runs ----

  // What an operation does to a register that it does not overwrite: it may be brought into a native
  // register, and if it is in none afterwards it has been rounded.
  ghost predicate Carries<F(!new)>(l0: Live, m0: Machine<F>, l1: Live, m1: Machine<F>, v: int)
    requires Ok(l0, m0) && Ok(l1, m1)
  {
    && |l1.fate| == |l0.fate| && 0 <= v < |l0.fate| && m1.round == m0.round
    && l0.fate[v].status != UNDEF && l1.fate[v].status != UNDEF
    && Value(l1, m1, v) == Carried(l1, m1, v, Value(l0, m0, v))
  }

  lemma KeepsCarries<F(!new)>(l0: Live, m0: Machine<F>, l1: Live, m1: Machine<F>, xs: set<int>, v: int)
    requires Ok(l0, m0) && Ok(l1, m1) && Keeps(l0, m0, l1, m1, xs)
    requires 0 <= v < |l0.fate| && v !in xs && l0.fate[v].status != UNDEF
    ensures Carries(l0, m0, l1, m1, v)
  {
  }

  ghost predicate AllCarry<F(!new)>(ls: seq<Live>, ms: seq<Machine<F>>, v: int) {
    && 0 < |ls| == |ms| && (forall k | 0 <= k < |ls| :: Ok(ls[k], ms[k]))
    && (forall k | 0 <= k < |ls| - 1 :: Carries(ls[k], ms[k], ls[k + 1], ms[k + 1], v))
    && 0 <= v < |ls[0].fate| && ls[0].fate[v].status != UNDEF
  }

  // v is in a native register in each of the first n + 1 states.
  predicate NeverOut(ls: seq<Live>, v: int, n: nat)
    requires n < |ls|
  {
    forall k | 0 <= k <= n :: 0 <= v < |ls[k].fate| && InReg(ls[k], v)
  }

  // Over any number of operations that do not overwrite it, a register has the value it had or that
  // value rounded; it has exactly the value it had if and only if it has been in a native register all
  // the time, or rounding changes nothing.
  lemma {:induction false} RunCarries<F(!new)>(ls: seq<Live>, ms: seq<Machine<F>>, v: int, n: nat)
    requires AllCarry(ls, ms, v) && n < |ls|
    ensures 0 <= v < |ls[n].fate| && ms[n].round == ms[0].round && ls[n].fate[v].status != UNDEF
    ensures Value(ls[n], ms[n], v)
      == if NeverOut(ls, v, n) then Value(ls[0], ms[0], v) else ms[0].round(Value(ls[0], ms[0], v))
  {
    hide Links;
    if n > 0 {
      RunCarries(ls, ms, v, n - 1);
      assert Carries(ls[n - 1], ms[n - 1], ls[n], ms[n], v);
      var x := Value(ls[0], ms[0], v);
      assert ms[0].round(ms[0].round(x)) == ms[0].round(x);
      assert NeverOut(ls, v, n) <==> NeverOut(ls, v, n - 1) && InReg(ls[n], v);
    } else if !InReg(ls[0], v) {
      assert !NeverOut(ls, v, 0);
    }
  }

  lemma RunIsExact<F(!new)>(ls: seq<Live>, ms: seq<Machine<F>>, v: int, n: nat)
    requires AllCarry(ls, ms, v) && n < |ls|
    ensures 0 <= v < |ls[n].fate| && ls[n].fate[v].status != UNDEF && Ok(ls[n], ms[n])
    ensures Value(ls[n], ms[n], v) == Value(ls[0], ms[0], v)
      <==> NeverOut(ls, v, n) || ms[0].round(Value(ls[0], ms[0], v)) == Value(ls[0], ms[0], v)
  {
    RunCarries(ls, ms, v, n);
    hide Links, Coherent, Value, NeverOut;
  }

  // ---- eviction ----

  // f_tomem or f_tomem_drop, whichever f_evict uses.
  function Stored<F>(l: Live, m: Machine<F>, r: int): Machine<F>
    requires 0 <= r < |l.fate| == |m.mem| && l.fate[r].realreg in m.regs && 0 <= l.fate[r].realreg < |l.fat|
  {
    var rr := l.fate[r].realreg;
    if l.fate[r].status != DIRTY then m
    else
      var s := m.(mem := m.mem[r := m.round(m.regs[rr])]);
      if |l.fat[rr].holds| == 1 then s.(regs := s.regs[rr := m.blank]) else s
  }

  // Takes r out of its native register; the last one held takes its place.
  function Unlinked(l: Live, r: int): Live
    requires 0 <= r < |l.fate| && Links(l) && InReg(l, r)
  {
    var rr, i := l.fate[r].realreg, l.fate[r].realind;
    var n := |l.fat[rr].holds| - 1;
    var top := l.fat[rr].holds[n];
    var fate := if n != i then l.fate[top := l.fate[top].(realind := i)] else l.fate;
    l.(fate := fate[r := fate[r].(status := INMEM, realreg := -1)],
       fat := l.fat[rr := l.fat[rr].(holds := (if n != i then l.fat[rr].holds[i := top] else l.fat[rr].holds)[..n])])
  }

  lemma UnlinkedLinks(l: Live, r: int)
    requires 0 <= r < |l.fate| && Links(l) && InReg(l, r)
    ensures var u := Unlinked(l, r);
      && Links(u) && |u.fate| == |l.fate| && |u.fat| == |l.fat| && u.fate[r].status == INMEM
      && (forall v | 0 <= v < |l.fate| && v != r ::
        u.fate[v].status == l.fate[v].status && u.fate[v].realreg == l.fate[v].realreg)
      && (forall n | 0 <= n < |l.fat| :: u.fat[n].locked == l.fat[n].locked && u.fat[n].touched == l.fat[n].touched)
      && (forall n | 0 <= n < |l.fat| && n != l.fate[r].realreg :: u.fat[n] == l.fat[n])
      && |u.fat[l.fate[r].realreg].holds| == |l.fat[l.fate[r].realreg].holds| - 1
  {
    UnlinkedThere(l, r);
    UnlinkedBack(l, r);
    hide Links, Unlinked;
  }

  lemma UnlinkedThere(l: Live, r: int)
    requires 0 <= r < |l.fate| && Links(l) && InReg(l, r)
    ensures var u := Unlinked(l, r);
      && |u.fate| == |l.fate| && |u.fat| == |l.fat| && u.fate[r].status == INMEM
      && (forall v | 0 <= v < |l.fate| && v != r ::
        u.fate[v].status == l.fate[v].status && u.fate[v].realreg == l.fate[v].realreg)
      && (forall n | 0 <= n < |l.fat| :: u.fat[n].locked == l.fat[n].locked && u.fat[n].touched == l.fat[n].touched)
      && (forall n | 0 <= n < |l.fat| && n != l.fate[r].realreg :: u.fat[n] == l.fat[n])
      && |u.fat[l.fate[r].realreg].holds| == |l.fat[l.fate[r].realreg].holds| - 1
  {
  }

  lemma UnlinkedBack(l: Live, r: int)
    requires 0 <= r < |l.fate| && Links(l) && InReg(l, r)
    ensures Links(Unlinked(l, r))
  {
    var u := Unlinked(l, r);
    var rr, i := l.fate[r].realreg, l.fate[r].realind;
    forall v | 0 <= v < |u.fate| && InReg(u, v)
      ensures 0 <= u.fate[v].realreg < |u.fat| && 0 <= u.fate[v].realind < |u.fat[u.fate[v].realreg].holds|
      ensures u.fat[u.fate[v].realreg].holds[u.fate[v].realind] == v
    {
      assert v != r && InReg(l, v) && u.fate[v].realreg == l.fate[v].realreg;
    }
    forall n, k | 0 <= n < |u.fat| && 0 <= k < |u.fat[n].holds|
      ensures var v := u.fat[n].holds[k];
        0 <= v < |u.fate| && InReg(u, v) && u.fate[v].realreg == n && u.fate[v].realind == k
    {
      var v := u.fat[n].holds[k];
      assert v == l.fat[n].holds[if n == rr && k == i then |l.fat[rr].holds| - 1 else k];
    }
  }

  // Two registers in the same native register are never the only one there.
  lemma Alone(l: Live, r: int, v: int)
    requires Links(l) && 0 <= r < |l.fate| && 0 <= v < |l.fate| && InReg(l, r) && InReg(l, v) && r != v
    requires l.fate[r].realreg == l.fate[v].realreg
    ensures |l.fat[l.fate[r].realreg].holds| > 1
  {
  }

  lemma EvictKeeps<F(!new)>(l: Live, m: Machine<F>, r: int)
    requires Ok(l, m) && 0 <= r < |l.fate| && InReg(l, r)
    requires var rr := l.fate[r].realreg; l.fat[rr].locked == 0 || |l.fat[rr].holds| > 1
    ensures Ok(Unlinked(l, r), Stored(l, m, r)) && Keeps(l, m, Unlinked(l, r), Stored(l, m, r), {})
  {
    UnlinkedLinks(l, r);
    var u, s := Unlinked(l, r), Stored(l, m, r);
    forall v | 0 <= v < |l.fate| && v != r && InReg(l, v)
      ensures l.fate[v].realreg in s.regs && s.regs[l.fate[v].realreg] == m.regs[l.fate[v].realreg]
    {
      if l.fate[v].realreg == l.fate[r].realreg { Alone(l, r, v); }
    }
    hide Links, Unlinked;
  }

  // An evicted register has its value rounded, so it keeps it exactly where rounding does not change it.
  lemma EvictionRounds<F(!new)>(l: Live, m: Machine<F>, r: int)
    requires Ok(l, m) && 0 <= r < |l.fate| && InReg(l, r)
    requires var rr := l.fate[r].realreg; l.fat[rr].locked == 0 || |l.fat[rr].holds| > 1
    ensures var u, s := Unlinked(l, r), Stored(l, m, r);
      && Ok(u, s) && !InReg(u, r) && Value(u, s, r) == m.round(Value(l, m, r))
      && (Value(u, s, r) == Value(l, m, r) <==> m.round(Value(l, m, r)) == Value(l, m, r))
  {
    hide Links, Unlinked;
    EvictKeeps(l, m, r);
    UnlinkedLinks(l, r);
  }

  // Every value that rounding changes is lost in this way: one register, not yet stored, is evicted.
  lemma EvictionLoses<F(!new)>(round: F -> F, x: F, y: F)
    requires RoundsOnce(round) && round(y) == y && round(x) != x
    ensures var l, m := Live([FReg(DIRTY, 0, 0)], [FNat([0], 0, 1)], 2), Machine(map[0 := x], [y], round, y);
      && Ok(l, m) && Value(l, m, 0) == x
      && Ok(Unlinked(l, 0), Stored(l, m, 0)) && Value(Unlinked(l, 0), Stored(l, m, 0), 0) == round(x) != x
  {
    var l, m := Live([FReg(DIRTY, 0, 0)], [FNat([0], 0, 1)], 2), Machine(map[0 := x], [y], round, y);
    assert Links(l);
    EvictionRounds(l, m, 0);
  }

  // f_disassociate: the register's own value is given up, nobody else's.
  lemma DisassociateKeeps<F(!new)>(l: Live, m: Machine<F>, r: int)
    requires Ok(l, m) && 0 <= r < |l.fate| && InReg(l, r)
    ensures Ok(Unlinked(l, r), m) && Keeps(l, m, Unlinked(l, r), m, {r})
  {
    UnlinkedLinks(l, r);
    hide Links, Unlinked;
  }

  // ---- allocation ----

  // r moves into the native register n, which is empty.
  function Claimed(l: Live, r: int, n: int, status: Status): Live
    requires 0 <= r < |l.fate| && 0 <= n < |l.fat|
  {
    l.(fate := l.fate[r := FReg(status, n, |l.fat[n].holds|)],
       fat := l.fat[n := l.fat[n].(holds := l.fat[n].holds + [r], touched := l.touchcnt)],
       touchcnt := l.touchcnt + 1)
  }

  lemma ClaimedLinks(l: Live, r: int, n: int, status: Status)
    requires Links(l) && 0 <= r < |l.fate| && 0 <= n < |l.fat| && !InReg(l, r) && (status == CLEAN || status == DIRTY)
    ensures Links(Claimed(l, r, n, status))
    ensures forall k | 0 <= k < |l.fat| && k != n :: Claimed(l, r, n, status).fat[k] == l.fat[k]
    ensures Claimed(l, r, n, status).fat[n].holds == l.fat[n].holds + [r]
    ensures forall k | 0 <= k < |l.fat| :: Claimed(l, r, n, status).fat[k].locked == l.fat[k].locked
  {
  }

  // Loading an empty native register and giving it to r.
  lemma ClaimKeeps<F(!new)>(l: Live, m: Machine<F>, m1: Machine<F>, r: int, n: int, status: Status)
    requires Ok(l, m) && 0 <= r < |l.fate| && 0 <= n < |l.fat| && !InReg(l, r) && l.fat[n].holds == []
      && l.fat[n].locked == 0
    requires n in m1.regs && m1 == m.(regs := m.regs[n := m1.regs[n]])
    requires status == DIRTY || (status == CLEAN && m1.regs[n] == m.mem[r])
    ensures Ok(Claimed(l, r, n, status), m1) && Keeps(l, m, Claimed(l, r, n, status), m1, {r})
    ensures Value(Claimed(l, r, n, status), m1, r) == m1.regs[n]
  {
    ClaimedLinks(l, r, n, status);
    forall v | 0 <= v < |l.fate| && v != r && InReg(l, v)
      ensures l.fate[v].realreg != n
    {
      assert l.fat[l.fate[v].realreg].holds[l.fate[v].realind] == v;
    }
    hide Links;
  }

  // d joins the registers in n.
  function Shared(l: Live, d: int, n: int): Live
    requires 0 <= d < |l.fate| && 0 <= n < |l.fat|
  {
    l.(fate := l.fate[d := FReg(DIRTY, n, |l.fat[n].holds|)],
       fat := l.fat[n := l.fat[n].(holds := l.fat[n].holds + [d])])
  }

  lemma SharedLinks(l: Live, d: int, s: int)
    requires Links(l) && 0 <= d < |l.fate| && 0 <= s < |l.fate| && d != s && !InReg(l, d) && InReg(l, s)
    ensures 0 <= l.fate[s].realreg < |l.fat| && Links(Shared(l, d, l.fate[s].realreg))
  {
  }

  lemma SharedKeeps<F(!new)>(l: Live, m: Machine<F>, d: int, s: int)
    requires Ok(l, m) && 0 <= d < |l.fate| && 0 <= s < |l.fate| && d != s && !InReg(l, d) && InReg(l, s)
    ensures 0 <= l.fate[s].realreg < |l.fat|
    ensures var l1 := Shared(l, d, l.fate[s].realreg);
      && Ok(l1, m) && Keeps(l, m, l1, m, {d}) && Value(l1, m, d) == Value(l, m, s) == Value(l1, m, s)
      && InReg(l1, d) && InReg(l1, s)
  {
    SharedLinks(l, d, s);
    hide Links;
  }

  // Marking a register that is alone in its native register as changed, with new contents or not.
  lemma DirtyKeeps<F(!new)>(l: Live, m: Machine<F>, r: int)
    requires Ok(l, m) && 0 <= r < |l.fate| && InReg(l, r)
    ensures var l1 := l.(fate := l.fate[r := l.fate[r].(status := DIRTY)]); Ok(l1, m) && Keeps(l, m, l1, m, {})
  {
  }

  // Counting a lock.
  lemma LockOk<F(!new)>(l: Live, m: Machine<F>, n: int, locked: nat, touched: nat)
    requires Ok(l, m) && 0 <= n < |l.fat|
    ensures var l1 := l.(fat := l.fat[n := l.fat[n].(locked := locked, touched := touched)], touchcnt := touched + 1);
      Ok(l1, m)
    ensures var l1 := l.(fat := l.fat[n := l.fat[n].(locked := locked)]); Ok(l1, m)
  {
  }

  // ---- the allocator ----

  // As Keeps, with one more lock on n.
  ghost predicate KeepsLocking<F(!new)>(l0: Live, m0: Machine<F>, l1: Live, m1: Machine<F>, xs: set<int>, n: int)
    requires Ok(l0, m0) && Ok(l1, m1)
  {
    && ValuesKept(l0, m0, l1, m1, xs) && 0 <= n < |l0.fat|
    && (forall k | 0 <= k < |l0.fat| :: l1.fat[k].locked == l0.fat[k].locked + if k == n then 1 else 0)
    && (forall k | 0 <= k < |l0.fat| && l0.fat[k].locked > 0 && k in m0.regs ::
      k in m1.regs && m1.regs[k] == m0.regs[k])
  }

  lemma LockKeeps<F(!new)>(l0: Live, m0: Machine<F>, l: Live, m: Machine<F>, xs: set<int>, n: int)
    requires Ok(l0, m0) && Ok(l, m) && Keeps(l0, m0, l, m, xs) && 0 <= n < |l.fat|
    ensures var l1 := l.(fat := l.fat[n := l.fat[n].(locked := l.fat[n].locked + 1, touched := l.touchcnt)],
                         touchcnt := l.touchcnt + 1);
      && Ok(l1, m) && KeepsLocking(l0, m0, l1, m, xs, n) && l1.fate == l.fate && l1.fat[n].holds == l.fat[n].holds
      && forall v | 0 <= v < |l.fate| :: Value(l1, m, v) == Value(l, m, v)
  {
    LockOk(l, m, n, l.fat[n].locked + 1, l.touchcnt);
    hide Links, Coherent;
  }

  // A read carries every register, also the one it reads.
  lemma LockingCarries<F(!new)>(l0: Live, m0: Machine<F>, l1: Live, m1: Machine<F>, xs: set<int>, n: int, v: int)
    requires Ok(l0, m0) && Ok(l1, m1) && KeepsLocking(l0, m0, l1, m1, xs, n)
    requires 0 <= v < |l0.fate| && l0.fate[v].status != UNDEF
    requires v in xs ==> InReg(l1, v) && Value(l1, m1, v) == Value(l0, m0, v)
    ensures Carries(l0, m0, l1, m1, v)
  {
  }

  // The registers of a shared native register other than r are all clean.
  predicate OthersClean(l: Live, r: int)
    requires 0 <= r < |l.fate| && 0 <= l.fate[r].realreg < |l.fat|
  {
    forall i | 0 <= i < |l.fat[l.fate[r].realreg].holds| ::
      var v := l.fat[l.fate[r].realreg].holds[i]; 0 <= v < |l.fate| && (v != r ==> l.fate[v].status != DIRTY)
  }

  // r cannot have its native register for itself without another one.
  predicate NeedsOther(l: Live, r: int)
    requires 0 <= r < |l.fate|
  {
    && InReg(l, r) && 0 <= l.fate[r].realreg < |l.fat| && |l.fat[l.fate[r].realreg].holds| > 1
    && !(OthersClean(l, r) && l.fat[l.fate[r].realreg].locked == 0)
  }

  // Between the steps of a flush: no locks, and only scratch registers may have lost their values.
  ghost predicate SoFar<F(!new)>(l0: Live, m0: Machine<F>, l: Live, m: Machine<F>, scratch: seq<bool>)
    requires Ok(l0, m0) && Ok(l, m)
  {
    && |l.fate| == |l0.fate| == |scratch| && m.round == m0.round
    && (forall n | 0 <= n < |l.fat| :: l.fat[n].locked == 0)
    && (forall v | 0 <= v < |l0.fate| && !scratch[v] && l0.fate[v].status != UNDEF ::
          && l.fate[v].status != UNDEF && (InReg(l, v) ==> InReg(l0, v))
          && Value(l, m, v) == Carried(l, m, v, Value(l0, m0, v)))
  }

  lemma Unlocked<F(!new)>(l: Live, m: Machine<F>, scratch: seq<bool>)
    requires Ok(l, m) && |scratch| == |l.fate| && forall n | 0 <= n < |l.fat| :: l.fat[n].locked == 0
    ensures SoFar(l, m, l, m, scratch)
  {
  }

  lemma ForgetSoFar<F(!new)>(l0: Live, m0: Machine<F>, l: Live, m: Machine<F>, r: int, scratch: seq<bool>)
    requires Ok(l0, m0) && Ok(l, m) && SoFar(l0, m0, l, m, scratch) && 0 <= r < |l.fate| && InReg(l, r)
    requires scratch[r] || l.fate[r].status == CLEAN
    ensures l.fat[l.fate[r].realreg].locked == 0
    ensures var u := Unlinked(l, r);
      && Ok(u, m) && SoFar(l0, m0, u, m, scratch) && u.fate[r].status == INMEM
      && forall v | 0 <= v < |l.fate| && v != r :: u.fate[v].status == l.fate[v].status
  {
    UnlinkedLinks(l, r);
    DisassociateKeeps(l, m, r);
    hide Links, Unlinked;
    var u := Unlinked(l, r);
    if !scratch[r] { assert Value(u, m, r) == m.round(Value(l, m, r)); }
    hide Coherent;
  }

  lemma StoreSoFar<F(!new)>(l0: Live, m0: Machine<F>, l: Live, m: Machine<F>, r: int, scratch: seq<bool>)
    requires Ok(l0, m0) && Ok(l, m) && SoFar(l0, m0, l, m, scratch) && 0 <= r < |l.fate| && InReg(l, r)
    ensures l.fat[l.fate[r].realreg].locked == 0
    ensures var u := Unlinked(l, r);
      && Ok(u, Stored(l, m, r)) && SoFar(l0, m0, u, Stored(l, m, r), scratch) && u.fate[r].status == INMEM
      && forall v | 0 <= v < |l.fate| && v != r :: u.fate[v].status == l.fate[v].status && InReg(u, v) == InReg(l, v)
  {
    RegAt(l, m, r);
    UnlinkedLinks(l, r);
    EvictKeeps(l, m, r);
    hide Links, Unlinked, Coherent, Stored, Value;
  }

  lemma FirstInReg(l: Live, n: int)
    requires Links(l) && 0 <= n < |l.fat|
    ensures l.fat[n].holds != [] ==> exists v | 0 <= v < |l.fate| :: InReg(l, v)
  {
    if l.fat[n].holds != [] {
      assert InReg(l, l.fat[n].holds[0]);
    }
  }

  lemma Flushed<F(!new)>(l0: Live, m0: Machine<F>, l: Live, m: Machine<F>, scratch: seq<bool>)
    requires Ok(l0, m0) && Ok(l, m) && SoFar(l0, m0, l, m, scratch) && forall v | 0 <= v < |l.fate| :: !InReg(l, v)
    ensures forall n | 0 <= n < |l.fat| :: l.fat[n].holds == []
    ensures forall v | 0 <= v < |l.fate| && !scratch[v] && l0.fate[v].status != UNDEF ::
      m.mem[v] == m0.round(Value(l0, m0, v))
  {
    forall n | 0 <= n < |l.fat|
      ensures l.fat[n].holds == []
    {
      FirstInReg(l, n);
    }
  }

  function Age(l: Live, n: int): nat
    requires 0 <= n < |l.fat|
  {
    if l.fat[n].holds == [] then 0 else l.fat[n].touched
  }

  function Dirtied(l: Live, r: int): Live
    requires 0 <= r < |l.fate|
  {
    l.(fate := l.fate[r := l.fate[r].(status := DIRTY)])
  }

  lemma RegAt<F(!new)>(l: Live, m: Machine<F>, r: int)
    requires Ok(l, m) && 0 <= r < |l.fate| && InReg(l, r)
    ensures 0 <= l.fate[r].realreg < |l.fat| && l.fate[r].realreg in m.regs
  {
  }

  lemma FirstOnly(l: Live, n: int)
    requires Links(l) && 0 <= n < |l.fat|
    ensures forall i | 0 < i < |l.fat[n].holds| :: l.fat[n].holds[i] != l.fat[n].holds[0]
  {
  }

  lemma NotAlone(l: Live, r: int, v: int)
    requires Links(l) && 0 <= r < |l.fate| && 0 <= v < |l.fate| && InReg(l, r) && r != v
    requires v in l.fat[l.fate[r].realreg].holds
    ensures InReg(l, v) && l.fate[v].realreg == l.fate[r].realreg && |l.fat[l.fate[r].realreg].holds| > 1
  {
  }

  lemma HoldsSome(l: Live, r: int)
    requires Links(l) && 0 <= r < |l.fate| && InReg(l, r)
    ensures 0 <= l.fate[r].realreg < |l.fat| && |l.fat[l.fate[r].realreg].holds| > 0
  {
  }

  lemma SizesKept<F(!new)>(l0: Live, m0: Machine<F>, l1: Live, m1: Machine<F>)
    requires Ok(l0, m0) && Ok(l1, m1) && Keeps(l0, m0, l1, m1, {})
    ensures |l1.fate| == |l0.fate| && |l1.fat| == |l0.fat|
  {
  }

  // Evicting another register that shares the native register of r.
  lemma EvictOther(l: Live, r: int, rr: int, i: nat)
    requires Links(l) && 0 <= r < |l.fate| && InReg(l, r) && rr == l.fate[r].realreg
    requires 0 <= rr < |l.fat| && i < |l.fat[rr].holds| && l.fat[rr].holds[i] != r
    ensures var v := l.fat[rr].holds[i];
      && 0 <= v < |l.fate| && InReg(l, v) && l.fate[v].realreg == rr && |l.fat[rr].holds| > 1
      && var u := Unlinked(l, v);
        && |u.fate| == |l.fate| && |u.fat| == |l.fat|
        && u.fate[r].status == l.fate[r].status && u.fate[r].realreg == rr && u.fat[rr].locked == l.fat[rr].locked
        && |u.fat[rr].holds| == |l.fat[rr].holds| - 1
        && forall j | 0 <= j < i :: u.fat[rr].holds[j] == l.fat[rr].holds[j]
  {
    var v := l.fat[rr].holds[i];
    NotAlone(l, r, v);
    UnlinkedLinks(l, v);
  }

  lemma LockedOk<F(!new)>(l0: Live, m0: Machine<F>, l1: Live, rr: int, r: int)
    requires Ok(l0, m0) && 0 <= r < |l0.fate| && InReg(l0, r) && rr == l0.fate[r].realreg
    requires |l0.fat[rr].holds| > 1
    requires l1 == l0.(fat := l0.fat[rr := l0.fat[rr].(locked := l0.fat[rr].locked + 1)])
    ensures Ok(l1, m0) && InReg(l1, r) && |l1.fat[rr].holds| > 1 && rr in m0.regs
  {
    LockOk(l0, m0, rr, l0.fat[rr].locked + 1, 0);
  }

  lemma DroppedIs<F(!new)>(l1: Live, m0: Machine<F>, l2: Live, r: int, rr: int)
    requires Ok(l1, m0) && 0 <= r < |l1.fate| && InReg(l1, r) && rr == l1.fate[r].realreg && l2 == Unlinked(l1, r)
    ensures l2.fate[r].status == INMEM && forall k | 0 <= k < |l1.fat| :: l2.fat[k].locked == l1.fat[k].locked
    ensures |l2.fat| == |l1.fat| && |l2.fate| == |l1.fate|
  {
    UnlinkedLinks(l1, r);
  }

  lemma LockedContents<F(!new)>(l1: Live, m1: Machine<F>, l3: Live, m3: Machine<F>, rr: int, r: int)
    requires Ok(l1, m1) && Ok(l3, m3) && Keeps(l1, m1, l3, m3, {r}) && 0 <= rr < |l1.fat| && l1.fat[rr].locked > 0
      && rr in m1.regs
    ensures |l3.fat| == |l1.fat| && |l3.fate| == |l1.fate| && l3.fat[rr].locked == l1.fat[rr].locked
    ensures rr in m3.regs && m3.regs[rr] == m1.regs[rr]
  {
  }

  // The state after a split, step by step: locked, forgotten and allocated anew, copied, unlocked.
  lemma SplitIs<F(!new)>(l0: Live, m0: Machine<F>, l1: Live, l3: Live, m3: Machine<F>, l: Live, m: Machine<F>,
                         r: int, rr: int, n: int, clobber: bool)
    requires Ok(l0, m0) && Ok(l1, m0) && Ok(l3, m3) && Keeps(l1, m0, l3, m3, {r})
    requires 0 <= r < |l0.fate| == |l3.fate| && InReg(l0, r) && rr == l0.fate[r].realreg
    requires l1 == l0.(fat := l0.fat[rr := l0.fat[rr].(locked := l0.fat[rr].locked + 1)])
    requires InReg(l3, r) && l3.fate[r].realreg == n && l3.fate[r].status == DIRTY
    requires 0 <= n < |l3.fat| == |l0.fat| && l3.fat[n].holds == [r] && l3.fat[n].locked == 0
    requires rr in m3.regs && rr in m0.regs && m3.regs[rr] == m0.regs[rr]
    requires l0.fate[r].status == CLEAN ==> m3.mem[r] == m0.mem[r]
    requires m == if clobber then m3 else m3.(regs := m3.regs[n := m3.regs[rr]])
    requires l == l3.(fate := l3.fate[r := FReg(l0.fate[r].status, n, l3.fate[r].realind)],
                      fat := l3.fat[rr := l3.fat[rr].(locked := l0.fat[rr].locked)])
    ensures var k := if clobber then Dirtied(l, r) else l;
      Ok(k, m) && Keeps(l0, m0, k, m, if clobber then {r} else {})
    ensures InReg(l, r) && l.fate[r].realreg == n && 0 <= n < |l.fat| && l.fat[n].holds == [r]
  {
    hide Links;
    var k := if clobber then Dirtied(l, r) else l;
    RegAt(l0, m0, r);
    SplitLinks(l3, k, r, rr);
    SplitCoherent(l0, m0, l3, m3, k, m, r, rr, n, clobber);
    Apart(l3, r, n);
    forall v | 0 <= v < |l0.fate| && v != r && l0.fate[v].status != UNDEF
      ensures k.fate[v].status != UNDEF && (InReg(k, v) ==> InReg(l0, v))
      ensures Value(k, m, v) == Carried(k, m, v, Value(l0, m0, v))
    {
      assert Value(l3, m3, v) == Carried(l3, m3, v, Value(l1, m0, v));
    }
  }

  lemma SplitCoherent<F(!new)>(l0: Live, m0: Machine<F>, l3: Live, m3: Machine<F>, k: Live, m: Machine<F>,
                               r: int, rr: int, n: int, clobber: bool)
    requires Ok(l0, m0) && Ok(l3, m3) && 0 <= r < |l0.fate| == |l3.fate| && InReg(l0, r) && rr == l0.fate[r].realreg
    requires InReg(l3, r) && l3.fate[r].realreg == n && 0 <= n < |l3.fat| && l3.fat[n].holds == [r]
    requires rr in m3.regs && rr in m0.regs && m3.regs[rr] == m0.regs[rr]
    requires l0.fate[r].status == CLEAN ==> m3.mem[r] == m0.mem[r]
    requires m == if clobber then m3 else m3.(regs := m3.regs[n := m3.regs[rr]])
    requires m3.round == m0.round
    requires k.fate == l3.fate[r := FReg(if clobber then DIRTY else l0.fate[r].status, n, l3.fate[r].realind)]
    ensures Coherent(k, m)
  {
    Apart(l3, r, n);
    hide Links;
  }

  lemma ValueIs<F(!new)>(l: Live, m: Machine<F>, r: int)
    requires Ok(l, m) && 0 <= r < |l.fate| && InReg(l, r)
    ensures l.fate[r].realreg in m.regs && Value(l, m, r) == m.regs[l.fate[r].realreg]
  {
  }

  // What stays in a native register, or was in memory to begin with, keeps its very value.
  lemma KeptValue<F(!new)>(l0: Live, m0: Machine<F>, l1: Live, m1: Machine<F>, xs: set<int>, r: int)
    requires Ok(l0, m0) && Ok(l1, m1) && Keeps(l0, m0, l1, m1, xs) && 0 <= r < |l0.fate| && r !in xs
    requires l0.fate[r].status != UNDEF && (InReg(l0, r) ==> InReg(l1, r))
    ensures |l1.fate| == |l0.fate| && Value(l1, m1, r) == Value(l0, m0, r)
  {
    hide Links;
  }

  lemma DirtyValue<F(!new)>(l: Live, m: Machine<F>, r: int)
    requires Ok(l, m) && 0 <= r < |l.fate| && InReg(l, r)
    ensures l.fate[r].realreg in m.regs && m.regs[l.fate[r].realreg] == Value(l, m, r)
  {
  }

  lemma AsDirty<F(!new)>(l0: Live, m0: Machine<F>, r: int, l: Live, m: Machine<F>, clobber: bool)
    requires Ok(l0, m0) && Ok(l, m) && Keeps(l0, m0, l, m, {}) && 0 <= r < |l.fate| && InReg(l, r)
    requires |l.fat[l.fate[r].realreg].holds| == 1
    ensures var k := if clobber then Dirtied(l, r) else l; Ok(k, m) && Keeps(l0, m0, k, m, if clobber then {r} else {})
    ensures l.fat[l.fate[r].realreg].holds == [r]
  {
    DirtyKeeps(l, m, r);
    KeepsTrans(l0, m0, l, m, Dirtied(l, r), m, {});
    KeepsMore(l0, m0, Dirtied(l, r), m, {r});
  }

  lemma SameSizes<F(!new)>(l0: Live, m0: Machine<F>, l1: Live, m1: Machine<F>, xs: set<int>, n: int)
    requires Ok(l0, m0) && Ok(l1, m1) && KeepsLocking(l0, m0, l1, m1, xs, n)
    ensures |l1.fate| == |l0.fate| && |l1.fat| == |l0.fat| && 0 <= n < |l1.fat|
  {
  }

  lemma LockedOne<F(!new)>(l0: Live, m0: Machine<F>, l1: Live, m1: Machine<F>, xs: set<int>, n: int)
    requires Ok(l0, m0) && Ok(l1, m1) && KeepsLocking(l0, m0, l1, m1, xs, n)
    ensures 0 <= n < |l1.fat| && l1.fat[n].locked > 0
  {
  }

  // An aliasing move: forgotten (l1), read and locked (l2), shared, unlocked.
  lemma Aliased<F(!new)>(l0: Live, m0: Machine<F>, l1: Live, m1: Machine<F>, l2: Live, m2: Machine<F>, d: int, s: int,
                         n: int)
    requires Ok(l0, m0) && Ok(l1, m1) && Ok(l2, m2) && 0 <= d < |l2.fate| && 0 <= s < |l2.fate| && d != s
    requires Keeps(l0, m0, l1, m1, {d}) && KeepsLocking(l1, m1, l2, m2, {s}, n)
    requires !InReg(l2, d) && InReg(l2, s) && l2.fate[s].realreg == n && 0 <= n < |l2.fat| && l2.fat[n].locked > 0
    ensures var l := Shared(l2, d, n).(fat :=
      Shared(l2, d, n).fat[n := Shared(l2, d, n).fat[n].(locked := l2.fat[n].locked - 1)]);
      && Ok(l, m2) && Keeps(l0, m0, l, m2, {d, s}) && InReg(l, d) && InReg(l, s)
      && Value(l, m2, d) == Value(l, m2, s) == Value(l2, m2, s)
  {
    hide Links, Coherent, Value, Carried;
    var l3 := Shared(l2, d, n);
    SharedKeeps(l2, m2, d, s);
    LockOk(l3, m2, n, l2.fat[n].locked - 1, 0);
    var l := l3.(fat := l3.fat[n := l3.fat[n].(locked := l2.fat[n].locked - 1)]);
    SameValues(l3, m2, l);
    AliasedValues(l0, m0, l1, m1, l2, m2, l3, l, d, s);
  }

  lemma AliasedValues<F(!new)>(l0: Live, m0: Machine<F>, l1: Live, m1: Machine<F>, l2: Live, m2: Machine<F>, l3: Live,
                               l: Live, d: int, s: int)
    requires Ok(l0, m0) && Ok(l1, m1) && Ok(l2, m2) && Ok(l3, m2) && Ok(l, m2)
    requires ValuesKept(l0, m0, l1, m1, {d}) && ValuesKept(l1, m1, l2, m2, {s})
    requires ValuesKept(l2, m2, l3, m2, {d}) && ValuesKept(l3, m2, l, m2, {})
    ensures ValuesKept(l0, m0, l, m2, {d, s})
  {
    hide ValuesKept, Links, Coherent;
    ValuesKeptMore(l0, m0, l1, m1, {d}, {d, s});
    ValuesKeptMore(l1, m1, l2, m2, {s}, {d, s});
    ValuesKeptMore(l2, m2, l3, m2, {d}, {d, s});
    ValuesKeptMore(l3, m2, l, m2, {}, {d, s});
    ValuesKeptOn(l0, m0, l1, m1, l2, m2, {d, s});
    ValuesKeptOn(l0, m0, l2, m2, l3, m2, {d, s});
    ValuesKeptOn(l0, m0, l3, m2, l, m2, {d, s});
  }

  lemma SameValues<F(!new)>(l0: Live, m: Machine<F>, l: Live)
    requires Ok(l0, m) && Ok(l, m) && l.fate == l0.fate && |l.fat| == |l0.fat|
    ensures ValuesKept(l0, m, l, m, {})
    ensures forall v | 0 <= v < |l.fate| :: Value(l, m, v) == Value(l0, m, v)
  {
    hide Links;
  }

  lemma AfterDrop<F(!new)>(l0: Live, m0: Machine<F>, l1: Live, m1: Machine<F>, d: int, s: int)
    requires Ok(l0, m0) && Ok(l1, m1) && Keeps(l0, m0, l1, m1, {d}) && d != s && 0 <= d < |l0.fate|
      && 0 <= s < |l0.fate|
    requires l0.fate[s].status != UNDEF && (!InReg(l0, s) ==> exists k :: 0 <= k < |l0.fat| && l0.fat[k].locked == 0)
    requires |l1.fate| == |l0.fate| && (InReg(l0, s) ==> InReg(l1, s))
    ensures l1.fate[s].status != UNDEF && (!InReg(l1, s) ==> exists k :: 0 <= k < |l1.fat| && l1.fat[k].locked == 0)
    ensures Value(l1, m1, s) == Value(l0, m0, s)
  {
    if !InReg(l1, s) {
      var k :| 0 <= k < |l0.fat| && l0.fat[k].locked == 0;
      assert l1.fat[k].locked == 0;
    }
    KeptValue(l0, m0, l1, m1, {d}, s);
  }

  lemma KeepsSame<F(!new)>(l: Live, m: Machine<F>)
    requires Ok(l, m)
    ensures Keeps(l, m, l, m, {})
  {
  }

  lemma Apart(l: Live, r: int, n: int)
    requires Links(l) && 0 <= n < |l.fat| && l.fat[n].holds == [r]
    ensures forall v | 0 <= v < |l.fate| && v != r && InReg(l, v) :: l.fate[v].realreg != n
  {
    forall v | 0 <= v < |l.fate| && v != r && InReg(l, v)
      ensures l.fate[v].realreg != n
    {
      assert l.fat[l.fate[v].realreg].holds[l.fate[v].realind] == v;
    }
  }

  lemma SplitLinks(l3: Live, k: Live, r: int, rr: int)
    requires Links(l3) && 0 <= r < |l3.fate| && InReg(l3, r) && 0 <= rr < |l3.fat|
    requires |k.fate| == |l3.fate| && |k.fat| == |l3.fat|
    requires k.fate == l3.fate[r := l3.fate[r].(status := k.fate[r].status)] && InReg(k, r)
    requires k.fat == l3.fat[rr := l3.fat[rr].(locked := k.fat[rr].locked)]
    ensures Links(k)
  {
  }

  // ---- native registers are slots of the x87 stack ----

  function RegsOf<F>(file: map<int, F>, blank: F): (r: map<int, F>)
    ensures forall n | 0 <= n < X87.N_FREGS :: n in r
  {
    map n | 0 <= n < X87.N_FREGS :: if n in file then file[n] else blank
  }

  function MemOf<F>(mem: map<int, X87.Cell<F>>, n: nat, blank: F): (r: seq<F>)
    ensures |r| == n && forall k | 0 <= k < n && k in mem :: r[k] == mem[k].value
  {
    seq(n, k requires 0 <= k < n => if k in mem then mem[k].value else blank)
  }

  // Every home is a double.
  predicate Homes<F>(mem: map<int, X87.Cell<F>>, n: nat) { forall k | 0 <= k < n :: k in mem && mem[k].width.DOUBLE? }

  // A store of a double rounds.
  ghost predicate Rounds<F(!new)>(round: F -> F, arith: X87.Arith<F>) {
    forall x :: round(x) == arith.fit(X87.DOUBLE, x)
  }

  lemma StoredOne<F>(mem0: map<int, X87.Cell<F>>, mem1: map<int, X87.Cell<F>>, n: nat, r: nat, x: F, blank: F)
    requires Homes(mem0, n) && r < n && mem1 == mem0[r := X87.Cell(X87.DOUBLE, x)]
    ensures Homes(mem1, n) && MemOf(mem1, n, blank) == MemOf(mem0, n, blank)[r := x]
  {
  }

  // Taking a register for one on the stack changes nothing, writing it changes it, and dropping it leaves
  // a blank.
  lemma FileAs<F>(file: map<int, F>, n: int, x: F, blank: F)
    requires 0 <= n < X87.N_FREGS
    ensures n !in file ==> RegsOf(file[n := blank], blank) == RegsOf(file, blank)
    ensures RegsOf(file[n := x], blank) == RegsOf(file, blank)[n := x]
    ensures RegsOf(file - {n}, blank) == RegsOf(file, blank)[n := blank]
  {
  }

  class Allocator<F(!new)> {
    const e: X87.Emitter<F>
    const round: F -> F
    var live: Live

    function Blank(): F { e.arith.constant(X87.LD1) }

    // What the emitted code has made of registers and memory.
    ghost function M(): Machine<F>
      reads this, e
    {
      Machine(RegsOf(if e.Valid() then e.Regs() else map[], Blank()), MemOf(e.fpu.mem, |live.fate|, Blank()), round,
              Blank())
    }

    ghost predicate Backed()
      reads this, e
    {
      && e.Valid() && |live.fat| == X87.N_FREGS && Homes(e.fpu.mem, |live.fate|)
      && Rounds(round, e.arith)
    }

    ghost predicate Valid()
      reads this, e
    {
      Backed() && Ok(live, M())
    }

    // The part of init_comp that concerns FP registers: all are in memory, as doubles.
    constructor InitComp(arith: X87.Arith<F>, round: F -> F, home: seq<F>)
      requires RoundsOnce(round) && Rounds(round, arith) && forall x | x in home :: round(x) == x
      ensures Valid() && M().mem == home && M().round == round && e.arith == arith && fresh(e)
      ensures forall v | 0 <= v < |live.fate| :: live.fate[v].status == INMEM
      ensures forall n | 0 <= n < |live.fat| :: live.fat[n].locked == 0
    {
      var mem := map k | 0 <= k < |home| :: X87.Cell(X87.DOUBLE, home[k]);
      e := new X87.Emitter(arith, mem);
      this.round := round;
      live := Live(seq(|home|, v => FReg(INMEM, -1, 0)), seq(X87.N_FREGS, n => FNat([], 0, 0)), 1);
      new;
      assert M().mem == home;
    }

    // raw_fmov_mr or raw_fmov_mr_drop
    method Store(r: int, n: int, drop: bool)
      requires Backed() && 0 <= r < |live.fate| && 0 <= n < X87.N_FREGS
      modifies e
      ensures Backed() && n in old(M()).regs
      ensures var s := old(M()).(mem := old(M()).mem[r := round(old(M()).regs[n])]);
        M() == if drop then s.(regs := s.regs[n := Blank()]) else s
    {
      ghost var file, mem := e.Regs(), e.fpu.mem;
      FileAs(file, n, Blank(), Blank());
      if drop {
        e.FmovMrDrop(X87.DOUBLE, r, n);
        FileAs(file[n := Blank()], n, Blank(), Blank());
      } else {
        e.FmovMr(X87.DOUBLE, r, n);
      }
      StoredOne(mem, e.fpu.mem, |live.fate|, r, e.fpu.mem[r].value, Blank());
    }

    // raw_fmov_rm
    method Load(n: int, r: int)
      requires Backed() && 0 <= r < |live.fate| && 0 <= n < X87.N_FREGS
      modifies e
      ensures Backed() && M() == old(M()).(regs := old(M()).regs[n := old(M()).mem[r]])
    {
      FileAs(e.Regs(), n, e.fpu.mem[r].value, Blank());
      e.FmovRm(X87.DOUBLE, n, r);
    }

    // raw_fmov_rr
    method Copy(n: int, k: int)
      requires Backed() && 0 <= n < X87.N_FREGS && 0 <= k < X87.N_FREGS
      modifies e
      ensures Backed() && k in old(M()).regs && M() == old(M()).(regs := old(M()).regs[n := old(M()).regs[k]])
    {
      ghost var file := e.Regs();
      FileAs(file, k, Blank(), Blank());
      ghost var used := if k in file then file else file[k := Blank()];
      FileAs(used, n, used[k], Blank());
      e.FmovRr(n, k);
    }

    ghost predicate MayEvict(r: int)
      requires 0 <= r < |live.fate|
      reads this, e
    {
      InReg(live, r) && Valid() ==>
        var n := live.fate[r].realreg; live.fat[n].locked == 0 || |live.fat[n].holds| > 1
    }

    // f_evict
    method Evict(r: int)
      requires Valid() && 0 <= r < |live.fate| && MayEvict(r)
      modifies this, e
      ensures Valid() && Keeps(old(live), old(M()), live, M(), {}) && !InReg(live, r)
      ensures old(InReg(live, r)) ==> live == Unlinked(old(live), r) && M() == Stored(old(live), old(M()), r)
      ensures old(!InReg(live, r)) ==> live == old(live) && M() == old(M())
    {
      hide Links, Coherent, Keeps, X87.Mapped, X87.File, RegsOf, MemOf, Homes, Rounds;
      KeepsSame(live, M());
      if !InReg(live, r) { return; }
      RegAt(live, M(), r);
      EvictKeeps(live, M(), r);
      UnlinkedLinks(live, r);
      var n := live.fate[r].realreg;
      if live.fate[r].status == DIRTY { Store(r, n, |live.fat[n].holds| == 1); }
      live := Unlinked(live, r);
    }

    // f_free_nreg
    method FreeNreg(n: int)
      requires Valid() && 0 <= n < |live.fat| && live.fat[n].locked == 0
      modifies this, e
      ensures Valid() && Keeps(old(live), old(M()), live, M(), {}) && live.fat[n].holds == []
      ensures forall v | 0 <= v < |live.fate| && InReg(live, v) ::
        old(InReg(live, v)) && live.fate[v].realreg == old(live.fate[v].realreg)
      ensures forall k | 0 <= k < |live.fat| && k != n :: live.fat[k] == old(live.fat[k])
    {
      hide X87.Mapped, X87.File, RegsOf, MemOf, Homes, Rounds;
      while live.fat[n].holds != []
        invariant Valid() && |live.fat| == |old(live).fat| && Keeps(old(live), old(M()), live, M(), {})
          && live.fat[n].locked == 0
        invariant forall v | 0 <= v < |live.fate| && InReg(live, v) ::
          v < |old(live).fate| && InReg(old(live), v) && live.fate[v].realreg == old(live).fate[v].realreg
        invariant forall k | 0 <= k < |live.fat| && k != n :: live.fat[k] == old(live).fat[k]
        decreases |live.fat[n].holds|
      {
        ghost var l1, m1 := live, M();
        var v := live.fat[n].holds[|live.fat[n].holds| - 1];
        UnlinkedLinks(live, v);
        Evict(v);
        KeepsTrans(old(live), old(M()), l1, m1, live, M(), {});
      }
    }

    // f_disassociate: forgets the register without storing it
    method Disassociate(r: int)
      requires Valid() && 0 <= r < |live.fate| && MayEvict(r)
      modifies this, e
      ensures Valid() && Keeps(old(live), old(M()), live, M(), {r}) && !InReg(live, r)
      ensures old(InReg(live, r)) ==> live == Unlinked(old(live), r) && M() == old(M())
      ensures old(!InReg(live, r)) ==> live == old(live) && M() == old(M())
      ensures |live.fate| == |old(live).fate|
      ensures forall v | 0 <= v < |live.fate| && v != r :: live.fate[v].status == old(live).fate[v].status
    {
      hide Links, Coherent, Keeps, X87.Mapped, X87.File, RegsOf, MemOf, Homes, Rounds;
      KeepsSame(live, M());
      KeepsMore(live, M(), live, M(), {r});
      if !InReg(live, r) { return; }
      DisassociateKeeps(live, M(), r);
      UnlinkedLinks(live, r);
      live := Unlinked(live, r);
    }

    // The choice f_alloc_reg makes: never a locked register, and the one unused for longest.
    method Pick() returns (best: int)
      requires exists n :: 0 <= n < |live.fat| && live.fat[n].locked == 0
      ensures 0 <= best < |live.fat| && live.fat[best].locked == 0
      ensures forall k | 0 <= k < |live.fat| && live.fat[k].locked == 0 :: Age(live, best) <= Age(live, k)
    {
      best := -1;
      var when := 0;
      var i := |live.fat|;
      while i > 0
        invariant 0 <= i <= |live.fat|
        invariant best != -1 ==> 0 <= best < |live.fat| && live.fat[best].locked == 0
        invariant best == -1 ==> forall k | i <= k < |live.fat| :: live.fat[k].locked > 0
        invariant best != -1 ==> when == Age(live, best)
        invariant forall k | i <= k < |live.fat| && live.fat[k].locked == 0 :: best != -1 && when <= Age(live, k)
      {
        i := i - 1;
        var badness := if live.fat[i].holds == [] then 0 else live.fat[i].touched;
        if live.fat[i].locked == 0 && (best == -1 || badness < when) {
          best, when := i, badness;
          if live.fat[i].holds == [] { break; }
        }
      }
    }

    // f_alloc_reg
    method AllocReg(r: int, willClobber: bool) returns (n: int)
      requires Valid() && 0 <= r < |live.fate| && !InReg(live, r) && (willClobber || live.fate[r].status != UNDEF)
      requires exists k :: 0 <= k < |live.fat| && live.fat[k].locked == 0
      modifies this, e
      ensures Valid() && |live.fate| == |old(live).fate| && Keeps(old(live), old(M()), live, M(), {r})
      ensures 0 <= n < |live.fat| && live.fat[n].holds == [r] && live.fat[n].locked == 0
      ensures InReg(live, r) && live.fate[r].realreg == n && live.fate[r].status == if willClobber then DIRTY else CLEAN
      ensures !willClobber ==> Value(live, M(), r) == Value(old(live), old(M()), r)
      ensures old(live).fate[r].status != UNDEF ==> M().mem[r] == old(M()).mem[r]
      ensures forall v | 0 <= v < |live.fate| && v != r && InReg(live, v) :: v < |old(live).fate| && InReg(old(live), v)
    {
      hide X87.Mapped, X87.File, RegsOf, MemOf, Homes, Rounds;
      n := Pick();
      FreeNreg(n);
      ghost var l1, m1 := live, M();
      if !willClobber { Load(n, r); }
      ClaimKeeps(live, m1, M(), r, n, if willClobber then DIRTY else CLEAN);
      live := Claimed(live, r, n, if willClobber then DIRTY else CLEAN);
      KeepsMore(old(live), old(M()), l1, m1, {r});
      KeepsTrans(old(live), old(M()), l1, m1, live, M(), {r});
    }

    // The lock and the time stamp with which the reads and writes end.
    method Lock(n: int)
      requires 0 <= n < |live.fat|
      modifies this`live
      ensures live == old(live).(
        fat := old(live).fat[n :=
          old(live).fat[n].(locked := old(live).fat[n].locked + 1, touched := old(live).touchcnt)],
        touchcnt := old(live).touchcnt + 1)
    {
      live := live.(fat := live.fat[n := live.fat[n].(locked := live.fat[n].locked + 1, touched := live.touchcnt)],
                    touchcnt := live.touchcnt + 1);
    }

    // f_readreg: the native register returned holds the value of r, and nothing changes its value.
    method ReadReg(r: int) returns (n: int)
      requires Valid() && 0 <= r < |live.fate| && live.fate[r].status != UNDEF
      requires !InReg(live, r) ==> exists k :: 0 <= k < |live.fat| && live.fat[k].locked == 0
      modifies this, e
      ensures Valid() && |live.fate| == |old(live).fate| && KeepsLocking(old(live), old(M()), live, M(), {r}, n)
      ensures n in M().regs && M().regs[n] == Value(old(live), old(M()), r) == Value(live, M(), r)
      ensures InReg(live, r) && live.fate[r].realreg == n
      ensures forall v | 0 <= v < |live.fate| && v != r && InReg(live, v) :: v < |old(live).fate| && InReg(old(live), v)
    {
      hide Links, Coherent, Keeps, KeepsLocking, Value, X87.Mapped, X87.File, RegsOf, MemOf, Homes, Rounds;
      if InReg(live, r) {
        n := live.fate[r].realreg;
        RegAt(live, M(), r);
        KeepsSame(live, M());
        KeepsMore(live, M(), live, M(), {r});
      } else {
        n := AllocReg(r, false);
        RegAt(live, M(), r);
      }
      ValueIs(live, M(), r);
      LockKeeps(old(live), old(M()), live, M(), {r}, n);
      Lock(n);
    }

    // The part of f_make_exclusive that keeps the native register: everything else in it is clean.
    method EvictOthers(r: int)
      requires Valid() && 0 <= r < |live.fate| && InReg(live, r) && OthersClean(live, r)
      requires live.fat[live.fate[r].realreg].locked == 0
      modifies this, e
      ensures Valid() && Keeps(old(live), old(M()), live, M(), {}) && |live.fate| == |old(live).fate|
      ensures InReg(live, r) && live.fate[r].realreg == old(live).fate[r].realreg
        && live.fate[r].status == old(live).fate[r].status
      ensures |live.fat[live.fate[r].realreg].holds| == 1
    {
      hide Links, Coherent, Keeps, Unlinked, Stored, OthersClean, X87.Mapped, X87.File, RegsOf, MemOf, Homes, Rounds;
      RegAt(live, M(), r);
      KeepsSame(live, M());
      var rr := live.fate[r].realreg;
      var i := 0;
      HoldsSome(live, r);
      while i < |live.fat[rr].holds|
        invariant 0 <= r < |live.fate| == |old(live).fate| && 0 <= rr < |live.fat| && live.fat[rr].locked == 0
        invariant |live.fat[rr].holds| > 0
        invariant Valid() && |live.fat| == |old(live).fat| && Keeps(old(live), old(M()), live, M(), {})
        invariant InReg(live, r) && live.fate[r].realreg == rr && live.fate[r].status == old(live).fate[r].status
        invariant 0 <= i <= |live.fat[rr].holds| && i <= 1
        invariant forall j | 0 <= j < i :: live.fat[rr].holds[j] == r
        decreases |live.fat[rr].holds| - i
      {
        FirstOnly(live, rr);
        var v := live.fat[rr].holds[i];
        if v != r {
          ghost var l1, m1 := live, M();
          EvictOther(live, r, rr, i);
          Evict(v);
          KeepsTrans(old(live), old(M()), l1, m1, live, M(), {});
          SizesKept(l1, m1, live, M());
        } else {
          i := 1;
        }
      }
    }

    // The part that splits the register: r gets a native register of its own.
    method Split(r: int, clobber: bool)
      requires Valid() && 0 <= r < |live.fate| && InReg(live, r) && |live.fat[live.fate[r].realreg].holds| > 1
      requires exists k :: 0 <= k < |live.fat| && k != live.fate[r].realreg && live.fat[k].locked == 0
      modifies this, e
      ensures Backed()
      ensures |live.fate| == |old(live).fate|
      ensures var l := if clobber then Dirtied(live, r) else live;
        Ok(l, M()) && Keeps(old(live), old(M()), l, M(), if clobber then {r} else {})
      ensures InReg(live, r) && 0 <= live.fate[r].realreg < |live.fat| && live.fat[live.fate[r].realreg].holds == [r]
      ensures live.fate[r].status == old(live).fate[r].status
    {
      hide Links, Coherent, Keeps, Unlinked, OthersClean, Value, Stored, X87.Mapped, X87.File, RegsOf, MemOf, Homes,
           Rounds;
      ghost var spare :| 0 <= spare < |live.fat| && spare != live.fate[r].realreg && live.fat[spare].locked == 0;
      RegAt(live, M(), r);
      ghost var l0, m0 := live, M();
      var was := live.fate[r];
      var rr := was.realreg;
      SetLock(rr, live.fat[rr].locked + 1);
      ghost var l1 := live;
      LockedOk(l0, m0, l1, rr, r);
      Disassociate(r);
      ghost var l2, m2 := live, M();
      DroppedIs(l1, m0, l2, r, rr);
      assert live.fat[spare].locked == 0;
      var n := AllocReg(r, true);
      ghost var l3, m3 := live, M();
      KeepsTrans(l1, m0, l2, m2, l3, m3, {r});
      LockedContents(l1, m0, l3, m3, rr, r);
      if !clobber { Copy(n, rr); }
      live := live.(fate := live.fate[r := FReg(was.status, n, live.fate[r].realind)]);
      assert live.fat[rr].locked - 1 == l0.fat[rr].locked;
      SetLock(rr, live.fat[rr].locked - 1);
      SplitIs(l0, m0, l1, l3, m3, live, M(), r, rr, n, clobber);
    }

    // f_make_exclusive. When r is about to be overwritten its copy need not be made; until then it
    // counts as changed.
    method MakeExclusive(r: int, clobber: bool)
      requires Valid() && 0 <= r < |live.fate|
      requires NeedsOther(live, r) ==>
        exists k :: 0 <= k < |live.fat| && k != live.fate[r].realreg && live.fat[k].locked == 0
      modifies this, e
      ensures Backed() && |live.fate| == |old(live).fate| && InReg(live, r) == old(InReg(live, r))
      ensures live.fate[r].status == old(live).fate[r].status
      ensures var l := if clobber && InReg(live, r) then Dirtied(live, r) else live;
        Ok(l, M()) && Keeps(old(live), old(M()), l, M(), if clobber then {r} else {})
      ensures InReg(live, r) ==> 0 <= live.fate[r].realreg < |live.fat| && live.fat[live.fate[r].realreg].holds == [r]
      ensures !InReg(live, r) ==> live == old(live) && M() == old(M())
    {
      hide Coherent, Keeps, X87.Mapped, X87.File, RegsOf, MemOf, Homes, Rounds;
      KeepsSame(live, M());
      KeepsMore(live, M(), live, M(), {r});
      if !InReg(live, r) { return; }
      var rr := live.fate[r].realreg;
      if |live.fat[rr].holds| == 1 {
        AsDirty(live, M(), r, live, M(), clobber);
        return;
      }
      var clean := AllOthersClean(r);
      if clean && live.fat[rr].locked == 0 {
        EvictOthers(r);
        AsDirty(old(live), old(M()), r, live, M(), clobber);
      } else {
        Split(r, clobber);
      }
    }

    method AllOthersClean(r: int) returns (clean: bool)
      requires Valid() && 0 <= r < |live.fate| && InReg(live, r)
      ensures clean == OthersClean(live, r)
    {
      var rr := live.fate[r].realreg;
      var i := 0;
      clean := true;
      while i < |live.fat[rr].holds|
        invariant 0 <= i <= |live.fat[rr].holds|
        invariant clean <==> forall j | 0 <= j < i ::
          var v := live.fat[rr].holds[j]; v != r ==> live.fate[v].status != DIRTY
      {
        var v := live.fat[rr].holds[i];
        if v != r && live.fate[v].status == DIRTY { clean := false; }
        i := i + 1;
      }
    }

    // f_writereg: r gets a native register of its own, whose old contents do not matter.
    method WriteReg(r: int) returns (n: int)
      requires Valid() && 0 <= r < |live.fate|
      requires NeedsOther(live, r) || !InReg(live, r) ==>
        exists k :: 0 <= k < |live.fat| && live.fat[k].locked == 0 && (InReg(live, r) ==> k != live.fate[r].realreg)
      modifies this, e
      ensures Valid() && KeepsLocking(old(live), old(M()), live, M(), {r}, n)
      ensures live.fate[r].status == DIRTY && live.fate[r].realreg == n && live.fat[n].holds == [r] && n in M().regs
    {
      hide Links, Coherent, Keeps, KeepsLocking, Value, X87.Mapped, X87.File, RegsOf, MemOf, Homes, Rounds;
      MakeExclusive(r, true);
      if InReg(live, r) {
        n := live.fate[r].realreg;
        live := Dirtied(live, r);
      } else {
        n := AllocReg(r, true);
      }
      RegAt(live, M(), r);
      LockKeeps(old(live), old(M()), live, M(), {r}, n);
      Lock(n);
    }

    // f_rmw: as f_writereg, but the native register holds the value of r.
    method Rmw(r: int) returns (n: int)
      requires Valid() && 0 <= r < |live.fate| && live.fate[r].status != UNDEF
      requires NeedsOther(live, r) || !InReg(live, r) ==>
        exists k :: 0 <= k < |live.fat| && live.fat[k].locked == 0 && (InReg(live, r) ==> k != live.fate[r].realreg)
      modifies this, e
      ensures Valid() && KeepsLocking(old(live), old(M()), live, M(), {r}, n)
      ensures live.fate[r].status == DIRTY && live.fate[r].realreg == n && live.fat[n].holds == [r]
      ensures n in M().regs && M().regs[n] == Value(old(live), old(M()), r)
    {
      hide Links, Coherent, Keeps, KeepsLocking, Value, X87.Mapped, X87.File, RegsOf, MemOf, Homes, Rounds;
      MakeExclusive(r, false);
      ghost var l1, m1 := live, M();
      KeptValue(old(live), old(M()), l1, m1, {}, r);
      KeepsMore(old(live), old(M()), l1, m1, {r});
      if InReg(live, r) {
        n := live.fate[r].realreg;
        KeepsSame(live, M());
        KeepsMore(live, M(), live, M(), {r});
      } else {
        n := AllocReg(r, false);
      }
      ghost var l2, m2 := live, M();
      KeepsTrans(old(live), old(M()), l1, m1, l2, m2, {r});
      DirtyKeeps(live, M(), r);
      KeepsMore(l2, m2, Dirtied(live, r), M(), {r});
      live := Dirtied(live, r);
      KeepsTrans(old(live), old(M()), l2, m2, live, M(), {r});
      RegAt(live, M(), r);
      DirtyValue(l2, m2, r);
      LockKeeps(old(live), old(M()), live, M(), {r}, n);
      Lock(n);
    }

    // fmov_rr with aliasing: d shares the native register of s.
    method FmovRr(d: int, s: int)
      requires Valid() && 0 <= d < |live.fate| && 0 <= s < |live.fate| && live.fate[s].status != UNDEF && MayEvict(d)
      requires !InReg(live, s) ==> exists k :: 0 <= k < |live.fat| && live.fat[k].locked == 0
      modifies this, e
      ensures Valid() && Keeps(old(live), old(M()), live, M(), {d, s})
      ensures live.fate[d].status != UNDEF && live.fate[s].status != UNDEF
      ensures Value(live, M(), d) == Value(live, M(), s) == Value(old(live), old(M()), s)
    {
      hide Links, Coherent, Keeps, KeepsLocking, Unlinked, Value, Carried, X87.Mapped, X87.File, RegsOf, MemOf, Homes,
           Rounds;
      KeepsSame(live, M());
      KeepsMore(live, M(), live, M(), {d, s});
      if d == s { return; }
      ghost var l0, m0 := live, M();
      Disassociate(d);
      ghost var l1, m1 := live, M();
      AfterDrop(l0, m0, l1, m1, d, s);
      var n := ReadReg(s);
      ghost var l2, m2 := live, M();
      RegAt(live, M(), s);
      SameSizes(l1, m1, l2, m2, {s}, n);
      LockedOne(l1, m1, l2, m2, {s}, n);
      Aliased(l0, m0, l1, m1, l2, m2, d, s, n);
      live := live.(fate := live.fate[d := FReg(DIRTY, n, |live.fat[n].holds|)],
                    fat := live.fat[n := live.fat[n].(holds := live.fat[n].holds + [d])]);
      SetLock(n, live.fat[n].locked - 1);
    }

    // The part of flush that concerns FP registers: the scratch and the clean ones are forgotten, the
    // others stored. Everything ends up in memory.
    method Flush(scratch: seq<bool>)
      requires Valid() && |scratch| == |live.fate| && forall n | 0 <= n < |live.fat| :: live.fat[n].locked == 0
      modifies this, e
      ensures Valid() && |live.fate| == |old(live).fate| && forall n | 0 <= n < |live.fat| :: live.fat[n].holds == []
      ensures forall v | 0 <= v < |live.fate| :: !InReg(live, v)
      ensures forall v | 0 <= v < |live.fate| && !scratch[v] && old(live).fate[v].status != UNDEF ::
        M().mem[v] == old(M()).round(Value(old(live), old(M()), v))
    {
      hide Links, Coherent, Unlinked, Stored, Keeps, Value, X87.Mapped, X87.File, RegsOf, MemOf, Homes, Rounds;
      ghost var l0, m0 := live, M();
      Unlocked(live, M(), scratch);
      var i := 0;
      while i < |scratch|
        invariant Valid() && SoFar(l0, m0, live, M(), scratch) && 0 <= i <= |scratch| == |live.fate|
        invariant forall v | 0 <= v < i && InReg(live, v) :: live.fate[v].status == DIRTY && !scratch[v]
      {
        if (scratch[i] || live.fate[i].status == CLEAN) && InReg(live, i) {
          ForgetSoFar(l0, m0, live, M(), i, scratch);
          Disassociate(i);
        }
        i := i + 1;
      }
      i := 0;
      while i < |scratch|
        invariant Valid() && SoFar(l0, m0, live, M(), scratch) && 0 <= i <= |scratch| == |live.fate|
        invariant forall v | 0 <= v < |scratch| && InReg(live, v) :: live.fate[v].status == DIRTY && !scratch[v]
        invariant forall v | 0 <= v < i :: !InReg(live, v)
      {
        if !scratch[i] && live.fate[i].status == DIRTY {
          StoreSoFar(l0, m0, live, M(), i, scratch);
          Evict(i);
        }
        i := i + 1;
      }
      Flushed(l0, m0, live, M(), scratch);
    }

    method SetLock(n: int, locked: nat)
      requires 0 <= n < |live.fat|
      modifies this`live
      ensures live == old(live).(fat := old(live).fat[n := old(live).fat[n].(locked := locked)])
    {
      live := live.(fat := live.fat[n := live.fat[n].(locked := locked)]);
    }
  }
}
