// Mid-level operations built on the allocator: what one emitted 68k-level
// operation does to the logical values of the virtual registers.

module JitOps {
  import opened Word32
  import opened JitState
  import opened JitAlloc

  // Between two operations only registers that are always in use are locked, and they hold nothing.
  predicate Idle(l: BigState)
    requires |l.native| == N_REGS
  {
    && (forall n | 0 <= n < N_REGS && CanByte(n) :: l.native[n].locked == 0)
    && (forall n | 0 <= n < N_REGS && l.native[n].locked > 0 :: |l.native[n].holds| == 0)
  }

  lemma IdleSpare(l: BigState, x: int)
    requires |l.native| == N_REGS && Idle(l)
    ensures Spare(l, x)
  {
    assert Eligible(l, 0, 1) && Eligible(l, 1, 1);
  }

  lemma IdleNotLocked(l: BigState, m: Machine, v: int)
    requires Inv(l, m) && Idle(l) && IsVreg(v)
    ensures !LockedAlone(l, v)
    ensures IsNreg(Where(l, v)) ==> l.native[Where(l, v)].locked == 0
  {
    if InReg(l.state[v]) { LinkAt(l, m, v); }
  }

  // With one operand locked there is still room for another one, which sits in no locked register
  // unless it is the same virtual register.
  lemma AfterRead(l0: BigState, m0: Machine, l1: BigState, m1: Machine, s: int, n: int, d: int)
    requires Inv(l0, m0) && Inv(l1, m1) && Idle(l0) && IsVreg(s) && IsVreg(d)
    requires LockedOneMore(l0, l1, n) && HeldBy(l1, n, s)
    requires LockedKept(l0, m0, l1, m1, Where(l0, s))
    ensures Spare(l1, Where(l1, d))
    ensures d != s ==> !LockedAlone(l1, d)
    ensures LockedKept(l0, m0, l1, m1, -1)
  {
    assert Eligible(l0, 0, 1) && Eligible(l0, 1, 1) && Eligible(l0, 2, 1);
    assert exists k :: k != Where(l1, d) && Eligible(l1, k, 1) by {
      var k := if 0 != Where(l1, d) && 0 != n then 0 else if 1 != Where(l1, d) && 1 != n then 1 else 2;
      assert Eligible(l1, k, 1);
    }
    IdleNotLocked(l0, m0, s);
    LockedKeptUnlocked(l0, m0, l1, m1, Where(l0, s), -1);
    LinkAt(l1, m1, s);
    if InReg(l1.state[d]) {
      LinkAt(l1, m1, d);
    }
  }

  lemma IdleAgain(l0: BigState, m0: Machine, l1: BigState, m1: Machine)
    requires Shape(l0, m0) && Shape(l1, m1) && Idle(l0) && SameLocks(l0, l1) && LockedKept(l0, m0, l1, m1, -1)
    ensures Idle(l1)
  {
  }

  // Every logical value but d's survives.
  predicate Preserves(l0: BigState, m0: Machine, l1: BigState, m1: Machine, d: int)
    requires Shape(l0, m0) && Shape(l1, m1)
  {
    forall v | 0 <= v < VREGS && v != d :: Keeps(l0, m0, l1, m1, v)
  }

  lemma PreservesFrom(l0: BigState, m0: Machine, l1: BigState, m1: Machine, r: int, d: int)
    requires Shape(l0, m0) && Shape(l1, m1) && IsVreg(r) && KeepsAllBut(l0, m0, l1, m1, r)
    requires r == d || Keeps(l0, m0, l1, m1, r)
    ensures Preserves(l0, m0, l1, m1, d)
  {
    hide Keeps;
    forall v | 0 <= v < VREGS && v != d
      ensures Keeps(l0, m0, l1, m1, v)
    {
      assert v != r ==> Kept(l0, m0, l1, m1, v);
    }
  }

  lemma PreservesTrans(l0: BigState, m0: Machine, l1: BigState, m1: Machine, l2: BigState, m2: Machine, d: int)
    requires Shape(l0, m0) && Shape(l1, m1) && Shape(l2, m2)
    requires Preserves(l0, m0, l1, m1, d) && Preserves(l1, m1, l2, m2, d)
    ensures Preserves(l0, m0, l2, m2, d)
  {
    forall v | 0 <= v < VREGS && v != d
      ensures Keeps(l0, m0, l2, m2, v)
    {
      KeepsTrans(l0, m0, l1, m1, l2, m2, v);
    }
  }

  lemma ValueKept(l0: BigState, m0: Machine, l1: BigState, m1: Machine, d: int, s: int)
    requires Shape(l0, m0) && Shape(l1, m1) && IsVreg(s) && s != d && Preserves(l0, m0, l1, m1, d)
    ensures Coh(l0, m0, s) ==> Coh(l1, m1, s) && Same(s, LogVal(l1, m1, s), LogVal(l0, m0, s))
  {
    hide Coh, LogVal, Ok;
    assert Coh(l0, m0, s) ==> Keeps(l0, m0, l1, m1, s);
  }

  // What is no operand is kept in every respect.
  predicate Untouched(l0: BigState, m0: Machine, l1: BigState, m1: Machine, d: int, s: int)
    requires Shape(l0, m0) && Shape(l1, m1)
  {
    forall v | 0 <= v < VREGS && v != d && v != s :: Kept(l0, m0, l1, m1, v)
  }

  lemma UntouchedFrom(l0: BigState, m0: Machine, l1: BigState, m1: Machine, r: int, d: int, s: int)
    requires Shape(l0, m0) && Shape(l1, m1) && KeepsAllBut(l0, m0, l1, m1, r) && (r == d || r == s)
    ensures Untouched(l0, m0, l1, m1, d, s)
  {
    hide Kept;
  }

  lemma UntouchedRefl(l: BigState, m: Machine, d: int, s: int)
    requires Shape(l, m)
    ensures Untouched(l, m, l, m, d, s)
  {
    hide Kept;
    KeepsAllRefl(l, m);
  }

  lemma UntouchedTrans(l0: BigState, m0: Machine, l1: BigState, m1: Machine, l2: BigState, m2: Machine, d: int, s: int)
    requires Shape(l0, m0) && Shape(l1, m1) && Shape(l2, m2)
    requires Untouched(l0, m0, l1, m1, d, s) && Untouched(l1, m1, l2, m2, d, s)
    ensures Untouched(l0, m0, l2, m2, d, s)
  {
    hide Kept;
    forall v | 0 <= v < VREGS && v != d && v != s
      ensures Kept(l0, m0, l2, m2, v)
    {
      KeptTrans(l0, m0, l1, m1, l2, m2, v);
    }
  }

  // Registers that are valid in part stay as they are when another one is dropped.
  predicate PartsStay(l0: BigState, l1: BigState, r: int)
    requires |l0.state| == |l1.state| == VREGS
  {
    forall v | 0 <= v < VREGS && v != r && !Wide(l0.state[v]) :: l1.state[v] == l0.state[v]
  }

  lemma DroppedParts(l0: BigState, m0: Machine, l1: BigState, m1: Machine, r: int)
    requires Inv(l0, m0) && Shape(l1, m1) && IsVreg(r)
    requires if InReg(l0.state[r]) then Dropped(l0, m0, l1, m1, r) else l1 == l0
    ensures PartsStay(l0, l1, r)
  {
    if InReg(l0.state[r]) {
      LinkAt(l0, m0, r);
      forall v | 0 <= v < VREGS && v != r && !Wide(l0.state[v])
        ensures !HeldBy(l0, l0.state[r].realreg, v)
      {
        OkAt(l0, m0, v);
        LinkAt(l0, m0, v);
      }
    }
  }

  lemma WidePreserved(l0: BigState, m0: Machine, l1: BigState, m1: Machine, d: int, v: int)
    requires Shape(l0, m0) && Shape(l1, m1) && IsVreg(v) && Preserves(l0, m0, l1, m1, d) && v != d
    ensures Wide(l0.state[v]) ==> Wide(l1.state[v])
  {
    KeepsWide(l0, m0, l1, m1, v);
  }

  // ---- constants, aliases and offsets ----

  method SetConst(a: Allocator, r: int, val: Word)
    requires a.Valid() && IsVreg(r) && !LockedAlone(a.live, r)
    modifies a
    ensures a.Valid()
    ensures KeepsAllBut(old(a.live), old(a.machine), a.live, a.machine, r)
    ensures Coh(a.live, a.machine, r) && LogVal(a.live, a.machine, r) == val
    ensures a.live.state[r].status == ISCONST && a.live.state[r].val == val
    ensures !InReg(old(a.live).state[r]) ==>
      a.machine == old(a.machine) && a.live == old(a.live).(state := old(a.live).state[r := a.live.state[r]])
    ensures PartsStay(old(a.live), a.live, r) && a.machine == old(a.machine)
    ensures SameLocks(old(a.live), a.live)
    ensures LockedKept(old(a.live), old(a.machine), a.live, a.machine, Where(old(a.live), r))
  {
    hide Keeps, KeepsAllBut, Ok, LockedKept;
    ghost var l0, m0 := a.live, a.machine;
    if InReg(l0.state[r]) { LinkAt(l0, m0, r); }
    a.Disassociate(r);
    ghost var l1, m1 := a.live, a.machine;
    DroppedParts(l0, m0, l1, m1, r);
    StatusOutsideRegs(l1, m1, r, l1.state[r].(val := val, status := ISCONST));
    a.SetState(r, a.live.state[r].(val := val));
    a.SetState(r, a.live.state[r].(status := ISCONST));
    assert a.live == l1.(state := l1.state[r := l1.state[r].(val := val, status := ISCONST)]);
    KeepsAllButTrans(l0, m0, l1, m1, a.live, a.machine, r);
    WhereIs(l0, m0, l1, m1, r);
    LockedKeptTrans(l0, m0, l1, m1, a.live, a.machine, Where(l0, r));
  }

  lemma StatusOutsideRegs(l: BigState, m: Machine, r: int, s: RegStatus)
    requires Inv(l, m) && IsVreg(r) && !InReg(l.state[r]) && !InReg(s)
    ensures var l1 := l.(state := l.state[r := s]);
      Inv(l1, m) && KeepsAllBut(l, m, l1, m, r) && SameLocks(l, l1) && forall x :: LockedKept(l, m, l1, m, x)
  {
    var l1 := l.(state := l.state[r := s]);
    KeepsOthers(l, m, l1, m, r);
    forall v | 0 <= v < VREGS
      ensures Ok(l1, v)
    {
      assert Ok(l, v);
    }
  }

  lemma WhereIs(l0: BigState, m0: Machine, l1: BigState, m1: Machine, r: int)
    requires Inv(l0, m0) && Shape(l1, m1) && IsVreg(r)
    requires LockedKept(l0, m0, l1, m1, l0.state[r].realreg)
    requires !InReg(l0.state[r]) ==> l1 == l0 && m1 == m0
    ensures LockedKept(l0, m0, l1, m1, Where(l0, r))
  {
  }

  method ForgetAbout(a: Allocator, r: int)
    requires a.Valid() && IsVreg(r) && !LockedAlone(a.live, r)
    modifies a
    ensures a.Valid()
    ensures KeepsAllBut(old(a.live), old(a.machine), a.live, a.machine, r)
    ensures a.live.state[r].status == UNDEF && a.live.state[r].val == ZERO
    ensures PartsStay(old(a.live), a.live, r) && a.machine == old(a.machine)
    ensures SameLocks(old(a.live), a.live)
    ensures LockedKept(old(a.live), old(a.machine), a.live, a.machine, Where(old(a.live), r))
  {
    hide Keeps, KeepsAllBut, Ok, LockedKept;
    ghost var l0, m0 := a.live, a.machine;
    if InReg(l0.state[r]) { LinkAt(l0, m0, r); }
    if InReg(a.live.state[r]) {
      a.Disassociate(r);
    } else {
      KeepsAllRefl(l0, m0);
      KeepsAllSplit(l0, m0, l0, m0, r);
      LockedKeptRefl(l0, m0);
      LockedKeptMore(l0, m0, l0, m0, l0.state[r].realreg);
    }
    ghost var l1, m1 := a.live, a.machine;
    DroppedParts(l0, m0, l1, m1, r);
    StatusOutsideRegs(l1, m1, r, l1.state[r].(val := ZERO, status := UNDEF));
    a.SetState(r, a.live.state[r].(val := ZERO));
    a.SetState(r, a.live.state[r].(status := UNDEF));
    assert a.live == l1.(state := l1.state[r := l1.state[r].(val := ZERO, status := UNDEF)]);
    KeepsAllButTrans(l0, m0, l1, m1, a.live, a.machine, r);
    WhereIs(l0, m0, l1, m1, r);
    LockedKeptTrans(l0, m0, l1, m1, a.live, a.machine, Where(l0, r));
  }

  // Putting d beside s in the native register n, with the same pending offset.
  lemma AliasKeeps(l: BigState, m: Machine, d: int, s: int, n: int)
    requires Inv(l, m) && IsVreg(d) && IsVreg(s) && d != s && !InReg(l.state[d])
    requires HeldBy(l, n, s) && IsNreg(n) && l.state[s].validsize == 4
    ensures var st := l.state[d].(val := l.state[s].val, validsize := 4, dirtysize := 4, status := DIRTY);
      var l1 := Attached(l, d, n, st, l.native[n].touched);
      && Inv(l1, m) && KeepsAllBut(l, m, l1, m, d) && SameLocks(l, l1)
      && Coh(l1, m, d)
      && (Coh(l, m, s) ==> LogVal(l1, m, d) == LogVal(l, m, s))
  {
    hide Add;
    var st := l.state[d].(val := l.state[s].val, validsize := 4, dirtysize := 4, status := DIRTY);
    var l1 := Attached(l, d, n, st, l.native[n].touched);
    AttachLinks(l, m, d, n, st, l.native[n].touched);
    LinkAt(l, m, s);
    forall v | 0 <= v < VREGS && v != d
      ensures Kept(l, m, l1, m, v)
    {
      OkAt(l, m, v);
      if HeldBy(l, n, v) { LinkAt(l, m, v); }
      assert HeldBy(l, n, v) && v != s ==> |l.native[n].holds| != 1;
    }
    forall v | 0 <= v < VREGS
      ensures Ok(l1, v)
    {
      assert v != d ==> Keeps(l, m, l1, m, v) && Ok(l, v);
    }
  }

  method MovLRR(a: Allocator, d: int, s: int)
    requires a.Valid() && IsVreg(d) && IsVreg(s) && Idle(a.live)
    modifies a
    ensures a.Valid() && Idle(a.live) && SameLocks(old(a.live), a.live)
    ensures Preserves(old(a.live), old(a.machine), a.live, a.machine, d)
    ensures Coh(old(a.live), old(a.machine), s) ==>
      Coh(a.live, a.machine, d) && Same(s, LogVal(a.live, a.machine, d), LogVal(old(a.live), old(a.machine), s))
    // A constant is handed on as such. Otherwise no code is emitted to copy the value: d and s share a
    // register afterwards.
    ensures d != s && old(a.live).state[s].status == ISCONST ==>
      && Untouched(old(a.live), old(a.machine), a.live, a.machine, d, d) && PartsStay(old(a.live), a.live, d)
      && a.live.state[d].status == ISCONST && a.live.state[d].val == old(a.live).state[s].val
    ensures d != s && old(a.live).state[s].status != ISCONST ==>
      Where(a.live, d) == Where(a.live, s) != -1
    ensures d != s ==>
      Wide(a.live.state[d]) && Wide(a.live.state[s])
      && Untouched(old(a.live), old(a.machine), a.live, a.machine, d, s)
    ensures d == s ==> a.live == old(a.live) && a.machine == old(a.machine)
  {
    hide Keeps, KeepsAllBut, KeepsAll, Ok, LockedKept, Coh, LogVal, Add, Agree, Preserves, Untouched;
    ghost var l0, m0 := a.live, a.machine;
    KeepsAllRefl(l0, m0);
    KeepsAllSplit(l0, m0, l0, m0, d);
    PreservesFrom(l0, m0, l0, m0, d, d);
    SameRefl(s, LogVal(l0, m0, s));
    if d == s { return; }
    IdleNotLocked(l0, m0, d);
    if a.live.state[s].status == ISCONST {
      SetConst(a, d, a.live.state[s].val);
      ConstValue(l0, m0, s);
      ConstStays(l0, m0, a.live, a.machine, d, s);
      UntouchedFrom(l0, m0, a.live, a.machine, d, d, s);
      UntouchedFrom(l0, m0, a.live, a.machine, d, d, d);
      PreservesFrom(l0, m0, a.live, a.machine, d, d);
      LockedKeptUnlocked(l0, m0, a.live, a.machine, Where(l0, d), -1);
      IdleAgain(l0, m0, a.live, a.machine);
      return;
    }
    if InReg(l0.state[d]) { LinkAt(l0, m0, d); }
    a.Disassociate(d);
    ghost var l1, m1 := a.live, a.machine;
    PreservesFrom(l0, m0, l1, m1, d, d);
    UntouchedFrom(l0, m0, l1, m1, d, d, s);
    WhereIs(l0, m0, l1, m1, d);
    LockedKeptUnlocked(l0, m0, l1, m1, Where(l0, d), -1);
    IdleAgain(l0, m0, l1, m1);
    AliasTo(a, d, s);
    UntouchedTrans(l0, m0, l1, m1, a.live, a.machine, d, s);
    PreservesTrans(l0, m0, l1, m1, a.live, a.machine, d);
    ValueKept(l0, m0, l1, m1, d, s);
    if Coh(l0, m0, s) {
      AgreeTrans(s, 0, 4, LogVal(a.live, a.machine, d), LogVal(l1, m1, s), LogVal(l0, m0, s));
    }
  }

  // The aliasing half of mov_l_rr, for a d that sits in no register.
  method AliasTo(a: Allocator, d: int, s: int)
    requires a.Valid() && IsVreg(d) && IsVreg(s) && d != s && Idle(a.live) && !InReg(a.live.state[d])
    modifies a
    ensures a.Valid() && Idle(a.live) && SameLocks(old(a.live), a.live)
    ensures Preserves(old(a.live), old(a.machine), a.live, a.machine, d)
    ensures Coh(old(a.live), old(a.machine), s) ==>
      Coh(a.live, a.machine, d) && Same(s, LogVal(a.live, a.machine, d), LogVal(old(a.live), old(a.machine), s))
    ensures Where(a.live, d) == Where(a.live, s) != -1
    ensures Wide(a.live.state[d]) && Wide(a.live.state[s])
      && Untouched(old(a.live), old(a.machine), a.live, a.machine, d, s)
  {
    hide Keeps, KeepsAllBut, KeepsAll, Ok, Links, LockedKept, Coh, LogVal, Add, Agree, Preserves, Untouched;
    hide MustMove, RoomFor, Spare, ReadAtHand;
    ghost var l1, m1 := a.live, a.machine;
    IdleSpare(l1, Where(l1, s));
    SpareIsRoom(l1, m1, s, 4);
    IdleNotLocked(l1, m1, s);
    var n := a.ReadRegGeneral(s, 4, -1, true);
    ghost var l2, m2 := a.live, a.machine;
    PreservesFrom(l1, m1, l2, m2, s, d);
    UntouchedFrom(l1, m1, l2, m2, s, d, s);
    ValueKept(l1, m1, l2, m2, d, s);
    AfterRead(l1, m1, l2, m2, s, n, d);
    OkAt(l2, m2, s);
    LinkAt(l2, m2, s);
    StillNowhere(l1, m1, l2, m2, s, d);
    AliasKeeps(l2, m2, d, s, n);
    a.SetState(d, a.live.state[d].(realreg := n, realind := |a.live.native[n].holds|));
    a.SetState(d, a.live.state[d].(val := a.live.state[s].val, validsize := 4, dirtysize := 4, status := DIRTY));
    a.live := a.live.(native := a.live.native[n := a.live.native[n].(holds := a.live.native[n].holds + [d])]);
    ghost var l3 := a.live;
    assert l3 == Attached(l2, d, n,
                          l2.state[d].(val := l2.state[s].val, validsize := 4, dirtysize := 4, status := DIRTY),
                          l2.native[n].touched);
    PreservesFrom(l2, m2, l3, m2, d, d);
    UntouchedFrom(l2, m2, l3, m2, d, d, s);
    PreservesTrans(l1, m1, l2, m2, l3, m2, d);
    a.Unlock(n);
    LocksDisturbNothing(l3, m2, a.live);
    LogValLocks(l3, m2, a.live, d);
    KeepsAllSplit(l3, m2, a.live, m2, d);
    PreservesFrom(l3, m2, a.live, m2, d, d);
    PreservesTrans(l1, m1, l3, m2, a.live, m2, d);
    AliasDone(l1, m1, l2, m2, a.live, s, d, n);
    UntouchedFrom(l3, m2, a.live, m2, d, d, s);
    UntouchedTrans(l1, m1, l2, m2, l3, m2, d, s);
    UntouchedTrans(l1, m1, l3, m2, a.live, m2, d, s);
  }

  lemma SameRefl(v: int, x: Word)
    ensures Same(v, x, x)
  {
  }

  lemma ConstValue(l: BigState, m: Machine, s: int)
    requires Shape(l, m) && IsVreg(s) && l.state[s].status == ISCONST
    ensures LogVal(l, m, s) == l.state[s].val && Same(s, l.state[s].val, l.state[s].val)
  {
  }

  lemma ConstStays(l0: BigState, m0: Machine, l1: BigState, m1: Machine, d: int, s: int)
    requires Shape(l0, m0) && Shape(l1, m1) && IsVreg(s) && d != s && KeepsAllBut(l0, m0, l1, m1, d)
    ensures l0.state[s].status == ISCONST <==> l1.state[s].status == ISCONST
  {
    assert Kept(l0, m0, l1, m1, s);
  }

  lemma StillNowhere(l0: BigState, m0: Machine, l1: BigState, m1: Machine, s: int, d: int)
    requires Shape(l0, m0) && Shape(l1, m1) && IsVreg(d) && d != s && KeepsAllBut(l0, m0, l1, m1, s)
    requires !InReg(l0.state[d])
    ensures !InReg(l1.state[d])
  {
    assert Kept(l0, m0, l1, m1, d);
  }

  lemma StillClaims(l0: BigState, m0: Machine, l1: BigState, m1: Machine, s: int, d: int)
    requires Shape(l0, m0) && Shape(l1, m1) && IsVreg(d) && d != s && KeepsAllBut(l0, m0, l1, m1, s)
    ensures Claims(l0, d) ==> Claims(l1, d)
  {
    assert Kept(l0, m0, l1, m1, d);
  }

  lemma AliasDone(l1: BigState, m1: Machine, l2: BigState, m2: Machine, l4: BigState, s: int, d: int, n: int)
    requires Shape(l1, m1) && Shape(l2, m2) && Shape(l4, m2) && IsVreg(d) && IsVreg(s) && d != s && IsNreg(n)
    requires Idle(l1) && LockedOneMore(l1, l2, n) && LockedKept(l1, m1, l2, m2, -1)
    requires forall k | 0 <= k < N_REGS :: l4.native[k].locked == l2.native[k].locked - if k == n then 1 else 0
    requires forall k | 0 <= k < N_REGS && k != n :: l4.native[k].holds == l2.native[k].holds
    requires HeldBy(l2, n, s) && |l2.native[n].holds| > 0
    ensures SameLocks(l1, l4) && Idle(l4)
  {
  }

  // add_l_ri (and lea_l_brr with d == s) when the flags are not needed.
  method AddLRI(a: Allocator, d: int, i: Word)
    requires a.Valid() && IsVreg(d)
    modifies a`live
    ensures a.Valid()
    ensures KeepsAllBut(old(a.live), a.machine, a.live, a.machine, d)
    ensures SameLocks(old(a.live), a.live) && Where(a.live, d) == Where(old(a.live), d)
    ensures forall x :: x == Where(a.live, d) ==> LockedKept(old(a.live), a.machine, a.live, a.machine, x)
    ensures a.live.native == old(a.live).native
    ensures a.live == old(a.live).(state := old(a.live).state[d :=
      old(a.live).state[d].(val := Add(old(a.live).state[d].val, i))])
    ensures Coh(old(a.live), a.machine, d) && TakesOffset(old(a.live), d, i) ==>
      Coh(a.live, a.machine, d) && LogVal(a.live, a.machine, d) == Add(LogVal(old(a.live), a.machine, d), i)
    // What the allocator will make of d is the sum if and only if all of d is valid or d is in no
    // register, or the invalid bytes happen to be those in memory.
    ensures Coh(old(a.live), a.machine, d) ==>
      (Coh(a.live, a.machine, d) || Bent(a.live.state[d]))
      && (Same(d, Effective(a.live, a.machine, d), Add(LogVal(old(a.live), a.machine, d), i))
          <==> TakesOffset(old(a.live), d, i) || InvalidAgree(old(a.live), a.machine, d))
  {
    hide Coh, LogVal, Add, Links, KeepsAllBut, LockedKept, Effective, Same;
    ghost var l0, m := a.live, a.machine;
    OffsetAdded(l0, m, d, i);
    if Coh(l0, m, d) { OffsetValue(l0, m, d, i); }
    if i == ZERO {
      AddZero(LogVal(l0, m, d));
      AddZero(l0.state[d].val);
      assert l0 == l0.(state := l0.state[d := l0.state[d].(val := l0.state[d].val)]);
      return;
    }
    a.SetState(d, a.live.state[d].(val := Add(a.live.state[d].val, i)));
  }

  // The offset i can be pending on d.
  predicate TakesOffset(l: BigState, d: int, i: Word)
    requires |l.state| == VREGS && IsVreg(d)
  {
    i == ZERO || Wide(l.state[d])
  }

  // The bytes of the native register that are not valid are the same as in memory.
  predicate InvalidAgree(l: BigState, m: Machine, d: int)
    requires Shape(l, m) && IsVreg(d)
  {
    Same(d, NativeWord(l, m, d), Merge(m.home[d], NativeWord(l, m, d), l.state[d].validsize))
  }

  lemma OffsetAdded(l: BigState, m: Machine, d: int, i: Word)
    requires Inv(l, m) && IsVreg(d)
    ensures var l1 := l.(state := l.state[d := l.state[d].(val := Add(l.state[d].val, i))]);
      && Inv(l1, m) && KeepsAllBut(l, m, l1, m, d) && SameLocks(l, l1)
      && LockedKept(l, m, l1, m, Where(l, d))
      && LogVal(l1, m, d) == Add(LogVal(l, m, d), i)
  {
    var l1 := l.(state := l.state[d := l.state[d].(val := Add(l.state[d].val, i))]);
    KeepsOthers(l, m, l1, m, d);
    OkAt(l, m, d);
    assert forall v | 0 <= v < VREGS :: Ok(l, v) ==> Ok(l1, v);
    var s := l.state[d];
    AddAssociative(Merge(m.home[d], NativeWord(l, m, d), s.validsize), s.val, i);
    AddAssociative(m.home[d], s.val, i);
    AddZero(s.val);
  }

  lemma OffsetValue(l: BigState, m: Machine, d: int, i: Word)
    requires Inv(l, m) && IsVreg(d) && Coh(l, m, d)
    ensures var l1 := l.(state := l.state[d := l.state[d].(val := Add(l.state[d].val, i))]);
      && (TakesOffset(l, d, i) <==> Coh(l1, m, d))
      && (Coh(l1, m, d) || Bent(l1.state[d]))
      && (Same(d, Effective(l1, m, d), Add(LogVal(l, m, d), i)) <==> TakesOffset(l, d, i) || InvalidAgree(l, m, d))
  {
    hide Add, Links;
    var l1 := l.(state := l.state[d := l.state[d].(val := Add(l.state[d].val, i))]);
    var s, x := l.state[d], NativeWord(l, m, d);
    OffsetAdded(l, m, d, i);
    OkAt(l, m, d);
    AddZero(i);
    if i == ZERO {
      AddZero(s.val);
      AddZero(LogVal(l, m, d));
      assert l1.state[d] == s;
    } else if !Wide(s) {
      AddZero(Merge(m.home[d], x, s.validsize));
      AddCancelsSame(d, x, Merge(m.home[d], x, s.validsize), i);
    }
  }

  lemma AddCancelsSame(v: int, x: Word, y: Word, z: Word)
    ensures Same(v, Add(x, z), Add(y, z)) <==> Same(v, x, y)
  {
    if Same(v, x, y) { AddKeepsLowBytes(v, x, y, z); }
  }

  // What tomem() makes of an offset on a register that is only partly valid: it folds the offset into
  // the native register and stores all four bytes. What it stores is the logical value exactly if the
  // invalid high bytes happened to agree with memory.
  lemma NarrowOffsetStored(l: BigState, m: Machine, r: int)
    requires Inv(l, m) && IsVreg(r) && InReg(l.state[r]) && l.state[r].validsize < 4 && l.state[r].val != ZERO
    requires l.native[l.state[r].realreg].locked == 0
    ensures StoredWord(l, m, r) == Effective(l, m, r)
    ensures StoredWord(l, m, r) == LogVal(l, m, r)
      <==> Merge(m.home[r], NativeWord(l, m, r), l.state[r].validsize) == NativeWord(l, m, r)
  {
    hide Add;
    OkAt(l, m, r);
    LinkAt(l, m, r);
    var x := NativeWord(l, m, r);
    if StoredWord(l, m, r) == LogVal(l, m, r) {
      AddCancels(x, Merge(m.home[r], x, l.state[r].validsize), l.state[r].val);
    }
  }

  lemma AddCancels(x: Word, y: Word, z: Word)
    requires Add(x, z) == Add(y, z)
    ensures x == y
  {
    hide Add;
    AddWraps(x, z);
    AddWraps(y, z);
    ValueInjective(x, y);
  }

  // ---- two-operand instructions ----

  predicate LowAgree(size: int, x: Word, y: Word) {
    x.b0 == y.b0 && (size >= 2 ==> x.b1 == y.b1) && (size >= 4 ==> x.hi == y.hi)
  }

  // The low `size` bytes of the result depend on those of the operands only.
  ghost predicate Local(op: (Word, Word) -> Word, size: int) {
    forall x, y, x', y' ::
      LowAgree(size, x, x') && LowAgree(size, y, y') ==> LowAgree(size, op(x, y), op(x', y'))
  }

  // Overwriting the low bytes of the register r has for itself.
  lemma RawWriteValue(l: BigState, m: Machine, r: int, n: int, w: Word, size: int)
    requires Inv(l, m) && Placed(l, r, n) && IsSize(size)
    requires l.state[r].status == DIRTY && l.state[r].val == ZERO
    requires size <= l.state[r].validsize && size <= l.state[r].dirtysize && Coh(l, m, r)
    ensures var m1 := m.(regs := m.regs[n := Merge(m.regs[n], w, size)]);
      && Coh(l, m1, r)
      && Agree(r, 0, size, LogVal(l, m1, r), w)
      && Agree(r, size, 4, LogVal(l, m1, r), LogVal(l, m, r))
  {
    hide Add;
    OkAt(l, m, r);
    var x := Merge(m.regs[n], w, size);
    AddZero(Merge(m.home[r], x, l.state[r].validsize));
    AddZero(Merge(m.home[r], m.regs[n], l.state[r].validsize));
  }

  lemma AluValue(op: (Word, Word) -> Word, size: int, d: int, s: int,
                 d0: Word, s0: Word, d1: Word, x: Word, y: Word, d2: Word, d3: Word)
    requires IsSize(size) && Local(op, size)
    requires Same(d, d1, d0) && Agree(d, 0, size, x, d1) && Agree(s, 0, size, y, s0)
    requires Agree(d, size, 4, d2, d1) && Agree(d, size, 4, d3, d2) && Agree(d, 0, size, d3, op(x, y))
    requires size < 4 || (d != FLAGX && s != FLAGX)
    ensures Same(d, d3, Merge(d0, op(d0, s0), size))
  {
    assert LowAgree(size, x, d0) && LowAgree(size, y, s0);
    assert LowAgree(size, op(x, y), op(d0, s0));
  }

  predicate LockedTwoMore(l0: BigState, l1: BigState, n: int, k: int)
    requires |l0.native| == N_REGS && |l1.native| == N_REGS
  {
    IsNreg(n) && IsNreg(k) && forall i | 0 <= i < N_REGS ::
      l1.native[i].locked == l0.native[i].locked + (if i == n then 1 else 0) + (if i == k then 1 else 0)
  }

  lemma LockedBoth(l0: BigState, m0: Machine, l1: BigState, m1: Machine, l2: BigState, m2: Machine,
                   s: int, d: int, n: int, k: int)
    requires Inv(l0, m0) && Inv(l1, m1) && Inv(l2, m2) && Idle(l0) && IsVreg(s) && IsVreg(d)
    requires LockedOneMore(l0, l1, n) && LockedOneMore(l1, l2, k)
    requires LockedKept(l0, m0, l1, m1, -1) && LockedKept(l1, m1, l2, m2, Where(l1, d))
    ensures LockedTwoMore(l0, l2, n, k) && LockedKept(l0, m0, l2, m2, -1)
    ensures m2.regs[n] == m1.regs[n]
  {
    if InReg(l1.state[d]) { LinkAt(l1, m1, d); }
    forall i | 0 <= i < N_REGS && l0.native[i].locked > 0
      ensures l2.native[i].holds == l0.native[i].holds
      ensures forall v | 0 <= v < VREGS :: !HeldBy(l0, i, v)
    {
      assert l1.native[i].holds == [];
      assert Where(l1, d) != i;
      forall v | 0 <= v < VREGS
        ensures !HeldBy(l0, i, v)
      {
        if InReg(l0.state[v]) { LinkAt(l0, m0, v); }
      }
    }
  }

  // The operands of a two-operand instruction: s read, d read and about to be written.
  method Operands(a: Allocator, d: int, s: int, size: int) returns (nd: int, ns: int)
    requires a.Valid() && IsVreg(d) && IsVreg(s) && IsSize(size) && Idle(a.live)
    modifies a
    ensures a.Valid() && Preserves(old(a.live), old(a.machine), a.live, a.machine, d)
    ensures Placed(a.live, d, nd) && LockedTwoMore(old(a.live), a.live, ns, nd)
    ensures LockedKept(old(a.live), old(a.machine), a.live, a.machine, -1)
    ensures a.live.state[d].status == DIRTY && a.live.state[d].val == ZERO
    ensures size <= a.live.state[d].validsize && size <= a.live.state[d].dirtysize
    ensures Coh(old(a.live), old(a.machine), d) ==>
      && Coh(a.live, a.machine, d)
      && Agree(d, 0, size, a.machine.regs[nd], LogVal(old(a.live), old(a.machine), d))
      && Agree(d, size, 4, LogVal(a.live, a.machine, d), LogVal(old(a.live), old(a.machine), d))
    ensures Coh(old(a.live), old(a.machine), s) ==>
      Agree(s, 0, size, a.machine.regs[ns], LogVal(old(a.live), old(a.machine), s))
    ensures Wide(old(a.live).state[d]) || size == 4 ==> Wide(a.live.state[d])
    ensures size == 4 ==> Wide(a.live.state[s])
    ensures a.live.state[s].status != ISCONST
    ensures Untouched(old(a.live), old(a.machine), a.live, a.machine, d, s)
  {
    hide Keeps, KeepsAllBut, Ok, LockedKept, Coh, LogVal, Add, Agree, Preserves, Links, Spare, RoomFor, Idle,
         LockedOneMore, Untouched;
    ghost var l0, m0 := a.live, a.machine;
    IdleSpare(l0, Where(l0, s));
    SpareIsRoom(l0, m0, s, size);
    IdleNotLocked(l0, m0, s);
    ns := a.ReadRegGeneral(s, size, -1, false);
    ghost var l1, m1 := a.live, a.machine;
    AddZero(m1.regs[ns]);
    PreservesFrom(l0, m0, l1, m1, s, d);
    PreservesFrom(l0, m0, l1, m1, s, -1);
    UntouchedFrom(l0, m0, l1, m1, s, d, s);
    ValueKept(l0, m0, l1, m1, -1, d);
    AfterRead(l0, m0, l1, m1, s, ns, d);
    SpareIsRoom(l1, m1, d, size);
    OkAt(l1, m1, s);
    WidePreserved(l0, m0, l1, m1, -1, d);
    nd := a.RmwGeneral(d, size, size, -1);
    ghost var l2, m2 := a.live, a.machine;
    OkAt(l2, m2, d);
    UntouchedFrom(l1, m1, l2, m2, d, d, s);
    PreservesFrom(l1, m1, l2, m2, d, d);
    PreservesTrans(l0, m0, l1, m1, l2, m2, d);
    UntouchedTrans(l0, m0, l1, m1, l2, m2, d, s);
    if s != d {
      WidePreserved(l1, m1, l2, m2, d, s);
      ConstStays(l1, m1, l2, m2, d, s);
    }
    LockedBoth(l0, m0, l1, m1, l2, m2, s, d, ns, nd);
    if Coh(l0, m0, d) {
      AgreeTrans(d, 0, size, m2.regs[nd], LogVal(l1, m1, d), LogVal(l0, m0, d));
      AgreeTrans(d, size, 4, LogVal(l2, m2, d), LogVal(l1, m1, d), LogVal(l0, m0, d));
    }
  }

  lemma UnlockedAgain(l0: BigState, m0: Machine, l1: BigState, m1: Machine, l2: BigState, n: int, k: int)
    requires Shape(l0, m0) && Inv(l1, m1) && Shape(l2, m1) && Idle(l0)
    requires LockedTwoMore(l0, l1, n, k) && LockedKept(l0, m0, l1, m1, -1)
    requires l2.state == l1.state && SameHolds(l1, l2)
    requires forall i | 0 <= i < N_REGS ::
      l2.native[i].locked == l1.native[i].locked - (if i == n then 1 else 0) - (if i == k then 1 else 0)
    ensures Inv(l2, m1) && KeepsAll(l1, m1, l2, m1) && SameLocks(l0, l2) && Idle(l2)
  {
    LocksDisturbNothing(l1, m1, l2);
  }

  // s=readreg(s,size); d=rmw(d,size,size); raw_op(d,s); unlock(d); unlock(s);
  method AluRR(a: Allocator, op: (Word, Word) -> Word, d: int, s: int, size: int)
    requires a.Valid() && IsVreg(d) && IsVreg(s) && IsSize(size) && Idle(a.live) && Local(op, size)
    modifies a
    ensures a.Valid() && Idle(a.live) && SameLocks(old(a.live), a.live)
    ensures Preserves(old(a.live), old(a.machine), a.live, a.machine, d)
    ensures Coh(old(a.live), old(a.machine), d) && Coh(old(a.live), old(a.machine), s) ==>
      && Coh(a.live, a.machine, d)
      && (size < 4 || (d != FLAGX && s != FLAGX) ==>
            var d0, s0 := LogVal(old(a.live), old(a.machine), d), LogVal(old(a.live), old(a.machine), s);
            Same(d, LogVal(a.live, a.machine, d), Merge(d0, op(d0, s0), size)))
    ensures Wide(old(a.live).state[d]) || size == 4 ==> Wide(a.live.state[d])
    ensures size == 4 ==> Wide(a.live.state[s])
    ensures InReg(a.live.state[d]) && a.live.state[s].status != ISCONST
    ensures Untouched(old(a.live), old(a.machine), a.live, a.machine, d, s)
  {
    hide Keeps, KeepsAllBut, KeepsAll, Ok, LockedKept, Coh, LogVal, Add, Agree, Preserves, Links, Idle, Local, Merge,
         Untouched;
    ghost var l0, m0 := a.live, a.machine;
    var nd, ns := Operands(a, d, s, size);
    ghost var l2, m2 := a.live, a.machine;
    var w := op(a.machine.regs[nd], a.machine.regs[ns]);
    OkAt(l2, m2, d);
    RestatusKeeps(l2, m2, d, nd, l2.state[d], Merge(m2.regs[nd], w, size));
    assert l2.(state := l2.state[d := l2.state[d]]) == l2;
    a.RawMovImm(nd, Merge(a.machine.regs[nd], w, size));
    ghost var m3 := a.machine;
    PreservesFrom(l2, m2, l2, m3, d, d);
    PreservesTrans(l0, m0, l2, m2, l2, m3, d);
    a.Unlock(nd);
    a.Unlock(ns);
    LockedKeptElsewhere(l0, m0, l2, m2, m3, nd);
    UnlockedAgain(l0, m0, l2, m3, a.live, ns, nd);
    KeepsAllSplit(l2, m3, a.live, m3, d);
    PreservesFrom(l2, m3, a.live, m3, d, d);
    PreservesTrans(l0, m0, l2, m3, a.live, m3, d);
    LogValLocks(l2, m3, a.live, d);
    UntouchedFrom(l2, m2, l2, m3, d, d, s);
    UntouchedFrom(l2, m3, a.live, m3, d, d, s);
    UntouchedTrans(l0, m0, l2, m2, l2, m3, d, s);
    UntouchedTrans(l0, m0, l2, m3, a.live, m3, d, s);
    if Coh(l0, m0, d) && Coh(l0, m0, s) {
      RawWriteValue(l2, m2, d, nd, w, size);
      SameRefl(d, LogVal(l0, m0, d));
      if size < 4 || (d != FLAGX && s != FLAGX) {
        AluValue(op, size, d, s, LogVal(l0, m0, d), LogVal(l0, m0, s), LogVal(l0, m0, d),
                 m2.regs[nd], m2.regs[ns], LogVal(l2, m2, d), LogVal(a.live, m3, d));
      }
    }
  }

  // A register that was not locked at first may change without harm.
  lemma LockedKeptElsewhere(l0: BigState, m0: Machine, l1: BigState, m1: Machine, m2: Machine, n: int)
    requires Shape(l0, m0) && Shape(l1, m1) && Shape(l1, m2) && IsNreg(n)
    requires Idle(l0) && LockedKept(l0, m0, l1, m1, -1) && |l1.native[n].holds| > 0
    requires m2 == m1.(regs := m1.regs[n := m2.regs[n]])
    ensures LockedKept(l0, m0, l1, m2, -1)
  {
  }

  // ---- partial moves ----

  lemma MergedValue(d: int, s: int, size: int, d0: Word, s0: Word, d2: Word, d3: Word, w: Word)
    requires size == 1 || size == 2
    requires Agree(d, size, 4, d2, d0) && Agree(d, size, 4, d3, d2)
    requires Agree(d, 0, size, d3, w) && Agree(s, 0, size, w, s0)
    ensures Same(d, d3, Merge(d0, s0, size))
  {
  }

  // A register that was up to date in memory has its low `size` bytes valid now and no others. If its
  // native register was empty, the other bytes are those that happened to be there.
  predicate Narrowed(l0: BigState, m0: Machine, l1: BigState, m1: Machine, d: int, w: Word, size: int)
    requires Shape(l0, m0) && Shape(l1, m1) && IsVreg(d)
  {
    var n := Where(l1, d);
    && IsNreg(n) && l1.state[d].validsize == size && l1.state[d].val == ZERO
    && (l0.native[n].holds == [] ==> m1 == m0.(regs := m0.regs[n := Merge(m0.regs[n], w, size)]))
  }

  // d=writereg(d,size); raw_mov(d,w); unlock(d);
  method WriteLow(a: Allocator, d: int, w: Word, size: int)
    requires a.Valid() && IsVreg(d) && (size == 1 || size == 2)
    requires Spare(a.live, Where(a.live, d)) && !LockedAlone(a.live, d)
    modifies a
    ensures a.Valid() && KeepsAllBut(old(a.live), old(a.machine), a.live, a.machine, d)
    ensures SameLocks(old(a.live), a.live)
    ensures LockedKept(old(a.live), old(a.machine), a.live, a.machine, Where(old(a.live), d))
    ensures Coh(old(a.live), old(a.machine), d) ==>
      && Coh(a.live, a.machine, d)
      && Same(d, LogVal(a.live, a.machine, d), Merge(LogVal(old(a.live), old(a.machine), d), w, size))
    ensures Claims(old(a.live), d) ==> Narrowed(old(a.live), old(a.machine), a.live, a.machine, d, w, size)
    ensures InReg(a.live.state[d])
  {
    hide Keeps, KeepsAllBut, KeepsAll, Ok, LockedKept, Coh, LogVal, Add, Agree, Same, Links, Merge, Spare, RoomFor;
    ghost var l0, m0 := a.live, a.machine;
    SpareIsRoom(l0, m0, d, size);
    var nd := a.WriteRegGeneral(d, size, -1);
    ghost var l1, m1 := a.live, a.machine;
    OkAt(l1, m1, d);
    RestatusKeeps(l1, m1, d, nd, l1.state[d], Merge(m1.regs[nd], w, size));
    assert l1.(state := l1.state[d := l1.state[d]]) == l1;
    a.RawMovImm(nd, Merge(a.machine.regs[nd], w, size));
    KeepsAllButTrans(l0, m0, l1, m1, l1, a.machine, d);
    a.Unlock(nd);
    WroteUnlocked(l0, m0, l1, m1, a.machine, a.live, d, nd);
    LocksDisturbNothing(l1, a.machine, a.live);
    KeepsAllIsBut(l0, m0, l1, a.machine, a.live, a.machine, d);
    LogValLocks(l1, a.machine, a.live, d);
    if Coh(l0, m0, d) {
      RawWriteValue(l1, m1, d, nd, w, size);
      AgreeRefl(d, 0, size, w);
      MergedValue(d, d, size, LogVal(l0, m0, d), w, LogVal(l1, m1, d), LogVal(a.live, a.machine, d), w);
    }
  }

  lemma AgreeRefl(v: int, lo: int, hi: int, x: Word)
    ensures Agree(v, lo, hi, x, x)
  {
  }

  lemma WroteUnlocked(l0: BigState, m0: Machine, l1: BigState, m1: Machine, m2: Machine, l2: BigState, d: int, n: int)
    requires Inv(l0, m0) && Shape(l1, m1) && Shape(l1, m2) && Shape(l2, m2) && IsVreg(d) && IsNreg(n)
    requires LockedOneMore(l0, l1, n) && LockedKept(l0, m0, l1, m1, Where(l0, d)) && Placed(l1, d, n)
    requires !LockedAlone(l0, d)
    requires m2 == m1.(regs := m1.regs[n := m2.regs[n]])
    requires l2.state == l1.state && SameHolds(l1, l2)
    requires forall k | 0 <= k < N_REGS :: l2.native[k].locked == l1.native[k].locked - if k == n then 1 else 0
    ensures SameLocks(l0, l2) && (l0.native[n].locked == 0 ==> LockedKept(l0, m0, l2, m2, Where(l0, d)))
  {
  }

  // ---- one-operand instructions and immediates ----

  ghost predicate LocalAt(op: Word -> Word, size: int) {
    forall x, x' :: LowAgree(size, x, x') ==> LowAgree(size, op(x), op(x'))
  }

  lemma AluAtValue(op: Word -> Word, size: int, d: int, d0: Word, d1: Word, x: Word, d2: Word)
    requires IsSize(size) && LocalAt(op, size) && (size < 4 || d != FLAGX)
    requires Agree(d, 0, size, x, d0) && Agree(d, size, 4, d1, d0)
    requires Agree(d, size, 4, d2, d1) && Agree(d, 0, size, d2, op(x))
    ensures Same(d, d2, Merge(d0, op(d0), size))
  {
    assert LowAgree(size, x, d0);
  }

  // What an idle allocator has locked is never given to anyone.
  lemma FreeBefore(l0: BigState, m0: Machine, l1: BigState, m1: Machine, d: int, n: int)
    requires Inv(l0, m0) && Shape(l1, m1) && Idle(l0) && Placed(l1, d, n)
    requires LockedKept(l0, m0, l1, m1, Where(l0, d))
    ensures l0.native[n].locked == 0
  {
    if InReg(l0.state[d]) { LinkAt(l0, m0, d); }
  }

  // d=rmw(d,size,size); raw_op(d); unlock(d);
  method AluRI(a: Allocator, op: Word -> Word, d: int, size: int)
    requires a.Valid() && IsVreg(d) && IsSize(size) && Idle(a.live) && LocalAt(op, size)
    modifies a
    ensures a.Valid() && Idle(a.live) && SameLocks(old(a.live), a.live)
    ensures Preserves(old(a.live), old(a.machine), a.live, a.machine, d)
    ensures Coh(old(a.live), old(a.machine), d) ==>
      && Coh(a.live, a.machine, d)
      && (size < 4 || d != FLAGX ==>
            var d0 := LogVal(old(a.live), old(a.machine), d);
            Same(d, LogVal(a.live, a.machine, d), Merge(d0, op(d0), size)))
    ensures InReg(a.live.state[d]) && (Wide(old(a.live).state[d]) || size == 4 ==> Wide(a.live.state[d]))
    ensures Untouched(old(a.live), old(a.machine), a.live, a.machine, d, d)
  {
    hide Keeps, KeepsAllBut, KeepsAll, Ok, LockedKept, Coh, LogVal, Add, Agree, Same, Links, Merge, Spare, RoomFor,
         Preserves, Untouched, LocalAt, Idle;
    ghost var l0, m0 := a.live, a.machine;
    IdleSpare(l0, Where(l0, d));
    SpareIsRoom(l0, m0, d, size);
    IdleNotLocked(l0, m0, d);
    var nd := a.RmwGeneral(d, size, size, -1);
    ghost var l1, m1 := a.live, a.machine;
    OkAt(l1, m1, d);
    FreeBefore(l0, m0, l1, m1, d, nd);
    var w := op(a.machine.regs[nd]);
    RestatusKeeps(l1, m1, d, nd, l1.state[d], Merge(m1.regs[nd], w, size));
    assert l1.(state := l1.state[d := l1.state[d]]) == l1;
    a.RawMovImm(nd, Merge(a.machine.regs[nd], w, size));
    KeepsAllButTrans(l0, m0, l1, m1, l1, a.machine, d);
    a.Unlock(nd);
    WroteUnlocked(l0, m0, l1, m1, a.machine, a.live, d, nd);
    LocksDisturbNothing(l1, a.machine, a.live);
    KeepsAllIsBut(l0, m0, l1, a.machine, a.live, a.machine, d);
    LogValLocks(l1, a.machine, a.live, d);
    PreservesFrom(l0, m0, a.live, a.machine, d, d);
    UntouchedFrom(l0, m0, a.live, a.machine, d, d, d);
    LockedKeptUnlocked(l0, m0, a.live, a.machine, Where(l0, d), -1);
    IdleAgain(l0, m0, a.live, a.machine);
    if Coh(l0, m0, d) {
      RawWriteValue(l1, m1, d, nd, w, size);
      if size < 4 || d != FLAGX {
        AluAtValue(op, size, d, LogVal(l0, m0, d), LogVal(l1, m1, d), m1.regs[nd], LogVal(a.live, a.machine, d));
      }
    }
  }

  // ---- sums ----

  function Sum(minus: bool, x: Word, y: Word): Word { if minus then Sub(x, y) else Add(x, y) }

  function Signed(minus: bool, i: Word): Word { if minus then Neg(i) else i }

  lemma SumIsOffset(minus: bool, x: Word, i: Word)
    ensures Sum(minus, x, i) == Add(x, Signed(minus, i)) && (Signed(minus, i) == ZERO <==> i == ZERO)
  {
    hide Add, Sub, Neg;
    SubIsAdd(x, i);
    NegZero(i);
  }

  lemma SumIsLocal(minus: bool, size: int)
    requires IsSize(size)
    ensures Local((x, y) => Sum(minus, x, y), size)
  {
  }

  lemma SumIsLocalAt(minus: bool, i: Word, size: int)
    requires IsSize(size)
    ensures LocalAt(x => Sum(minus, x, i), size)
  {
  }

  // Of the immediate only the low bytes matter.
  lemma SumOfLow(minus: bool, x: Word, y: Word, size: int)
    requires IsSize(size)
    ensures Merge(x, Sum(minus, x, Merge(ZERO, y, size)), size) == Merge(x, Sum(minus, x, y), size)
  {
  }

  // Adding the immediate is left to the bookkeeping, or there is nothing to add.
  predicate Offsets(i: Word, size: int, flags: bool) { !flags && (size == 4 || i == ZERO) }

  lemma SumNothing(minus: bool, x: Word, size: int)
    requires IsSize(size)
    ensures Merge(x, Sum(minus, x, ZERO), size) == x
  {
    SumIsOffset(minus, x, ZERO);
    AddZero(x);
    hide Sum, Add;
  }

  // add_l_ri, add_w_ri, add_b_ri, sub_l_ri, sub_w_ri, sub_b_ri; `flags` says whether the flags are needed.
  method SumRI(a: Allocator, minus: bool, d: int, i: Word, size: int, flags: bool)
    requires a.Valid() && IsVreg(d) && IsSize(size) && Idle(a.live)
    modifies a
    ensures a.Valid() && Idle(a.live) && SameLocks(old(a.live), a.live)
    ensures Preserves(old(a.live), old(a.machine), a.live, a.machine, d)
    ensures Untouched(old(a.live), old(a.machine), a.live, a.machine, d, d)
    ensures Coh(old(a.live), old(a.machine), d) && (size < 4 || d != FLAGX || !flags)
            && (Offsets(i, size, flags) ==> TakesOffset(old(a.live), d, i)) ==>
      && Coh(a.live, a.machine, d)
      && var d0 := LogVal(old(a.live), old(a.machine), d);
         Same(d, LogVal(a.live, a.machine, d), Merge(d0, Sum(minus, d0, i), size))
    ensures Offsets(i, size, flags) ==>
      && a.machine == old(a.machine)
      && a.live == old(a.live).(state := old(a.live).state[d :=
           old(a.live).state[d].(val := Add(old(a.live).state[d].val, Signed(minus, i)))])
    ensures !Offsets(i, size, flags) ==>
      InReg(a.live.state[d]) && (Wide(old(a.live).state[d]) || size == 4 ==> Wide(a.live.state[d]))
    // What the allocator makes of an offset is the sum if and only if all of d is valid or d is in no
    // register, or the invalid bytes happen to be those in memory.
    ensures Coh(old(a.live), old(a.machine), d) && !flags && size == 4 ==>
      && (Coh(a.live, a.machine, d) || Bent(a.live.state[d]))
      && (Same(d, Effective(a.live, a.machine, d), Sum(minus, LogVal(old(a.live), old(a.machine), d), i))
          <==> TakesOffset(old(a.live), d, i) || InvalidAgree(old(a.live), old(a.machine), d))
  {
    hide Keeps, KeepsAllBut, Ok, LockedKept, Coh, LogVal, Add, Same, Links, Preserves, Untouched, Effective, Sum,
         Signed, InvalidAgree, LocalAt;
    ghost var l0, m0 := a.live, a.machine;
    SumIsOffset(minus, LogVal(l0, m0, d), i);
    if size == 4 && !flags {
      AddLRI(a, d, if minus then Neg(i) else i);
      SumOffset(l0, m0, a.live, d, minus, i);
      PreservesFrom(l0, m0, a.live, a.machine, d, d);
      UntouchedFrom(l0, m0, a.live, a.machine, d, d, d);
      SameRefl(d, LogVal(a.live, a.machine, d));
      return;
    }
    if i == ZERO && !flags {
      SumNothing(minus, LogVal(l0, m0, d), size);
      UntouchedRefl(l0, m0, d, d);
      KeepsAllRefl(l0, m0);
      KeepsAllSplit(l0, m0, l0, m0, d);
      PreservesFrom(l0, m0, l0, m0, d, d);
      SameRefl(d, LogVal(l0, m0, d));
      AddZero(l0.state[d].val);
      assert l0 == l0.(state := l0.state[d := l0.state[d].(val := l0.state[d].val)]);
      return;
    }
    SumIsLocalAt(minus, i, size);
    AluRI(a, x => Sum(minus, x, i), d, size);
  }

  lemma SumOffset(l0: BigState, m: Machine, l1: BigState, d: int, minus: bool, i: Word)
    requires Shape(l0, m) && Shape(l1, m) && IsVreg(d) && Idle(l0) && l1.native == l0.native
    ensures Idle(l1) && Signed(minus, i) == (if minus then Neg(i) else i)
    ensures TakesOffset(l0, d, Signed(minus, i)) <==> TakesOffset(l0, d, i)
  {
    SumIsOffset(minus, ZERO, i);
  }

  // The immediate that a constant register stands for.
  function Immediate(l: BigState, s: int, size: int): Word
    requires |l.state| == VREGS && IsVreg(s)
  {
    Merge(ZERO, l.state[s].val, size)
  }

  // A sum that is left to the bookkeeping can be.
  predicate TakesSum(l: BigState, d: int, s: int, size: int, flags: bool)
    requires |l.state| == VREGS && IsVreg(d) && IsVreg(s)
  {
    l.state[s].status == ISCONST && Offsets(Immediate(l, s, size), size, flags) ==>
      TakesOffset(l, d, Immediate(l, s, size))
  }

  // What d is afterwards. A long constant added without flags is right exactly where an offset is.
  predicate SumValue(l0: BigState, m0: Machine, l1: BigState, m1: Machine, minus: bool, d: int, s: int, size: int,
                     flags: bool)
    requires Shape(l0, m0) && Shape(l1, m1) && IsVreg(d) && IsVreg(s)
  {
    var d0, s0 := LogVal(l0, m0, d), LogVal(l0, m0, s);
    && (TakesSum(l0, d, s, size, flags) ==>
          Coh(l1, m1, d) && Same(d, LogVal(l1, m1, d), Merge(d0, Sum(minus, d0, s0), size)))
    && (!TakesSum(l0, d, s, size, flags) ==>
          && (Coh(l1, m1, d) || Bent(l1.state[d]))
          && (Same(d, Effective(l1, m1, d), Merge(d0, Sum(minus, d0, s0), size)) <==> InvalidAgree(l0, m0, d)))
  }

  // add_l, add_w, add_b, sub_l, sub_w, sub_b: a constant is as good as an immediate.
  method SumRR(a: Allocator, minus: bool, d: int, s: int, size: int, flags: bool)
    requires a.Valid() && IsVreg(d) && IsVreg(s) && IsSize(size) && Idle(a.live)
    modifies a
    ensures a.Valid() && Idle(a.live) && SameLocks(old(a.live), a.live)
    ensures Preserves(old(a.live), old(a.machine), a.live, a.machine, d)
    ensures Untouched(old(a.live), old(a.machine), a.live, a.machine, d, s)
    ensures Coh(old(a.live), old(a.machine), d) && Coh(old(a.live), old(a.machine), s)
            && (size < 4 || (d != FLAGX && s != FLAGX)) ==>
      SumValue(old(a.live), old(a.machine), a.live, a.machine, minus, d, s, size, flags)
    ensures old(a.live).state[s].status == ISCONST ==>
      var i := Immediate(old(a.live), s, size);
      && Untouched(old(a.live), old(a.machine), a.live, a.machine, d, d)
      && (Offsets(i, size, flags) ==>
           && a.machine == old(a.machine)
           && a.live == old(a.live).(state := old(a.live).state[d :=
                old(a.live).state[d].(val := Add(old(a.live).state[d].val, Signed(minus, i)))]))
      && (!Offsets(i, size, flags) ==>
           InReg(a.live.state[d]) && (Wide(old(a.live).state[d]) || size == 4 ==> Wide(a.live.state[d])))
    ensures old(a.live).state[s].status != ISCONST ==>
      && InReg(a.live.state[d]) && a.live.state[s].status != ISCONST
      && (Wide(old(a.live).state[d]) || size == 4 ==> Wide(a.live.state[d])) && (size == 4 ==> Wide(a.live.state[s]))
  {
    hide Keeps, KeepsAllBut, Ok, LockedKept, Coh, Add, Same, Links, Preserves, Untouched, Effective, Sum, Signed,
      InvalidAgree, Local, Merge, NativeWord;
    ghost var l0, m0 := a.live, a.machine;
    if a.live.state[s].status == ISCONST {
      ConstValue(l0, m0, s);
      SumOfLow(minus, LogVal(l0, m0, d), LogVal(l0, m0, s), size);
      if size == 4 {
        MergeAll(ZERO, LogVal(l0, m0, s));
        MergeAll(LogVal(l0, m0, d), Sum(minus, LogVal(l0, m0, d), LogVal(l0, m0, s)));
      }
      SumRI(a, minus, d, Merge(ZERO, a.live.state[s].val, size), size, flags);
      UntouchedMore(l0, m0, a.live, a.machine, d, s);
      return;
    }
    SumIsLocal(minus, size);
    AluRR(a, (x, y) => Sum(minus, x, y), d, s, size);
  }

  lemma MergeAll(x: Word, y: Word)
    ensures Merge(x, y, 4) == y
  {
  }

  lemma UntouchedMore(l0: BigState, m0: Machine, l1: BigState, m1: Machine, d: int, s: int)
    requires Shape(l0, m0) && Shape(l1, m1) && Untouched(l0, m0, l1, m1, d, d)
    ensures Untouched(l0, m0, l1, m1, d, s)
  {
  }

  // ---- constants folded while compiling ----

  // and_l_ri, or_l_ri
  method FoldRI(a: Allocator, op: Word -> Word, d: int, flags: bool)
    requires a.Valid() && IsVreg(d) && Idle(a.live) && LocalAt(op, 4)
    modifies a
    ensures a.Valid() && Idle(a.live) && SameLocks(old(a.live), a.live)
    ensures Preserves(old(a.live), old(a.machine), a.live, a.machine, d)
    ensures Untouched(old(a.live), old(a.machine), a.live, a.machine, d, d)
    ensures Coh(old(a.live), old(a.machine), d) && d != FLAGX ==>
      && Coh(a.live, a.machine, d)
      && Same(d, LogVal(a.live, a.machine, d), op(LogVal(old(a.live), old(a.machine), d)))
    ensures if old(a.live).state[d].status == ISCONST && !flags
      then a.machine == old(a.machine) && a.live == old(a.live).(state := old(a.live).state[d :=
        old(a.live).state[d].(val := op(old(a.live).state[d].val))])
      else InReg(a.live.state[d]) && Wide(a.live.state[d])
  {
    hide Keeps, KeepsAllBut, Ok, LockedKept, Coh, Add, Same, Links, Preserves, Untouched, LocalAt, NativeWord;
    ghost var l0, m0 := a.live, a.machine;
    if a.live.state[d].status == ISCONST && !flags {
      Refolded(l0, m0, d, op(l0.state[d].val));
      a.SetState(d, a.live.state[d].(val := op(a.live.state[d].val)));
      return;
    }
    AluRI(a, op, d, 4);
    MergeAll(LogVal(l0, m0, d), op(LogVal(l0, m0, d)));
  }

  // A constant becomes another one.
  lemma Refolded(l: BigState, m: Machine, d: int, w: Word)
    requires Inv(l, m) && IsVreg(d) && l.state[d].status == ISCONST && Idle(l)
    ensures var l1 := l.(state := l.state[d := l.state[d].(val := w)]);
      && Inv(l1, m) && Idle(l1) && SameLocks(l, l1) && Preserves(l, m, l1, m, d) && Untouched(l, m, l1, m, d, d)
      && Coh(l1, m, d) && LogVal(l1, m, d) == w && Same(d, w, w)
  {
    hide Keeps, KeepsAllBut, Preserves, Untouched;
    var l1 := l.(state := l.state[d := l.state[d].(val := w)]);
    StatusOutsideRegs(l, m, d, l.state[d].(val := w));
    PreservesFrom(l, m, l1, m, d, d);
    UntouchedFrom(l, m, l1, m, d, d, d);
  }

  // or_l
  method FoldRR(a: Allocator, op: (Word, Word) -> Word, d: int, s: int, flags: bool)
    requires a.Valid() && IsVreg(d) && IsVreg(s) && Idle(a.live) && Local(op, 4)
    modifies a
    ensures a.Valid() && Idle(a.live) && SameLocks(old(a.live), a.live)
    ensures Preserves(old(a.live), old(a.machine), a.live, a.machine, d)
    ensures Untouched(old(a.live), old(a.machine), a.live, a.machine, d, s)
    ensures Coh(old(a.live), old(a.machine), d) && Coh(old(a.live), old(a.machine), s) && d != FLAGX && s != FLAGX ==>
      && Coh(a.live, a.machine, d)
      && Same(d, LogVal(a.live, a.machine, d),
              op(LogVal(old(a.live), old(a.machine), d), LogVal(old(a.live), old(a.machine), s)))
    ensures if old(a.live).state[d].status == ISCONST && old(a.live).state[s].status == ISCONST && !flags
      then a.machine == old(a.machine) && a.live == old(a.live).(state := old(a.live).state[d :=
        old(a.live).state[d].(val := op(old(a.live).state[d].val, old(a.live).state[s].val))])
      else InReg(a.live.state[d]) && a.live.state[s].status != ISCONST && Wide(a.live.state[d]) && Wide(a.live.state[s])
  {
    hide Keeps, KeepsAllBut, Ok, LockedKept, Coh, Add, Same, Links, Preserves, Untouched, Local, NativeWord;
    ghost var l0, m0 := a.live, a.machine;
    if a.live.state[d].status == ISCONST && a.live.state[s].status == ISCONST && !flags {
      Refolded(l0, m0, d, op(l0.state[d].val, l0.state[s].val));
      a.SetState(d, a.live.state[d].(val := op(a.live.state[d].val, a.live.state[s].val)));
      UntouchedMore(l0, m0, a.live, a.machine, d, s);
      return;
    }
    AluRR(a, op, d, s, 4);
    MergeAll(LogVal(l0, m0, d), op(LogVal(l0, m0, d), LogVal(l0, m0, s)));
  }

  // mov_b_rr and mov_w_rr
  method MovNarrowRR(a: Allocator, d: int, s: int, size: int)
    requires a.Valid() && IsVreg(d) && IsVreg(s) && (size == 1 || size == 2) && Idle(a.live)
    modifies a
    ensures a.Valid() && Idle(a.live) && SameLocks(old(a.live), a.live)
    ensures Preserves(old(a.live), old(a.machine), a.live, a.machine, d)
    ensures Coh(old(a.live), old(a.machine), d) && Coh(old(a.live), old(a.machine), s) ==>
      && Coh(a.live, a.machine, d)
      && Same(d, LogVal(a.live, a.machine, d),
              Merge(LogVal(old(a.live), old(a.machine), d), LogVal(old(a.live), old(a.machine), s), size))
    ensures d != s && Claims(old(a.live), d) ==>
      InReg(a.live.state[d]) && a.live.state[d].validsize == size && a.live.state[d].val == ZERO
    ensures d != s && Claims(old(a.live), d) && old(a.live).state[s].status == ISCONST ==>
      Narrowed(old(a.live), old(a.machine), a.live, a.machine, d, old(a.live).state[s].val, size)
    ensures d == s ==> a.live == old(a.live) && a.machine == old(a.machine)
    ensures d != s ==>
      InReg(a.live.state[d])
      && (a.live.state[s].status == ISCONST <==> old(a.live).state[s].status == ISCONST)
    ensures Untouched(old(a.live), old(a.machine), a.live, a.machine, d, s)
    ensures d != s && old(a.live).state[s].status == ISCONST ==>
      Untouched(old(a.live), old(a.machine), a.live, a.machine, d, d)
  {
    hide Keeps, KeepsAllBut, KeepsAll, Ok, LockedKept, Coh, LogVal, Add, Agree, Links, Merge, Spare, RoomFor, Preserves,
      Untouched;
    ghost var l0, m0 := a.live, a.machine;
    KeepsAllRefl(l0, m0);
    KeepsAllSplit(l0, m0, l0, m0, d);
    PreservesFrom(l0, m0, l0, m0, d, d);
    MergeSame(d, LogVal(l0, m0, d), size);
    UntouchedRefl(l0, m0, d, s);
    if d == s { return; }
    IdleSpare(l0, Where(l0, s));
    IdleSpare(l0, Where(l0, d));
    IdleNotLocked(l0, m0, s);
    IdleNotLocked(l0, m0, d);
    if a.live.state[s].status == ISCONST {
      ConstValue(l0, m0, s);
      WriteLow(a, d, a.live.state[s].val, size);
      UntouchedFrom(l0, m0, a.live, a.machine, d, d, s);
      UntouchedFrom(l0, m0, a.live, a.machine, d, d, d);
      ConstStays(l0, m0, a.live, a.machine, d, s);
      PreservesFrom(l0, m0, a.live, a.machine, d, d);
      LockedKeptUnlocked(l0, m0, a.live, a.machine, Where(l0, d), -1);
      IdleAgain(l0, m0, a.live, a.machine);
      return;
    }
    SpareIsRoom(l0, m0, s, size);
    var ns := a.ReadRegGeneral(s, size, -1, false);
    ghost var l1, m1 := a.live, a.machine;
    AddZero(m1.regs[ns]);
    PreservesFrom(l0, m0, l1, m1, s, d);
    PreservesFrom(l0, m0, l1, m1, s, -1);
    ValueKept(l0, m0, l1, m1, -1, d);
    AfterRead(l0, m0, l1, m1, s, ns, d);
    StillClaims(l0, m0, l1, m1, s, d);
    UntouchedFrom(l0, m0, l1, m1, s, d, s);
    WriteLow(a, d, a.machine.regs[ns], size);
    ghost var l2, m2 := a.live, a.machine;
    UntouchedFrom(l1, m1, l2, m2, d, d, s);
    PreservesFrom(l1, m1, l2, m2, d, d);
    PreservesTrans(l0, m0, l1, m1, l2, m2, d);
    ConstStays(l1, m1, l2, m2, d, s);
    UntouchedTrans(l0, m0, l1, m1, l2, m2, d, s);
    OneLockAgain(l0, m0, l1, m1, l2, m2, d, ns);
    a.Unlock(ns);
    LocksDisturbNothing(l2, m2, a.live);
    LogValLocks(l2, m2, a.live, d);
    KeepsAllSplit(l2, m2, a.live, m2, d);
    UntouchedFrom(l2, m2, a.live, m2, d, d, s);
    UntouchedTrans(l0, m0, l2, m2, a.live, m2, d, s);
    PreservesFrom(l2, m2, a.live, m2, d, d);
    PreservesTrans(l0, m0, l2, m2, a.live, m2, d);
    if Coh(l0, m0, d) && Coh(l0, m0, s) {
      NarrowMoved(d, s, size, LogVal(l0, m0, d), LogVal(l0, m0, s), LogVal(l1, m1, d), m1.regs[ns], LogVal(l2, m2, d));
    }
  }

  lemma MergeSame(v: int, x: Word, size: int)
    ensures Same(v, x, Merge(x, x, size))
  {
  }

  lemma NarrowMoved(d: int, s: int, size: int, d0: Word, s0: Word, d1: Word, w: Word, d2: Word)
    requires size == 1 || size == 2
    requires Same(d, d1, d0) && Agree(s, 0, size, w, s0) && Same(d, d2, Merge(d1, w, size))
    ensures Same(d, d2, Merge(d0, s0, size))
  {
  }

  lemma OneLockAgain(l0: BigState, m0: Machine, l1: BigState, m1: Machine, l2: BigState, m2: Machine, d: int, n: int)
    requires Inv(l0, m0) && Inv(l1, m1) && Shape(l2, m2) && IsVreg(d) && Idle(l0)
    requires LockedOneMore(l0, l1, n) && LockedKept(l0, m0, l1, m1, -1)
    requires SameLocks(l1, l2) && LockedKept(l1, m1, l2, m2, Where(l1, d))
    ensures forall k | 0 <= k < N_REGS ::
      l2.native[k].locked == l0.native[k].locked + (if k == n then 1 else 0)
      && (l0.native[k].locked > 0 ==> |l2.native[k].holds| == 0)
  {
    if InReg(l1.state[d]) { LinkAt(l1, m1, d); }
    assert forall k | 0 <= k < N_REGS && l0.native[k].locked > 0 :: |l1.native[k].holds| == 0;
  }
}
