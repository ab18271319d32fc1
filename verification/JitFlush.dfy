// flush(): writing every live virtual register back to its home.

module JitFlush {
  import opened Word32
  import opened JitState
  import opened JitAlloc
  import opened JitOps

  // needflush == NF_TOMEM
  predicate ToHome(v: int) { 0 <= v <= FLAGTMP }

  // Storing a value that is not in a native register.
  lemma StoreOutside(l: BigState, m: Machine, r: int)
    requires Inv(l, m) && IsVreg(r) && (l.state[r].status == INMEM || l.state[r].status == ISCONST)
    ensures var l1 := l.(state := l.state[r := l.state[r].(val := ZERO, status := INMEM)]);
      var m1 := m.(home := m.home[r := LogVal(l, m, r)]);
      && Inv(l1, m1) && KeepsAllBut(l, m, l1, m1, r) && Keeps(l, m, l1, m1, r)
      && SameLocks(l, l1) && LockedKept(l, m, l1, m1, -1)
  {
    hide Add;
    var l1 := l.(state := l.state[r := l.state[r].(val := ZERO, status := INMEM)]);
    var m1 := m.(home := m.home[r := LogVal(l, m, r)]);
    KeepsOthers(l, m, l1, m1, r);
    AddZero(LogVal(l, m, r));
    assert forall v | 0 <= v < VREGS :: Ok(l, v) ==> Ok(l1, v);
  }

  lemma NeverBent(l0: BigState, m0: Machine, v: int)
    requires Shape(l0, m0) && IsVreg(v) && !InReg(l0.state[v])
    ensures forall l1: BigState, m1: Machine | Shape(l1, m1) :: KeepsBent(l0, m0, l1, m1, v)
  {
  }

  method FlushOne(a: Allocator, i: int)
    requires a.Valid() && IsVreg(i) && Idle(a.live)
    modifies a
    ensures a.Valid() && Idle(a.live) && SameLocks(old(a.live), a.live)
    ensures KeepsAllBut(old(a.live), old(a.machine), a.live, a.machine, i)
    ensures Keeps(old(a.live), old(a.machine), a.live, a.machine, i)
    ensures KeepsBent(old(a.live), old(a.machine), a.live, a.machine, i)
    ensures old(a.live).state[i].status != UNDEF && !(i == PC_P && old(a.live).state[i].status == ISCONST) ==>
      Settled(a.live.state[i])
    ensures a.live.state[i].status == ISCONST <==> i == PC_P && old(a.live).state[i].status == ISCONST
  {
    hide Step, Keeps, KeepsBent, KeepsAllBut, KeepsAll, Kept, Ok, LockedKept, Coh, Add, Links, Spare, RoomFor;
    ghost var l0, m0 := a.live, a.machine;
    KeepsAllRefl(l0, m0);
    KeepsAllSplit(l0, m0, l0, m0, i);
    KeptMost(l0, m0, l0, m0, i);
    if !InReg(l0.state[i]) { NeverBent(l0, m0, i); }
    match a.live.state[i].status
    case INMEM =>
      StoreOutside(l0, m0, i);
      if a.live.state[i].val != ZERO {
        // raw_add_l_mi
        a.machine := a.machine.(home := a.machine.home[i := Add(a.machine.home[i], a.live.state[i].val)]);
        a.SetState(i, a.live.state[i].(val := ZERO));
        assert a.live == l0.(state := l0.state[i := l0.state[i].(val := ZERO, status := INMEM)]);
        IdleAgain(l0, m0, a.live, a.machine);
      }
    case ISCONST =>
      if i != PC_P {
        // writeback_const
        StoreOutside(l0, m0, i);
        a.machine := a.machine.(home := a.machine.home[i := a.live.state[i].val]);
        a.SetState(i, a.live.state[i].(val := ZERO));
        a.SetState(i, a.live.state[i].(status := INMEM));
        assert a.live == l0.(state := l0.state[i := l0.state[i].(val := ZERO, status := INMEM)]);
        IdleAgain(l0, m0, a.live, a.machine);
      }
    case UNDEF =>
    case _ =>
      FlushInReg(a, i);
  }

  method FlushInReg(a: Allocator, i: int)
    requires a.Valid() && IsVreg(i) && Idle(a.live) && InReg(a.live.state[i])
    modifies a
    ensures a.Valid() && Idle(a.live) && SameLocks(old(a.live), a.live)
    ensures KeepsAllBut(old(a.live), old(a.machine), a.live, a.machine, i)
    ensures Keeps(old(a.live), old(a.machine), a.live, a.machine, i)
    ensures KeepsBent(old(a.live), old(a.machine), a.live, a.machine, i)
    ensures Settled(a.live.state[i])
  {
    hide Step, Keeps, KeepsBent, KeepsAllBut, KeepsAll, Kept, Ok, LockedKept, Coh, Add, Links, Spare, RoomFor;
    ghost var l0, m0 := a.live, a.machine;
    IdleSpare(l0, Where(l0, i));
    SpareIsRoom(l0, m0, i, 4);
    IdleNotLocked(l0, m0, i);
    a.RemoveOffset(i, -1);
    ghost var l1, m1 := a.live, a.machine;
    StepInv(l0, m0, l1, m1, i, Where(l0, i));
    StepParts(l0, m0, l1, m1, i, Where(l0, i));
    LockedKeptUnlocked(l0, m0, l1, m1, Where(l0, i), -1);
    IdleAgain(l0, m0, l1, m1);
    OkAt(l1, m1, i);
    a.ToMem(i);
    OkFromKeeps(l1, m1, a.live, a.machine);
    KeptMost(l1, m1, a.live, a.machine, i);
    KeepsAllButTrans(l0, m0, l1, m1, a.live, a.machine, i);
    KeepsTrans(l0, m0, l1, m1, a.live, a.machine, i);
    KeepsBentTrans(l0, m0, l1, m1, a.live, a.machine, i);
  }

  // v has a value, or at least something that the allocator takes for one.
  predicate Usable(l: BigState, m: Machine, v: int)
    requires Shape(l, m) && IsVreg(v)
  {
    Coh(l, m, v) || (Bent(l.state[v]) && Ok(l, v))
  }

  // Every register keeps its value, or what the allocator takes for it.
  predicate KeepsUsable(l0: BigState, m0: Machine, l1: BigState, m1: Machine)
    requires Shape(l0, m0) && Shape(l1, m1)
  {
    forall v | 0 <= v < VREGS :: Keeps(l0, m0, l1, m1, v) && KeepsBent(l0, m0, l1, m1, v)
  }

  lemma KeepsUsableThen(l0: BigState, m0: Machine, l1: BigState, m1: Machine, l2: BigState, m2: Machine, i: int)
    requires Shape(l0, m0) && Shape(l1, m1) && Shape(l2, m2) && IsVreg(i) && KeepsUsable(l0, m0, l1, m1)
    requires KeepsAllBut(l1, m1, l2, m2, i) && Keeps(l1, m1, l2, m2, i) && KeepsBent(l1, m1, l2, m2, i)
    ensures KeepsUsable(l0, m0, l2, m2)
  {
    hide Keeps, KeepsBent;
    forall v | 0 <= v < VREGS
      ensures Keeps(l0, m0, l2, m2, v) && KeepsBent(l0, m0, l2, m2, v)
    {
      assert v != i ==> Kept(l1, m1, l2, m2, v);
      KeepsTrans(l0, m0, l1, m1, l2, m2, v);
      KeepsBentTrans(l0, m0, l1, m1, l2, m2, v);
    }
  }

  lemma KeepsUsableRefl(l: BigState, m: Machine)
    requires Shape(l, m)
    ensures KeepsUsable(l, m, l, m)
  {
  }

  lemma KeepsUsableIs(l0: BigState, m0: Machine, l1: BigState, m1: Machine)
    requires Shape(l0, m0) && Shape(l1, m1) && KeepsUsable(l0, m0, l1, m1)
    ensures Preserves(l0, m0, l1, m1, -1)
  {
    hide Keeps;
  }

  lemma UsableDefined(l0: BigState, m0: Machine, l1: BigState, m1: Machine, v: int)
    requires Shape(l0, m0) && Shape(l1, m1) && IsVreg(v) && KeepsUsable(l0, m0, l1, m1)
    ensures Usable(l0, m0, v) ==> l1.state[v].status != UNDEF
  {
    assert Keeps(l0, m0, l1, m1, v);
  }

  // Memory holds the whole of what the allocator takes for the value of a settled register.
  lemma SettledUsable(l0: BigState, m0: Machine, l1: BigState, m1: Machine, v: int)
    requires Shape(l0, m0) && Inv(l1, m1) && IsVreg(v) && KeepsUsable(l0, m0, l1, m1) && Settled(l1.state[v])
    ensures Usable(l0, m0, v) ==> Same(v, m1.home[v], Effective(l0, m0, v))
  {
    hide Add, Links, Ok;
    assert Keeps(l0, m0, l1, m1, v) && KeepsBent(l0, m0, l1, m1, v);
    AddZero(m1.home[v]);
    AddZero(Merge(m1.home[v], NativeWord(l1, m1, v), l1.state[v].validsize));
  }

  // The register part of flush(1). What has a value is stored; where an offset is pending on a partly
  // valid register, it is what the allocator makes of that.
  method FlushRegisters(a: Allocator)
    requires a.Valid() && Idle(a.live)
    modifies a
    ensures a.Valid() && Idle(a.live) && SameLocks(old(a.live), a.live)
    ensures Preserves(old(a.live), old(a.machine), a.live, a.machine, -1)
    ensures a.live.state[PC_P].status == ISCONST <==> old(a.live).state[PC_P].status == ISCONST
    ensures forall v | (0 <= v <= 15 || v == PC_P || v == FLAGX || v == FLAGTMP)
                       && !(v == PC_P && a.live.state[v].status == ISCONST)
                       && Usable(old(a.live), old(a.machine), v) ::
      Same(v, a.machine.home[v], Effective(old(a.live), old(a.machine), v))
    ensures forall v | (0 <= v <= 15 || v == PC_P || v == FLAGX || v == FLAGTMP)
                       && !(v == PC_P && a.live.state[v].status == ISCONST)
                       && Coh(old(a.live), old(a.machine), v) ::
      Same(v, a.machine.home[v], LogVal(old(a.live), old(a.machine), v))
  {
    hide Keeps, KeepsBent, KeepsAllBut, Ok, Coh, Add, Links, LogVal, Effective, Same, Idle, Preserves, KeepsUsable,
         Usable;
    ghost var l0, m0 := a.live, a.machine;
    KeepsUsableRefl(l0, m0);
    var i := 0;
    while i < VREGS
      invariant 0 <= i <= VREGS
      invariant a.Valid() && Idle(a.live) && SameLocks(l0, a.live)
      invariant KeepsUsable(l0, m0, a.live, a.machine)
      invariant a.live.state[PC_P].status == ISCONST <==> l0.state[PC_P].status == ISCONST
      invariant forall v | 0 <= v < i && ToHome(v) && Usable(l0, m0, v) ::
        Settled(a.live.state[v]) || (v == PC_P && a.live.state[v].status == ISCONST)
    {
      if ToHome(i) {
        ghost var l1, m1 := a.live, a.machine;
        FlushOne(a, i);
        if i != PC_P { SettledStays(l1, m1, a.live, a.machine, i, PC_P); }
        KeepsUsableThen(l0, m0, l1, m1, a.live, a.machine, i);
        UsableDefined(l0, m0, l1, m1, i);
        forall v | 0 <= v < i && ToHome(v) && Usable(l0, m0, v)
          ensures Settled(a.live.state[v]) || (v == PC_P && a.live.state[v].status == ISCONST)
        {
          SettledStays(l1, m1, a.live, a.machine, i, v);
        }
      }
      i := i + 1;
    }
    KeepsUsableIs(l0, m0, a.live, a.machine);
    forall v | (0 <= v <= 15 || v == PC_P || v == FLAGX || v == FLAGTMP)
      && !(v == PC_P && a.live.state[v].status == ISCONST)
               && Usable(l0, m0, v)
      ensures Same(v, a.machine.home[v], Effective(l0, m0, v))
    {
      SettledUsable(l0, m0, a.live, a.machine, v);
    }
    forall v | (0 <= v <= 15 || v == PC_P || v == FLAGX || v == FLAGTMP)
      && !(v == PC_P && a.live.state[v].status == ISCONST)
               && Coh(l0, m0, v)
      ensures Same(v, a.machine.home[v], LogVal(l0, m0, v))
    {
      CohUsable(l0, m0, v);
    }
  }

  lemma CohUsable(l: BigState, m: Machine, v: int)
    requires Shape(l, m) && IsVreg(v) && Coh(l, m, v)
    ensures Usable(l, m, v) && Effective(l, m, v) == LogVal(l, m, v)
  {
  }

  lemma SettledStays(l0: BigState, m0: Machine, l1: BigState, m1: Machine, i: int, v: int)
    requires Shape(l0, m0) && Shape(l1, m1) && IsVreg(v) && v != i && KeepsAllBut(l0, m0, l1, m1, i)
    ensures Settled(l0.state[v]) ==> Settled(l1.state[v])
    ensures l0.state[v].status == ISCONST <==> l1.state[v].status == ISCONST
  {
    assert Kept(l0, m0, l1, m1, v);
  }

  // sync_m68k_pc followed by the register part of flush(1). The PC is right if and only if it takes the
  // offset, as it always does while it is a constant or in memory.
  method Flush(a: Allocator, m68kPcOffset: Word)
    requires a.Valid() && Idle(a.live)
    modifies a
    ensures a.Valid() && Idle(a.live) && SameLocks(old(a.live), a.live)
    ensures forall v | (0 <= v <= 15 || v == FLAGX || v == FLAGTMP) && Coh(old(a.live), old(a.machine), v) ::
      Same(v, a.machine.home[v], LogVal(old(a.live), old(a.machine), v))
    ensures a.live.state[PC_P].status == ISCONST <==> old(a.live).state[PC_P].status == ISCONST
    ensures Coh(old(a.live), old(a.machine), PC_P) ==>
      var pc := Add(LogVal(old(a.live), old(a.machine), PC_P), m68kPcOffset);
      if a.live.state[PC_P].status == ISCONST then a.live.state[PC_P].val == pc
      else (a.machine.home[PC_P] == pc
            <==> TakesOffset(old(a.live), PC_P, m68kPcOffset) || InvalidAgree(old(a.live), old(a.machine), PC_P))
  {
    hide Keeps, KeepsAllBut, Ok, Coh, Add, Links, LogVal, Preserves, Effective, InvalidAgree;
    ghost var l0, m0 := a.live, a.machine;
    AddLRI(a, PC_P, m68kPcOffset);
    ghost var l1, m1 := a.live, a.machine;
    PreservesFrom(l0, m0, l1, m1, PC_P, PC_P);
    StillIdle(l0, l1);
    FlushRegisters(a);
    forall v | (0 <= v <= 15 || v == FLAGX || v == FLAGTMP) && Coh(l0, m0, v)
      ensures Same(v, a.machine.home[v], LogVal(l0, m0, v))
    {
      ValueKept(l0, m0, l1, m1, PC_P, v);
      NotPc(l1, m1, v);
      AgreeTrans(v, 0, 4, a.machine.home[v], LogVal(l1, m1, v), LogVal(l0, m0, v));
    }
    if Coh(l0, m0, PC_P) {
      if a.live.state[PC_P].status == ISCONST {
        ValueKept(l1, m1, a.live, a.machine, -1, PC_P);
        ConstValue(a.live, a.machine, PC_P);
      } else {
        PcUsable(l1, m1);
      }
    }
  }

  lemma PcUsable(l: BigState, m: Machine)
    requires Inv(l, m)
    ensures Coh(l, m, PC_P) || Bent(l.state[PC_P]) ==> Usable(l, m, PC_P)
  {
  }

  lemma StillIdle(l0: BigState, l1: BigState)
    requires |l0.native| == N_REGS && Idle(l0) && l1.native == l0.native
    ensures Idle(l1)
  {
  }

  lemma NotPc(l: BigState, m: Machine, v: int)
    requires Shape(l, m) && (0 <= v <= 15 || v == FLAGX || v == FLAGTMP)
    ensures IsVreg(v) && v != PC_P
  {
  }
}
