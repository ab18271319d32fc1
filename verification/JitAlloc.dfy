// The integer register allocator of the JIT. Every raw_* emission is an
// immediate step of the abstract machine.

module JitAlloc {
  import opened Word32
  import opened JitState

  class Allocator {
    var live: BigState
    var machine: Machine
    var touchcnt: nat


    ghost predicate Valid()
      reads this
    {
      Inv(live, machine)
    }

    // init_comp: the 68k registers and flags are in memory, PC_P is a constant,
    // everything else is undefined, and only the stack pointer's register is in use.
    constructor InitComp(regs: seq<Word>, home: seq<Word>, compPcP: Word)
      requires |regs| == N_REGS && |home| == VREGS
      ensures Valid() && machine == Machine(regs, home)
      ensures forall n | 0 <= n < N_REGS ::
        live.native[n].holds == [] && live.native[n].locked == (if n == 4 then 1 else 0)
      ensures forall v | 0 <= v < VREGS ::
        if v < 16 || v == FLAGX || v == FLAGTMP then Coh(live, machine, v) && LogVal(live, machine, v) == home[v]
        else if v == PC_P then Coh(live, machine, v) && LogVal(live, machine, v) == compPcP
        else live.state[v].status == UNDEF
      ensures forall v | 0 <= v < VREGS ::
        if v < 16 || v == FLAGX || v == FLAGTMP then Claims(live, v) else !InReg(live.state[v])
      ensures forall v | 0 <= v < VREGS :: live.state[v].status == ISCONST <==> v == PC_P
      ensures live.state[PC_P].val == compPcP
    {
      live := BigState(
        seq(VREGS, v requires 0 <= v < VREGS =>
          if v < 16 || v == FLAGX || v == FLAGTMP then RegStatus(ZERO, INMEM, -1, 0, 0, 0)
          else if v == PC_P then RegStatus(compPcP, ISCONST, -1, 0, 0, 0)
          else RegStatus(ZERO, UNDEF, -1, 0, 0, 0)),
        seq(N_REGS, n requires 0 <= n < N_REGS => NatReg([], if n == 4 then 1 else 0, 0)));
      machine := Machine(regs, home);
      touchcnt := 1;
      new;
      forall v | 0 <= v < VREGS
        ensures live.state[v].val == ZERO ==> Add(home[v], live.state[v].val) == home[v]
      {
        AddZero(home[v]);
      }
    }

    // raw_lea_l_brr(n,n,val)
    method AdjustNreg(n: int, val: Word)
      requires Shape(live, machine) && IsNreg(n)
      modifies this`machine
      ensures machine == old(machine).(regs := old(machine).regs[n := Add(old(machine).regs[n], val)])
    {
      AddZero(machine.regs[n]);
      if val == ZERO { return; }
      machine := machine.(regs := machine.regs[n := Add(machine.regs[n], val)]);
    }

    method ToMem(r: int)
      requires Shape(live, machine) && Links(live) && IsVreg(r) && Ok(live, r)
      modifies this`live, this`machine
      ensures Shape(live, machine) && Links(live) && Ok(live, r)
      ensures Stored(old(live), old(machine), live, machine, r)
      ensures machine.home[r] == StoredWord(old(live), old(machine), r)
      ensures KeepsAll(old(live), old(machine), live, machine)
    {
      hide Keeps, KeepsAll, Coh, LogVal, Add;
      var rr := live.state[r].realreg;
      KeepsAllRefl(live, machine);
      if InReg(live.state[r]) {
        if live.state[r].val != ZERO && |live.native[rr].holds| == 1 && live.native[rr].locked == 0 {
          FoldKeeps(live, machine,
            live.(state := live.state[r := live.state[r].(val := ZERO, dirtysize := 4, status := DIRTY)]),
            machine.(regs := machine.regs[rr := Add(machine.regs[rr], live.state[r].val)]), r);
          AdjustNreg(rr, live.state[r].val);
          live := live.(state := live.state[r := live.state[r].(val := ZERO, dirtysize := 4, status := DIRTY)]);
        }
      }
      label folded:
      if live.state[r].status == DIRTY {
        StoreKeeps(live, machine,
          live.(state := live.state[r := live.state[r].(status := CLEAN, dirtysize := 0)]),
          machine.(home := machine.home[r := Merge(machine.home[r], machine.regs[rr], live.state[r].dirtysize)]), r);
        machine := machine.(home := machine.home[r :=
          Merge(machine.home[r], machine.regs[rr], live.state[r].dirtysize)]);
        live := live.(state := live.state[r := live.state[r].(status := CLEAN, dirtysize := 0)]);
        KeepsAllTrans(old(live), old(machine), old@folded(live), old@folded(machine), live, machine);
      }
    }

    method Evict(r: int)
      requires Shape(live, machine) && Links(live) && IsVreg(r) && Ok(live, r)
      requires InReg(live.state[r]) ==>
        var n := live.state[r].realreg; live.native[n].locked == 0 || |live.native[n].holds| != 1
      modifies this`live, this`machine
      ensures Shape(live, machine) && Links(live)
      ensures KeepsAll(old(live), old(machine), live, machine)
      ensures !InReg(old(live).state[r]) ==> live == old(live) && machine == old(machine)
      ensures InReg(old(live).state[r]) ==> Evicted(old(live), old(machine), live, machine, r)
    {
      hide KeepsAll, Evicted, Links, Ok, Merge;
      KeepsAllRefl(live, machine);
      if !InReg(live.state[r]) { return; }
      LinkAt(live, machine, r);
      ToMem(r);
      label stored:
      NotBentStored(old(live), old(machine), live, machine, r);
      UnlinkKeeps(live, machine, r);
      UnlinkLinks(live, machine, r);
      LinkAt(live, machine, r);
      StoredUnlinkedIsEvicted(old(live), old(machine), live, machine, r);
      var rr := live.state[r].realreg;
      assert !(live.native[rr].locked > 0 && |live.native[rr].holds| == 1);
      var last := |live.native[rr].holds| - 1;
      if last != live.state[r].realind {
        var topreg := live.native[rr].holds[last];
        var thisind := live.state[r].realind;
        live := live.(native := live.native[rr := live.native[rr].(holds := live.native[rr].holds[thisind := topreg])]);
        live := live.(state := live.state[topreg := live.state[topreg].(realind := thisind)]);
      }
      live := live.(native := live.native[rr := live.native[rr].(holds := live.native[rr].holds[..last])]);
      live := live.(state := live.state[r := live.state[r].(realreg := -1, status := INMEM)]);
      assert live == Unlinked(old@stored(live), r);
      KeepsAllTrans(old(live), old(machine), old@stored(live), old@stored(machine), live, machine);
    }

    method FreeNreg(n: int)
      requires Valid() && IsNreg(n)
      requires |live.native[n].holds| > 0 ==> live.native[n].locked == 0
      modifies this`live, this`machine
      ensures Valid()
      ensures KeepsAll(old(live), old(machine), live, machine)
      ensures FreedFrom(old(live), old(machine), live, machine, n, 0)
    {
      hide KeepsAll, Keeps, Evicted, Ok;
      var i := |live.native[n].holds|;
      KeepsAllRefl(live, machine);
      assert live.native[n].holds[..i] == live.native[n].holds;
      while i != 0
        invariant 0 <= i <= |old(live).native[n].holds|
        invariant Shape(live, machine) && Links(live)
        invariant KeepsAll(old(live), old(machine), live, machine)
        invariant FreedFrom(old(live), old(machine), live, machine, n, i)
      {
        i := i - 1;
        var vr := live.native[n].holds[i];
        ghost var l1, m1 := live, machine;
        OkFromKeeps(old(live), old(machine), live, machine);
        Evict(vr);
        EvictedExtendsFreed(old(live), old(machine), l1, m1, live, machine, n, i);
        KeepsAllTrans(old(live), old(machine), l1, m1, live, machine);
      }
      OkFromKeeps(old(live), old(machine), live, machine);
    }

    // The choice at the head of alloc_reg_hinted: the hinted register, or one of least badness.
    method PickReg(size: int, hint: int) returns (bestreg: int)
      requires Shape(live, machine) && IsSize(size)
      requires exists n :: Eligible(live, n, size)
      ensures Eligible(live, bestreg, size)
      ensures bestreg == hint || forall n | 0 <= n < N_REGS && Eligible(live, n, size) ::
        Badness(live, bestreg, hint) <= Badness(live, n, hint)
    {
      bestreg := -1;
      var when := 0;
      var i := N_REGS;
      while i != 0
        invariant 0 <= i <= N_REGS
        invariant bestreg != -1 ==> Eligible(live, bestreg, size) && when == Badness(live, bestreg, hint)
        invariant forall n | i <= n < N_REGS && Eligible(live, n, size) ::
          bestreg != -1 && when <= Badness(live, n, hint)
      {
        i := i - 1;
        var badness: int := live.native[i].touched;
        if |live.native[i].holds| == 0 { badness := 0; }
        if i == hint { badness := badness - HINT_BONUS; }
        if live.native[i].locked == 0 && (bestreg == -1 || badness < when) {
          if Can(i, size) {
            bestreg := i;
            when := badness;
            if |live.native[i].holds| == 0 && hint < 0 { break; }
            if i == hint { break; }
          }
        }
      }
      assert bestreg != -1;
    }

    // raw_mov_l_rm, raw_load_flagreg or raw_load_flagx
    method RawLoad(n: int, r: int)
      requires Shape(live, machine) && IsNreg(n) && IsVreg(r)
      modifies this`machine
      ensures machine == old(machine).(regs := old(machine).regs[n := LoadWord(old(machine), r, n)])
    {
      machine := machine.(regs := machine.regs[n := LoadWord(machine, r, n)]);
    }

    method RawMovImm(n: int, w: Word)
      requires Shape(live, machine) && IsNreg(n)
      modifies this`machine
      ensures machine == old(machine).(regs := old(machine).regs[n := w])
    {
      machine := machine.(regs := machine.regs[n := w]);
    }

    method SetState(r: int, s: RegStatus)
      requires |live.state| == VREGS && IsVreg(r)
      modifies this`live
      ensures live == old(live).(state := old(live).state[r := s])
    {
      live := live.(state := live.state[r := s]);
    }

    // Loads r into the empty register n: the !willclobber half of alloc_reg_hinted.
    method LoadInto(r: int, n: int)
      requires Shape(live, machine) && IsVreg(r) && IsNreg(n)
      modifies this`live, this`machine
      ensures live == old(live).(state := old(live).state[r := LoadedStatus(old(live).state[r])])
      ensures machine == old(machine).(regs := old(machine).regs[n := LoadedWord(old(live), old(machine), r, n)])
    {
      if live.state[r].status != UNDEF {
        if live.state[r].status == ISCONST {
          RawMovImm(n, live.state[r].val);
          SetState(r, live.state[r].(val := ZERO, dirtysize := 4, status := DIRTY));
        } else {
          RawLoad(n, r);
          SetState(r, live.state[r].(dirtysize := 0, status := CLEAN));
        }
      } else {
        SetState(r, live.state[r].(val := ZERO, dirtysize := 0, status := CLEAN));
      }
      SetState(r, live.state[r].(validsize := 4));
    }

    // Claims the empty register n for overwriting r: the willclobber half.
    method ClaimInto(r: int, n: int, size: int)
      requires Shape(live, machine) && IsVreg(r) && IsNreg(n)
      modifies this`live, this`machine
      ensures live == old(live).(state := old(live).state[r := ClaimedStatus(old(live).state[r], size)])
      ensures machine == old(machine).(regs := old(machine).regs[n := ClaimedWord(old(live), old(machine), r, n, size)])
    {
      if live.state[r].status != ISCONST || size == 4 {
        SetState(r, live.state[r].(validsize := size, dirtysize := size, val := ZERO, status := DIRTY));
      } else {
        RawMovImm(n, live.state[r].val);
        SetState(r, live.state[r].(val := ZERO, validsize := 4, dirtysize := 4, status := DIRTY));
      }
    }

    // Joins the valid low half of r with the high half in memory, using tmp as scratch.
    method Widen(r: int, tmp: int)
      requires Valid() && IsVreg(r) && InReg(live.state[r]) && live.state[r].validsize == 2
      requires IsNreg(tmp) && |live.native[tmp].holds| == 0
      requires live.native[tmp].locked == 0 && live.native[live.state[r].realreg].locked == 0
      modifies this
      ensures Valid()
      ensures KeepsAllBut(old(live), old(machine), live, machine, r) && Keeps(old(live), old(machine), live, machine, r)
      ensures SameLocks(old(live), live) && LockedKept(old(live), old(machine), live, machine, -1)
      ensures live.state == old(live).state[r := old(live).state[r].(validsize := 4)]
      ensures forall n | 0 <= n < N_REGS :: live.native[n].holds == old(live).native[n].holds
    {
      hide Kept, Add, Ok, Bswap, ZeroExtend16, Merge, Links, LockedKept, SameLocks;
      LinkAt(live, machine, r);
      var rr := live.state[r].realreg;
      ghost var l0, m0 := live, machine;
      RawMovImm(tmp, machine.home[r]);
      RawMovImm(tmp, Bswap(machine.regs[tmp]));
      RawMovImm(rr, ZeroExtend16(machine.regs[rr]));
      RawMovImm(tmp, ZeroExtend16(machine.regs[tmp]));
      RawMovImm(tmp, Bswap(machine.regs[tmp]));
      RawMovImm(rr, Add(machine.regs[rr], machine.regs[tmp]));
      SetState(r, live.state[r].(validsize := 4));
      live := live.(native := live.native[rr := live.native[rr].(touched := touchcnt)]);
      WidenIsMerge(m0.regs[rr], m0.home[r]);
      WidenKeeps(l0, m0, r, tmp, machine.regs[tmp], touchcnt);
      assert machine == m0.(regs := m0.regs[tmp := machine.regs[tmp]][rr := Merge(m0.home[r], m0.regs[rr], 2)]);
      OkButFromKeeps(l0, m0, live, machine, r);
      touchcnt := touchcnt + 1;
    }

    // realreg/realind/holds/nholds at the end of alloc_reg_hinted.
    method Attach(r: int, n: int)
      requires Shape(live, machine) && IsVreg(r) && IsNreg(n)
      modifies this`live, this`touchcnt
      ensures live == Attached(old(live), r, n, old(live).state[r], old(touchcnt))
    {
      SetState(r, live.state[r].(realreg := n, realind := |live.native[n].holds|));
      var nt := live.native[n].(touched := touchcnt);
      touchcnt := touchcnt + 1;
      live := live.(native := live.native[n := nt.(holds := nt.holds + [r])]);
    }

    // Frees the chosen register and, if need be, r's own narrow one.
    // Answers whether r could be widened where it was.
    method Prepare(r: int, size: int, bestreg: int) returns (widened: bool)
      requires Valid() && IsVreg(r) && IsSize(size) && Eligible(live, bestreg, size)
      requires InReg(live.state[r]) ==>
        live.state[r].validsize < size && live.native[live.state[r].realreg].locked == 0
      modifies this
      ensures Valid()
      ensures KeepsAllBut(old(live), old(machine), live, machine, r) && Keeps(old(live), old(machine), live, machine, r)
      ensures SameLocks(old(live), live) && LockedKept(old(live), old(machine), live, machine, -1)
      ensures !InReg(old(live).state[r]) && old(live).native[bestreg].holds == [] ==> machine == old(machine)
      ensures widened ==> InReg(live.state[r]) && |live.native[live.state[r].realreg].holds| == 1
                          && live.native[live.state[r].realreg].locked == 0
                          && size == 4 && live.state[r].validsize == 4
                          && live.state[r].val == old(live).state[r].val && InReg(old(live).state[r])
                          && Dirtied(old(live).state[r], live.state[r])
      ensures !InReg(old(live).state[r]) ==> machine.home[r] == old(machine).home[r]
      ensures !widened ==> !InReg(live.state[r]) && |live.native[bestreg].holds| == 0
      ensures !widened ==>
        if InReg(old(live).state[r])
        then live.state[r].status == INMEM && (live.state[r].val == ZERO || live.state[r].val == old(live).state[r].val)
        else live.state[r] == old(live).state[r]
    {
      hide KeepsAll, KeepsAllBut, Kept, Keeps, LockedKept, Add, Ok;
      ghost var l0, m0 := live, machine;
      widened := false;
      if |live.native[bestreg].holds| > 0 {
        FreeNreg(bestreg);
      } else {
        NothingFreed(live, machine, bestreg);
      }
      FreedLockedKept(l0, m0, live, machine, bestreg);
      KeptMost(l0, m0, live, machine, r);
      ghost var l1, m1 := live, machine;
      if InReg(live.state[r]) {
        var rr := live.state[r].realreg;
        AloneWhenNarrow(live, machine, r);
        assert live.state[r].validsize < size;
        assert |live.native[rr].holds| == 1;
        if size == 4 && live.state[r].validsize == 2 {
          Widen(r, bestreg);
          widened := true;
        } else {
          Evict(r);
          EvictedLockedKept(l1, m1, live, machine, r, -1);
          OkFromKeeps(l1, m1, live, machine);
          KeptMost(l1, m1, live, machine, r);
        }
        KeepsAllButTrans(l0, m0, l1, m1, live, machine, r);
        KeepsTrans(l0, m0, l1, m1, live, machine, r);
        LockedKeptTrans(l0, m0, l1, m1, live, machine, -1);
        LocksTrans(l0, l1, live);
      }
    }

    method AllocRegHinted(r: int, size: int, willclobber: bool, hint: int) returns (ans: int)
      requires Valid() && IsVreg(r) && IsSize(size)
      requires exists n :: Eligible(live, n, size)
      requires InReg(live.state[r]) ==>
        !willclobber && live.state[r].validsize < size && live.native[live.state[r].realreg].locked == 0
      modifies this
      ensures Valid()
      ensures KeepsAllBut(old(live), old(machine), live, machine, r)
      ensures SameLocks(old(live), live) && LockedKept(old(live), old(machine), live, machine, -1)
      ensures Placed(live, r, ans) && Eligible(live, ans, size)
      ensures !InReg(old(live).state[r]) ==> machine.home[r] == old(machine).home[r]
      ensures !willclobber ==>
        && Keeps(old(live), old(machine), live, machine, r)
        && live.state[r].validsize == 4 && Dirtied(old(live).state[r], live.state[r])
        && (live.state[r].val == ZERO
            || (live.state[r].val == old(live).state[r].val && old(live).state[r].status != ISCONST))
      ensures willclobber ==>
        && Coh(live, machine, r) && live.state[r].status == DIRTY && live.state[r].val == ZERO
        && live.state[r].validsize == live.state[r].dirtysize
        && live.state[r].dirtysize == (if old(live).state[r].status == ISCONST then 4 else size)
        && (old(live).state[r].status == ISCONST
            || (old(live).state[r].status == INMEM && old(live).state[r].val == ZERO) ==>
              Agree(r, size, 4, LogVal(live, machine, r), LogVal(old(live), old(machine), r)))
      // Claiming an empty register emits nothing: its contents stay what they happened to be.
      ensures willclobber && old(live).state[r].status != ISCONST && old(live).native[ans].holds == [] ==>
        machine == old(machine)
    {
      hide KeepsAll, KeepsAllBut, LockedKept, Add, Ok, Keeps, Coh, LogVal, Links, Agree;
      var bestreg := PickReg(size, hint);
      ghost var l0, m0 := live, machine;
      var widened := Prepare(r, size, bestreg);
      if widened {
        PlacedAlone(live, machine, r);
        return live.state[r].realreg;
      }
      ghost var l1, m1 := live, machine;
      Fill(r, bestreg, size, willclobber);
      AllocDone(l0, m0, l1, m1, live, machine, r);
      if !willclobber {
        KeepsTrans(l0, m0, l1, m1, live, machine, r);
      } else if l0.state[r].status == ISCONST || (l0.state[r].status == INMEM && l0.state[r].val == ZERO) {
        CohElsewhere(l0, m0, l1, m1, r);
        AgreeTrans(r, size, 4, LogVal(live, machine, r), LogVal(l1, m1, r), LogVal(l0, m0, r));
      }
      return bestreg;
    }

    // Gives the empty register n to r, loaded or ready to be overwritten.
    method Fill(r: int, n: int, size: int, willclobber: bool)
      requires Valid() && IsVreg(r) && IsSize(size) && Eligible(live, n, size)
      requires !InReg(live.state[r]) && |live.native[n].holds| == 0
      modifies this
      ensures Shape(live, machine) && Links(live) && Ok(live, r)
        && KeepsAllBut(old(live), old(machine), live, machine, r)
      ensures SameLocks(old(live), live) && LockedKept(old(live), old(machine), live, machine, -1)
      ensures Placed(live, r, n) && machine.home[r] == old(machine).home[r]
      ensures !willclobber ==>
        && Keeps(old(live), old(machine), live, machine, r)
        && live.state[r].validsize == 4 && (live.state[r].status == DIRTY ==> live.state[r].dirtysize == 4)
        && (live.state[r].val == ZERO
            || (live.state[r].val == old(live).state[r].val && old(live).state[r].status != ISCONST))
      ensures willclobber ==>
        && Coh(live, machine, r) && live.state[r].status == DIRTY && live.state[r].val == ZERO
        && live.state[r].validsize == live.state[r].dirtysize
        && live.state[r].dirtysize == (if old(live).state[r].status == ISCONST then 4 else size)
        && (old(live).state[r].status == ISCONST || old(live).state[r].val == ZERO ==>
              Agree(r, size, 4, LogVal(live, machine, r), LogVal(old(live), old(machine), r)))
      ensures willclobber && old(live).state[r].status != ISCONST ==> machine == old(machine)
    {
      hide KeepsAllBut, LockedKept, Add, Ok, Keeps, Coh, LogVal, Links, Agree;
      ghost var l1, m1 := live, machine;
      if !willclobber {
        LoadInto(r, n);
        LoadKeeps(l1, m1, r, n, touchcnt);
      } else {
        ClaimInto(r, n, size);
        ClaimKeepsHighBytes(l1, m1, r, n, size, touchcnt);
      }
      ghost var s, t := live.state[r], touchcnt;
      AttachLinks(l1, m1, r, n, s, touchcnt);
      AttachKeepsOthers(l1, m1, r, n, s, touchcnt, machine.regs[n]);
      Attach(r, n);
      assert live == Attached(l1, r, n, s, t);
      assert machine == m1.(regs := m1.regs[n := machine.regs[n]]);
    }

    method SetLock(n: int)
      requires Shape(live, machine) && IsNreg(n)
      modifies this`live
      ensures live == old(live).(native := old(live).native[n :=
        old(live).native[n].(locked := old(live).native[n].locked + 1)])
    {
      live := live.(native := live.native[n := live.native[n].(locked := live.native[n].locked + 1)]);
    }

    method Unlock(n: int)
      requires Shape(live, machine) && IsNreg(n) && live.native[n].locked > 0
      modifies this`live
      ensures live == old(live).(native := old(live).native[n :=
        old(live).native[n].(locked := old(live).native[n].locked - 1)])
    {
      live := live.(native := live.native[n := live.native[n].(locked := live.native[n].locked - 1)]);
    }

    method MovNregs(d: int, s: int)
      requires Valid() && IsNreg(d) && IsNreg(s) && CanTakeOver(live, d, s)
      requires d != s ==> live.native[d].locked == 0
      modifies this`live, this`machine
      ensures Valid()
      ensures KeepsAll(old(live), old(machine), live, machine)
      ensures SameLocks(old(live), live) && LockedKept(old(live), old(machine), live, machine, s)
      ensures MovedTo(old(live), old(machine), live, machine, d, s)
    {
      hide KeepsAll, Keeps, Links, Ok;
      ghost var l0, m0 := live, machine;
      if s == d {
        KeepsAllRefl(live, machine);
        return;
      }
      if |live.native[d].holds| > 0 {
        FreeNreg(d);
      } else {
        NothingFreed(live, machine, d);
      }
      FreedLockedKept(l0, m0, live, machine, d);
      ghost var l1, m1 := live, machine;
      StillTakesOver(l0, m0, l1, m1, d, s);
      MoveLinks(live, machine, d, s);
      MoveKeeps(live, machine, d, s);
      RawMovImm(d, machine.regs[s]);
      NothingMovedYet(l1, m1, d, s);
      var hd := [];
      var i := 0;
      while i < |live.native[s].holds|
        invariant 0 <= i <= |l1.native[s].holds|
        invariant live == l1.(state := MovedState(l1, d, s, i))
        invariant hd == l1.native[s].holds[..i]
        invariant machine == m1.(regs := m1.regs[d := m1.regs[s]])
      {
        var vs := live.native[s].holds[i];
        HolderAt(l1, m1, s, i);
        live := live.(state := live.state[vs := live.state[vs].(realreg := d, realind := i)]);
        hd := hd + [vs];
        MovedStep(l1, m1, d, s, i);
        i := i + 1;
      }
      live := live.(native := live.native[d := live.native[d].(holds := hd)]);
      live := live.(native := live.native[s := live.native[s].(holds := [])]);
      assert hd == l1.native[s].holds;
      assert live == Moved(l1, d, s);
      MovedFrame(l0, m0, l1, m1, d, s);
      KeepsAllTrans(l0, m0, l1, m1, live, machine);
      OkFromKeeps(l1, m1, live, machine);
    }

    method IsClean(r: int)
      requires |live.state| == VREGS && IsVreg(r)
      modifies this`live
      ensures live == if InReg(old(live).state[r])
        then old(live).(state := old(live).state[r :=
               old(live).state[r].(validsize := 4, dirtysize := 0, val := ZERO, status := CLEAN)])
        else old(live)
    {
      if !InReg(live.state[r]) { return; }
      SetState(r, live.state[r].(validsize := 4, dirtysize := 0, val := ZERO, status := CLEAN));
    }

    method Disassociate(r: int)
      requires Valid() && IsVreg(r)
      requires InReg(live.state[r]) ==>
        var n := live.state[r].realreg; live.native[n].locked == 0 || |live.native[n].holds| != 1
      modifies this`live, this`machine
      ensures Valid()
      ensures KeepsAllBut(old(live), old(machine), live, machine, r)
      ensures !InReg(old(live).state[r]) ==> live == old(live) && machine == old(machine)
      ensures InReg(old(live).state[r]) ==> Dropped(old(live), old(machine), live, machine, r)
      ensures SameLocks(old(live), live)
      ensures LockedKept(old(live), old(machine), live, machine, old(live).state[r].realreg)
    {
      hide KeepsAll, Keeps, Ok;
      ghost var l0, m0 := live, machine;
      KeepsAllRefl(l0, m0);
      if InReg(live.state[r]) { CleanedKeepsOthers(l0, m0, r); }
      IsClean(r);
      ghost var l1 := live;
      Evict(r);
      if InReg(l0.state[r]) {
        OkFromKeeps(l1, m0, live, machine);
        KeepsAllIsBut(l0, m0, l1, m0, live, machine, r);
      }
    }

    // make_exclusive when everything else in the register is clean.
    method KeepAlone(r: int)
      requires Valid() && IsVreg(r) && InReg(live.state[r])
      requires live.native[live.state[r].realreg].locked == 0
      modifies this`live, this`machine
      ensures Valid()
      ensures KeepsAll(old(live), old(machine), live, machine)
      ensures SameLocks(old(live), live) && LockedKept(old(live), old(machine), live, machine, -1)
      ensures Placed(live, r, old(live).state[r].realreg)
      ensures live.state[r] == old(live).state[r].(realind := 0)
    {
      hide KeepsAll, Keeps, Ok, Links, LockedKept;
      ghost var l0, m0 := live, machine;
      KeepsAllRefl(l0, m0);
      LockedKeptRefl(l0, m0);
      var rr := live.state[r].realreg;
      LinkAt(live, machine, r);
      var i := 0;
      while i < |live.native[rr].holds|
        invariant Valid() && KeepsAll(l0, m0, live, machine)
        invariant SameLocks(l0, live) && LockedKept(l0, m0, live, machine, -1)
        invariant 0 <= i <= |live.native[rr].holds|
        invariant live.state[r] == l0.state[r].(realind := live.state[r].realind)
        invariant forall j | 0 <= j < i :: live.native[rr].holds[j] == r
        decreases |live.native[rr].holds| - i
      {
        var vr := live.native[rr].holds[i];
        HolderAt(live, machine, rr, i);
        if vr != r {
          ghost var l1, m1 := live, machine;
          LinkAt(live, machine, vr);
          Evict(vr);
          OkFromKeeps(l1, m1, live, machine);
          EvictedLockedKept(l1, m1, live, machine, vr, -1);
          KeepsAllTrans(l0, m0, l1, m1, live, machine);
          LockedKeptTrans(l0, m0, l1, m1, live, machine, -1);
          i := i - 1;
        }
        i := i + 1;
      }
      OnlyHolder(live, machine, r);
    }

    // Locks the shared register of r and gives r an uninitialised one of its own.
    method Detach(r: int, spec: int) returns (nr: int)
      requires Valid() && IsVreg(r) && InReg(live.state[r])
      requires Shared(live, r) && RoomFor(live, r, 4)
      modifies this
      ensures Valid()
      ensures IsNreg(old(live).state[r].realreg)
      ensures Detached(old(live), old(machine), live, machine, r, old(live).state[r].realreg, nr)
      ensures old(live).state[r].status == DIRTY ==> Can(nr, old(live).state[r].dirtysize)
    {
      hide KeepsAll, KeepsAllBut, Keeps, Links, Add, Ok, Coh, LogVal, LockedKept, RoomFor, Agree, Can;
      ghost var l0, m0 := live, machine;
      var rr := live.state[r].realreg;
      var status, dirtysize := live.state[r].status, live.state[r].dirtysize;
      LinkAt(l0, m0, r);
      OkAt(l0, m0, r);
      SetLock(rr);
      ghost var l1 := live;
      LocksDisturbNothing(l0, m0, l1);
      Disassociate(r);
      ghost var l2 := live;
      RoomToDetach(l0, l2, r);
      if status == DIRTY {
        nr := AllocRegHinted(r, dirtysize, true, spec);
      } else {
        nr := AllocRegHinted(r, 4, true, spec);
      }
      LockedWord(l2, m0, live, machine, -1, rr);
      DetachDone(l0, m0, l1, l2, live, machine, r, rr, nr);
    }

    // make_exclusive when r has to move to a register of its own.
    method Split(r: int, size: int, spec: int)
      requires Valid() && IsVreg(r) && InReg(live.state[r]) && IsSizeOrNone(size)
      requires Shared(live, r) && RoomFor(live, r, 4)
      modifies this
      ensures Valid()
      ensures KeepsAllBut(old(live), old(machine), live, machine, r)
      ensures SameLocks(old(live), live)
      ensures LockedKept(old(live), old(machine), live, machine, old(live).state[r].realreg)
      ensures Placed(live, r, live.state[r].realreg) && live.native[live.state[r].realreg].locked == 0
      ensures live.state[r].validsize == 4 && Dirtied(old(live).state[r], live.state[r])
      ensures old(live).state[r].val != ZERO && live.state[r].val == ZERO ==> live.state[r].dirtysize == 4
      ensures size < 4 ==> Keeps(old(live), old(machine), live, machine, r) && live.state[r].val == ZERO
      ensures size == 4 ==>
        live.state[r] == old(live).state[r].(realreg := live.state[r].realreg, realind := live.state[r].realind)
    {
      hide KeepsAll, KeepsAllBut, Keeps, Links, Add, Ok, Coh, LogVal, LockedKept, RoomFor, Agree, Can;
      ghost var l0, m0 := live, machine;
      var oldstate := live.state[r];
      var rr := oldstate.realreg;
      OkAt(l0, m0, r);
      var nr := Detach(r, spec);
      ghost var l3, m3 := live, machine;
      var nind := live.state[r].realind;
      SetState(r, oldstate.(realreg := nr, realind := nind));
      if size < live.state[r].validsize {
        if live.state[r].val != ZERO {
          RawMovImm(nr, Add(machine.regs[rr], oldstate.val));
          SetState(r, live.state[r].(val := ZERO, dirtysize := 4, status := DIRTY));
        } else {
          RawMovImm(nr, machine.regs[rr]);
        }
      }
      ghost var l4 := live;
      assert l4 == l3.(state := l3.state[r := l4.state[r]]);
      assert machine == m3.(regs := m3.regs[nr := machine.regs[nr]]);
      RestatusKeeps(l3, m3, r, nr, live.state[r], machine.regs[nr]);
      Unlock(rr);
      LocksDisturbNothing(l4, machine, live);
      SplitDone(l0, m0, l3, m3, l4, live, machine, r, rr, nr);
      OkAt(live, machine, r);
      if size < 4 { SplitValue(l0, m0, live, machine, r); }
    }

    method MakeExclusive(r: int, size: int, spec: int)
      requires Valid() && IsVreg(r) && IsSizeOrNone(size)
      requires MustMove(live, r, size) ==> RoomFor(live, r, 4)
      modifies this
      ensures Valid()
      ensures KeepsAllBut(old(live), old(machine), live, machine, r)
      ensures SameLocks(old(live), live)
      ensures LockedKept(old(live), old(machine), live, machine, Where(old(live), r))
      ensures !Shared(old(live), r) ==> live == old(live) && machine == old(machine)
      ensures InReg(old(live).state[r]) ==> Placed(live, r, live.state[r].realreg)
      ensures Shared(old(live), r) ==> live.native[live.state[r].realreg].locked == 0
      ensures !MustMove(old(live), r, size) ==> Where(live, r) == Where(old(live), r)
      ensures live.state[r].validsize == old(live).state[r].validsize && Dirtied(old(live).state[r], live.state[r])
      ensures old(live).state[r].val != ZERO && live.state[r].val == ZERO ==> live.state[r].dirtysize == 4
      ensures live.state[r].val == ZERO || live.state[r].val == old(live).state[r].val
      ensures size < 4 ==> Keeps(old(live), old(machine), live, machine, r)
      ensures size == 4 ==>
        live.state[r] == old(live).state[r].(realreg := live.state[r].realreg, realind := live.state[r].realind)
    {
      hide KeepsAll, KeepsAllBut, Keeps, Links, Add, Ok, Coh, LogVal, LockedKept, RoomFor;
      KeepsAllRefl(live, machine);
      KeepsAllSplit(live, machine, live, machine, r);
      LockedKeptRefl(live, machine);
      LockedKeptUnlocked(live, machine, live, machine, -1, Where(live, r));
      OkAt(live, machine, r);
      if !InReg(live.state[r]) { return; }
      var rr := live.state[r].realreg;
      if |live.native[rr].holds| == 1 {
        PlacedAlone(live, machine, r);
        return;
      }
      AllIdle(live, machine, r, rr);
      var ndirt := 0;
      var i := 0;
      while i < |live.native[rr].holds|
        invariant 0 <= i <= |live.native[rr].holds| && 0 <= ndirt
        invariant ndirt == 0 <==> forall j | 0 <= j < i :: Idles(live, r, live.native[rr].holds[j])
        modifies {}
      {
        var vr := live.native[rr].holds[i];
        HolderAt(live, machine, rr, i);
        if vr != r && (live.state[vr].status == DIRTY || live.state[vr].val != ZERO) {
          ndirt := ndirt + 1;
        }
        i := i + 1;
      }
      ghost var l0, m0 := live, machine;
      if ndirt == 0 && size < live.state[r].validsize && live.native[rr].locked == 0 {
        KeepAlone(r);
        KeepsAllSplit(l0, m0, live, machine, r);
        LockedKeptUnlocked(l0, m0, live, machine, -1, rr);
      } else {
        Split(r, size, spec);
      }
    }

    method EvictStep(r: int)
      requires Valid() && IsVreg(r) && InReg(live.state[r]) && !LockedAlone(live, r)
      modifies this`live, this`machine
      ensures Step(old(live), old(machine), live, machine, r, Where(old(live), r))
      ensures KeepsBent(old(live), old(machine), live, machine, r)
      ensures !InReg(live.state[r]) && (live.state[r].val == ZERO || live.state[r].val == old(live).state[r].val)
    {
      hide KeepsAll, KeepsAllBut, Kept, Keeps, KeepsBent, Links, Ok, LockedKept, Evicted;
      ghost var l0, m0 := live, machine;
      LinkAt(live, machine, r);
      Evict(r);
      OkFromKeeps(l0, m0, live, machine);
      KeptMost(l0, m0, live, machine, r);
      EvictedLockedKept(l0, m0, live, machine, r, Where(l0, r));
      EvictedInMemory(l0, m0, live, machine, r);
    }

    // Brings r into a register in which its low `size` bytes are valid.
    method LoadStep(r: int, size: int, hint: int) returns (ans: int)
      requires Valid() && IsVreg(r) && IsSize(size) && exists n :: Eligible(live, n, size)
      requires InReg(live.state[r]) ==> live.state[r].validsize < size && !LockedAlone(live, r)
      modifies this
      ensures Step(old(live), old(machine), live, machine, r, Where(old(live), r))
      ensures Placed(live, r, ans) && Can(ans, size) && live.native[ans].locked == 0
      ensures live.state[r].validsize == 4 && Dirtied(old(live).state[r], live.state[r])
      ensures old(live).state[r].val == ZERO || old(live).state[r].status == ISCONST ==> live.state[r].val == ZERO
    {
      hide KeepsAll, KeepsAllBut, Keeps, Links, Ok, LockedKept;
      ghost var l0, m0 := live, machine;
      OkAt(live, machine, r);
      ans := AllocRegHinted(r, size, false, hint);
      LockedKeptMore(l0, m0, live, machine, Where(l0, r));
    }

    method MakeExclusiveStep(r: int, size: int, spec: int)
      requires Valid() && IsVreg(r) && IsSizeOrNone(size)
      requires MustMove(live, r, size) ==> RoomFor(live, r, 4)
      modifies this
      ensures StepBut(old(live), old(machine), live, machine, r, Where(old(live), r))
      ensures !Shared(old(live), r) ==> live == old(live) && machine == old(machine)
      ensures InReg(old(live).state[r]) ==> Placed(live, r, live.state[r].realreg)
      ensures Shared(old(live), r) ==> live.native[live.state[r].realreg].locked == 0
      ensures live.state[r].val == ZERO || live.state[r].val == old(live).state[r].val
      ensures !MustMove(old(live), r, size) ==> Where(live, r) == Where(old(live), r)
      ensures live.state[r].validsize == old(live).state[r].validsize && Dirtied(old(live).state[r], live.state[r])
      ensures old(live).state[r].val != ZERO && live.state[r].val == ZERO ==> live.state[r].dirtysize == 4
      ensures size < 4 ==> Keeps(old(live), old(machine), live, machine, r)
    {
      hide KeepsAllBut, Keeps, Links, Ok, LockedKept, RoomFor;
      MakeExclusive(r, size, spec);
    }

    method RemoveOffset(r: int, spec: int)
      requires Valid() && IsVreg(r)
      requires live.state[r].val != ZERO ==> !LockedAlone(live, r)
      requires live.state[r].val != ZERO && live.state[r].status != ISCONST && !Own(live, r) ==> RoomFor(live, r, 4)
      modifies this
      ensures Step(old(live), old(machine), live, machine, r, Where(old(live), r))
      ensures KeepsBent(old(live), old(machine), live, machine, r)
      ensures Own(old(live), r) ==> Own(live, r) && Where(live, r) == Where(old(live), r)
      ensures old(live).state[r].status == ISCONST || old(live).state[r].val == ZERO ==>
        live == old(live) && machine == old(machine)
      ensures old(live).state[r].status != ISCONST && old(live).state[r].val != ZERO ==>
        && Placed(live, r, live.state[r].realreg) && live.native[live.state[r].realreg].locked == 0
        && live.state[r].validsize == 4 && live.state[r].val == ZERO
        && (live.state[r].status == DIRTY ==> live.state[r].dirtysize == 4)
    {
      hide Step, StepBut, Keeps, KeepsBent, Links, Add, Ok, RoomFor, Effective, Coh;
      ghost var l0, m0, x := live, machine, Where(live, r);
      StepRefl(l0, m0, r);
      BentRefl(l0, m0, r);
      if live.state[r].status == ISCONST { return; }
      if live.state[r].val == ZERO { return; }
      OkAt(l0, m0, r);
      if InReg(live.state[r]) && live.state[r].validsize < 4 {
        EvictStep(r);
        StepInv(l0, m0, live, machine, r, x);
      }
      ghost var l1, m1, y := live, machine, Where(live, r);
      StepRefl(l1, m1, r);
      if !InReg(live.state[r]) {
        RoomStillThere(l0, l1, r, 4);
        var n := LoadStep(r, 4, spec);
        StepInv(l1, m1, live, machine, r, y);
      }
      assert live.state[r].validsize == 4;
      ghost var l2, m2 := live, machine;
      MakeExclusiveStep(r, 0, -1);
      StepButInv(l2, m2, live, machine, r, Where(l2, r));
      ButIsStep(l2, m2, live, machine, r, Where(l2, r));
      StepThen(l1, m1, l2, m2, live, machine, r, y);
      ghost var l3, m3 := live, machine;
      if live.state[r].val != ZERO {
        FoldStep(r);
        StepThen(l1, m1, l3, m3, live, machine, r, y);
      }
      StepThen(l0, m0, l1, m1, live, machine, r, x);
      StepInv(l0, m0, live, machine, r, x);
      OffsetGone(l0, m0, l1, m1, live, machine, r, x);
    }

    // Adds the pending offset of r, which has its native register for itself.
    method FoldStep(r: int)
      requires Valid() && IsVreg(r) && Placed(live, r, live.state[r].realreg) && live.state[r].val != ZERO
      requires live.native[live.state[r].realreg].locked == 0
      modifies this`live, this`machine
      ensures Step(old(live), old(machine), live, machine, r, Where(old(live), r))
      ensures live.state[r] == old(live).state[r].(val := ZERO, dirtysize := 4, status := DIRTY)
      ensures live.native == old(live).native
    {
      hide KeepsAll, KeepsAllBut, Keeps, Links, Add, Ok, LockedKept;
      ghost var l3, m3 := live, machine;
      OkAt(l3, m3, r);
      var rr := live.state[r].realreg;
      FoldKeeps(l3, m3, l3.(state := l3.state[r := l3.state[r].(val := ZERO, dirtysize := 4, status := DIRTY)]),
                m3.(regs := m3.regs[rr := Add(m3.regs[rr], l3.state[r].val)]), r);
      AdjustNreg(rr, live.state[r].val);
      SetState(r, live.state[r].(dirtysize := 4));
      SetState(r, live.state[r].(val := ZERO));
      SetState(r, live.state[r].(status := DIRTY));
      assert live == l3.(state := l3.state[r := l3.state[r].(val := ZERO, dirtysize := 4, status := DIRTY)]);
      FoldLockedKept(l3, m3, live, machine, r);
      LockedKeptMore(l3, m3, live, machine, rr);
      OkFromKeeps(l3, m3, live, machine);
      KeepsAllSplit(l3, m3, live, machine, r);
    }

    // The final move to a register the caller insists on.
    method MoveToSpec(r: int, answer: int, spec: int) returns (n: int)
      requires Valid() && IsVreg(r) && IsNreg(answer) && HeldBy(live, answer, r)
      requires spec >= 0 ==>
        IsNreg(spec) && (spec == answer || (live.native[spec].locked == 0 && CanTakeOver(live, spec, answer)))
      modifies this`live, this`machine
      ensures Step(old(live), old(machine), live, machine, r, Where(old(live), r))
      ensures n == if spec >= 0 then spec else answer
      ensures live.state[r] == old(live).state[r].(realreg := n)
      ensures machine.home[r] == old(machine).home[r] && machine.regs[n] == old(machine).regs[answer]
      ensures live.native[n].holds == old(live).native[answer].holds
      ensures spec < 0 ==> live == old(live) && machine == old(machine)
    {
      hide KeepsAll, Keeps, Links, Ok, LockedKept;
      ghost var l0, m0 := live, machine;
      StepRefl(live, machine, r);
      n := answer;
      if spec >= 0 && spec != n {
        MovNregs(spec, n);
        KeepsAllSplit(l0, m0, live, machine, r);
        n := spec;
      }
    }

    method LockAndTouch(n: int)
      requires Shape(live, machine) && IsNreg(n)
      modifies this`live, this`touchcnt
      ensures live == old(live).(native := old(live).native[n := old(live).native[n].(
        locked := old(live).native[n].locked + 1, touched := old(touchcnt))])
    {
      SetLock(n);
      live := live.(native := live.native[n := live.native[n].(touched := touchcnt)]);
      touchcnt := touchcnt + 1;
    }

    method ReadRegGeneral(r: int, size: int, spec: int, canOffset: bool) returns (answer: int)
      requires Valid() && IsVreg(r) && IsSize(size)
      requires MaySpecify(live, r, spec, size, ReadAtHand(live, r, size, spec, canOffset))
      requires spec >= 0 ==> CanTakeOver(live, spec, Where(live, r))
      requires !ReadAtHand(live, r, size, spec, canOffset) ==> RoomFor(live, r, if spec >= 0 then 4 else size)
      requires LockedAlone(live, r) ==>
        && live.state[r].validsize >= size && (canOffset || live.state[r].val == ZERO)
        && (Can(live.state[r].realreg, size) || spec >= 0)
      modifies this
      ensures Valid()
      ensures KeepsAllBut(old(live), old(machine), live, machine, r)
      ensures Keeps(old(live), old(machine), live, machine, r)
      ensures IsNreg(answer) && HeldBy(live, answer, r) && Can(answer, size)
      ensures (size == 1 ==> answer <= 3) && (size == 2 ==> answer != 4)
      ensures spec >= 0 ==> answer == spec
      ensures LockedOneMore(old(live), live, answer)
      ensures LockedKept(old(live), old(machine), live, machine, Where(old(live), r))
      ensures size <= live.state[r].validsize && (!canOffset ==> live.state[r].val == ZERO)
      ensures Coh(old(live), old(machine), r) ==>
        && Coh(live, machine, r)
        && Agree(r, 0, size, Add(machine.regs[answer], live.state[r].val), LogVal(old(live), old(machine), r))
    {
      hide Step, KeepsAllBut, Keeps, Links, Add, Ok, Coh, LogVal, LockedKept, RoomFor, Agree;
      ghost var l0, m0, x := live, machine, Where(live, r);
      StepRefl(l0, m0, r);
      OkAt(l0, m0, r);
      if !canOffset {
        if !ReadAtHand(l0, r, size, spec, canOffset) { RoomForWord(l0, r, if spec >= 0 then 4 else size); }
        RemoveOffset(r, spec);
        StepInv(l0, m0, live, machine, r, x);
      }
      ghost var l1, m1 := live, machine;
      OkAt(l1, m1, r);
      answer := -1;
      if InReg(live.state[r]) && live.state[r].validsize >= size {
        var n := live.state[r].realreg;
        if Can(n, size) || spec >= 0 { answer := n; }
        if answer < 0 {
          EvictStep(r);
          StepThen(l0, m0, l1, m1, live, machine, r, x);
          StepInv(l0, m0, live, machine, r, x);
        }
      }
      ghost var l2, m2 := live, machine;
      if answer < 0 {
        assert !ReadAtHand(l0, r, size, spec, canOffset);
        RoomStillThere(l0, l2, r, if spec >= 0 then 4 else size);
        answer := LoadStep(r, if spec >= 0 then 4 else size, spec);
        StepThen(l0, m0, l2, m2, live, machine, r, x);
        StepInv(l0, m0, live, machine, r, x);
      }
      if spec >= 0 && live != l0 { AloneTakenOver(live, machine, r, answer, spec); }
      SpecifiedAt(l0, live, r, spec, size, ReadAtHand(l0, r, size, spec, canOffset), answer);
      answer := FinishRead(l0, m0, r, size, answer, spec);
    }

    method FinishRead(ghost l0: BigState, ghost m0: Machine, r: int, size: int, answer: int, spec: int) returns (n: int)
      requires Shape(l0, m0) && Valid() && IsVreg(r) && IsNreg(answer) && HeldBy(live, answer, r)
      requires Step(l0, m0, live, machine, r, Where(l0, r))
      requires IsSize(size) && size <= live.state[r].validsize && (Can(answer, size) || spec >= 0)
      requires spec >= 0 ==>
        IsNreg(spec) && Can(spec, size)
        && (spec == answer || (live.native[spec].locked == 0 && CanTakeOver(live, spec, answer)))
      modifies this
      ensures Valid()
      ensures KeepsAllBut(l0, m0, live, machine, r) && Keeps(l0, m0, live, machine, r)
      ensures IsNreg(n) && HeldBy(live, n, r) && Can(n, size)
      ensures spec >= 0 ==> n == spec
      ensures LockedOneMore(l0, live, n) && LockedKept(l0, m0, live, machine, Where(l0, r))
      ensures live.state[r] == old(live).state[r].(realreg := n)
      ensures Coh(l0, m0, r) ==>
        Coh(live, machine, r) && Agree(r, 0, size, Add(machine.regs[n], live.state[r].val), LogVal(l0, m0, r))
    {
      hide KeepsAll, KeepsAllBut, Keeps, Links, Add, Ok, Coh, LogVal, LockedKept, Agree;
      ghost var l1, m1 := live, machine;
      n := MoveToSpec(r, answer, spec);
      StepThen(l0, m0, l1, m1, live, machine, r, Where(l0, r));
      ghost var l2 := live;
      LockAndTouch(n);
      LockAfterStep(l0, m0, l2, machine, live, n, Where(l0, r));
      KeepsAllIsBut(l0, m0, l2, machine, live, machine, r);
      KeepsAllSplit(l2, machine, live, machine, r);
      KeepsTrans(l0, m0, l2, machine, live, machine, r);
      ReadBack(l0, m0, live, machine, r, size);
    }

    method ClaimStep(r: int, size: int, spec: int) returns (ans: int)
      requires Valid() && IsVreg(r) && IsSize(size) && exists n :: Eligible(live, n, size)
      requires !InReg(live.state[r])
      modifies this
      ensures StepBut(old(live), old(machine), live, machine, r, Where(old(live), r))
      ensures Placed(live, r, ans) && Can(ans, size) && live.native[ans].locked == 0
      ensures Coh(live, machine, r) && live.state[r].status == DIRTY && live.state[r].val == ZERO
      ensures live.state[r].validsize == live.state[r].dirtysize && size <= live.state[r].dirtysize
      ensures old(live).state[r].status == ISCONST
              || (old(live).state[r].status == INMEM && old(live).state[r].val == ZERO) ==>
        Agree(r, size, 4, LogVal(live, machine, r), LogVal(old(live), old(machine), r))
      ensures Claims(old(live), r) ==> Claimed(old(live), old(machine), live, machine, r, size, ans)
    {
      hide KeepsAllBut, Keeps, Links, Ok, LockedKept, Coh, LogVal, Agree;
      ghost var l0, m0 := live, machine;
      ans := AllocRegHinted(r, size, true, spec);
      LockedKeptMore(l0, m0, live, machine, Where(l0, r));
    }

    // Changes what is recorded about r, which has its native register for itself.
    method RestatusStep(r: int, s: RegStatus)
      requires Valid() && IsVreg(r) && Placed(live, r, live.state[r].realreg)
      requires InReg(s) && s.realreg == live.state[r].realreg && s.realind == live.state[r].realind
      requires IsSize(s.validsize) && (s.dirtysize == 0 || IsSize(s.dirtysize))
      requires s.status == DIRTY ==> IsSize(s.dirtysize) && Can(s.realreg, s.dirtysize)
      modifies this`live
      ensures StepBut(old(live), old(machine), live, machine, r, Where(old(live), r))
      ensures live == old(live).(state := old(live).state[r := s])
    {
      hide KeepsAllBut, Keeps, Links, Ok;
      RestatusKeeps(live, machine, r, live.state[r].realreg, s, machine.regs[live.state[r].realreg]);
      assert machine == machine.(regs := machine.regs[live.state[r].realreg := machine.regs[live.state[r].realreg]]);
      SetState(r, s);
    }

    // The head of writereg_general: no pending offset under a partial write, no sharing.
    method WriteAlone(r: int, size: int, spec: int)
      requires Valid() && IsVreg(r) && IsSize(size)
      requires !WriteAtHand(live, r, size, spec) ==> RoomFor(live, r, size)
      requires size < 4 && live.state[r].val != ZERO ==> !LockedAlone(live, r)
      modifies this
      ensures StepBut(old(live), old(machine), live, machine, r, Where(old(live), r))
      ensures !Shared(old(live), r) && (size == 4 || old(live).state[r].val == ZERO) ==>
        live == old(live) && machine == old(machine)
      ensures InReg(live.state[r]) ==> Placed(live, r, live.state[r].realreg)
      ensures !LockedAlone(old(live), r) ==> !LockedAlone(live, r)
      ensures size < 4 ==> Keeps(old(live), old(machine), live, machine, r)
      ensures size < 4 ==> live.state[r].status == ISCONST || live.state[r].val == ZERO
      ensures WriteAtHand(old(live), r, size, spec) ==>
        InReg(live.state[r]) && live.state[r].realreg == old(live).state[r].realreg
      ensures !InReg(old(live).state[r]) && old(live).state[r].val == ZERO ==>
        live == old(live) && machine == old(machine)
    {
      hide Step, StepBut, Keeps, Links, Ok, RoomFor;
      ghost var l0, m0, x := live, machine, Where(live, r);
      StepRefl(l0, m0, r);
      OkAt(l0, m0, r);
      if !WriteAtHand(l0, r, size, spec) { RoomForWord(l0, r, size); }
      if size < 4 {
        RemoveOffset(r, spec);
        StepInv(l0, m0, live, machine, r, x);
      }
      StepIsBut(l0, m0, live, machine, r, x);
      ghost var l1, m1 := live, machine;
      MakeExclusiveStep(r, size, spec);
      StepButThen(l0, m0, l1, m1, live, machine, r, x);
      StepButInv(l0, m0, live, machine, r, x);
      if size < 4 { KeepsTrans(l0, m0, l1, m1, live, machine, r); }
    }

    method WritePrepare(r: int, size: int, spec: int) returns (answer: int)
      requires Valid() && IsVreg(r) && IsSize(size)
      requires !WriteAtHand(live, r, size, spec) ==> RoomFor(live, r, size)
      requires LockedAlone(live, r) ==>
        (Can(live.state[r].realreg, size) || spec >= 0) && (size == 4 || live.state[r].val == ZERO)
      modifies this
      ensures StepBut(old(live), old(machine), live, machine, r, Where(old(live), r))
      ensures Placed(live, r, answer) && (Can(answer, size) || spec >= 0)
      ensures !LockedAlone(old(live), r) ==> live.native[answer].locked == 0
      ensures WriteReady(old(live), old(machine), live, machine, r, size)
      ensures WriteAtHand(old(live), r, size, spec) ==> answer == Where(old(live), r)
      ensures live.state[r].status == DIRTY ==> size <= live.state[r].dirtysize
      ensures Claims(old(live), r) ==> Claimed(old(live), old(machine), live, machine, r, size, answer)
    {
      hide Step, StepBut, Keeps, Links, Ok, Coh, LogVal, RoomFor, Agree, WriteReady;
      ghost var l0, m0, x := live, machine, Where(live, r);
      WriteAlone(r, size, spec);
      StepButInv(l0, m0, live, machine, r, x);
      ghost var l2, m2 := live, machine;
      OkAt(l2, m2, r);
      answer := -1;
      if InReg(live.state[r]) {
        var nvsize := Max(size, live.state[r].validsize);
        var ndsize := Max(size, live.state[r].dirtysize);
        var n := live.state[r].realreg;
        assert |live.native[n].holds| == 1;
        if Can(n, size) || spec >= 0 {
          MarkReady(l0, m0, l2, m2, r, size);
          RestatusStep(r, live.state[r].(dirtysize := ndsize, validsize := nvsize));
          StepButThen(l0, m0, l2, m2, live, machine, r, x);
          answer := n;
        }
        if answer < 0 {
          EvictStep(r);
          StepIsBut(l2, m2, live, machine, r, Where(l2, r));
          StepButThen(l0, m0, l2, m2, live, machine, r, x);
          StepButInv(l0, m0, live, machine, r, x);
          if size < 4 { KeepsTrans(l0, m0, l2, m2, live, machine, r); }
        }
      }
      ghost var l3, m3 := live, machine;
      if answer < 0 {
        RoomStillThere(l0, l3, r, size);
        answer := ClaimStep(r, size, spec);
        StepButThen(l0, m0, l3, m3, live, machine, r, x);
        StepButInv(l0, m0, live, machine, r, x);
        ClaimReady(l0, m0, l3, m3, live, machine, r, size);
      }
    }

    method WriteRegGeneral(r: int, size: int, spec: int) returns (answer: int)
      requires Valid() && IsVreg(r) && IsSize(size)
      requires MaySpecify(live, r, spec, size, WriteAtHand(live, r, size, spec))
      requires !WriteAtHand(live, r, size, spec) ==> RoomFor(live, r, size)
      requires LockedAlone(live, r) ==>
        (Can(live.state[r].realreg, size) || spec >= 0) && (size == 4 || live.state[r].val == ZERO)
      modifies this
      ensures Valid()
      ensures KeepsAllBut(old(live), old(machine), live, machine, r)
      ensures Placed(live, r, answer) && Can(answer, size) && (spec >= 0 ==> answer == spec)
      ensures IsNreg(answer) && (size == 1 ==> answer <= 3) && (size == 2 ==> answer != 4)
      ensures LockedOneMore(old(live), live, answer)
      ensures LockedKept(old(live), old(machine), live, machine, Where(old(live), r))
      ensures live.state[r].status == DIRTY && live.state[r].val == ZERO
      ensures size <= live.state[r].validsize && size <= live.state[r].dirtysize
      ensures !LockedAlone(old(live), r) ==> live.native[answer].locked == 1
      ensures size == 4 || Coh(old(live), old(machine), r) ==> Coh(live, machine, r)
      ensures size < 4 && Coh(old(live), old(machine), r) ==>
        Agree(r, size, 4, LogVal(live, machine, r), LogVal(old(live), old(machine), r))
      // Nothing is loaded for a register that is up to date in memory: only `size` bytes become valid.
      ensures Claims(old(live), r) && spec < 0 ==> Claimed(old(live), old(machine), live, machine, r, size, answer)
    {
      hide Step, StepBut, KeepsAllBut, Keeps, Links, Ok, Coh, LogVal, RoomFor, Agree, LockedKept, MaySpecify,
           WriteAtHand;
      ghost var l0, m0, x := live, machine, Where(live, r);
      answer := WritePrepare(r, size, spec);
      StepButInv(l0, m0, live, machine, r, x);
      ghost var l1, m1 := live, machine;
      OkAt(l1, m1, r);
      SpecifiedAt(l0, l1, r, spec, size, WriteAtHand(l0, r, size, spec), answer);
      if spec >= 0 { AloneTakenOver(l1, m1, r, answer, spec); }
      answer := MoveToSpec(r, answer, spec);
      StepIsBut(l1, m1, live, machine, r, Where(l1, r));
      StepButThen(l0, m0, l1, m1, live, machine, r, x);
      StepButInv(l0, m0, live, machine, r, x);
      ghost var l2, m2 := live, machine;
      assert size < 4 ==> live.state[r].val == ZERO;
      OkAt(l2, m2, r);
      RestatusStep(r, live.state[r].(dirtysize := Max(size, live.state[r].dirtysize),
                                     validsize := Max(size, live.state[r].validsize),
                                     val := if size == 4 then ZERO else live.state[r].val,
                                     status := DIRTY));
      StepButThen(l0, m0, l2, m2, live, machine, r, x);
      StepButInv(l0, m0, live, machine, r, x);
      ghost var l3 := live;
      LockAndTouch(answer);
      LockAfterStepBut(l0, m0, l3, machine, live, r, answer, x);
      FinishReady(l0, m0, l1, m1, live, machine, r, size);
    }

    // No offset pending on r, and no sharing.
    method Isolate(r: int, spec: int)
      requires Valid() && IsVreg(r)
      requires live.state[r].val != ZERO ==> !LockedAlone(live, r)
      requires live.state[r].val != ZERO && live.state[r].status != ISCONST && !Own(live, r) ==> RoomFor(live, r, 4)
      requires MustMove(live, r, 0) ==> RoomFor(live, r, 4)
      modifies this
      ensures Step(old(live), old(machine), live, machine, r, Where(old(live), r))
      ensures live.state[r].status == ISCONST || live.state[r].val == ZERO
      ensures if LockedAlone(old(live), r) then live == old(live) && machine == old(machine) else !LockedAlone(live, r)
      ensures InReg(live.state[r]) ==> Placed(live, r, live.state[r].realreg)
      ensures Dirtied(old(live).state[r], live.state[r])
      ensures InReg(old(live).state[r]) && !MustMove(old(live), r, 0)
              && (old(live).state[r].val == ZERO || Own(old(live), r)) ==>
        InReg(live.state[r]) && live.state[r].realreg == old(live).state[r].realreg
        && live.state[r].validsize == old(live).state[r].validsize
    {
      hide Step, StepBut, Keeps, Links, Ok, RoomFor;
      ghost var l0, m0, x := live, machine, Where(live, r);
      RemoveOffset(r, spec);
      StepInv(l0, m0, live, machine, r, x);
      ghost var l1, m1 := live, machine;
      MakeExclusiveStep(r, 0, spec);
      StepButInv(l1, m1, live, machine, r, Where(l1, r));
      ButIsStep(l1, m1, live, machine, r, Where(l1, r));
      StepThen(l0, m0, l1, m1, live, machine, r, x);
    }

    // r alone in a native register with its low rsize bytes valid and no offset pending.
    method RmwPrepare(r: int, rsize: int, spec: int) returns (answer: int)
      requires Valid() && IsVreg(r) && IsSize(rsize)
      requires !RmwAtHand(live, r, rsize, spec) ==> RoomFor(live, r, if spec >= 0 then 4 else rsize)
      requires LockedAlone(live, r) ==>
        live.state[r].validsize >= rsize && live.state[r].val == ZERO
        && (Can(live.state[r].realreg, rsize) || spec >= 0)
      modifies this
      ensures Step(old(live), old(machine), live, machine, r, Where(old(live), r))
      ensures Placed(live, r, answer) && (Can(answer, rsize) || spec >= 0)
      ensures rsize <= live.state[r].validsize && live.state[r].val == ZERO
      ensures RmwAtHand(old(live), r, rsize, spec) ==> answer == Where(old(live), r)
      ensures Dirtied(old(live).state[r], live.state[r])
    {
      hide Step, StepBut, Keeps, Links, Ok, RoomFor;
      ghost var l0, m0, x := live, machine, Where(live, r);
      OkAt(l0, m0, r);
      if !RmwAtHand(l0, r, rsize, spec) { RoomForWord(l0, r, if spec >= 0 then 4 else rsize); }
      Isolate(r, spec);
      StepInv(l0, m0, live, machine, r, x);
      ghost var l2, m2 := live, machine;
      OkAt(l2, m2, r);
      answer := -1;
      if InReg(live.state[r]) && live.state[r].validsize >= rsize {
        var n := live.state[r].realreg;
        assert |live.native[n].holds| == 1;
        if Can(n, rsize) || spec >= 0 { answer := n; }
        if answer < 0 {
          EvictStep(r);
          StepThen(l0, m0, l2, m2, live, machine, r, x);
        }
      }
      StepInv(l0, m0, live, machine, r, x);
      ghost var l3, m3 := live, machine;
      if answer < 0 {
        assert !RmwAtHand(l0, r, rsize, spec);
        RoomStillThere(l0, l3, r, if spec >= 0 then 4 else rsize);
        answer := LoadStep(r, if spec >= 0 then 4 else rsize, spec);
        StepThen(l0, m0, l3, m3, live, machine, r, x);
      }
    }

    method RmwGeneral(r: int, wsize: int, rsize: int, spec: int) returns (answer: int)
      requires Valid() && IsVreg(r) && IsSize(wsize) && IsSize(rsize) && rsize <= wsize
      requires MaySpecify(live, r, spec, wsize, RmwAtHand(live, r, rsize, spec))
      requires spec >= 0 ==> Fits(live.state[r], spec)
      requires !RmwAtHand(live, r, rsize, spec) ==> RoomFor(live, r, if spec >= 0 then 4 else rsize)
      requires LockedAlone(live, r) ==>
        live.state[r].validsize >= rsize && live.state[r].val == ZERO
        && (Can(live.state[r].realreg, rsize) || spec >= 0)
      modifies this
      ensures Valid()
      ensures KeepsAllBut(old(live), old(machine), live, machine, r)
      ensures Placed(live, r, answer) && Can(answer, wsize) && (spec >= 0 ==> answer == spec)
      ensures IsNreg(answer) && (wsize == 1 ==> answer <= 3) && (wsize == 2 ==> answer != 4)
      ensures LockedOneMore(old(live), live, answer)
      ensures LockedKept(old(live), old(machine), live, machine, Where(old(live), r))
      ensures live.state[r].status == DIRTY && live.state[r].val == ZERO
      ensures wsize <= live.state[r].validsize && wsize <= live.state[r].dirtysize
      ensures Coh(old(live), old(machine), r) ==>
        && Coh(live, machine, r)
        && Agree(r, 0, rsize, NativeWord(live, machine, r), LogVal(old(live), old(machine), r))
        && Agree(r, wsize, 4, LogVal(live, machine, r), LogVal(old(live), old(machine), r))
        && (rsize == wsize ==> Same(r, LogVal(live, machine, r), LogVal(old(live), old(machine), r)))
      ensures Wide(old(live).state[r]) ==> Wide(live.state[r])
    {
      hide Step, StepBut, KeepsAllBut, Keeps, Links, Ok, Coh, LogVal, RoomFor, Agree, Same, LockedKept, MaySpecify,
           RmwAtHand;
      ghost var l0, m0, x := live, machine, Where(live, r);
      answer := RmwPrepare(r, rsize, spec);
      StepInv(l0, m0, live, machine, r, x);
      ghost var l1, m1 := live, machine;
      SpecifiedAt(l0, l1, r, spec, wsize, RmwAtHand(l0, r, rsize, spec), answer);
      if spec >= 0 { AloneTakenOver(l1, m1, r, answer, spec); }
      answer := MoveToSpec(r, answer, spec);
      StepThen(l0, m0, l1, m1, live, machine, r, x);
      StepInv(l0, m0, live, machine, r, x);
      FinishRmw(l0, m0, r, wsize, rsize, answer);
    }

    // Declares wsize bytes of r changed and locks its native register.
    method FinishRmw(ghost l0: BigState, ghost m0: Machine, r: int, wsize: int, rsize: int, n: int)
      requires Shape(l0, m0) && Valid() && Placed(live, r, n) && Step(l0, m0, live, machine, r, Where(l0, r))
      requires IsSize(wsize) && IsSize(rsize) && rsize <= wsize && Can(n, wsize)
      requires rsize <= live.state[r].validsize && live.state[r].val == ZERO
      modifies this
      ensures Valid() && KeepsAllBut(l0, m0, live, machine, r) && Placed(live, r, n)
      ensures LockedOneMore(l0, live, n) && LockedKept(l0, m0, live, machine, Where(l0, r))
      ensures live.state[r].status == DIRTY && live.state[r].val == ZERO
      ensures wsize <= live.state[r].validsize && wsize <= live.state[r].dirtysize
      ensures Coh(l0, m0, r) ==>
        && Coh(live, machine, r)
        && Agree(r, 0, rsize, NativeWord(live, machine, r), LogVal(l0, m0, r))
        && Agree(r, wsize, 4, LogVal(live, machine, r), LogVal(l0, m0, r))
        && (rsize == wsize ==> Same(r, LogVal(live, machine, r), LogVal(l0, m0, r)))
      ensures Wide(l0.state[r]) ==> Wide(live.state[r])
    {
      hide Step, StepBut, KeepsAllBut, KeepsAll, Keeps, Links, Ok, Coh, LogVal, Agree, Same, LockedKept;
      ghost var l2, m2, x := live, machine, Where(l0, r);
      StepIsBut(l0, m0, live, machine, r, x);
      OkAt(l2, m2, r);
      RestatusStep(r, live.state[r].(dirtysize := Max(wsize, live.state[r].dirtysize),
                                     validsize := Max(wsize, live.state[r].validsize),
                                     status := DIRTY));
      StepButThen(l0, m0, l2, m2, live, machine, r, x);
      StepButInv(l0, m0, live, machine, r, x);
      ghost var l3 := live;
      LockAndTouch(n);
      LockAfterStepBut(l0, m0, l3, machine, live, r, n, x);
      StepParts(l0, m0, l2, m2, r, x);
      KeepsWide(l0, m0, l2, m2, r);
      RmwValue(l0, m0, l2, m2, live, machine, r, wsize, rsize);
    }
  }
}
