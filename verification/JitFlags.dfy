// Dead-flag elimination in compile_block: the liveness pass over a block, and why instructions
// whose flags nobody needs may be replaced by forms that leave the flags in any state.

module JitFlags {

  datatype Flag = X | N | Z | V | C

  const ALL := {X, N, Z, V, C}
  const CZNV := {C, Z, N, V}

  // What the opcode table says about an instruction, and what the instruction does to the
  // registers (anything but the flags) and to the set of flags that are 1.
  datatype Instr<!R> = Instr(sets: set<Flag>, uses: set<Flag>, isAddx: bool, exec: (R, set<Flag>) -> (R, set<Flag>))

  datatype State<+R> = State(regs: R, ccr: set<Flag>)

  predicate Agree(f: set<Flag>, g: set<Flag>, mask: set<Flag>) {
    forall x | x in mask :: x in f <==> x in g
  }

  // The table is right about the instruction: it changes no other flags, what it computes
  // depends on no other flags, and with ADDX and the like Z is only handed on into Z.
  ghost predicate Lawful<R(!new)>(op: Instr<R>) {
    && (forall r, f :: Agree(op.exec(r, f).1, f, ALL - op.sets))
    && (forall r, f, g | Agree(f, g, op.uses) :: SameOutcome(op, r, f, g, op.sets))
    && (op.isAddx ==> forall r, f, g | Agree(f, g, op.uses - {Z}) :: SameOutcome(op, r, f, g, op.sets - {Z}))
  }

  ghost predicate SameOutcome<R(!new)>(op: Instr<R>, r: R, f: set<Flag>, g: set<Flag>, mask: set<Flag>) {
    op.exec(r, f).0 == op.exec(r, g).0 && Agree(op.exec(r, f).1, op.exec(r, g).1, mask)
  }

  // The flags needed before op when those in `after` are needed after it.
  function LiveBefore<R>(op: Instr<R>, after: set<Flag>): (r: set<Flag>)
  {
    var live := (after - op.sets) + op.uses;
    if op.isAddx && Z !in after then live - {Z} else live
  }

  // The flags needed before the i-th instruction of the block.
  function LiveAt<R>(block: seq<Instr<R>>, compnf: bool, i: nat): set<Flag>
    requires i <= |block|
    decreases |block| - i
  {
    if i == |block| || !compnf then ALL else LiveBefore(block[i], LiveAt(block, compnf, i + 1))
  }

  // The pass itself, backwards over the block.
  method Liveness<R>(block: seq<Instr<R>>, compnf: bool) returns (live: array<set<Flag>>)
    ensures live.Length == |block| + 1
    ensures forall i | 0 <= i <= |block| :: live[i] == LiveAt(block, compnf, i)
  {
    live := new set<Flag>[|block| + 1];
    live[|block|] := ALL;
    var i := |block|;
    while i > 0
      invariant 0 <= i <= |block|
      invariant forall k | i <= k <= |block| :: live[k] == LiveAt(block, compnf, k)
    {
      i := i - 1;
      var before := ALL;
      if compnf {
        before := (live[i + 1] - block[i].sets) + block[i].uses;
        if block[i].isAddx && Z !in live[i + 1] {
          before := before - {Z};
        }
      }
      assert before == LiveAt(block, compnf, i);
      live[i] := before;
    }
  }

  function Plain<R>(op: Instr<R>, s: State<R>): State<R> {
    var o := op.exec(s.regs, s.ccr);
    State(o.0, o.1)
  }

  // The form without flags: the registers are as they should be, the flags that the
  // instruction sets may be anything.
  predicate NoFlags<R(==)>(op: Instr<R>, s: State<R>, t: State<R>) {
    t.regs == op.exec(s.regs, s.ccr).0 && Agree(t.ccr, s.ccr, ALL - op.sets)
  }

  // What the code for one instruction may do when `after` is needed after it.
  ghost predicate Compiled<R(!new)>(op: Instr<R>, compnf: bool, after: set<Flag>, s: State<R>, t: State<R>) {
    exists mid: State<R> :: Through(op, compnf, after, s, mid, t)
  }

  predicate Through<R(==)>(op: Instr<R>, compnf: bool, after: set<Flag>, s: State<R>, mid: State<R>, t: State<R>) {
    && (if after * op.sets == {} && compnf then NoFlags(op, s, mid) else mid == Plain(op, s))
    && (if after * CZNV == {} then Forgotten(mid, t) else t == mid)
  }

  // dont_care_flags: all flags but X may be lost.
  predicate Forgotten<R(==)>(s: State<R>, t: State<R>) {
    t.regs == s.regs && Agree(t.ccr, s.ccr, {X})
  }

  // The same registers, and the same flags as far as they are needed.
  predicate Alike<R(==)>(s: State<R>, t: State<R>, live: set<Flag>) {
    s.regs == t.regs && Agree(s.ccr, t.ccr, live)
  }

  // A flagless instruction in place of a full one, with its effect seen from what is needed next.
  lemma PlainStep<R(!new)>(op: Instr<R>, after: set<Flag>, s: State<R>, t: State<R>)
    requires Lawful(op) && after <= ALL && Alike(s, t, LiveBefore(op, after))
    ensures Alike(Plain(op, s), Plain(op, t), after)
  {
    var f, g := s.ccr, t.ccr;
    var mask := if op.isAddx && Z !in after then op.uses - {Z} else op.uses;
    assert Agree(f, g, mask);
    assert SameOutcome(op, s.regs, f, g, if op.isAddx && Z !in after then op.sets - {Z} else op.sets);
    assert Agree(op.exec(s.regs, f).1, f, ALL - op.sets);
    assert Agree(op.exec(s.regs, g).1, g, ALL - op.sets);
    forall x | x in after
      ensures x in op.exec(s.regs, f).1 <==> x in op.exec(s.regs, g).1
    {
      if x !in op.sets {
        assert x in ALL - op.sets && x in LiveBefore(op, after);
      }
    }
  }

  lemma CompiledStep<R(!new)>(op: Instr<R>, compnf: bool, after: set<Flag>, s: State<R>, t: State<R>, t': State<R>)
    requires Lawful(op) && after <= ALL && Alike(s, t, LiveBefore(op, after))
    requires Compiled(op, compnf, after, t, t')
    ensures Alike(Plain(op, s), t', after)
  {
    PlainStep(op, after, s, t);
    var mid: State<R> :| Through(op, compnf, after, t, mid, t');
    assert Agree(op.exec(t.regs, t.ccr).1, t.ccr, ALL - op.sets);
    forall x | x in after
      ensures x in mid.ccr <==> x in Plain(op, t).ccr
    {
      if after * op.sets == {} && compnf {
        assert x !in after * op.sets;
        assert x in ALL - op.sets;
      }
    }
    if after * CZNV == {} {
      forall x | x in after
        ensures x == X
      {
        assert x !in after * CZNV;
      }
    }
  }

  // Every flag is one of the five.
  lemma AllFlags(f: set<Flag>)
    ensures f <= ALL
  {
    forall x | x in f
      ensures x in ALL
    {
      match x case X => case N => case Z => case V => case C =>
    }
  }

  // For every block, every initial state that agrees on the flags the block asks for and every
  // choice the flagless forms make: after every prefix the registers are the same and the flags
  // agree as far as the rest of the block needs them, and at the end everything is the same.
  lemma {:induction false} Eliminated<R(!new)>(block: seq<Instr<R>>, compnf: bool, s: seq<State<R>>, t: seq<State<R>>,
                                               n: nat)
    requires n <= |block| && |s| == |t| == |block| + 1
    requires forall k | 0 <= k < |block| :: Lawful(block[k])
    requires forall k | 0 <= k < |block| :: s[k + 1] == Plain(block[k], s[k])
    requires forall k | 0 <= k < |block| :: Compiled(block[k], compnf, LiveAt(block, compnf, k + 1), t[k], t[k + 1])
    requires Alike(s[0], t[0], LiveAt(block, compnf, 0))
    ensures Alike(s[n], t[n], LiveAt(block, compnf, n))
    ensures n == |block| ==> s[n] == t[n]
  {
    if n > 0 {
      Eliminated(block, compnf, s, t, n - 1);
      var k := n - 1;
      var after := LiveAt(block, compnf, n);
      AllFlags(after);
      assert Alike(s[k], t[k], LiveBefore(block[k], after)) by {
        if !compnf { AllFlags(LiveBefore(block[k], after)); }
      }
      assert Compiled(block[k], compnf, LiveAt(block, compnf, k + 1), t[k], t[k + 1]);
      CompiledStep(block[k], compnf, after, s[k], t[k], t[n]);
    }
    if n == |block| {
      AllFlags(s[n].ccr);
      AllFlags(t[n].ccr);
      forall x
        ensures x in s[n].ccr <==> x in t[n].ccr
      {
        AllFlags({x});
        assert x in {x};
      }
    }
  }
}
