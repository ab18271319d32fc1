// The blitter's line mode: one dot per step, an error accumulator that decides about the step
// along the minor axis, and a position made of a word pointer and a shift.

module BlitLine {
  import Division
  import opened BlitWord
  import opened Blitter

  // Registers that stay as they are during a line. Modulos of A and B are signed 16-bit values;
  // addresses and the modulo of C are counted in words.
  datatype Setup = Setup(
    useA: bool, useC: bool, dma: bool, sud: bool, sul: bool, aul: bool, sing: bool,
    amod: int, bmod: int, cmod: int, blinea: Word, mt: int)

  datatype Line = Line(
    mem: Memory, apt: int, sign: bool, cpt: int, dpt: int, shift: int, blineb: Word, onedot: bool,
    cdat: Word, ddat: Word, left: int, nonzero: bool)

  function S16(x: int): int { (x + 0x8000) % 0x1_0000 - 0x8000 }

  function ShiftRight(w: Word, n: int): Word
    requires 0 <= n < 16
  {
    seq(16, k requires 0 <= k < 16 => k + n < 16 && w[k + n])
  }

  function RotateLeft(w: Word): Word { seq(16, k requires 0 <= k < 16 => w[(k + 15) % 16]) }

  function IncX(l: Line): Line {
    if l.shift + 1 == 16 then l.(shift := 0, cpt := l.cpt + 1) else l.(shift := l.shift + 1)
  }

  function DecX(l: Line): Line {
    if l.shift == 0 then l.(shift := 15, cpt := l.cpt - 1) else l.(shift := l.shift - 1)
  }

  function DecY(c: Setup, l: Line): Line { l.(cpt := l.cpt - c.cmod, onedot := false) }

  function IncY(c: Setup, l: Line): Line { l.(cpt := l.cpt + c.cmod, onedot := false) }

  function Minor(c: Setup, l: Line): Line {
    if c.sud then (if c.sul then DecY(c, l) else IncY(c, l))
    else if c.sul then DecX(l) else IncX(l)
  }

  function Major(c: Setup, l: Line): Line {
    if c.sud then (if c.aul then DecX(l) else IncX(l))
    else if c.aul then DecY(c, l) else IncY(c, l)
  }

  // blitter_line_proc
  function Proc(c: Setup, l: Line): Line {
    var m := if !l.sign then Minor(c, l.(apt := if c.useA then l.apt + c.amod else l.apt))
             else l.(apt := if c.useA then l.apt + c.bmod else l.apt);
    var n := Major(c, m);
    n.(sign := S16(n.apt) < 0)
  }

  // blitter_read and blitter_line
  function Combined(c: Setup, l: Line): Line
    requires 0 <= l.shift < 16
  {
    var cdat := if c.useC && c.dma then Get(l.mem, l.cpt) else l.cdat;
    var a := if c.sing && l.onedot then ZERO else ShiftRight(c.blinea, l.shift);
    l.(cdat := cdat, onedot := true, ddat := BlitFunc(a, if l.blineb[0] then ONES else ZERO, cdat, c.mt))
  }

  // blitter_read, blitter_line, blitter_line_proc, blitter_write, blitter_nxline
  function Dot(c: Setup, l: Line): Line
    requires 0 <= l.shift < 16
  {
    var m := Combined(c, l);
    var n := Proc(c, m);
    n.(mem := if c.useC && c.dma then Put(l.mem, l.dpt, m.ddat) else l.mem, nonzero := l.nonzero || m.ddat != ZERO,
       dpt := n.cpt, blineb := RotateLeft(l.blineb), left := l.left - 1)
  }

  // A dot, from the state after its line_proc.
  lemma DotIs(c: Setup, l: Line)
    requires 0 <= l.shift < 16
    ensures var n := Proc(c, Combined(c, l));
      Dot(c, l) == n.(
        mem := if c.useC && c.dma then Put(n.mem, n.dpt, n.ddat) else n.mem, nonzero := n.nonzero || n.ddat != ZERO,
        dpt := n.cpt, blineb := RotateLeft(n.blineb), left := n.left - 1)
  {
    hide BlitFunc, Proc, Get, Put, ShiftRight, RotateLeft, MajorStep, MinorStep;
    ProcKeeps(c, Combined(c, l));
  }

  // What a step along an axis leaves alone.
  ghost predicate Moved(l: Line, n: Line) {
    && 0 <= n.shift < 16 && n.mem == l.mem && n.dpt == l.dpt && n.blineb == l.blineb && n.apt == l.apt
    && n.sign == l.sign
    && n.cdat == l.cdat && n.ddat == l.ddat && n.left == l.left && n.nonzero == l.nonzero
  }

  lemma MinorMoves(c: Setup, l: Line)
    requires 0 <= l.shift < 16
    ensures Moved(l, Minor(c, l)) && Position(Minor(c, l)) == Position(l) + MinorStep(c)
  {
  }

  lemma MajorMoves(c: Setup, l: Line)
    requires 0 <= l.shift < 16
    ensures Moved(l, Major(c, l)) && Position(Major(c, l)) == Position(l) + MajorStep(c)
  {
  }

  lemma ProcKeeps(c: Setup, l: Line)
    requires 0 <= l.shift < 16
    ensures var n := Proc(c, l);
      && 0 <= n.shift < 16 && n.mem == l.mem && n.dpt == l.dpt && n.blineb == l.blineb
      && n.cdat == l.cdat && n.ddat == l.ddat && n.left == l.left && n.nonzero == l.nonzero
      && Position(n) == Position(l) + MajorStep(c) + (if l.sign then 0 else MinorStep(c))
      && n.apt == l.apt + (if !c.useA then 0 else if l.sign then c.bmod else c.amod)
      && n.sign == (S16(n.apt) < 0)
  {
    hide S16, Minor, Major, MajorStep, MinorStep;
    var k := if !l.sign then l.(apt := if c.useA then l.apt + c.amod else l.apt)
             else l.(apt := if c.useA then l.apt + c.bmod else l.apt);
    MinorMoves(c, k);
    MajorMoves(c, if l.sign then k else Minor(c, k));
  }

  function Dots(c: Setup, l: Line, k: nat): (r: Line)
    requires 0 <= l.shift < 16
    ensures 0 <= r.shift < 16 && r.left == l.left - k
  {
    hide Dot;
    if k == 0 then l else
      var p := Dots(c, l, k - 1);
      DotMoves(c, p);
      Dot(c, p)
  }

  // ---- position ----

  // The pointer and the shift are one number: x plus the row times the width in dots.
  function Position(l: Line): int { 16 * l.cpt + l.shift }

  function MajorStep(c: Setup): int {
    if c.sud then (if c.aul then -1 else 1) else if c.aul then -16 * c.cmod else 16 * c.cmod
  }

  function MinorStep(c: Setup): int {
    if c.sud then (if c.sul then -16 * c.cmod else 16 * c.cmod) else if c.sul then -1 else 1
  }

  lemma DotMoves(c: Setup, l: Line)
    requires 0 <= l.shift < 16
    ensures Position(Dot(c, l)) == Position(l) + MajorStep(c) + if l.sign then 0 else MinorStep(c)
    ensures Dot(c, l).apt == l.apt + if !c.useA then 0 else if l.sign then c.bmod else c.amod
    ensures Dot(c, l).sign == (S16(Dot(c, l).apt) < 0)
    ensures Dot(c, l).dpt == Dot(c, l).cpt && Dot(c, l).left == l.left - 1 && 0 <= Dot(c, l).shift < 16
    ensures Dot(c, l).blineb == RotateLeft(l.blineb)
  {
    hide S16, BlitFunc, Proc, Get, Put, ShiftRight, RotateLeft, MajorStep, MinorStep;
    ProcKeeps(c, Combined(c, l));
  }

  // ---- the accumulator ----

  // How many of the first k dots make a step along the minor axis.
  function MinorCount(c: Setup, l: Line, k: nat): nat
    requires 0 <= l.shift < 16
  {
    if k == 0 then 0 else MinorCount(c, l, k - 1) + if Dots(c, l, k - 1).sign then 0 else 1
  }

  // A line as it is set up: the error terms have the signs they should have, and the first
  // decision is right.
  ghost predicate SetUp(c: Setup, l: Line) {
    && c.useA && -0x8000 <= c.amod < 0 <= c.bmod < 0x8000
    && c.amod <= S16(l.apt) < c.bmod && l.sign == (S16(l.apt) < 0) && 0 <= l.shift < 16
  }

  lemma S16Small(x: int)
    requires -0x8000 <= x < 0x8000
    ensures S16(x) == x
  {
  }

  lemma S16Add(x: int, y: int)
    ensures S16(x + y) == S16(S16(x) + y)
  {
    var q := (x + 0x8000) / 0x1_0000;
    assert S16(x) == x - 0x1_0000 * q;
    assert S16(x) + y + 0x8000 == (x + y + 0x8000) + 0x1_0000 * (-q);
    ModShift(x + y + 0x8000, -q);
  }

  lemma ModShift(x: int, k: int)
    ensures (x + 0x1_0000 * k) % 0x1_0000 == x % 0x1_0000
  {
  }

  // The accumulator never leaves its range, and stands for the error of the dots drawn.
  lemma {:induction false} Accumulator(c: Setup, l: Line, k: nat)
    requires SetUp(c, l)
    ensures var p := Dots(c, l, k); var m := MinorCount(c, l, k);
      && c.amod <= S16(p.apt) < c.bmod && p.sign == (S16(p.apt) < 0)
      && m <= k && S16(p.apt) == S16(l.apt) + (k - m) * c.bmod + m * c.amod
  {
    hide S16, Dot;
    if k > 0 {
      Accumulator(c, l, k - 1);
      var p, m := Dots(c, l, k - 1), MinorCount(c, l, k - 1);
      DotMoves(c, p);
      var step := if p.sign then c.bmod else c.amod;
      S16Add(p.apt, step);
      S16Small(S16(p.apt) + step);
      Distribute(k - 1, m, c.bmod, c.amod);
    }
  }

  lemma Distribute(k: int, m: int, b: int, a: int)
    ensures (k + 1 - m) * b + m * a == (k - m) * b + m * a + b
    ensures (k + 1 - (m + 1)) * b + (m + 1) * a == (k - m) * b + m * a + a
  {
  }

  // What a division says about the number of minor steps.
  function MinorFormula(a0: int, k: int, b: int, a: int): int
    requires b > a
  {
    (a0 + (k - 1) * b) / (b - a) + 1
  }

  // After k dots the minor steps are counted by one division: the line is an exact digital
  // differential analyser.
  lemma ExactDda(c: Setup, l: Line, k: nat)
    requires SetUp(c, l)
    ensures MinorCount(c, l, k) == MinorFormula(S16(l.apt), k, c.bmod, c.amod)
  {
    hide S16, MinorCount, Dots, MinorFormula;
    Accumulator(c, l, k);
    FormulaIs(S16(l.apt), k, MinorCount(c, l, k), c.bmod, c.amod);
  }

  lemma FormulaIs(a0: int, k: int, m: int, b: int, a: int)
    requires a < b && a <= a0 + (k - m) * b + m * a < b
    ensures m == MinorFormula(a0, k, b, a)
  {
    Rearranged(a0, k, m, b, a);
    var x, d := a0 + (k - 1) * b, b - a;
    Division.Unique(x, d, m - 1, x - (m - 1) * d);
  }

  lemma Rearranged(a0: int, k: int, m: int, b: int, a: int)
    requires a <= a0 + (k - m) * b + m * a < b
    ensures (m - 1) * (b - a) <= a0 + (k - 1) * b < (m - 1) * (b - a) + (b - a)
  {
    assert (k - m) * b + m * a == k * b - m * (b - a);
    assert (k - 1) * b == k * b - b;
    assert (m - 1) * (b - a) == m * (b - a) - (b - a);
  }

  // The dots lie on the line: k steps along the major axis, and the count above along the minor.
  lemma {:induction false} DotPosition(c: Setup, l: Line, k: nat)
    requires 0 <= l.shift < 16
    ensures Position(Dots(c, l, k)) == Position(l) + k * MajorStep(c) + MinorCount(c, l, k) * MinorStep(c)
    ensures k > 0 ==> Dots(c, l, k).dpt == Dots(c, l, k).cpt
  {
    hide Dot, MajorStep, MinorStep;
    if k > 0 {
      DotPosition(c, l, k - 1);
      DotMoves(c, Dots(c, l, k - 1));
      OneMore(k - 1, MajorStep(c));
      OneMore(MinorCount(c, l, k - 1), MinorStep(c));
    }
  }

  lemma OneMore(k: int, x: int)
    ensures (k + 1) * x == k * x + x
  {
  }

  lemma Turn(i: nat, k: nat)
    requires k > 0
    ensures ((i + 15) % 16 + 15 * (k - 1)) % 16 == (i + 15 * k) % 16
  {
  }

  // The pattern turns once per dot.
  lemma {:induction false} PatternTurns(c: Setup, l: Line, k: nat, i: nat)
    requires 0 <= l.shift < 16 && i < 16
    ensures Dots(c, l, k).blineb[i] == l.blineb[(i + 15 * k) % 16]
  {
    hide Dot, MajorStep, MinorStep;
    if k > 0 {
      PatternTurns(c, l, k - 1, (i + 15) % 16);
      DotMoves(c, Dots(c, l, k - 1));
      Turn(i, k);
    }
  }

  // In single-dot mode a dot is left out exactly when it is next to the dot before it, in the same row.
  lemma OneDotPerRow(c: Setup, l: Line, k: nat)
    requires 0 <= l.shift < 16 && k > 0
    ensures var p, q := Dots(c, l, k - 1), Dots(c, l, k);
      && (q.onedot <==> c.sud && p.sign)
      && (c.cmod != 0 ==> (q.onedot <==> Position(q) - Position(p) == 1 || Position(q) - Position(p) == -1))
      && (Combined(c, q).ddat == BlitFunc(if c.sing && q.onedot then ZERO else ShiftRight(c.blinea, q.shift),
                                          if q.blineb[0] then ONES else ZERO, Combined(c, q).cdat, c.mt))
  {
    hide BlitFunc, Get, Put, ShiftRight, RotateLeft, S16, Dot;
    DotMoves(c, Dots(c, l, k - 1));
    OneDotAfter(c, l, k);
  }

  // That is, after a step along a flat line that was not also a step to another row.
  lemma OneDotAfter(c: Setup, l: Line, k: nat)
    requires 0 <= l.shift < 16 && k > 0
    ensures Dots(c, l, k).onedot <==> c.sud && Dots(c, l, k - 1).sign
  {
    hide BlitFunc, Get, Put, ShiftRight, RotateLeft, S16, Minor, Major;
    var p := Combined(c, Dots(c, l, k - 1));
    var q := if !p.sign then Minor(c, p.(apt := if c.useA then p.apt + c.amod else p.apt))
             else p.(apt := if c.useA then p.apt + c.bmod else p.apt);
    RowKept(c, p.(apt := if c.useA then p.apt + c.amod else p.apt));
    RowKept(c, q);
  }

  lemma RowKept(c: Setup, l: Line)
    ensures Minor(c, l).onedot == (l.onedot && !c.sud) && Major(c, l).onedot == (l.onedot && c.sud)
  {
  }

  // ---- the engine ----

  class Engine {
    const mem: array<Word>
    var apt: int
    var sign: bool
    var cpt: int
    var dpt: int
    var shift: int
    var blineb: Word
    var onedot: bool
    var cdat: Word
    var ddat: Word
    var vblitsize: int
    var blitzero: bool

    function State(): Line
      requires mem.Length > 0
      reads this, mem
    {
      Line(mem[..], apt, sign, cpt, dpt, shift, blineb, onedot, cdat, ddat, vblitsize, !blitzero)
    }

    constructor (size: nat)
      requires size > 0
      ensures mem.Length == size && fresh(mem) && 0 <= shift < 16
    {
      mem := new Word[size](k => ZERO);
      apt, sign, cpt, dpt, shift, vblitsize := 0, false, 0, 0, 0, 0;
      blineb, cdat, ddat, onedot, blitzero := ZERO, ZERO, ZERO, false, true;
    }

    method StepX(back: bool)
      requires mem.Length > 0 && 0 <= shift < 16
      modifies this`shift, this`cpt
      ensures State() == if back then DecX(old(State())) else IncX(old(State()))
    {
      if back {
        if shift == 0 { shift := 15; cpt := cpt - 1; } else { shift := shift - 1; }
      } else {
        shift := shift + 1;
        if shift == 16 { shift := 0; cpt := cpt + 1; }
      }
    }

    method StepY(c: Setup, back: bool)
      requires mem.Length > 0
      modifies this`cpt, this`onedot
      ensures State() == if back then DecY(c, old(State())) else IncY(c, old(State()))
    {
      cpt := if back then cpt - c.cmod else cpt + c.cmod;
      onedot := false;
    }

    method StepMinor(c: Setup)
      requires mem.Length > 0 && 0 <= shift < 16
      modifies this`shift, this`cpt, this`onedot
      ensures State() == Minor(c, old(State())) && 0 <= shift < 16
    {
      MinorMoves(c, State());
      hide IncX, DecX, IncY, DecY;
      if c.sud { StepY(c, c.sul); } else { StepX(c.sul); }
    }

    method StepMajor(c: Setup)
      requires mem.Length > 0 && 0 <= shift < 16
      modifies this`shift, this`cpt, this`onedot
      ensures State() == Major(c, old(State())) && 0 <= shift < 16
    {
      MajorMoves(c, State());
      hide IncX, DecX, IncY, DecY;
      if c.sud { StepX(c.aul); } else { StepY(c, c.aul); }
    }

    // blitter_line_proc
    method LineProc(c: Setup)
      requires mem.Length > 0 && 0 <= shift < 16
      modifies this`apt, this`shift, this`cpt, this`onedot, this`sign
      ensures State() == Proc(c, old(State())) && 0 <= shift < 16
    {
      hide S16, Minor, Major;
      if !sign {
        if c.useA { apt := apt + c.amod; }
        StepMinor(c);
      } else {
        if c.useA { apt := apt + c.bmod; }
      }
      StepMajor(c);
      sign := S16(apt) < 0;
    }

    // One dot.
    method DrawDot(c: Setup)
      requires mem.Length > 0 && 0 <= shift < 16
      modifies this, mem
      ensures State() == Dot(c, old(State())) && 0 <= shift < 16 && vblitsize == old(vblitsize) - 1
    {
      hide Proc, RotateLeft, Combined, Get, Put;
      ghost var l := State();
      ReadAndCombine(c);
      ghost var m := State();
      ProcKeeps(c, m);
      LineProc(c);
      if ddat != ZERO { blitzero := false; }
      if c.useC && c.dma { StoreDot(); }
      dpt := cpt;
      blineb := RotateLeft(blineb);
      vblitsize := vblitsize - 1;
      DotIs(c, l);
    }

    method StoreDot()
      requires mem.Length > 0
      modifies mem
      ensures mem[..] == Put(old(mem[..]), dpt, ddat)
    {
      mem[dpt % mem.Length] := ddat;
    }

    // blitter_read and blitter_line
    method ReadAndCombine(c: Setup)
      requires mem.Length > 0 && 0 <= shift < 16
      modifies this`cdat, this`onedot, this`ddat
      ensures State() == Combined(c, old(State()))
    {
      hide BlitFunc, ShiftRight;
      if c.useC && c.dma { cdat := mem[cpt % mem.Length]; }
      var a := if c.sing && onedot then ZERO else ShiftRight(c.blinea, shift);
      onedot := true;
      ddat := BlitFunc(a, if blineb[0] then ONES else ZERO, cdat, c.mt);
    }

    // The line loop of actually_do_blit: exactly as many dots as the height says.
    method DrawLine(c: Setup)
      requires mem.Length > 0 && 0 <= shift < 16 && vblitsize > 0
      modifies this, mem
      ensures State() == Dots(c, old(State()), old(vblitsize)) && vblitsize == 0
    {
      hide Dot;
      ghost var l, n := State(), vblitsize;
      DrawDot(c);
      ghost var k := 1;
      assert Dots(c, l, 0) == l;
      while vblitsize != 0
        decreases vblitsize
        invariant 0 < k <= n && vblitsize == n - k && 0 <= shift < 16
        invariant State() == Dots(c, l, k)
      {
        DrawDot(c);
        k := k + 1;
      }
    }
  }
}
