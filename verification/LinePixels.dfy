// What a line of the blitter leaves in memory, pixel by pixel.

module LinePixels {
  import Division
  import opened BlitWord
  import opened Blitter
  import opened BlitLine
  import opened BlitMemory

  // A pixel: sixteen to a word, the leftmost in the highest bit.
  predicate Pixel(m: Memory, p: nat)
    requires p < 16 * |m|
  {
    m[p / 16][15 - p % 16]
  }

  // One bit of texture, and a logic function that keeps C where there is none.
  ghost predicate Draws(c: Setup) {
    && c.useC && c.dma && 0 <= c.mt < 256 && c.mt % 16 == 10
    && forall x | 0 <= x < 16 :: c.blinea[x] == (x == 15)
  }

  // Where the dots fall that a position stands for; memory answers at every address.
  function Place(words: nat, position: int): nat
    requires words > 0
  {
    position % (16 * words)
  }

  lemma PlaceIs(words: nat, word: int, shift: nat)
    requires words > 0 && shift < 16
    ensures Place(words, 16 * word + shift) == 16 * (word % words) + shift
  {
    var q, r := word / words, word % words;
    assert 16 * word + shift == q * (16 * words) + (16 * r + shift);
    Division.Unique(16 * word + shift, 16 * words, q, 16 * r + shift);
  }

  lemma Kept(mt: int, b: bool, c: bool)
    requires 0 <= mt < 256 && mt % 16 == 10
    ensures Minterm(mt, false, b, c) == c
  {
  }

  function Texture(c: Setup, l: Line): Word
    requires 0 <= l.shift < 16
  {
    if c.sing && l.onedot then ZERO else ShiftRight(c.blinea, l.shift)
  }

  lemma TextureBit(c: Setup, l: Line, x: nat)
    requires Draws(c) && 0 <= l.shift < 16 && x < 16
    ensures Texture(c, l)[x] == (x == 15 - l.shift && (!c.sing || !l.onedot))
  {
  }

  lemma CombinedIs(c: Setup, l: Line, x: nat)
    requires c.useC && c.dma && 0 <= l.shift < 16 && x < 16
    ensures Combined(c, l).ddat[x] == BitFunc(Texture(c, l)[x], l.blineb[0], Get(l.mem, l.cpt)[x], c.mt)
  {
    hide BitFunc, Get, ShiftRight;
  }

  // The word that a dot writes: C, but for the bit of the pixel.
  lemma DotWord(c: Setup, l: Line, x: nat)
    requires Draws(c) && 0 <= l.shift < 16 && x < 16
    ensures Combined(c, l).ddat[x] ==
      if x == 15 - l.shift
      then Minterm(c.mt, !c.sing || !l.onedot, l.blineb[0], Get(l.mem, l.cpt)[x])
      else Get(l.mem, l.cpt)[x]
  {
    hide BitFunc, Minterm, Get, Combined, Texture, Selected, Term;
    CombinedIs(c, l, x);
    TextureBit(c, l, x);
    BitFuncIsSelected(Texture(c, l)[x], l.blineb[0], Get(l.mem, l.cpt)[x], c.mt);
    SelectedIs(c.mt, Texture(c, l)[x], l.blineb[0], Get(l.mem, l.cpt)[x]);
    Kept(c.mt, l.blineb[0], Get(l.mem, l.cpt)[x]);
  }

  lemma SelectedIs(mt: int, a: bool, b: bool, c: bool)
    ensures Selected(mt, Term(a, b, c)) == Minterm(mt, a, b, c)
  {
  }

  lemma DotMemory(c: Setup, l: Line)
    requires Draws(c) && 0 <= l.shift < 16 && l.dpt == l.cpt
    ensures Dot(c, l).mem == Put(l.mem, l.cpt, Combined(c, l).ddat)
  {
    hide BlitFunc, Proc, Get, Put, ShiftRight, RotateLeft;
  }

  // One dot touches one pixel: the one that pointer and shift stand for.
  lemma DotPixel(c: Setup, l: Line, p: nat)
    requires Draws(c) && 0 <= l.shift < 16 && l.dpt == l.cpt && p < 16 * |l.mem|
    ensures |Dot(c, l).mem| == |l.mem|
    ensures Pixel(Dot(c, l).mem, p) ==
      if p == Place(|l.mem|, 16 * l.cpt + l.shift)
      then Minterm(c.mt, !c.sing || !l.onedot, l.blineb[0], Pixel(l.mem, p))
      else Pixel(l.mem, p)
  {
    hide Combined, Dot, Draws, Minterm, Place;
    DotMemory(c, l);
    DotWord(c, l, 15 - p % 16);
    PlaceIs(|l.mem|, l.cpt, l.shift);
  }

  // The k-th dot of a line sets, clears or inverts one pixel, as the pattern bit that is due says.
  lemma LineStep(c: Setup, l: Line, k: nat, p: nat)
    requires Draws(c) && 0 <= l.shift < 16 && l.dpt == l.cpt && p < 16 * |l.mem|
    requires |Dots(c, l, k).mem| == |l.mem|
    ensures var m, n := Dots(c, l, k), Dots(c, l, k + 1);
      && |n.mem| == |l.mem|
      && Pixel(n.mem, p) ==
         if p == Place(|l.mem|, Position(l) + k * MajorStep(c) + MinorCount(c, l, k) * MinorStep(c))
         then Minterm(c.mt, !c.sing || !m.onedot, l.blineb[(15 * k) % 16], Pixel(m.mem, p))
         else Pixel(m.mem, p)
  {
    hide Dot, Draws, Minterm, Place, MajorStep, MinorStep, MinorCount;
    DotPosition(c, l, k);
    PatternTurns(c, l, k, 0);
    DotPixel(c, Dots(c, l, k), p);
  }

  // The pixels of the first k dots of a line: step by step along the major axis, and along the minor one as
  // often as one division says.
  ghost predicate OnLine(c: Setup, l: Line, k: nat, p: nat)
    requires c.amod < c.bmod
  {
    exists j: nat :: j < k && p == LinePlace(c, l, j)
  }

  function LinePlace(c: Setup, l: Line, j: nat): nat
    requires c.amod < c.bmod
  {
    Place(|l.mem|, 16 * l.cpt + l.shift + j * MajorStep(c) + MinorAt(c, l, j) * MinorStep(c))
  }

  // How far the line has gone along the minor axis at its j-th dot.
  function MinorAt(c: Setup, l: Line, j: nat): int
    requires c.amod < c.bmod
  {
    (S16(l.apt) + (j - 1) * c.bmod) / (c.bmod - c.amod) + 1
  }

  // A solid line drawn over what is there sets exactly the pixels of the digital line.
  lemma {:induction false} LineDrawn(c: Setup, l: Line, k: nat, p: nat)
    requires Draws(c) && c.mt == 0xca && !c.sing && SetUp(c, l) && l.dpt == l.cpt && p < 16 * |l.mem|
    requires forall x | 0 <= x < 16 :: l.blineb[x]
    ensures |Dots(c, l, k).mem| == |l.mem|
    ensures Pixel(Dots(c, l, k).mem, p) <==> Pixel(l.mem, p) || OnLine(c, l, k, p)
  {
    hide Place, MajorStep, MinorStep, MinorCount, Pixel, Dots, Minterm, OnLine, S16;
    if k > 0 {
      LineDrawn(c, l, k - 1, p);
      LineStep(c, l, k - 1, p);
      ExactDda(c, l, k - 1);
      Solid(Pixel(Dots(c, l, k - 1).mem, p));
      OneMorePlace(c, l, k, p);
    } else {
      NoDots(c, l, p);
    }
  }

  lemma Solid(c: bool)
    ensures Minterm(0xca, true, true, c)
  {
  }

  lemma NoDots(c: Setup, l: Line, p: nat)
    requires 0 <= l.shift < 16 && c.amod < c.bmod
    ensures Dots(c, l, 0) == l && !OnLine(c, l, 0, p)
  {
  }

  lemma OneMorePlace(c: Setup, l: Line, k: nat, p: nat)
    requires k > 0 && c.amod < c.bmod
    ensures OnLine(c, l, k, p) <==> OnLine(c, l, k - 1, p) || p == LinePlace(c, l, k - 1)
  {
    hide LinePlace;
  }
}
