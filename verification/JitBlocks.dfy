// Translated blocks: cache-line lists, active and dormant lists, chained jumps
// that are patched when a block's handler changes, and the soft cache flush.

module JitBlocks {
  import JitLists
  import opened Options
  import opened Sequences

  const WORD := 0x1_0000_0000

  // A code address is a 32-bit number.
  type Addr = a: int | 0 <= a < 0x1_0000_0000

  // The i-th place where block `owner` jumps to another block.
  type DepId = (int, int)

  // `list` names the block in whose deplist the dependency is linked (prev_p set in the source).
  datatype Dep = Dep(jmpOff: Option<int>, target: Option<int>, list: Option<int>)

  const UNLINKED := Dep(None, None, None)

  datatype Block = Block(
    pc: int,
    handler: Option<Addr>, handlerToUse: Addr,
    directHandler: Option<Addr>, directHandlerToUse: Addr,
    directPen: Addr, directPcc: Addr)

  // The displacement that makes the jump at `off` go to `a`, and where a displacement leads.
  function Displacement(off: int, a: Addr): int { (a - (off + 4)) % WORD }
  function Destination(off: int, disp: int): Addr { (off + 4 + disp) % WORD }

  lemma JumpGoesTo(off: int, a: Addr)
    ensures Destination(off, Displacement(off, a)) == a
  {
    var d := a - (off + 4);
    assert d == WORD * (d / WORD) + d % WORD;
    assert off + 4 + d % WORD == a + WORD * (-(d / WORD));
    ModWhole(a, -(d / WORD));
  }

  lemma ModWhole(a: Addr, k: int)
    ensures (a + WORD * k) % WORD == a
  {
  }

  type Deps = map<DepId, Dep>
  type DepLists = map<int, seq<DepId>>

  // Membership in a deplist and the link recorded in the dependency say the same.
  ghost predicate Linked(deps: Deps, lists: DepLists) {
    && (forall t, k | t in lists && 0 <= k < |lists[t]| ::
          lists[t][k] in deps && deps[lists[t][k]].list == Some(t))
    && (forall d | d in deps && deps[d].list.Some? ::
          deps[d].list.value in lists && d in lists[deps[d].list.value])
    && (forall t | t in lists :: Distinct(lists[t]))
  }

  // Every linked dependency has a jump of its own.
  ghost predicate OwnJumps(deps: Deps, code: map<int, int>) {
    && (forall d | d in deps && deps[d].list.Some? :: deps[d].jmpOff.Some? && deps[d].jmpOff.value in code)
    && (forall d, e | d in deps && e in deps && d != e && deps[d].list.Some? && deps[e].list.Some? ::
          deps[d].jmpOff != deps[e].jmpOff)
  }

  // The jump of every linked dependency leads to what its target wants to be entered by.
  ghost predicate Chained(blocks: map<int, Block>, deps: Deps, code: map<int, int>) {
    forall d | d in deps && deps[d].list.Some? ::
      && deps[d].list.value in blocks && deps[d].jmpOff.Some? && deps[d].jmpOff.value in code
      && Destination(deps[d].jmpOff.value, code[deps[d].jmpOff.value])
         == blocks[deps[d].list.value].directHandlerToUse
  }

  // ---- what redirecting and unlinking keep ----

  // The code after the first n jumps of the deplist of t have been redirected to dh.
  ghost predicate Redirected(deps: Deps, lists: DepLists, code0: map<int, int>, code: map<int, int>, t: int, n: int,
                             dh: Addr)
    requires t in lists && 0 <= n <= |lists[t]| && Linked(deps, lists) && OwnJumps(deps, code0)
  {
    && code.Keys == code0.Keys
    && (forall k | 0 <= k < n ::
          var off := deps[lists[t][k]].jmpOff.value; off in code && Destination(off, code[off]) == dh)
    && (forall d | d in deps && deps[d].list.Some? && d !in lists[t][..n] ::
          code[deps[d].jmpOff.value] == code0[deps[d].jmpOff.value])
  }

  lemma RedirectStep(deps: Deps, lists: DepLists, code0: map<int, int>, code: map<int, int>, t: int, n: int, dh: Addr)
    requires t in lists && 0 <= n < |lists[t]| && Linked(deps, lists) && OwnJumps(deps, code0)
    requires Redirected(deps, lists, code0, code, t, n, dh)
    ensures var off := deps[lists[t][n]].jmpOff.value;
      Redirected(deps, lists, code0, code[off := Displacement(off, dh)], t, n + 1, dh)
  {
    var x := lists[t][n];
    var off := deps[x].jmpOff.value;
    JumpGoesTo(off, dh);
    assert off in code;
    assert x !in lists[t][..n];
    assert lists[t][..n + 1] == lists[t][..n] + [x];
    forall k | 0 <= k < n
      ensures deps[lists[t][k]].jmpOff.value != off
    {
      assert lists[t][k] != x;
    }
  }

  lemma RedirectedChained(blocks: map<int, Block>, deps: Deps, lists: DepLists, code0: map<int, int>,
                          code: map<int, int>, t: int, dh: Addr)
    requires t in lists && t in blocks && Linked(deps, lists) && OwnJumps(deps, code0)
    requires Chained(blocks, deps, code0) && Redirected(deps, lists, code0, code, t, |lists[t]|, dh)
    ensures Chained(blocks[t := blocks[t].(directHandlerToUse := dh)], deps, code) && OwnJumps(deps, code)
  {
    assert lists[t][..|lists[t]|] == lists[t];
    forall d | d in deps && deps[d].list == Some(t)
      ensures Destination(deps[d].jmpOff.value, code[deps[d].jmpOff.value]) == dh
    {
      var k :| 0 <= k < |lists[t]| && lists[t][k] == d;
    }
  }

  lemma UnlinkedJumps(blocks: map<int, Block>, deps: Deps, code: map<int, int>, d: DepId)
    requires d in deps && deps[d].list.Some?
    ensures OwnJumps(deps, code) ==> OwnJumps(deps[d := deps[d].(list := None)], code)
    ensures Chained(blocks, deps, code) ==> Chained(blocks, deps[d := deps[d].(list := None)], code)
  {
  }

  lemma UnlinkKeeps(blocks: map<int, Block>, deps: Deps, lists: DepLists, code: map<int, int>, d: DepId)
    requires Linked(deps, lists) && d in deps && deps[d].list.Some?
    ensures var t := deps[d].list.value;
      t in lists && Linked(deps[d := deps[d].(list := None)], lists[t := Without(lists[t], d)])
    ensures OwnJumps(deps, code) ==> OwnJumps(deps[d := deps[d].(list := None)], code)
    ensures Chained(blocks, deps, code) ==> Chained(blocks, deps[d := deps[d].(list := None)], code)
  {
    hide OwnJumps, Chained;
    UnlinkedJumps(blocks, deps, code, d);
    var t := deps[d].list.value;
    WithoutDistinct(lists[t], d);
    var deps', lists' := deps[d := deps[d].(list := None)], lists[t := Without(lists[t], d)];
    forall u, k | u in lists' && 0 <= k < |lists'[u]|
      ensures lists'[u][k] in deps' && deps'[lists'[u][k]].list == Some(u)
    {
      var e := lists'[u][k];
      assert e in lists'[u];
      assert e in lists[u];
      var j :| 0 <= j < |lists[u]| && lists[u][j] == e;
      assert deps[e].list == Some(u);
    }
  }

  lemma LinkKeeps(blocks: map<int, Block>, deps: Deps, lists: DepLists, code: map<int, int>,
                  d: DepId, t: int, off: int)
    requires Linked(deps, lists) && OwnJumps(deps, code) && Chained(blocks, deps, code)
    requires d in deps && deps[d].list.None? && t in lists && t in blocks && off in code
    requires forall e | e in deps && deps[e].list.Some? :: deps[e].jmpOff != Some(off)
    requires Destination(off, code[off]) == blocks[t].directHandlerToUse
    ensures var deps' := deps[d := Dep(Some(off), Some(t), Some(t))];
      Linked(deps', lists[t := [d] + lists[t]]) && OwnJumps(deps', code) && Chained(blocks, deps', code)
  {
    var deps' := deps[d := Dep(Some(off), Some(t), Some(t))];
    var lists' := lists[t := [d] + lists[t]];
    assert d !in lists[t];
    forall e | e in deps' && deps'[e].list.Some?
      ensures deps'[e].list.value in lists' && e in lists'[deps'[e].list.value]
    {
      if e != d { assert e in lists[deps[e].list.value]; }
    }
  }

  lemma PrepareKeeps(blocks: map<int, Block>, deps: Deps, lists: DepLists, code: map<int, int>, b: int, block: Block)
    requires Linked(deps, lists) && OwnJumps(deps, code) && Chained(blocks, deps, code)
    requires b !in blocks && b !in lists && (b, 0) !in deps && (b, 1) !in deps
    ensures var deps' := deps[(b, 0) := UNLINKED][(b, 1) := UNLINKED];
      Linked(deps', lists[b := []]) && OwnJumps(deps', code) && Chained(blocks[b := block], deps', code)
  {
  }

  // ---- cache lines ----

  const MAX_HOLD_BI := 3
  const TAGSIZE := 0x10_0000

  function CacheLine(pc: int): int { pc % TAGSIZE }

  function Line(lines: map<int, seq<int>>, cl: int): seq<int> { if cl in lines then lines[cl] else [] }

  // What the tag of a line has to be: the head's handler, or the interpreter.
  function WantedTag(blocks: map<int, Block>, line: seq<int>, executeNormal: Addr): Addr {
    if line != [] && line[0] in blocks then blocks[line[0]].handlerToUse else executeNormal
  }

  ghost predicate InUse(active: seq<int>, dormant: seq<int>, b: int) { b in active || b in dormant }

  // The cache lines hold exactly the blocks in use, each in its own line, one block per address.
  ghost predicate Filed(blocks: map<int, Block>, lines: map<int, seq<int>>, active: seq<int>, dormant: seq<int>) {
    && (forall cl, b | cl in lines && b in lines[cl] ::
          b in blocks && CacheLine(blocks[b].pc) == cl && InUse(active, dormant, b))
    && (forall b | InUse(active, dormant, b) :: b in blocks && b in Line(lines, CacheLine(blocks[b].pc)))
    && (forall cl | cl in lines :: Distinct(lines[cl]))
    && Distinct(active) && Distinct(dormant) && (forall b | b in active :: b !in dormant)
    && (forall a, b | InUse(active, dormant, a) && InUse(active, dormant, b) && blocks[a].pc == blocks[b].pc :: a == b)
  }

  lemma AtLine(blocks: map<int, Block>, lines: map<int, seq<int>>, active: seq<int>, dormant: seq<int>, cl: int, k: int)
    requires Filed(blocks, lines, active, dormant) && 0 <= k < |Line(lines, cl)|
    ensures var b := Line(lines, cl)[k];
      b in blocks && CacheLine(blocks[b].pc) == cl && InUse(active, dormant, b)
  {
    var b := Line(lines, cl)[k];
    assert cl in lines && b in lines[cl];
  }

  // A block that is not in use heads no line.
  lemma NotAtLine(blocks: map<int, Block>, lines: map<int, seq<int>>, active: seq<int>, dormant: seq<int>,
                  cl: int, b: int)
    requires Filed(blocks, lines, active, dormant) && !InUse(active, dormant, b)
    ensures b !in Line(lines, cl)
  {
  }

  lemma AddedIsFiled(blocks0: map<int, Block>, blocks: map<int, Block>, lines: map<int, seq<int>>,
                     active: seq<int>, dormant: seq<int>, b: int)
    requires Filed(blocks0, lines, active, dormant) && !InUse(active, dormant, b)
    requires b in blocks0 && b in blocks && blocks == blocks0[b := blocks[b]]
    requires forall a | InUse(active, dormant, a) :: blocks0[a].pc != blocks[b].pc
    ensures var cl := CacheLine(blocks[b].pc);
      Filed(blocks, lines[cl := [b] + Line(lines, cl)], [b] + active, dormant)
  {
    var cl := CacheLine(blocks[b].pc);
    var lines' := lines[cl := [b] + Line(lines, cl)];
    NotAtLine(blocks0, lines, active, dormant, cl, b);
    forall k, y | k in lines' && y in lines'[k]
      ensures y in blocks && CacheLine(blocks[y].pc) == k && InUse([b] + active, dormant, y)
    {
      if y != b { assert y in Line(lines, k); }
      else if k != cl { NotAtLine(blocks0, lines, active, dormant, k, b); }
    }
    forall y | InUse([b] + active, dormant, y)
      ensures y in blocks && y in Line(lines', CacheLine(blocks[y].pc))
    {
      if y != b { assert InUse(active, dormant, y); assert y in Line(lines, CacheLine(blocks0[y].pc)); }
    }
    forall y, z | InUse([b] + active, dormant, y) && InUse([b] + active, dormant, z) && blocks[y].pc == blocks[z].pc
      ensures y == z
    {
      assert y != b ==> InUse(active, dormant, y);
      assert z != b ==> InUse(active, dormant, z);
    }
  }

  function Raised(blocks: map<int, Block>, lines: map<int, seq<int>>, b: int): map<int, seq<int>>
    requires b in blocks
  {
    var cl := CacheLine(blocks[b].pc);
    lines[cl := [b] + Without(Line(lines, cl), b)]
  }

  lemma RaisedIsFiled(blocks: map<int, Block>, lines: map<int, seq<int>>, active: seq<int>, dormant: seq<int>, b: int)
    requires b in blocks && Filed(blocks, lines, active, dormant) && InUse(active, dormant, b)
    ensures Filed(blocks, Raised(blocks, lines, b), active, dormant)
  {
    var cl := CacheLine(blocks[b].pc);
    var lines' := Raised(blocks, lines, b);
    WithoutDistinct(Line(lines, cl), b);
    var rest := Without(Line(lines, cl), b);
    assert b !in rest;
    forall k, x | k in lines' && x in lines'[k]
      ensures x in blocks && CacheLine(blocks[x].pc) == k && InUse(active, dormant, x)
    {
      assert x in Line(lines, k);
    }
    forall x | InUse(active, dormant, x)
      ensures x in blocks && x in Line(lines', CacheLine(blocks[x].pc))
    {
      assert x in Line(lines, CacheLine(blocks[x].pc));
    }
  }

  // Some way into the block leads straight to its translated code.
  predicate Direct(b: Block, executeNormal: Addr, checkChecksum: Addr) {
    || (b.handlerToUse != executeNormal && b.handlerToUse != checkChecksum)
    || (b.directHandlerToUse != b.directPen && b.directHandlerToUse != b.directPcc)
  }

  function TagAt(tags: map<int, Addr>, cl: int, executeNormal: Addr): Addr {
    if cl in tags then tags[cl] else executeNormal
  }

  // Every tag is what it has to be, except perhaps that of the line of x.
  ghost predicate Tagged(blocks: map<int, Block>, lines: map<int, seq<int>>, tags: map<int, Addr>,
                         executeNormal: Addr, x: int) {
    forall cl :: (x in blocks && cl == CacheLine(blocks[x].pc))
                 || TagAt(tags, cl, executeNormal) == WantedTag(blocks, Line(lines, cl), executeNormal)
  }

  // Blocks on hold have no part in anything yet, and all others are in use.
  ghost predicate Spare(hold: seq<Option<int>>, blocks: map<int, Block>, active: seq<int>, dormant: seq<int>,
                        deps: Deps, deplist: DepLists) {
    && |hold| == MAX_HOLD_BI
    && (forall i | 0 <= i < MAX_HOLD_BI && hold[i].Some? ::
          var b := hold[i].value;
          && b in blocks && !InUse(active, dormant, b) && b in deplist && deplist[b] == []
          && (b, 0) in deps && (b, 1) in deps && deps[(b, 0)].list.None? && deps[(b, 1)].list.None?)
    && (forall i, j | 0 <= i < j < MAX_HOLD_BI && hold[i].Some? && hold[j].Some? :: hold[i] != hold[j])
    && (forall b | b in blocks :: InUse(active, dormant, b) || Some(b) in hold)
  }

  // They are used up from the front.
  ghost predicate OnHold(hold: seq<Option<int>>, blocks: map<int, Block>, active: seq<int>, dormant: seq<int>,
                         deps: Deps, deplist: DepLists) {
    && Spare(hold, blocks, active, dormant, deps, deplist)
    && (forall i, j | 0 <= i < j < MAX_HOLD_BI && hold[i].Some? :: hold[j].Some?)
  }

  // Everything emitted so far, and every block, lies below the emission pointer.
  ghost predicate Below(blocks: set<int>, code: set<int>, deps: set<DepId>, next: int) {
    && (forall b | b in blocks :: 0 <= b < next)
    && (forall o | o in code :: o < next)
    && (forall d | d in deps :: d.0 in blocks)
  }

  lemma GrowsBelow(blocks: set<int>, code: set<int>, deps: set<DepId>, next: int, more: int)
    requires Below(blocks, code, deps, next) && next <= more
    ensures Below(blocks, code, deps, more)
  {
  }

  // A block at the emission pointer is a new one.
  lemma NextBlock(blocks: set<int>, code: set<int>, deps: set<DepId>, next: int, more: int)
    requires Below(blocks, code, deps, next) && 0 <= next < more
    ensures next !in blocks && (next, 0) !in deps && (next, 1) !in deps
    ensures Below(blocks + {next}, code, deps + {(next, 0), (next, 1)}, more)
  {
  }

  // ---- what is emitted ----

  // What begins at an address: the test whether the PC is that of the block, with the place where it goes on
  // if it is; the code of a block, for the address it was compiled for; and the two stubs of a block.
  datatype Code = PcTest(pc: int, equal: Addr) | Body(block: int, pc: int) | Pen(block: int) | Pcc(block: int)

  ghost predicate Holds(placed: map<int, Code>, at: Addr, c: Code) { at in placed && placed[at] == c }

  ghost predicate Confined(placed: map<int, Code>, start: int, end: int, next: int) {
    forall a | a in placed :: start <= a < end && a < next
  }

  lemma GrowsConfined(placed: map<int, Code>, start: int, end: int, next: int, at: int, c: Code, more: int)
    requires Confined(placed, start, end, next) && start <= at < end && at < more && next <= more
    ensures Confined(placed[at := c], start, end, more)
  {
  }

  lemma NotThere(placed: map<int, Code>, start: int, end: int, next: int, a: int)
    requires Confined(placed, start, end, next) && (a < start || a >= end || a >= next)
    ensures a !in placed
  {
  }

  // A block is entered by the tag of its line at the test, by a chained jump behind it, or else at routines
  // and stubs that do not run it.
  ghost predicate BlockPlaced(b: int, k: Block, placed: map<int, Code>, executeNormal: Addr, checkChecksum: Addr) {
    && Holds(placed, k.directPen, Pen(b)) && Holds(placed, k.directPcc, Pcc(b))
    && (k.handler.Some? ==>
          k.directHandler.Some? && Holds(placed, k.handler.value, PcTest(k.pc, k.directHandler.value)))
    && (k.directHandler.Some? ==> Holds(placed, k.directHandler.value, Body(b, k.pc)))
    && (k.handlerToUse in {executeNormal, checkChecksum} || k.handler == Some(k.handlerToUse))
    && (k.directHandlerToUse in {k.directPen, k.directPcc} || k.directHandler == Some(k.directHandlerToUse))
  }

  ghost predicate WellPlaced(blocks: map<int, Block>, placed: map<int, Code>, executeNormal: Addr,
                             checkChecksum: Addr) {
    && executeNormal !in placed && checkChecksum !in placed && executeNormal != checkChecksum
    && forall b | b in blocks :: BlockPlaced(b, blocks[b], placed, executeNormal, checkChecksum)
  }

  lemma PlacedAt(blocks: map<int, Block>, placed: map<int, Code>, executeNormal: Addr, checkChecksum: Addr, b: int)
    requires WellPlaced(blocks, placed, executeNormal, checkChecksum) && b in blocks
    ensures BlockPlaced(b, blocks[b], placed, executeNormal, checkChecksum)
  {
  }

  // A block that has lost its code.
  lemma DroppedPlaced(blocks0: map<int, Block>, blocks: map<int, Block>, placed: map<int, Code>,
                      executeNormal: Addr, checkChecksum: Addr, b: int)
    requires WellPlaced(blocks0, placed, executeNormal, checkChecksum) && b in blocks0 && b in blocks
    requires blocks == blocks0[b := blocks0[b].(pc := blocks[b].pc, handler := None, handlerToUse := executeNormal,
      directHandler := None, directHandlerToUse := blocks0[b].directPen)]
    ensures WellPlaced(blocks, placed, executeNormal, checkChecksum)
  {
  }

  // A block that is entered at its code.
  lemma UsedPlaced(blocks0: map<int, Block>, blocks: map<int, Block>, placed: map<int, Code>,
                   executeNormal: Addr, checkChecksum: Addr, b: int)
    requires WellPlaced(blocks0, placed, executeNormal, checkChecksum) && b in blocks0 && b in blocks
    requires blocks[b].handler.Some? && blocks[b].directHandler.Some?
    requires var h, dh := blocks[b].handler.value, blocks[b].directHandler.value;
      && Holds(placed, h, PcTest(blocks0[b].pc, dh)) && Holds(placed, dh, Body(b, blocks0[b].pc))
      && blocks == blocks0[b := blocks0[b].(
           handler := Some(h), handlerToUse := h, directHandler := Some(dh), directHandlerToUse := dh)]
    ensures WellPlaced(blocks, placed, executeNormal, checkChecksum)
  {
  }

  // Emitting more disturbs nothing.
  lemma MorePlaced(blocks: map<int, Block>, placed: map<int, Code>, more: map<int, Code>,
                   executeNormal: Addr, checkChecksum: Addr)
    requires WellPlaced(blocks, placed, executeNormal, checkChecksum)
    requires forall a | a in placed :: a in more && more[a] == placed[a]
    requires executeNormal !in more && checkChecksum !in more
    ensures WellPlaced(blocks, more, executeNormal, checkChecksum)
  {
  }

  // A new block with its stubs.
  lemma StubsPlaced(blocks: map<int, Block>, placed: map<int, Code>, executeNormal: Addr, checkChecksum: Addr,
                    b: int, pen: Addr, pcc: Addr)
    requires WellPlaced(blocks, placed, executeNormal, checkChecksum) && pen !in placed && pcc !in placed && pen != pcc
    requires pen != executeNormal && pen != checkChecksum && pcc != executeNormal && pcc != checkChecksum
    ensures WellPlaced(blocks[b := Block(0, None, executeNormal, None, pen, pen, pcc)],
                       placed[pen := Pen(b)][pcc := Pcc(b)], executeNormal, checkChecksum)
  {
    MorePlaced(blocks, placed, placed[pen := Pen(b)][pcc := Pcc(b)], executeNormal, checkChecksum);
  }

  lemma FlushedPlaced(blocks: map<int, Block>, active: seq<int>, placed: map<int, Code>,
                      executeNormal: Addr, checkChecksum: Addr)
    requires WellPlaced(blocks, placed, executeNormal, checkChecksum)
    ensures WellPlaced(FlushedTo(blocks, active, |active|, executeNormal, checkChecksum), placed,
                       executeNormal, checkChecksum)
  {
  }

  // What comes of going to an address while the 68k is to go on at `pc`.
  datatype Outcome =
    | Runs(block: int, pc: int)
    | Missed(pc: int)
    | ExecuteNormal(pc: int)
    | ChecksumTest(pc: int)
    | Lost

  // The stubs take the PC from the block, since they are reached by chained jumps, which do not set it.
  function Enter(blocks: map<int, Block>, placed: map<int, Code>, executeNormal: Addr, checkChecksum: Addr,
                 at: Addr, pc: int): Outcome
  {
    if at == executeNormal then ExecuteNormal(pc)
    else if at == checkChecksum then ChecksumTest(pc)
    else if at !in placed then Lost
    else
      match placed[at]
      case PcTest(own, equal) =>
        if pc != own then Missed(pc)
        else if equal in placed && placed[equal].Body? then Runs(placed[equal].block, placed[equal].pc)
        else Lost
      case Body(b, own) => Runs(b, own)
      case Pen(b) => if b in blocks then ExecuteNormal(blocks[b].pc) else Lost
      case Pcc(b) => if b in blocks then ChecksumTest(blocks[b].pc) else Lost
  }

  // By the tag of its line an address leads to the code of the block at the head if that block is the one for
  // this address, and otherwise to the routine that looks for it, or to the interpreter or the checksum test.
  lemma TagEnters(blocks: map<int, Block>, lines: map<int, seq<int>>, tags: map<int, Addr>, placed: map<int, Code>,
                  active: seq<int>, dormant: seq<int>, executeNormal: Addr, checkChecksum: Addr, pc: int)
    requires Filed(blocks, lines, active, dormant) && Tagged(blocks, lines, tags, executeNormal, -1) && -1 !in blocks
    requires WellPlaced(blocks, placed, executeNormal, checkChecksum)
    ensures var line := Line(lines, CacheLine(pc));
      var o := Enter(blocks, placed, executeNormal, checkChecksum, TagAt(tags, CacheLine(pc), executeNormal), pc);
      if line == [] then o == ExecuteNormal(pc)
      else
        && line[0] in blocks && InUse(active, dormant, line[0])
        && var k := blocks[line[0]];
           o == if k.handlerToUse == executeNormal then ExecuteNormal(pc)
                else if k.handlerToUse == checkChecksum then ChecksumTest(pc)
                else if k.pc == pc then Runs(line[0], pc) else Missed(pc)
  {
    var cl := CacheLine(pc);
    assert TagAt(tags, cl, executeNormal) == WantedTag(blocks, Line(lines, cl), executeNormal);
    if Line(lines, cl) != [] {
      AtLine(blocks, lines, active, dormant, cl, 0);
      PlacedAt(blocks, placed, executeNormal, checkChecksum, Line(lines, cl)[0]);
    }
    hide WellPlaced, Filed, Tagged, InUse, CacheLine;
  }

  // A chained jump leads to the code of its target behind the test, or to a stub that takes the address from
  // the target; whatever address the 68k was at.
  lemma JumpEnters(blocks: map<int, Block>, deps: Deps, code: map<int, int>, placed: map<int, Code>,
                   executeNormal: Addr, checkChecksum: Addr, d: DepId, pc: int)
    requires Chained(blocks, deps, code) && WellPlaced(blocks, placed, executeNormal, checkChecksum)
    requires d in deps && deps[d].list.Some?
    ensures var t, off := deps[d].list.value, deps[d].jmpOff;
      && t in blocks && off.Some? && off.value in code
      && var k := blocks[t];
         Enter(blocks, placed, executeNormal, checkChecksum, Destination(off.value, code[off.value]), pc)
         == if k.directHandlerToUse == k.directPen then ExecuteNormal(k.pc)
            else if k.directHandlerToUse == k.directPcc then ChecksumTest(k.pc) else Runs(t, k.pc)
  {
    PlacedAt(blocks, placed, executeNormal, checkChecksum, deps[d].list.value);
    hide Destination;
  }

  // What the flush era says about the blocks.
  datatype Era = Era(era: nat, checked: map<int, nat>, rom: set<int>)

  // A block in use that can be entered directly lies in ROM, or it is active and was checked in
  // this era; x is exempt.
  ghost predicate Safe(blocks: map<int, Block>, active: seq<int>, dormant: seq<int>, e: Era,
                       executeNormal: Addr, checkChecksum: Addr, x: int) {
    forall b | b in blocks && InUse(active, dormant, b) && b != x && Direct(blocks[b], executeNormal, checkChecksum) ::
      b in e.rom || (b in e.checked && e.checked[b] == e.era && b !in dormant)
  }

  // Only a compiled block asks for its checksum to be compared.
  ghost predicate Entries(blocks: map<int, Block>, active: seq<int>, dormant: seq<int>,
                          executeNormal: Addr, checkChecksum: Addr) {
    && executeNormal != checkChecksum
    && (forall b | b in blocks :: blocks[b].directPen != blocks[b].directPcc)
    && (forall b | b in blocks && InUse(active, dormant, b)
                   && (blocks[b].directHandlerToUse == blocks[b].directPcc
                       || blocks[b].handlerToUse == checkChecksum) ::
          blocks[b].handler.Some?)
    && (forall b | b in blocks && InUse(active, dormant, b) && blocks[b].handler.Some? :: blocks[b].directHandler.Some?)
  }

  lemma FlushedEntries(blocks0: map<int, Block>, blocks: map<int, Block>, active: seq<int>, dormant: seq<int>,
                       executeNormal: Addr, checkChecksum: Addr, b: int)
    requires Entries(blocks0, active, dormant, executeNormal, checkChecksum)
    requires b in blocks0 && b in blocks && blocks == blocks0[b := blocks[b]]
    requires blocks[b] == if blocks0[b].handler.None?
      then blocks0[b].(handlerToUse := executeNormal, directHandlerToUse := blocks0[b].directPen)
      else blocks0[b].(handlerToUse := checkChecksum, directHandlerToUse := blocks0[b].directPcc)
    ensures Entries(blocks, active, dormant, executeNormal, checkChecksum)
  {
    hide InUse;
  }

  lemma HoldKept(hold: seq<Option<int>>, blocks0: map<int, Block>, blocks: map<int, Block>,
                 active: seq<int>, dormant: seq<int>, deps: Deps, deplist: DepLists)
    requires OnHold(hold, blocks0, active, dormant, deps, deplist) && blocks0.Keys == blocks.Keys
    ensures OnHold(hold, blocks, active, dormant, deps, deplist)
  {
  }

  lemma FiledFacts(blocks: map<int, Block>, lines: map<int, seq<int>>, active: seq<int>, dormant: seq<int>)
    requires Filed(blocks, lines, active, dormant)
    ensures Distinct(active) && forall k | 0 <= k < |active| :: active[k] in blocks && active[k] !in dormant
  {
    forall k | 0 <= k < |active|
      ensures active[k] in blocks && active[k] !in dormant
    {
      assert active[k] in active;
      assert InUse(active, dormant, active[k]);
    }
  }

  function FlushedBlock(b: Block, executeNormal: Addr, checkChecksum: Addr): Block {
    if b.handler.None? then b.(handlerToUse := executeNormal, directHandlerToUse := b.directPen)
    else b.(handlerToUse := checkChecksum, directHandlerToUse := b.directPcc)
  }

  // The blocks after the first k of the active list have been flushed.
  function FlushedTo(blocks: map<int, Block>, active: seq<int>, k: nat,
                     executeNormal: Addr, checkChecksum: Addr): map<int, Block>
    requires k <= |active|
  {
    map b | b in blocks :: if b in active[..k] then FlushedBlock(blocks[b], executeNormal, checkChecksum) else blocks[b]
  }

  lemma FlushedNone(blocks: map<int, Block>, active: seq<int>, executeNormal: Addr, checkChecksum: Addr)
    ensures FlushedTo(blocks, active, 0, executeNormal, checkChecksum) == blocks
  {
  }

  lemma FlushedStep(blocks: map<int, Block>, active: seq<int>, k: nat, executeNormal: Addr, checkChecksum: Addr)
    requires k < |active| && Distinct(active) && active[k] in blocks
    ensures active[k] in FlushedTo(blocks, active, k, executeNormal, checkChecksum)
    ensures FlushedTo(blocks, active, k, executeNormal, checkChecksum)[active[k]] == blocks[active[k]]
    ensures FlushedTo(blocks, active, k + 1, executeNormal, checkChecksum)
         == FlushedTo(blocks, active, k, executeNormal, checkChecksum)
              [active[k] := FlushedBlock(blocks[active[k]], executeNormal, checkChecksum)]
  {
    assert active[..k + 1] == active[..k] + [active[k]];
    assert active[k] !in active[..k];
  }

  lemma DistinctConcat(a: seq<int>, b: seq<int>)
    requires Distinct(a) && Distinct(b) && forall x | x in a :: x !in b
    ensures Distinct(a + b)
  {
    forall j, k | 0 <= j < k < |a + b|
      ensures (a + b)[j] != (a + b)[k]
    {
      if j < |a| <= k { assert a[j] in a && b[k - |a|] in b; }
    }
  }

  lemma FlushDone(blocks0: map<int, Block>, blocks: map<int, Block>, lines: map<int, seq<int>>,
                  active: seq<int>, dormant: seq<int>, e: Era, executeNormal: Addr, checkChecksum: Addr)
    requires Filed(blocks, lines, active, dormant) && Entries(blocks, active, dormant, executeNormal, checkChecksum)
    requires Safe(blocks0, active, dormant, e, executeNormal, checkChecksum, -1) && -1 !in blocks0
    requires blocks == FlushedTo(blocks0, active, |active|, executeNormal, checkChecksum)
    ensures forall b | b in active ::
      b in blocks && b in blocks0 && blocks[b] == FlushedBlock(blocks0[b], executeNormal, checkChecksum)
    ensures forall b | b in blocks0 && b !in active :: b in blocks && blocks[b] == blocks0[b]
    ensures Filed(blocks, lines, [], active + dormant)
    ensures Entries(blocks, [], active + dormant, executeNormal, checkChecksum)
    ensures Safe(blocks, [], active + dormant, e.(era := e.era + 1), executeNormal, checkChecksum, -1)
  {
    assert active[..|active|] == active;
    assert forall b | b in active :: InUse(active, dormant, b);
    assert forall b :: InUse([], active + dormant, b) <==> InUse(active, dormant, b);
    DistinctConcat(active, dormant);
  }

  lemma FlushHold(hold: seq<Option<int>>, blocks: map<int, Block>, active: seq<int>, dormant: seq<int>,
                  deps: Deps, deplist: DepLists)
    requires OnHold(hold, blocks, active, dormant, deps, deplist)
    ensures OnHold(hold, blocks, [], active + dormant, deps, deplist)
  {
  }

  // Moving b to the front of the active list.
  lemma MovedIsFiled(blocks: map<int, Block>, lines: map<int, seq<int>>, active: seq<int>, dormant: seq<int>, b: int)
    requires Filed(blocks, lines, active, dormant) && InUse(active, dormant, b)
    ensures Filed(blocks, lines, [b] + Without(active, b), Without(dormant, b))
    ensures Filed(blocks, lines, Without(active, b), [b] + Without(dormant, b))
    ensures forall x :: InUse([b] + Without(active, b), Without(dormant, b), x) <==> InUse(active, dormant, x)
    ensures forall x :: InUse(Without(active, b), [b] + Without(dormant, b), x) <==> InUse(active, dormant, x)
  {
    WithoutDistinct(active, b);
    WithoutDistinct(dormant, b);
    forall x
      ensures InUse([b] + Without(active, b), Without(dormant, b), x) <==> InUse(active, dormant, x)
      ensures InUse(Without(active, b), [b] + Without(dormant, b), x) <==> InUse(active, dormant, x)
    {
    }
  }

  // Changing what leads into b, and the tag with it where b heads its line.
  lemma RedirectedTagged(blocks0: map<int, Block>, blocks: map<int, Block>, lines: map<int, seq<int>>,
                         tags0: map<int, Addr>, tags: map<int, Addr>, active: seq<int>, dormant: seq<int>,
                         executeNormal: Addr, b: int)
    requires Filed(blocks0, lines, active, dormant) && Tagged(blocks0, lines, tags0, executeNormal, -1)
    requires -1 !in blocks0 && b in blocks0 && b in blocks && blocks == blocks0[b := blocks[b]]
    requires blocks[b].pc == blocks0[b].pc
    requires var cl := CacheLine(blocks[b].pc);
      tags == if Line(lines, cl) != [] && Line(lines, cl)[0] == b then tags0[cl := blocks[b].handlerToUse] else tags0
    ensures Filed(blocks, lines, active, dormant) && Tagged(blocks, lines, tags, executeNormal, -1)
  {
    forall cl
      ensures TagAt(tags, cl, executeNormal) == WantedTag(blocks, Line(lines, cl), executeNormal)
    {
      assert TagAt(tags0, cl, executeNormal) == WantedTag(blocks0, Line(lines, cl), executeNormal);
      if Line(lines, cl) != [] && Line(lines, cl)[0] == b { AtLine(blocks0, lines, active, dormant, cl, 0); }
    }
  }

  lemma RaisedTagged(blocks: map<int, Block>, lines: map<int, seq<int>>, tags0: map<int, Addr>, tags: map<int, Addr>,
                     executeNormal: Addr, b: int)
    requires b in blocks && Tagged(blocks, lines, tags0, executeNormal, b)
    requires var cl := CacheLine(blocks[b].pc);
      TagAt(tags, cl, executeNormal) == blocks[b].handlerToUse
      && forall k | k != cl :: TagAt(tags, k, executeNormal) == TagAt(tags0, k, executeNormal)
    ensures Tagged(blocks, Raised(blocks, lines, b), tags, executeNormal, -1)
  {
    var lines' := Raised(blocks, lines, b);
    forall cl
      ensures TagAt(tags, cl, executeNormal) == WantedTag(blocks, Line(lines', cl), executeNormal)
    {
      if cl != CacheLine(blocks[b].pc) {
        assert TagAt(tags0, cl, executeNormal) == WantedTag(blocks, Line(lines, cl), executeNormal);
      }
    }
  }

  lemma TakenTagged(blocks0: map<int, Block>, blocks: map<int, Block>, lines: map<int, seq<int>>,
                    tags0: map<int, Addr>, tags: map<int, Addr>, active: seq<int>, dormant: seq<int>,
                    executeNormal: Addr, b: int, x: int)
    requires Filed(blocks0, lines, active, dormant) && !InUse(active, dormant, b) && b != x
    requires b in blocks0 && b in blocks && blocks == blocks0[b := blocks[b]]
    requires Tagged(blocks0, lines, tags0, executeNormal, x)
    requires var cl := CacheLine(blocks[b].pc);
      TagAt(tags, cl, executeNormal) == blocks[b].handlerToUse
      && forall k | k != cl :: TagAt(tags, k, executeNormal) == TagAt(tags0, k, executeNormal)
    ensures var cl := CacheLine(blocks[b].pc);
      Tagged(blocks, lines[cl := [b] + Line(lines, cl)], tags, executeNormal, x)
  {
    var cl := CacheLine(blocks[b].pc);
    var lines' := lines[cl := [b] + Line(lines, cl)];
    forall k | k != cl && !(x in blocks && k == CacheLine(blocks[x].pc))
      ensures TagAt(tags, k, executeNormal) == WantedTag(blocks, Line(lines', k), executeNormal)
    {
      assert TagAt(tags0, k, executeNormal) == WantedTag(blocks0, Line(lines, k), executeNormal);
      NotAtLine(blocks0, lines, active, dormant, k, b);
    }
  }

  lemma TakenEntries(blocks0: map<int, Block>, blocks: map<int, Block>, active: seq<int>, dormant: seq<int>,
                     executeNormal: Addr, checkChecksum: Addr, b: int)
    requires Entries(blocks0, active, dormant, executeNormal, checkChecksum) && b in blocks0 && b in blocks
    requires blocks == blocks0[b := blocks[b]] && blocks[b].directPcc == blocks0[b].directPcc
    requires blocks[b].handler.None? && blocks[b].handlerToUse == executeNormal
    requires blocks[b].directHandlerToUse == blocks[b].directPen == blocks0[b].directPen
    ensures Entries(blocks, [b] + active, dormant, executeNormal, checkChecksum)
    ensures !Direct(blocks[b], executeNormal, checkChecksum)
  {
    forall y | y in blocks && y != b
      ensures InUse([b] + active, dormant, y) <==> InUse(active, dormant, y)
    {
    }
  }

  lemma TakenSafe(blocks0: map<int, Block>, blocks: map<int, Block>, active: seq<int>, dormant: seq<int>, e: Era,
                  executeNormal: Addr, checkChecksum: Addr, b: int, x: int)
    requires b in blocks0 && b in blocks && blocks == blocks0[b := blocks[b]]
    requires Safe(blocks0, active, dormant, e, executeNormal, checkChecksum, x)
    requires !Direct(blocks[b], executeNormal, checkChecksum)
    ensures Safe(blocks, [b] + active, dormant, e, executeNormal, checkChecksum, x)
  {
    forall y | y in blocks && InUse([b] + active, dormant, y) && y != x
               && Direct(blocks[y], executeNormal, checkChecksum)
      ensures y in e.rom || (y in e.checked && e.checked[y] == e.era && y !in dormant)
    {
      assert y != b && InUse(active, dormant, y);
    }
  }

  // A block taken from those on hold fits in everywhere.
  lemma Taken(blocks0: map<int, Block>, blocks: map<int, Block>, lines: map<int, seq<int>>,
              tags0: map<int, Addr>, tags: map<int, Addr>, active: seq<int>, dormant: seq<int>, e: Era,
              executeNormal: Addr, checkChecksum: Addr, b: int, x: int)
    requires x == -1 || InUse(active, dormant, x)
    requires Filed(blocks0, lines, active, dormant) && Tagged(blocks0, lines, tags0, executeNormal, x)
    requires Safe(blocks0, active, dormant, e, executeNormal, checkChecksum, x)
    requires Entries(blocks0, active, dormant, executeNormal, checkChecksum)
    requires b in blocks0 && b in blocks && blocks == blocks0[b := blocks[b]] && -1 !in blocks
    requires !InUse(active, dormant, b) && forall a | InUse(active, dormant, a) ::
      a in blocks0 && blocks0[a].pc != blocks[b].pc
    requires blocks[b].directPcc == blocks0[b].directPcc
    requires blocks[b].handler.None? && blocks[b].handlerToUse == executeNormal
    requires blocks[b].directHandlerToUse == blocks[b].directPen == blocks0[b].directPen
    requires var cl := CacheLine(blocks[b].pc);
      TagAt(tags, cl, executeNormal) == blocks[b].handlerToUse
      && forall k | k != cl :: TagAt(tags, k, executeNormal) == TagAt(tags0, k, executeNormal)
    ensures var cl := CacheLine(blocks[b].pc);
      var lines' := lines[cl := [b] + Line(lines, cl)];
      && Filed(blocks, lines', [b] + active, dormant) && Tagged(blocks, lines', tags, executeNormal, x)
      && Safe(blocks, [b] + active, dormant, e, executeNormal, checkChecksum, x)
      && Entries(blocks, [b] + active, dormant, executeNormal, checkChecksum)
  {
    hide Filed, Tagged, Safe, Entries, InUse, Direct, WantedTag;
    TakenEntries(blocks0, blocks, active, dormant, executeNormal, checkChecksum, b);
    TakenSafe(blocks0, blocks, active, dormant, e, executeNormal, checkChecksum, b, x);
    AddedIsFiled(blocks0, blocks, lines, active, dormant, b);
    TakenTagged(blocks0, blocks, lines, tags0, tags, active, dormant, executeNormal, b, x);
  }

  lemma SpareFacts(hold: seq<Option<int>>, blocks: map<int, Block>, active: seq<int>, dormant: seq<int>,
                   deps: Deps, deplist: DepLists)
    requires Spare(hold, blocks, active, dormant, deps, deplist)
    ensures |hold| == MAX_HOLD_BI
  {
  }

  lemma HoldAt(hold: seq<Option<int>>, i: int, blocks: map<int, Block>, active: seq<int>, dormant: seq<int>,
               deps: Deps, deplist: DepLists)
    requires OnHold(hold, blocks, active, dormant, deps, deplist) && 0 <= i < |hold| && hold[i].Some?
    ensures |hold| == MAX_HOLD_BI
    ensures var b := hold[i].value;
      && b in blocks && !InUse(active, dormant, b)
      && (b, 0) in deps && (b, 1) in deps && deps[(b, 0)].list.None? && deps[(b, 1)].list.None?
  {
  }

  lemma HoldOnce(hold: seq<Option<int>>, blocks: map<int, Block>, active: seq<int>, dormant: seq<int>,
                 deps: Deps, deplist: DepLists)
    requires OnHold(hold, blocks, active, dormant, deps, deplist)
    ensures |hold| == MAX_HOLD_BI
    ensures forall i | 0 <= i < MAX_HOLD_BI && hold[i].Some? ::
      !InUse(active, dormant, hold[i].value)
      && (hold[i].value, 0) in deps && (hold[i].value, 1) in deps
      && deps[(hold[i].value, 0)].list.None? && deps[(hold[i].value, 1)].list.None?
  {
  }

  lemma TakenHold(hold: seq<Option<int>>, i: int, blocks0: map<int, Block>, blocks: map<int, Block>,
                  active: seq<int>, dormant: seq<int>, deps0: Deps, deps: Deps, deplist0: DepLists, deplist: DepLists)
    requires OnHold(hold, blocks0, active, dormant, deps0, deplist0) && 0 <= i < MAX_HOLD_BI && hold[i].Some?
    requires forall j | 0 <= j < i :: hold[j].None?
    requires blocks.Keys == blocks0.Keys && deplist.Keys == deplist0.Keys
    requires var b := hold[i].value; deps == deps0[(b, 0) := UNLINKED][(b, 1) := UNLINKED]
    requires forall t | t in deplist :: |deplist[t]| <= |deplist0[t]|
    ensures OnHold(hold[i := None], blocks, [hold[i].value] + active, dormant, deps, deplist)
  {
    var hold' := hold[i := None];
    forall j | 0 <= j < MAX_HOLD_BI && hold'[j].Some?
      ensures var b := hold'[j].value;
        && b in blocks && !InUse([hold[i].value] + active, dormant, b) && b in deplist && deplist[b] == []
        && (b, 0) in deps && (b, 1) in deps && deps[(b, 0)].list.None? && deps[(b, 1)].list.None?
    {
      var b := hold[j].value;
      assert i < j && hold[i] != hold[j];
      assert deplist0[b] == [];
    }
    forall b | b in blocks
      ensures InUse([hold[i].value] + active, dormant, b) || Some(b) in hold'
    {
      if b != hold[i].value && !InUse(active, dormant, b) {
        var k :| 0 <= k < |hold| && hold[k] == Some(b);
        assert hold'[k] == Some(b);
      }
    }
  }

  // Nothing is chained to a block on hold.
  lemma TargetInUse(hold: seq<Option<int>>, blocks: map<int, Block>, active: seq<int>, dormant: seq<int>,
                    deps: Deps, deplist: DepLists, d: DepId)
    requires Linked(deps, deplist) && deplist.Keys == blocks.Keys && d in deps && deps[d].list.Some?
    requires OnHold(hold, blocks, active, dormant, deps, deplist)
    ensures InUse(active, dormant, deps[d].list.value)
  {
    var t := deps[d].list.value;
    assert d in deplist[t];
  }

  // A block that has just been prepared is not in anybody's way.
  lemma Prepared(blocks0: map<int, Block>, blocks: map<int, Block>, lines: map<int, seq<int>>, tags: map<int, Addr>,
                 active: seq<int>, dormant: seq<int>, e: Era, executeNormal: Addr, checkChecksum: Addr, b: int)
    requires b !in blocks0 && b != -1 && b in blocks && blocks == blocks0[b := blocks[b]]
    requires blocks[b].directPen != blocks[b].directPcc
    requires Filed(blocks0, lines, active, dormant) && Tagged(blocks0, lines, tags, executeNormal, -1) && -1 !in blocks0
    requires Safe(blocks0, active, dormant, e, executeNormal, checkChecksum, -1)
    requires Entries(blocks0, active, dormant, executeNormal, checkChecksum)
    ensures Filed(blocks, lines, active, dormant) && Tagged(blocks, lines, tags, executeNormal, -1)
    ensures Safe(blocks, active, dormant, e, executeNormal, checkChecksum, -1)
    ensures Entries(blocks, active, dormant, executeNormal, checkChecksum)
    ensures !InUse(active, dormant, b)
  {
    hide CacheLine, Direct, Safe, Entries;
    assert forall x :: InUse(active, dormant, x) ==> x in blocks0;
    hide InUse;
    PreparedEntries(blocks0, blocks, active, dormant, e, executeNormal, checkChecksum, b);
    forall cl
      ensures TagAt(tags, cl, executeNormal) == WantedTag(blocks, Line(lines, cl), executeNormal)
    {
      assert TagAt(tags, cl, executeNormal) == WantedTag(blocks0, Line(lines, cl), executeNormal);
      if Line(lines, cl) != [] { assert cl in lines && lines[cl][0] in lines[cl]; }
    }
  }

  lemma PreparedEntries(blocks0: map<int, Block>, blocks: map<int, Block>, active: seq<int>, dormant: seq<int>, e: Era,
                        executeNormal: Addr, checkChecksum: Addr, b: int)
    requires b !in blocks0 && !InUse(active, dormant, b) && b in blocks && blocks == blocks0[b := blocks[b]]
    requires blocks[b].directPen != blocks[b].directPcc
    requires Safe(blocks0, active, dormant, e, executeNormal, checkChecksum, -1) && -1 !in blocks0
    requires Entries(blocks0, active, dormant, executeNormal, checkChecksum)
    ensures Safe(blocks, active, dormant, e, executeNormal, checkChecksum, -1)
    ensures Entries(blocks, active, dormant, executeNormal, checkChecksum)
  {
    hide InUse, Direct;
  }

  lemma PreparedSpare(hold: seq<Option<int>>, i: int, blocks0: map<int, Block>, blocks: map<int, Block>,
                      active: seq<int>, dormant: seq<int>, deps0: Deps, deps: Deps, deplist0: DepLists,
                      deplist: DepLists, b: int)
    requires Spare(hold, blocks0, active, dormant, deps0, deplist0) && 0 <= i < |hold| && hold[i].None?
    requires b !in blocks0 && !InUse(active, dormant, b) && b in blocks && blocks == blocks0[b := blocks[b]]
    requires deps == deps0[(b, 0) := UNLINKED][(b, 1) := UNLINKED] && deplist == deplist0[b := []]
    ensures Spare(hold[i := Some(b)], blocks, active, dormant, deps, deplist)
  {
    hide InUse;
    var hold' := hold[i := Some(b)];
    forall y | y in blocks
      ensures InUse(active, dormant, y) || Some(y) in hold'
    {
      if y == b {
        assert hold'[i] == Some(y);
      } else if Some(y) in hold {
        var k :| 0 <= k < |hold| && hold[k] == Some(y);
        assert hold'[k] == Some(y);
      }
    }
  }

  // Unlinking, forgetting nothing else.
  lemma UnlinkedHold(hold: seq<Option<int>>, blocks: map<int, Block>, active: seq<int>, dormant: seq<int>,
                     deps0: Deps, deps: Deps, deplist0: DepLists, deplist: DepLists)
    requires OnHold(hold, blocks, active, dormant, deps0, deplist0) && deps.Keys == deps0.Keys
    requires deplist.Keys == deplist0.Keys && forall t | t in deplist :: |deplist[t]| <= |deplist0[t]|
    requires forall d | d in deps :: deps[d].list.Some? ==> deps0[d].list.Some?
    ensures OnHold(hold, blocks, active, dormant, deps, deplist)
  {
    hide InUse;
  }

  // Linking between blocks in use.
  lemma LinkedHold(hold: seq<Option<int>>, blocks: map<int, Block>, active: seq<int>, dormant: seq<int>,
                   deps: Deps, dep: Dep, deplist: DepLists, list: seq<DepId>, b: int, i: int, t: int)
    requires OnHold(hold, blocks, active, dormant, deps, deplist)
    requires InUse(active, dormant, b) && InUse(active, dormant, t)
    ensures OnHold(hold, blocks, active, dormant, deps[(b, i) := dep], deplist[t := list])
  {
    hide InUse;
  }

  ghost predicate Visits(blocks: map<int, Block>, list: seq<int>, cl: int) {
    exists b :: b in list && b in blocks && CacheLine(blocks[b].pc) == cl
  }

  // Line cl after the lines of the first k blocks of the list have been emptied.
  ghost predicate Cleared(blocks: map<int, Block>, lines0: map<int, seq<int>>, lines: map<int, seq<int>>,
                          tags0: map<int, Addr>, tags: map<int, Addr>, list: seq<int>, k: nat,
                          executeNormal: Addr, cl: int)
    requires k <= |list|
  {
    if Visits(blocks, list[..k], cl) then Line(lines, cl) == [] && TagAt(tags, cl, executeNormal) == executeNormal
    else Line(lines, cl) == Line(lines0, cl) && TagAt(tags, cl, executeNormal) == TagAt(tags0, cl, executeNormal)
  }

  lemma DormantFacts(blocks: map<int, Block>, lines: map<int, seq<int>>, active: seq<int>, dormant: seq<int>)
    requires Filed(blocks, lines, active, dormant)
    ensures forall k | 0 <= k < |active| :: active[k] in blocks
    ensures forall k | 0 <= k < |dormant| :: dormant[k] in blocks
  {
    forall k | 0 <= k < |active|
      ensures active[k] in blocks
    {
      assert active[k] in active;
      assert InUse(active, dormant, active[k]);
    }
    forall k | 0 <= k < |dormant|
      ensures dormant[k] in blocks
    {
      assert dormant[k] in dormant;
      assert InUse(active, dormant, dormant[k]);
    }
  }

  // A line that no block in use belongs to is empty and leads to the interpreter.
  lemma EveryLine(blocks: map<int, Block>, lines: map<int, seq<int>>, active: seq<int>, dormant: seq<int>,
                  tags: map<int, Addr>, executeNormal: Addr)
    requires Filed(blocks, lines, active, dormant) && Tagged(blocks, lines, tags, executeNormal, -1) && -1 !in blocks
    ensures forall cl | !Visits(blocks, active, cl) && !Visits(blocks, dormant, cl) ::
      Line(lines, cl) == [] && TagAt(tags, cl, executeNormal) == executeNormal
  {
    forall cl | !Visits(blocks, active, cl) && !Visits(blocks, dormant, cl)
      ensures Line(lines, cl) == [] && TagAt(tags, cl, executeNormal) == executeNormal
    {
      if Line(lines, cl) != [] { AtLine(blocks, lines, active, dormant, cl, 0); }
      assert TagAt(tags, cl, executeNormal) == WantedTag(blocks, Line(lines, cl), executeNormal);
    }
  }

  lemma ClearedNone(blocks: map<int, Block>, lines: map<int, seq<int>>, tags: map<int, Addr>, list: seq<int>,
                    executeNormal: Addr)
    ensures forall cl :: Cleared(blocks, lines, lines, tags, tags, list, 0, executeNormal, cl)
  {
  }

  lemma ClearedStep(blocks: map<int, Block>, lines0: map<int, seq<int>>, lines: map<int, seq<int>>,
                    lines1: map<int, seq<int>>, tags0: map<int, Addr>, tags: map<int, Addr>, tags1: map<int, Addr>,
                    list: seq<int>, k: nat, n: nat, executeNormal: Addr)
    requires k < |list| && n == k + 1 && list[k] in blocks
    requires forall cl :: Cleared(blocks, lines0, lines, tags0, tags, list, k, executeNormal, cl)
    requires var c := CacheLine(blocks[list[k]].pc); lines1 == lines[c := []] && tags1 == tags[c := executeNormal]
    ensures forall cl :: Cleared(blocks, lines0, lines1, tags0, tags1, list, n, executeNormal, cl)
  {
    var x := list[k];
    var c := CacheLine(blocks[x].pc);
    hide CacheLine;
    assert list[..n] == list[..k] + [list[k]];
    forall cl
      ensures Cleared(blocks, lines0, lines1, tags0, tags1, list, n, executeNormal, cl)
    {
      assert Cleared(blocks, lines0, lines, tags0, tags, list, k, executeNormal, cl);
      assert x in list[..n];
      if cl == c { assert x in blocks && CacheLine(blocks[x].pc) == cl; }
    }
  }

  lemma Apart(blocks: map<int, Block>, active: seq<int>, dormant: seq<int>, executeNormal: Addr, checkChecksum: Addr)
    requires Entries(blocks, active, dormant, executeNormal, checkChecksum)
    ensures executeNormal != checkChecksum
  {
  }

  lemma AllCleared(blocks: map<int, Block>, lines0: map<int, seq<int>>, lines1: map<int, seq<int>>,
                   lines2: map<int, seq<int>>, tags0: map<int, Addr>, tags1: map<int, Addr>, tags2: map<int, Addr>,
                   active: seq<int>, dormant: seq<int>, executeNormal: Addr)
    requires forall cl | !Visits(blocks, active, cl) && !Visits(blocks, dormant, cl) ::
      Line(lines0, cl) == [] && TagAt(tags0, cl, executeNormal) == executeNormal
    requires forall cl :: Cleared(blocks, lines0, lines1, tags0, tags1, active, |active|, executeNormal, cl)
    requires forall cl :: Cleared(blocks, lines1, lines2, tags1, tags2, dormant, |dormant|, executeNormal, cl)
    ensures forall cl :: TagAt(tags2, cl, executeNormal) == executeNormal && Line(lines2, cl) == []
  {
    assert active[..|active|] == active && dormant[..|dormant|] == dormant;
    forall cl
      ensures TagAt(tags2, cl, executeNormal) == executeNormal && Line(lines2, cl) == []
    {
      assert Cleared(blocks, lines0, lines1, tags0, tags1, active, |active|, executeNormal, cl);
      assert Cleared(blocks, lines1, lines2, tags1, tags2, dormant, |dormant|, executeNormal, cl);
    }
  }

  lemma NothingThere(lines: map<int, seq<int>>, tags: map<int, Addr>, e: Era, executeNormal: Addr,
                     checkChecksum: Addr, hold: seq<Option<int>>)
    requires forall cl :: TagAt(tags, cl, executeNormal) == executeNormal && Line(lines, cl) == []
    requires executeNormal != checkChecksum && hold == [None, None, None]
    ensures Linked(map[], map[]) && OwnJumps(map[], map[]) && Chained(map[], map[], map[])
    ensures Filed(map[], lines, [], []) && Tagged(map[], lines, tags, executeNormal, -1)
    ensures Safe(map[], [], [], e, executeNormal, checkChecksum, -1)
    ensures Entries(map[], [], [], executeNormal, checkChecksum)
    ensures OnHold(hold, map[], [], [], map[], map[]) && WellPlaced(map[], map[], executeNormal, checkChecksum)
  {
    forall cl | cl in lines
      ensures lines[cl] == []
    {
      assert Line(lines, cl) == [];
    }
  }

  // What leads into a block in use, and what it may lead to.
  ghost predicate MayBeEntered(b: int, blocks: map<int, Block>, active: seq<int>, dormant: seq<int>, e: Era) {
    b in blocks && InUse(active, dormant, b) && (b in e.rom || (b in e.checked && e.checked[b] == e.era && b in active))
  }

  // ---- the lists as pointers ----

  datatype Use = Active | Dormant

  function CacheLines(): set<int> { set cl | 0 <= cl < TAGSIZE && CacheLine(cl) == cl }

  ghost function AllLines(lines: map<int, seq<int>>): map<int, seq<int>> {
    map cl | cl in CacheLines() :: Line(lines, cl)
  }

  ghost function Uses(active: seq<int>, dormant: seq<int>): map<Use, seq<int>> {
    map[Active := active, Dormant := dormant]
  }

  // The pointers lead through these lists; nodes in `loose` are being moved.
  ghost predicate Threads<H(!new), N(!new)>(l: JitLists.Lists<H, N>, lists: map<H, seq<N>>, loose: set<N>)
    reads l
  {
    l.Valid() && l.lists == lists && l.loose == loose
  }

  lemma LooseOf<H(!new), N(!new)>(l: JitLists.Lists<H, N>, lists: map<H, seq<N>>, loose: set<N>)
    requires Threads(l, lists, loose)
    ensures l.loose == loose && Threads(l, lists, l.loose)
  {
  }

  lemma NoThreads(jumps: JitLists.Lists<int, DepId>, chains: JitLists.Lists<int, int>, uses: JitLists.Lists<Use, int>,
                  lines: map<int, seq<int>>)
    requires jumps.Valid() && jumps.loose == {} && jumps.lists == map[]
    requires chains.Valid() && chains.loose == {} && chains.lists == map h | h in CacheLines() :: []
    requires uses.Valid() && uses.loose == {} && uses.lists == map[Active := [], Dormant := []]
    requires forall cl :: Line(lines, cl) == []
    ensures Threads(jumps, map[], {}) && Threads(chains, AllLines(lines), {}) && Threads(uses, Uses([], []), {})
  {
    hide JitLists.Represents;
  }

  lemma AtNoLine(blocks: map<int, Block>, lines: map<int, seq<int>>, active: seq<int>, dormant: seq<int>, b: int)
    requires Filed(blocks, lines, active, dormant) && !InUse(active, dormant, b)
    ensures forall cl :: b !in Line(lines, cl)
  {
  }

  lemma MovedUses(active: seq<int>, dormant: seq<int>, use: Use, b: int)
    requires InUse(active, dormant, b)
    ensures JitLists.Listed(Uses(active, dormant), b)
    ensures JitLists.Removed(Uses(active, dormant), b)[use := [b] + Without(Uses(active, dormant)[use], b)]
         == if use == Active then Uses([b] + Without(active, b), Without(dormant, b))
            else Uses(Without(active, b), [b] + Without(dormant, b))
  {
    assert b in Uses(active, dormant)[if b in active then Active else Dormant];
  }

  predicate OnlyIn(lines: map<int, seq<int>>, b: int, cl: int) {
    forall k | k in lines && k != cl :: b !in lines[k]
  }

  lemma OneLine(blocks: map<int, Block>, lines: map<int, seq<int>>, active: seq<int>, dormant: seq<int>, b: int)
    requires b in blocks && Filed(blocks, lines, active, dormant) && InUse(active, dormant, b)
    ensures OnlyIn(lines, b, CacheLine(blocks[b].pc)) && b in Line(lines, CacheLine(blocks[b].pc))
  {
  }

  lemma RemovedLines(lines: map<int, seq<int>>, b: int, cl: int)
    requires OnlyIn(lines, b, cl) && b in Line(lines, cl) && cl in CacheLines()
    ensures JitLists.Listed(AllLines(lines), b)
    ensures JitLists.Removed(AllLines(lines), b) == AllLines(lines[cl := Without(Line(lines, cl), b)])
  {
    assert b in AllLines(lines)[cl];
    forall k | k in CacheLines() && k != cl
      ensures Without(Line(lines, k), b) == Line(lines, k)
    {
      WithoutAbsent(Line(lines, k), b);
    }
  }

  // A dependency is in the deplist it says, and in no other.
  lemma RemovedFrom(deps: Deps, deplist: DepLists, d: DepId)
    requires Linked(deps, deplist) && d in deps && deps[d].list.Some?
    ensures var t := deps[d].list.value;
      t in deplist && JitLists.Listed(deplist, d)
      && JitLists.Removed(deplist, d) == deplist[t := Without(deplist[t], d)]
  {
    forall t | t in deplist && deps[d].list != Some(t)
      ensures Without(deplist[t], d) == deplist[t]
    {
      WithoutAbsent(deplist[t], d);
    }
  }

  lemma NotInDeplist(deps: Deps, deplist: DepLists, d: DepId)
    requires Linked(deps, deplist) && d in deps && deps[d].list.None?
    ensures !JitLists.Listed(deplist, d)
  {
    forall t | t in deplist
      ensures d !in deplist[t]
    {
      forall k | 0 <= k < |deplist[t]|
        ensures deplist[t][k] != d
      {
        assert deps[deplist[t][k]].list == Some(t);
      }
    }
  }

  class BlockManager {
    const executeNormal: Addr
    const checkChecksum: Addr
    const infoSize: nat
    const stubSize: nat
    const cacheStart: nat
    const maxCompileStart: int
    const cacheEnd: nat
    const jumps: JitLists.Lists<int, DepId>
    const chains: JitLists.Lists<int, int>
    const uses: JitLists.Lists<Use, int>
    var next: int
    var blocks: map<int, Block>
    var deps: Deps
    var deplist: DepLists
    var code: map<int, int>
    var placed: map<int, Code>
    var lines: map<int, seq<int>>
    var tags: map<int, Addr>
    var active: seq<int>
    var dormant: seq<int>
    var hold: seq<Option<int>>
    ghost var era: Era

    ghost predicate Shape()
      reads this
    {
      && deplist.Keys == blocks.Keys
      && (forall b | b in blocks :: (b, 0) in deps && (b, 1) in deps)
    }

    ghost predicate Links()
      reads this, jumps
    {
      Shape() && Linked(deps, deplist) && OwnJumps(deps, code) && Chained(blocks, deps, code)
      && Threads(jumps, deplist, {})
    }

    // The pointers lead through the cache lines, and through the active and the dormant blocks.
    ghost predicate LinesThreaded()
      reads this`lines, chains
    {
      Threads(chains, AllLines(lines), {})
    }

    ghost predicate UsesThreaded()
      reads this`active, this`dormant, uses
    {
      Threads(uses, Uses(active, dormant), {})
    }

    function Tag(cl: int): Addr
      reads this
    {
      TagAt(tags, cl, executeNormal)
    }

    ghost predicate TagsBut(x: int)
      reads this
    {
      Tagged(blocks, lines, tags, executeNormal, x)
    }

    ghost predicate TagOk(cl: int)
      reads this
    {
      Tag(cl) == WantedTag(blocks, Line(lines, cl), executeNormal)
    }

    ghost predicate SafeBut(x: int)
      reads this
    {
      Safe(blocks, active, dormant, era, executeNormal, checkChecksum, x)
    }

    ghost predicate HoldOk()
      reads this
    {
      OnHold(hold, blocks, active, dormant, deps, deplist)
    }

    ghost predicate Room()
      reads this
    {
      && cacheStart <= next && Below(blocks.Keys, code.Keys, deps.Keys, next) && infoSize > 0 && stubSize > 0
      && InCache() && cacheEnd <= WORD && OutsideCache(executeNormal) && OutsideCache(checkChecksum)
    }

    // The routines that all blocks share are not in the cache.
    predicate OutsideCache(a: Addr) { a < cacheStart || a >= cacheEnd }

    ghost predicate InCache()
      reads this`placed, this`next
    {
      Confined(placed, cacheStart, cacheEnd, next)
    }

    // Everything but the blocks on hold is in order, except perhaps the tag of x's line and whether
    // y may be entered.
    ghost predicate SoundBut(x: int, y: int)
      reads this, jumps, chains, uses
    {
      && Links() && LinesThreaded() && UsesThreaded()
      && Filed(blocks, lines, active, dormant) && TagsBut(x) && SafeBut(y) && -1 !in blocks
      && Entries(blocks, active, dormant, executeNormal, checkChecksum) && Room()
      && WellPlaced(blocks, placed, executeNormal, checkChecksum)
    }

    ghost predicate Sound(x: int)
      reads this, jumps, chains, uses
    {
      SoundBut(x, x)
    }

    ghost predicate ValidBut(x: int)
      reads this, jumps, chains, uses
    {
      Sound(x) && HoldOk()
    }

    ghost predicate Valid()
      reads this, jumps, chains, uses
    {
      ValidBut(-1)
    }

    constructor (executeNormal: Addr, checkChecksum: Addr, infoSize: nat, stubSize: nat, cacheStart: nat, maxStart: int,
                 cacheEnd: nat)
      requires executeNormal != checkChecksum && infoSize > 0 && stubSize > 0 && cacheEnd <= WORD
      requires !(cacheStart <= executeNormal < cacheEnd) && !(cacheStart <= checkChecksum < cacheEnd)
      ensures Valid() && active == [] && dormant == [] && blocks == map[]
      ensures forall cl :: Tag(cl) == executeNormal
      ensures fresh(jumps) && fresh(chains) && fresh(uses)
    {
      hide WellPlaced, Threads, Uses, AllLines, Linked, OwnJumps, Chained, Filed, Tagged, Entries, OnHold, Safe, InUse,
           JitLists.Represents;
      this.executeNormal, this.checkChecksum := executeNormal, checkChecksum;
      this.infoSize, this.stubSize, this.cacheStart, this.maxCompileStart := infoSize, stubSize, cacheStart, maxStart;
      this.cacheEnd := cacheEnd;
      jumps := new JitLists.Lists({});
      chains := new JitLists.Lists(CacheLines());
      uses := new JitLists.Lists({Active, Dormant});
      next := cacheStart;
      blocks, deps, deplist, code, lines, tags := map[], map[], map[], map[], map[], map[];
      placed := map[];
      active, dormant, hold := [], [], [None, None, None];
      era := Era(0, map[], {});
      new;
      NoThreads(jumps, chains, uses, lines);
      NothingThere(lines, tags, era, executeNormal, checkChecksum, hold);
    }

    // Wherever a tag or a chained jump leads: to the interpreter, to a stub that asks for it or for
    // the checksum, or to the code of a block that lies in ROM or has been checked since the last flush.
    lemma EntriesAreSafe()
      requires Valid()
      ensures forall cl ::
        || Tag(cl) == executeNormal || Tag(cl) == checkChecksum
        || (Line(lines, cl) != [] && MayBeEntered(Line(lines, cl)[0], blocks, active, dormant, era))
      ensures forall d | d in deps && deps[d].list.Some? ::
        var t := deps[d].list.value; var off := deps[d].jmpOff;
        && t in blocks && off.Some? && off.value in code
        && (Destination(off.value, code[off.value]) in {blocks[t].directPen, blocks[t].directPcc}
            || MayBeEntered(t, blocks, active, dormant, era))
    {
      hide WellPlaced, InCache, Threads, Uses, AllLines, Destination;
      forall cl
        ensures Tag(cl) == executeNormal || Tag(cl) == checkChecksum
          || (Line(lines, cl) != [] && MayBeEntered(Line(lines, cl)[0], blocks, active, dormant, era))
      {
        assert TagAt(tags, cl, executeNormal) == WantedTag(blocks, Line(lines, cl), executeNormal);
        if Line(lines, cl) != [] { AtLine(blocks, lines, active, dormant, cl, 0); }
      }
      forall d | d in deps && deps[d].list.Some?
        ensures InUse(active, dormant, deps[d].list.value)
      {
        TargetInUse(hold, blocks, active, dormant, deps, deplist, d);
      }
    }

    function Entered(at: Addr, pc: int): Outcome
      reads this
    {
      Enter(blocks, placed, executeNormal, checkChecksum, at, pc)
    }

    // Whatever the state of the cache, no address is taken to the code of another one.
    lemma EntersRight(pc: int)
      requires Valid()
      ensures var o := Entered(Tag(pc % 0x10_0000), pc);
        if o.Runs? then o.pc == pc && InUse(active, dormant, o.block) && o.block in blocks && blocks[o.block].pc == pc
        else o == Missed(pc) || o == ExecuteNormal(pc) || o == ChecksumTest(pc)
      ensures forall b | HeadsLine(blocks, lines, active, dormant, pc, b) ::
        blocks[b].handler == Some(blocks[b].handlerToUse) ==> Entered(Tag(pc % 0x10_0000), pc) == Runs(b, pc)
      ensures forall other, b | HeadsLine(blocks, lines, active, dormant, other, b) ::
        blocks[b].handler == Some(blocks[b].handlerToUse) && other != pc && other % 0x10_0000 == pc % 0x10_0000 ==>
          Entered(Tag(pc % 0x10_0000), pc) == Missed(pc)
    {
      TagEnters(blocks, lines, tags, placed, active, dormant, executeNormal, checkChecksum, pc);
      var line := Line(lines, CacheLine(pc));
      if line != [] { PlacedAt(blocks, placed, executeNormal, checkChecksum, line[0]); }
      hide Linked, OwnJumps, Chained, Filed, Tagged, Safe, Entries, OnHold, Threads, WellPlaced, Enter,
        InUse;
    }

    // Neither is a chained jump: it ends at the code of the block it was made for, or, by a stub of that block,
    // in the interpreter or the checksum test for its address.
    lemma JumpsRight(d: DepId, pc: int)
      requires Valid() && d in deps && deps[d].list.Some?
      ensures var t, off := deps[d].list.value, deps[d].jmpOff;
        && t in blocks && off.Some? && off.value in code
        && var o := Entered(Destination(off.value, code[off.value]), pc);
           o == Runs(t, blocks[t].pc) || o == ExecuteNormal(blocks[t].pc) || o == ChecksumTest(blocks[t].pc)
      ensures var t := deps[d].list.value;
        t in blocks && (blocks[t].directHandler == Some(blocks[t].directHandlerToUse) ==>
          Entered(Destination(deps[d].jmpOff.value, code[deps[d].jmpOff.value]), pc) == Runs(t, blocks[t].pc))
    {
      JumpEnters(blocks, deps, code, placed, executeNormal, checkChecksum, d, pc);
      PlacedAt(blocks, placed, executeNormal, checkChecksum, deps[d].list.value);
      hide Linked, OwnJumps, Filed, Tagged, Safe, Entries, OnHold, Threads, WellPlaced, Enter, Destination;
    }

    // The jump of a dependency runs the block at pc, or goes on at pc in another way.
    ghost predicate LeadsTo(d: DepId, pc: int)
      reads this
    {
      && d in deps && deps[d].list.Some? && deps[d].jmpOff.Some? && deps[d].jmpOff.value in code
      && forall at: int ::
           var o := Entered(Destination(deps[d].jmpOff.value, code[deps[d].jmpOff.value]), at);
           o == Runs(deps[d].list.value, pc) || o == ExecuteNormal(pc) || o == ChecksumTest(pc)
    }

    lemma ExitLeads(b: int, exits: seq<int>, k: nat)
      requires Valid() && |exits| <= 2 && k < |exits| && Exits(b, exits, |exits|)
      ensures LeadsTo((b, k), exits[k])
    {
      hide Linked, OwnJumps, Chained, Filed, Tagged, Safe, Entries, OnHold, Threads, WellPlaced, Enter, Destination;
      JumpsRight((b, k), 0);
      forall at: int
        ensures var o := Entered(Destination(deps[(b, k)].jmpOff.value, code[deps[(b, k)].jmpOff.value]), at);
          o == Runs(deps[(b, k)].list.value, exits[k]) || o == ExecuteNormal(exits[k]) || o == ChecksumTest(exits[k])
      {
        JumpsRight((b, k), at);
      }
    }

    // ---- chained jumps ----

    method SetDhtu(b: int, dh: Addr)
      requires b in blocks && Links()
      modifies this`blocks, this`code
      ensures blocks == old(blocks)[b := old(blocks)[b].(directHandlerToUse := dh)]
      ensures Links() && code.Keys == old(code).Keys
    {
      if dh != blocks[b].directHandlerToUse {
        var k := 0;
        while k < |deplist[b]|
          invariant 0 <= k <= |deplist[b]|
          invariant Redirected(deps, deplist, old(code), code, b, k, dh)
          invariant blocks == old(blocks)
        {
          var x := deplist[b][k];
          RedirectStep(deps, deplist, old(code), code, b, k, dh);
          if deps[x].jmpOff.Some? {
            code := code[deps[x].jmpOff.value := Displacement(deps[x].jmpOff.value, dh)];
          }
          k := k + 1;
        }
        RedirectedChained(blocks, deps, deplist, old(code), code, b, dh);
        blocks := blocks[b := blocks[b].(directHandlerToUse := dh)];
      } else {
        assert blocks == blocks[b := blocks[b].(directHandlerToUse := dh)];
      }
    }

    // The dependency leaves the deplist that it is in.
    method TakeOut(d: DepId)
      requires Linked(deps, deplist) && Threads(jumps, deplist, {}) && d in deps && deps[d].list.Some?
      modifies this`deplist, jumps
      ensures Threads(jumps, deplist, {})
      ensures deps[d].list.value in old(deplist)
      ensures deplist == old(deplist)[deps[d].list.value := Without(old(deplist)[deps[d].list.value], d)]
    {
      hide JitLists.Represents;
      RemovedFrom(deps, deplist, d);
      jumps.RemoveDep(d);
      deplist := deplist[deps[d].list.value := Without(deplist[deps[d].list.value], d)];
    }

    method RemoveDep(d: DepId)
      requires Links() && d in deps
      modifies this`deps, this`deplist, jumps
      ensures Links()
      ensures deps == old(deps)[d := old(deps)[d].(list := None)]
      ensures var was := old(deps)[d].list;
        if was.None? then deplist == old(deplist)
        else was.value in old(deplist) && deplist == old(deplist)[was.value := Without(old(deplist)[was.value], d)]
      ensures forall t | t in deplist :: t in old(deplist) && |deplist[t]| <= |old(deplist)[t]|
    {
      hide WellPlaced, InCache, Threads, Uses, AllLines, Linked, OwnJumps, Chained;
      if deps[d].list.Some? {
        UnlinkKeeps(blocks, deps, deplist, code, d);
        TakeOut(d);
        deps := deps[d := deps[d].(list := None)];
      } else {
        assert deps == deps[d := deps[d].(list := None)];
      }
    }

    method RemoveDeps(b: int)
      requires Links() && b in blocks
      modifies this`deps, this`deplist, jumps
      ensures Links()
      ensures deps == old(deps)[(b, 0) := old(deps)[(b, 0)].(list := None)][(b, 1) := old(deps)[(b, 1)].(list := None)]
      ensures forall t | t in deplist :: t in old(deplist) && |deplist[t]| <= |old(deplist)[t]|
    {
      RemoveDep((b, 0));
      RemoveDep((b, 1));
    }

    // Forgets where an unlinked dependency of b used to be.
    method ForgetDep(d: DepId)
      requires Links() && d in deps && deps[d].list.None?
      modifies this`deps
      ensures Links() && deps == old(deps)[d := UNLINKED]
    {
      deps := deps[d := deps[d].(jmpOff := None, target := None)];
    }

    // The dependency comes first in the deplist of t.
    method PutIn(d: DepId, t: int)
      requires Linked(deps, deplist) && Threads(jumps, deplist, {}) && d in deps && deps[d].list.None? && t in deplist
      modifies this`deplist, jumps
      ensures Threads(jumps, deplist, {}) && deplist == old(deplist)[t := [d] + old(deplist)[t]]
    {
      hide JitLists.Represents;
      NotInDeplist(deps, deplist, d);
      jumps.AddFirst(t, d);
      deplist := deplist[t := [d] + deplist[t]];
    }

    method CreateJmpdep(b: int, i: int, off: int, t: int)
      requires Links() && b in blocks && t in blocks && 0 <= i < 2 && off in code && (b, i) in deps
      requires deps[(b, i)].list.None?
      requires forall e | e in deps && deps[e].list.Some? :: deps[e].jmpOff != Some(off)
      requires Destination(off, code[off]) == blocks[t].directHandlerToUse
      modifies this`deps, this`deplist, jumps
      ensures Links()
      ensures deps == old(deps)[(b, i) := Dep(Some(off), Some(t), Some(t))]
      ensures t in old(deplist) && deplist == old(deplist)[t := [(b, i)] + old(deplist)[t]]
    {
      hide WellPlaced, InCache, Threads, Uses, AllLines;
      LinkKeeps(blocks, deps, deplist, code, (b, i), t, off);
      PutIn((b, i), t);
      deps := deps[(b, i) := Dep(Some(off), Some(t), Some(t))];
    }

    // Assigns handler, handler_to_use and direct_handler.
    method SetHandlers(b: int, handler: Option<Addr>, handlerToUse: Addr, directHandler: Option<Addr>)
      requires b in blocks && Links()
      modifies this`blocks
      ensures Links()
      ensures blocks == old(blocks)[b := old(blocks)[b].(
        handler := handler, handlerToUse := handlerToUse, directHandler := directHandler)]
    {
      blocks := blocks[b := blocks[b].(
        handler := handler, handlerToUse := handlerToUse, directHandler := directHandler)];
    }

    method InvalidateBlock(b: int)
      requires Links() && b in blocks
      modifies this`blocks, this`code, this`deps, this`deplist, jumps
      ensures Links() && code.Keys == old(code).Keys
      ensures blocks == old(blocks)[b := old(blocks)[b].(
        handler := None, handlerToUse := executeNormal, directHandler := None,
        directHandlerToUse := old(blocks)[b].directPen)]
      ensures deps == old(deps)[(b, 0) := UNLINKED][(b, 1) := UNLINKED]
      ensures forall t | t in deplist :: t in old(deplist) && |deplist[t]| <= |old(deplist)[t]|
    {
      hide WellPlaced, InCache, Threads, Uses, AllLines, Linked, OwnJumps, Chained;
      SetHandlers(b, None, executeNormal, None);
      SetDhtu(b, blocks[b].directPen);
      RemoveDeps(b);
      ForgetDep((b, 0));
      ForgetDep((b, 1));
    }

    // ---- cache lines ----

    method RemoveFromClList(b: int)
      requires b in blocks && LinesThreaded() && b in Line(lines, CacheLine(blocks[b].pc))
      requires OnlyIn(lines, b, CacheLine(blocks[b].pc))
      modifies this`lines, this`tags, chains
      ensures var cl := CacheLine(blocks[b].pc);
        && lines == old(lines)[cl := Without(Line(old(lines), cl), b)]
        && (forall k | k != cl :: TagAt(tags, k, executeNormal) == TagAt(old(tags), k, executeNormal))
        && TagOk(cl)
      ensures Threads(chains, AllLines(lines), {b})
    {
      hide JitLists.Represents;
      var cl := CacheLine(blocks[b].pc);
      RemovedLines(lines, b, cl);
      chains.Remove(b);
      lines := lines[cl := Without(Line(lines, cl), b)];
      if lines[cl] != [] && lines[cl][0] in blocks {
        tags := tags[cl := blocks[lines[cl][0]].handlerToUse];
      } else {
        tags := tags[cl := executeNormal];
      }
    }

    method AddToClList(b: int)
      requires b in blocks && Threads(chains, AllLines(lines), chains.loose) && chains.loose <= {b}
      requires forall cl :: b !in Line(lines, cl)
      modifies this`lines, this`tags, chains
      ensures var cl := CacheLine(blocks[b].pc);
        && lines == old(lines)[cl := [b] + Line(old(lines), cl)]
        && (forall k | k != cl :: TagAt(tags, k, executeNormal) == TagAt(old(tags), k, executeNormal))
        && TagAt(tags, cl, executeNormal) == blocks[b].handlerToUse
      ensures LinesThreaded()
    {
      hide JitLists.Represents;
      var cl := CacheLine(blocks[b].pc);
      chains.AddFirst(cl, b);
      lines := lines[cl := [b] + Line(lines, cl)];
      tags := tags[cl := blocks[b].handlerToUse];
    }

    method RaiseInClList(b: int)
      requires b in blocks && InUse(active, dormant, b) && Filed(blocks, lines, active, dormant) && TagsBut(b)
      requires LinesThreaded()
      modifies this`lines, this`tags, chains
      ensures Filed(blocks, lines, active, dormant) && TagsBut(-1) && LinesThreaded()
      ensures var line := Line(lines, CacheLine(blocks[b].pc)); line != [] && line[0] == b
    {
      hide WellPlaced, InCache, Threads, Uses, AllLines, Filed, Tagged;
      ghost var lines0 := lines;
      OneLine(blocks, lines, active, dormant, b);
      RemoveFromClList(b);
      LooseOf(chains, AllLines(lines), {b});
      AddToClList(b);
      RaisedIsFiled(blocks, lines0, active, dormant, b);
      RaisedTagged(blocks, lines0, old(tags), tags, executeNormal, b);
      assert lines == Raised(blocks, lines0, b);
    }

    // Nothing but the tag of the line of b is out of order any more.
    method RaiseLast(b: int)
      requires SoundBut(b, -1) && HoldOk() && InUse(active, dormant, b) && b in blocks
      modifies this`lines, this`tags, chains
      ensures Valid()
      ensures var line := Line(lines, CacheLine(blocks[b].pc)); line != [] && line[0] == b
    {
      hide WellPlaced, InCache, Threads, LinesThreaded, UsesThreaded, Linked, OwnJumps, Chained, Entries, OnHold,
        Safe, Filed, Tagged, InUse;
      RaiseInClList(b);
    }

    // The block at addr, if there is one.
    method GetBlockinfoAddr(addr: int) returns (r: Option<int>)
      requires Filed(blocks, lines, active, dormant)
      ensures r.Some? ==> InUse(active, dormant, r.value) && r.value in blocks && blocks[r.value].pc == addr
      ensures r.None? ==> forall b | InUse(active, dormant, b) :: b in blocks && blocks[b].pc != addr
    {
      var line := Line(lines, CacheLine(addr));
      var k := 0;
      while k < |line|
        invariant 0 <= k <= |line|
        invariant forall j | 0 <= j < k :: line[j] in blocks && blocks[line[j]].pc != addr
      {
        AtLine(blocks, lines, active, dormant, CacheLine(addr), k);
        if blocks[line[k]].pc == addr { return Some(line[k]); }
        k := k + 1;
      }
      r := None;
      forall b | InUse(active, dormant, b)
        ensures b in blocks && blocks[b].pc != addr
      {
        assert blocks[b].pc == addr ==> b in line;
      }
    }

    // ---- the active and the dormant blocks ----

    method AddToActive(b: int)
      requires UsesThreaded() && !InUse(active, dormant, b)
      modifies this`active, uses
      ensures UsesThreaded() && active == [b] + old(active)
    {
      hide JitLists.Represents;
      uses.AddFirst(Active, b);
      active := [b] + active;
    }

    // remove_from_list, and then add_to_active or add_to_dormant
    method MoveTo(use: Use, b: int)
      requires UsesThreaded() && InUse(active, dormant, b)
      modifies this`active, this`dormant, uses
      ensures UsesThreaded()
      ensures active == if use == Active then [b] + Without(old(active), b) else Without(old(active), b)
      ensures dormant == if use == Dormant then [b] + Without(old(dormant), b) else Without(old(dormant), b)
    {
      hide JitLists.Represents, JitLists.Removed, JitLists.Listed;
      MovedUses(active, dormant, use, b);
      uses.MoveToFront(use, b);
      active := if use == Active then [b] + Without(active, b) else Without(active, b);
      dormant := if use == Dormant then [b] + Without(dormant, b) else Without(dormant, b);
    }

    // What is active comes before what is dormant, in one list.
    method AllDormant()
      requires UsesThreaded()
      modifies this`active, this`dormant, uses
      ensures UsesThreaded() && active == [] && dormant == old(active) + old(dormant)
    {
      hide JitLists.Represents;
      uses.PutBefore(Active, Dormant);
      dormant := active + dormant;
      active := [];
    }

    // ---- lookups ----

    method NewDeplist(b: int)
      requires Threads(jumps, deplist, {}) && b !in deplist
      modifies this`deplist, jumps
      ensures Threads(jumps, deplist, {}) && deplist == old(deplist)[b := []]
    {
      hide JitLists.Represents;
      jumps.NewList(b);
      deplist := deplist[b := []];
    }

    // prepare_block, for a block at a fresh place
    method PrepareBlock(b: int, pen: Addr, pcc: Addr)
      requires Links() && b !in blocks
      requires (b, 0) !in deps && (b, 1) !in deps
      modifies this`blocks, this`deps, this`deplist, this`placed, jumps
      ensures Links() && placed == old(placed)[pen := Pen(b)][pcc := Pcc(b)]
      ensures blocks == old(blocks)[b := Block(0, None, executeNormal, None, pen, pen, pcc)]
      ensures deplist == old(deplist)[b := []]
      ensures deps == old(deps)[(b, 0) := UNLINKED][(b, 1) := UNLINKED]
    {
      hide WellPlaced, InCache, Threads, Uses, AllLines, Linked, OwnJumps, Chained;
      PrepareKeeps(blocks, deps, deplist, code, b, Block(0, None, executeNormal, None, pen, pen, pcc));
      blocks := blocks[b := Block(0, None, executeNormal, None, pen, pen, pcc)];
      placed := placed[pen := Pen(b)][pcc := Pcc(b)];
      NewDeplist(b);
      deps := deps[(b, 0) := UNLINKED][(b, 1) := UNLINKED];
    }

    // Room for one more block, with its two stubs.
    method NewBlock() returns (b: int)
      requires Sound(-1) && next + infoSize + 2 * stubSize <= cacheEnd
      modifies this`blocks, this`deps, this`deplist, this`next, this`placed, jumps
      ensures Sound(-1) && b == old(next) && next == old(next) + infoSize + 2 * stubSize
      ensures b !in old(blocks) && !InUse(active, dormant, b) && b in blocks && blocks == old(blocks)[b := blocks[b]]
      ensures deps == old(deps)[(b, 0) := UNLINKED][(b, 1) := UNLINKED] && deplist == old(deplist)[b := []]
    {
      hide WellPlaced, Threads, Uses, AllLines, Linked, OwnJumps, Chained, Filed, Tagged, Safe, Entries, Below,
        Confined;
      b := next;
      var pen, pcc := b + infoSize, b + infoSize + stubSize;
      NextBlock(blocks.Keys, code.Keys, deps.Keys, next, pcc + stubSize);
      GrowsConfined(placed, cacheStart, cacheEnd, next, pen, Pen(b), pcc);
      GrowsConfined(placed[pen := Pen(b)], cacheStart, cacheEnd, pcc, pcc, Pcc(b), pcc + stubSize);
      NotThere(placed, cacheStart, cacheEnd, next, pen);
      NotThere(placed, cacheStart, cacheEnd, next, pcc);
      StubsPlaced(blocks, placed, executeNormal, checkChecksum, b, pen, pcc);
      PrepareBlock(b, pen, pcc);
      assert blocks.Keys == old(blocks).Keys + {b};
      assert deps.Keys == old(deps).Keys + {(b, 0), (b, 1)};
      next := next + infoSize + 2 * stubSize;
      Prepared(old(blocks), blocks, lines, tags, active, dormant, era, executeNormal, checkChecksum, b);
    }

    // Fills up the blocks on hold, so that every lookup of a compilation finds one.
    method AllocBlockinfos()
      requires Valid() && next + MAX_HOLD_BI * (infoSize + 2 * stubSize) <= cacheEnd
      modifies this`blocks, this`deps, this`deplist, this`next, this`placed, this`hold, jumps
      ensures Valid() && |hold| == MAX_HOLD_BI && forall i | 0 <= i < MAX_HOLD_BI :: hold[i].Some?
      ensures forall y | y in old(blocks) :: y in blocks && blocks[y] == old(blocks)[y]
      ensures old(next) <= next <= old(next) + MAX_HOLD_BI * (infoSize + 2 * stubSize)
    {
      hide WellPlaced, InCache, Threads, LinesThreaded, UsesThreaded, Linked, OwnJumps, Chained, Filed, Tagged, Safe,
        Entries, Below, Spare;
      var i := 0;
      var size := infoSize + 2 * stubSize;
      SpareFacts(hold, blocks, active, dormant, deps, deplist);
      while i < MAX_HOLD_BI && hold[i].None?
        invariant 0 <= i <= MAX_HOLD_BI && |hold| == MAX_HOLD_BI && next == old(next) + i * size
        invariant Sound(-1) && Spare(hold, blocks, active, dormant, deps, deplist)
        invariant forall j | 0 <= j < i :: hold[j].Some?
        invariant forall j | i <= j < MAX_HOLD_BI :: hold[j] == old(hold)[j]
        invariant forall y | y in old(blocks) :: y in blocks && blocks[y] == old(blocks)[y]
      {
        ghost var blocks0, deps0, deplist0 := blocks, deps, deplist;
        var b := NewBlock();
        PreparedSpare(hold, i, blocks0, blocks, active, dormant, deps0, deps, deplist0, deplist, b);
        hold := hold[i := Some(b)];
        i := i + 1;
      }
    }

    // Puts the block on hold at index i to work for addr.
    method TakeHold(i: int, addr: int, x: int)
      requires x == -1 || (InUse(active, dormant, x) && x in blocks)
      requires ValidBut(x)
      requires 0 <= i < |hold| && hold[i].Some? && forall j | 0 <= j < i :: hold[j].None?
      requires forall b | InUse(active, dormant, b) :: b in blocks && blocks[b].pc != addr
      modifies this`blocks, this`deps, this`deplist, this`code, this`lines, this`tags, this`active, this`hold, jumps,
        chains, uses
      ensures ValidBut(x)
      ensures hold == old(hold)[i := None] && active == [old(hold)[i].value] + old(active)
      ensures code.Keys == old(code).Keys
      ensures var b := old(hold)[i].value;
        && b in old(blocks) && b in blocks && blocks == old(blocks)[b := blocks[b]] && blocks[b].pc == addr
        && (b, 0) in old(deps) && (b, 1) in old(deps) && deps == old(deps)[(b, 0) := UNLINKED][(b, 1) := UNLINKED]
    {
      hide WellPlaced, InCache, Threads, Uses, AllLines, Linked, OwnJumps, Chained, Filed, Tagged, Safe, OnHold,
        Direct, Entries, InUse,
           WantedTag, CacheLine, Line;
      var b := Recycle(i, addr);
      AtNoLine(old(blocks), lines, active, dormant, b);
      AddToActive(b);
      LooseOf(chains, AllLines(lines), {});
      AddToClList(b);
      Taken(old(blocks), blocks, old(lines), old(tags), tags, old(active), dormant, era, executeNormal, checkChecksum,
            b, x);
    }

    method Recycle(i: int, addr: int) returns (b: int)
      requires Links() && HoldOk() && 0 <= i < |hold| && hold[i].Some? && forall j | 0 <= j < i :: hold[j].None?
      requires WellPlaced(blocks, placed, executeNormal, checkChecksum)
      modifies this`blocks, this`deps, this`deplist, this`code, this`hold, jumps
      ensures Links() && code.Keys == old(code).Keys
      ensures b == old(hold)[i].value && hold == old(hold)[i := None] && b in old(blocks) && !InUse(active, dormant, b)
      ensures blocks == old(blocks)[b := old(blocks)[b].(pc := addr, handler := None, handlerToUse := executeNormal,
        directHandler := None, directHandlerToUse := old(blocks)[b].directPen)]
      ensures (b, 0) in old(deps) && (b, 1) in old(deps) && deps == old(deps)[(b, 0) := UNLINKED][(b, 1) := UNLINKED]
      ensures OnHold(hold, blocks, [b] + active, dormant, deps, deplist)
      ensures WellPlaced(blocks, placed, executeNormal, checkChecksum)
    {
      hide WellPlaced, InCache, Threads, Uses, AllLines, Linked, OwnJumps, Chained, OnHold, InUse;
      HoldAt(hold, i, blocks, active, dormant, deps, deplist);
      b := hold[i].value;
      hold := hold[i := None];
      SetPc(b, addr);
      InvalidateBlock(b);
      DroppedPlaced(old(blocks), blocks, placed, executeNormal, checkChecksum, b);
      TakenHold(old(hold), i, old(blocks), blocks, active, dormant, old(deps), deps, old(deplist), deplist);
    }

    method SetPc(b: int, addr: int)
      requires b in blocks && Links()
      modifies this`blocks
      ensures Links() && blocks == old(blocks)[b := old(blocks)[b].(pc := addr)]
    {
      blocks := blocks[b := blocks[b].(pc := addr)];
    }

    // The block at addr, taken from those on hold if there is none yet.
    method GetBlockinfoAddrNew(addr: int, x: int) returns (b: int)
      requires x == -1 || (InUse(active, dormant, x) && x in blocks)
      requires ValidBut(x)
      requires exists i :: 0 <= i < |hold| && hold[i].Some?
      modifies this`blocks, this`deps, this`deplist, this`code, this`lines, this`tags, this`active, this`hold, jumps,
        chains, uses
      ensures ValidBut(x)
      ensures InUse(active, dormant, b) && b in blocks && blocks[b].pc == addr
      ensures code.Keys == old(code).Keys && blocks.Keys == old(blocks).Keys && deps.Keys == old(deps).Keys
      // Blocks in use before stay as they are, and so does every chained jump.
      ensures forall y | InUse(old(active), dormant, y) && y in blocks ::
        blocks[y] == old(blocks)[y] && InUse(active, dormant, y)
      ensures forall d | d in deps :: deps[d].list == old(deps)[d].list
      ensures |old(hold)| == |hold| == MAX_HOLD_BI
      ensures forall i | 0 <= i < MAX_HOLD_BI && old(hold)[i].None? :: hold[i].None?
      ensures forall i, j | 0 <= i < j < MAX_HOLD_BI && old(hold)[i].Some? :: hold[j] == old(hold)[j]
    {
      hide WellPlaced, InCache, Threads, LinesThreaded, UsesThreaded, Linked, OwnJumps, Chained, Filed, Tagged, Safe,
        Entries, Below;
      HoldOnce(hold, blocks, active, dormant, deps, deplist);
      var r := GetBlockinfoAddr(addr);
      if r.Some? { return r.value; }
      var i := 0;
      while i < MAX_HOLD_BI && hold[i].None?
        invariant 0 <= i <= MAX_HOLD_BI
        invariant forall j | 0 <= j < i :: hold[j].None?
      {
        i := i + 1;
      }
      b := hold[i].value;
      hide WellPlaced, InCache, Threads, Uses, AllLines, OnHold;
      TakeHold(i, addr, x);
    }

    // ---- soft flush ----

    // What flush_icache does with one active block.
    method FlushBlock(b: int)
      requires Links() && Filed(blocks, lines, active, dormant) && TagsBut(-1) && HoldOk() && -1 !in blocks
      requires Entries(blocks, active, dormant, executeNormal, checkChecksum)
      requires b in blocks
      modifies this`blocks, this`code, this`tags
      ensures Links() && Filed(blocks, lines, active, dormant) && TagsBut(-1) && HoldOk() && -1 !in blocks
      ensures Entries(blocks, active, dormant, executeNormal, checkChecksum)
      ensures blocks == old(blocks)[b := FlushedBlock(old(blocks)[b], executeNormal, checkChecksum)]
      ensures code.Keys == old(code).Keys
    {
      hide WellPlaced, InCache, Threads, Uses, AllLines, Linked, OwnJumps, Chained, Tagged, Filed, Entries, OnHold,
        InUse;
      var cl := CacheLine(blocks[b].pc);
      var htu := if blocks[b].handler.None? then executeNormal else checkChecksum;
      if Line(lines, cl) != [] && Line(lines, cl)[0] == b {
        tags := tags[cl := htu];
      }
      SetHandlers(b, blocks[b].handler, htu, blocks[b].directHandler);
      SetDhtu(b, if blocks[b].handler.None? then blocks[b].directPen else blocks[b].directPcc);
      RedirectedTagged(old(blocks), blocks, lines, old(tags), tags, active, dormant, executeNormal, b);
      FlushedEntries(old(blocks), blocks, active, dormant, executeNormal, checkChecksum, b);
      HoldKept(hold, old(blocks), blocks, active, dormant, deps, deplist);
    }

    // The loop over the active blocks.
    method FlushActive()
      requires Links() && Filed(blocks, lines, active, dormant) && TagsBut(-1) && HoldOk() && -1 !in blocks
      requires Entries(blocks, active, dormant, executeNormal, checkChecksum) && UsesThreaded()
      modifies this`blocks, this`code, this`tags
      ensures Links() && Filed(blocks, lines, active, dormant) && TagsBut(-1) && HoldOk() && -1 !in blocks
      ensures Entries(blocks, active, dormant, executeNormal, checkChecksum) && UsesThreaded()
      ensures code.Keys == old(code).Keys
      ensures blocks == FlushedTo(old(blocks), active, |active|, executeNormal, checkChecksum)
    {
      hide WellPlaced, InCache, Threads, LinesThreaded, UsesThreaded, Linked, OwnJumps, Chained, Tagged, Filed,
        Entries, OnHold, Safe, InUse, FlushedTo;
      FiledFacts(blocks, lines, active, dormant);
      FlushedNone(blocks, active, executeNormal, checkChecksum);
      var k := 0;
      while k < |active|
        invariant 0 <= k <= |active|
        invariant Links() && Filed(blocks, lines, active, dormant) && TagsBut(-1) && HoldOk() && -1 !in blocks
        invariant Entries(blocks, active, dormant, executeNormal, checkChecksum)
        invariant active == old(active) && dormant == old(dormant) && era == old(era) && UsesThreaded()
        invariant code.Keys == old(code).Keys
        invariant blocks == FlushedTo(old(blocks), active, k, executeNormal, checkChecksum)
      {
        assert active[k] in old(active);
        FlushedStep(old(blocks), active, k, executeNormal, checkChecksum);
        FlushBlock(active[k]);
        k := k + 1;
      }
    }

    // Marks every active block as to be checked, and makes it dormant.
    method FlushIcache()
      requires Valid()
      modifies this`blocks, this`code, this`tags, this`active, this`dormant, this`era, uses
      ensures Valid()
      ensures active == [] && dormant == old(active) + old(dormant)
      // Whatever was active is now entered through its checksum only, or not at all.
      ensures forall b | b in old(active) ::
        && b in blocks && b in old(blocks)
        && var was := old(blocks)[b];
           blocks[b] == if was.handler.Some?
             then was.(handlerToUse := checkChecksum, directHandlerToUse := was.directPcc)
             else was.(handlerToUse := executeNormal, directHandlerToUse := was.directPen)
      ensures forall b | b in old(blocks) && b !in old(active) :: b in blocks && blocks[b] == old(blocks)[b]
      ensures era.era == old(era).era + 1
    {
      hide WellPlaced, InCache, Threads, LinesThreaded, UsesThreaded, Linked, OwnJumps, Chained, Tagged, Filed,
        Entries, OnHold, Safe, InUse, FlushedTo;
      FlushActive();
      era := Era(era.era + 1, era.checked, era.rom);
      AllDormant();
      FlushDone(old(blocks), blocks, lines, old(active), old(dormant), old(era), executeNormal, checkChecksum);
      FlushedPlaced(old(blocks), old(active), placed, executeNormal, checkChecksum);
      FlushHold(hold, blocks, old(active), old(dormant), deps, deplist);
    }

    // Throws everything away: only the lines of known blocks are visited, yet every tag leads to
    // the interpreter afterwards.
    method FlushIcacheHard()
      requires Valid()
      modifies this, jumps, chains, uses
      ensures Valid() && active == [] && dormant == [] && blocks == map[] && next == cacheStart
      ensures forall cl :: Tag(cl) == executeNormal && Line(lines, cl) == []
      ensures forall i | 0 <= i < MAX_HOLD_BI :: hold[i].None?
      ensures era == Era(old(era).era + 1, map[], {})
    {
      hide WellPlaced, InCache, Threads, Uses, AllLines, Linked, OwnJumps, Chained, Filed, Tagged, Entries, OnHold,
        Safe, InUse, TagAt, Line;
      Apart(blocks, active, dormant, executeNormal, checkChecksum);
      ClearTags();
      ResetLists();
    }

    method ForgetLists()
      requires forall cl :: Line(lines, cl) == []
      modifies jumps, chains, uses
      ensures Threads(jumps, map[], {}) && Threads(chains, AllLines(lines), {}) && Threads(uses, Uses([], []), {})
    {
      hide JitLists.Represents;
      jumps.Clear({});
      chains.Clear(CacheLines());
      uses.Clear({Active, Dormant});
      NoThreads(jumps, chains, uses, lines);
    }

    method ForgetBlocks()
      modifies this`hold, this`active, this`dormant, this`blocks, this`deps, this`deplist, this`code, this`next,
        this`era, this`placed
      ensures hold == [None, None, None] && active == [] && dormant == [] && next == cacheStart
      ensures blocks == map[] && deps == map[] && deplist == map[] && code == map[] && placed == map[]
      ensures era == Era(old(era).era + 1, map[], {}) && InCache() && Below(blocks.Keys, code.Keys, deps.Keys, next)
    {
      hold := [None, None, None];
      active, dormant := [], [];
      blocks, deps, deplist, code, placed := map[], map[], map[], map[], map[];
      next := cacheStart;
      era := Era(era.era + 1, map[], {});
    }

    method ResetLists()
      requires forall cl :: TagAt(tags, cl, executeNormal) == executeNormal && Line(lines, cl) == []
      requires executeNormal != checkChecksum && infoSize > 0 && stubSize > 0 && cacheEnd <= WORD
      requires OutsideCache(executeNormal) && OutsideCache(checkChecksum)
      modifies this`hold, this`active, this`dormant, this`blocks, this`deps, this`deplist, this`code, this`next,
        this`era, this`placed
      modifies jumps, chains, uses
      ensures Valid() && active == [] && dormant == [] && blocks == map[] && next == cacheStart
      ensures hold == [None, None, None] && era == Era(old(era).era + 1, map[], {})
    {
      hide WellPlaced, InCache, Below, Threads, Uses, AllLines, Linked, OwnJumps, Chained, Filed, Tagged, Entries,
        OnHold, Safe, InUse, TagAt, Line;
      ForgetLists();
      ForgetBlocks();
      NothingThere(lines, tags, era, executeNormal, checkChecksum, hold);
    }

    method ClearTags()
      requires Filed(blocks, lines, active, dormant) && TagsBut(-1) && -1 !in blocks && LinesThreaded()
      modifies this`lines, this`tags, chains
      ensures forall cl :: TagAt(tags, cl, executeNormal) == executeNormal && Line(lines, cl) == []
    {
      hide WellPlaced, InCache, Threads, Uses, AllLines, Filed, Tagged, InUse, Cleared, Visits, TagAt, Line;
      DormantFacts(blocks, lines, active, dormant);
      EveryLine(blocks, lines, active, dormant, tags, executeNormal);
      LooseOf(chains, AllLines(lines), {});
      ClearLines(active);
      ghost var lines1, tags1 := lines, tags;
      ClearLines(dormant);
      AllCleared(blocks, old(lines), lines1, lines, old(tags), tags1, tags, active, dormant, executeNormal);
    }

    method EmptyLine(cl: int)
      requires 0 <= cl < TAGSIZE && Threads(chains, AllLines(lines), chains.loose)
      modifies this`lines, chains
      ensures Threads(chains, AllLines(lines), chains.loose) && lines == old(lines)[cl := []]
    {
      hide JitLists.Represents;
      chains.Drop(cl);
      lines := lines[cl := []];
    }

    method ClearLines(list: seq<int>)
      requires (forall k | 0 <= k < |list| :: list[k] in blocks) && Threads(chains, AllLines(lines), chains.loose)
      modifies this`lines, this`tags, chains
      ensures Threads(chains, AllLines(lines), chains.loose)
      ensures forall cl :: Cleared(blocks, old(lines), lines, old(tags), tags, list, |list|, executeNormal, cl)
    {
      hide WellPlaced, InCache, Threads, Uses, AllLines, Cleared;
      ClearedNone(blocks, lines, tags, list, executeNormal);
      var k := 0;
      while k < |list|
        invariant 0 <= k <= |list| && Threads(chains, AllLines(lines), chains.loose)
        invariant forall cl :: Cleared(blocks, old(lines), lines, old(tags), tags, list, k, executeNormal, cl)
      {
        var cl := CacheLine(blocks[list[k]].pc);
        ghost var lines1, tags1 := lines, tags;
        tags := tags[cl := executeNormal];
        EmptyLine(cl);
        ClearedStep(blocks, old(lines), lines1, lines, old(tags), tags1, tags, list, k, k + 1, executeNormal);
        k := k + 1;
      }
    }

    // ---- entering a block ----

    // A miss is a block that is there but not at the head of its line; it is raised.
    method CheckForCacheMiss(pc: int) returns (miss: bool)
      requires Valid()
      modifies this`lines, this`tags, chains
      ensures Valid()
      ensures miss <==> exists b :: InUse(active, dormant, b) && b in blocks && blocks[b].pc == pc
                                    && !HeadsLine(blocks, old(lines), active, dormant, pc, b)
      ensures miss ==> exists b :: InUse(active, dormant, b) && b in blocks && blocks[b].pc == pc
                                   && Line(lines, CacheLine(pc)) != [] && Line(lines, CacheLine(pc))[0] == b
      ensures !miss ==> lines == old(lines) && tags == old(tags)
    {
      hide WellPlaced, InCache, Threads, Uses, AllLines, Linked, OwnJumps, Chained, Entries, OnHold, Safe, Filed,
        Tagged, InUse;
      var bi := GetBlockinfoAddr(pc);
      miss := false;
      if bi.Some? {
        OnlyOneAt(blocks, lines, active, dormant, bi.value);
        var line := Line(lines, CacheLine(pc));
        if line == [] || line[0] != bi.value {
          TaggedMore(blocks, lines, tags, executeNormal, bi.value);
          RaiseInClList(bi.value);
          miss := true;
        }
      }
    }

    // cache_miss for a block that exists and is not at the head of its line
    method CacheMiss(b: int)
      requires Valid() && InUse(active, dormant, b) && b in blocks
      modifies this`lines, this`tags, chains
      ensures Valid()
      ensures var line := Line(lines, CacheLine(blocks[b].pc)); line != [] && line[0] == b
    {
      hide WellPlaced, InCache, Threads, Uses, AllLines, Linked, OwnJumps, Chained, Entries, OnHold, Safe, Filed,
        Tagged, InUse;
      TaggedMore(blocks, lines, tags, executeNormal, b);
      RaiseInClList(b);
    }

    // check_checksum at address pc; `matches` says whether the checksum of the block there still
    // does. Answers whether the interpreter has to take over. A block that was hit by accident is
    // only raised; the head of the line is used again or forgotten, and nothing else changes.
    method CheckChecksum(pc: int, matches: bool) returns (interpret: bool)
      requires Valid()
      requires forall b | HeadsLine(blocks, lines, active, dormant, pc, b) ::
        blocks[b].handlerToUse == checkChecksum || blocks[b].directHandlerToUse == blocks[b].directPcc
      modifies this, jumps, chains, uses
      ensures Valid() && era.era == old(era).era && era.rom == old(era).rom
      ensures interpret <==>
        (forall b | InUse(old(active), old(dormant), b) && b in old(blocks) && old(blocks)[b].pc == pc ::
          !matches && HeadsLine(old(blocks), old(lines), old(active), old(dormant), pc, b))
      ensures forall b | HeadsLine(old(blocks), old(lines), old(active), old(dormant), pc, b) ::
        var was := old(blocks)[b];
        if matches then was.handler.Some? && was.directHandler.Some? && blocks == old(blocks)[b := was.(
            handlerToUse := was.handler.value, directHandlerToUse := was.directHandler.value)]
          && active == [b] + Without(old(active), b)
        else blocks == old(blocks)[b := was.(handler := None, handlerToUse := executeNormal, directHandler := None,
                                             directHandlerToUse := was.directPen)]
      ensures (forall b :: !HeadsLine(old(blocks), old(lines), old(active), old(dormant), pc, b)) ==>
        blocks == old(blocks) && active == old(active) && dormant == old(dormant)
    {
      hide WellPlaced, InCache, Threads, Uses, AllLines, Linked, OwnJumps, Chained, Entries, OnHold, Safe, Filed,
        Tagged, InUse;
      var bi := GetBlockinfoAddr(pc);
      if bi.None? { return true; }
      var b := bi.value;
      var line := Line(lines, CacheLine(pc));
      OnlyOneAt(blocks, lines, active, dormant, b);
      if line == [] || line[0] != b {
        CacheMiss(b);
        return false;
      }
      assert HeadsLine(blocks, lines, active, dormant, pc, b);
      MustBeCompiled(blocks, active, dormant, executeNormal, checkChecksum, b);
      if matches {
        Reactivate(b);
        return false;
      } else {
        Discard(b);
        return true;
      }
    }

    // handler_to_use and direct_handler_to_use now lead to the block's own code.
    method UseCode(b: int, h: Addr, dh: Addr)
      requires Valid() && InUse(active, dormant, b) && b in blocks
      requires Holds(placed, h, PcTest(blocks[b].pc, dh)) && Holds(placed, dh, Body(b, blocks[b].pc))
      modifies this`blocks, this`code
      ensures ValidBut(b)
      ensures blocks == old(blocks)[b := old(blocks)[b].(
        handler := Some(h), handlerToUse := h, directHandler := Some(dh), directHandlerToUse := dh)]
      ensures code.Keys == old(code).Keys
    {
      hide WellPlaced, InCache, Threads, Uses, AllLines, Linked, OwnJumps, Chained, Entries, OnHold, Safe, Filed,
        Tagged, InUse;
      SetHandlers(b, Some(h), h, Some(dh));
      SetDhtu(b, dh);
      UsedFiled(old(blocks), blocks, lines, tags, active, dormant, executeNormal, b);
      UsedEntries(old(blocks), blocks, active, dormant, executeNormal, checkChecksum, b);
      UsedSafe(old(blocks), blocks, active, dormant, era, executeNormal, checkChecksum, b);
      UsedPlaced(old(blocks), blocks, placed, executeNormal, checkChecksum, b);
      HoldKept(hold, old(blocks), blocks, active, dormant, deps, deplist);
    }

    // Puts b, just checked, into the list of blocks to be flushed next time.
    method Activate(b: int)
      requires InUse(active, dormant, b) && b in blocks
      requires ValidBut(b)
      modifies this`active, this`dormant, this`lines, this`tags, this`era, chains, uses
      ensures Valid() && active == [b] + Without(old(active), b) && dormant == Without(old(dormant), b)
      ensures era == old(era).(checked := old(era).checked[b := old(era).era])
      ensures var line := Line(lines, CacheLine(blocks[b].pc)); line != [] && line[0] == b
    {
      hide WellPlaced, InCache, Threads, LinesThreaded, UsesThreaded, Linked, OwnJumps, Chained, Entries, OnHold,
        Safe, Filed, Tagged, InUse;
      era := era.(checked := era.checked[b := era.era]);
      CheckedSafe(blocks, active, dormant, old(era), executeNormal, checkChecksum, b);
      MovedIsFiled(blocks, lines, active, dormant, b);
      MovedRest(blocks, active, dormant, era, executeNormal, checkChecksum, hold, deps, deplist, b);
      MoveTo(Active, b);
      RaiseLast(b);
    }

    // The block is still good: use its code again, and flush it next time.
    method Reactivate(b: int)
      requires Valid() && InUse(active, dormant, b) && b in blocks && blocks[b].handler.Some?
        && blocks[b].directHandler.Some?
      modifies this`blocks, this`code, this`active, this`dormant, this`lines, this`tags, this`era, chains, uses
      ensures Valid() && active == [b] + Without(old(active), b)
      ensures era == old(era).(checked := old(era).checked[b := old(era).era])
      ensures b in old(blocks) && blocks == old(blocks)[b := old(blocks)[b].(
        handlerToUse := old(blocks)[b].handler.value, directHandlerToUse := old(blocks)[b].directHandler.value)]
    {
      hide WellPlaced, InCache, Threads, Uses, AllLines, Linked, OwnJumps, Chained, Entries, OnHold, Safe, Filed,
        Tagged, InUse;
      PlacedAt(blocks, placed, executeNormal, checkChecksum, b);
      UseCode(b, blocks[b].handler.value, blocks[b].directHandler.value);
      Activate(b);
    }

    // The block has changed: it will be recompiled.
    method Discard(b: int)
      requires Valid() && InUse(active, dormant, b) && b in blocks
      modifies this`blocks, this`code, this`deps, this`deplist, this`lines, this`tags, jumps, chains
      ensures Valid()
      ensures b in old(blocks) && blocks == old(blocks)[b := old(blocks)[b].(handler := None,
        handlerToUse := executeNormal, directHandler := None, directHandlerToUse := old(blocks)[b].directPen)]
    {
      hide WellPlaced, InCache, Threads, LinesThreaded, UsesThreaded, Linked, OwnJumps, Chained, Entries, OnHold,
        Safe, Filed, Tagged, InUse;
      InvalidateBlock(b);
      UsedFiled(old(blocks), blocks, lines, tags, active, dormant, executeNormal, b);
      DiscardedRest(old(blocks), blocks, active, dormant, era, executeNormal, checkChecksum, b);
      DroppedPlaced(old(blocks), blocks, placed, executeNormal, checkChecksum, b);
      DiscardedHold(hold, old(blocks), blocks, active, dormant, old(deps), deps, old(deplist), deplist, b);
      RaiseLast(b);
    }

    // ---- compiling ----

    // The code of b is about to be thrown away, so it no longer depends on anything else.
    method ForgetExits(b: int)
      requires Valid() && b in blocks
      modifies this`deps, this`deplist, jumps
      ensures Valid() && deps.Keys == old(deps).Keys
      ensures (b, 0) in deps && (b, 1) in deps && deps[(b, 0)].list.None? && deps[(b, 1)].list.None?
    {
      hide WellPlaced, InCache, Threads, Uses, AllLines, Linked, OwnJumps, Chained, Filed, Tagged, Safe, Entries,
        OnHold, Below;
      RemoveDeps(b);
      UnlinkedHold(hold, blocks, active, dormant, old(deps), deps, old(deplist), deplist);
    }

    // Emits a jump after a gap of other code.
    method EmitJump(gap: nat, dest: Addr) returns (off: int)
      requires Links() && Room()
      modifies this`code, this`next
      ensures Links() && Room() && off == old(next) + gap && next == off + 4
      ensures code == old(code)[off := Displacement(off, dest)]
      ensures forall e | e in deps && deps[e].list.Some? :: deps[e].jmpOff != Some(off)
    {
      hide WellPlaced, Threads, Uses, AllLines, Linked, Displacement, Destination;
      off := next + gap;
      code := code[off := Displacement(off, dest)];
      next := off + 4;
    }

    // The i-th exit of b: a jump to t, patched from now on whenever its handler changes.
    method LinkExit(b: int, i: int, t: int, gap: nat)
      requires ValidBut(b) && InUse(active, dormant, b) && b in blocks && 0 <= i < 2 && (b, i) in deps
      requires deps[(b, i)].list.None? && InUse(active, dormant, t) && t in blocks
      modifies this`deps, this`deplist, this`code, this`next, jumps
      ensures ValidBut(b) && exists off :: deps == old(deps)[(b, i) := Dep(Some(off), Some(t), Some(t))]
    {
      hide WellPlaced, InCache, Threads, LinesThreaded, UsesThreaded, Linked, OwnJumps, Chained, Filed, Tagged, Safe,
        Entries, OnHold,
           InUse, Displacement, Destination;
      var dest := blocks[t].directHandlerToUse;
      var off := EmitJump(gap, dest);
      JumpGoesTo(off, dest);
      LinkedHold(hold, blocks, active, dormant, deps, Dep(Some(off), Some(t), Some(t)), deplist,
                 [(b, i)] + deplist[t], b, i, t);
      CreateJmpdep(b, i, off, t);
      assert deps.Keys == old(deps).Keys;
    }

    // The i-th exit of b leads to the block at pc.
    method ChainExit(b: int, i: int, pc: int, gap: nat) returns (t: int)
      requires ValidBut(b) && InUse(active, dormant, b) && b in blocks && 0 <= i < 2 && (b, i) in deps
      requires deps[(b, i)].list.None? && exists k :: 0 <= k < |hold| && hold[k].Some?
      modifies this`blocks, this`deps, this`deplist, this`code, this`next, this`lines, this`tags, this`active,
        this`hold, jumps, chains, uses
      ensures ValidBut(b) && blocks.Keys == old(blocks).Keys && deps.Keys == old(deps).Keys
      ensures InUse(active, dormant, t) && t in blocks && blocks[t].pc == pc
      ensures deps[(b, i)].list == Some(t)
      ensures forall d | d in deps && d != (b, i) :: deps[d].list == old(deps)[d].list
      ensures forall y | InUse(old(active), dormant, y) && y in blocks ::
        blocks[y] == old(blocks)[y] && InUse(active, dormant, y)
      ensures |old(hold)| == |hold| == MAX_HOLD_BI
      ensures forall j, k | 0 <= j < k < MAX_HOLD_BI && old(hold)[j].Some? :: hold[k] == old(hold)[k]
    {
      hide WellPlaced, InCache, Threads, Uses, AllLines, ValidBut, InUse;
      t := GetBlockinfoAddrNew(pc, b);
      LinkExit(b, i, t, gap);
    }

    // Puts b, which lies in ROM, into the list of blocks that are never flushed.
    method NeverFlush(b: int)
      requires InUse(active, dormant, b) && b in blocks && ValidBut(b)
      modifies this`active, this`dormant, this`era, uses
      ensures SoundBut(b, -1) && HoldOk() && InUse(active, dormant, b)
      ensures active == Without(old(active), b) && dormant == [b] + Without(old(dormant), b)
      ensures era == old(era).(rom := old(era).rom + {b})
    {
      hide WellPlaced, InCache, Threads, LinesThreaded, UsesThreaded, Linked, OwnJumps, Chained, Entries, OnHold,
        Safe, Filed, Tagged, InUse, Without, Below;
      era := era.(rom := era.rom + {b});
      MovedIsFiled(blocks, lines, active, dormant, b);
      DormantRest(blocks, active, dormant, old(era), executeNormal, checkChecksum, hold, deps, deplist, b);
      MoveTo(Dormant, b);
    }

    method MakeDormant(b: int)
      requires InUse(active, dormant, b) && b in blocks && ValidBut(b)
      modifies this`active, this`dormant, this`lines, this`tags, this`era, chains, uses
      ensures Valid() && active == Without(old(active), b) && dormant == [b] + Without(old(dormant), b)
      ensures era == old(era).(rom := old(era).rom + {b})
      ensures var line := Line(lines, CacheLine(blocks[b].pc)); line != [] && line[0] == b
    {
      hide ValidBut, Sound, SoundBut, HoldOk, InUse, Without;
      NeverFlush(b);
      RaiseLast(b);
    }

    // Emits n bytes that are of no interest here.
    method Advance(n: nat)
      requires Valid()
      modifies this`next
      ensures Valid() && next == old(next) + n >= n
    {
      hide WellPlaced, Threads, Uses, AllLines, Linked, OwnJumps, Chained, Filed, Tagged, Safe, Entries, OnHold;
      GrowsBelow(blocks.Keys, code.Keys, deps.Keys, next, next + n);
      next := next + n;
    }

    // The test of the PC, `toDirect` bytes of it, and behind it the code of b.
    method EmitEntry(b: int, toDirect: nat, body: nat) returns (handler: Addr)
      requires Valid() && b in blocks && toDirect > 0 && body > 0 && next + toDirect < cacheEnd
      modifies this`placed, this`next
      ensures Valid() && handler == old(next) && next == old(next) + toDirect + body
      ensures handler + toDirect < WORD && Holds(placed, handler, PcTest(blocks[b].pc, handler + toDirect))
      ensures Holds(placed, handler + toDirect, Body(b, blocks[b].pc))
    {
      hide WellPlaced, Threads, Uses, AllLines, Linked, OwnJumps, Chained, Filed, Tagged, Safe, Entries, OnHold,
        Below, Confined;
      handler := next;
      var direct := next + toDirect;
      var test, code := PcTest(blocks[b].pc, direct), Body(b, blocks[b].pc);
      GrowsBelow(blocks.Keys, this.code.Keys, deps.Keys, next, direct + body);
      GrowsConfined(placed, cacheStart, cacheEnd, next, handler, test, direct);
      GrowsConfined(placed[handler := test], cacheStart, cacheEnd, direct, direct, code, direct + body);
      var more := placed[handler := test][direct := code];
      NotThere(placed, cacheStart, cacheEnd, handler, handler);
      NotThere(placed, cacheStart, cacheEnd, handler, direct);
      NotThere(more, cacheStart, cacheEnd, direct + body, executeNormal);
      NotThere(more, cacheStart, cacheEnd, direct + body, checkChecksum);
      MorePlaced(blocks, placed, more, executeNormal, checkChecksum);
      placed := placed[handler := test];
      placed := placed[direct := code];
      next := direct + body;
    }

    // A block for pc, with no exits yet.
    method TakeBlock(pc: int) returns (b: int)
      requires Valid() && next + MAX_HOLD_BI * (infoSize + 2 * stubSize) <= cacheEnd
      modifies this`blocks, this`deps, this`deplist, this`code, this`next, this`lines, this`tags, this`active,
        this`hold, this`placed, jumps, chains, uses
      ensures Valid() && InUse(active, dormant, b) && b in blocks && blocks[b].pc == pc
      ensures next <= old(next) + MAX_HOLD_BI * (infoSize + 2 * stubSize)
      ensures (b, 0) in deps && (b, 1) in deps && deps[(b, 0)].list.None? && deps[(b, 1)].list.None?
      ensures |hold| == MAX_HOLD_BI && forall k | 0 < k < MAX_HOLD_BI :: hold[k].Some?
      ensures forall y | InUse(old(active), dormant, y) && y in old(blocks) && y != b ::
        InUse(active, dormant, y) && y in blocks && blocks[y] == old(blocks)[y]
    {
      hide ValidBut, InUse;
      AllocBlockinfos();
      ghost var hold0 := hold;
      assert hold0[0].Some?;
      b := GetBlockinfoAddrNew(pc, -1);
      assert forall k | 0 < k < MAX_HOLD_BI :: hold[k] == hold0[k];
      ForgetExits(b);
    }

    // Takes a block for pc whose code begins at the emission pointer.
    method StartBlock(pc: int, toHandler: nat, toDirect: nat, body: nat) returns (b: int)
      requires Valid() && toDirect > 0 && body > 0
      requires next + MAX_HOLD_BI * (infoSize + 2 * stubSize) + toHandler + toDirect < cacheEnd
      modifies this`blocks, this`deps, this`deplist, this`code, this`next, this`lines, this`tags, this`active,
        this`hold, this`placed, jumps, chains, uses
      ensures ValidBut(b) && InUse(active, dormant, b) && b in blocks && blocks[b].pc == pc
      ensures blocks[b].handler == Some(blocks[b].handlerToUse)
        && blocks[b].directHandler == Some(blocks[b].directHandlerToUse)
      ensures (b, 0) in deps && (b, 1) in deps && deps[(b, 0)].list.None? && deps[(b, 1)].list.None?
      ensures |hold| == MAX_HOLD_BI && forall k | 0 < k < MAX_HOLD_BI :: hold[k].Some?
      ensures forall y | InUse(old(active), dormant, y) && y in old(blocks) && y != b ::
        InUse(active, dormant, y) && y in blocks && blocks[y] == old(blocks)[y]
    {
      hide ValidBut, InUse;
      b := TakeBlock(pc);
      Advance(toHandler);
      var handler := EmitEntry(b, toDirect, body);
      UseCode(b, handler, handler + toDirect);
    }

    // The blocks that b may go on to, each by its own jump.
    ghost predicate Exits(b: int, exits: seq<int>, n: nat)
      requires n <= |exits| <= 2
      reads this
    {
      && (b, 0) in deps && (b, 1) in deps
      && (forall k | 0 <= k < n ::
            && deps[(b, k)].list.Some? && InUse(active, dormant, deps[(b, k)].list.value)
            && deps[(b, k)].list.value in blocks && blocks[deps[(b, k)].list.value].pc == exits[k])
      && (forall k | n <= k < 2 :: deps[(b, k)].list.None?)
    }

    method ChainExits(b: int, exits: seq<int>, gap: nat)
      requires ValidBut(b) && InUse(active, dormant, b) && b in blocks && |exits| <= 2 && Exits(b, exits, 0)
      requires |hold| == MAX_HOLD_BI && forall k | 0 < k < MAX_HOLD_BI :: hold[k].Some?
      modifies this`blocks, this`deps, this`deplist, this`code, this`next, this`lines, this`tags, this`active,
        this`hold, jumps, chains, uses
      ensures ValidBut(b) && Exits(b, exits, |exits|)
      ensures blocks.Keys == old(blocks).Keys
      ensures forall y | InUse(old(active), dormant, y) && y in blocks ::
        blocks[y] == old(blocks)[y] && InUse(active, dormant, y)
    {
      hide WellPlaced, InCache, Threads, Uses, AllLines, ValidBut, InUse;
      var i := 0;
      while i < |exits|
        invariant 0 <= i <= |exits| && ValidBut(b) && InUse(active, dormant, b) && b in blocks && Exits(b, exits, i)
        invariant |hold| == MAX_HOLD_BI && forall k | i < k < MAX_HOLD_BI :: hold[k].Some?
        invariant blocks.Keys == old(blocks).Keys
        invariant forall y | InUse(old(active), dormant, y) && y in blocks ::
          blocks[y] == old(blocks)[y] && InUse(active, dormant, y)
      {
        assert hold[i + 1].Some?;
        var t := ChainExit(b, i, exits[i], gap);
        i := i + 1;
      }
    }

    method FileBlock(b: int, inRom: bool)
      requires ValidBut(b) && InUse(active, dormant, b) && b in blocks
      modifies this`active, this`dormant, this`lines, this`tags, this`era, chains, uses
      ensures Valid() && HeadsLine(blocks, lines, active, dormant, blocks[b].pc, b)
      ensures if inRom then b in dormant && b in era.rom
              else b in active && b !in era.rom && b in era.checked && era.checked[b] == era.era
      ensures forall y :: InUse(active, dormant, y) <==> InUse(old(active), old(dormant), y)
    {
      hide WellPlaced, InCache, Threads, Uses, AllLines, Linked, OwnJumps, Chained, Filed, Tagged, Entries, OnHold,
        Below;
      if inRom {
        MakeDormant(b);
      } else {
        era := era.(rom := era.rom - {b});
        Activate(b);
      }
    }

    // Translates the block at pc; `exits` are the blocks its last instruction may go to.
    method Compile(pc: int, exits: seq<int>, inRom: bool, toHandler: nat, toDirect: nat, body: nat, gap: nat)
      returns (b: int)
      requires Valid() && |exits| <= 2 && toDirect > 0 && body > 0
      requires next + MAX_HOLD_BI * (infoSize + 2 * stubSize) + toHandler + toDirect < cacheEnd
      modifies this, jumps, chains, uses
      ensures Valid() && HeadsLine(blocks, lines, active, dormant, pc, b)
      ensures blocks[b].handler == Some(blocks[b].handlerToUse)
        && blocks[b].directHandler == Some(blocks[b].directHandlerToUse)
      ensures Exits(b, exits, |exits|)
      ensures if inRom then b in dormant && b in era.rom
              else b in active && b !in era.rom && b in era.checked && era.checked[b] == era.era
      ensures forall y | InUse(old(active), old(dormant), y) && y in old(blocks) && y != b ::
        InUse(active, dormant, y) && y in blocks && blocks[y] == old(blocks)[y]
      // Its address is taken to its code, other addresses of the line are not, and its exits go where they should.
      ensures Entered(Tag(pc % 0x10_0000), pc) == Runs(b, pc)
      ensures forall other | other != pc && other % 0x10_0000 == pc % 0x10_0000 ::
        Entered(Tag(other % 0x10_0000), other) == Missed(other)
      ensures forall k | 0 <= k < |exits| :: LeadsTo((b, k), exits[k])
    {
      hide WellPlaced, InCache, Threads, Uses, AllLines, ValidBut, InUse, Line, CacheLine, Enter;
      b := StartBlock(pc, toHandler, toDirect, body);
      ChainExits(b, exits, gap);
      FileBlock(b, inRom);
      EntersRight(pc);
      forall other | other != pc && other % 0x10_0000 == pc % 0x10_0000
        ensures Entered(Tag(other % 0x10_0000), other) == Missed(other)
      {
        EntersRight(other);
      }
      forall k | 0 <= k < |exits|
        ensures LeadsTo((b, k), exits[k])
      {
        ExitLeads(b, exits, k);
      }
    }

    // compile_block: with a hard flush before or after it when the cache is full
    method CompileBlock(pc: int, exits: seq<int>, inRom: bool, toHandler: nat, toDirect: nat, body: nat, gap: nat)
      returns (ghost b: int)
      requires Valid() && |exits| <= 2 && toDirect > 0 && body > 0
      requires cacheStart <= maxCompileStart
        && maxCompileStart + MAX_HOLD_BI * (infoSize + 2 * stubSize) + toHandler + toDirect < cacheEnd
      modifies this, jumps, chains, uses
      ensures Valid() && next <= maxCompileStart
      // The block is there, unless the cache is full again and has been emptied.
      ensures blocks == map[] || (HeadsLine(blocks, lines, active, dormant, pc, b) && Exits(b, exits, |exits|)
        && blocks[b].handler == Some(blocks[b].handlerToUse)
        && blocks[b].directHandler == Some(blocks[b].directHandlerToUse)
        && Entered(Tag(pc % 0x10_0000), pc) == Runs(b, pc) && forall k | 0 <= k < |exits| :: LeadsTo((b, k), exits[k]))
    {
      hide WellPlaced, InCache, Threads, Uses, AllLines, ValidBut;
      if next >= maxCompileStart { FlushIcacheHard(); }
      b := Compile(pc, exits, inRom, toHandler, toDirect, body, gap);
      if next >= maxCompileStart { FlushIcacheHard(); }
    }
  }

  // b is the block at pc, and the tag of its line stands for it.
  ghost predicate HeadsLine(blocks: map<int, Block>, lines: map<int, seq<int>>, active: seq<int>, dormant: seq<int>,
                            pc: int, b: int) {
    && InUse(active, dormant, b) && b in blocks && blocks[b].pc == pc
    && Line(lines, CacheLine(pc)) != [] && Line(lines, CacheLine(pc))[0] == b
  }

  lemma DormantRest(blocks: map<int, Block>, active: seq<int>, dormant: seq<int>, e: Era, executeNormal: Addr,
                    checkChecksum: Addr, hold: seq<Option<int>>, deps: Deps, deplist: DepLists, b: int)
    requires Safe(blocks, active, dormant, e, executeNormal, checkChecksum, b) && -1 !in blocks
    requires Entries(blocks, active, dormant, executeNormal, checkChecksum)
    requires OnHold(hold, blocks, active, dormant, deps, deplist) && InUse(active, dormant, b)
    ensures Safe(blocks, Without(active, b), [b] + Without(dormant, b), e.(rom := e.rom + {b}), executeNormal,
                 checkChecksum, -1)
    ensures Entries(blocks, Without(active, b), [b] + Without(dormant, b), executeNormal, checkChecksum)
    ensures OnHold(hold, blocks, Without(active, b), [b] + Without(dormant, b), deps, deplist)
  {
    hide Direct;
    assert forall x :: InUse(Without(active, b), [b] + Without(dormant, b), x) <==> InUse(active, dormant, x);
  }

  // A block that asks for its checksum has been compiled.
  lemma MustBeCompiled(blocks: map<int, Block>, active: seq<int>, dormant: seq<int>,
                       executeNormal: Addr, checkChecksum: Addr, b: int)
    requires Entries(blocks, active, dormant, executeNormal, checkChecksum) && b in blocks && InUse(active, dormant, b)
    requires blocks[b].handlerToUse == checkChecksum || blocks[b].directHandlerToUse == blocks[b].directPcc
    ensures blocks[b].handler.Some? && blocks[b].directHandler.Some?
  {
  }

  lemma OnlyOneAt(blocks: map<int, Block>, lines: map<int, seq<int>>, active: seq<int>, dormant: seq<int>, b: int)
    requires Filed(blocks, lines, active, dormant) && b in blocks && InUse(active, dormant, b)
    ensures forall x | InUse(active, dormant, x) && x in blocks && blocks[x].pc == blocks[b].pc :: x == b
  {
  }

  // Changing the handlers of b leaves every other tag right.
  lemma UsedFiled(blocks0: map<int, Block>, blocks: map<int, Block>, lines: map<int, seq<int>>,
                  tags: map<int, Addr>, active: seq<int>, dormant: seq<int>, executeNormal: Addr, b: int)
    requires Filed(blocks0, lines, active, dormant) && Tagged(blocks0, lines, tags, executeNormal, -1)
    requires -1 !in blocks0 && b in blocks0 && b in blocks && blocks == blocks0[b := blocks[b]]
    requires blocks[b].pc == blocks0[b].pc
    ensures Filed(blocks, lines, active, dormant) && Tagged(blocks, lines, tags, executeNormal, b)
  {
    forall cl | cl != CacheLine(blocks[b].pc)
      ensures TagAt(tags, cl, executeNormal) == WantedTag(blocks, Line(lines, cl), executeNormal)
    {
      assert TagAt(tags, cl, executeNormal) == WantedTag(blocks0, Line(lines, cl), executeNormal);
      if Line(lines, cl) != [] { AtLine(blocks0, lines, active, dormant, cl, 0); }
    }
  }

  lemma UsedEntries(blocks0: map<int, Block>, blocks: map<int, Block>, active: seq<int>, dormant: seq<int>,
                    executeNormal: Addr, checkChecksum: Addr, b: int)
    requires Entries(blocks0, active, dormant, executeNormal, checkChecksum)
    requires b in blocks0 && b in blocks && blocks == blocks0[b := blocks[b]]
    requires blocks[b].handler.Some? && blocks[b].directHandler.Some?
    requires blocks[b].directPen == blocks0[b].directPen && blocks[b].directPcc == blocks0[b].directPcc
    ensures Entries(blocks, active, dormant, executeNormal, checkChecksum)
  {
    hide InUse;
  }

  lemma UsedSafe(blocks0: map<int, Block>, blocks: map<int, Block>, active: seq<int>, dormant: seq<int>, e: Era,
                 executeNormal: Addr, checkChecksum: Addr, b: int)
    requires Safe(blocks0, active, dormant, e, executeNormal, checkChecksum, -1) && -1 !in blocks0
    requires b in blocks0 && b in blocks && blocks == blocks0[b := blocks[b]]
    ensures Safe(blocks, active, dormant, e, executeNormal, checkChecksum, b)
  {
    hide InUse, Direct;
  }

  lemma CheckedSafe(blocks: map<int, Block>, active: seq<int>, dormant: seq<int>, e: Era,
                    executeNormal: Addr, checkChecksum: Addr, b: int)
    requires Safe(blocks, active, dormant, e, executeNormal, checkChecksum, b)
    ensures Safe(blocks, active, dormant, e.(checked := e.checked[b := e.era]), executeNormal, checkChecksum, b)
  {
    hide InUse, Direct;
  }

  // After b has moved to the front of the active list nothing needs an exception any more.
  lemma MovedRest(blocks: map<int, Block>, active: seq<int>, dormant: seq<int>, e: Era, executeNormal: Addr,
                  checkChecksum: Addr, hold: seq<Option<int>>, deps: Deps, deplist: DepLists, b: int)
    requires Safe(blocks, active, dormant, e, executeNormal, checkChecksum, b) && b in e.checked
      && e.checked[b] == e.era
    requires Entries(blocks, active, dormant, executeNormal, checkChecksum)
    requires OnHold(hold, blocks, active, dormant, deps, deplist) && InUse(active, dormant, b)
    requires -1 !in blocks
    ensures Safe(blocks, [b] + Without(active, b), Without(dormant, b), e, executeNormal, checkChecksum, -1)
    ensures Entries(blocks, [b] + Without(active, b), Without(dormant, b), executeNormal, checkChecksum)
    ensures OnHold(hold, blocks, [b] + Without(active, b), Without(dormant, b), deps, deplist)
  {
    hide Direct;
    assert forall x :: InUse([b] + Without(active, b), Without(dormant, b), x) <==> InUse(active, dormant, x);
  }

  lemma DiscardedRest(blocks0: map<int, Block>, blocks: map<int, Block>, active: seq<int>, dormant: seq<int>, e: Era,
                      executeNormal: Addr, checkChecksum: Addr, b: int)
    requires Entries(blocks0, active, dormant, executeNormal, checkChecksum)
    requires Safe(blocks0, active, dormant, e, executeNormal, checkChecksum, -1) && -1 !in blocks0
    requires b in blocks0 && b in blocks && blocks == blocks0[b := blocks0[b].(
      handler := None, handlerToUse := executeNormal, directHandler := None,
      directHandlerToUse := blocks0[b].directPen)]
    ensures Entries(blocks, active, dormant, executeNormal, checkChecksum)
    ensures Safe(blocks, active, dormant, e, executeNormal, checkChecksum, -1)
  {
    hide InUse;
  }

  lemma DiscardedHold(hold: seq<Option<int>>, blocks0: map<int, Block>, blocks: map<int, Block>,
                      active: seq<int>, dormant: seq<int>, deps0: Deps, deps: Deps,
                      deplist0: DepLists, deplist: DepLists, b: int)
    requires OnHold(hold, blocks0, active, dormant, deps0, deplist0) && blocks.Keys == blocks0.Keys
    requires InUse(active, dormant, b) && deplist.Keys == deplist0.Keys
    requires deps == deps0[(b, 0) := UNLINKED][(b, 1) := UNLINKED]
    requires forall t | t in deplist :: |deplist[t]| <= |deplist0[t]|
    ensures OnHold(hold, blocks, active, dormant, deps, deplist)
  {
  }

  lemma TaggedMore(blocks: map<int, Block>, lines: map<int, seq<int>>, tags: map<int, Addr>, executeNormal: Addr,
                   x: int)
    requires Tagged(blocks, lines, tags, executeNormal, -1) && -1 !in blocks
    ensures Tagged(blocks, lines, tags, executeNormal, x)
  {
  }
}
