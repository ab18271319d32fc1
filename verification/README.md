# E-UAE

A model of the parts of E-UAE in which something has to be exactly right, and proofs that it is.

- **The just-in-time compiler.** `JitState`, `JitAlloc`, `JitOps`, `JitFlush` and `JitRun` model the lazy register
  allocator. A virtual 68k register may be a constant, in memory, in a native register, share one with others, be only
  partly valid, or have an offset pending. Every emitted instruction is an immediate step of an abstract machine with
  native registers and home memory, so the allocator's bookkeeping and the code it emits are one state. The *logical
  value* of a register is what it stands for in that state; each operation says what becomes of the logical value of
  every register. `JitRun.Translate` puts the pieces together for a whole block, and `JitRuns` for any number of blocks
  that follow each other. `X87` maps FP registers onto the x87 stack, `JitFloat` allocates them and stores and loads
  through it. `JitBlocks` is the management of translated blocks: cache lines, lists, chained jumps, the soft and the
  hard flush, and what stands at each address at which code is entered; it keeps its lists as sequences (`Sequences`)
  and, in `JitLists`, as the pointers of the source, and every operation keeps the two the same. `JitFlags` is dead-flag
  elimination.
- **Codecs.** `Gf256` and `CdRom`: Mode 1 sectors of ECMA-130 (clause 14, Annex A). `Crc`: CRC-32 (section 8 of
  RFC 1952) and CRC-16, as instances of one kind of shift register of which the EDC is a third. `MfmBits`, `Mfm` and
  `MfmTrack`: AmigaDOS tracks.
- **The blitter.** `BlitWord` (logic functions, shifter, fill), `Blitter` (generic loop and kernels), `BlitLine`;
  `BlitMemory` and `LinePixels` say what becomes of each bit of memory.
- **Lazy timing.** `Cia`, `Audio` with `AudioPlay`, and `Events`, which says how far time may run; `CiaEvents` puts the
  CIA timers among the events. `Division` holds the arithmetic.
- **CD sectors.** `Akiko` is the double buffer between the filling thread and the reader, in every interleaving.

Code that changes state is a class or a method on arrays, proved against a function of the old state; what the code is
for is then proved about that function. In the allocators the specification is not a function but a relation
(`Keeps`, `Step`), because which register is chosen does not matter.

What calls into the rest of the emulator is a parameter: the arithmetic of the x87 (`Arith`), the effect of an
instruction (`Instr`, `Op`), what a store rounds a value to (`Arith.fit`, `Machine.round`), event handlers (`Handler`),
the contents of the disc, whether a checksum matches.

Some places where the code decides and not its comments or the standard:

- A sector's sync pattern is written with 0xff in byte 11, where ECMA-130 has 0; `CdRom.Framed` says what is written.
- The MFM decoder stops after eleven sectors, not after eleven different ones. `Mfm.WhatZeroMeans` says for every input
  what its result 0 means, and `Mfm.SameSectorEleven` is a track that it accepts with ten slots unwritten. Words behind
  the end of its buffer are taken to be no sync words.
- mfmcode looks at the bits in front of the label of a sector before it has clock bits, but the label itself comes with
  its clock bits set: the first of them is next to a set data bit if the count of sectors up to the gap is odd.
  `MfmTrack.SectorSpacing` says so, and that it happens nowhere else.
- On descending blits the fetch of C also overwrites the stored B data; `Blitter.GenWord` keeps it.
- A CD request may be taken back without having been answered; `Akiko.AnsweredIff` says exactly when.
- A constant added to, or taken from, a register of which only one or two bytes are valid is folded into all four bytes
  of the native register. This is an everyday sequence: a word moved into a data register, and a constant added to it
  as a long where flags are not needed (src/gencomp.c:1403-1408 emits mov_l_ri and add_l, and add_l makes an offset of a
  constant). `JitOps.SumRR` says when the sum is right, before and after any further step of the allocator;
  `JitRun.Translate` says it for the text of a block, and `JitRun.MoveWordAddLong` is the failing family.
- FP registers are kept in extended precision and stored as doubles, since src/include/newcpu.h:79 sets USE_LONG_DOUBLE
  to 0. `JitFloat.RunIsExact` says when a value survives. That rounding twice is rounding once is taken for granted.
- The CIA timers lose their phase if no timer runs for a whole round of the cycle counter: `CiaEvents.RoundLost`.

## Model

| member | source | states |
|---|---|---|
| Word32.AddWraps | src/compemu_support.c:701-706 | 32-bit addition, carried from part to part, is addition modulo 2^32 |
| Word32.SubIsAdd | src/compemu_support.c:3633-3654 | taking a constant away is adding its negation, so an offset serves for both |
| Word32.AddAssociative | src/compemu_support.c:1079-1082 | offsets may be collected first and added later: the order of additions does not matter |
| JitState.HeldOnce | src/compemu_support.c:770-794 | with realreg/realind and holds/nholds inverse to each other, no virtual register sits in two places |
| JitState.StoreKeeps | src/compemu_support.c:708-735 | storing the dirty bytes leaves every logical value as it was |
| JitState.FoldKeeps | src/compemu_support.c:1107-1117 | adding a pending offset into a register held alone leaves every logical value as it was |
| JitState.UnlinkLinks | src/compemu_support.c:783-793 | taking a register out by swapping with the last one keeps both directions of the bookkeeping exact |
| JitState.UnlinkKeeps | src/compemu_support.c:783-793 | a clean register may leave its native register without any value changing |
| JitState.WidenIsMerge | src/compemu_support.c:886-891 | the bswap, zero-extend and lea sequence joins the low half in the register with the high half in memory |
| JitState.ReadValue | src/compemu_support.c:1130-1176 | the low bytes of the native register plus the pending offset are the logical value |
| JitState.MarkReady | src/compemu_support.c:1205-1234 | a register in which a partial write will land keeps its higher bytes |
| JitState.RmwMark | src/compemu_support.c:1277-1341 | declaring bytes dirty that were valid already changes no value |
| JitAlloc.Allocator.InitComp | src/compemu_support.c:4355-4443 | every 68k register, the flags and the PC begin with the value their home (or the block address) has, and the PC alone as a constant; the bookkeeping is exact |
| JitState.NotBentStored | src/compemu_support.c:708-735 | after a store no offset is left pending on a partly valid register |
| JitAlloc.Allocator.ToMem | src/compemu_support.c:708-735 | which word memory holds afterwards is said for every state of the register, an offset pending on a partly valid one included; nothing else changes, and all logical values are kept |
| JitAlloc.Allocator.Evict | src/compemu_support.c:770-794 | the register is in memory afterwards; all logical values, locks and the contents of locked registers are kept |
| JitAlloc.Allocator.FreeNreg | src/compemu_support.c:796-811 | empties a native register, keeping every logical value |
| JitAlloc.Allocator.PickReg | src/compemu_support.c:842-871 | chooses the hinted register or one of least badness, never a locked one, always one that can hold the size |
| JitAlloc.Allocator.Widen | src/compemu_support.c:884-895 | a 2-byte register becomes valid in all four bytes where it is, with no value changed |
| JitAlloc.Allocator.AllocRegHinted | src/compemu_support.c:842-961 | only r may lose its value, and only when it is to be overwritten; r ends up alone in an unlocked register of the right kind |
| JitAlloc.Allocator.MovNregs | src/compemu_support.c:981-1005 | everything held by one native register is held by the other, contents included |
| JitAlloc.Allocator.IsClean | src/compemu_support.c:814-822 | the register counts as clean and whole, its value being given up |
| JitAlloc.Allocator.Disassociate | src/compemu_support.c:824-828 | r is given up; every other logical value is kept |
| JitAlloc.Allocator.KeepAlone | src/compemu_support.c:1027-1042 | when all other holders are clean they leave, and r stays where it is |
| JitAlloc.Allocator.Split | src/compemu_support.c:1044-1077 | r gets a copy in a register of its own, with offsets where they were; all values are kept |
| JitAlloc.Allocator.MakeExclusive | src/compemu_support.c:1008-1077 | r is alone in its native register afterwards; only a full overwrite may lose the value of r, and another native register is needed only if r cannot keep its own |
| JitAlloc.Allocator.RemoveOffset | src/compemu_support.c:1084-1120 | no offset is pending on r afterwards and every logical value is what it was |
| JitAlloc.Allocator.ReadRegGeneral | src/compemu_support.c:1130-1176 | returns a locked native register whose low bytes, with the offset if one is allowed, are exactly the value of r; nothing changes value; no locked register is disturbed; any register that can hold the access and what it has to take over may be insisted on |
| JitAlloc.Allocator.WriteRegGeneral | src/compemu_support.c:1196-1265 | returns a register that r has for itself, marked dirty; no other value changes, and under a partial write neither do the higher bytes of r |
| JitAlloc.Allocator.RmwGeneral | src/compemu_support.c:1277-1341 | as for a write, and the register holds the value of r in the bytes that will be read |
| JitOps.SetConst | src/compemu_support.c:830-835 | r has the constant as its value, all other values are kept |
| JitOps.ForgetAbout | src/compemu_support.c:3972-3979 | r has no value afterwards, all other values are kept |
| JitOps.AliasKeeps | src/compemu_support.c:3249-3265 | putting d beside s with the same offset gives d the value of s and keeps everything else |
| JitOps.MovLRR | src/compemu_support.c:3237-3276 | d has the value of s, without any code being emitted to copy it; all other values are kept |
| JitOps.AddLRI | src/compemu_support.c:3683-3702 | an immediate is added by bookkeeping alone; what the allocator then takes for the value of d is the sum if and only if all four bytes of d are valid, or d is in no register, or its invalid bytes happen to be those in memory |
| JitOps.NarrowOffsetStored | src/compemu_support.c:708-735 | the word that tomem stores for a partly valid register with an offset is the logical value if and only if the invalid bytes happened to agree with memory |
| JitOps.AluRR | src/compemu_support.c:3454-3488 | for any operation on the low bytes, of any of the three sizes, that does not look whether its operands are constants: d becomes the operation on d and s in those bytes, even if d and s are the same register; all else is kept |
| JitOps.AluRI | src/compemu_support.c:3704-3729 | the same with an immediate in place of s |
| JitOps.SumRI | src/compemu_support.c:3633-3729 | an immediate added or subtracted, in any size: by bookkeeping alone for longs whose flags are not needed, in the native register otherwise; what the allocator then takes for the value of d is the sum if and only if all of d is valid, d is in no register, or its invalid bytes happen to be those in memory |
| JitOps.SumRR | src/compemu_support.c:3581-3631 | a register added or (lines 3767-3818) subtracted: if it is a constant this is the immediate operation, with the same condition for the sum to be right, and otherwise d becomes the sum in its low bytes |
| JitOps.FoldRI | src/compemu_support.c:3490-3502 | or, and (lines 3439-3452) and, with an immediate: a constant whose flags are not needed becomes another constant, without code; otherwise the native register is changed |
| JitOps.FoldRR | src/compemu_support.c:3504-3518 | the same for two registers: two constants become one |
| JitOps.MovNarrowRR | src/compemu_support.c:2601-2635 | the low byte or half of s replaces that of d |
| JitFlush.FlushOne | src/compemu_support.c:4667-4688 | one register goes home, whatever state it was in, although others may be moved or evicted for it |
| JitFlush.FlushRegisters | src/compemu_support.c:4651-4701 | after the flush the home of each of registers 0 to 15, the PC and the two flag words holds the logical value from before it (a PC that is still a constant excepted), or what the allocator took for it where an offset was pending on a partly valid register |
| JitFlush.Flush | src/compemu_support.c:4651-4701 | the same with the PC offset synchronised first: the PC has moved by exactly that offset if and only if it could take one, as a PC that is a constant or in memory always can, or its invalid bytes agreed with memory |
| JitRun.StepStandsFor | src/compemu_support.c:5829-5870 | an instruction that keeps all values but one keeps allocator and interpreter in step |
| JitRun.Emit | src/compemu_support.c:5829-5870 | one instruction of a block: allocator and machine stand for what the interpreter makes of it, unless an offset is left pending on a partly valid register; then d is right if and only if the bytes that were not valid agree with memory |
| JitRun.Translate | src/compemu_support.c:5829-5870 | a whole block from init_comp to the final flush leaves in memory what interpreting it would have left, if by the text of the block no offset is left pending on a register that may be partly valid; it is reported not to if one is left on a register that certainly is, and if nothing touches that register afterwards its home is right if and only if the bytes that were not valid agreed with memory at that moment |
| JitRun.InitialIs | src/compemu_support.c:4355-4443 | the registers that have a value when a block begins are 0 to 15, the PC and the flags |
| JitRuns.PlainDefined | src/compemu_support.c:5829-5870 | after a block that reads nothing without a value, all of them still have one |
| JitRuns.InterpretedThen | src/compemu_support.c:5829-5870 | interpreting two runs of instructions one after the other is interpreting them as one |
| JitRuns.InterpretedAgrees | src/compemu_support.c:5829-5870 | what an instruction leaves in a register with a value depends on registers with a value only, so memory may hold anything for the others |
| JitRuns.TranslateAll | src/compemu_support.c:5829-5870 | any number of blocks, each compiled for where the one before ends and run from the homes it left, with anything in the native registers: registers 0 to 15 and the flags end up as if all blocks had been interpreted in one go |
| JitRun.OffsetTaken | src/compemu_support.c:3581-3597 | the two conditions, which can be read off the text of the block, against the state of the allocator: constants are tracked, so that add_l and sub_l of a constant count as immediate operations |
| JitRun.PassedMore | src/compemu_support.c:5829-5870 | what is known of the states between the instructions of a block is known after one more: constants, valid parts and homes are as the text says, and an offset left on a partly valid register stays right or wrong |
| JitRun.AllFlushed | src/compemu_support.c:4651-4701 | so the final flush leaves the right word in the home of such a register if and only if the bytes agreed with memory when the offset was left |
| JitRun.WantedIs | src/gencomp.c:1403-1408 | a word moved into a register and a constant added to it, as gencomp emits them where flags are not needed (mov_l_ri, mov_w_rr, mov_l_ri, add_l), is such a block |
| JitRun.MoveWordAddLong | src/gencomp.c:1403-1408 | right after init_comp the upper half of its result comes from a native register and not from memory: it is wrong whenever no native register happens to agree with memory, and right whenever all of them do, for sums and differences |
| JitRun.UpperHalfLost | src/gencomp.c:1403-1408 | the same with numbers: 1 moved as a word into a register of 0, and 4 added, leave 0x00010005 in memory if the native registers held 0x00010000 before |
| JitFlags.Liveness | src/compemu_support.c:5759-5783 | the backward pass computes the flags needed before each instruction |
| JitFlags.PlainStep | src/compemu_support.c:5772-5776 | agreement on the flags needed before an instruction gives the same registers and agreement on those needed after it, the Z rule of ADDX included |
| JitFlags.CompiledStep | src/compemu_support.c:5837-5867 | the same when the instruction is replaced by its flagless form or the flags are forgotten after it |
| JitFlags.Eliminated | src/compemu_support.c:5759-5867 | for every block and after every prefix: same registers, agreement on live flags; at the end all five flags agree |
| JitBlocks.JumpGoesTo | src/compemu_support.c:259-262 | a patched displacement leads to the address it was made for |
| JitBlocks.RedirectedChained | src/compemu_support.c:268-286 | once all jumps of the deplist are rewritten, chained jumps and handlers agree again |
| JitBlocks.UnlinkKeeps | src/compemu_support.c:241-249 | unlinking a dependency keeps lists and links consistent |
| JitBlocks.LinkKeeps | src/compemu_support.c:307-322 | a new dependency whose jump leads to its target keeps all chained jumps right |
| JitBlocks.AddedIsFiled | src/compemu_support.c:201-213 | a block put at the head of its line keeps the lines exact: one line per block, one block per address |
| JitBlocks.RaisedIsFiled | src/compemu_support.c:215-219 | moving a block to the head of its line keeps the lines exact |
| JitBlocks.Taken | src/compemu_support.c:356-386 | a block taken from those on hold fits in everywhere |
| JitBlocks.EveryLine | src/compemu_support.c:5625-5653 | a line that no block in use belongs to is empty and leads to the interpreter |
| JitBlocks.FlushDone | src/compemu_support.c:5672-5701 | after the soft flush no block that was active can be entered directly |
| JitBlocks.TagEnters | src/compemu_support.c:5795-5811 | entered by the tag of its line, an address leads to the code of the block at the head if that block is for this address, else to the routine that looks for it, or to the interpreter or the checksum test |
| JitBlocks.JumpEnters | src/compemu_support.c:5443-5460 | a chained jump leads behind the PC test of its target, or to one of the two stubs, which take the address from the target |
| JitBlocks.UsedPlaced | src/compemu_support.c:5795-5811 | a block whose handlers are where its PC test and its code stand is entered right |
| JitBlocks.BlockManager.constructor | src/compemu_support.c:5607-5615 | the empty cache: every tag leads to the interpreter |
| JitBlocks.BlockManager.EntriesAreSafe | src/compemu_support.c:5660-5701 | wherever a tag or any chained jump leads: to the interpreter, to the checksum test, or to code of a block that lies in ROM or has been checked since the last flush |
| JitBlocks.BlockManager.EntersRight | src/compemu_support.c:5795-5798 | in every state, entering an address through the tag at its lowest 20 bits runs code only of a block for that very address; a block that heads its line and has code is run, and any other address of the line misses |
| JitBlocks.BlockManager.JumpsRight | src/compemu_support.c:268-286 | in every state, a chained jump ends at the code of its target, or in the interpreter or the checksum test for the address of its target |
| JitBlocks.BlockManager.EmitEntry | src/compemu_support.c:5795-5811 | the PC test stands where emission was, and behind it the code of the block |
| JitBlocks.BlockManager.SetDhtu | src/compemu_support.c:268-286 | every chained jump to the block leads to its new handler; all others are as before |
| JitBlocks.BlockManager.RemoveDep | src/compemu_support.c:241-249 | the dependency has left its deplist, in the pointers as in the list, and no other has changed; all chained jumps stay right |
| JitBlocks.BlockManager.RemoveDeps | src/compemu_support.c:253-257 | the same for both dependencies of a block |
| JitBlocks.BlockManager.CreateJmpdep | src/compemu_support.c:307-322 | the jump comes first in the deplist of its target, in the pointers as in the list, and is patched from now on whenever the target changes |
| JitBlocks.BlockManager.InvalidateBlock | src/compemu_support.c:288-305 | the block leads to the interpreter in every way, and depends on nothing |
| JitBlocks.BlockManager.RemoveFromClList | src/compemu_support.c:173-185 | the block leaves its line, in the pointers as in the list, and the tag becomes that of the new head |
| JitBlocks.BlockManager.AddToClList | src/compemu_support.c:201-213 | the block heads its line, in the pointers as in the list, and the tag is its handler |
| JitBlocks.BlockManager.RaiseInClList | src/compemu_support.c:215-219 | the block heads its line, and all tags are right |
| JitBlocks.BlockManager.AddToActive | src/compemu_support.c:221-229 | the block comes first among the active ones, in the pointers as in the list |
| JitBlocks.BlockManager.MoveTo | src/compemu_support.c:187-193 | out of the list that the block is in, and to the front of the active or the dormant one (lines 221-239); the pointers lead through the lists so changed |
| JitBlocks.BlockManager.AllDormant | src/compemu_support.c:5689-5701 | the end of the soft flush: the pointers lead through what was active and then through what was dormant |
| JitBlocks.BlockManager.GetBlockinfoAddr | src/compemu_support.c:156-166 | finds the block at an address if and only if there is one |
| JitBlocks.BlockManager.PrepareBlock | src/compemu_support.c:5443-5471 | a new block has no jumps to it, leads to the interpreter, and has its two stubs |
| JitBlocks.BlockManager.AllocBlockinfos | src/compemu_support.c:390-403 | all places on hold are filled, nothing in use is touched |
| JitBlocks.BlockManager.GetBlockinfoAddrNew | src/compemu_support.c:356-386 | the block at the address, new or not; blocks in use and all chained jumps stay as they are |
| JitBlocks.BlockManager.FlushIcache | src/compemu_support.c:5660-5701 | every active block becomes dormant; it keeps its code, and both its handlers are those of the checksum test, or of the interpreter if it had no code; no other block changes, and the invariant holds, the pointers included |
| JitBlocks.BlockManager.FlushIcacheHard | src/compemu_support.c:5625-5653 | only the lines of known blocks are visited, yet afterwards every tag leads to the interpreter |
| JitBlocks.BlockManager.ResetLists | src/compemu_support.c:5433-5441 | no blocks remain |
| JitBlocks.BlockManager.CheckForCacheMiss | src/compemu_support.c:5230-5242 | a miss if and only if a block exists that did not head its line; it is raised then, and nothing changes otherwise |
| JitBlocks.BlockManager.CacheMiss | src/compemu_support.c:5259-5275 | the block heads its line afterwards |
| JitBlocks.BlockManager.CheckChecksum | src/compemu_support.c:5277-5326 | a block whose checksum matches is used again and will be flushed next time; one that does not is forgotten; one hit by accident is only raised; who has to interpret is told exactly |
| JitBlocks.BlockManager.ChainExit | src/compemu_support.c:5963-5989 | an exit of the block jumps to the block at its address and is patched from then on |
| JitBlocks.BlockManager.FileBlock | src/compemu_support.c:6057-6071 | a block in ROM is never flushed, any other is checked and will be |
| JitBlocks.BlockManager.Compile | src/compemu_support.c:5727-6072 | the new block heads its line: its address is taken there to its code, every other address of the line misses, its exits lead to the blocks they should, and no other block is disturbed |
| JitBlocks.BlockManager.CompileBlock | src/compemu_support.c:5705-6080 | whatever the fill of the cache, everything is in order afterwards and there is room; the new block is there, entered right and with its exits, unless the cache has been emptied |
| JitLists.ChainsApart | src/compemu_support.c:173-239 | no node is in two places, because each keeps the address of the pointer to it |
| JitLists.UnlinkRepresents | src/compemu_support.c:173-193 | taking a node out by way of the address it keeps leaves pointers that lead through the list without it, forwards and backwards, and through every other list as before |
| JitLists.LinkRepresents | src/compemu_support.c:201-239 | the same for putting a node first |
| JitLists.SpliceRepresents | src/compemu_support.c:5693-5700 | the same for putting one list before another |
| JitLists.Lists.Remove | src/compemu_support.c:173-193 | the node is in no list; the lists are those of the model without it |
| JitLists.Lists.RemoveDep | src/compemu_support.c:241-249 | the same for a dependency, which may be removed again |
| JitLists.Lists.AddFirst | src/compemu_support.c:201-239 | the node heads its list; no other list changes |
| JitLists.Lists.MoveToFront | src/compemu_support.c:215-219 | from wherever it is to the front |
| JitLists.Lists.Drop | src/compemu_support.c:5635-5640 | a list that is emptied at its head; its nodes may hold anything from then on |
| JitLists.Lists.PutBefore | src/compemu_support.c:5689-5700 | the walk to the last active block ends there, and the dormant list follows the active one |
| X87.RoomFor | src/compemu_raw_x86.c:2808-2830 | a register that is not on the stack leaves room for itself: the depth stays within bounds |
| X87.Exchanged | src/compemu_raw_x86.c:2815-2830 | an exchange with the top keeps spos and onstack inverse and the register file unchanged |
| X87.Dropped | src/compemu_raw_x86.c:2900-2910 | popping the top drops exactly that register from the file |
| X87.Emitter.MakeTos | src/compemu_raw_x86.c:2808-2830 | the register is on top of the stack; the file is unchanged but for a register that had no value |
| X87.Emitter.MakeTos2 | src/compemu_raw_x86.c:2834-2856 | two registers are the top two, in order; the file is unchanged but for registers that had no value |
| X87.Emitter.StackPos | src/compemu_raw_x86.c:2858-2867 | the stack index of a register |
| X87.Emitter.UseReg | src/compemu_raw_x86.c:2869-2875 | the register has a slot; all others keep slot and value |
| X87.Emitter.TosMake | src/compemu_raw_x86.c:2877-2889 | the value above the stack becomes the value of the register |
| X87.Emitter.FmovMr | src/compemu_raw_x86.c:2891-2898 | memory gets the value rounded to the format stored, the file keeps all of it |
| X87.Emitter.FmovExtMr | src/compemu_raw_x86.c:2957-2972 | in extended format, where only a popping store exists, memory gets the very value |
| X87.Emitter.FmovMrDrop | src/compemu_raw_x86.c:2900-2910 | memory gets the value, rounded unless the format is the extended one; the register leaves the stack |
| X87.Emitter.FmovRm | src/compemu_raw_x86.c:2912-2919 | the register gets what memory holds in that format |
| X87.Emitter.FmovConst | src/compemu_raw_x86.c:2997-3043 | the register gets the constant |
| X87.Emitter.FmovRr | src/compemu_raw_x86.c:3045-3063 | d gets the value of s and nothing else changes |
| X87.Emitter.UnaryRr | src/compemu_raw_x86.c:3074-3177 | d gets the function of s, in whatever slots they are |
| X87.Emitter.FtwotoxRr | src/compemu_raw_x86.c:3180-3208 | d gets two to the power of s, as the x87 computes it, within the depth of the stack |
| X87.Emitter.FetoxRr | src/compemu_raw_x86.c:3210-3242 | the same with s times log2(e) |
| X87.Emitter.Flog2Rr | src/compemu_raw_x86.c:3244-3260 | d gets the binary logarithm of s |
| X87.TwoToIsPower | src/compemu_raw_x86.c:3180-3208 | in exact arithmetic the sequence computes two to the power of its argument, and never gives f2xm1 one outside of its domain |
| X87.LogOfPower | src/compemu_raw_x86.c:3244-3260 | the sequences for powers and logarithms undo each other |
| X87.Emitter.BinaryRr | src/compemu_raw_x86.c:3284-3389 | d gets d op s, whichever of them is on top |
| X87.Emitter.FremRr | src/compemu_raw_x86.c:3391-3427 | the same for remainders, of different registers |
| X87.Emitter.FcmpRr | src/compemu_raw_x86.c:3330-3343 | d is on top and is compared with s; the file is unchanged |
| X87.Emitter.FtstR | src/compemu_raw_x86.c:3430-3436 | the register is on top to be tested; the file is unchanged |
| X87.Emitter.FflagsIntoFlags | src/compemu_raw_x86.c:3438-3464 | the comparison with zero leaves stack and file as they were |
| X87.Emitter.FpCleanupDrop | src/compemu_raw_x86.c:2782-2806 | exactly the entries on the stack are popped |
| JitFloat.EvictKeeps | src/compemu_support.c:1399-1426 | evicting an FP register keeps both directions of the bookkeeping; its own value is rounded, all others stay |
| JitFloat.EvictionRounds | src/compemu_support.c:1370-1426 | an evicted register has its value rounded: it keeps it if and only if rounding does not change it |
| JitFloat.EvictionLoses | src/compemu_support.c:1370-1426 | every value that rounding changes is lost by an eviction, whatever the rounding |
| JitFloat.RunCarries | src/compemu_support.c:1399-1634 | over any number of operations that do not overwrite it, a register has its value if it was in a native register all the time, and otherwise that value rounded, once |
| JitFloat.RunIsExact | src/compemu_support.c:1399-1634 | it has exactly its value if and only if it was never put out, or rounding does not change it |
| JitFloat.KeepsCarries | src/compemu_support.c:1399-1512 | the operations that lock nothing are such operations |
| JitFloat.LockingCarries | src/compemu_support.c:1526-1543 | and so are reads |
| JitFloat.SharedKeeps | src/compemu_support.c:4114-4121 | d joins s: the same value, everything else unchanged |
| JitFloat.SplitIs | src/compemu_support.c:1585-1600 | locking, forgetting, allocating anew and copying together change no value, but for what had to be evicted |
| JitFloat.Allocator.InitComp | src/compemu_support.c:4397-4443 | all FP registers begin in memory, with an empty x87 stack |
| JitFloat.Allocator.Store | src/compemu_support.c:1370-1393 | the store of the emitter, with or without popping, is the store the allocator counts on: memory gets the rounded value, and a popped register has none |
| JitFloat.Allocator.Load | src/compemu_support.c:1493-1499 | so is the load |
| JitFloat.Allocator.Copy | src/compemu_support.c:1590-1591 | and so is the copy, within the depth of the stack |
| JitFloat.Allocator.Evict | src/compemu_support.c:1399-1426 | the register is in memory with its value rounded as the store rounds it |
| JitFloat.Allocator.FreeNreg | src/compemu_support.c:1428-1443 | the native register is empty; values are kept, and rounded where they had to be stored |
| JitFloat.Allocator.Disassociate | src/compemu_support.c:1454-1458 | the register is given up; all other values are kept |
| JitFloat.Allocator.Pick | src/compemu_support.c:1462-1485 | never a locked register, one whenever there is one, and of those the one unused for longest |
| JitFloat.Allocator.AllocReg | src/compemu_support.c:1462-1512 | r has a native register of its own, loaded unless it will be overwritten; other values are kept, and rounded where they had to be stored |
| JitFloat.Allocator.ReadReg | src/compemu_support.c:1526-1543 | a locked native register that holds exactly the value; others are rounded only if they had to make room |
| JitFloat.Allocator.MakeExclusive | src/compemu_support.c:1545-1600 | r is alone in its native register, which is another one only if it cannot keep its own; only a register about to be overwritten loses its value |
| JitFloat.Allocator.WriteReg | src/compemu_support.c:1603-1620 | a locked register of its own for r, marked dirty; other values are kept, and rounded where they had to be stored |
| JitFloat.Allocator.Rmw | src/compemu_support.c:1622-1634 | as for a write, holding the value of r exactly |
| JitFloat.Allocator.FmovRr | src/compemu_support.c:4108-4130 | d has exactly the value of s and shares its register |
| JitFloat.Allocator.Flush | src/compemu_support.c:4660-4696 | nothing remains in native registers, and memory holds the rounded value of every register that is not scratch |
| Crc.FeedAhead | src/crc32.c:17-31 | feeding message bits one at a time equals xoring them in before the shifts |
| Crc.TableStep | src/crc32.c:33-43 | one lookup, one shift and one xor are eight steps of the bit-by-bit division |
| Crc.Feed32 | src/crc32.c:38-41 | the CRC-32 step is the division by its polynomial, for every register and byte |
| Crc.Feed16 | src/crc32.c:50-53 | the same for CRC-16, most significant bit first |
| Crc.FeedInjective | src/crc32.c:33-55 | a step is injective in the register and in the byte |
| Crc.OneByteDetected | src/crc32.c:33-55 | in any such register two messages of equal length differing in one byte leave different remainders |
| Crc.OneByteSeen | src/crc32.c:33-55 | two equal-length buffers differing in exactly one byte never share a CRC-32 or a CRC-16 |
| Crc.DivideConcat | src/crc32.c:33-55 | a message may be divided in parts |
| Crc.CheckValues | src/crc32.c:17-55 | for the digits 1 to 9 both give the published check values, 0xCBF43926 and 0x29B1 |
| Crc.CrcTables.MakeCrcTable | src/crc32.c:17-31 | every entry of both tables is what eight steps make of its index |
| Crc.CrcTables.GetCrc32 | src/crc32.c:33-43 | the result is the remainder of bit-by-bit division, complemented before and after, for every buffer |
| Crc.CrcTables.GetCrc16 | src/crc32.c:45-55 | the result is the remainder of bit-by-bit division |
| Gf256.AlogIsPower | src/cdrom.c:101-102 | every entry of the antilogarithm table is a power of the generator |
| Gf256.LogTimes2 | src/cdrom.c:103-104 | multiplication by the generator adds one to the logarithm, modulo 255 |
| Gf256.ProductIsPower | src/cdrom.c:143-155 | adding logarithms and looking the sum up is multiplication in GF(256) |
| CdRom.ParityIsUnique | src/cdrom.c:131-212 | given the data, the two equations determine the parity symbols |
| CdRom.OneSymbolSeen | src/cdrom.c:131-212 | a codeword with any one symbol changed violates the equations |
| CdRom.TwoSymbolsSeen | src/cdrom.c:131-212 | so does one with any two symbols changed, up to 255 symbols |
| CdRom.SymbolBalanced | src/cdrom.c:105-112 | the parity tables are right for every symbol, not only for 1 |
| CdRom.TablesBalanced | src/cdrom.c:105-112 | every entry of the P and Q tables balances what its symbol adds to the equations |
| CdRom.Kept | src/cdrom.c:131-212 | how the sums over a prefix of a codeword stand to the parity formed so far |
| CdRom.Encoded | src/cdrom.c:131-212 | data followed by its parity is a codeword |
| CdRom.QVisitsEveryCell | src/cdrom.c:131-170 | (43j+44i) mod 1118 takes every value exactly once |
| CdRom.QIndexIsCell | src/cdrom.c:138-155 | the byte index of the encoder addresses byte b of that cell |
| CdRom.EncodeP | src/cdrom.c:172-212 | all 86 P codewords satisfy both parity equations, and nothing but the P parity changes |
| CdRom.EncodeQ | src/cdrom.c:131-170 | all 52 Q codewords satisfy both parity equations, and nothing but the Q parity changes |
| CdRom.EdcTableIsRight | src/cdrom.c:29-95 | each of the 256 entries is what eight steps of the division make of its index |
| CdRom.BuildEdc | src/cdrom.c:122-129 | the EDC is the remainder of bit-by-bit division |
| CdRom.EdcOfOwn | src/cdrom.c:229-233 | a message followed by its own EDC has EDC zero |
| CdRom.AddressInHeader | src/cdrom.c:214-227 | minutes, seconds and frames in the header give the address back |
| CdRom.HeaderRead | src/cdrom.c:219-227 | the three bytes that are written there, read as digits, are the address |
| CdRom.StoreEdc | src/cdrom.c:228-233 | the sector up to the end of its EDC has EDC zero |
| CdRom.EncodeL2 | src/cdrom.c:219-237 | sync, header, user data unchanged, an EDC that checks, and every P and Q codeword of the finished sector satisfies both equations |
| MfmBits.JoinSplit | src/catweasel.c:394-398 | odd and even bits joined are the long again |
| MfmBits.CodedKeepsData | src/catweasel.c:497-510 | adding clock bits never changes a data bit |
| MfmBits.CodedIsNoSync | src/catweasel.c:497-510 | adding clock bits never produces the sync word 0x4489 |
| MfmBits.CodedBit | src/catweasel.c:497-510 | a bit is set afterwards if it was before, or if it is a clock bit and neither of the data bits beside it is set |
| Mfm.HeadSumIs | src/catweasel.c:565-573 | the header checksum is that of the info alone |
| Mfm.LongRead | src/catweasel.c:394-398 | what the decoder reads in place of a long are its data bits, whatever the clock bits |
| Mfm.OnlySyncs | src/catweasel.c:514-588 | whatever sectors follow each other, sync words stand at the beginning of each and nowhere else |
| Mfm.SectorRead | src/catweasel.c:423-482 | an encoded sector is read back with slot and data, or refused where the track does not fit a byte |
| Mfm.SectorFound | src/catweasel.c:411-421 | the sync of each sector is found from the end of the one before |
| Mfm.AnyOrder | src/catweasel.c:399-588 | sectors of any numbers in any order: the first eleven are put in their slots, for tracks 0 to 255; otherwise the first is refused |
| Mfm.WhatZeroMeans | src/catweasel.c:399-495 | for any input at all: result 0 means that eleven sectors were read; every slot was written if and only if their numbers are all different, and a slot that none of them has keeps what it held |
| Mfm.SameSectorEleven | src/catweasel.c:399-495 | a track that holds sector 0 eleven times gives result 0, and ten slots are not written |
| Mfm.RoundTrip | src/catweasel.c:399-588 | for every buffer: decoding what was encoded gives result 0 and the original bytes, for tracks 0 to 255 |
| Mfm.RoundTripIff | src/catweasel.c:399-588 | and for those tracks only |
| Mfm.Mfmcode | src/catweasel.c:497-510 | over the whole stretch as one string of bits, word boundaries included: a clock bit that was 0 becomes 1 if and only if both data bits beside it are 0, every other bit stays; nothing else is touched |
| Mfm.NeverFourZeros | src/catweasel.c:497-510 | so there are never four zeros in a row |
| Mfm.TwoOnes | src/catweasel.c:497-510 | and two ones stand side by side only where they did before |
| Mfm.DataStretch | src/catweasel.c:497-510 | for a stretch of data bits only: no two ones side by side, and at most three zeros in a row |
| MfmTrack.InfoBytes | src/catweasel.c:523-535 | the label holds 0xff, the track, the sector, and the number of sectors up to the gap |
| MfmTrack.RawKind | src/catweasel.c:537-580 | which words of a sector have data bits only before mfmcode, and which have clock bits only |
| MfmTrack.SectorSpacing | src/catweasel.c:514-588 | in every sector of a track, from its info on, never four zeros in a row, and two ones side by side in one place at most: before the label, if and only if the count up to the gap is odd |
| MfmTrack.DataWordSeen | src/catweasel.c:423-482 | a readable sector with other data bits in any one word of its data is refused for its checksum |
| Mfm.EncodeSector | src/catweasel.c:523-584 | the 544 words of one sector, nothing else touched |
| Mfm.AmigadosMfmcode | src/catweasel.c:514-588 | the whole track: gap and sectors, and its length in bits |
| Mfm.GetSector | src/catweasel.c:423-482 | the sector or the error found first |
| Mfm.DriveWriteAdfAmigados | src/catweasel.c:399-495 | the decoder on arrays does what the decoding function says |
| BlitWord.BitFuncIsSelected | src/blit.h:2-519 | each of the 256 logic functions is the one its number stands for, on every combination of source bits |
| BlitWord.KernelBitIsRight | src/blitfunc.c:11-1520 | a kernel computes its logic function, and the sources it leaves out do not matter for it |
| BlitWord.BarrelShift | src/blitter.c:314-327 | over any number of words the shifter moves one string of bits, in either direction |
| BlitWord.FillAt | src/blitter.c:204-230 | each bit is its source bit xor, or or, the carry, and the carry is the initial one xor the parity of all earlier bits |
| BlitWord.FillConcat | src/blitter.c:341-348 | filling can be done piece by piece, handing the carry on |
| BlitWord.MakeEntry | src/blitter.c:204-230 | one table entry is the serial fill of its byte |
| BlitWord.BuildFillTable | src/blitter.c:204-230 | all 1024 entries are |
| BlitWord.LookUp | src/blitter.c:341-348 | two chained lookups fill a word |
| Blitter.KernelRefinesGeneric | src/blitter.c:303-306 | for every kernel, channel mask, size, modulo, mask, shift, direction and overlap: the same chip memory and the same zero flag as the generic loop |
| Blitter.RowPointers | src/blitter.c:284-299 | the pointers set in advance are where the loop itself would stop |
| Blitter.WholeBlitShifts | src/blitter.c:314-327 | a copy of A to D shifts all its masked words as one number, over word and row boundaries, with zeros entering |
| Blitter.BlitTrace | src/blitter.c:309-364 | each word fetched from A is the masked word that memory holds when all words but the last have been written, and memory ends up with all words of D written in order: for every function, fill, direction and overlap |
| Blitter.CopyShifts | src/blitter.c:309-364 | so a copy between places that do not overlap leaves at the places of D the words of A, masked and shifted as one number, and nothing else has changed |
| Blitter.MaskIs | src/blitter.c:282-283 | the first mask goes with the first word of a row and the last mask with the last, both with a row of one word |
| BlitMemory.BlitBits | src/blitter.c:309-364 | for every minterm, channel mask, size, modulo and direction (lines 402-462), where nothing overlaps: each bit that a blit leaves in memory is the minterm of one bit each of A, B and C in memory before, found by the shift, A masked in the first and the last word of its row |
| BlitMemory.BlitFills | src/blitter.c:341-348 | with filling: each row of D in memory is the serial fill of these bits |
| BlitMemory.BlitIs | src/blitter.c:309-364 | each row of D in memory, filled or not, is made of the words of A, B and C that memory held before |
| BlitMemory.CopyMasks | src/blitter.c:276-364 | a copy without shift sets a bit if and only if it is set in A, in the first mask if it is in the first word of its row, and in the last mask if it is in the last |
| Blitter.RowFills | src/blitter.c:341-348 | to any words so far, a row of any length adds the serial fill of its bits |
| Blitter.Chip.GenericRow | src/blitter.c:316-361 | one row of the generic loop |
| Blitter.Chip.Generic | src/blitter.c:309-364 | the generic loop, both directions |
| Blitter.Chip.KernelRow | src/blitfunc.c:977-1013 | one row of a kernel |
| Blitter.Chip.Kernel | src/blitfunc.c:977-1050 | a kernel, both directions |
| Blitter.Chip.DoFast | src/blitter.c:276-462 | whichever path a blit takes, memory, zero flag and pointers are those of the generic loop |
| BlitLine.Accumulator | src/blitter.c:527-560 | the error accumulator stays in its range and is apt0 + (k-m)*bmod + m*amod after k dots |
| BlitLine.ExactDda | src/blitter.c:527-560 | the number of minor steps after k dots is given by one division: the line is an exact digital differential analyser |
| BlitLine.DotPosition | src/blitter.c:487-513 | pointer and shift are one coordinate, moved by k major steps and the counted minor ones |
| BlitLine.PatternTurns | src/blitter.c:562-567 | the pattern turns by one bit per dot |
| BlitLine.OneDotPerRow | src/blitter.c:515-525 | in single-dot mode a dot is left out exactly when the step before it stayed in its row, which, unless rows lie on top of each other, is when it is next to the dot before it |
| LinePixels.DotPixel | src/blitter.c:515-525 | a dot sets, clears or inverts, as its minterm says, the one pixel that pointer and shift stand for, and no other |
| LinePixels.LineStep | src/blitter.c:527-567 | so does the k-th dot of a line, with the bit of the pattern that is due, at its place on the line |
| LinePixels.LineDrawn | src/blitter.c:618-633 | a solid line over anything sets exactly the pixels of the digital line, whose minor coordinate is one division |
| BlitLine.Engine.LineProc | src/blitter.c:527-560 | one decision and its steps |
| BlitLine.Engine.DrawDot | src/blitter.c:624-630 | one dot |
| BlitLine.Engine.DrawLine | src/blitter.c:621-633 | exactly as many dots as the height says |
| Akiko.ReaderKeeps | src/akiko.c:843-889 | every step of the reader keeps the invariant |
| Akiko.ThreadKeeps | src/akiko.c:963-1018 | every step of the filling thread keeps the invariant, between any two assignments of the swap |
| Akiko.RunKeeps | src/akiko.c:843-1018 | the invariant holds in every state of every interleaving |
| Akiko.HandoversAreRight | src/akiko.c:843-1018 | every sector ever delivered is what the disc holds at its number; never both sides inside the semaphore; no buffered copy delivered more than three times |
| Akiko.HandsOverWhatIsAsked | src/akiko.c:852-880 | what is delivered is the sector asked for |
| Akiko.AnsweredIff | src/akiko.c:852-889 | a request that finds its cell is answered if and only if the cell may still be delivered; it is taken back either way |
| Akiko.FilledRight | src/akiko.c:982-999 | whatever the reader does meanwhile: once the thread has filled a buffer, its cells hold the sectors of the disc from the one asked for on, each three times to be had, and those behind the end or missing are empty |
| Akiko.TurnDone | src/akiko.c:963-1013 | one turn of the thread puts that buffer in front of the reader, the semaphore free |
| Akiko.NextWanted | src/akiko.c:849-860 | the reader passes over slots that nobody wants, one sector each, and stops at the first that somebody does |
| Akiko.SixteenLooks | src/akiko.c:849-860 | so it finds a wanted slot in sixteen looks at most |
| Akiko.NoFilling | src/akiko.c:968-976 | a sector in the first two thirds of a buffer that nobody missed a sector in causes no filling |
| Akiko.Answered | src/akiko.c:843-1013 | from every state in which the thread is about to look and a filling is due: its turn and then the reader's hand over the sector asked for, with the data of the disc, and nothing else |
| Akiko.TakenBack | src/akiko.c:843-1018 | a run in which a request for a sector behind the end of the disc is taken back unanswered |
| Cia.LastTick | src/cia.c:171-246 | up to its underflow a timer only counts down |
| Cia.JumpIsTick | src/cia.c:171-246 | the update at an underflow is the one E-clock step |
| Cia.UpdateChip | src/cia.c:171-246 | an update by n E-clocks is n single steps of the chip, within the asserted bound |
| Cia.AdvanceAdds | src/cia.c:139-165 | time can be split anywhere: E-clocks counted depend on the sum of the cycles only |
| Cia.ClockCycles | src/cia.c:139-165 | an E-clock is 2560 cycles: so many are counted in any number of cycles, and the rest is kept |
| Cia.PeriodA | src/cia.c:171-246 | a continuous timer underflows every latch+1 E-clocks |
| Cia.PeriodCascade | src/cia.c:182-216 | timer B on the underflows of A underflows every latch+1 of them |
| Cia.CascadePeriod | src/cia.c:182-216 | together every (la+1)*(lb+1) E-clocks |
| Cia.LatchedA | src/cia.c:742-756 | a latch takes its two bytes in either order |
| Cia.LatchedB | src/cia.c:757-771 | the same for timer B |
| Cia.OneShotA | src/cia.c:742-756 | a one-shot timer given its latch, low byte first: whatever it did before, it underflows exactly once, 256*hi+lo+1 E-clocks later, and stops at its latch |
| Cia.OneShotB | src/cia.c:757-771 | the same for timer B |
| Cia.StartedA | src/cia.c:816-828 | a continuous timer given its latch and started: when it underflows first, forced or not, and every 256*hi+lo+1 E-clocks from then on |
| Cia.StartedB | src/cia.c:829-837 | the same for timer B on the underflows of A |
| Cia.ByteSent | src/cia.c:802-812 | a byte written to the serial port is out after sixteen underflows of timer A, and not before |
| Cia.Timers.BoundHolds | src/cia.c:171-246 | the assertions about the counters cannot fail while time stops at the scheduled event |
| Cia.Timers.Update | src/cia.c:171-246 | the lazily updated timers equal those stepped on every E-clock |
| Cia.Timers.CalcTimers | src/cia.c:250-307 | the event is scheduled for the earliest underflow, strictly ahead |
| Cia.Timers.Handler | src/cia.c:309-313 | the handler changes nothing that can be seen, and reschedules |
| Cia.Timers.WriteRegister | src/cia.c:742-840 | a register write changes what it should in timers that are up to date, and reschedules |
| Cia.Timers.ReadTimers | src/cia.c:139-165 | reads give what the stepped timers show |
| Cia.Timers.DoCycles | src/include/events.h:102-113 | over any number of cycles, with the handler at each event, the timers are those stepped all along |
| Events.Jump | src/include/events.h:102-111 | a jump that no active event is nearer than is that many single cycles, with the due handlers at its end |
| Events.PassShrinks | src/events.c:89-97 | one pass over the table does nothing if nothing is due, and otherwise leaves less to do |
| Events.SettledPass | src/include/events.h:102-111 | one pass more or less makes no difference once the loop has handled everything that is due, with what becomes due meanwhile |
| Events.Quiet | src/include/events.h:102-113 | short of the nearest event nothing happens |
| Events.Scheduler.EventsSchedule | src/events.c:71-84 | the nearest active event, over wrap-around of the counter |
| Events.Scheduler.HandleActiveEvents | src/events.c:89-97 | the handlers of all due events, in order |
| Events.Scheduler.RunCycles | src/include/events.h:102-113 | jumping from event to event equals stepping cycle by cycle; no active event is ever run past |
| Events.Scheduler.DoCycles | src/include/events.h:79-114 | cycles are taken from those granted to compiled code first, and the rest are run: none is lost and none made up, except those that fall into the wait in the last line |
| CiaEvents.HandlersAreLawful | src/cia.c:250-313 | with CIA_handler among them the handlers are as the scheduler needs them |
| CiaEvents.NeverLate | src/cia.c:171-246 | the bound asserted by CIA_update holds at every cycle |
| CiaEvents.HandledView | src/cia.c:309-313 | the handler, with the counter wrapping around, changes nothing that can be seen |
| CiaEvents.SettledView | src/include/events.h:102-111 | nor do all the handlers of one cycle, with those that they make due in it |
| CiaEvents.AlwaysRight | src/cia.c:250-313 | over any number of cycles of the whole machine, whatever events the other handlers make due and when, the timers are those stepped on every E-clock, unless they stand still for a whole round of the cycle counter |
| CiaEvents.RoundLost | src/cia.c:171-246 | then the phase within the E-clock is lost, unless a round is a whole number of E-clocks |
| CiaEvents.RunCycles | src/include/events.h:102-113 | the same for the scheduler itself |
| Audio.StepKeeps | src/audio.c:1203-1211 | after each step no timer is at zero |
| Audio.RunSplits | src/audio.c:1157-1213 | one call for an interval or one for each of its parts: the same channels, interrupts and samples |
| Audio.SamplesAreExact | src/audio.c:1191-1201 | exactly the samples whose deadlines have passed are put out, and the next deadline has not drifted |
| Audio.NothingOverdue | src/audio.c:1157-1213 | no channel has an event in the past |
| Audio.Paula.Handler | src/audio.c:968-1030 | one event of a playing channel |
| Audio.Paula.UpdateAudio | src/audio.c:1157-1213 | the loop ends and has done everything that was due; what time is left counts in the next call |
| AudioPlay.OneWord | src/audio.c:968-1015 | two events of a channel play a word, high byte first, and the fetch of the next word keeps counter and pointer in step with the buffer |
| AudioPlay.AsksIff | src/audio.c:876-895 | the interrupt comes with the last word but one of the buffer, so that the pointers may be changed in time |
| AudioPlay.BufferIsHeard | src/audio.c:876-1015 | a channel with DMA plays its buffer byte by byte, from the first to the last and then from the first again, for ever and at any length |
| AudioPlay.Modulates | src/audio.c:979-1026 | an event changes no other channel but the next one, and of that the period, with its bounds, or the volume, if it is attached for it |

## Left out

- JitAlloc.Allocator.AllocRegHinted: takes it that some unlocked register of the right kind exists; the source aborts otherwise.
- JitAlloc.Allocator.PickReg: has no upper bound on the age of a register; the source compares with 2000000000.
- JitFloat.Allocator.AllocReg: loads only registers that have a value; the source marks an undefined one as clean, with whatever the native register held. ReadReg and FmovRr likewise.
- Events.Scheduler.DoCycles: takes it as a parameter whether a frame would end too early; the host's clock is left out.
- Cia.Timers.DoCycles: has cycle counters that do not wrap around; `CiaEvents.RunCycles` has the wrap-around and the other events.
- Events.Scheduler.RunCycles: takes it that handlers which make each other due at once stop doing so, by some measure of what is left; the loop of the source would not end otherwise.
- CiaEvents.AlwaysRight: takes it that the other handlers leave the timers alone; register writes are `Cia.Timers.WriteRegister`.
- JitRun.Translate: between its two conditions, where whether all bytes are valid depends on which registers were evicted, promises only that a block it calls exact is; it covers constants, moves, sums and differences, and, or, exclusive or, in every size, and forgetting. Shifts, extensions, multiplications, lea, instructions on native flags and those with memory operands are not among its operations; each is again a sequence of reads, writes and unlocks, some with cases of their own for constants.
- Audio.Paula.Handler: covers the playing states 2 and 3; starting, stopping and the states 0, 1 and 5 are left out.
- BlitMemory.BlitBits: is for places of D apart from those read and from each other; for any overlap there is `Blitter.BlitTrace`.
- JitBlocks.BlockManager.Compile: takes the lengths of the code it emits as parameters; what the code of a block does is `JitRun.Translate`.
- Blitter.Chip.DoFast: counts pointers and modulos in words and takes addresses modulo the size of chip memory; the values left in the A, B and C data registers differ between kernels and the generic loop and are not compared.
- X87.Emitter.FremRr: is for different registers only; the source gives up on equal ones.
- Cia.Timers.ReadTimers: is for moments at which a due event has been handled, as it always has when the processor reads.
- Akiko.HandoversAreRight: takes it that the contents of the disc do not change during a run.
- Native flags and their copy in FLAGTMP (flush_flags, make_flags_live), byte encodings, alignment, NOP filling and CPU detection.
- USE_MATCHSTATE code, which is compiled out, and freescratch, which only drops scratch registers.
- The cycle-exact blitter (CPUEMU_6), blitter slowdown, and line mode with fill.
- The time-of-day clocks, serial port data, and keyboard handshake of the CIAs.
- Audio output handlers, the sinc filter, and register writes to the audio channels.
- The Akiko chunky-to-planar converter, NVRAM, and the CD command protocol; the bytes of a delivered sector are encoded by `CdRom.EncodeL2` separately.
- Raw track analysis (isamigatrack) and the Catweasel hardware itself.
- Save states, configuration, graphics and the operating system interfaces: they would only add easy members.
