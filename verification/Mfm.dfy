// AmigaDOS tracks in MFM: the encoder, the decoder, and the proof that they undo each other.

module MfmBits {

  const SYNC: bv16 := 0x4489

  // ---- bits ----

  // The data bits of a long are every second bit; the others are clock bits.
  function Masked(x: bv32): bv32 { x & 0x5555_5555 }
  function Odd(x: bv32): bv32 { (x >> 1) & 0x5555_5555 }
  function Even(x: bv32): bv32 { x & 0x5555_5555 }
  function Join(odd: bv32, even: bv32): bv32 { (odd << 1) | even }
  function Half(x: bv32): bv32 { x >> 1 }
  function Mix(x: bv32, y: bv32): bv32 { x ^ y }

  function Hi(x: bv32): bv16 { (x >> 16) as bv16 }
  function Lo(x: bv32): bv16 { (x & 0xffff) as bv16 }
  function Pair(hi: bv16, lo: bv16): bv32 { ((hi as bv32) << 16) | (lo as bv32) }
  function Data16(w: bv16): bv16 { w & 0x5555 }

  // The clock bits of a word: set between two data bits that are zero.
  function Clock(last: bv16, v: bv16): bv16 {
    var nlv: bv32 := 0x5555_5555 & !(((last as bv32) << 16) | (v as bv32));
    (((nlv << 1) & (nlv >> 1)) & 0xffff) as bv16
  }

  // A word with its clock bits.
  function Coded(last: bv16, v: bv16): bv16 { v | Clock(last, v) }

  lemma JoinSplit(x: bv32)
    ensures Join(Odd(x), Even(x)) == x
  {
  }

  lemma OddIsData(x: bv32)
    ensures Masked(Odd(x)) == Odd(x)
  {
  }

  lemma EvenIsData(x: bv32)
    ensures Masked(Even(x)) == Even(x)
  {
  }

  lemma PairOf(x: bv32)
    ensures Pair(Hi(x), Lo(x)) == x
  {
  }

  // A long of data bits, moved by one, is all clock bits.
  lemma HalfIsClock(x: bv32)
    ensures Masked(Half(Masked(x))) == 0
  {
  }

  lemma JoinNone(x: bv32)
    ensures Join(0, x) == x
  {
  }

  lemma MaskedHi(h: bv16, l: bv16)
    ensures Hi(Masked(Pair(h, l))) == Data16(h)
  {
  }

  lemma MaskedLo(h: bv16, l: bv16)
    ensures Lo(Masked(Pair(h, l))) == Data16(l)
  {
  }

  lemma MaskedPair(h: bv16, l: bv16)
    ensures Masked(Pair(h, l)) == Pair(Data16(h), Data16(l))
  {
    hide Masked, Pair, Hi, Lo, Data16;
    PairOf(Masked(Pair(h, l)));
    MaskedHi(h, l);
    MaskedLo(h, l);
  }

  // Coding leaves the data bits as they are.
  lemma CodedKeepsData(last: bv16, v: bv16)
    ensures Data16(Coded(last, v)) == Data16(v)
  {
  }

  // Coding never makes a sync word: it has no clock bit between its data bits 6 and 4.
  lemma CodedIsNoSync(last: bv16, v: bv16)
    ensures Coded(last, v) != SYNC
  {
  }

  // Bit x of a word, counted from the one that comes first on the track.
  predicate Bit(w: bv16, x: nat)
    requires x < 16
  {
    match x
    case 0 => w & 0x8000 != 0
    case 1 => w & 0x4000 != 0
    case 2 => w & 0x2000 != 0
    case 3 => w & 0x1000 != 0
    case 4 => w & 0x0800 != 0
    case 5 => w & 0x0400 != 0
    case 6 => w & 0x0200 != 0
    case 7 => w & 0x0100 != 0
    case 8 => w & 0x0080 != 0
    case 9 => w & 0x0040 != 0
    case 10 => w & 0x0020 != 0
    case 11 => w & 0x0010 != 0
    case 12 => w & 0x0008 != 0
    case 13 => w & 0x0004 != 0
    case 14 => w & 0x0002 != 0
    case _ => w & 0x0001 != 0
  }

  // A clock bit that is not set is set if the data bits before and behind it are both zero.
  lemma ClockBit0(last: bv16, v: bv16)
    ensures Coded(last, v) & 0x8000 != 0 <==> v & 0x8000 != 0 || (last & 0x0001 == 0 && v & 0x4000 == 0)
  {
  }

  lemma ClockBit2(last: bv16, v: bv16)
    ensures Coded(last, v) & 0x2000 != 0 <==> v & 0x2000 != 0 || (v & 0x4000 == 0 && v & 0x1000 == 0)
  {
  }

  lemma ClockBit4(last: bv16, v: bv16)
    ensures Coded(last, v) & 0x0800 != 0 <==> v & 0x0800 != 0 || (v & 0x1000 == 0 && v & 0x0400 == 0)
  {
  }

  lemma ClockBit6(last: bv16, v: bv16)
    ensures Coded(last, v) & 0x0200 != 0 <==> v & 0x0200 != 0 || (v & 0x0400 == 0 && v & 0x0100 == 0)
  {
  }

  lemma ClockBit8(last: bv16, v: bv16)
    ensures Coded(last, v) & 0x0080 != 0 <==> v & 0x0080 != 0 || (v & 0x0100 == 0 && v & 0x0040 == 0)
  {
  }

  lemma ClockBit10(last: bv16, v: bv16)
    ensures Coded(last, v) & 0x0020 != 0 <==> v & 0x0020 != 0 || (v & 0x0040 == 0 && v & 0x0010 == 0)
  {
  }

  lemma ClockBit12(last: bv16, v: bv16)
    ensures Coded(last, v) & 0x0008 != 0 <==> v & 0x0008 != 0 || (v & 0x0010 == 0 && v & 0x0004 == 0)
  {
  }

  lemma ClockBit14(last: bv16, v: bv16)
    ensures Coded(last, v) & 0x0002 != 0 <==> v & 0x0002 != 0 || (v & 0x0004 == 0 && v & 0x0001 == 0)
  {
  }

  lemma DataBit1(last: bv16, v: bv16)
    ensures Coded(last, v) & 0x4000 == v & 0x4000
  {
  }

  lemma DataBit3(last: bv16, v: bv16)
    ensures Coded(last, v) & 0x1000 == v & 0x1000
  {
  }

  lemma DataBit5(last: bv16, v: bv16)
    ensures Coded(last, v) & 0x0400 == v & 0x0400
  {
  }

  lemma DataBit7(last: bv16, v: bv16)
    ensures Coded(last, v) & 0x0100 == v & 0x0100
  {
  }

  lemma DataBit9(last: bv16, v: bv16)
    ensures Coded(last, v) & 0x0040 == v & 0x0040
  {
  }

  lemma DataBit11(last: bv16, v: bv16)
    ensures Coded(last, v) & 0x0010 == v & 0x0010
  {
  }

  lemma DataBit13(last: bv16, v: bv16)
    ensures Coded(last, v) & 0x0004 == v & 0x0004
  {
  }

  lemma DataBit15(last: bv16, v: bv16)
    ensures Coded(last, v) & 0x0001 == v & 0x0001
  {
  }

  // Of the bits of a word every second one is a clock bit, the first included.
  lemma CodedBit(last: bv16, v: bv16, x: nat)
    requires x < 16
    ensures Bit(Coded(last, v), x)
      <==> Bit(v, x) || (x % 2 == 0 && !(if x == 0 then Bit(last, 15) else Bit(v, x - 1)) && !Bit(v, x + 1))
  {
    hide Coded;
    match x
    case 0 => ClockBit0(last, v);
    case 1 => DataBit1(last, v);
    case 2 => ClockBit2(last, v);
    case 3 => DataBit3(last, v);
    case 4 => ClockBit4(last, v);
    case 5 => DataBit5(last, v);
    case 6 => ClockBit6(last, v);
    case 7 => DataBit7(last, v);
    case 8 => ClockBit8(last, v);
    case 9 => DataBit9(last, v);
    case 10 => ClockBit10(last, v);
    case 11 => DataBit11(last, v);
    case 12 => ClockBit12(last, v);
    case 13 => DataBit13(last, v);
    case 14 => ClockBit14(last, v);
    case _ => DataBit15(last, v);
  }

  lemma FillerIsEmpty()
    ensures Masked(Pair(0xaaaa, 0xaaaa)) == 0 && Join(0, 0) == 0
  {
  }

  lemma MixCommutes(x: bv32, y: bv32)
    ensures Mix(x, y) == Mix(y, x)
  {
  }

  lemma MixAssociates(x: bv32, y: bv32, z: bv32)
    ensures Mix(Mix(x, y), z) == Mix(x, Mix(y, z))
  {
  }

  lemma MixTwice(x: bv32, y: bv32)
    ensures Mix(Mix(x, y), y) == x
  {
  }

  lemma MixSelf(x: bv32)
    ensures Mix(x, x) == 0
  {
  }

  lemma MixZero(x: bv32)
    ensures Mix(x, 0) == x && Mix(0, x) == x
  {
  }

  lemma MixIsData(x: bv32, y: bv32)
    ensures Masked(Mix(x, y)) == Mix(Masked(x), Masked(y))
  {
  }

  lemma MixCross(x: bv32, y: bv32, z: bv32, w: bv32)
    ensures Mix(Mix(x, y), Mix(z, w)) == Mix(Mix(x, z), Mix(y, w))
  {
    hide Mix;
    MixAssociates(Mix(x, y), z, w);
    MixAssociates(x, y, z);
    MixCommutes(y, z);
    MixAssociates(x, z, y);
    MixAssociates(Mix(x, z), y, w);
  }

  // ---- bytes ----

  function Long(b0: bv8, b1: bv8, b2: bv8, b3: bv8): bv32 {
    ((b0 as bv32) << 24) | ((b1 as bv32) << 16) | ((b2 as bv32) << 8) | (b3 as bv32)
  }

  function Byte0(x: bv32): bv8 { (x >> 24) as bv8 }
  function Byte1(x: bv32): bv8 { ((x >> 16) & 0xff) as bv8 }
  function Byte2(x: bv32): bv8 { ((x >> 8) & 0xff) as bv8 }
  function Byte3(x: bv32): bv8 { (x & 0xff) as bv8 }

  lemma BytesOf0(b0: bv8, b1: bv8, b2: bv8, b3: bv8)
    ensures Byte0(Long(b0, b1, b2, b3)) == b0
  {
  }

  lemma BytesOf1(b0: bv8, b1: bv8, b2: bv8, b3: bv8)
    ensures Byte1(Long(b0, b1, b2, b3)) == b1
  {
  }

  lemma BytesOf2(b0: bv8, b1: bv8, b2: bv8, b3: bv8)
    ensures Byte2(Long(b0, b1, b2, b3)) == b2
  {
  }

  lemma BytesOf3(b0: bv8, b1: bv8, b2: bv8, b3: bv8)
    ensures Byte3(Long(b0, b1, b2, b3)) == b3
  {
  }

  // The byte with value n.
  function ByteOf(n: nat): bv8
    requires n < 256
  {
    if n == 0 then 0 else ByteOf(n - 1) + 1
  }

  lemma Successor(b: bv8)
    requires b as int < 255
    ensures (b + 1) as int == b as int + 1
  {
  }

  lemma {:induction false} ByteOfBack(n: nat)
    requires n < 256
    ensures ByteOf(n) as int == n
  {
    if n > 0 {
      ByteOfBack(n - 1);
      Successor(ByteOf(n - 1));
    }
  }

  function Value(b: bv8): nat { b as int }

  // Truncation to a byte.
  function ToByte(x: int): bv8 { ByteOf(x % 256) }

  lemma ByteBack(x: int)
    ensures Value(ToByte(x)) == x % 256
  {
    ByteOfBack(x % 256);
  }
}

module Mfm {
  import opened MfmBits
  import opened Options

  const GAP := 360
  const SECTOR_WORDS := 544
  const SECTORS := 11

  // ---- what the encoder makes ----

  type SectorData = d: seq<bv8> | |d| == 512 witness seq(512, i => 0)

  function Info(track: int, sec: int, numSecs: int): bv32 {
    Long(0xff, ToByte(track), ToByte(sec), ToByte(numSecs - sec))
  }

  function LongOf(d: SectorData, i: nat): bv32
    requires i < 128
  {
    Long(d[4 * i], d[4 * i + 1], d[4 * i + 2], d[4 * i + 3])
  }

  // A sector in longs, before clock bits are added: filler, sync, info, label, two checksums
  // (which this leaves out) and data; odd bits come before even bits.
  function BodyLong(info: bv32, d: SectorData, j: nat): bv32
    requires j < 272
  {
    if j == 1 then Pair(SYNC, SYNC)
    else if j == 2 then Odd(info)
    else if j == 3 then Even(info)
    else if j < 16 then Pair(0xaaaa, 0xaaaa)
    else if j < 144 then Odd(LongOf(d, j - 16))
    else Even(LongOf(d, j - 144))
  }

  function Sum(info: bv32, d: SectorData, lo: nat, hi: nat): bv32
    requires lo <= hi <= 272
  {
    if lo == hi then 0 else Mix(Sum(info, d, lo, hi - 1), BodyLong(info, d, hi - 1))
  }

  function HeadSum(info: bv32, d: SectorData): bv32 { Sum(info, d, 2, 12) }
  function DataSum(info: bv32, d: SectorData): bv32 { Sum(info, d, 16, 272) }

  function RawLong(info: bv32, d: SectorData, j: nat): bv32
    requires j < 272
  {
    if j == 12 then Half(HeadSum(info, d))
    else if j == 13 then HeadSum(info, d)
    else if j == 14 then Half(DataSum(info, d))
    else if j == 15 then DataSum(info, d)
    else BodyLong(info, d, j)
  }

  function RawWord(info: bv32, d: SectorData, k: nat): bv16
    requires k < SECTOR_WORDS
  {
    if k % 2 == 0 then Hi(RawLong(info, d, k / 2)) else Lo(RawLong(info, d, k / 2))
  }

  function CodedWord(info: bv32, d: SectorData, k: nat): bv16
    requires k < SECTOR_WORDS
  {
    if k < 4 then RawWord(info, d, k)
    else Coded(if k == 4 then 0 else RawWord(info, d, k - 1), RawWord(info, d, k))
  }

  function DataOf(src: seq<bv8>, sec: nat): SectorData
    requires 512 * (sec + 1) <= |src|
  {
    src[512 * sec..512 * (sec + 1)]
  }

  // Word m of a whole track.
  function TrackWord(src: seq<bv8>, numSecs: nat, track: int, m: nat): bv16
    requires 512 * numSecs <= |src| && m < GAP + SECTOR_WORDS * numSecs
  {
    if m < GAP then 0xaaaa
    else
      var sec := (m - GAP) / SECTOR_WORDS;
      CodedWord(Info(track, sec, numSecs), DataOf(src, sec), (m - GAP) % SECTOR_WORDS)
  }

  ghost predicate HoldsTrack(s: seq<bv16>, src: seq<bv8>, numSecs: nat, track: int) {
    && |src| == 512 * numSecs && GAP + SECTOR_WORDS * numSecs <= |s|
    && forall m | 0 <= m < GAP + SECTOR_WORDS * numSecs :: s[m] == TrackWord(src, numSecs, track, m)
  }

  // ---- what the decoder reads ----

  // Nothing past the end of the buffer is a sync word.
  function Word(s: seq<bv16>, i: nat): bv16 { if i < |s| then s[i] else 0 }

  function GetMfmLong(s: seq<bv16>, i: nat): bv32 { Masked(Pair(Word(s, i), Word(s, i + 1))) }

  // The place behind the next sync word; None when the search runs into the end.
  function NextSync(s: seq<bv16>, p: nat, mend: int): Option<nat>
    decreases mend - p
  {
    if Word(s, p) == SYNC then Some(p + 1)
    else if p + 1 >= mend then None
    else NextSync(s, p + 1, mend)
  }

  lemma {:induction false} NextSyncMoves(s: seq<bv16>, p: nat, mend: int)
    ensures var r := NextSync(s, p, mend); r.Some? ==> p < r.value <= |s|
    decreases mend - p
  {
    if Word(s, p) != SYNC && p + 1 < mend { NextSyncMoves(s, p + 1, mend); }
  }

  // The place behind the next two sync words in a row.
  function FindSync(s: seq<bv16>, p: nat, mend: int): Option<nat>
    decreases |s| + 2 - p
  {
    NextSyncMoves(s, p, mend);
    match NextSync(s, p, mend)
    case None => None
    case Some(q) => if Word(s, q) == SYNC then Some(q + 1) else FindSync(s, q + 1, mend)
  }

  function OddEven(s: seq<bv16>, p: nat, gap: nat): bv32 { Mix(GetMfmLong(s, p), GetMfmLong(s, p + gap)) }

  function Joined(s: seq<bv16>, p: nat, gap: nat): bv32 { Join(GetMfmLong(s, p), GetMfmLong(s, p + gap)) }

  // The running checksum over n pairs of longs, `gap` words apart.
  function Running(s: seq<bv16>, p: nat, gap: nat, c: bv32, n: nat): bv32 {
    if n == 0 then c else Mix(Running(s, p, gap, c, n - 1), OddEven(s, p + 2 * (n - 1), gap))
  }

  function DataByte(s: seq<bv16>, p: nat, b: nat): bv8 {
    var x := Joined(s, p + 2 * (b / 4), 256);
    if b % 4 == 0 then Byte0(x) else if b % 4 == 1 then Byte1(x) else if b % 4 == 2 then Byte2(x) else Byte3(x)
  }

  function DataBytes(s: seq<bv16>, p: nat): SectorData { seq(512, b requires 0 <= b < 512 => DataByte(s, p, b)) }

  datatype Sector = Bad(ec: int) | Good(slot: nat, data: SectorData)

  function SlotOf(id: bv32): nat { Value(Byte2(id)) }
  function TrackOf(id: bv32): nat { Value(Byte1(id)) }

  // The sector whose info begins at p, or the error found first.
  function ReadSector(s: seq<bv16>, p: nat, track: int): (r: Sector)
    ensures r.Good? ==> r.slot < SECTORS
  {
    var id := Joined(s, p, 2);
    var head := Running(s, p + 4, 8, OddEven(s, p, 2), 4);
    if SlotOf(id) > 10 then Bad(2)
    else if exists i | 0 <= i < 4 :: Joined(s, p + 4 + 2 * i, 8) != 0 then Bad(6)
    else if Joined(s, p + 20, 2) != head then Bad(3)
    else if TrackOf(id) != track then Bad(7)
    else if Running(s, p + 28, 256, Joined(s, p + 24, 2), 128) != 0 then Bad(4)
    else Good(SlotOf(id), DataBytes(s, p + 28))
  }

  function Put(buffer: seq<bv8>, slot: nat, data: SectorData): (r: seq<bv8>)
    requires 512 * (slot + 1) <= |buffer|
    ensures |r| == |buffer|
  {
    buffer[..512 * slot] + data + buffer[512 * (slot + 1)..]
  }

  // Decoding sectors from p on until all have been seen; the result code and the buffer.
  function Decode(s: seq<bv16>, p: nat, mend: int, track: int, buffer: seq<bv8>, done: nat): (int, seq<bv8>)
    requires done <= SECTORS && |buffer| >= 512 * SECTORS
    decreases SECTORS - done
  {
    if done == SECTORS then (0, buffer)
    else
      match FindSync(s, p, mend)
      case None => (1, buffer)
      case Some(q) =>
        match ReadSector(s, q, track)
        case Bad(ec) => (ec, buffer)
        case Good(slot, data) => Decode(s, q + 540, mend, track, Put(buffer, slot, data), done + 1)
  }

  datatype Block = Block(slot: nat, data: SectorData)

  predicate InTrack(bs: seq<Block>) { forall i | 0 <= i < |bs| :: bs[i].slot < SECTORS }

  // All of them put in their slots, one after the other.
  function Puts(buffer: seq<bv8>, bs: seq<Block>): (r: seq<bv8>)
    requires InTrack(bs) && |buffer| >= 512 * SECTORS
    ensures |r| == |buffer|
    decreases |bs|
  {
    if bs == [] then buffer else Puts(Put(buffer, bs[0].slot, bs[0].data), bs[1..])
  }

  // The sectors that decoding reads, in the order in which it reads them.
  function Reads(s: seq<bv16>, p: nat, mend: int, track: int, done: nat): (bs: seq<Block>)
    requires done <= SECTORS
    ensures InTrack(bs)
    decreases SECTORS - done
  {
    if done == SECTORS then []
    else
      match FindSync(s, p, mend)
      case None => []
      case Some(q) =>
        match ReadSector(s, q, track)
        case Bad(_) => []
        case Good(slot, data) => [Block(slot, data)] + Reads(s, q + 540, mend, track, done + 1)
  }

  // ---- what result 0 means ----

  // The buffer holds what was read, whatever the result, which is 0 once eleven sectors have been read.
  lemma {:induction false} DecodeIsPuts(s: seq<bv16>, p: nat, mend: int, track: int, buffer: seq<bv8>, done: nat)
    requires done <= SECTORS && |buffer| >= 512 * SECTORS
    ensures Decode(s, p, mend, track, buffer, done).1 == Puts(buffer, Reads(s, p, mend, track, done))
    ensures |Reads(s, p, mend, track, done)| <= SECTORS - done
    ensures Decode(s, p, mend, track, buffer, done).0 == 0 <==> |Reads(s, p, mend, track, done)| == SECTORS - done
    decreases SECTORS - done
  {
    BadIsNotZero(s, p, mend, track);
    hide FindSync, ReadSector, Put;
    if done < SECTORS {
      match FindSync(s, p, mend)
      case None =>
      case Some(q) =>
        match ReadSector(s, q, track)
        case Bad(_) =>
        case Good(slot, data) =>
          var rest := Reads(s, q + 540, mend, track, done + 1);
          DecodeIsPuts(s, q + 540, mend, track, Put(buffer, slot, data), done + 1);
          assert ([Block(slot, data)] + rest)[1..] == rest;
    }
  }

  lemma BadIsNotZero(s: seq<bv16>, p: nat, mend: int, track: int)
    ensures var r := FindSync(s, p, mend); r.Some? && ReadSector(s, r.value, track).Bad? ==>
      ReadSector(s, r.value, track).ec != 0
  {
    hide FindSync, Running, Joined, OddEven, SlotOf, TrackOf, DataBytes;
  }

  lemma PutSlot(buffer: seq<bv8>, slot: nat, data: SectorData, k: nat)
    requires slot < SECTORS && k < SECTORS && |buffer| >= 512 * SECTORS
    ensures DataOf(Put(buffer, slot, data), k) == if k == slot then data else DataOf(buffer, k)
  {
    if k < slot {
      assert 512 * (k + 1) <= 512 * slot;
    } else if k > slot {
      assert 512 * (slot + 1) <= 512 * k;
    }
  }

  predicate Writes(bs: seq<Block>, k: nat) { exists i | 0 <= i < |bs| :: bs[i].slot == k }

  // A slot holds the last sector put there, and what it held before if there is none.
  lemma {:induction false} PutsSlot(buffer: seq<bv8>, bs: seq<Block>, k: nat)
    requires InTrack(bs) && k < SECTORS && |buffer| >= 512 * SECTORS
    ensures !Writes(bs, k) ==> DataOf(Puts(buffer, bs), k) == DataOf(buffer, k)
    ensures forall i | 0 <= i < |bs| && bs[i].slot == k && (forall j | i < j < |bs| :: bs[j].slot != k) ::
      DataOf(Puts(buffer, bs), k) == bs[i].data
    decreases |bs|
  {
    if bs != [] {
      hide Put, DataOf;
      var rest := bs[1..];
      PutSlot(buffer, bs[0].slot, bs[0].data, k);
      PutsSlot(Put(buffer, bs[0].slot, bs[0].data), rest, k);
      assert forall j | 0 <= j < |rest| :: rest[j] == bs[j + 1];
      assert Writes(bs, k) <==> bs[0].slot == k || Writes(rest, k);
      forall i | 0 <= i < |bs| && bs[i].slot == k && (forall j | i < j < |bs| :: bs[j].slot != k)
        ensures DataOf(Puts(buffer, bs), k) == bs[i].data
      {
        if i > 0 { assert rest[i - 1].slot == k; }
      }
    }
  }

  predicate Distinct(bs: seq<Block>) { forall i, j | 0 <= i < j < |bs| :: bs[i].slot != bs[j].slot }

  function SlotSet(bs: seq<Block>): set<nat> { set i | 0 <= i < |bs| :: bs[i].slot }

  // No more slots than sectors, and as many only if no slot comes twice.
  lemma {:induction false} Count(bs: seq<Block>)
    ensures |SlotSet(bs)| <= |bs| && (|SlotSet(bs)| == |bs| <==> Distinct(bs))
  {
    if bs != [] {
      var n := |bs| - 1;
      var less := bs[..n];
      Count(less);
      assert forall i | 0 <= i < n :: less[i] == bs[i];
      assert SlotSet(bs) == SlotSet(less) + {bs[n].slot};
      assert bs[n].slot in SlotSet(less) <==> exists i :: 0 <= i < n && bs[i].slot == bs[n].slot;
    }
  }

  lemma {:induction false} Below(xs: set<nat>, n: nat)
    requires forall x | x in xs :: x < n
    ensures |xs| <= n && (|xs| == n <==> forall x: nat | x < n :: x in xs)
  {
    if n > 0 {
      Below(xs - {n - 1}, n - 1);
    } else {
      assert xs == {};
    }
  }

  lemma AllWritten(bs: seq<Block>)
    requires InTrack(bs) && |bs| == SECTORS
    ensures (forall k: nat | k < SECTORS :: Writes(bs, k)) <==> Distinct(bs)
  {
    Count(bs);
    Below(SlotSet(bs), SECTORS);
    assert forall k: nat :: k in SlotSet(bs) <==> Writes(bs, k);
  }

  // Result 0 means that eleven sectors have been read. Every slot has been written if and only if their
  // numbers are all different; a slot that none of them has keeps what the buffer held before.
  lemma WhatZeroMeans(s: seq<bv16>, mend: int, track: int, buffer: seq<bv8>)
    requires |buffer| >= 512 * SECTORS && Decode(s, 0, mend, track, buffer, 0).0 == 0
    ensures var bs, r := Reads(s, 0, mend, track, 0), Decode(s, 0, mend, track, buffer, 0).1;
      && |bs| == SECTORS && |r| == |buffer|
      && ((forall k: nat | k < SECTORS :: Writes(bs, k)) <==> Distinct(bs))
      && (forall k: nat | k < SECTORS && !Writes(bs, k) :: DataOf(r, k) == DataOf(buffer, k))
      && (Distinct(bs) ==> forall i | 0 <= i < |bs| :: DataOf(r, bs[i].slot) == bs[i].data)
  {
    hide Decode, Reads, Puts, DataOf, Writes;
    var bs := Reads(s, 0, mend, track, 0);
    DecodeIsPuts(s, 0, mend, track, buffer, 0);
    AllWritten(bs);
    forall k: nat | k < SECTORS
      ensures !Writes(bs, k) ==> DataOf(Puts(buffer, bs), k) == DataOf(buffer, k)
    {
      PutsSlot(buffer, bs, k);
    }
    if Distinct(bs) {
      forall i | 0 <= i < |bs|
        ensures DataOf(Puts(buffer, bs), bs[i].slot) == bs[i].data
      {
        PutsSlot(buffer, bs, bs[i].slot);
      }
    }
  }

  // ---- decoding what was encoded ----

  // The sector with this info and data begins at base.
  ghost predicate SectorAt(s: seq<bv16>, base: nat, info: bv32, d: SectorData) {
    forall k | 0 <= k < SECTOR_WORDS :: Word(s, base + k) == CodedWord(info, d, k)
  }

  lemma CodedData(info: bv32, d: SectorData, k: nat)
    requires 4 <= k < SECTOR_WORDS
    ensures Data16(CodedWord(info, d, k)) == Data16(RawWord(info, d, k))
  {
    hide RawWord, Coded, Data16;
    CodedKeepsData(if k == 4 then 0 else RawWord(info, d, k - 1), RawWord(info, d, k));
  }

  // What the decoder reads in place of a long are its data bits.
  lemma LongRead(s: seq<bv16>, base: nat, info: bv32, d: SectorData, j: nat)
    requires SectorAt(s, base, info, d) && 2 <= j < 272
    ensures GetMfmLong(s, base + 2 * j) == Masked(RawLong(info, d, j))
  {
    hide Masked, Data16, Pair, Hi, Lo, RawLong, CodedWord, Word;
    CodedData(info, d, 2 * j);
    CodedData(info, d, 2 * j + 1);
    assert Word(s, base + (2 * j)) == CodedWord(info, d, 2 * j);
    assert Word(s, base + (2 * j + 1)) == CodedWord(info, d, 2 * j + 1);
    assert (2 * j) % 2 == 0 && (2 * j) / 2 == j && (2 * j + 1) % 2 == 1 && (2 * j + 1) / 2 == j;
    var x := RawLong(info, d, j);
    assert RawWord(info, d, 2 * j) == Hi(x) && RawWord(info, d, 2 * j + 1) == Lo(x);
    hide RawWord;
    MaskedPair(Word(s, base + 2 * j), Word(s, base + 2 * j + 1));
    MaskedPair(Hi(x), Lo(x));
    PairOf(x);
  }

  lemma {:induction false} SumSplit(info: bv32, d: SectorData, lo: nat, mid: nat, hi: nat)
    requires lo <= mid <= hi <= 272
    ensures Sum(info, d, lo, hi) == Mix(Sum(info, d, lo, mid), Sum(info, d, mid, hi))
  {
    hide Mix, BodyLong;
    if mid == hi {
      MixZero(Sum(info, d, lo, hi));
    } else {
      SumSplit(info, d, lo, mid, hi - 1);
      MixAssociates(Sum(info, d, lo, mid), Sum(info, d, mid, hi - 1), BodyLong(info, d, hi - 1));
    }
  }

  lemma SumTwo(info: bv32, d: SectorData, lo: nat, hi: nat)
    requires lo + 2 <= hi <= 272
    ensures Sum(info, d, lo, hi) == Mix(Mix(Sum(info, d, lo, hi - 2), BodyLong(info, d, hi - 2)),
                                        BodyLong(info, d, hi - 1))
  {
    hide Mix, BodyLong;
    assert Sum(info, d, lo, hi - 1) == Mix(Sum(info, d, lo, hi - 2), BodyLong(info, d, hi - 2));
  }

  // The fillers of the label cancel out.
  lemma HeadSumIs(info: bv32, d: SectorData)
    ensures HeadSum(info, d) == Mix(Odd(info), Even(info))
  {
    hide Mix, Pair, Odd, Even, Sum;
    SumTwo(info, d, 2, 12);
    SumTwo(info, d, 2, 10);
    SumTwo(info, d, 2, 8);
    SumTwo(info, d, 2, 6);
    SumTwo(info, d, 2, 4);
    SumNone(info, d, 2);
    var f := Pair(0xaaaa, 0xaaaa);
    MixTwice(Sum(info, d, 2, 10), f);
    MixTwice(Sum(info, d, 2, 8), f);
    MixTwice(Sum(info, d, 2, 6), f);
    MixTwice(Sum(info, d, 2, 4), f);
    MixZero(Odd(info));
  }

  lemma SumNone(info: bv32, d: SectorData, lo: nat)
    requires lo <= 272
    ensures Sum(info, d, lo, lo) == 0
  {
  }

  lemma HeadSumIsData(info: bv32, d: SectorData)
    ensures Masked(HeadSum(info, d)) == HeadSum(info, d)
  {
    hide Mix, Odd, Even, Masked, HeadSum;
    HeadSumIs(info, d);
    OddIsData(info);
    EvenIsData(info);
    MixIsData(Odd(info), Even(info));
  }

  lemma {:induction false} SumIsData(info: bv32, d: SectorData, lo: nat, hi: nat)
    requires 16 <= lo <= hi <= 272
    ensures Masked(Sum(info, d, lo, hi)) == Sum(info, d, lo, hi)
  {
    hide Mix, Odd, Even, Masked, LongOf;
    if lo < hi {
      SumIsData(info, d, lo, hi - 1);
      var j := hi - 1;
      if j < 144 { OddIsData(LongOf(d, j - 16)); } else { EvenIsData(LongOf(d, j - 144)); }
      MixIsData(Sum(info, d, lo, j), BodyLong(info, d, j));
    } else {
      ZeroIsData();
    }
  }

  lemma ZeroIsData()
    ensures Masked(0) == 0
  {
  }

  lemma InfoRead(s: seq<bv16>, base: nat, info: bv32, d: SectorData)
    requires SectorAt(s, base, info, d)
    ensures Joined(s, base + 4, 2) == info && OddEven(s, base + 4, 2) == Mix(Odd(info), Even(info))
  {
    hide SectorAt, GetMfmLong, Masked, Odd, Even, Join, Mix;
    LongRead(s, base, info, d, 2);
    LongRead(s, base, info, d, 3);
    OddIsData(info);
    EvenIsData(info);
    JoinSplit(info);
  }

  lemma LabelRead(s: seq<bv16>, base: nat, info: bv32, d: SectorData, i: nat)
    requires SectorAt(s, base, info, d) && i < 4
    ensures Joined(s, base + 8 + 2 * i, 8) == 0 && OddEven(s, base + 8 + 2 * i, 8) == 0
  {
    hide SectorAt, GetMfmLong, Masked, Join, Mix, Pair;
    LongRead(s, base, info, d, 4 + i);
    LongRead(s, base, info, d, 8 + i);
    FillerIsEmpty();
    MixZero(0);
  }

  lemma {:induction false} HeadRunning(s: seq<bv16>, base: nat, info: bv32, d: SectorData, n: nat)
    requires SectorAt(s, base, info, d) && n <= 4
    ensures Running(s, base + 8, 8, HeadSum(info, d), n) == HeadSum(info, d)
  {
    hide SectorAt, OddEven, Mix, HeadSum;
    if n > 0 {
      HeadRunning(s, base, info, d, n - 1);
      LabelRead(s, base, info, d, n - 1);
      MixZero(HeadSum(info, d));
    }
  }

  lemma ChecksRead(s: seq<bv16>, base: nat, info: bv32, d: SectorData)
    requires SectorAt(s, base, info, d)
    ensures Joined(s, base + 24, 2) == HeadSum(info, d) && Joined(s, base + 28, 2) == DataSum(info, d)
  {
    hide SectorAt, GetMfmLong, Masked, Join, Half, HeadSum, Sum;
    LongRead(s, base, info, d, 12);
    LongRead(s, base, info, d, 13);
    LongRead(s, base, info, d, 14);
    LongRead(s, base, info, d, 15);
    HeadSumIsData(info, d);
    SumIsData(info, d, 16, 272);
    HalfIsClock(HeadSum(info, d));
    HalfIsClock(DataSum(info, d));
    JoinNone(HeadSum(info, d));
    JoinNone(DataSum(info, d));
  }

  lemma DataRead(s: seq<bv16>, base: nat, info: bv32, d: SectorData, i: nat)
    requires SectorAt(s, base, info, d) && i < 128
    ensures Joined(s, base + 32 + 2 * i, 256) == LongOf(d, i)
    ensures OddEven(s, base + 32 + 2 * i, 256) == Mix(BodyLong(info, d, 16 + i), BodyLong(info, d, 144 + i))
  {
    hide SectorAt, GetMfmLong, Masked, Join, Odd, Even, Mix, LongOf;
    LongRead(s, base, info, d, 16 + i);
    LongRead(s, base, info, d, 144 + i);
    OddIsData(LongOf(d, i));
    EvenIsData(LongOf(d, i));
    JoinSplit(LongOf(d, i));
  }

  lemma {:induction false} DataRunning(s: seq<bv16>, base: nat, info: bv32, d: SectorData, c: bv32, n: nat)
    requires SectorAt(s, base, info, d) && n <= 128
    ensures Running(s, base + 32, 256, c, n) == Mix(c, Mix(Sum(info, d, 16, 16 + n), Sum(info, d, 144, 144 + n)))
  {
    hide SectorAt, OddEven, Mix, BodyLong;
    if n == 0 {
      MixZero(0);
      MixZero(c);
    } else {
      DataRunning(s, base, info, d, c, n - 1);
      DataRead(s, base, info, d, n - 1);
      var x, y := Sum(info, d, 16, 16 + n - 1), Sum(info, d, 144, 144 + n - 1);
      var u, v := BodyLong(info, d, 16 + n - 1), BodyLong(info, d, 144 + n - 1);
      MixAssociates(c, Mix(x, y), Mix(u, v));
      MixCross(x, y, u, v);
    }
  }

  lemma DataByteRead(s: seq<bv16>, base: nat, info: bv32, d: SectorData, b: nat)
    requires SectorAt(s, base, info, d) && b < 512
    ensures DataByte(s, base + 32, b) == d[b]
  {
    hide SectorAt, Joined, Byte0, Byte1, Byte2, Byte3, Long;
    var i := b / 4;
    DataRead(s, base, info, d, i);
    BytesOf0(d[4 * i], d[4 * i + 1], d[4 * i + 2], d[4 * i + 3]);
    BytesOf1(d[4 * i], d[4 * i + 1], d[4 * i + 2], d[4 * i + 3]);
    BytesOf2(d[4 * i], d[4 * i + 1], d[4 * i + 2], d[4 * i + 3]);
    BytesOf3(d[4 * i], d[4 * i + 1], d[4 * i + 2], d[4 * i + 3]);
    assert b == 4 * i + b % 4;
  }

  lemma InfoParts(track: int, sec: nat, numSecs: int)
    requires sec < 256
    ensures SlotOf(Info(track, sec, numSecs)) == sec && TrackOf(Info(track, sec, numSecs)) == track % 256
  {
    hide SlotOf, TrackOf, Info;
    InfoSlot(track, sec, numSecs);
    InfoTrack(track, sec, numSecs);
  }

  lemma InfoSlot(track: int, sec: nat, numSecs: int)
    requires sec < 256
    ensures SlotOf(Info(track, sec, numSecs)) == sec
  {
    hide Long, Byte2, ToByte, Value;
    BytesOf2(0xff, ToByte(track), ToByte(sec), ToByte(numSecs - sec));
    ByteBack(sec);
  }

  lemma InfoTrack(track: int, sec: nat, numSecs: int)
    ensures TrackOf(Info(track, sec, numSecs)) == track % 256
  {
    hide Long, Byte1, ToByte, Value;
    BytesOf1(0xff, ToByte(track), ToByte(sec), ToByte(numSecs - sec));
    ByteBack(track);
  }

  // A sector that was encoded for `track` is read back, or refused where the track does not fit a byte.
  lemma SectorRead(s: seq<bv16>, base: nat, track: int, sec: nat, numSecs: int, d: SectorData)
    requires sec < SECTORS && SectorAt(s, base, Info(track, sec, numSecs), d)
    ensures ReadSector(s, base + 4, track) == if 0 <= track <= 255 then Good(sec, d) else Bad(7)
  {
    var info := Info(track, sec, numSecs);
    hide SectorAt, OddEven, Joined, Mix, Info, SlotOf, TrackOf, HeadSum, DataSum, Running, DataBytes;
    InfoRead(s, base, info, d);
    InfoParts(track, sec, numSecs);
    HeadSumIs(info, d);
    forall i | 0 <= i < 4
      ensures Joined(s, base + 4 + 4 + 2 * i, 8) == 0
    {
      LabelRead(s, base, info, d, i);
    }
    HeadRunning(s, base, info, d, 4);
    ChecksRead(s, base, info, d);
    DataChecks(s, base, info, d);
    DataBack(s, base, info, d);
  }

  lemma DataChecks(s: seq<bv16>, base: nat, info: bv32, d: SectorData)
    requires SectorAt(s, base, info, d)
    ensures Running(s, base + 32, 256, DataSum(info, d), 128) == 0
  {
    hide SectorAt, Mix, Running, Sum;
    DataRunning(s, base, info, d, DataSum(info, d), 128);
    SumSplit(info, d, 16, 144, 272);
    MixSelf(DataSum(info, d));
  }

  lemma DataBack(s: seq<bv16>, base: nat, info: bv32, d: SectorData)
    requires SectorAt(s, base, info, d)
    ensures DataBytes(s, base + 32) == d
  {
    hide SectorAt, DataByte;
    forall b | 0 <= b < 512
      ensures DataByte(s, base + 32, b) == d[b]
    {
      DataByteRead(s, base, info, d, b);
    }
  }

  lemma {:induction false} SyncFound(s: seq<bv16>, p: nat, t: nat, mend: int)
    requires p <= t < mend && Word(s, t) == SYNC && forall m | p <= m < t :: Word(s, m) != SYNC
    ensures NextSync(s, p, mend) == Some(t + 1)
    decreases t - p
  {
    if p < t { SyncFound(s, p + 1, t, mend); }
  }

  // Sectors of any numbers in any order, one after the other behind the gap.
  ghost predicate HoldsSectors(s: seq<bv16>, bs: seq<Block>, track: int) {
    && InTrack(bs) && (forall m | 0 <= m < GAP :: Word(s, m) == 0xaaaa)
    && forall i | 0 <= i < |bs| :: SectorAt(s, GAP + SECTOR_WORDS * i, Info(track, bs[i].slot, SECTORS), bs[i].data)
  }

  // Sync words stand at the beginning of each sector and nowhere else.
  lemma OnlySyncs(s: seq<bv16>, bs: seq<Block>, track: int, m: nat)
    requires HoldsSectors(s, bs, track) && m < GAP + SECTOR_WORDS * |bs|
    ensures Word(s, m) == 0x4489 <==> m >= 360 && (m - 360) % 544 in {2, 3}
  {
    hide Coded, Hi, Lo, Pair, Info, Word;
    if m >= GAP {
      var k, i := (m - GAP) % SECTOR_WORDS, (m - GAP) / SECTOR_WORDS;
      var info, d := Info(track, bs[i].slot, SECTORS), bs[i].data;
      assert Word(s, GAP + SECTOR_WORDS * i + k) == CodedWord(info, d, k);
      if k >= 4 {
        hide RawWord;
        CodedIsNoSync(if k == 4 then 0 else RawWord(info, d, k - 1), RawWord(info, d, k));
      } else {
        FirstWords(info, d, k);
      }
    }
  }

  lemma FirstWords(info: bv32, d: SectorData, k: nat)
    requires k < 4
    ensures RawWord(info, d, k) == if k < 2 then 0xaaaa else SYNC
  {
    hide Hi, Lo, Pair;
    PairParts(0xaaaa, 0xaaaa);
    PairParts(SYNC, SYNC);
  }

  lemma PairParts(h: bv16, l: bv16)
    ensures Hi(Pair(h, l)) == h && Lo(Pair(h, l)) == l
  {
  }

  lemma TrackHasSector(s: seq<bv16>, src: seq<bv8>, numSecs: nat, track: int, sec: nat)
    requires HoldsTrack(s, src, numSecs, track) && sec < numSecs
    ensures 512 * (sec + 1) <= |src|
      && SectorAt(s, GAP + SECTOR_WORDS * sec, Info(track, sec, numSecs), DataOf(src, sec))
  {
    hide CodedWord, Info, DataOf;
    forall k | 0 <= k < SECTOR_WORDS
      ensures Word(s, GAP + SECTOR_WORDS * sec + k) == CodedWord(Info(track, sec, numSecs), DataOf(src, sec), k)
    {
      var m := GAP + SECTOR_WORDS * sec + k;
      assert (m - GAP) / SECTOR_WORDS == sec && (m - GAP) % SECTOR_WORDS == k;
      assert s[m] == TrackWord(src, numSecs, track, m);
    }
  }

  // The sync of a sector is found from the end of the one before it, or from the beginning.
  lemma SectorFound(s: seq<bv16>, bs: seq<Block>, track: int, i: nat, mend: int)
    requires HoldsSectors(s, bs, track) && i < |bs| && mend >= GAP + SECTOR_WORDS * i + 4
    ensures FindSync(s, if i == 0 then 0 else GAP + SECTOR_WORDS * i, mend) == Some(GAP + SECTOR_WORDS * i + 4)
  {
    hide Info, Word;
    var base := GAP + SECTOR_WORDS * i;
    var p := if i == 0 then 0 else base;
    forall m | 0 <= m < GAP + SECTOR_WORDS * |bs|
      ensures Word(s, m) == SYNC <==> m >= GAP && (m - GAP) % SECTOR_WORDS in {2, 3}
    {
      OnlySyncs(s, bs, track, m);
    }
    hide HoldsSectors;
    SyncFound(s, p, base + 2, mend);
  }

  // For every buffer, every track and all sectors in any order: the decoder puts the first eleven in
  // their slots, exactly where the track number fits a byte; otherwise it refuses the first one.
  lemma {:induction false} AnyOrder(s: seq<bv16>, bs: seq<Block>, track: int, mend: int, buffer: seq<bv8>, done: nat)
    requires HoldsSectors(s, bs, track) && |bs| >= SECTORS && mend >= GAP + SECTOR_WORDS * SECTORS - 540
    requires done <= SECTORS && |buffer| >= 512 * SECTORS
    ensures InTrack(bs[done..SECTORS])
    ensures Decode(s, if done == 0 then 0 else GAP + SECTOR_WORDS * done, mend, track, buffer, done)
         == if done == SECTORS || 0 <= track <= 255 then (0, Puts(buffer, bs[done..SECTORS])) else (7, buffer)
    decreases SECTORS - done
  {
    hide ReadSector, FindSync, Info, SectorAt, Put, Word;
    if done < SECTORS {
      SectorFound(s, bs, track, done, mend);
      SectorRead(s, GAP + SECTOR_WORDS * done, track, bs[done].slot, SECTORS, bs[done].data);
      if 0 <= track <= 255 {
        AnyOrder(s, bs, track, mend, Put(buffer, bs[done].slot, bs[done].data), done + 1);
        assert bs[done..SECTORS][1..] == bs[done + 1..SECTORS];
      }
    }
  }

  // A track that holds sector 0 eleven times is accepted, and ten of its slots are not written.
  lemma SameSectorEleven(s: seq<bv16>, d: SectorData, track: int, mend: int, buffer: seq<bv8>)
    requires HoldsSectors(s, seq(SECTORS, i => Block(0, d)), track) && mend >= GAP + SECTOR_WORDS * SECTORS - 540
    requires 0 <= track <= 255 && |buffer| >= 512 * SECTORS
    ensures Decode(s, 0, mend, track, buffer, 0) == (0, d + buffer[512..])
  {
    hide HoldsSectors, Decode;
    var bs := seq(SECTORS, i => Block(0, d));
    AnyOrder(s, bs, track, mend, buffer, 0);
    assert bs[0..SECTORS] == bs;
    PutsSame(buffer, d, bs);
  }

  lemma {:induction false} PutsSame(buffer: seq<bv8>, d: SectorData, bs: seq<Block>)
    requires bs != [] && |buffer| >= 512 * SECTORS && forall i | 0 <= i < |bs| :: bs[i] == Block(0, d)
    ensures InTrack(bs) && Puts(buffer, bs) == d + buffer[512..]
    decreases |bs|
  {
    var next := Put(buffer, 0, d);
    assert next == d + buffer[512..];
    if |bs| > 1 {
      PutsSame(next, d, bs[1..]);
    } else {
      assert bs[1..] == [];
    }
  }

  // What the encoder makes is one such track.
  function InOrder(src: seq<bv8>): (bs: seq<Block>)
    requires |src| == 512 * SECTORS
    ensures InTrack(bs)
  {
    seq(SECTORS, i requires 0 <= i < SECTORS => Block(i, DataOf(src, i)))
  }

  lemma TrackSectors(s: seq<bv16>, src: seq<bv8>, track: int)
    requires HoldsTrack(s, src, SECTORS, track)
    ensures |src| == 512 * SECTORS && HoldsSectors(s, InOrder(src), track)
  {
    hide CodedWord, Info, DataOf, SectorAt;
    forall m | 0 <= m < GAP
      ensures Word(s, m) == 0xaaaa
    {
      assert s[m] == TrackWord(src, SECTORS, track, m);
    }
    forall i | 0 <= i < SECTORS
      ensures SectorAt(s, GAP + SECTOR_WORDS * i, Info(track, i, SECTORS), DataOf(src, i))
    {
      TrackHasSector(s, src, SECTORS, track, i);
    }
  }

  // All slots together are the source again.
  lemma InOrderIsAll(buffer: seq<bv8>, src: seq<bv8>)
    requires |src| == 512 * SECTORS && |buffer| >= 512 * SECTORS
    ensures Puts(buffer, InOrder(src)) == src + buffer[512 * SECTORS..]
  {
    InOrderFrom(buffer, src, 0);
    assert InOrder(src)[0..] == InOrder(src);
    assert src[..0] + src[0..] == src;
  }

  lemma {:induction false} InOrderFrom(buffer: seq<bv8>, src: seq<bv8>, k: nat)
    requires |src| == 512 * SECTORS && |buffer| >= 512 * SECTORS && k <= SECTORS
    ensures InTrack(InOrder(src)[k..])
    ensures Puts(buffer, InOrder(src)[k..]) == buffer[..512 * k] + src[512 * k..] + buffer[512 * SECTORS..]
    decreases SECTORS - k
  {
    var bs := InOrder(src)[k..];
    if k < SECTORS {
      assert bs[0] == Block(k, DataOf(src, k)) && bs[1..] == InOrder(src)[k + 1..];
      var next := Put(buffer, k, DataOf(src, k));
      InOrderFrom(next, src, k + 1);
      assert next[..512 * (k + 1)] == buffer[..512 * k] + src[512 * k..512 * (k + 1)];
      assert next[512 * SECTORS..] == buffer[512 * SECTORS..];
    }
  }

  // For every buffer and every track: the decoder gives back what was encoded, exactly where the
  // track number fits a byte; otherwise it refuses the first sector.
  lemma RoundTrip(s: seq<bv16>, src: seq<bv8>, track: int, mend: int, buffer: seq<bv8>)
    requires HoldsTrack(s, src, SECTORS, track) && mend >= GAP + SECTOR_WORDS * SECTORS - 540
    requires |buffer| >= 512 * SECTORS
    ensures Decode(s, 0, mend, track, buffer, 0)
      == if 0 <= track <= 255 then (0, src + buffer[512 * SECTORS..]) else (7, buffer)
  {
    hide HoldsTrack, HoldsSectors, Decode;
    TrackSectors(s, src, track);
    AnyOrder(s, InOrder(src), track, mend, buffer, 0);
    assert InOrder(src)[0..SECTORS] == InOrder(src);
    InOrderIsAll(buffer, src);
  }

  // The track survives the round trip if and only if its number fits a byte.
  lemma RoundTripIff(s: seq<bv16>, src: seq<bv8>, track: int, mend: int, buffer: seq<bv8>)
    requires HoldsTrack(s, src, SECTORS, track) && mend >= GAP + SECTOR_WORDS * SECTORS - 540
    requires |buffer| >= 512 * SECTORS
    ensures Decode(s, 0, mend, track, buffer, 0).0 == 0 <==> 0 <= track <= 255
  {
    hide Decode, HoldsTrack;
    RoundTrip(s, src, track, mend, buffer);
  }

  // ---- the encoder ----

  ghost predicate LongIn(t: seq<bv16>, at: nat, j: nat, x: bv32) {
    at + 2 * j + 1 < |t| && t[at + 2 * j] == Hi(x) && t[at + 2 * j + 1] == Lo(x)
  }

  method PutLong(dst: array<bv16>, p: nat, x: bv32)
    requires p + 1 < dst.Length
    modifies dst
    ensures dst[..] == old(dst[..])[p := Hi(x)][p + 1 := Lo(x)]
  {
    dst[p] := (x >> 16) as bv16;
    dst[p + 1] := (x & 0xffff) as bv16;
  }

  method PutSplit(dst: array<bv16>, p: nat, gap: nat, x: bv32)
    requires p + gap + 1 < dst.Length && gap >= 2
    modifies dst
    ensures dst[..] == old(dst[..])[p := Hi(Odd(x))][p + 1 := Lo(Odd(x))]
                       [p + gap := Hi(Even(x))][p + gap + 1 := Lo(Even(x))]
  {
    hide Hi, Lo, Odd, Even;
    PutLong(dst, p, Odd(x));
    PutLong(dst, p + gap, Even(x));
  }

  // A checksum is stored twice, once moved by one; it has no clock bits to mask.
  method PutCheck(dst: array<bv16>, p: nat, x: bv32)
    requires p + 3 < dst.Length
    modifies dst
    ensures dst[..] == old(dst[..])[p := Hi(Half(x))][p + 1 := Lo(Half(x))][p + 2 := Hi(x)][p + 3 := Lo(x)]
  {
    hide Hi, Lo, Half;
    PutLong(dst, p, Half(x));
    PutLong(dst, p + 2, x);
  }

  method FillWords(dst: array<bv16>, lo: nat, hi: nat, v: bv16)
    requires lo <= hi <= dst.Length
    modifies dst
    ensures forall k | lo <= k < hi :: dst[k] == v
    ensures forall k | 0 <= k < dst.Length && !(lo <= k < hi) :: dst[k] == old(dst[k])
  {
    var k := lo;
    while k < hi
      invariant lo <= k <= hi
      invariant forall m | lo <= m < k :: dst[m] == v
      invariant forall m | 0 <= m < dst.Length && !(lo <= m < k) :: dst[m] == old(dst[m])
    {
      dst[k] := v;
      k := k + 1;
    }
  }

  ghost predicate BodyIn(t: seq<bv16>, at: nat, info: bv32, d: SectorData, n: nat)
    requires n <= 128
  {
    forall j | 0 <= j < 16 + n || 144 <= j < 144 + n :: LongIn(t, at, j, BodyLong(info, d, j))
  }

  ghost predicate SameOutside(t: seq<bv16>, s: seq<bv16>, at: nat) {
    |t| == |s| && forall k | 0 <= k < |s| && !(at <= k < at + SECTOR_WORDS) :: t[k] == s[k]
  }

  // Sync, info and label.
  method PutHead(dst: array<bv16>, at: nat, info: bv32, ghost d: SectorData)
    requires at + SECTOR_WORDS <= dst.Length
    modifies dst
    ensures BodyIn(dst[..], at, info, d, 0) && SameOutside(dst[..], old(dst[..]), at)
  {
    hide Hi, Lo, Pair, Odd, Even;
    PairParts(0xaaaa, 0xaaaa);
    PairParts(SYNC, SYNC);
    dst[at], dst[at + 1] := 0xaaaa, 0xaaaa;
    dst[at + 2], dst[at + 3] := SYNC, SYNC;
    PutSplit(dst, at + 4, 2, info);
    ghost var t := dst[..];
    FillWords(dst, at + 8, at + 48, 0xaaaa);
    HeadDone(t, dst[..], at, info, d);
  }

  lemma HeadDone(t: seq<bv16>, u: seq<bv16>, at: nat, info: bv32, d: SectorData)
    requires |t| == |u| && at + SECTOR_WORDS <= |t|
    requires t[at] == t[at + 1] == 0xaaaa && t[at + 2] == t[at + 3] == SYNC
    requires t[at + 4] == Hi(Odd(info)) && t[at + 5] == Lo(Odd(info)) && t[at + 6] == Hi(Even(info))
      && t[at + 7] == Lo(Even(info))
    requires forall k | at + 8 <= k < at + 48 :: u[k] == 0xaaaa
    requires forall k | 0 <= k < |t| && !(at + 8 <= k < at + 48) :: u[k] == t[k]
    ensures BodyIn(u, at, info, d, 0)
  {
    hide Hi, Lo, Pair, Odd, Even;
    PairParts(0xaaaa, 0xaaaa);
    PairParts(SYNC, SYNC);
  }

  lemma PutStep(t: seq<bv16>, u: seq<bv16>, at: nat, info: bv32, d: SectorData, n: nat, n1: nat)
    requires at + SECTOR_WORDS <= |t| && n < 128 && n1 == n + 1 && BodyIn(t, at, info, d, n)
    requires var x, p := LongOf(d, n), at + 32 + 2 * n;
      u == t[p := Hi(Odd(x))][p + 1 := Lo(Odd(x))][p + 256 := Hi(Even(x))][p + 257 := Lo(Even(x))]
    ensures BodyIn(u, at, info, d, n1) && SameOutside(u, t, at)
  {
    hide Hi, Lo, Odd, Even, LongOf;
    forall j | 0 <= j < 16 + n1 || 144 <= j < 144 + n1
      ensures LongIn(u, at, j, BodyLong(info, d, j))
    {
      if j != 16 + n && j != 144 + n { assert LongIn(t, at, j, BodyLong(info, d, j)); }
    }
  }

  method PutData(src: array<bv8>, dst: array<bv16>, at: nat, sec: nat, ghost info: bv32)
    requires 512 * (sec + 1) <= src.Length && at + SECTOR_WORDS <= dst.Length
    requires BodyIn(dst[..], at, info, DataOf(src[..], sec), 0)
    modifies dst
    ensures BodyIn(dst[..], at, info, DataOf(src[..], sec), 128) && SameOutside(dst[..], old(dst[..]), at)
  {
    hide BodyIn, Odd, Even, Hi, Lo, Long;
    ghost var d := DataOf(src[..], sec);
    var i := 0;
    while i < 512
      invariant 0 <= i <= 512 && i % 4 == 0
      invariant BodyIn(dst[..], at, info, d, i / 4) && SameOutside(dst[..], old(dst[..]), at)
    {
      ghost var t := dst[..];
      var o := sec * 512 + i;
      var x := Long(src[o], src[o + 1], src[o + 2], src[o + 3]);
      assert x == LongOf(d, i / 4);
      PutSplit(dst, at + i / 2 + 32, 256, x);
      PutStep(t, dst[..], at, info, d, i / 4, i / 4 + 1);
      i := i + 4;
    }
  }

  // The checksum over the longs from word lo to word hi of a sector.
  method SumWords(dst: array<bv16>, at: nat, lo: nat, hi: nat, ghost info: bv32, ghost d: SectorData) returns (c: bv32)
    requires lo <= hi <= SECTOR_WORDS && lo % 2 == 0 && hi % 2 == 0 && at + SECTOR_WORDS <= dst.Length
    requires forall j | lo / 2 <= j < hi / 2 :: LongIn(dst[..], at, j, BodyLong(info, d, j))
    ensures c == Sum(info, d, lo / 2, hi / 2)
  {
    hide Mix, Pair, Hi, Lo, BodyLong;
    c := 0;
    var i := lo;
    while i < hi
      invariant lo <= i <= hi && i % 2 == 0 && c == Sum(info, d, lo / 2, i / 2)
    {
      assert LongIn(dst[..], at, i / 2, BodyLong(info, d, i / 2));
      PairOf(BodyLong(info, d, i / 2));
      c := Mix(c, Pair(dst[at + i], dst[at + i + 1]));
      i := i + 2;
    }
  }

  ghost predicate RawIn(t: seq<bv16>, at: nat, info: bv32, d: SectorData) {
    forall j | 0 <= j < 272 :: LongIn(t, at, j, RawLong(info, d, j))
  }

  lemma CheckIn(t: seq<bv16>, u: seq<bv16>, at: nat, i: nat, c: bv32)
    requires at + SECTOR_WORDS <= |t| && i < 271
    requires var p := at + 2 * i; u == t[p := Hi(Half(c))][p + 1 := Lo(Half(c))][p + 2 := Hi(c)][p + 3 := Lo(c)]
    ensures LongIn(u, at, i, Half(c)) && LongIn(u, at, i + 1, c) && SameOutside(u, t, at)
    ensures forall j, x | 0 <= j < 272 && j != i && j != i + 1 && LongIn(t, at, j, x) :: LongIn(u, at, j, x)
  {
    hide Hi, Lo, Half;
  }

  lemma ChecksDone(t: seq<bv16>, u: seq<bv16>, v: seq<bv16>, at: nat, info: bv32, d: SectorData)
    requires at + SECTOR_WORDS <= |t| && BodyIn(t, at, info, d, 128)
    requires var c, p := HeadSum(info, d), at + 24;
      u == t[p := Hi(Half(c))][p + 1 := Lo(Half(c))][p + 2 := Hi(c)][p + 3 := Lo(c)]
    requires var c, p := DataSum(info, d), at + 28;
      v == u[p := Hi(Half(c))][p + 1 := Lo(Half(c))][p + 2 := Hi(c)][p + 3 := Lo(c)]
    ensures RawIn(v, at, info, d) && SameOutside(v, t, at)
  {
    CheckIn(t, u, at, 12, HeadSum(info, d));
    CheckIn(u, v, at, 14, DataSum(info, d));
    hide Hi, Lo, Half, HeadSum, DataSum, BodyLong, LongIn;
    forall j | 0 <= j < 272
      ensures LongIn(v, at, j, RawLong(info, d, j))
    {
      assert LongIn(t, at, j, BodyLong(info, d, j));
      if j == 12 || j == 13 { assert LongIn(u, at, j, RawLong(info, d, j)); }
      else if j != 14 && j != 15 { assert LongIn(u, at, j, BodyLong(info, d, j)); }
    }
  }

  // The word before word k of a stretch beginning at `at`.
  function Before(t: seq<bv16>, at: nat, k: nat): bv16
    requires at <= k < |t|
  {
    if k == at then 0 else t[k - 1]
  }

  // Bit p of the words from `at` on, as one string.
  predicate BitAt(s: seq<bv16>, at: nat, p: nat) { Bit(Word(s, at + p / 16), p % 16) }

  // Of a stretch of words the bits at odd places stay. One at an even place stays if it is set, and otherwise
  // becomes set if and only if the bits before and behind it are both zero; nothing comes before the first.
  ghost predicate ClockRule(t: seq<bv16>, u: seq<bv16>, at: nat, words: nat) {
    forall p | 0 <= p < 16 * words :: ClockedAt(t, u, at, p)
  }

  predicate ClockedAt(t: seq<bv16>, u: seq<bv16>, at: nat, p: nat) {
    BitAt(u, at, p)
    <==> BitAt(t, at, p) || (p % 2 == 0 && (p == 0 || !BitAt(t, at, p - 1)) && !BitAt(t, at, p + 1))
  }

  lemma CodedIsClocked(t: seq<bv16>, u: seq<bv16>, at: nat, words: nat)
    requires |t| == |u| && at + words <= |t|
    requires forall k | at <= k < at + words :: u[k] == Coded(Before(t, at, k), t[k])
    ensures ClockRule(t, u, at, words)
  {
    hide ClockedAt;
    forall p | 0 <= p < 16 * words
      ensures ClockedAt(t, u, at, p)
    {
      CodedAt(t, u, at, p / 16, p % 16);
    }
  }

  lemma CodedAt(t: seq<bv16>, u: seq<bv16>, at: nat, k: nat, x: nat)
    requires |t| == |u| && at + k < |t| && x < 16 && u[at + k] == Coded(Before(t, at, at + k), t[at + k])
    ensures ClockedAt(t, u, at, 16 * k + x)
  {
    hide Coded, Bit;
    CodedBit(Before(t, at, at + k), t[at + k], x);
    NoBit(15);
    var p := 16 * k + x;
    assert p / 16 == k && p % 16 == x && p % 2 == x % 2;
    if x > 0 { assert (p - 1) / 16 == k && (p - 1) % 16 == x - 1; }
    if x == 0 && k > 0 { assert (p - 1) / 16 == k - 1 && (p - 1) % 16 == 15; }
    if x < 15 { assert (p + 1) / 16 == k && (p + 1) % 16 == x + 1; }
  }

  lemma NoBit(x: nat)
    requires x < 16
    ensures !Bit(0, x)
  {
  }

  // So there are never four zeros in a row, whatever the words were before.
  lemma NeverFourZeros(t: seq<bv16>, u: seq<bv16>, at: nat, words: nat, p: nat)
    requires ClockRule(t, u, at, words) && p + 3 < 16 * words
    ensures BitAt(u, at, p) || BitAt(u, at, p + 1) || BitAt(u, at, p + 2) || BitAt(u, at, p + 3)
  {
    hide BitAt;
    var k := if p % 2 == 0 then p + 2 else p + 1;
    assert ClockedAt(t, u, at, k - 1) && ClockedAt(t, u, at, k) && ClockedAt(t, u, at, k + 1);
    assert BitAt(u, at, k - 1) || BitAt(u, at, k) || BitAt(u, at, k + 1);
  }

  // And two ones are next to each other if and only if they were before.
  lemma TwoOnes(t: seq<bv16>, u: seq<bv16>, at: nat, words: nat, p: nat)
    requires ClockRule(t, u, at, words) && p + 1 < 16 * words
    ensures BitAt(u, at, p) && BitAt(u, at, p + 1) <==> BitAt(t, at, p) && BitAt(t, at, p + 1)
  {
    hide BitAt;
    assert ClockedAt(t, u, at, p) && ClockedAt(t, u, at, p + 1);
  }

  // A stretch of data bits only: no two ones next to each other, and at most three zeros in a row.
  lemma DataStretch(t: seq<bv16>, u: seq<bv16>, at: nat, words: nat, p: nat)
    requires ClockRule(t, u, at, words) && forall k | 0 <= k < 16 * words && k % 2 == 0 :: !BitAt(t, at, k)
    ensures p + 1 < 16 * words ==> !(BitAt(u, at, p) && BitAt(u, at, p + 1))
    ensures p + 3 < 16 * words ==>
      BitAt(u, at, p) || BitAt(u, at, p + 1) || BitAt(u, at, p + 2) || BitAt(u, at, p + 3)
  {
    hide BitAt, ClockRule;
    if p + 1 < 16 * words { TwoOnes(t, u, at, words, p); }
    if p + 3 < 16 * words { NeverFourZeros(t, u, at, words, p); }
  }

  // mfmcode: adds the clock bits to a stretch of words.
  method Mfmcode(dst: array<bv16>, at: nat, words: nat)
    requires at + words <= dst.Length
    modifies dst
    ensures forall k | at <= k < at + words :: dst[k] == Coded(Before(old(dst[..]), at, k), old(dst[..])[k])
    ensures forall k | 0 <= k < dst.Length && !(at <= k < at + words) :: dst[k] == old(dst[..])[k]
    ensures ClockRule(old(dst[..]), dst[..], at, words)
  {
    hide Coded, ClockRule;
    ghost var t := dst[..];
    var last: bv16 := 0;
    var n := at;
    while n < at + words
      invariant at <= n <= at + words && (n < dst.Length ==> last == Before(t, at, n))
      invariant forall k | at <= k < n :: dst[k] == Coded(Before(t, at, k), t[k])
      invariant forall k | 0 <= k < dst.Length && !(at <= k < n) :: dst[k] == t[k]
    {
      var v := dst[n];
      dst[n] := Coded(last, v);
      last := v;
      n := n + 1;
    }
    CodedIsClocked(t, dst[..], at, words);
  }

  lemma CodedDone(t: seq<bv16>, u: seq<bv16>, at: nat, info: bv32, d: SectorData)
    requires |t| == |u| && at + SECTOR_WORDS <= |t| && RawIn(t, at, info, d)
    requires forall k | at + 4 <= k < at + SECTOR_WORDS :: u[k] == Coded(Before(t, at + 4, k), t[k])
    requires forall k | 0 <= k < |t| && !(at + 4 <= k < at + SECTOR_WORDS) :: u[k] == t[k]
    ensures forall k | 0 <= k < SECTOR_WORDS :: u[at + k] == CodedWord(info, d, k)
  {
    hide Coded, Hi, Lo, RawLong;
    forall k | 0 <= k < SECTOR_WORDS
      ensures t[at + k] == RawWord(info, d, k)
    {
      assert LongIn(t, at, k / 2, RawLong(info, d, k / 2));
    }
    hide RawWord, RawIn;
    forall k | 0 <= k < SECTOR_WORDS
      ensures u[at + k] == CodedWord(info, d, k)
    {
      if k >= 4 {
        var m := at + k;
        assert u[m] == Coded(Before(t, at + 4, m), t[m]);
        assert k > 4 ==> t[at + (k - 1)] == RawWord(info, d, k - 1);
      }
    }
  }

  method EncodeSector(src: array<bv8>, dst: array<bv16>, at: nat, sec: nat, numSecs: nat, track: int)
    requires 512 * (sec + 1) <= src.Length && at + SECTOR_WORDS <= dst.Length
    modifies dst
    ensures forall k | 0 <= k < SECTOR_WORDS ::
      dst[at + k] == CodedWord(Info(track, sec, numSecs), DataOf(src[..], sec), k)
    ensures forall k | 0 <= k < dst.Length && !(at <= k < at + SECTOR_WORDS) :: dst[k] == old(dst[k])
  {
    hide BodyIn, RawIn, Hi, Lo, Half, Coded, Long, CodedWord, Info, Sum;
    var info := Info(track, sec, numSecs);
    ghost var d := DataOf(src[..], sec);
    PutHead(dst, at, info, d);
    PutData(src, dst, at, sec, info);
    ghost var t := dst[..];
    BodyLongs(t, at, info, d);
    var hck := SumWords(dst, at, 4, 24, info, d);
    PutCheck(dst, at + 24, hck);
    ghost var u := dst[..];
    HeadKeepsData(t, u, at, info, d, hck);
    var dck := SumWords(dst, at, 32, 544, info, d);
    PutCheck(dst, at + 28, dck);
    ghost var v := dst[..];
    ChecksDone(t, u, v, at, info, d);
    Mfmcode(dst, at + 4, SECTOR_WORDS - 4);
    CodedDone(v, dst[..], at, info, d);
  }

  lemma BodyLongs(t: seq<bv16>, at: nat, info: bv32, d: SectorData)
    requires BodyIn(t, at, info, d, 128)
    ensures forall j | 0 <= j < 272 :: LongIn(t, at, j, BodyLong(info, d, j))
  {
    hide LongIn;
  }

  lemma HeadKeepsData(t: seq<bv16>, u: seq<bv16>, at: nat, info: bv32, d: SectorData, c: bv32)
    requires at + SECTOR_WORDS <= |t| && BodyIn(t, at, info, d, 128)
    requires var p := at + 24; u == t[p := Hi(Half(c))][p + 1 := Lo(Half(c))][p + 2 := Hi(c)][p + 3 := Lo(c)]
    ensures forall j | 16 <= j < 272 :: LongIn(u, at, j, BodyLong(info, d, j))
  {
    hide Hi, Lo, Half, BodyLong;
    forall j | 16 <= j < 272
      ensures LongIn(u, at, j, BodyLong(info, d, j))
    {
      assert LongIn(t, at, j, BodyLong(info, d, j));
    }
  }

  // amigados_mfmcode
  method AmigadosMfmcode(src: array<bv8>, dst: array<bv16>, numSecs: nat, track: int) returns (bits: nat)
    requires src.Length == 512 * numSecs && GAP + SECTOR_WORDS * numSecs <= dst.Length
    modifies dst
    ensures HoldsTrack(dst[..], src[..], numSecs, track)
    ensures forall k | GAP + SECTOR_WORDS * numSecs <= k < dst.Length :: dst[k] == old(dst[k])
    ensures bits == (544 * numSecs + 360) * 16
  {
    hide CodedWord, Info, DataOf;
    FillWords(dst, 0, GAP, 0xaaaa);
    var sec := 0;
    while sec < numSecs
      invariant 0 <= sec <= numSecs
      invariant forall m | 0 <= m < GAP + SECTOR_WORDS * sec :: dst[m] == TrackWord(src[..], numSecs, track, m)
      invariant forall k | GAP + SECTOR_WORDS * sec <= k < dst.Length :: dst[k] == old(dst[k])
    {
      var at := SECTOR_WORDS * sec + GAP;
      EncodeSector(src, dst, at, sec, numSecs, track);
      forall m | at <= m < at + SECTOR_WORDS
        ensures dst[m] == TrackWord(src[..], numSecs, track, m)
      {
        var k := m - at;
        assert (m - GAP) / SECTOR_WORDS == sec && (m - GAP) % SECTOR_WORDS == k;
        assert dst[at + k] == CodedWord(Info(track, sec, numSecs), DataOf(src[..], sec), k);
      }
      sec := sec + 1;
    }
    bits := (numSecs * SECTOR_WORDS + GAP) * 2 * 8;
  }

  // ---- the decoder ----

  function At(mbuf: array<bv16>, i: nat): (w: bv16)
    reads mbuf
    ensures w == Word(mbuf[..], i)
  {
    if i < mbuf.Length then mbuf[i] else 0
  }

  function LongFrom(mbuf: array<bv16>, i: nat): (x: bv32)
    reads mbuf
    ensures x == GetMfmLong(mbuf[..], i)
  {
    Masked(Pair(At(mbuf, i), At(mbuf, i + 1)))
  }

  // Behind the next two sync words in a row, or the error of having come to the end.
  method SeekSync(mbuf: array<bv16>, from: nat, mend: int) returns (ok: bool, p: nat)
    ensures var r := FindSync(mbuf[..], from, mend); ok == r.Some? && (ok ==> p == r.value)
  {
    hide NextSync;
    p := from;
    while true
      invariant FindSync(mbuf[..], from, mend) == FindSync(mbuf[..], p, mend)
      decreases mbuf.Length + 2 - p
    {
      NextSyncMoves(mbuf[..], p, mend);
      ok, p := SeekOne(mbuf, p, mend);
      if !ok { return; }
      p := p + 1;
      if At(mbuf, p - 1) == SYNC { return; }
    }
  }

  method SeekOne(mbuf: array<bv16>, from: nat, mend: int) returns (ok: bool, p: nat)
    ensures var r := NextSync(mbuf[..], from, mend); ok == r.Some? && (ok ==> p == r.value)
  {
    p := from;
    while At(mbuf, p) != SYNC
      invariant NextSync(mbuf[..], from, mend) == NextSync(mbuf[..], p, mend)
      decreases mend - p
    {
      p := p + 1;
      if p >= mend { return false, p; }
    }
    return true, p + 1;
  }

  // The label has to be empty; it goes into the checksum all the same.
  method ReadLabel(mbuf: array<bv16>, p: nat, sum0: bv32) returns (empty: bool, sum: bv32)
    ensures empty <==> forall i | 0 <= i < 4 :: Joined(mbuf[..], p + 2 * i, 8) == 0
    ensures empty ==> sum == Running(mbuf[..], p, 8, sum0, 4)
  {
    hide Join, Mix, GetMfmLong;
    sum := sum0;
    var i := 0;
    while i < 4
      invariant 0 <= i <= 4 && sum == Running(mbuf[..], p, 8, sum0, i)
      invariant forall k | 0 <= k < i :: Joined(mbuf[..], p + 2 * k, 8) == 0
    {
      var odd, even := LongFrom(mbuf, p + 2 * i), LongFrom(mbuf, p + 2 * i + 8);
      if Join(odd, even) != 0 {
        assert Joined(mbuf[..], p + 2 * i, 8) != 0;
        return false, sum;
      }
      sum := Mix(sum, Mix(odd, even));
      i := i + 1;
    }
    empty := true;
  }

  method StoreLong(secbuf: array<bv8>, at: nat, x: bv32)
    requires at + 3 < secbuf.Length
    modifies secbuf
    ensures secbuf[at] == Byte0(x) && secbuf[at + 1] == Byte1(x) && secbuf[at + 2] == Byte2(x)
      && secbuf[at + 3] == Byte3(x)
    ensures forall k | 0 <= k < secbuf.Length && !(at <= k < at + 4) :: secbuf[k] == old(secbuf[k])
  {
    hide Byte0, Byte1, Byte2, Byte3;
    secbuf[at], secbuf[at + 1] := Byte0(x), Byte1(x);
    secbuf[at + 2], secbuf[at + 3] := Byte2(x), Byte3(x);
  }

  method ReadData(mbuf: array<bv16>, p: nat, sum0: bv32, secbuf: array<bv8>) returns (sum: bv32)
    requires secbuf.Length == 512
    modifies secbuf
    ensures secbuf[..] == DataBytes(mbuf[..], p) && sum == Running(mbuf[..], p, 256, sum0, 128)
  {
    hide Join, Mix, GetMfmLong, DataByte, Byte0, Byte1, Byte2, Byte3;
    sum := sum0;
    var i := 0;
    while i < 128
      invariant 0 <= i <= 128 && sum == Running(mbuf[..], p, 256, sum0, i)
      invariant forall b | 0 <= b < 4 * i :: secbuf[b] == DataByte(mbuf[..], p, b)
    {
      var odd, even := LongFrom(mbuf, p + 2 * i), LongFrom(mbuf, p + 2 * i + 256);
      var x := Join(odd, even);
      assert x == Joined(mbuf[..], p + 2 * i, 256);
      StoreLong(secbuf, 4 * i, x);
      FourBytes(mbuf[..], p, i);
      sum := Mix(sum, Mix(odd, even));
      i := i + 1;
    }
  }

  lemma FourBytes(s: seq<bv16>, p: nat, i: nat)
    ensures var x := Joined(s, p + 2 * i, 256);
      && DataByte(s, p, 4 * i) == Byte0(x) && DataByte(s, p, 4 * i + 1) == Byte1(x)
      && DataByte(s, p, 4 * i + 2) == Byte2(x) && DataByte(s, p, 4 * i + 3) == Byte3(x)
  {
    hide Joined, Byte0, Byte1, Byte2, Byte3;
    assert (4 * i) / 4 == i && (4 * i + 1) / 4 == i && (4 * i + 2) / 4 == i && (4 * i + 3) / 4 == i;
    assert (4 * i) % 4 == 0 && (4 * i + 1) % 4 == 1 && (4 * i + 2) % 4 == 2 && (4 * i + 3) % 4 == 3;
  }

  // The sector whose info begins at p; the error, or 0 with the sector in secbuf.
  method GetSector(mbuf: array<bv16>, p: nat, track: int, secbuf: array<bv8>) returns (ec: int, slot: nat)
    requires secbuf.Length == 512
    modifies secbuf
    ensures ec != 0 ==> ReadSector(mbuf[..], p, track) == Bad(ec)
    ensures ec == 0 ==> slot < SECTORS && ReadSector(mbuf[..], p, track) == Good(slot, secbuf[..])
  {
    hide Join, Mix, GetMfmLong, SlotOf, TrackOf, Running, DataByte;
    var odd, even := LongFrom(mbuf, p), LongFrom(mbuf, p + 2);
    var id := Join(odd, even);
    slot := SlotOf(id);
    if slot > 10 { return 2, slot; }
    var empty, sum := ReadLabel(mbuf, p + 4, Mix(odd, even));
    if !empty { return 6, slot; }
    odd, even := LongFrom(mbuf, p + 20), LongFrom(mbuf, p + 22);
    if Join(odd, even) != sum { return 3, slot; }
    if TrackOf(id) != track { return 7, slot; }
    odd, even := LongFrom(mbuf, p + 24), LongFrom(mbuf, p + 26);
    sum := ReadData(mbuf, p + 28, Join(odd, even), secbuf);
    if sum != 0 { return 4, slot; }
    ec := 0;
  }

  method Store(buffer: array<bv8>, slot: nat, secbuf: array<bv8>)
    requires secbuf.Length == 512 && 512 * (slot + 1) <= buffer.Length && buffer != secbuf
    modifies buffer
    ensures buffer[..] == Put(old(buffer[..]), slot, secbuf[..])
  {
    ghost var s := buffer[..];
    var k := 0;
    while k < 512
      invariant 0 <= k <= 512 && secbuf[..] == old(secbuf[..])
      invariant forall m | 0 <= m < buffer.Length ::
        buffer[m] == if 512 * slot <= m < 512 * slot + k then secbuf[m - 512 * slot] else s[m]
    {
      buffer[512 * slot + k] := secbuf[k];
      k := k + 1;
    }
    var r := Put(s, slot, secbuf[..]);
    forall m | 0 <= m < buffer.Length
      ensures buffer[m] == r[m]
    {
    }
  }

  // drive_write_adf_amigados
  method DriveWriteAdfAmigados(mbuf: array<bv16>, end: int, buffer: array<bv8>, track: int) returns (ec: int)
    requires buffer.Length >= 512 * SECTORS
    modifies buffer
    ensures (ec, buffer[..]) == Decode(mbuf[..], 0, end - 540, track, old(buffer[..]), 0)
  {
    hide FindSync, ReadSector, Put;
    var secbuf := new bv8[512];
    var mend := end - (4 + 16 + 8 + 512);
    var p, done := 0, 0;
    while done < SECTORS
      invariant 0 <= done <= SECTORS
      invariant Decode(mbuf[..], p, mend, track, buffer[..], done)
        == Decode(mbuf[..], 0, mend, track, old(buffer[..]), 0)
    {
      var ok, q := SeekSync(mbuf, p, mend);
      if !ok { return 1; }
      var slot;
      ec, slot := GetSector(mbuf, q, track, secbuf);
      if ec != 0 { return; }
      Store(buffer, slot, secbuf);
      p := q + 540;
      done := done + 1;
    }
    ec := 0;
  }
}
