// How the bits of a track lie on the disk: no four zeros in a row, and where two ones are side by side.

module MfmTrack {
  import opened MfmBits
  import opened Mfm

  // ---- words of data bits and words of clock bits ----

  predicate IsData(w: bv16) { w & 0xaaaa == 0 }
  predicate IsClock(w: bv16) { w & 0x5555 == 0 }

  lemma DataHasNoClock(w: bv16, x: nat)
    requires IsData(w) && x < 16 && x % 2 == 0
    ensures !Bit(w, x)
  {
  }

  lemma ClockHasNoData(w: bv16, x: nat)
    requires IsClock(w) && x < 16 && x % 2 == 1
    ensures !Bit(w, x)
  {
  }

  lemma MaskedHalves(y: bv32)
    requires Masked(y) == y
    ensures IsData(Hi(y)) && IsData(Lo(y))
  {
  }

  lemma HalvedHalves(y: bv32)
    requires Masked(y) == y
    ensures IsClock(Hi(Half(y))) && IsClock(Lo(Half(y)))
  {
  }

  lemma HalfStartsLow(y: bv32)
    ensures !Bit(Hi(Half(y)), 0)
  {
  }

  lemma LabelHalves()
    ensures Hi(Pair(0xaaaa, 0xaaaa)) == 0xaaaa && Lo(Pair(0xaaaa, 0xaaaa)) == 0xaaaa
    ensures IsClock(0xaaaa) && Bit(0xaaaa, 0)
  {
  }

  // The last data bit of the info is the lowest bit of its last byte.
  lemma InfoEnds(b0: bv8, b1: bv8, b2: bv8, b3: bv8)
    ensures Bit(Lo(Even(Long(b0, b1, b2, b3))), 15) <==> b3 & 1 != 0
  {
  }

  // The label of a sector: 0xff, the track, the sector, and the sectors up to the gap.
  lemma InfoBytes(track: int, sec: int, numSecs: int)
    ensures var info := Info(track, sec, numSecs);
      Byte0(info) == 0xff && Byte1(info) == ToByte(track) && Byte2(info) == ToByte(sec)
      && Byte3(info) == ToByte(numSecs - sec)
  {
    hide Long, ToByte, Byte0, Byte1, Byte2, Byte3;
    BytesOf0(0xff, ToByte(track), ToByte(sec), ToByte(numSecs - sec));
    BytesOf1(0xff, ToByte(track), ToByte(sec), ToByte(numSecs - sec));
    BytesOf2(0xff, ToByte(track), ToByte(sec), ToByte(numSecs - sec));
    BytesOf3(0xff, ToByte(track), ToByte(sec), ToByte(numSecs - sec));
  }

  // ---- one sector before its clock bits ----

  // The label, and the odd halves of the checksums, which are moved and not masked, have clock bits only.
  predicate ClockWord(k: nat) { 8 <= k < 26 || k == 28 || k == 29 }

  lemma RawKind(info: bv32, d: SectorData, k: nat)
    requires 4 <= k < SECTOR_WORDS
    ensures if ClockWord(k) then IsClock(RawWord(info, d, k)) else IsData(RawWord(info, d, k))
    ensures k == 8 ==> Bit(RawWord(info, d, k), 0)
    ensures k == 28 ==> !Bit(RawWord(info, d, k), 0)
  {
    hide Hi, Lo, Half, Masked, Odd, Even, Sum, Pair, IsData, IsClock, Bit, LongOf;
    var j := k / 2;
    if j < 4 {
      OddIsData(info);
      EvenIsData(info);
      MaskedHalves(Odd(info));
      MaskedHalves(Even(info));
    } else if j < 12 {
      LabelHalves();
    } else if j < 14 {
      HeadSumIsData(info, d);
      HalvedHalves(HeadSum(info, d));
      MaskedHalves(HeadSum(info, d));
    } else if j < 16 {
      SumIsData(info, d, 16, 272);
      HalvedHalves(DataSum(info, d));
      MaskedHalves(DataSum(info, d));
      HalfStartsLow(DataSum(info, d));
    } else if j < 144 {
      OddIsData(LongOf(d, j - 16));
      MaskedHalves(Odd(LongOf(d, j - 16)));
    } else {
      EvenIsData(LongOf(d, j - 144));
      MaskedHalves(Even(LongOf(d, j - 144)));
    }
  }

  function RawWords(info: bv32, d: SectorData): seq<bv16> {
    seq<bv16>(SECTOR_WORDS, k requires 0 <= k < SECTOR_WORDS => RawWord(info, d, k))
  }

  // Two ones side by side only where the label begins behind a data bit that is set.
  lemma RawPairs(info: bv32, d: SectorData, p: nat)
    requires p + 1 < 16 * (SECTOR_WORDS - 4)
    ensures BitAt(RawWords(info, d), 4, p) && BitAt(RawWords(info, d), 4, p + 1)
      <==> p == 63 && Bit(RawWord(info, d, 7), 15)
  {
    hide Bit, RawWord, IsData, IsClock;
    var k, x := 4 + p / 16, p % 16;
    var w := RawWord(info, d, k);
    RawKind(info, d, k);
    if x < 15 {
      assert (p + 1) / 16 == p / 16 && (p + 1) % 16 == x + 1;
      var even, odd := if x % 2 == 0 then x else x + 1, if x % 2 == 0 then x + 1 else x;
      if ClockWord(k) { ClockHasNoData(w, odd); } else { DataHasNoClock(w, even); }
    } else {
      assert (p + 1) / 16 == p / 16 + 1 && (p + 1) % 16 == 0;
      RawKind(info, d, k + 1);
      if ClockWord(k) { ClockHasNoData(w, 15); }
      if !ClockWord(k + 1) { DataHasNoClock(RawWord(info, d, k + 1), 0); }
    }
  }

  // ---- on the track ----

  lemma SectorIsClocked(s: seq<bv16>, src: seq<bv8>, numSecs: nat, track: int, sec: nat)
    requires HoldsTrack(s, src, numSecs, track) && sec < numSecs
    ensures |src| == 512 * numSecs && 512 * (sec + 1) <= |src|
    ensures var at, raw := GAP + SECTOR_WORDS * sec, RawWords(Info(track, sec, numSecs), DataOf(src, sec));
      at + SECTOR_WORDS <= |s| && ClockRule(raw, s[at..at + SECTOR_WORDS], 4, SECTOR_WORDS - 4)
  {
    hide Coded, RawWord, Info, DataOf, ClockRule;
    TrackHasSector(s, src, numSecs, track, sec);
    var at, info, d := GAP + SECTOR_WORDS * sec, Info(track, sec, numSecs), DataOf(src, sec);
    var raw, part := RawWords(info, d), s[at..at + SECTOR_WORDS];
    forall k | 4 <= k < 4 + (SECTOR_WORDS - 4)
      ensures part[k] == Coded(Before(raw, 4, k), raw[k])
    {
      assert part[k] == Word(s, at + k);
    }
    CodedIsClocked(raw, part, 4, SECTOR_WORDS - 4);
  }

  // From the info of a sector to its end there are never four zeros in a row, and two ones are side by side
  // in one place at most: the label begins with a set clock bit even if the data bit before it, which is the
  // lowest one of the count of sectors up to the gap, is set.
  lemma SectorSpacing(s: seq<bv16>, src: seq<bv8>, numSecs: nat, track: int, sec: nat, p: nat)
    requires HoldsTrack(s, src, numSecs, track) && sec < numSecs && p + 1 < 16 * (SECTOR_WORDS - 4)
    ensures var at := GAP + SECTOR_WORDS * sec + 4;
      && (BitAt(s, at, p) && BitAt(s, at, p + 1) <==> p == 63 && ToByte(numSecs - sec) & 1 != 0)
      && (p + 3 < 16 * (SECTOR_WORDS - 4) ==>
            BitAt(s, at, p) || BitAt(s, at, p + 1) || BitAt(s, at, p + 2) || BitAt(s, at, p + 3))
  {
    hide ClockRule, Bit, RawWord, Info, DataOf, ToByte, HoldsTrack;
    SectorIsClocked(s, src, numSecs, track, sec);
    var at, info, d := GAP + SECTOR_WORDS * sec, Info(track, sec, numSecs), DataOf(src, sec);
    var raw, part := RawWords(info, d), s[at..at + SECTOR_WORDS];
    TwoOnes(raw, part, 4, SECTOR_WORDS - 4, p);
    RawPairs(info, d, p);
    InfoLast(track, sec, numSecs, d);
    forall q | 0 <= q < 16 * (SECTOR_WORDS - 4)
      ensures BitAt(part, 4, q) == BitAt(s, at + 4, q)
    {
      assert q / 16 < SECTOR_WORDS - 4;
    }
    if p + 3 < 16 * (SECTOR_WORDS - 4) { NeverFourZeros(raw, part, 4, SECTOR_WORDS - 4, p); }
  }

  lemma InfoLast(track: int, sec: int, numSecs: int, d: SectorData)
    ensures Bit(RawWord(Info(track, sec, numSecs), d, 7), 15) <==> ToByte(numSecs - sec) & 1 != 0
  {
    hide Long, ToByte, Lo, Even, Bit;
    InfoEnds(0xff, ToByte(track), ToByte(sec), ToByte(numSecs - sec));
  }

  // ---- what the checksum sees ----

  lemma MixInjective(x: bv32, y: bv32, z: bv32)
    ensures Mix(x, z) == Mix(y, z) <==> x == y
    ensures Mix(z, x) == Mix(z, y) <==> x == y
  {
  }

  lemma LongDiffers(h: bv16, l: bv16, w: bv16)
    ensures Data16(w) != Data16(h) ==> Masked(Pair(w, l)) != Masked(Pair(h, l))
    ensures Data16(w) != Data16(l) ==> Masked(Pair(h, w)) != Masked(Pair(h, l))
  {
    hide Masked, Pair, Data16, Hi, Lo;
    MaskedHi(h, l);
    MaskedHi(w, l);
    MaskedLo(h, l);
    MaskedLo(h, w);
  }

  // One pair of longs with one word changed, or none.
  lemma PairDiffers(s: seq<bv16>, p: nat, gap: nat, i: nat, w: bv16)
    requires i < |s| && Data16(w) != Data16(s[i]) && gap >= 2
    ensures OddEven(s[i := w], p, gap) != OddEven(s, p, gap) <==>
      i == p || i == p + 1 || i == p + gap || i == p + gap + 1
  {
    hide Mix, Masked, Pair, Data16;
    var t := s[i := w];
    LongDiffers(Word(s, p), Word(s, p + 1), w);
    LongDiffers(Word(s, p + gap), Word(s, p + gap + 1), w);
    MixInjective(GetMfmLong(t, p), GetMfmLong(s, p), GetMfmLong(s, p + gap));
    MixInjective(GetMfmLong(t, p + gap), GetMfmLong(s, p + gap), GetMfmLong(s, p));
  }

  lemma {:induction false} RunningDiffers(s: seq<bv16>, p: nat, c: bv32, n: nat, i: nat, w: bv16)
    requires i < |s| && Data16(w) != Data16(s[i]) && n <= 128
    ensures Running(s[i := w], p, 256, c, n) != Running(s, p, 256, c, n)
      <==> p <= i < p + 2 * n || p + 256 <= i < p + 256 + 2 * n
  {
    hide Mix, OddEven, Data16;
    if n > 0 {
      var t, q := s[i := w], p + 2 * (n - 1);
      RunningDiffers(s, p, c, n - 1, i, w);
      PairDiffers(s, q, 256, i, w);
      MixInjective(Running(t, p, 256, c, n - 1), Running(s, p, 256, c, n - 1), OddEven(s, q, 256));
      MixInjective(OddEven(t, q, 256), OddEven(s, q, 256), Running(s, p, 256, c, n - 1));
    }
  }

  lemma SameJoined(s: seq<bv16>, p: nat, gap: nat, i: nat, w: bv16)
    requires i < |s| && p + gap + 1 < i && gap >= 2
    ensures Joined(s[i := w], p, gap) == Joined(s, p, gap) && OddEven(s[i := w], p, gap) == OddEven(s, p, gap)
  {
  }

  lemma {:induction false} SameRunning(s: seq<bv16>, p: nat, gap: nat, c: bv32, n: nat, i: nat, w: bv16)
    requires i < |s| && p + 2 * n + gap <= i && gap >= 2
    ensures Running(s[i := w], p, gap, c, n) == Running(s, p, gap, c, n)
  {
    hide OddEven;
    if n > 0 {
      SameRunning(s, p, gap, c, n - 1, i, w);
      SameJoined(s, p + 2 * (n - 1), gap, i, w);
    }
  }

  // In a sector that can be read, one data word with other data bits is enough to have it refused.
  lemma DataWordSeen(s: seq<bv16>, p: nat, track: int, i: nat, w: bv16)
    requires ReadSector(s, p, track).Good? && p + 28 <= i < p + 540 && i < |s| && Data16(w) != Data16(s[i])
    ensures ReadSector(s[i := w], p, track) == Bad(4)
  {
    hide Running, Joined, OddEven, DataBytes, Data16;
    var t := s[i := w];
    SameJoined(s, p, 2, i, w);
    SameJoined(s, p + 20, 2, i, w);
    SameJoined(s, p + 24, 2, i, w);
    forall j | 0 <= j < 4
      ensures Joined(t, p + 4 + 2 * j, 8) == Joined(s, p + 4 + 2 * j, 8)
    {
      SameJoined(s, p + 4 + 2 * j, 8, i, w);
    }
    SameRunning(s, p + 4, 8, OddEven(s, p, 2), 4, i, w);
    RunningDiffers(s, p + 28, Joined(s, p + 24, 2), 128, i, w);
  }
}
