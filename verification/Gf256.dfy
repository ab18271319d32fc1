// The field with 256 elements that the CD-ROM error correction works in, by its tables of
// logarithms and powers.

module Gf256 {

  // One of sixteen table entries.
  function PickInt(i: bv8,
    v0: int, v1: int, v2: int, v3: int, v4: int, v5: int, v6: int, v7: int,
    v8: int, v9: int, v10: int, v11: int, v12: int, v13: int, v14: int, v15: int): int
  {
    if i < 8 then
      if i < 4 then
        if i < 2 then (if i < 1 then v0 else v1) else (if i < 3 then v2 else v3)
      else
        if i < 6 then (if i < 5 then v4 else v5) else (if i < 7 then v6 else v7)
    else
      if i < 12 then
        if i < 10 then (if i < 9 then v8 else v9) else (if i < 11 then v10 else v11)
      else
        if i < 14 then (if i < 13 then v12 else v13) else (if i < 15 then v14 else v15)
  }

  function PickByte(i: int,
    v0: bv8, v1: bv8, v2: bv8, v3: bv8, v4: bv8, v5: bv8, v6: bv8, v7: bv8,
    v8: bv8, v9: bv8, v10: bv8, v11: bv8, v12: bv8, v13: bv8, v14: bv8, v15: bv8): bv8
  {
    if i < 8 then
      if i < 4 then
        if i < 2 then (if i < 1 then v0 else v1) else (if i < 3 then v2 else v3)
      else
        if i < 6 then (if i < 5 then v4 else v5) else (if i < 7 then v6 else v7)
    else
      if i < 12 then
        if i < 10 then (if i < 9 then v8 else v9) else (if i < 11 then v10 else v11)
      else
        if i < 14 then (if i < 13 then v12 else v13) else (if i < 15 then v14 else v15)
  }

  // rs_l12_alog: powers of the generator. There are 255 entries; the last one here stands for none.
  function Alog(k: int): bv8 {
    if k < 128 then
      if k < 64 then
        if k < 32 then
          if k < 16 then
            PickByte(k, 1, 2, 4, 8, 16, 32, 64, 128, 29, 58, 116, 232, 205, 135, 19, 38)
          else
            PickByte(k - 16, 76, 152, 45, 90, 180, 117, 234, 201, 143, 3, 6, 12, 24, 48, 96, 192)
        else
          if k < 48 then
            PickByte(k - 32, 157, 39, 78, 156, 37, 74, 148, 53, 106, 212, 181, 119, 238, 193, 159, 35)
          else
            PickByte(k - 48, 70, 140, 5, 10, 20, 40, 80, 160, 93, 186, 105, 210, 185, 111, 222, 161)
      else
        if k < 96 then
          if k < 80 then
            PickByte(k - 64, 95, 190, 97, 194, 153, 47, 94, 188, 101, 202, 137, 15, 30, 60, 120, 240)
          else
            PickByte(k - 80, 253, 231, 211, 187, 107, 214, 177, 127, 254, 225, 223, 163, 91, 182, 113, 226)
        else
          if k < 112 then
            PickByte(k - 96, 217, 175, 67, 134, 17, 34, 68, 136, 13, 26, 52, 104, 208, 189, 103, 206)
          else
            PickByte(k - 112, 129, 31, 62, 124, 248, 237, 199, 147, 59, 118, 236, 197, 151, 51, 102, 204)
    else
      if k < 192 then
        if k < 160 then
          if k < 144 then
            PickByte(k - 128, 133, 23, 46, 92, 184, 109, 218, 169, 79, 158, 33, 66, 132, 21, 42, 84)
          else
            PickByte(k - 144, 168, 77, 154, 41, 82, 164, 85, 170, 73, 146, 57, 114, 228, 213, 183, 115)
        else
          if k < 176 then
            PickByte(k - 160, 230, 209, 191, 99, 198, 145, 63, 126, 252, 229, 215, 179, 123, 246, 241, 255)
          else
            PickByte(k - 176, 227, 219, 171, 75, 150, 49, 98, 196, 149, 55, 110, 220, 165, 87, 174, 65)
      else
        if k < 224 then
          if k < 208 then
            PickByte(k - 192, 130, 25, 50, 100, 200, 141, 7, 14, 28, 56, 112, 224, 221, 167, 83, 166)
          else
            PickByte(k - 208, 81, 162, 89, 178, 121, 242, 249, 239, 195, 155, 43, 86, 172, 69, 138, 9)
        else
          if k < 240 then
            PickByte(k - 224, 18, 36, 72, 144, 61, 122, 244, 245, 247, 243, 251, 235, 203, 139, 11, 22)
          else
            PickByte(k - 240, 44, 88, 176, 125, 250, 233, 207, 131, 27, 54, 108, 216, 173, 71, 142, 0)
  }

  // rs_l12_log
  function Log(d: bv8): int {
    if d < 128 then
      if d < 64 then
        if d < 32 then
          if d < 16 then
            PickInt(d, 0, 0, 1, 25, 2, 50, 26, 198, 3, 223, 51, 238, 27, 104, 199, 75)
          else
            PickInt(d - 16, 4, 100, 224, 14, 52, 141, 239, 129, 28, 193, 105, 248, 200, 8, 76, 113)
        else
          if d < 48 then
            PickInt(d - 32, 5, 138, 101, 47, 225, 36, 15, 33, 53, 147, 142, 218, 240, 18, 130, 69)
          else
            PickInt(d - 48, 29, 181, 194, 125, 106, 39, 249, 185, 201, 154, 9, 120, 77, 228, 114, 166)
      else
        if d < 96 then
          if d < 80 then
            PickInt(d - 64, 6, 191, 139, 98, 102, 221, 48, 253, 226, 152, 37, 179, 16, 145, 34, 136)
          else
            PickInt(d - 80, 54, 208, 148, 206, 143, 150, 219, 189, 241, 210, 19, 92, 131, 56, 70, 64)
        else
          if d < 112 then
            PickInt(d - 96, 30, 66, 182, 163, 195, 72, 126, 110, 107, 58, 40, 84, 250, 133, 186, 61)
          else
            PickInt(d - 112, 202, 94, 155, 159, 10, 21, 121, 43, 78, 212, 229, 172, 115, 243, 167, 87)
    else
      if d < 192 then
        if d < 160 then
          if d < 144 then
            PickInt(d - 128, 7, 112, 192, 247, 140, 128, 99, 13, 103, 74, 222, 237, 49, 197, 254, 24)
          else
            PickInt(d - 144, 227, 165, 153, 119, 38, 184, 180, 124, 17, 68, 146, 217, 35, 32, 137, 46)
        else
          if d < 176 then
            PickInt(d - 160, 55, 63, 209, 91, 149, 188, 207, 205, 144, 135, 151, 178, 220, 252, 190, 97)
          else
            PickInt(d - 176, 242, 86, 211, 171, 20, 42, 93, 158, 132, 60, 57, 83, 71, 109, 65, 162)
      else
        if d < 224 then
          if d < 208 then
            PickInt(d - 192, 31, 45, 67, 216, 183, 123, 164, 118, 196, 23, 73, 236, 127, 12, 111, 246)
          else
            PickInt(d - 208, 108, 161, 59, 82, 41, 157, 85, 170, 251, 96, 134, 177, 187, 204, 62, 90)
        else
          if d < 240 then
            PickInt(d - 224, 203, 89, 95, 176, 156, 169, 160, 81, 11, 245, 22, 235, 122, 117, 44, 215)
          else
            PickInt(d - 240, 79, 174, 213, 233, 230, 231, 173, 232, 116, 214, 244, 234, 168, 80, 88, 175)
  }

  // ---- what the tables mean ----

  // Addition in the field.
  function Plus(x: bv8, y: bv8): bv8 { x ^ y }

  lemma PlusCommutes(x: bv8, y: bv8)
    ensures Plus(x, y) == Plus(y, x)
  {
  }

  lemma PlusAssociates(x: bv8, y: bv8, z: bv8)
    ensures Plus(Plus(x, y), z) == Plus(x, Plus(y, z))
  {
  }

  lemma PlusZero(x: bv8)
    ensures Plus(x, 0) == x && Plus(0, x) == x
  {
  }

  lemma PlusSelf(x: bv8, y: bv8)
    ensures Plus(x, y) == 0 <==> x == y
  {
  }

  lemma PlusSwap(x: bv8, y: bv8, z: bv8)
    ensures Plus(Plus(x, y), z) == Plus(Plus(x, z), y)
  {
    hide Plus;
    PlusAssociates(x, y, z);
    PlusCommutes(y, z);
    PlusAssociates(x, z, y);
  }

  lemma PlusCross(x: bv8, y: bv8, z: bv8, w: bv8)
    ensures Plus(Plus(x, y), Plus(z, w)) == Plus(Plus(x, z), Plus(y, w))
  {
    hide Plus;
    PlusAssociates(Plus(x, y), z, w);
    PlusSwap(x, y, z);
    PlusAssociates(Plus(x, z), y, w);
  }

  // Multiplication by the generator.
  function Times2(x: bv8): bv8 { if x & 0x80 == 0 then x << 1 else (x << 1) ^ 0x1d }

  // x times the n-th power of the generator.
  function Power(n: nat, x: bv8): bv8 { if n == 0 then x else Times2(Power(n - 1, x)) }

  lemma LogLow(d: bv8)
    requires 0 < d < 128
    ensures 0 <= Log(d) < 255 && Alog(Log(d)) == d
  {
  }

  lemma LogHigh(d: bv8)
    requires 128 <= d
    ensures 0 <= Log(d) < 255 && Alog(Log(d)) == d
  {
  }

  // The tables are inverse to each other.
  lemma AlogOfLog(d: bv8)
    requires d != 0
    ensures 0 <= Log(d) < 255 && Alog(Log(d)) == d
  {
    hide Log, Alog;
    if d < 128 { LogLow(d); } else { LogHigh(d); }
  }

  lemma LogTimes2Low(d: bv8)
    requires 0 < d < 128
    ensures Log(Times2(d)) == if Log(d) == 254 then 0 else Log(d) + 1
  {
  }

  lemma LogTimes2High(d: bv8)
    requires 128 <= d
    ensures Log(Times2(d)) == if Log(d) == 254 then 0 else Log(d) + 1
  {
  }

  // They turn multiplication by the generator into addition of one.
  lemma LogTimes2(d: bv8)
    requires d != 0
    ensures Log(Times2(d)) == if Log(d) == 254 then 0 else Log(d) + 1
  {
    hide Log, Times2;
    if d < 128 { LogTimes2Low(d); } else { LogTimes2High(d); }
  }

  // One lemma for each pair of highest bits.
  lemma Times2Plus(x: bv8, y: bv8)
    ensures Times2(Plus(x, y)) == Plus(Times2(x), Times2(y))
  {
    hide Times2, Plus;
    if x & 0x80 == 0 {
      if y & 0x80 == 0 { Times2PlusLow(x, y); } else { Times2PlusMixed(x, y); }
    } else if y & 0x80 == 0 {
      Times2PlusMixed(y, x);
      PlusCommutes(x, y);
      PlusCommutes(Times2(x), Times2(y));
    } else {
      Times2PlusHigh(x, y);
    }
  }

  lemma Times2PlusLow(x: bv8, y: bv8)
    requires x & 0x80 == 0 && y & 0x80 == 0
    ensures Times2(Plus(x, y)) == Plus(Times2(x), Times2(y))
  {
  }

  lemma Times2PlusMixed(x: bv8, y: bv8)
    requires x & 0x80 == 0 && y & 0x80 != 0
    ensures Times2(Plus(x, y)) == Plus(Times2(x), Times2(y))
  {
  }

  lemma Times2PlusHigh(x: bv8, y: bv8)
    requires x & 0x80 != 0 && y & 0x80 != 0
    ensures Times2(Plus(x, y)) == Plus(Times2(x), Times2(y))
  {
  }

  lemma Times2Zero(x: bv8)
    ensures Times2(x) == 0 <==> x == 0
  {
  }

  lemma {:induction false} PowerPlus(n: nat, x: bv8, y: bv8)
    ensures Power(n, Plus(x, y)) == Plus(Power(n, x), Power(n, y))
  {
    hide Times2, Plus;
    if n > 0 {
      PowerPlus(n - 1, x, y);
      Times2Plus(Power(n - 1, x), Power(n - 1, y));
    }
  }

  lemma {:induction false} PowerZero(n: nat, x: bv8)
    ensures Power(n, x) == 0 <==> x == 0
  {
    hide Times2;
    if n > 0 {
      PowerZero(n - 1, x);
      Times2Zero(Power(n - 1, x));
    }
  }

  lemma {:induction false} PowerAdd(m: nat, n: nat, x: bv8)
    ensures Power(m + n, x) == Power(m, Power(n, x))
  {
    hide Times2;
    if m > 0 { PowerAdd(m - 1, n, x); }
  }

  lemma PowersCommute(m: nat, n: nat, x: bv8)
    ensures Power(m, Power(n, x)) == Power(n, Power(m, x))
  {
    PowerAdd(m, n, x);
    PowerAdd(n, m, x);
  }

  function Reduce(sum: int): int { if sum >= 255 then sum - 255 else sum }

  lemma {:induction false} LogPower(n: nat, d: bv8)
    requires d != 0 && n < 255
    ensures Power(n, d) != 0 && 0 <= Log(d) < 255 && Log(Power(n, d)) == Reduce(Log(d) + n)
  {
    hide Times2, Log;
    PowerZero(n, d);
    AlogOfLog(d);
    if n > 0 {
      LogPower(n - 1, d);
      LogTimes2(Power(n - 1, d));
    }
  }

  // The product as the source forms it: add the logarithms, look the sum up.
  function Product(d: bv8, e: int): bv8 { if d == 0 then 0 else Alog(Reduce(Log(d) + e)) }

  // It is multiplication by a power of the generator.
  lemma ProductIsPower(d: bv8, e: nat)
    requires e < 255
    ensures Product(d, e) == Power(e, d)
  {
    hide Log, Alog, Power;
    PowerZero(e, d);
    if d != 0 {
      LogPower(e, d);
      AlogOfLog(Power(e, d));
    }
  }

  lemma AlogIsPower(k: nat)
    requires k < 255
    ensures Alog(k) == Power(k, 1)
  {
    hide Alog, Power, Times2;
    LogPower(k, 1);
    AlogOfLog(Power(k, 1));
    assert Log(1) == 0;
  }

  lemma EveryElement(d: bv8)
    requires d != 0
    ensures 0 <= Log(d) < 255 && d == Power(Log(d), 1)
  {
    hide Log, Alog, Power;
    AlogOfLog(d);
    AlogIsPower(Log(d));
  }
}
