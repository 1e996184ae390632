/**
  CRC-32 (section 3.2.9 of IEEE Std 802.3) as the bit-serial hardware computes it
  (rtl/interfaces/crc32.sv): the algebra of its step over the two-element field, what it detects,
  and the per-packet state machine.
 */
module Crc32 {

  const POLY: bv32 := 0xEDB88320
  const INIT: bv32 := 0xFFFF_FFFF

  // Word operations under names of their own, so that proofs above the level of single bits can
  // hide how they work.

  function Xor(a: bv32, b: bv32): bv32 { a ^ b }

  function Not(a: bv32): bv32 { !a }

  /** One place towards the low end. */
  function Shift(a: bv32): bv32 { a >> 1 }

  predicate Low(a: bv32) { a & 1 == 1 }

  predicate TopClear(a: bv32) { a & 0x8000_0000 == 0 }

  /** a moved up one place, with b as the new lowest bit. */
  function Append(a: bv32, b: bool): bv32 { if b then (a << 1) | 1 else a << 1 }

  /** All bits of a are bits of m. */
  predicate Within(a: bv32, m: bv32) { a & !m == 0 }

  /** One turn of the loop: the feedback bit is the low state bit xor the data bit. */
  function BitStep(s: bv32, b: bool): bv32 {
    if Low(s) != b then Xor(Shift(s), POLY) else Shift(s)
  }

  lemma StepOnWords(s: bv32, b: bool)
    ensures BitStep(s, b) == if (s & 1 == 1) != b then (s >> 1) ^ 0xEDB8_8320 else s >> 1
  {
  }

  /** The state after a bit string, first bit first. */
  function Bits(s: bv32, w: seq<bool>): bv32
    decreases |w|
  {
    if w == [] then s else Bits(BitStep(s, w[0]), w[1..])
  }

  /** The CRC of a bit string. */
  function Crc(w: seq<bool>): bv32 {
    Not(Bits(INIT, w))
  }

  lemma {:induction false} BitsOfConcat(s: bv32, a: seq<bool>, b: seq<bool>)
    ensures Bits(s, a + b) == Bits(Bits(s, a), b)
    decreases |a|
  {
    hide BitStep;
    if a == [] {
      assert a + b == b;
    } else {
      assert (a + b)[1..] == a[1..] + b;
      BitsOfConcat(BitStep(s, a[0]), a[1..], b);
    }
  }

  // ---------------------------------------------------------------------------
  // Bit-level facts
  // ---------------------------------------------------------------------------

  lemma XorCancelsLeft(a: bv32, b: bv32) ensures Xor(a, Xor(a, b)) == b {}

  lemma XorCommutes(a: bv32, b: bv32) ensures Xor(a, b) == Xor(b, a) {}

  lemma XorAssociates(a: bv32, b: bv32, c: bv32) ensures Xor(Xor(a, b), c) == Xor(a, Xor(b, c)) {}

  lemma XorZero(a: bv32) ensures Xor(a, 0) == a {}

  lemma XorSelf(a: bv32) ensures Xor(a, a) == 0 {}

  lemma XorOnes(a: bv32) ensures Xor(a, 0xFFFF_FFFF) == Not(a) {}

  lemma NotTwice(a: bv32) ensures Not(Not(a)) == a {}

  lemma XorCancels(a: bv32, b: bv32)
    ensures Xor(a, Xor(a, b)) == b
    ensures Xor(a, b) == Xor(b, a)
    ensures Xor(a, 0) == a && Xor(a, a) == 0
    ensures Xor(a, 0xFFFF_FFFF) == Not(a) && Not(Not(a)) == a
  {
    hide Xor, Not;
    XorCancelsLeft(a, b);
    XorCommutes(a, b);
    XorZero(a);
    XorSelf(a);
    XorOnes(a);
    NotTwice(a);
  }

  lemma XorShifts(a: bv32, b: bv32)
    ensures Shift(Xor(a, b)) == Xor(Shift(a), Shift(b))
    ensures Low(Xor(a, b)) == (Low(a) != Low(b))
  {
  }

  lemma ShiftOfAppend(v: bv32)
    requires TopClear(v)
    ensures Shift((v << 1) | 1) == v && Shift(v << 1) == v
  {
  }

  lemma LowOfAppend(v: bv32)
    ensures Low((v << 1) | 1) && !Low(v << 1)
  {
  }

  lemma AppendParts(v: bv32, b: bool)
    ensures TopClear(v) ==> Shift(Append(v, b)) == v
    ensures Low(Append(v, b)) == b
  {
    hide Shift, Low, TopClear;
    LowOfAppend(v);
    if TopClear(v) {
      ShiftOfAppend(v);
    }
  }

  lemma AppendOfParts(v: bv32)
    ensures Append(Shift(v), Low(v)) == v
  {
  }

  /** The top bit of the polynomial marks the steps that used it. */
  lemma ShiftedAway(s: bv32, t: bv32)
    ensures Shift(s) == Shift(t) && Low(s) == Low(t) ==> s == t
    ensures Xor(Shift(s), POLY) != Shift(t)
  {
    assert TopClear(Shift(t)) && TopClear(Shift(s));
    assert !TopClear(Xor(Shift(s), POLY));
  }

  lemma WithinUp(v: bv32, m: bv32)
    requires Within(v, m)
    ensures Within(v << 1, (m << 1) | 1)
  {
  }

  lemma WithinUpOne(v: bv32, m: bv32)
    requires Within(v, m)
    ensures Within((v << 1) | 1, (m << 1) | 1)
  {
  }

  lemma WithinDown(v: bv32, m: bv32)
    requires Within(v, (m << 1) | 1)
    ensures Within(Shift(v), m)
  {
  }

  lemma WithinShifts(v: bv32, m: bv32, b: bool)
    ensures Within(v, m) ==> Within(Append(v, b), Append(m, true))
    ensures Within(v, Append(m, true)) ==> Within(Shift(v), m)
  {
    hide Within, Shift;
    if Within(v, m) {
      WithinUp(v, m);
      WithinUpOne(v, m);
    }
    if Within(v, Append(m, true)) {
      WithinDown(v, m);
    }
  }

  lemma WithinClear(v: bv32, m: bv32)
    ensures Within(v, m) && TopClear(m) ==> TopClear(v)
    ensures Within(v, 0) ==> v == 0
    ensures Within(v, 0xFFFF_FFFF) && Within(0, m)
    ensures v < 256 ==> Within(v, 0xFF)
  {
  }

  // ---------------------------------------------------------------------------
  // The algebra of the step
  // ---------------------------------------------------------------------------

  function ZeroStep(s: bv32): bv32 {
    BitStep(s, false)
  }

  function ZeroSteps(s: bv32, n: nat): bv32
    decreases n
  {
    if n == 0 then s else ZeroSteps(ZeroStep(s), n - 1)
  }

  lemma StepIsInjective(s: bv32, t: bv32, b: bool)
    requires BitStep(s, b) == BitStep(t, b)
    ensures s == t
  {
    hide Xor, Shift, Low;
    ShiftedAway(s, t);
    ShiftedAway(t, s);
    XorCancels(POLY, Shift(s));
    XorCancels(POLY, Shift(t));
  }

  lemma {:induction false} StateIsRecoverable(s: bv32, t: bv32, w: seq<bool>)
    requires Bits(s, w) == Bits(t, w)
    ensures s == t
    decreases |w|
  {
    hide BitStep;
    if w != [] {
      StateIsRecoverable(BitStep(s, w[0]), BitStep(t, w[0]), w[1..]);
      StepIsInjective(s, t, w[0]);
    }
  }

  lemma {:induction false} ZeroStepsAreInjective(s: bv32, t: bv32, n: nat)
    requires ZeroSteps(s, n) == ZeroSteps(t, n)
    ensures s == t
    decreases n
  {
    hide BitStep;
    if n > 0 {
      ZeroStepsAreInjective(ZeroStep(s), ZeroStep(t), n - 1);
      StepIsInjective(s, t, false);
    }
  }

  /** The step is linear over the two-element field. */
  lemma StepIsLinear(s: bv32, t: bv32)
    ensures ZeroStep(Xor(s, t)) == Xor(ZeroStep(s), ZeroStep(t))
  {
    hide Xor, Shift, Low;
    var a, b := Shift(s), Shift(t);
    XorShifts(s, t);
    XorAssociates(a, b, POLY);
    XorAssociates(a, POLY, b);
    XorCancels(b, POLY);
    XorAssociates(a, POLY, Xor(b, POLY));
    XorCancels(POLY, b);
    XorCancels(a, b);
  }

  lemma {:induction false} StepsAreLinear(s: bv32, t: bv32, n: nat)
    ensures ZeroSteps(Xor(s, t), n) == Xor(ZeroSteps(s, n), ZeroSteps(t, n))
    decreases n
  {
    hide BitStep, Xor;
    if n > 0 {
      StepIsLinear(s, t);
      StepsAreLinear(ZeroStep(s), ZeroStep(t), n - 1);
    }
  }

  /** Up to 32 bits as a word, first bit lowest. */
  function Pack(w: seq<bool>): bv32 {
    if w == [] then 0 else Append(Pack(w[1..]), w[0])
  }

  /** The low n bits of a word, lowest first. */
  function Unpack(v: bv32, n: nat): (w: seq<bool>)
    ensures |w| == n
    decreases n
  {
    if n == 0 then [] else [Low(v)] + Unpack(Shift(v), n - 1)
  }

  /** n ones. */
  function Mask(n: nat): bv32 {
    if n == 0 then 0 else Append(Mask(n - 1), true)
  }

  lemma WholeMask()
    ensures Mask(8) == 0xFF
    ensures Mask(31) == 0x7FFF_FFFF
    ensures Mask(32) == 0xFFFF_FFFF
  {
    assert Mask(4) == 0xF;
    assert Mask(12) == 0xFFF;
    assert Mask(16) == 0xFFFF;
    assert Mask(20) == 0xF_FFFF;
    assert Mask(24) == 0xFF_FFFF;
    assert Mask(28) == 0xFFF_FFFF;
  }

  lemma {:induction false} PackIsWithin(w: seq<bool>)
    ensures Within(Pack(w), Mask(|w|))
  {
    hide Within, Append;
    if w == [] {
      WithinClear(0, 0);
    } else {
      PackIsWithin(w[1..]);
      WithinShifts(Pack(w[1..]), Mask(|w| - 1), w[0]);
    }
  }

  lemma {:induction false} MaskGrows(n: nat)
    ensures Within(Mask(n), Mask(n + 1))
  {
    hide Within, Append;
    if n == 0 {
      WithinClear(0, Mask(1));
    } else {
      MaskGrows(n - 1);
      WithinShifts(Mask(n - 1), Mask(n), true);
    }
  }

  lemma {:induction false} ShortMaskIsClear(n: nat)
    requires n <= 31
    ensures TopClear(Mask(n))
    decreases 31 - n
  {
    if n == 31 {
      WholeMask();
    } else {
      hide Within, Append, TopClear;
      ShortMaskIsClear(n + 1);
      MaskGrows(n);
      WithinClear(Mask(n), Mask(n + 1));
    }
  }

  lemma ShortPackIsClear(w: seq<bool>)
    requires |w| <= 31
    ensures TopClear(Pack(w))
  {
    hide Within, TopClear;
    PackIsWithin(w);
    ShortMaskIsClear(|w|);
    WithinClear(Pack(w), Mask(|w|));
  }

  /** A data bit can be mixed into the state before the step instead of during it. */
  lemma AbsorbOne(s: bv32, v: bv32, b: bool)
    requires TopClear(v)
    ensures ZeroStep(Xor(s, Append(v, b))) == Xor(BitStep(s, b), v)
  {
    hide Xor, Shift, Low, TopClear, Append;
    var a := Shift(s);
    XorShifts(s, Append(v, b));
    AppendParts(v, b);
    XorAssociates(a, v, POLY);
    XorCancels(v, POLY);
    XorAssociates(a, POLY, v);
  }

  /** Up to 32 steps over data are as many zero-input steps of the state xor the data. */
  lemma {:induction false} Absorb(s: bv32, w: seq<bool>)
    requires |w| <= 32
    ensures Bits(s, w) == ZeroSteps(Xor(s, Pack(w)), |w|)
    decreases |w|
  {
    hide BitStep, Xor, Append, TopClear;
    if w == [] {
      XorCancels(s, 0);
    } else {
      Absorb(BitStep(s, w[0]), w[1..]);
      ShortPackIsClear(w[1..]);
      AbsorbOne(s, Pack(w[1..]), w[0]);
    }
  }

  lemma {:induction false} PackIsInjective(w: seq<bool>, x: seq<bool>)
    requires |w| == |x| <= 32 && Pack(w) == Pack(x)
    ensures w == x
  {
    hide Append, TopClear, Shift, Low;
    if w != [] {
      ShortPackIsClear(w[1..]);
      ShortPackIsClear(x[1..]);
      AppendParts(Pack(w[1..]), w[0]);
      AppendParts(Pack(x[1..]), x[0]);
      PackIsInjective(w[1..], x[1..]);
    }
  }

  lemma {:induction false} PackOfUnpack(v: bv32, n: nat)
    requires Within(v, Mask(n))
    ensures Pack(Unpack(v, n)) == v
    decreases n
  {
    hide Within, Append, Shift, Low;
    if n == 0 {
      WithinClear(v, 0);
    } else {
      WithinShifts(v, Mask(n - 1), false);
      PackOfUnpack(Shift(v), n - 1);
      AppendOfParts(v);
    }
  }

  lemma PackOfWord(c: bv32)
    ensures Pack(Unpack(c, 32)) == c
  {
    WholeMask();
    WithinClear(c, 0);
    hide Within, Mask;
    PackOfUnpack(c, 32);
  }

  // ---------------------------------------------------------------------------
  // Burst detection
  // ---------------------------------------------------------------------------

  lemma {:induction false} DifferentWindows(s: bv32, u: seq<bool>, v: seq<bool>)
    requires |u| == |v| <= 32 && Bits(s, u) == Bits(s, v)
    ensures u == v
  {
    hide Xor, Bits, ZeroSteps, Pack;
    Absorb(s, u);
    Absorb(s, v);
    ZeroStepsAreInjective(Xor(s, Pack(u)), Xor(s, Pack(v)), |u|);
    XorCancels(s, Pack(u));
    XorCancels(s, Pack(v));
    PackIsInjective(u, v);
  }

  lemma ThreeParts(x: seq<bool>, from: nat, to: nat)
    requires from <= to <= |x|
    ensures x == x[..from] + (x[from..to] + x[to..])
    ensures Bits(INIT, x) == Bits(Bits(Bits(INIT, x[..from]), x[from..to]), x[to..])
  {
    hide Bits;
    Parts(x, from, to);
    BitsOfThree(INIT, x[..from], x[from..to], x[to..]);
  }

  lemma Parts<T>(x: seq<T>, from: nat, to: nat)
    requires from <= to <= |x|
    ensures x == x[..from] + (x[from..to] + x[to..])
  {
  }

  lemma BitsOfThree(s: bv32, a: seq<bool>, b: seq<bool>, c: seq<bool>)
    ensures Bits(s, a + (b + c)) == Bits(Bits(Bits(s, a), b), c)
  {
    hide Bits;
    BitsOfConcat(s, a, b + c);
    BitsOfConcat(Bits(s, a), b, c);
  }

  /** Two streams of the same length whose differences lie within 32 consecutive bits have different CRCs. */
  lemma BurstsAreDetected(x: seq<bool>, y: seq<bool>, from: nat, to: nat)
    requires |x| == |y| && from <= to <= |x| && to - from <= 32
    requires x[..from] == y[..from] && x[to..] == y[to..] && x != y
    ensures Crc(x) != Crc(y)
  {
    hide Bits, Not;
    ThreeParts(x, from, to);
    ThreeParts(y, from, to);
    if Crc(x) == Crc(y) {
      var s, u, v := Bits(INIT, x[..from]), x[from..to], y[from..to];
      XorCancels(Bits(INIT, x), 0);
      XorCancels(Bits(INIT, y), 0);
      StateIsRecoverable(Bits(s, u), Bits(s, v), x[to..]);
      DifferentWindows(s, u, v);
    }
  }

  /** The bound is sharp: two different windows of 33 bits are confused exactly when their
      difference is the generator polynomial. */
  lemma Burst33IsMissedExactlyWhen(s: bv32, u: seq<bool>, v: seq<bool>)
    requires |u| == |v| == 33 && u != v
    ensures Bits(s, u) == Bits(s, v) <==> u[0] != v[0] && Xor(Pack(u[1..]), Pack(v[1..])) == POLY
  {
    hide Bits, Pack;
    var p, q := u[1..], v[1..];
    FirstBit(s, u);
    FirstBit(s, v);
    assert p == q && u[0] == v[0] ==> u == v by {
      assert u == [u[0]] + p && v == [v[0]] + q;
    }
    if u[0] == v[0] {
      if Bits(s, u) == Bits(s, v) {
        DifferentWindows(BitStep(s, u[0]), p, q);
      }
    } else if Low(s) != u[0] {
      hide Xor, Shift, Low;
      SameAfter32(Xor(Shift(s), POLY), p, Shift(s), q);
      Difference(Shift(s), Pack(p), Pack(q));
    } else {
      hide Xor, Shift, Low;
      SameAfter32(Xor(Shift(s), POLY), q, Shift(s), p);
      Difference(Shift(s), Pack(q), Pack(p));
      XorCommutes(Pack(p), Pack(q));
    }
  }

  lemma FirstBit(s: bv32, w: seq<bool>)
    requires w != []
    ensures Bits(s, w) == Bits(BitStep(s, w[0]), w[1..])
  {
  }

  lemma SameAfter32(s: bv32, p: seq<bool>, t: bv32, q: seq<bool>)
    requires |p| == |q| == 32
    ensures Bits(s, p) == Bits(t, q) <==> Xor(s, Pack(p)) == Xor(t, Pack(q))
  {
    hide Bits, Xor, Pack, ZeroSteps;
    Absorb(s, p);
    Absorb(t, q);
    if Bits(s, p) == Bits(t, q) {
      ZeroStepsAreInjective(Xor(s, Pack(p)), Xor(t, Pack(q)), 32);
    }
  }

  lemma Difference(t: bv32, p: bv32, q: bv32)
    ensures Xor(Xor(t, POLY), p) == Xor(t, q) <==> Xor(p, q) == POLY
  {
    hide Xor;
    XorAssociates(t, POLY, p);
    XorCancels(t, Xor(POLY, p));
    XorCancels(t, q);
    XorCancels(p, q);
    XorCancels(p, POLY);
  }

  // ---------------------------------------------------------------------------
  // Residue
  // ---------------------------------------------------------------------------

  const RESIDUE: bv32 := 0x2144_DF1C

  /** Eight zero-input steps. */
  function ByteSteps(s: bv32): bv32 {
    ZeroStep(ZeroStep(ZeroStep(ZeroStep(ZeroStep(ZeroStep(ZeroStep(ZeroStep(s))))))))
  }

  lemma FourSteps(s: bv32, n: nat)
    ensures ZeroSteps(s, n + 4) == ZeroSteps(ZeroStep(ZeroStep(ZeroStep(ZeroStep(s)))), n)
  {
    hide ZeroStep;
    assert ZeroSteps(s, n + 4) == ZeroSteps(ZeroStep(s), n + 3);
    assert ZeroSteps(ZeroStep(s), n + 3) == ZeroSteps(ZeroStep(ZeroStep(s)), n + 2);
    assert ZeroSteps(ZeroStep(ZeroStep(s)), n + 2) == ZeroSteps(ZeroStep(ZeroStep(ZeroStep(s))), n + 1);
  }

  lemma ByteAtATime(s: bv32, n: nat)
    ensures ZeroSteps(s, n + 8) == ZeroSteps(ByteSteps(s), n)
  {
    hide ZeroSteps;
    FourSteps(s, n + 4);
    FourSteps(ZeroStep(ZeroStep(ZeroStep(ZeroStep(s)))), n);
    hide ZeroStep;
  }

  lemma FirstByte()
    ensures ByteSteps(0xFFFF_FFFF) == 0x2DFD_1072
  {
    assert ZeroStep(0xFFFF_FFFF) == 0x9247_7CDF;
    assert ZeroStep(0x9247_7CDF) == 0xA49B_3D4F;
    assert ZeroStep(0xA49B_3D4F) == 0xBFF5_1D87;
    assert ZeroStep(0xBFF5_1D87) == 0xB242_0DE3;
    assert ZeroStep(0xB242_0DE3) == 0xB499_85D1;
    assert ZeroStep(0xB499_85D1) == 0xB7F4_41C8;
    assert ZeroStep(0xB7F4_41C8) == 0x5BFA_20E4;
    assert ZeroStep(0x5BFA_20E4) == 0x2DFD_1072;
    hide ZeroStep;
  }

  lemma SecondByte()
    ensures ByteSteps(0x2DFD_1072) == 0xBE26_ED00
  {
    assert ZeroStep(0x2DFD_1072) == 0x16FE_8839;
    assert ZeroStep(0x16FE_8839) == 0xE6C7_C73C;
    assert ZeroStep(0xE6C7_C73C) == 0x7363_E39E;
    assert ZeroStep(0x7363_E39E) == 0x39B1_F1CF;
    assert ZeroStep(0x39B1_F1CF) == 0xF160_7BC7;
    assert ZeroStep(0xF160_7BC7) == 0x9508_BEC3;
    assert ZeroStep(0x9508_BEC3) == 0xA73C_DC41;
    assert ZeroStep(0xA73C_DC41) == 0xBE26_ED00;
    hide ZeroStep;
  }

  lemma ThirdByte()
    ensures ByteSteps(0xBE26_ED00) == 0x00BE_26ED
  {
    assert ZeroStep(0xBE26_ED00) == 0x5F13_7680;
    assert ZeroStep(0x5F13_7680) == 0x2F89_BB40;
    assert ZeroStep(0x2F89_BB40) == 0x17C4_DDA0;
    assert ZeroStep(0x17C4_DDA0) == 0x0BE2_6ED0;
    assert ZeroStep(0x0BE2_6ED0) == 0x05F1_3768;
    assert ZeroStep(0x05F1_3768) == 0x02F8_9BB4;
    assert ZeroStep(0x02F8_9BB4) == 0x017C_4DDA;
    assert ZeroStep(0x017C_4DDA) == 0x00BE_26ED;
    hide ZeroStep;
  }

  lemma FourthByte()
    ensures ByteSteps(0x00BE_26ED) == 0xDEBB_20E3
  {
    assert ZeroStep(0x00BE_26ED) == 0xEDE7_9056;
    assert ZeroStep(0xEDE7_9056) == 0x76F3_C82B;
    assert ZeroStep(0x76F3_C82B) == 0xD6C1_6735;
    assert ZeroStep(0xD6C1_6735) == 0x86D8_30BA;
    assert ZeroStep(0x86D8_30BA) == 0x436C_185D;
    assert ZeroStep(0x436C_185D) == 0xCC0E_8F0E;
    assert ZeroStep(0xCC0E_8F0E) == 0x6607_4787;
    assert ZeroStep(0x6607_4787) == 0xDEBB_20E3;
    hide ZeroStep;
  }

  lemma AllOnes()
    ensures ZeroSteps(0xFFFF_FFFF, 32) == Not(RESIDUE)
  {
    ByteAtATime(0xFFFF_FFFF, 24);
    ByteAtATime(0x2DFD_1072, 16);
    ByteAtATime(0xBE26_ED00, 8);
    ByteAtATime(0x00BE_26ED, 0);
    FirstByte();
    SecondByte();
    ThirdByte();
    FourthByte();
    hide ByteSteps, ZeroStep;
  }

  /** A frame check: appending a word to a stream gives the fixed residue exactly when the word is the
      CRC of the stream, lowest bit first. */
  lemma ResidueExactlyWhen(x: seq<bool>, c: bv32)
    ensures Crc(x + Unpack(c, 32)) == RESIDUE <==> c == Crc(x)
  {
    var s := Bits(INIT, x);
    AllOnes();
    hide Xor, Not, Bits, ZeroSteps, Pack, Unpack;
    BitsOfConcat(INIT, x, Unpack(c, 32));
    PackOfWord(c);
    Absorb(s, Unpack(c, 32));
    XorCancels(RESIDUE, 0);
    XorCancels(Bits(s, Unpack(c, 32)), 0);
    if ZeroSteps(Xor(s, c), 32) == ZeroSteps(0xFFFF_FFFF, 32) {
      ZeroStepsAreInjective(Xor(s, c), 0xFFFF_FFFF, 32);
    }
    XorCancels(s, c);
    XorCancels(s, 0xFFFF_FFFF);
  }

  // ---------------------------------------------------------------------------
  // Bytes
  // ---------------------------------------------------------------------------

  function ByteWord(b: bv8): (w: bv32)
    ensures w < 256
  {
    b as bv32
  }

  /** The bits of a byte string, lowest bit of each byte first. */
  function BitsOf(data: seq<bv8>): (w: seq<bool>)
    ensures |w| == 8 * |data|
  {
    if data == [] then [] else BitsOf(data[..|data| - 1]) + Unpack(ByteWord(data[|data| - 1]), 8)
  }

  lemma BitsOfSnoc(data: seq<bv8>, b: bv8)
    ensures BitsOf(data + [b]) == BitsOf(data) + Unpack(ByteWord(b), 8)
  {
    assert (data + [b])[..|data|] == data;
  }

  lemma {:induction false} BitsOfJoin(a: seq<bv8>, b: seq<bv8>)
    ensures BitsOf(a + b) == BitsOf(a) + BitsOf(b)
  {
    hide ByteWord, Unpack;
    if b == [] {
      assert a + b == a;
    } else {
      var init, x := b[..|b| - 1], b[|b| - 1];
      assert a + b == (a + init) + [x] && b == init + [x];
      BitsOfSnoc(a + init, x);
      BitsOfSnoc(init, x);
      BitsOfJoin(a, init);
    }
  }

  lemma NoBits(s: bv32)
    ensures Bits(s, []) == s
  {
  }

  // ---------------------------------------------------------------------------
  // The hardware
  // ---------------------------------------------------------------------------

  /** crc_state, crc_out and crc_valid. */
  datatype Unit = Unit(state: bv32, out: bv32, valid: bool)

  /** One input word of whole bytes, lane 0 first, with its strobes. */
  datatype Cycle = Cycle(word: seq<bv8>, valid: bool, last: bool)

  const RESET := Unit(INIT, 0, false)

  function UnitNext(u: Unit, x: Cycle): Unit {
    if x.valid then
      var next := Bits(u.state, BitsOf(x.word));
      if x.last then Unit(INIT, Not(next), true) else Unit(next, u.out, false)
    else u.(valid := false)
  }

  function UnitAt(run: seq<Cycle>, t: nat): Unit
    requires t <= |run|
  {
    if t == 0 then RESET else UnitNext(UnitAt(run, t - 1), run[t - 1])
  }

  /** The values of crc_out while crc_valid is high. */
  function Outputs(run: seq<Cycle>, t: nat): seq<bv32>
    requires t <= |run|
  {
    if t == 0 then []
    else Outputs(run, t - 1) + if UnitAt(run, t).valid then [UnitAt(run, t).out] else []
  }

  /** The bytes of the packet that is open before edge t. */
  function Open(run: seq<Cycle>, t: nat): seq<bv8>
    requires t <= |run|
  {
    if t == 0 then []
    else if !run[t - 1].valid then Open(run, t - 1)
    else if run[t - 1].last then []
    else Open(run, t - 1) + run[t - 1].word
  }

  /** The packets that were completed before edge t. */
  function Completed(run: seq<Cycle>, t: nat): seq<seq<bv8>>
    requires t <= |run|
  {
    if t == 0 then []
    else if run[t - 1].valid && run[t - 1].last then Completed(run, t - 1) + [Open(run, t - 1) + run[t - 1].word]
    else Completed(run, t - 1)
  }

  lemma {:induction false} StateIsOpenPacket(run: seq<Cycle>, t: nat)
    requires t <= |run|
    ensures UnitAt(run, t).state == Bits(INIT, BitsOf(Open(run, t)))
  {
    hide Bits, BitsOf;
    NoBits(INIT);
    NoBytes();
    if t > 0 {
      StateIsOpenPacket(run, t - 1);
      WordAdds(Open(run, t - 1), run[t - 1].word);
    }
  }

  lemma WordAdds(open: seq<bv8>, word: seq<bv8>)
    ensures Bits(Bits(INIT, BitsOf(open)), BitsOf(word)) == Bits(INIT, BitsOf(open + word))
  {
    hide Bits, BitsOf;
    BitsOfJoin(open, word);
    BitsOfConcat(INIT, BitsOf(open), BitsOf(word));
  }

  lemma NoBytes()
    ensures BitsOf([]) == []
  {
  }

  /** On the wires: when the last word of a packet carries the word c, lowest bit first, the reported
      value is the residue exactly when c is the CRC of the words before it. */
  lemma FrameCheck(run: seq<Cycle>, t: nat, c: bv32)
    requires t < |run| && run[t].valid && run[t].last && BitsOf(run[t].word) == Unpack(c, 32)
    ensures UnitAt(run, t + 1).out == RESIDUE <==> c == Crc(BitsOf(Open(run, t)))
  {
    hide Bits, BitsOf, Open, Not, Unpack;
    StateIsOpenPacket(run, t);
    BitsOfConcat(INIT, BitsOf(Open(run, t)), Unpack(c, 32));
    ResidueExactlyWhen(BitsOf(Open(run, t)), c);
  }

  class CrcUnit {
    var crcState: bv32
    var crcOut: bv32
    var crcValid: bool

    ghost function State(): Unit
      reads this
    {
      Unit(crcState, crcOut, crcValid)
    }

    constructor ()
      ensures State() == RESET
    {
      crcState, crcOut, crcValid := INIT, 0, false;
    }

    /** The combinational loop over the data bits. */
    method CrcNext(dataIn: seq<bool>) returns (crcNext: bv32)
      ensures crcNext == Bits(crcState, dataIn)
    {
      hide BitStep;
      crcNext := crcState;
      for i := 0 to |dataIn|
        invariant Bits(crcState, dataIn) == Bits(crcNext, dataIn[i..])
      {
        FirstBit(crcNext, dataIn[i..]);
        StepOnWords(crcNext, dataIn[i]);
        var fb := (crcNext & 1 == 1) != dataIn[i];
        crcNext := crcNext >> 1;
        if fb {
          crcNext := crcNext ^ 0xEDB8_8320;
        }
      }
      NoBits(crcNext);
    }

    method Clock(rstN: bool, x: Cycle)
      modifies this
      ensures State() == if rstN then UnitNext(old(State()), x) else RESET
    {
      hide Bits, BitsOf, Not;
      var crcNext := CrcNext(BitsOf(x.word));
      if !rstN {
        crcState, crcOut, crcValid := INIT, 0, false;
      } else {
        crcValid := false;
        if x.valid {
          if x.last {
            crcState := INIT;
            crcOut := Not(crcNext);
            crcValid := true;
          } else {
            crcState := crcNext;
          }
        }
      }
    }
  }
}
