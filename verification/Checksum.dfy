/** The 40-bit polymod checksum of Kaspa addresses. */
module Checksum {
  import opened Bytes
  import opened BitStrings
  import opened Regroup

  const POW35: nat := 0x8_0000_0000
  const POW40: nat := 0x100_0000_0000

  const G1: nat := 0x98_f2bc_8e61
  const G2: nat := 0x79_b76d_99e2
  const G4: nat := 0xf3_3e5f_b3c4
  const G8: nat := 0xae_2eab_e2a8
  const G16: nat := 0x1e_4f43_e470

  function XorIf(on: bool, c: nat, g: nat): nat {
    if on then Xor(c, g) else c
  }

  /** One round of the loop. */
  function PolyStep(c: nat, d: Symbol): nat {
    var c0 := c / POW35;
    var c1 := Xor(c % POW35 * 32, d);
    var c2 := XorIf(c0 % 2 == 1, c1, G1);
    var c3 := XorIf(c0 / 2 % 2 == 1, c2, G2);
    var c4 := XorIf(c0 / 4 % 2 == 1, c3, G4);
    var c5 := XorIf(c0 / 8 % 2 == 1, c4, G8);
    XorIf(c0 / 16 % 2 == 1, c5, G16)
  }

  function Poly(c: nat, ds: seq<Symbol>): nat {
    if ds == [] then c else PolyStep(Poly(c, ds[..|ds| - 1]), ds[|ds| - 1])
  }

  // ---- the same on words of forty bits ----

  type Word = w: Bits | |w| == 40 witness Zeros(40)
  type Five = w: Bits | |w| == 5 witness Zeros(5)

  function XorMask(on: bool, w: Word, g: Word): Word {
    if on then XorBits(w, g) else w
  }

  /** The generator words; the constants' low five bits are 1, 2, 4, 8 and 16. */
  function Gen(g: nat): Word {
    BitsOf(g, 40)
  }

  function WordStep(w: Word, d: Five): Word {
    var shifted: Word := w[5..] + d;
    XorMask(w[0], XorMask(w[1], XorMask(w[2], XorMask(w[3], XorMask(w[4], shifted, Gen(G1)), Gen(G2)), Gen(G4)),
        Gen(G8)), Gen(G16))
  }

  lemma {:induction false} Powers()
    ensures Pow2(5) == 32 && Pow2(35) == POW35 && Pow2(40) == POW40
  {
    assert Pow2(5) == 32;
    assert Pow2(10) == 1024 by {
      Pow2Sum(5, 5);
    }
    assert Pow2(20) == 0x10_0000 by {
      Pow2Sum(10, 10);
    }
    Pow2Sum(20, 10);
    Pow2Sum(30, 5);
    Pow2Sum(30, 10);
  }

  /** The top five bits, and each of them as the code tests it. */
  lemma {:induction false} TopBits(w: Word)
    ensures
      var c := Value(w);
      var c0 := c / POW35;
      && c < POW40 && c % POW35 == Value(w[5..]) < POW35
      && (c0 % 2 == 1 <==> w[4]) && (c0 / 2 % 2 == 1 <==> w[3]) && (c0 / 4 % 2 == 1 <==> w[2])
      && (c0 / 8 % 2 == 1 <==> w[1]) && (c0 / 16 % 2 == 1 <==> w[0])
  {
    hide Pow2, Value;
    Powers();
    var hi, lo := w[..5], w[5..];
    assert w == hi + lo && |w| == 40 && |lo| == 35;
    ValueConcat(hi, lo);
    FiveBits(hi);
    Parts(Value(w), Value(hi), Value(lo));
  }

  lemma Parts(v: nat, hi: nat, lo: nat)
    requires v == hi * POW35 + lo && lo < POW35
    ensures v / POW35 == hi && v % POW35 == lo
  {
  }

  lemma {:induction false} LastBit(b: Bits)
    requires b != []
    ensures (Value(b) % 2 == 1 <==> b[|b| - 1]) && Value(b) / 2 == Value(b[..|b| - 1])
  {
    hide Pow2;
  }

  lemma {:induction false} FiveBits(b: Bits)
    requires |b| == 5
    ensures
      var v := Value(b);
      && (v % 2 == 1 <==> b[4]) && (v / 2 % 2 == 1 <==> b[3]) && (v / 4 % 2 == 1 <==> b[2])
      && (v / 8 % 2 == 1 <==> b[1]) && (v / 16 % 2 == 1 <==> b[0])
  {
    hide Pow2, Value;
    LastBit(b);
    LastBit(b[..4]);
    LastBit(b[..3]);
    LastBit(b[..2]);
    LastBit(b[..1]);
    assert b[..4][..3] == b[..3] && b[..3][..2] == b[..2] && b[..2][..1] == b[..1];
    Halves(Value(b));
  }

  lemma Halves(v: nat)
    ensures v / 2 / 2 == v / 4 && v / 4 / 2 == v / 8 && v / 8 / 2 == v / 16
  {
  }

  /** Shifting in a symbol. */
  lemma {:induction false} ShiftIn(w: Word, d: Symbol)
    ensures Xor(Value(w[5..]) * 32, d) == Value(w[5..] + BitsOf(d, 5))
  {
    Powers();
    hide Pow2, Value, BitsOf, Zeros, Xor;
    var hi, five := w[5..], BitsOf(d, 5);
    ValueConcat(hi, Zeros(5));
    ZerosValue(5);
    ValueOfBits(d, 5);
    PadValue(35, five);
    XorValues(hi + Zeros(5), Zeros(35) + five);
    assert XorBits(hi + Zeros(5), Zeros(35) + five) == hi + five;
  }

  lemma {:induction false} MaskValue(on: bool, w: Word, g: nat)
    requires g < POW40
    ensures XorIf(on, Value(w), g) == Value(XorMask(on, w, Gen(g)))
  {
    Powers();
    hide Pow2, Value, BitsOf, Xor, XorBits;
    ValueOfBits(g, 40);
    XorValues(w, BitsOf(g, 40));
  }

  /** The checksum state never leaves forty bits, and a round on it is a round on words. */
  lemma {:induction false} StepIsWordStep(w: Word, d: Symbol)
    ensures PolyStep(Value(w), d) == Value(WordStep(w, BitsOf(d, 5)))
  {
    TopBits(w);
    ShiftIn(w, d);
    hide Pow2, Value, BitsOf, Xor, XorIf, XorMask, Gen;
    var w1: Word := w[5..] + BitsOf(d, 5);
    var w2 := XorMask(w[4], w1, Gen(G1));
    var w3 := XorMask(w[3], w2, Gen(G2));
    var w4 := XorMask(w[2], w3, Gen(G4));
    var w5 := XorMask(w[1], w4, Gen(G8));
    MaskValue(w[4], w1, G1);
    MaskValue(w[3], w2, G2);
    MaskValue(w[2], w3, G4);
    MaskValue(w[1], w4, G8);
    MaskValue(w[0], w5, G16);
  }

  lemma {:induction false} XorNothing(v: nat)
    requires v < POW40
    ensures Xor(0, v) == v && Xor(v, 0) == v
  {
    hide Pow2, Value, BitsOf, Xor, XorBits, Zeros;
    Powers();
    ValueOfBits(v, 40);
    ZerosValue(40);
    XorValues(Zeros(40), BitsOf(v, 40));
    XorValues(BitsOf(v, 40), Zeros(40));
    assert XorBits(Zeros(40), BitsOf(v, 40)) == BitsOf(v, 40) == XorBits(BitsOf(v, 40), Zeros(40));
  }

  /** What one round makes of a symbol alone, of the number one, and of each bit it shifts out. */
  lemma {:induction false} RoundTable(d: Symbol)
    ensures PolyStep(0, d) == d && PolyStep(1, 0) == 32
    ensures PolyStep(0x8_0000_0000, 0) == 0x98_f2bc_8e61
    ensures PolyStep(0x10_0000_0000, 0) == 0x79_b76d_99e2
    ensures PolyStep(0x20_0000_0000, 0) == 0xf3_3e5f_b3c4
    ensures PolyStep(0x40_0000_0000, 0) == 0xae_2eab_e2a8
    ensures PolyStep(0x80_0000_0000, 0) == 0x1e_4f43_e470
  {
    hide Xor;
    XorNothing(0);
    XorNothing(32);
    XorNothing(d);
    XorNothing(G1);
    XorNothing(G2);
    XorNothing(G4);
    XorNothing(G8);
    XorNothing(G16);
  }

  // ---- runs of rounds ----

  function Fives(ds: seq<Symbol>): (r: seq<Five>)
    ensures |r| == |ds|
  {
    seq(|ds|, i requires 0 <= i < |ds| => BitsOf(ds[i], 5))
  }

  function Fold(w: Word, fs: seq<Five>): Word {
    if fs == [] then w else WordStep(Fold(w, fs[..|fs| - 1]), fs[|fs| - 1])
  }

  lemma {:induction false} PolyIsFold(w: Word, ds: seq<Symbol>)
    ensures Poly(Value(w), ds) == Value(Fold(w, Fives(ds)))
    ensures Poly(Value(w), ds) < POW40
  {
    hide WordStep, PolyStep, BitsOf, Pow2, Value;
    if ds != [] {
      var n := |ds| - 1;
      PolyIsFold(w, ds[..n]);
      assert Fives(ds)[..n] == Fives(ds[..n]);
      StepIsWordStep(Fold(w, Fives(ds[..n])), ds[n]);
    }
    WordFits(Fold(w, Fives(ds)));
  }

  lemma {:induction false} WordFits(w: Word)
    ensures Value(w) < POW40
  {
    Powers();
    hide Pow2, Value;
  }

  lemma {:induction false} FoldConcat(w: Word, a: seq<Five>, b: seq<Five>)
    ensures Fold(w, a + b) == Fold(Fold(w, a), b)
  {
    hide WordStep;
    if b == [] {
      assert a + b == a;
    } else {
      var n := |b| - 1;
      assert (a + b)[..|a + b| - 1] == a + b[..n];
      FoldConcat(w, a, b[..n]);
    }
  }

  // ---- linearity ----

  function XorFives(a: seq<Five>, b: seq<Five>): (r: seq<Five>)
    requires |a| == |b|
    ensures |r| == |a|
  {
    seq(|a|, i requires 0 <= i < |a| => XorBits(a[i], b[i]))
  }

  lemma MaskLinear(on: bool, w: Word, on2: bool, w2: Word, g: Word)
    ensures XorMask(on != on2, XorBits(w, w2), g) == XorBits(XorMask(on, w, g), XorMask(on2, w2, g))
  {
  }

  /** A round is linear over exclusive or. */
  lemma {:induction false} StepLinear(a: Word, b: Word, x: Five, y: Five)
    ensures WordStep(XorBits(a, b), XorBits(x, y)) == XorBits(WordStep(a, x), WordStep(b, y))
  {
    hide XorMask, Gen;
    var g1, g2, g4, g8, g16 := Gen(G1), Gen(G2), Gen(G4), Gen(G8), Gen(G16);
    var a1: Word, b1: Word := a[5..] + x, b[5..] + y;
    TailLinear(a, b, x, y);
    hide XorBits;
    var a2, b2 := XorMask(a[4], a1, g1), XorMask(b[4], b1, g1);
    var a3, b3 := XorMask(a[3], a2, g2), XorMask(b[3], b2, g2);
    var a4, b4 := XorMask(a[2], a3, g4), XorMask(b[2], b3, g4);
    var a5, b5 := XorMask(a[1], a4, g8), XorMask(b[1], b4, g8);
    MaskLinear(a[4], a1, b[4], b1, g1);
    MaskLinear(a[3], a2, b[3], b2, g2);
    MaskLinear(a[2], a3, b[2], b3, g4);
    MaskLinear(a[1], a4, b[1], b4, g8);
    MaskLinear(a[0], a5, b[0], b5, g16);
  }

  lemma TailLinear(a: Word, b: Word, x: Five, y: Five)
    ensures XorBits(a, b)[5..] + XorBits(x, y) == XorBits(a[5..] + x, b[5..] + y)
  {
  }

  lemma {:induction false} FoldLinear(a: Word, b: Word, xs: seq<Five>, ys: seq<Five>)
    requires |xs| == |ys|
    ensures Fold(XorBits(a, b), XorFives(xs, ys)) == XorBits(Fold(a, xs), Fold(b, ys))
  {
    hide WordStep;
    if xs != [] {
      var n := |xs| - 1;
      FoldLinear(a, b, xs[..n], ys[..n]);
      assert XorFives(xs, ys)[..n] == XorFives(xs[..n], ys[..n]);
      StepLinear(Fold(a, xs[..n]), Fold(b, ys[..n]), xs[n], ys[n]);
    }
  }

  // ---- injectivity ----

  lemma {:induction false} GenLow(g: nat)
    requires g < POW40
    ensures Gen(g)[35..] == BitsOf(g % 32, 5)
  {
    Powers();
    hide Pow2, BitsOf;
    BitsSplit(g / 32, 35, g % 32, 5);
  }

  lemma {:induction false} LowBits()
    ensures BitsOf(1, 5) == [false, false, false, false, true] && BitsOf(2, 5) == [false, false, false, true, false]
    ensures BitsOf(4, 5) == [false, false, true, false, false] && BitsOf(8, 5) == [false, true, false, false, false]
    ensures BitsOf(16, 5) == [true, false, false, false, false]
  {
    assert BitsOf(0, 1) == [false] && BitsOf(1, 1) == [true];
    assert BitsOf(0, 2) == [false, false] && BitsOf(1, 2) == [false, true] && BitsOf(2, 2) == [true, false];
    assert BitsOf(1, 3) == [false, false, true] && BitsOf(2, 3) == [false, true, false]
        && BitsOf(4, 3) == [true, false, false];
    assert BitsOf(0, 3) == [false, false, false];
    assert BitsOf(0, 4) == [false, false, false, false] && BitsOf(1, 4) == [false, false, false, true];
    assert BitsOf(2, 4) == [false, false, true, false] && BitsOf(4, 4) == [false, true, false, false];
    assert BitsOf(8, 4) == [true, false, false, false];
  }

  function Mask5(on: bool, b: Five, g: Five): Five {
    if on then XorBits(b, g) else b
  }

  lemma {:induction false} FiveMasks(b: Bits)
    requires |b| == 5
    ensures
      Mask5(b[0], Mask5(b[1], Mask5(b[2], Mask5(b[3], Mask5(b[4], Zeros(5),
        [false, false, false, false, true]), [false, false, false, true, false]), [false, false, true, false, false]),
        [false, true, false, false, false]), [true, false, false, false, false]) == b
  {
    var m1 := Mask5(b[4], Zeros(5), [false, false, false, false, true]);
    assert m1 == [false, false, false, false, b[4]];
    var m2 := Mask5(b[3], m1, [false, false, false, true, false]);
    assert m2 == [false, false, false, b[3], b[4]];
    var m3 := Mask5(b[2], m2, [false, false, true, false, false]);
    assert m3 == [false, false, b[2], b[3], b[4]];
    var m4 := Mask5(b[1], m3, [false, true, false, false, false]);
    assert m4 == [false, b[1], b[2], b[3], b[4]];
  }

  /** The low five bits of a round without input are exactly the bits shifted out. */
  lemma {:induction false} StepKeepsTop(w: Word)
    ensures WordStep(w, Zeros(5))[35..] == w[..5]
  {
    hide Gen, BitsOf, XorMask, Mask5, Zeros;
    GenLow(G1);
    GenLow(G2);
    GenLow(G4);
    GenLow(G8);
    GenLow(G16);
    LowBits();
    var w1: Word := w[5..] + Zeros(5);
    assert w1[35..] == Zeros(5);
    var w2 := XorMask(w[4], w1, Gen(G1));
    var w3 := XorMask(w[3], w2, Gen(G2));
    var w4 := XorMask(w[2], w3, Gen(G4));
    var w5 := XorMask(w[1], w4, Gen(G8));
    MaskLow(w[4], w1, G1);
    MaskLow(w[3], w2, G2);
    MaskLow(w[2], w3, G4);
    MaskLow(w[1], w4, G8);
    MaskLow(w[0], w5, G16);
    FiveMasks(w[..5]);
  }

  lemma {:induction false} MaskLow(on: bool, w: Word, g: nat)
    ensures XorMask(on, w, Gen(g))[35..] == Mask5(on, w[35..], Gen(g)[35..])
  {
    hide Gen;
  }

  /** Only the zero word goes to the zero word. */
  lemma {:induction false} StepInjective(w: Word)
    requires WordStep(w, Zeros(5)) == Zeros(40)
    ensures w == Zeros(40)
  {
    StepKeepsTop(w);
    hide Gen;
    assert w[..5] == Zeros(40)[35..];
    assert !w[0] && !w[1] && !w[2] && !w[3] && !w[4] by {
      FirstFive(w);
    }
    assert WordStep(w, Zeros(5)) == w[5..] + Zeros(5);
    assert forall i :: 5 <= i < 40 ==> w[i] == (w[5..] + Zeros(5))[i - 5];
  }

  lemma {:induction false} FirstFive(w: Word)
    requires w[..5] == Zeros(40)[35..]
    ensures !w[0] && !w[1] && !w[2] && !w[3] && !w[4]
  {
    var five := w[..5];
    assert five[0] == w[0] && five[1] == w[1] && five[2] == w[2] && five[3] == w[3] && five[4] == w[4];
  }

  function NoFives(n: nat): seq<Five> {
    seq(n, i => Zeros(5))
  }

  lemma {:induction false} FoldInjective(w: Word, n: nat)
    requires Fold(w, NoFives(n)) == Zeros(40)
    ensures w == Zeros(40)
  {
    hide WordStep;
    if n > 0 {
      assert NoFives(n)[..n - 1] == NoFives(n - 1);
      StepInjective(Fold(w, NoFives(n - 1)));
      FoldInjective(w, n - 1);
    }
  }

  lemma {:induction false} FoldZeros(n: nat)
    ensures Fold(Zeros(40), NoFives(n)) == Zeros(40)
  {
    hide WordStep;
    if n > 0 {
      assert NoFives(n)[..n - 1] == NoFives(n - 1);
      FoldZeros(n - 1);
      ShiftOnly(Zeros(40), Zeros(5));
      assert Zeros(40)[5..] + Zeros(5) == Zeros(40);
    }
  }

  /** While the top five bits are zero a round only shifts. */
  lemma {:induction false} ShiftOnly(w: Word, d: Five)
    requires !w[0] && !w[1] && !w[2] && !w[3] && !w[4]
    ensures WordStep(w, d) == w[5..] + d
  {
    hide Gen;
  }

  /** Symbols one after the other. */
  function Spell(fs: seq<Five>): (b: Bits)
    ensures |b| == 5 * |fs|
  {
    if fs == [] then [] else Spell(fs[..|fs| - 1]) + fs[|fs| - 1]
  }

  /** Up to eight symbols from the zero word are just there, in order. */
  lemma {:induction false} FoldFromZero(fs: seq<Five>)
    requires |fs| <= 8
    ensures Fold(Zeros(40), fs) == Zeros(40 - 5 * |fs|) + Spell(fs)
  {
    hide WordStep;
    if fs == [] {
      assert Zeros(40) + [] == Zeros(40);
    } else {
      var n := |fs| - 1;
      FoldFromZero(fs[..n]);
      var w := Zeros(40 - 5 * n) + Spell(fs[..n]);
      ShiftOnly(w, fs[n]);
      assert w[5..] == Zeros(35 - 5 * n) + Spell(fs[..n]);
      assert Zeros(35 - 5 * n) + Spell(fs[..n]) + fs[n] == Zeros(35 - 5 * n) + (Spell(fs[..n]) + fs[n]);
    }
  }

  // ---- checksums ----

  function One(): Word {
    BitsOf(1, 40)
  }

  lemma {:induction false} OneIsOne()
    ensures Value(One()) == 1
  {
    Powers();
    hide Pow2, Value, BitsOf;
    ValueOfBits(1, 40);
  }

  /** `polymod`: it fits forty bits for every input. */
  method Polymod(values: seq<Symbol>) returns (r: nat)
    ensures r == Xor(Poly(1, values), 1) && r < POW40
  {
    hide PolyStep, Xor;
    OneIsOne();
    var c := 1;
    for i := 0 to |values|
      invariant c == Poly(1, values[..i]) && c < POW40
    {
      assert values[..i + 1][..i] == values[..i];
      PolyIsFold(One(), values[..i + 1]);
      c := PolyStep(c, values[i]);
    }
    assert values[..|values|] == values;
    ResidueFits(values);
    return Xor(c, 1);
  }

  lemma {:induction false} ResidueFits(values: seq<Symbol>)
    ensures Xor(Poly(1, values), 1) == Value(XorBits(Fold(One(), Fives(values)), One())) < POW40
  {
    hide Xor, Value, XorBits, BitsOf, Fold, Poly;
    OneIsOne();
    PolyIsFold(One(), values);
    XorValues(Fold(One(), Fives(values)), One());
    WordFits(XorBits(Fold(One(), Fives(values)), One()));
  }

  function ZeroSymbols(n: nat): seq<Symbol> {
    seq(n, i => 0)
  }

  /** `checksum_value`: of the prefix, a zero, the payload, and eight zeros. */
  function ChecksumOf(prefix: seq<Symbol>, payload: seq<Symbol>): nat {
    Xor(Poly(1, prefix + [0] + payload + ZeroSymbols(8)), 1)
  }

  method ChecksumValue(payload: seq<Symbol>, prefix: seq<Symbol>) returns (r: nat)
    ensures r == ChecksumOf(prefix, payload) && r < POW40
  {
    r := Polymod(prefix + [0] + payload + ZeroSymbols(8));
  }

  /** The residue of the prefix, a zero, and all data symbols, checksum included. */
  function Residue(prefix: seq<Symbol>, data: seq<Symbol>): Word {
    Fold(One(), Fives(prefix + [0] + data))
  }

  lemma {:induction false} FivesConcat(a: seq<Symbol>, b: seq<Symbol>)
    ensures Fives(a + b) == Fives(a) + Fives(b)
  {
    hide BitsOf;
  }

  lemma {:induction false} ZeroFives(n: nat)
    ensures Fives(ZeroSymbols(n)) == NoFives(n)
  {
    ZeroBits(5);
    hide BitsOf;
  }

  lemma {:induction false} SpellIsBits(ds: seq<Symbol>)
    ensures Spell(Fives(ds)) == Bits5(ds)
  {
    hide BitsOf;
    if ds != [] {
      var n := |ds| - 1;
      SpellIsBits(ds[..n]);
      assert Fives(ds)[..n] == Fives(ds[..n]);
    }
  }

  lemma {:induction false} XorWithNone(fs: seq<Five>)
    ensures XorFives(NoFives(|fs|), fs) == fs
  {
    forall i | 0 <= i < |fs|
      ensures XorFives(NoFives(|fs|), fs)[i] == fs[i]
    {
      assert XorBits(Zeros(5), fs[i]) == fs[i];
    }
  }

  /** Eight more symbols in place of eight zeros add themselves to the state. */
  lemma {:induction false} EightSymbols(w: Word, cs: seq<Symbol>)
    requires |cs| == 8
    ensures Fold(w, Fives(cs)) == XorBits(Fold(w, NoFives(8)), Bits5(cs))
  {
    hide Fold, BitsOf, Spell;
    FoldLinear(w, Zeros(40), NoFives(8), Fives(cs));
    FoldFromZero(Fives(cs));
    SpellIsBits(cs);
    assert XorBits(w, Zeros(40)) == w;
    XorWithNone(Fives(cs));
    assert Zeros(0) + Bits5(cs) == Bits5(cs);
  }

  /** The checksum is the number the last eight symbols spell exactly when the whole word leaves no residue. */
  lemma {:induction false} ChecksumIsResidue(prefix: seq<Symbol>, payload: seq<Symbol>, cs: seq<Symbol>)
    requires |cs| == 8
    ensures ChecksumOf(prefix, payload) == Value(Bits5(cs)) <==> Residue(prefix, payload + cs) == One()
  {
    hide Fold, BitsOf, Poly, Value, Bits5, XorBits, Xor, Fives, NoFives;
    var front := prefix + [0] + payload;
    var w := Fold(One(), Fives(front));
    assert prefix + [0] + (payload + cs) == front + cs;
    FivesConcat(front, cs);
    FoldConcat(One(), Fives(front), Fives(cs));
    EightSymbols(w, cs);
    FivesConcat(front, ZeroSymbols(8));
    ZeroFives(8);
    FoldConcat(One(), Fives(front), NoFives(8));
    ResidueFits(front + ZeroSymbols(8));
    var z := Fold(w, NoFives(8));
    assert ChecksumOf(prefix, payload) == Value(XorBits(z, One()));
    BitsOfValue(XorBits(z, One()));
    BitsOfValue(Bits5(cs));
    XorMoves(z, One(), Bits5(cs));
  }

  lemma {:induction false} XorMoves(z: Bits, one: Bits, c: Bits)
    requires |z| == |one| == |c|
    ensures XorBits(z, one) == c <==> XorBits(z, c) == one
  {
    if XorBits(z, one) == c {
      assert forall i :: 0 <= i < |z| ==> XorBits(z, one)[i] == c[i];
    }
    if XorBits(z, c) == one {
      assert forall i :: 0 <= i < |z| ==> XorBits(z, c)[i] == one[i];
    }
  }

  // ---- burst errors ----

  /** The two words agree outside eight consecutive places from `i`. */
  ghost predicate DifferInWindow(a: seq<Symbol>, b: seq<Symbol>, i: nat) {
    |a| == |b| && i + 8 <= |a| && forall j :: 0 <= j < |a| && !(i <= j < i + 8) ==> a[j] == b[j]
  }

  lemma {:induction false} DifferenceOf(a: seq<Symbol>, b: seq<Symbol>, i: nat)
    requires DifferInWindow(a, b, i)
    ensures XorFives(Fives(a), Fives(b))
              == NoFives(i) + XorFives(Fives(a[i..i + 8]), Fives(b[i..i + 8])) + NoFives(|a| - i - 8)
  {
    var d := XorFives(Fives(a), Fives(b));
    var e := NoFives(i) + XorFives(Fives(a[i..i + 8]), Fives(b[i..i + 8])) + NoFives(|a| - i - 8);
    hide BitsOf;
    forall j | 0 <= j < |a|
      ensures d[j] == e[j]
    {
      if i <= j < i + 8 {
        assert a[i..i + 8][j - i] == a[j] && b[i..i + 8][j - i] == b[j];
      } else {
        assert XorBits(Fives(a)[j], Fives(b)[j]) == Zeros(5);
      }
    }
  }

  /** Two words with the same residue cannot differ only inside a window of eight. */
  lemma {:induction false} BurstDetected(start: Word, a: seq<Symbol>, b: seq<Symbol>, i: nat)
    requires DifferInWindow(a, b, i) && Fold(start, Fives(a)) == Fold(start, Fives(b))
    ensures a == b
  {
    hide Fold, BitsOf, Fives, NoFives, XorFives, Spell;
    var win := XorFives(Fives(a[i..i + 8]), Fives(b[i..i + 8]));
    var tail := |a| - i - 8;
    FoldLinear(start, start, Fives(a), Fives(b));
    SameIsZero(start);
    SameIsZero(Fold(start, Fives(a)));
    DifferenceOf(a, b, i);
    FoldConcat(Zeros(40), NoFives(i) + win, NoFives(tail));
    FoldConcat(Zeros(40), NoFives(i), win);
    FoldZeros(i);
    FoldInjective(Fold(Zeros(40), win), tail);
    FoldFromZero(win);
    SpelledZero(win);
    WindowEqual(a, b, i, win);
  }

  lemma SameIsZero(w: Word)
    ensures XorBits(w, w) == Zeros(40)
  {
  }

  lemma {:induction false} SpellZeros(fs: seq<Five>)
    requires Spell(fs) == Zeros(5 * |fs|)
    ensures forall i :: 0 <= i < |fs| ==> fs[i] == Zeros(5)
  {
    if fs != [] {
      var n := |fs| - 1;
      assert Spell(fs[..n]) == Spell(fs)[..5 * n] == Zeros(5 * n);
      assert fs[n] == Spell(fs)[5 * n..] == Zeros(5);
      SpellZeros(fs[..n]);
    }
  }

  lemma {:induction false} SpelledZero(fs: seq<Five>)
    requires |fs| == 8 && Zeros(0) + Spell(fs) == Zeros(40)
    ensures forall i :: 0 <= i < 8 ==> fs[i] == Zeros(5)
  {
    assert Zeros(0) + Spell(fs) == Spell(fs);
    SpellZeros(fs);
  }

  lemma {:induction false} WindowEqual(a: seq<Symbol>, b: seq<Symbol>, i: nat, win: seq<Five>)
    requires DifferInWindow(a, b, i) && win == XorFives(Fives(a[i..i + 8]), Fives(b[i..i + 8]))
    requires forall j :: 0 <= j < 8 ==> win[j] == Zeros(5)
    ensures a == b
  {
    hide BitsOf;
    forall j | i <= j < i + 8
      ensures a[j] == b[j]
    {
      assert win[j - i] == XorBits(BitsOf(a[j], 5), BitsOf(b[j], 5)) == Zeros(5);
      SameSymbol(a[j], b[j]);
    }
  }

  lemma {:induction false} SameSymbol(x: Symbol, y: Symbol)
    requires XorBits(BitsOf(x, 5), BitsOf(y, 5)) == Zeros(5)
    ensures x == y
  {
    Powers();
    ValueOfBits(x, 5);
    ValueOfBits(y, 5);
    hide BitsOf, Pow2, Value;
    var p, q := BitsOf(x, 5), BitsOf(y, 5);
    forall i | 0 <= i < 5
      ensures p[i] == q[i]
    {
      assert XorBits(p, q)[i] == Zeros(5)[i];
    }
    assert p == q;
  }
}
