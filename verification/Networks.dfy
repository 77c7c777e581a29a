/**
 * The four networks of an address: what their prefixes are as symbols, and that the checksum
 * tells them apart: no data part passes under two of them.
 */
module Networks {
  import opened Bytes
  import opened BitStrings
  import opened Regroup
  import opened Checksum
  import opened Address

  // ---- literals ----

  /** The character set, in order. */
  lemma {:induction false} Charset()
    ensures
      var set32 := "qpzry9x8gf2tvdw0s3jn54khce6mua7l";
      |set32| == 32 && forall v: Symbol :: Char(v) == set32[v]
  {
  }

  /** The reverse table inverts it, and has no other entry. */
  lemma {:induction false} RevIsCharset(c: char, v: Symbol)
    ensures Rev(c) == Some(v) <==> Char(v) == c
  {
    RevOfChar(v);
  }

  /** The four prefixes, and the low five bits of their characters. */
  lemma {:induction false} PrefixesAre()
    ensures Head(Kaspa) == "kaspa:" && Head(KaspaTest) == "kaspatest:"
    ensures Head(KaspaSim) == "kaspasim:" && Head(KaspaDev) == "kaspadev:"
    ensures PrefixSymbols(Kaspa) == [11, 1, 19, 16, 1]
    ensures PrefixSymbols(KaspaTest) == [11, 1, 19, 16, 1, 20, 5, 19, 20]
    ensures PrefixSymbols(KaspaSim) == [11, 1, 19, 16, 1, 19, 9, 13]
    ensures PrefixSymbols(KaspaDev) == [11, 1, 19, 16, 1, 4, 5, 22]
  {
  }

  // ---- the state after a prefix ----

  /** The checksum's state after the prefix and the separator. */
  function Start(net: Net): Word {
    Fold(Checksum.One(), Fives(PrefixSymbols(net) + [0]))
  }

  /** The same prefix from the zero word: the initial one is a symbol of its own. */
  lemma {:induction false} FromOne(fs: seq<Five>)
    ensures Fold(Checksum.One(), fs) == Fold(Zeros(40), [BitsOf(1, 5)] + fs)
  {
    hide WordStep, Fold, BitsOf;
    FoldFromZero([BitsOf(1, 5)]);
    OneBits();
    FoldConcat(Zeros(40), [BitsOf(1, 5)], fs);
  }

  lemma {:induction false} OneBits()
    ensures Zeros(35) + Spell([BitsOf(1, 5)]) == Checksum.One()
  {
    hide BitsOf, Zeros, Spell, Pow2;
    SpellOne(BitsOf(1, 5));
    Powers();
    ZerosBits(35);
    BitsSplit(0, 35, 1, 5);
  }

  lemma {:induction false} SpellOne(d: Five)
    ensures Spell([d]) == d
  {
    var one: seq<Five> := [d];
    assert one[..0] == [] && Spell(one[..0]) == [];
    assert Spell(one) == [] + d;
  }

  lemma {:induction false} ZerosBits(n: nat)
    ensures BitsOf(0, n) == Zeros(n)
  {
    if n > 0 {
      ZerosBits(n - 1);
    }
  }

  /** Whatever is passed under both networks' prefixes would have left the same state after them. */
  lemma {:induction false} SameResidueSameStart(a: Word, b: Word, fs: seq<Five>)
    requires Fold(a, fs) == Fold(b, fs)
    ensures a == b
  {
    hide WordStep, Fold;
    FoldLinear(a, b, fs, fs);
    SameIsZero(Fold(a, fs));
    assert XorFives(fs, fs) == NoFives(|fs|) by {
      forall i | 0 <= i < |fs|
        ensures XorBits(fs[i], fs[i]) == Zeros(5)
      {
      }
    }
    FoldInjective(XorBits(a, b), |fs|);
    forall i | 0 <= i < 40
      ensures a[i] == b[i]
    {
      assert XorBits(a, b)[i] == Zeros(40)[i];
    }
    assert a == b;
  }

  // ---- the four states differ ----

  /** The parts of the generators that the prefixes reach. */
  lemma {:induction false} GenTops()
    ensures Gen(G1)[..5] == [true, false, false, true, true] && Gen(G1)[5..10] == [false, false, false, true, true]
    ensures Gen(G8)[..5] == [true, false, true, false, true]
    ensures Gen(G16)[..5] == [false, false, false, true, true]
  {
    hide BitsOf;
    TopOf(G1, 19, 3);
    TopOf(G8, 21, 24);
    TopOf(G16, 3, 25);
    FiveOf(19, [true, false, false, true, true]);
    FiveOf(3, [false, false, false, true, true]);
    FiveOf(21, [true, false, true, false, true]);
  }

  lemma {:induction false} FiveOf(v: nat, b: Five)
    requires v < 32
    requires v == (if b[0] then 16 else 0) + (if b[1] then 8 else 0) + (if b[2] then 4 else 0) + (if b[3] then 2 else 0)
                  + (if b[4] then 1 else 0)
    ensures BitsOf(v, 5) == b
  {
    hide BitsOf;
    var v1, v2, v3, v4 := v / 2, v / 4, v / 8, v / 16;
    Unfold(v, 5);
    Unfold(v1, 4);
    Unfold(v2, 3);
    Unfold(v3, 2);
    Unfold(v4, 1);
    assert BitsOf(v4 / 2, 0) == [];
    assert BitsOf(v4, 1) == [b[0]];
    assert BitsOf(v3, 2) == [b[0], b[1]];
    assert BitsOf(v2, 3) == [b[0], b[1], b[2]];
    assert BitsOf(v1, 4) == [b[0], b[1], b[2], b[3]];
    assert BitsOf(v, 5) == [b[0], b[1], b[2], b[3], b[4]] == b;
  }

  lemma {:induction false} Unfold(v: nat, n: nat)
    requires n > 0
    ensures BitsOf(v, n) == BitsOf(v / 2, n - 1) + [v % 2 == 1]
  {
  }

  lemma {:induction false} TopOf(g: nat, hi: nat, next: nat)
    requires hi < 32 && next < 32 && hi * POW35 + next * 0x4000_0000 <= g < hi * POW35 + next * 0x4000_0000 + 0x4000_0000
    ensures Gen(g)[..5] == BitsOf(hi, 5) && Gen(g)[5..10] == BitsOf(next, 5)
  {
    hide BitsOf, Pow2;
    Powers();
    Pow2Sum(5, 30);
    var low := g - hi * POW35;
    var rest := low - next * 0x4000_0000;
    BitsSplit(hi, 5, low, 35);
    BitsSplit(next, 5, rest, 30);
    assert Gen(g) == BitsOf(hi, 5) + (BitsOf(next, 5) + BitsOf(rest, 30));
  }

  lemma {:induction false} FirstRound(w: Word, d: Five)
    requires !w[0] && !w[1] && !w[2] && !w[3] && w[4]
    ensures WordStep(w, d) == XorBits(w[5..] + d, Gen(G1))
  {
    hide Gen;
  }

  lemma {:induction false} TopRound(w: Word, d: Five)
    requires w[0] && w[1] && !w[2] && !w[3] && !w[4]
    ensures WordStep(w, d) == XorBits(XorBits(w[5..] + d, Gen(G8)), Gen(G16))
  {
    hide Gen;
  }

  /** The state after eight symbols from zero spells them. */
  lemma {:induction false} Spelled(fs: seq<Five>, i: nat)
    requires i < |fs|
    ensures Spell(fs)[5 * i..5 * i + 5] == fs[i]
  {
    var n := |fs| - 1;
    if i < n {
      Spelled(fs[..n], i);
      assert Spell(fs)[5 * i..5 * i + 5] == Spell(fs[..n])[5 * i..5 * i + 5];
    }
  }

  /** The ninth symbol of the three longer prefixes, and what is on top of the state then. */
  lemma {:induction false} NinthRound(fs: seq<Five>, d: Five)
    requires |fs| == 8 && fs[0] == BitsOf(1, 5) && fs[1] == BitsOf(11, 5) && fs[2] == BitsOf(1, 5)
    ensures
      var w := WordStep(Fold(Zeros(40), fs), d);
      w[..5] == [true, true, false, false, false] && w[5..10] == [false, false, false, true, false]
  {
    hide Fold, Spell, BitsOf, Gen, WordStep;
    FoldFromZero(fs);
    Spelled(fs, 0);
    Spelled(fs, 1);
    Spelled(fs, 2);
    FiveOf(1, [false, false, false, false, true]);
    FiveOf(11, [false, true, false, true, true]);
    var s := Fold(Zeros(40), fs);
    assert s == Spell(fs);
    var t: Five := s[..5];
    assert t == fs[0] && s[0] == t[0] && s[1] == t[1] && s[2] == t[2] && s[3] == t[3] && s[4] == t[4];
    FirstRound(s, d);
    GenTops();
    var shifted: Word := s[5..] + d;
    assert shifted[..5] == s[5..10] && shifted[5..10] == s[10..15];
    XorSlice(shifted, Gen(G1), 0);
    XorSlice(shifted, Gen(G1), 5);
  }

  lemma XorSlice(a: Word, b: Word, i: nat)
    requires i + 5 <= 40
    ensures XorBits(a, b)[i..i + 5] == XorBits(a[i..i + 5], b[i..i + 5])
  {
  }

  lemma {:induction false} LastRound(fs: seq<Five>)
    requires fs != [] && fs[|fs| - 1] == Zeros(5)
    ensures Fold(Zeros(40), fs)[35..] == Fold(Zeros(40), fs[..|fs| - 1])[..5]
  {
    hide WordStep;
    StepKeepsTop(Fold(Zeros(40), fs[..|fs| - 1]));
  }

  /** The symbols folded into the start of a network, the initial one first. */
  function Folded(net: Net): seq<Five> {
    [BitsOf(1, 5)] + Fives(PrefixSymbols(net) + [0])
  }

  lemma {:induction false} FoldedAre(net: Net)
    ensures
      var fs := Folded(net);
      && |fs| == (match net case Kaspa => 7 case KaspaTest => 11 case _ => 10)
      && fs[|fs| - 1] == Zeros(5)
      && fs[0] == BitsOf(1, 5) && fs[1] == BitsOf(11, 5) && fs[2] == BitsOf(1, 5)
      && (net == KaspaTest ==> fs[9] == BitsOf(20, 5))
  {
    hide PrefixSymbols, BitsOf;
    PrefixesAre();
    ZerosBits(5);
  }

  /** The low five bits of the states after the four prefixes. */
  lemma {:induction false} StartLow(net: Net)
    ensures Start(net)[35..] ==
            match net
            case Kaspa => [false, false, false, false, false]
            case KaspaTest => [true, false, true, false, false]
            case _ => [true, true, false, false, false]
  {
    hide Fold, WordStep, BitsOf, PrefixSymbols, Folded, Gen, Spell;
    var fs := Folded(net);
    FoldedAre(net);
    StartFolded(net);
    LastRound(fs);
    match net {
      case Kaspa =>
        FoldFromZero(fs[..6]);
        assert (Zeros(10) + Spell(fs[..6]))[..5] == [false, false, false, false, false];
      case KaspaTest =>
        TestTop(fs[..10]);
      case _ =>
        FoldLast(fs[..9]);
        assert fs[..9][..8] == fs[..8];
        NinthRound(fs[..8], fs[8]);
    }
  }

  lemma {:induction false} StartFolded(net: Net)
    ensures Start(net) == Fold(Zeros(40), Folded(net))
  {
    hide Fold, BitsOf, PrefixSymbols, Fives;
    FromOne(Fives(PrefixSymbols(net) + [0]));
  }

  lemma FoldLast(fs: seq<Five>)
    requires fs != []
    ensures Fold(Zeros(40), fs) == WordStep(Fold(Zeros(40), fs[..|fs| - 1]), fs[|fs| - 1])
  {
  }

  /** After ten symbols the test network's top five bits are those of the ninth round under two generators. */
  lemma {:induction false} TestTop(fs: seq<Five>)
    requires |fs| == 10 && fs[0] == BitsOf(1, 5) && fs[1] == BitsOf(11, 5) && fs[2] == BitsOf(1, 5)
    ensures Fold(Zeros(40), fs)[..5] == [true, false, true, false, false]
  {
    hide Fold, WordStep, BitsOf, Gen;
    FoldLast(fs);
    FoldLast(fs[..9]);
    assert fs[..9][..8] == fs[..8];
    NinthRound(fs[..8], fs[8]);
    var w := Fold(Zeros(40), fs[..9]);
    var t: Five := w[..5];
    assert w[0] == t[0] && w[1] == t[1] && w[2] == t[2] && w[3] == t[3] && w[4] == t[4];
    TopRound(w, fs[9]);
    GenTops();
    var shifted: Word := w[5..] + fs[9];
    assert shifted[0..5] == w[5..10];
    XorSlice(shifted, Gen(G8), 0);
    XorSlice(XorBits(shifted, Gen(G8)), Gen(G16), 0);
  }

  lemma {:induction false} SimIsNotDev()
    ensures Start(KaspaSim) != Start(KaspaDev)
  {
    hide Fold, PrefixSymbols, Fives;
    PrefixesAre();
    var a, b := PrefixSymbols(KaspaSim) + [0], PrefixSymbols(KaspaDev) + [0];
    assert a == [11, 1, 19, 16, 1, 19, 9, 13, 0] && b == [11, 1, 19, 16, 1, 4, 5, 22, 0];
    hide *;
    if Fold(Checksum.One(), Fives(a)) == Fold(Checksum.One(), Fives(b)) {
      InWindow(a, b);
      BurstDetected(Checksum.One(), a, b, 1);
    }
  }

  lemma InWindow(a: seq<Symbol>, b: seq<Symbol>)
    requires |a| == |b| == 9 && a[0] == b[0]
    ensures DifferInWindow(a, b, 1)
  {
  }

  /** No two networks leave the same state. */
  lemma {:induction false} StartsDiffer(m: Net, n: Net)
    requires m != n
    ensures Start(m) != Start(n)
  {
    hide Start;
    StartLow(m);
    StartLow(n);
    SimIsNotDev();
    var a, b := Start(m)[35..], Start(n)[35..];
    if m in {Kaspa, KaspaTest} || n in {Kaspa, KaspaTest} {
      assert a[0] != b[0] || a[1] != b[1];
    }
  }

  /** No data part is accepted, or even passes the checksum, under two networks. */
  lemma {:induction false} OneNetwork(m: Net, n: Net, data: string)
    requires m != n
    ensures !(PassesChecksum(Head(m) + data) && PassesChecksum(Head(n) + data))
    ensures !(Decoded(Head(m) + data).Ok? && Decoded(Head(n) + data).Ok?)
  {
    hide ChecksumOf, PrefixSymbols, Head, NetOf, Fold, Residue, Decoded, Fives, Rev, Symbols, Expected;
    DecodedPasses(Head(m) + data);
    DecodedPasses(Head(n) + data);
    if PassesChecksum(Head(m) + data) && PassesChecksum(Head(n) + data) {
      NetOfHead(m, data);
      NetOfHead(n, data);
      assert (Head(m) + data)[|Head(m)|..] == data && (Head(n) + data)[|Head(n)|..] == data;
      PassesIsResidue(Head(m) + data);
      PassesIsResidue(Head(n) + data);
      ResiduesSplit(PrefixSymbols(m), Symbols(data));
      ResiduesSplit(PrefixSymbols(n), Symbols(data));
      SameResidueSameStart(Start(m), Start(n), Fives(Symbols(data)));
      StartsDiffer(m, n);
    }
  }
}
