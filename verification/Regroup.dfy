/** Regrouping bytes into 5-bit symbols and back. */
module Regroup {
  import opened Bytes
  import opened BitStrings

  type u16 = x: int | 0 <= x < 0x1_0000
  type Symbol = x: int | 0 <= x < 32

  function Bits8(bytes: seq<byte>): (b: Bits)
    ensures |b| == 8 * |bytes|
  {
    if bytes == [] then [] else Bits8(bytes[..|bytes| - 1]) + BitsOf(bytes[|bytes| - 1], 8)
  }

  function Bits5(symbols: seq<Symbol>): (b: Bits)
    ensures |b| == 5 * |symbols|
  {
    if symbols == [] then [] else Bits5(symbols[..|symbols| - 1]) + BitsOf(symbols[|symbols| - 1], 5)
  }

  function SymbolCount(n: nat): nat {
    n * 8 / 5 + if n % 5 == 0 then 0 else 1
  }

  lemma {:induction false} Padding(n: nat)
    ensures 8 * n <= 5 * SymbolCount(n) < 8 * n + 5
  {
    var q, r := n / 5, n % 5;
    assert n == 5 * q + r && n * 8 / 5 == 8 * q + r * 8 / 5;
    assert r == 0 || r == 1 || r == 2 || r == 3 || r == 4;
  }

  /** The bits of some bytes, padded with zeros to whole symbols. */
  function PaddedBits(bytes: seq<byte>): (b: Bits)
    ensures |b| == 5 * SymbolCount(|bytes|) && |b| < 8 * |bytes| + 5
  {
    Padding(|bytes|);
    Bits8(bytes) + Zeros(5 * SymbolCount(|bytes|) - 8 * |bytes|)
  }

  function SymbolAt(bits: Bits, i: nat): (v: Symbol)
    requires 5 * i + 5 <= |bits|
  {
    assert Pow2(5) == 32;
    Value(bits[5 * i..5 * i + 5])
  }

  function ByteAt(bits: Bits, i: nat): (v: byte)
    requires 8 * i + 8 <= |bits|
  {
    assert Pow2(8) == 256;
    Value(bits[8 * i..8 * i + 8])
  }

  /** What `conv8to5` computes. */
  function ToSymbols(bytes: seq<byte>): (r: seq<Symbol>)
    ensures |r| == SymbolCount(|bytes|)
  {
    seq(SymbolCount(|bytes|), i requires 0 <= i < SymbolCount(|bytes|) => SymbolAt(PaddedBits(bytes), i))
  }

  /** What `conv5to8` computes: trailing bits that fill no byte are dropped. */
  function ToBytes(symbols: seq<Symbol>): (r: seq<byte>)
    ensures |r| == |symbols| * 5 / 8
  {
    seq(|symbols| * 5 / 8, i requires 0 <= i < |symbols| * 5 / 8 => ByteAt(Bits5(symbols), i))
  }

  // ---- round trip ----

  lemma {:induction false} Bits8At(bytes: seq<byte>, i: nat)
    requires i < |bytes|
    ensures Bits8(bytes)[8 * i..8 * i + 8] == BitsOf(bytes[i], 8)
  {
    hide BitsOf;
    var n := |bytes| - 1;
    if i < n {
      Bits8At(bytes[..n], i);
      assert Bits8(bytes)[8 * i..8 * i + 8] == Bits8(bytes[..n])[8 * i..8 * i + 8];
    }
  }

  lemma {:induction false} Bits5At(symbols: seq<Symbol>, i: nat)
    requires i < |symbols|
    ensures Bits5(symbols)[5 * i..5 * i + 5] == BitsOf(symbols[i], 5)
  {
    hide BitsOf;
    var n := |symbols| - 1;
    if i < n {
      Bits5At(symbols[..n], i);
      assert Bits5(symbols)[5 * i..5 * i + 5] == Bits5(symbols[..n])[5 * i..5 * i + 5];
    }
  }

  /** The symbols of some bytes spell the same bits, and then the padding. */
  lemma {:induction false} SymbolsSpell(bytes: seq<byte>)
    ensures Bits5(ToSymbols(bytes)) == PaddedBits(bytes)
  {
    hide Bits5, Bits8, BitsOf, Value, Zeros, SymbolCount;
    var symbols := ToSymbols(bytes);
    var all := PaddedBits(bytes);
    forall k | 0 <= k < |all|
      ensures Bits5(symbols)[k] == all[k]
    {
      var i := k / 5;
      assert 5 * i <= k < 5 * i + 5;
      Bits5At(symbols, i);
      BitsOfValue(all[5 * i..5 * i + 5]);
      assert Bits5(symbols)[5 * i..5 * i + 5][k - 5 * i] == all[5 * i..5 * i + 5][k - 5 * i];
    }
  }

  lemma {:induction false} CountsFit(n: nat)
    ensures SymbolCount(n) * 5 / 8 == n
  {
    Padding(n);
    hide SymbolCount;
  }

  /** Regrouping there and back gives the bytes again. */
  lemma {:induction false} RegroupRoundTrip(bytes: seq<byte>)
    ensures ToBytes(ToSymbols(bytes)) == bytes
  {
    hide Bits5, Bits8, BitsOf, Value, Zeros, SymbolCount, ToSymbols, Pow2;
    CountsFit(|bytes|);
    SymbolsSpell(bytes);
    var all := PaddedBits(bytes);
    forall i | 0 <= i < |bytes|
      ensures ByteAt(all, i) == bytes[i]
    {
      Bits8At(bytes, i);
      assert all[8 * i..8 * i + 8] == Bits8(bytes)[8 * i..8 * i + 8];
      BitsOfByte(bytes[i]);
    }
  }

  lemma {:induction false} BitsOfByte(b: byte)
    ensures Value(BitsOf(b, 8)) == b
  {
    assert Pow2(8) == 256;
    ValueOfBits(b, 8);
  }

  // ---- the loops ----

  /** `buff` holds the last `bits` bits read, and everything before them has been written. */
  ghost predicate Pending(all: Bits, buff: nat, from: nat, bits: nat) {
    from + bits <= |all| && buff < Pow2(bits) && BitsOf(buff, bits) == all[from..from + bits]
  }

  /** Reading `w` more bits. */
  lemma {:induction false} Take(all: Bits, buff: nat, from: nat, bits: nat, c: nat, w: nat)
    requires Pending(all, buff, from, bits) && from + bits + w <= |all|
    requires c < Pow2(w) && all[from + bits..from + bits + w] == BitsOf(c, w)
    ensures Pending(all, buff * Pow2(w) + c, from, bits + w)
  {
    hide BitsOf, Pow2;
    BitsSplit(buff, bits, c, w);
    Pow2Sum(bits, w);
    Fits(buff, Pow2(bits), c, Pow2(w));
    assert all[from..from + bits] + all[from + bits..from + bits + w] == all[from..from + bits + w];
  }

  lemma {:induction false} Fits(hi: nat, a: nat, lo: nat, p: nat)
    requires hi < a && lo < p
    ensures hi * p + lo < a * p
  {
    MulMonotone(hi + 1, a, p);
  }

  /** Writing the first `n` of the pending bits. */
  lemma {:induction false} Give(all: Bits, buff: nat, from: nat, n: nat, rest: nat)
    requires Pending(all, buff, from, n + rest)
    ensures Shr(buff, rest) < Pow2(n) && Shr(buff, rest) == Value(all[from..from + n])
    ensures Pending(all, Low(buff, rest), from + n, rest)
  {
    hide BitsOf, Pow2, Value, Shr, Low;
    BitsCut(buff, n, rest);
    ValueOfBits(Shr(buff, rest), n);
    var b := all[from..from + n + rest];
    assert b[..n] == all[from..from + n] && b[n..] == all[from + n..from + n + rest];
  }

  lemma {:induction false} SmallPowers()
    ensures Pow2(0) == 1 && Pow2(1) == 2 && Pow2(2) == 4 && Pow2(3) == 8 && Pow2(4) == 16 && Pow2(5) == 32
    ensures Pow2(6) == 64 && Pow2(7) == 128 && Pow2(8) == 256 && Pow2(9) == 512 && Pow2(10) == 1024 && Pow2(11) == 2048
    ensures Pow2(12) == 4096
  {
    assert Pow2(3) == 8;
    assert Pow2(5) == 32;
    assert Pow2(7) == 128;
    assert Pow2(9) == 512;
    assert Pow2(11) == 2048;
  }

  /** The first `n` symbols are written. */
  ghost predicate SymbolsDone(out: seq<Symbol>, all: Bits, n: nat) {
    n <= |out| && 5 * |out| <= |all| && forall i :: 0 <= i < n ==> out[i] == SymbolAt(all, i)
  }

  ghost predicate BytesDone(out: seq<byte>, all: Bits, n: nat) {
    n <= |out| && 8 * |out| <= |all| && forall i :: 0 <= i < n ==> out[i] == ByteAt(all, i)
  }

  lemma {:induction false} PowerBound(bits: nat, n: nat)
    requires bits <= n
    ensures Pow2(bits) <= Pow2(n)
  {
    if bits < n {
      PowerBound(bits, n - 1);
    }
  }

  /** `conv8to5`. No index leaves the buffer and no intermediate value leaves a u16. */
  method Conv8to5(payload: seq<byte>) returns (r: seq<Symbol>)
    ensures r == ToSymbols(payload)
  {
    hide Pow2, Pending, Bits8, BitsOf, Value, SymbolAt, SymbolCount, Shr, Low;
    ghost var all := PaddedBits(payload);
    Padding(|payload|);
    SmallPowers();
    var fiveBit := new Symbol[SymbolCount(|payload|)](_ => 0);
    var currentIdx: nat := 0;
    var buff: u16 := 0;
    var bits: nat := 0;
    NothingPending(all);
    for k := 0 to |payload|
      invariant bits < 5 && 5 * currentIdx + bits == 8 * k && Pending(all, buff, 5 * currentIdx, bits)
      invariant SymbolsDone(fiveBit[..], all, currentIdx)
    {
      var c := payload[k];
      ReadByte(payload, k, buff, 5 * currentIdx, bits);
      buff := buff * 0x100 + c;
      bits := bits + 8;
      while bits >= 5
        invariant bits <= 12 && 5 * currentIdx + bits == 8 * (k + 1) && Pending(all, buff, 5 * currentIdx, bits)
        invariant SymbolsDone(fiveBit[..], all, currentIdx)
        decreases bits
      {
        bits := bits - 5;
        GiveSymbol(all, buff, currentIdx, bits);
        fiveBit[currentIdx] := Shr(buff, bits);
        buff := Low(buff, bits);
        currentIdx := currentIdx + 1;
      }
    }
    if bits > 0 {
      LastSymbol(payload, buff, currentIdx, bits);
      fiveBit[currentIdx] := buff * Pow2(5 - bits);
      currentIdx := currentIdx + 1;
    }
    AllSymbols(payload, fiveBit[..], currentIdx);
    return fiveBit[..];
  }

  lemma {:induction false} NothingPending(all: Bits)
    ensures Pending(all, 0, 0, 0)
  {
    assert all[0..0] == [];
  }

  lemma PendingSmall(all: Bits, buff: nat, from: nat, bits: nat)
    requires Pending(all, buff, from, bits)
    ensures buff < Pow2(bits) && from + bits <= |all|
  {
  }

  lemma {:induction false} ReadByte(payload: seq<byte>, k: nat, buff: nat, from: nat, bits: nat)
    requires k < |payload| && bits < 5 && from + bits == 8 * k && Pending(PaddedBits(payload), buff, from, bits)
    ensures buff * 0x100 + payload[k] as int < 0x1_0000
    ensures Pending(PaddedBits(payload), buff * 0x100 + payload[k] as int, from, bits + 8)
  {
    SmallPowers();
    var all := PaddedBits(payload);
    Bits8At(payload, k);
    assert all[8 * k..8 * k + 8] == Bits8(payload)[8 * k..8 * k + 8];
    PowerBound(bits, 4);
    hide Bits8, BitsOf, PaddedBits;
    assert buff < 16;
    hide Pending, Pow2;
    Take(all, buff, from, bits, payload[k], 8);
  }

  lemma {:induction false} GiveSymbol(all: Bits, buff: nat, idx: nat, rest: nat)
    requires Pending(all, buff, 5 * idx, 5 + rest)
    ensures Shr(buff, rest) < 32 && 5 * idx + 5 <= |all| && Shr(buff, rest) == SymbolAt(all, idx)
    ensures Pending(all, Low(buff, rest), 5 * idx + 5, rest)
  {
    hide Pow2, Pending, BitsOf, Value, Shr, Low;
    SmallPowers();
    PendingSmall(all, buff, 5 * idx, 5 + rest);
    Give(all, buff, 5 * idx, 5, rest);
  }

  /** The leftover bits, moved up to a whole symbol: the padding of the specification. */
  lemma {:induction false} LastSymbol(payload: seq<byte>, buff: nat, idx: nat, bits: nat)
    requires 0 < bits < 5 && 5 * idx + bits == 8 * |payload| && Pending(PaddedBits(payload), buff, 5 * idx, bits)
    ensures idx + 1 == SymbolCount(|payload|) && 0 <= buff * Pow2(5 - bits) < 32
    ensures buff * Pow2(5 - bits) == SymbolAt(PaddedBits(payload), idx)
  {
    var all := PaddedBits(payload);
    Padding(|payload|);
    SmallPowers();
    assert 5 * (idx + 1) == 5 * SymbolCount(|payload|);
    ZeroBits(5 - bits);
    assert all[5 * idx + bits..5 * idx + 5] == Zeros(5 - bits);
    hide Pending, Pow2, Bits8, BitsOf, PaddedBits, Value;
    Take(all, buff, 5 * idx, bits, 0, 5 - bits);
    hide SymbolAt;
    GiveSymbol(all, buff * Pow2(5 - bits), idx, 0);
    ShrNone(buff * Pow2(5 - bits));
  }

  lemma {:induction false} ShrNone(v: nat)
    ensures Shr(v, 0) == v
  {
    assert Pow2(0) == 1;
  }

  lemma {:induction false} ZeroBits(n: nat)
    ensures BitsOf(0, n) == Zeros(n)
  {
    if n > 0 {
      ZeroBits(n - 1);
    }
  }

  lemma {:induction false} AllSymbols(payload: seq<byte>, out: seq<Symbol>, n: nat)
    requires |out| == SymbolCount(|payload|) && SymbolsDone(out, PaddedBits(payload), n) && 8 * |payload| <= 5 * n
    ensures out == ToSymbols(payload)
  {
    Padding(|payload|);
    hide Bits8, Zeros, SymbolCount, SymbolAt, PaddedBits;
    assert n == |out|;
  }

  // ---- and back ----

  /** `conv5to8`. */
  method Conv5to8(payload: seq<Symbol>) returns (r: seq<byte>)
    ensures r == ToBytes(payload)
  {
    hide Pow2, Pending, Bits5, BitsOf, Value, ByteAt, Shr, Low;
    ghost var all := Bits5(payload);
    SmallPowers();
    var eightBit := new byte[|payload| * 5 / 8](_ => 0);
    var currentIdx: nat := 0;
    var buff: u16 := 0;
    var bits: nat := 0;
    NothingPending(all);
    for k := 0 to |payload|
      invariant bits < 8 && 8 * currentIdx + bits == 5 * k && Pending(all, buff, 8 * currentIdx, bits)
      invariant BytesDone(eightBit[..], all, currentIdx)
    {
      var c := payload[k];
      ReadSymbol(payload, k, buff, 8 * currentIdx, bits);
      buff := buff * 32 + c;
      bits := bits + 5;
      while bits >= 8
        invariant bits <= 12 && 8 * currentIdx + bits == 5 * (k + 1) && Pending(all, buff, 8 * currentIdx, bits)
        invariant BytesDone(eightBit[..], all, currentIdx)
        decreases bits
      {
        bits := bits - 8;
        GiveByte(all, buff, currentIdx, bits);
        eightBit[currentIdx] := Shr(buff, bits);
        buff := Low(buff, bits);
        currentIdx := currentIdx + 1;
      }
    }
    AllBytes(payload, eightBit[..], currentIdx);
    return eightBit[..];
  }

  lemma {:induction false} ReadSymbol(payload: seq<Symbol>, k: nat, buff: nat, from: nat, bits: nat)
    requires k < |payload| && bits < 8 && from + bits == 5 * k && Pending(Bits5(payload), buff, from, bits)
    ensures buff * 32 + payload[k] < 0x1_0000
    ensures Pending(Bits5(payload), buff * 32 + payload[k], from, bits + 5)
  {
    hide Bits5, BitsOf, Pending, Pow2;
    SmallPowers();
    Bits5At(payload, k);
    PowerBound(bits, 7);
    PendingSmall(Bits5(payload), buff, from, bits);
    Take(Bits5(payload), buff, from, bits, payload[k], 5);
  }

  lemma {:induction false} GiveByte(all: Bits, buff: nat, idx: nat, rest: nat)
    requires Pending(all, buff, 8 * idx, 8 + rest)
    ensures Shr(buff, rest) < 0x100 && 8 * idx + 8 <= |all| && Shr(buff, rest) == ByteAt(all, idx)
    ensures Pending(all, Low(buff, rest), 8 * idx + 8, rest)
  {
    hide Pow2, Pending, BitsOf, Value, Shr, Low;
    SmallPowers();
    PendingSmall(all, buff, 8 * idx, 8 + rest);
    Give(all, buff, 8 * idx, 8, rest);
  }

  lemma {:induction false} AllBytes(payload: seq<Symbol>, out: seq<byte>, n: nat)
    requires |out| == |payload| * 5 / 8 && BytesDone(out, Bits5(payload), n) && 5 * |payload| < 8 * n + 8
    ensures out == ToBytes(payload)
  {
    hide Bits5, ByteAt;
    assert n == |out|;
  }
}
