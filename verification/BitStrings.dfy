/** Bit strings, most significant bit first, and the numbers they spell. */
module BitStrings {
  import opened Bytes

  type Bits = seq<bool>

  const WIDTH: nat := 64

  function Pow2(n: nat): (p: nat)
    ensures p > 0
  {
    if n == 0 then 1 else 2 * Pow2(n - 1)
  }

  function Value(b: Bits): (v: nat)
    ensures v < Pow2(|b|)
  {
    if b == [] then 0 else 2 * Value(b[..|b| - 1]) + (if b[|b| - 1] then 1 else 0)
  }

  /** The low `n` bits of `v`. */
  function BitsOf(v: nat, n: nat): (b: Bits)
    ensures |b| == n
  {
    if n == 0 then [] else BitsOf(v / 2, n - 1) + [v % 2 == 1]
  }

  function Zeros(n: nat): (b: Bits)
    ensures |b| == n && forall i :: 0 <= i < n ==> !b[i]
  {
    seq(n, i => false)
  }

  lemma {:induction false} ValueOfBits(v: nat, n: nat)
    requires v < Pow2(n)
    ensures Value(BitsOf(v, n)) == v
  {
    if n > 0 {
      ValueOfBits(v / 2, n - 1);
      assert BitsOf(v, n)[..n - 1] == BitsOf(v / 2, n - 1);
    }
  }

  lemma {:induction false} BitsOfValue(b: Bits)
    ensures BitsOf(Value(b), |b|) == b
  {
    if b != [] {
      var front := b[..|b| - 1];
      BitsOfValue(front);
      assert Value(b) / 2 == Value(front);
      assert b == front + [b[|b| - 1]];
    }
  }

  lemma {:induction false} Pow2Sum(m: nat, n: nat)
    ensures Pow2(m + n) == Pow2(m) * Pow2(n)
  {
    if n > 0 {
      Pow2Sum(m, n - 1);
    }
  }

  lemma {:induction false} ValueConcat(a: Bits, b: Bits)
    ensures Value(a + b) == Value(a) * Pow2(|b|) + Value(b)
  {
    if b == [] {
      assert a + b == a;
    } else {
      var front := b[..|b| - 1];
      ValueConcat(a, front);
      assert (a + b)[..|a + b| - 1] == a + front;
      assert Value(a) * Pow2(|b|) == 2 * (Value(a) * Pow2(|front|));
    }
  }

  /** The bits of `hi * 2^m + lo` are those of `hi` and then those of `lo`. */
  lemma {:induction false} BitsSplit(hi: nat, n: nat, lo: nat, m: nat)
    requires hi < Pow2(n) && lo < Pow2(m)
    ensures BitsOf(hi * Pow2(m) + lo, n + m) == BitsOf(hi, n) + BitsOf(lo, m)
  {
    hide Pow2, Value, BitsOf;
    var b := BitsOf(hi, n) + BitsOf(lo, m);
    ValueOfBits(hi, n);
    ValueOfBits(lo, m);
    ValueConcat(BitsOf(hi, n), BitsOf(lo, m));
    BitsOfValue(b);
  }

  lemma {:induction false} Quotient(v: nat, p: nat)
    requires 0 < p
    ensures 0 <= v / p <= v && 0 <= v % p <= v && v % p < p && v == v / p * p + v % p
  {
    QuotientSize(v, p, v / p, v % p);
  }

  lemma {:induction false} QuotientSize(v: nat, p: nat, q: int, r: int)
    requires 0 < p && v == p * q + r && 0 <= r < p
    ensures 0 <= q <= v && r <= v
  {
    assert q < 0 ==> p * (q + 1) <= 0;
    assert p * (q + 1) == p * q + p;
    assert q >= 0 ==> p * q >= q;
  }

  /** `v >> m` */
  function Shr(v: nat, m: nat): (r: nat)
    ensures r <= v
  {
    Quotient(v, Pow2(m));
    v / Pow2(m)
  }

  /** `v & ((1 << m) - 1)` */
  function Low(v: nat, m: nat): (r: nat)
    ensures r <= v && r < Pow2(m)
  {
    Quotient(v, Pow2(m));
    v % Pow2(m)
  }

  lemma MulMonotone(a: nat, b: nat, p: nat)
    ensures a <= b ==> a * p <= b * p
  {
  }

  /** Cutting a number's bits in two is a shift and a mask. */
  lemma {:induction false} BitsCut(v: nat, n: nat, m: nat)
    requires v < Pow2(n + m)
    ensures Shr(v, m) < Pow2(n)
    ensures BitsOf(v, n + m) == BitsOf(Shr(v, m), n) + BitsOf(Low(v, m), m)
  {
    hide Pow2, BitsOf;
    Pow2Sum(n, m);
    Quotient(v, Pow2(m));
    MulMonotone(Pow2(n), Shr(v, m), Pow2(m));
    hide Shr, Low;
    BitsSplit(Shr(v, m), n, Low(v, m), m);
  }

  lemma {:induction false} ZerosValue(n: nat)
    ensures Value(Zeros(n)) == 0
  {
    if n > 0 {
      ZerosValue(n - 1);
      assert Zeros(n)[..n - 1] == Zeros(n - 1);
    }
  }

  lemma {:induction false} PadValue(n: nat, b: Bits)
    ensures Value(Zeros(n) + b) == Value(b)
  {
    hide Pow2, Value, Zeros;
    ValueConcat(Zeros(n), b);
    ZerosValue(n);
  }

  // ---- exclusive or ----

  function XorBits(a: Bits, b: Bits): (r: Bits)
    requires |a| == |b|
    ensures |r| == |a| && forall i :: 0 <= i < |a| ==> r[i] == (a[i] != b[i])
  {
    seq(|a|, i requires 0 <= i < |a| => a[i] != b[i])
  }

  /** `a ^ b` on u64. */
  function Xor(a: nat, b: nat): nat {
    Value(XorBits(BitsOf(a, WIDTH), BitsOf(b, WIDTH)))
  }

  lemma {:induction false} Widen(b: Bits)
    requires |b| <= WIDTH
    ensures BitsOf(Value(b), WIDTH) == Zeros(WIDTH - |b|) + b
  {
    hide Pow2, Value, BitsOf, Zeros;
    var wide := Zeros(WIDTH - |b|) + b;
    PadValue(WIDTH - |b|, b);
    BitsOfValue(wide);
  }

  lemma XorPadded(n: nat, a: Bits, b: Bits)
    requires |a| == |b|
    ensures XorBits(Zeros(n) + a, Zeros(n) + b) == Zeros(n) + XorBits(a, b)
  {
  }

  lemma {:induction false} XorWide(a: Bits, b: Bits)
    requires |a| == |b| <= WIDTH
    ensures XorBits(BitsOf(Value(a), WIDTH), BitsOf(Value(b), WIDTH)) == Zeros(WIDTH - |a|) + XorBits(a, b)
  {
    hide Pow2, Value, BitsOf, Zeros, XorBits;
    Widen(a);
    Widen(b);
    XorPadded(WIDTH - |a|, a, b);
  }

  /** Exclusive or of two words of the same length. */
  lemma {:induction false} XorValues(a: Bits, b: Bits)
    requires |a| == |b| <= WIDTH
    ensures Xor(Value(a), Value(b)) == Value(XorBits(a, b))
  {
    hide Pow2, Value, BitsOf, Zeros, XorBits;
    XorWide(a, b);
    PadValue(WIDTH - |a|, XorBits(a, b));
  }
}
