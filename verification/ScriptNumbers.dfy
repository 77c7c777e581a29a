/** Script numbers: little-endian magnitudes with a sign bit, as `push_int` writes and the engine reads them. */
module ScriptNumbers {
  import opened Bytes

  const U64_LIMIT: nat := 0x1_0000_0000_0000_0000

  /** The value of little-endian bytes. */
  function LeVal(b: seq<byte>): nat {
    if b == [] then 0 else b[0] as int + 256 * LeVal(b[1..])
  }

  /** The bytes of `v`, least significant first, without a zero at the end. */
  function Mag(v: nat): (m: seq<byte>)
    ensures LeVal(m) == v
    ensures m == [] <==> v == 0
    ensures m != [] ==> m[|m| - 1] != 0
  {
    if v == 0 then []
    else
      var rest := Mag(v / 256);
      var m: seq<byte> := [v % 256] + rest;
      assert m[1..] == rest;
      m
  }

  function Abs(n: int): nat {
    if n < 0 then -n else n
  }

  /** The minimal encoding of `n`. */
  function Enc(n: int): seq<byte> {
    var m := Mag(Abs(n));
    if m == [] then []
    else
      var last := m[|m| - 1];
      if last >= 0x80 then m + [if n < 0 then 0x80 else 0x00]
      else if n < 0 then m[..|m| - 1] + [last + 0x80]
      else m
  }

  /** The number that bytes denote: the top bit of the last byte is the sign. */
  function Dec(b: seq<byte>): int {
    if b == [] then 0
    else
      var last := b[|b| - 1];
      if last >= 0x80 then 0 - LeVal(b[..|b| - 1] + [last - 0x80]) else LeVal(b)
  }

  /** A condition holds unless every byte is zero, but for a sign. */
  predicate Truthy(b: seq<byte>) {
    exists i :: 0 <= i < |b| && b[i] != 0 && !(i == |b| - 1 && b[i] == 0x80)
  }

  function Flag(c: bool): seq<byte> {
    if c then [1] else []
  }

  lemma {:induction false} LeValAppend(a: seq<byte>, b: seq<byte>)
    ensures LeVal(a + b) == LeVal(a) + Pow256(|a|) * LeVal(b)
  {
    if a == [] {
      assert a + b == b;
    } else {
      assert (a + b)[1..] == a[1..] + b;
      LeValAppend(a[1..], b);
    }
  }

  function Pow256(n: nat): nat {
    if n == 0 then 1 else 256 * Pow256(n - 1)
  }

  /** Decoding inverts encoding. */
  lemma {:induction false} DecEnc(n: int)
    ensures Dec(Enc(n)) == n
  {
    var m := Mag(Abs(n));
    if m != [] {
      var last := m[|m| - 1];
      if last >= 0x80 {
        LeValAppend(m, [0]);
        if n < 0 {
          var e: seq<byte> := m + [0x80];
          assert e[..|e| - 1] + [0x80 - 0x80] == m + [0];
        }
      } else if n < 0 {
        var e := m[..|m| - 1] + [last + 0x80];
        assert e[..|e| - 1] + [last + 0x80 - 0x80] == m;
      }
    }
  }

  /** Numbers are equal exactly when their encodings are. */
  lemma {:induction false} EncInjective(a: int, b: int)
    ensures Enc(a) == Enc(b) <==> a == b
  {
    DecEnc(a);
    DecEnc(b);
  }

  lemma {:induction false} EncOne()
    ensures Enc(1) == [1]
  {
    assert Mag(1) == [1];
  }

  lemma {:induction false} FlagIsNumber(c: bool)
    ensures Truthy(Flag(c)) <==> c
    ensures Flag(c) == Enc(if c then 1 else 0)
    ensures Dec(Flag(c)) == if c then 1 else 0
  {
    assert c ==> Flag(c)[0] == 1;
    assert Mag(1) == [1];
  }

  lemma {:induction false} LeValBound(b: seq<byte>)
    ensures LeVal(b) < Pow256(|b|)
  {
    if b != [] {
      LeValBound(b[1..]);
    }
  }

  /** Bytes of one length are determined by their value. */
  lemma {:induction false} LeValInjective(a: seq<byte>, b: seq<byte>)
    requires |a| == |b| && LeVal(a) == LeVal(b)
    ensures a == b
  {
    if a != [] {
      assert a[0] == LeVal(a) % 256 && b[0] == LeVal(b) % 256;
      LeValInjective(a[1..], b[1..]);
      assert a == [a[0]] + a[1..] && b == [b[0]] + b[1..];
    }
  }

  /** `u64::to_le_bytes`. */
  function Le64(v: nat): (r: seq<byte>)
    requires v < U64_LIMIT
    ensures |r| == 8
  {
    LeBytes(v, 8)
  }

  function LeBytes(v: nat, n: nat): (r: seq<byte>)
    ensures |r| == n
  {
    if n == 0 then [] else [v % 256] + LeBytes(v / 256, n - 1)
  }

  lemma {:induction false} LeBytesValue(v: nat, n: nat)
    requires v < Pow256(n)
    ensures LeVal(LeBytes(v, n)) == v
  {
    if n > 0 {
      LeBytesValue(v / 256, n - 1);
      assert LeBytes(v, n)[1..] == LeBytes(v / 256, n - 1);
    }
  }

  lemma {:induction false} Pow256Of8()
    ensures Pow256(8) == U64_LIMIT
  {
    assert Pow256(2) == 0x1_0000;
    assert Pow256(4) == 0x1_0000_0000;
    assert Pow256(6) == 0x1_0000_0000_0000;
  }

  /** Eight bytes are the little-endian bytes of exactly one u64. */
  lemma {:induction false} Le64Value(v: nat)
    requires v < U64_LIMIT
    ensures LeVal(Le64(v)) == v
  {
    Pow256Of8();
    LeBytesValue(v, 8);
  }

  lemma {:induction false} Le64Of(b: seq<byte>)
    requires |b| == 8
    ensures LeVal(b) < U64_LIMIT && Le64(LeVal(b)) == b
  {
    Pow256Of8();
    LeValBound(b);
    Le64Value(LeVal(b));
    LeValInjective(Le64(LeVal(b)), b);
  }

  /** An eight-byte field reads as its u64 value as long as that is below 2^63. */
  lemma {:induction false} DecOfField(v: nat)
    requires v < U64_LIMIT
    ensures v < 0x8000_0000_0000_0000 ==> Dec(Le64(v)) == v
    ensures v >= 0x8000_0000_0000_0000 ==> Dec(Le64(v)) == 0x8000_0000_0000_0000 - v <= 0
  {
    Pow256Of8();
    Le64Value(v);
    var b := Le64(v);
    var low := b[..7];
    assert b == low + [b[7]];
    LeValAppend(low, [b[7]]);
    LeValBound(low);
    assert Pow256(7) == 0x100_0000_0000_0000;
    assert LeVal([b[7]]) == b[7] as int;
    if b[7] >= 0x80 {
      LeValAppend(low, [b[7] - 0x80]);
      assert LeVal([b[7] - 0x80]) == b[7] as int - 0x80;
      assert b[..|b| - 1] + [b[7] - 0x80] == low + [b[7] - 0x80];
    }
  }

  /** A number below half its top byte's range encodes as its magnitude, without a sign byte. */
  lemma {:induction false} MagTop(v: nat, n: nat)
    requires n > 0 && Pow256(n - 1) <= v < 128 * Pow256(n - 1)
    ensures |Mag(v)| == n && Mag(v)[n - 1] < 0x80
  {
    if n > 1 {
      MagTop(v / 256, n - 1);
    } else {
      assert Mag(v / 256) == [];
    }
  }

  lemma {:induction false} EncLengthIs(v: nat, n: nat)
    requires n > 0 && Pow256(n - 1) <= v < 128 * Pow256(n - 1)
    ensures |Enc(v)| == n
  {
    MagTop(v, n);
  }
}
