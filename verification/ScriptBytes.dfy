/** What a push looks like, byte by byte. */
module ScriptBytes {
  import opened Bytes
  import opened ScriptNumbers
  import opened ScriptTokens

  // ---- the opcode table ----

  lemma {:induction false} StackCodes()
    ensures If.Code() == 0x63 && Else.Code() == 0x67 && EndIf.Code() == 0x68
    ensures Verify.Code() == 0x69 && Drop.Code() == 0x75 && Dup.Code() == 0x76
    ensures Pick.Code() == 0x79 && Rot.Code() == 0x7b && Swap.Code() == 0x7c
    ensures Cat.Code() == 0x7e && Substr.Code() == 0x7f
  {
  }

  lemma {:induction false} NumberCodes()
    ensures Equal.Code() == 0x87 && EqualVerify.Code() == 0x88 && Sub.Code() == 0x94
    ensures BoolOr.Code() == 0x9b && NumEqualVerify.Code() == 0x9d && LessThanOrEqual.Code() == 0xa1
    ensures GreaterThanOrEqual.Code() == 0xa2 && Within.Code() == 0xa5
  {
  }

  lemma {:induction false} CheckCodes()
    ensures ZkPrecompile.Code() == 0xa6 && Sha256.Code() == 0xa8 && Blake2b.Code() == 0xaa
    ensures CheckSig.Code() == 0xac && CheckSigVerify.Code() == 0xad && CheckLockTimeVerify.Code() == 0xb0
    ensures CheckSequenceVerify.Code() == 0xb1
  {
  }

  lemma {:induction false} TxCodes()
    ensures TxOutputCount.Code() == 0xb4 && TxInputIndex.Code() == 0xb9 && TxInputScriptSigSubstr.Code() == 0xbc
    ensures TxInputAmount.Code() == 0xbe && TxInputSpk.Code() == 0xbf && TxOutputAmount.Code() == 0xc2
    ensures TxOutputSpk.Code() == 0xc3
  {
  }

  lemma {:induction false} CovenantCodes()
    ensures TxInputScriptSigLen.Code() == 0xc9 && InputCovenantId.Code() == 0xcf && CovInputCount.Code() == 0xd0
    ensures CovInputIdx.Code() == 0xd1 && CovOutputCount.Code() == 0xd2 && CovOutputIdx.Code() == 0xd3
  {
  }

  /** Every opcode's byte. */
  lemma {:induction false} OpcodeTable()
    ensures If.Code() == 0x63 && Else.Code() == 0x67 && EndIf.Code() == 0x68
    ensures Verify.Code() == 0x69 && Drop.Code() == 0x75 && Dup.Code() == 0x76
    ensures Pick.Code() == 0x79 && Rot.Code() == 0x7b && Swap.Code() == 0x7c
    ensures Cat.Code() == 0x7e && Substr.Code() == 0x7f
    ensures Equal.Code() == 0x87 && EqualVerify.Code() == 0x88 && Sub.Code() == 0x94
    ensures BoolOr.Code() == 0x9b && NumEqualVerify.Code() == 0x9d && LessThanOrEqual.Code() == 0xa1
    ensures GreaterThanOrEqual.Code() == 0xa2 && Within.Code() == 0xa5
    ensures ZkPrecompile.Code() == 0xa6 && Sha256.Code() == 0xa8 && Blake2b.Code() == 0xaa
    ensures CheckSig.Code() == 0xac && CheckSigVerify.Code() == 0xad && CheckLockTimeVerify.Code() == 0xb0
    ensures CheckSequenceVerify.Code() == 0xb1
    ensures TxOutputCount.Code() == 0xb4 && TxInputIndex.Code() == 0xb9 && TxInputScriptSigSubstr.Code() == 0xbc
    ensures TxInputAmount.Code() == 0xbe && TxInputSpk.Code() == 0xbf && TxOutputAmount.Code() == 0xc2
    ensures TxOutputSpk.Code() == 0xc3
    ensures TxInputScriptSigLen.Code() == 0xc9 && InputCovenantId.Code() == 0xcf && CovInputCount.Code() == 0xd0
    ensures CovInputIdx.Code() == 0xd1 && CovOutputCount.Code() == 0xd2 && CovOutputIdx.Code() == 0xd3
  {
    hide Opcode.Code;
    StackCodes();
    NumberCodes();
    CheckCodes();
    TxCodes();
    CovenantCodes();
  }

  // ---- numbers ----

  /** The nine low bytes of a number, least significant first. */
  function NineBytes(v: nat): (b: seq<byte>)
    ensures |b| == 9
  {
    [v % 0x100, v / 0x100 % 0x100, v / 0x1_0000 % 0x100, v / 0x100_0000 % 0x100, v / 0x1_0000_0000 % 0x100,
        v / 0x100_0000_0000 % 0x100, v / 0x1_0000_0000_0000 % 0x100, v / 0x100_0000_0000_0000 % 0x100,
        v / 0x1_0000_0000_0000_0000 % 0x100]
  }

  /** How many bytes a u64 takes with room for the sign. */
  function NumberWidth(v: nat): (n: nat)
    ensures n <= 9
  {
    if v < 0x80 then 1
    else if v < 0x8000 then 2
    else if v < 0x80_0000 then 3
    else if v < 0x8000_0000 then 4
    else if v < 0x80_0000_0000 then 5
    else if v < 0x8000_0000_0000 then 6
    else if v < 0x80_0000_0000_0000 then 7
    else if v < 0x8000_0000_0000_0000 then 8
    else 9
  }

  /** The push of a number. */
  function NumberPush(v: nat): seq<byte> {
    if v == 0 then [0x00]
    else if v <= 16 then [0x50 + v]
    else [NumberWidth(v)] + NineBytes(v)[..NumberWidth(v)]
  }

  lemma SmallPushes()
    ensures NumberPush(0) == [0x00] && NumberPush(1) == [0x51]
  {
  }

  /** The push of some data. */
  function DataPush(data: seq<byte>): seq<byte>
    requires |data| < 0x1_0000_0000
  {
    var n := |data|;
    if n <= 0x4b then [n] + data
    else if n <= 0xff then [0x4c, n] + data
    else if n <= 0xffff then [0x4d, n % 0x100, n / 0x100] + data
    else [0x4e, n % 0x100, n / 0x100 % 0x100, n / 0x1_0000 % 0x100, n / 0x100_0000] + data
  }

  lemma {:induction false} NineShift(v: nat)
    ensures NineBytes(v)[0] == v % 0x100 && NineBytes(v)[1..] == NineBytes(v / 0x100)[..8]
  {
    var w := v / 0x100;
    assert w / 0x100 == v / 0x1_0000 && w / 0x1_0000 == v / 0x100_0000;
    assert w / 0x100_0000 == v / 0x1_0000_0000 && w / 0x1_0000_0000 == v / 0x100_0000_0000;
    assert w / 0x100_0000_0000 == v / 0x1_0000_0000_0000 && w / 0x1_0000_0000_0000 == v / 0x100_0000_0000_0000;
    assert w / 0x100_0000_0000_0000 == v / 0x1_0000_0000_0000_0000;
  }

  lemma {:induction false} LowBytes(v: nat, n: nat)
    requires n <= 9
    ensures LeBytes(v, n) == NineBytes(v)[..n]
  {
    if n > 0 {
      NineShift(v);
      LowBytes(v / 0x100, n - 1);
      hide NineBytes;
      assert NineBytes(v)[..n] == [NineBytes(v)[0]] + NineBytes(v)[1..][..n - 1];
      assert NineBytes(v / 0x100)[..8][..n - 1] == NineBytes(v / 0x100)[..n - 1];
    }
  }

  /** `Le64` written out. */
  lemma {:induction false} Le64Bytes(v: nat)
    requires v < 0x1_0000_0000_0000_0000
    ensures Le64(v) == NineBytes(v)[..8]
  {
    LowBytes(v, 8);
  }

  lemma {:induction false} WidthStep(v: nat)
    requires 0x8000 <= v < 0x1_0000_0000_0000_0000
    ensures NumberWidth(v) == 1 + NumberWidth(v / 0x100)
  {
  }

  lemma {:induction false} EncStep(v: nat)
    requires 0x100 <= v
    ensures Enc(v) == [v % 0x100] + Enc(v / 0x100)
  {
    var low: seq<byte> := [v % 0x100];
    var m := Mag(v / 0x100);
    assert low + (m + [0x00]) == low + m + [0x00];
  }

  /** The minimal encoding of a u64 is its low bytes, as many as leave room for the sign. */
  lemma {:induction false} EncIs(v: nat)
    requires 0 < v < 0x1_0000_0000_0000_0000
    ensures Enc(v) == LeBytes(v, NumberWidth(v))
  {
    if v < 0x100 {
      assert Mag(v / 0x100) == [] && Mag(v) == [v];
      assert LeBytes(v / 0x100, 0) == [] && LeBytes(v, 1) == [v];
      assert LeBytes(v / 0x100, 1) == [0] && LeBytes(v, 2) == [v, 0];
    } else {
      EncStep(v);
      EncIs(v / 0x100);
      if v < 0x8000 {
        assert NumberWidth(v) == 2 && NumberWidth(v / 0x100) == 1;
      } else {
        WidthStep(v);
      }
    }
  }

  lemma {:induction false} IntTokBytes(value: nat)
    requires value < U64_LIMIT
    ensures
      TokBytes(IntTok(value)) ==
      if value == 0 then [0x00] else if value <= 16 then [0x50 + value] else [|Enc(value)|] + Enc(value)
    ensures value > 0 ==> |Enc(value)| < 0x100
    ensures
      value > 0 ==>
        Enc(value) == if Mag(value)[|Mag(value)| - 1] >= 0x80 then Mag(value) + [0x00] else Mag(value)
  {
    if value > 0 {
      EncLength(value);
    }
  }

  lemma {:induction false} DataTokBytes(data: seq<byte>)
    requires |data| < U32_LIMIT
    ensures
      TokBytes(DataTok(data)) ==
      if |data| <= 75 then [|data|] + data
      else if |data| <= 255 then [0x4c, |data|] + data
      else if |data| <= 65535 then [0x4d] + [|data| % 0x100, |data| / 0x100] + data
      else [0x4e] + Le32Bytes(|data|) + data
  {
    hide Le32Bytes;
  }

  /** What `push_int` appends. */
  lemma {:induction false} NumberPushed(v: nat)
    requires v < 0x1_0000_0000_0000_0000
    ensures TokBytes(IntTok(v)) == NumberPush(v)
  {
    IntTokBytes(v);
    hide Enc, LeBytes, NineBytes, IntTok, TokBytes;
    if v > 16 {
      EncIs(v);
      LowBytes(v, NumberWidth(v));
    }
  }

  /** And how the loop of `push_int` comes to it. */
  lemma {:induction false} PushedNumber(v: nat)
    requires v < 0x1_0000_0000_0000_0000
    ensures TokBytes(IntTok(v)) == NumberPush(v)
    ensures v == 0 ==> NumberPush(v) == [0x00]
    ensures 0 < v <= 16 ==> NumberPush(v) == [0x50 + v]
    ensures v > 16 ==>
              var m := Mag(v);
              && m != []
              && var n := if m[|m| - 1] >= 0x80 then m + [0x00] else m;
                 |n| < 0x100 && NumberPush(v) == [|n|] + n
  {
    hide Enc, Mag, IntTok, TokBytes;
    NumberPushed(v);
    IntTokBytes(v);
  }

  /** What `push_data` appends. */
  lemma {:induction false} DataPushed(data: seq<byte>)
    requires |data| < 0x1_0000_0000
    ensures TokBytes(DataTok(data)) == DataPush(data)
  {
    DataTokBytes(data);
    var n := |data|;
    assert n / 0x100 / 0x100 == n / 0x1_0000 && n / 0x1_0000 / 0x100 == n / 0x100_0000;
  }
}
