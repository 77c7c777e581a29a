/** Building the oracle's scripts: the redeem script, the signature scripts, the heartbeat and the read. */
module OracleBuilder {
  import opened Bytes
  import opened ScriptNumbers
  import opened ScriptTokens
  import opened ScriptMachine
  import opened ScriptCode
  import opened ScriptBytes
  import opened ScriptBuilder
  import opened OracleScript
  import opened Oracle

  // ---- the bytes, block by block ----

  /** The checks on the journal. */
  function JournalBytes(ps: Params): seq<byte> {
    ([0x20] + ps.heartbeat + [0xd0, 0x51, 0x9d])
    + [0x00, 0x79, 0x60, 0x01, 0x30, 0x7f]
    + ([0x20] + ps.setRoot + [0x88])
    + [0x00, 0x79, 0x00, 0x58, 0x7f]
    + [0x51, 0x08, 0x01, 0x00, 0x00, 0x00, 0x00, 0x00, 0x00, 0x10, 0xa5, 0x69]
    + [0x00, 0x79, 0x58, 0x60, 0x7f]
    + [0xb9, 0xb9, 0xc9, 0x76, 0x02, 0x29, 0x01, 0x94, 0x7c, 0x02, 0x21, 0x01]
    + [0x94, 0xbc, 0xa2, 0x69]
  }

  /** The next redeem script, from the journal and the script's own bytes. */
  function RebuildBytes(): seq<byte> {
    [0x01, 0x08]
    + [0x51, 0x79, 0x00, 0x58, 0x7f]
    + [0x7e, 0x02, 0x75, 0x08, 0x7e]
    + [0x51, 0x79, 0x58, 0x60, 0x7f]
    + [0x7e, 0x01, 0x75, 0x7e]
    + [0xb9, 0xb9, 0xc9, 0x76, 0x02, 0x20, 0x01, 0x94, 0x7c, 0xbc]
  }

  /** The tag counts, the output and the proof. */
  function SettleBytes(ps: Params): seq<byte> {
    [0x7e, 0xb9, 0xcf, 0x76, 0xd0, 0x51, 0x9d]
    + [0xd2, 0x51, 0x9d]
    + [0xaa, 0x01, 0x87, 0x7e, 0x02, 0xaa, 0x20, 0x7c, 0x7e, 0x02, 0x00, 0x00, 0x7c]
    + [0x7e, 0x00, 0xc3, 0x88]
    + [0x00, 0xc2, 0xb9, 0xbe, 0x03, 0x40, 0x42, 0x0f, 0x94, 0xa2, 0x69]
    + ([0xa8, 0x20] + ps.imageId + [0x20] + ps.controlId + [0x01, ps.hashfn, 0x01, 0x21, 0xa6, 0x69, 0x51])
  }

  /** The passthrough. */
  function PassBytes(): seq<byte> {
    [0xb9, 0xcf, 0x76, 0xd0, 0x51, 0x9d]
    + [0x76, 0xd2, 0x51, 0x9d]
    + [0x00, 0xd3, 0x76, 0xc3, 0xb9, 0xbf, 0x88]
    + [0xc2, 0xb9, 0xbe, 0x03, 0x40, 0x42, 0x0f, 0x94, 0xa2, 0x69, 0x51]
  }

  /** The publish body. */
  function BodyBytes(ps: Params): seq<byte> {
    [0x63] + JournalBytes(ps) + RebuildBytes() + SettleBytes(ps) + [0x67] + PassBytes() + [0x68]
  }

  function FieldBytes(depth: nat, i: nat, j: nat): seq<byte> {
    NumberPush(depth) + [0x79] + NumberPush(i) + NumberPush(j) + [0x7f]
  }

  /** The numbers the body pushes: where its own bytes start and end, the fee and the price bound. */
  lemma {:induction false} LengthPushes()
    ensures NumberPush(BODY_LEN) == [0x02, 0x20, 0x01]
    ensures NumberPush(REDEEM_LEN - 11) == [0x02, 0x29, 0x01]
    ensures NumberPush(REDEEM_LEN - 19) == [0x02, 0x21, 0x01]
  {
  }

  lemma {:induction false} FeePush()
    ensures NumberPush(MAX_FEE) == [0x03, 0x40, 0x42, 0x0f]
  {
  }

  lemma {:induction false} PricePush()
    ensures NumberPush(MAX_PRICE + 1) == [0x08, 0x01, 0x00, 0x00, 0x00, 0x00, 0x00, 0x00, 0x10]
  {
  }

  /** The fields it cuts out. */
  lemma {:induction false} Fields()
    ensures FieldBytes(0, 16, 48) == [0x00, 0x79, 0x60, 0x01, 0x30, 0x7f]
    ensures FieldBytes(0, 0, 8) == [0x00, 0x79, 0x00, 0x58, 0x7f]
    ensures FieldBytes(0, 8, 16) == [0x00, 0x79, 0x58, 0x60, 0x7f]
    ensures FieldBytes(1, 0, 8) == [0x51, 0x79, 0x00, 0x58, 0x7f]
    ensures FieldBytes(1, 8, 16) == [0x51, 0x79, 0x58, 0x60, 0x7f]
  {
  }

  lemma {:induction false} ShortPush(data: seq<byte>)
    requires |data| <= 0x4b
    ensures DataPush(data) == [|data|] + data
  {
  }

  lemma JoinEight(base: seq<byte>, a: seq<byte>, b: seq<byte>, c: seq<byte>, d: seq<byte>, e: seq<byte>, f: seq<byte>,
      g: seq<byte>, h: seq<byte>)
    ensures base + a + b + c + d + e + f + g + h == base + (a + b + c + d + e + f + g + h)
  {
  }

  lemma JoinSix(base: seq<byte>, a: seq<byte>, b: seq<byte>, c: seq<byte>, d: seq<byte>, e: seq<byte>, f: seq<byte>)
    ensures base + a + b + c + d + e + f == base + (a + b + c + d + e + f)
  {
  }

  lemma JoinFour(base: seq<byte>, a: seq<byte>, b: seq<byte>, c: seq<byte>, d: seq<byte>)
    ensures base + a + b + c + d == base + (a + b + c + d)
  {
  }

  method PushCoRoll(s: ScriptBuf, ps: Params)
    requires s.Valid()
    modifies s
    ensures s.Valid() && s.toks == old(s.toks) + CoRoll(ps)
    ensures s.bytes == old(s.bytes) + ([0x20] + ps.heartbeat + [0xd0, 0x51, 0x9d])
  {
    hide Opcode.Code, Assemble, ToksOk, TokOk, IntTok, DataTok, ScriptBuf.Valid, Enc, NumberPush, DataPush;
    OpcodeTable();
    SmallPushes();
    ShortPush(ps.heartbeat);
    s.PushData(ps.heartbeat);
    s.PushOp(CovInputCount);
    s.PushInt(1);
    s.PushOp(NumEqualVerify);
    Block(old(s.toks), CoRoll(ps));
  }

  method PushField(s: ScriptBuf, depth: nat, i: nat, j: nat)
    requires s.Valid() && depth <= 1 && i < 0x100 && j < 0x100
    modifies s
    ensures s.Valid() && s.toks == old(s.toks) + Field(depth, i, j)
    ensures s.bytes == old(s.bytes) + FieldBytes(depth, i, j)
  {
    hide Opcode.Code, Assemble, ToksOk, TokOk, IntTok, DataTok, ScriptBuf.Valid, Enc, NumberPush, DataPush;
    OpcodeTable();
    s.PushInt(depth);
    s.PushOp(Pick);
    s.PushInt(i);
    s.PushInt(j);
    s.PushOp(Substr);
    Block(old(s.toks), Field(depth, i, j));
  }

  method PushMustBeRoot(s: ScriptBuf, ps: Params)
    requires s.Valid()
    modifies s
    ensures s.Valid() && s.toks == old(s.toks) + MustBeRoot(ps)
    ensures s.bytes == old(s.bytes) + ([0x20] + ps.setRoot + [0x88])
  {
    hide Opcode.Code, Assemble, ToksOk, TokOk, IntTok, DataTok, ScriptBuf.Valid, Enc, NumberPush, DataPush;
    OpcodeTable();
    ShortPush(ps.setRoot);
    s.PushData(ps.setRoot);
    s.PushOp(EqualVerify);
    Block(old(s.toks), MustBeRoot(ps));
  }

  method PushInPriceRange(s: ScriptBuf)
    requires s.Valid()
    modifies s
    ensures s.Valid() && s.toks == old(s.toks) + InPriceRange()
    ensures s.bytes == old(s.bytes) + [0x51, 0x08, 0x01, 0x00, 0x00, 0x00, 0x00, 0x00, 0x00, 0x10, 0xa5, 0x69]
  {
    hide Opcode.Code, Assemble, ToksOk, TokOk, IntTok, DataTok, ScriptBuf.Valid, Enc, NumberPush, DataPush;
    OpcodeTable();
    SmallPushes();
    PricePush();
    s.PushInt(1);
    s.PushInt(MAX_PRICE + 1);
    s.PushOp(Within);
    s.PushOp(Verify);
    Block(old(s.toks), InPriceRange());
  }

  method PushOldTimeBounds(s: ScriptBuf)
    requires s.Valid()
    modifies s
    ensures s.Valid() && s.toks == old(s.toks) + OldTimeBounds()
    ensures s.bytes == old(s.bytes) + [0xb9, 0xb9, 0xc9, 0x76, 0x02, 0x29, 0x01, 0x94, 0x7c, 0x02, 0x21, 0x01]
  {
    hide Opcode.Code, Assemble, ToksOk, TokOk, IntTok, DataTok, ScriptBuf.Valid, Enc, NumberPush, DataPush;
    OpcodeTable();
    LengthPushes();
    s.PushOp(TxInputIndex);
    s.PushOp(TxInputIndex);
    s.PushOp(TxInputScriptSigLen);
    s.PushOp(Dup);
    s.PushInt(REDEEM_LEN - 11);
    s.PushOp(Sub);
    s.PushOp(Swap);
    s.PushInt(REDEEM_LEN - 19);
    Block(old(s.toks), OldTimeBounds());
  }

  method PushNotOlder(s: ScriptBuf)
    requires s.Valid()
    modifies s
    ensures s.Valid() && s.toks == old(s.toks) + NotOlder()
    ensures s.bytes == old(s.bytes) + [0x94, 0xbc, 0xa2, 0x69]
  {
    hide Opcode.Code, Assemble, ToksOk, TokOk, IntTok, DataTok, ScriptBuf.Valid, Enc, NumberPush, DataPush;
    OpcodeTable();
    s.PushOp(Sub);
    s.PushOp(TxInputScriptSigSubstr);
    s.PushOp(GreaterThanOrEqual);
    s.PushOp(Verify);
    Block(old(s.toks), NotOlder());
  }

  method PushPrefixStart(s: ScriptBuf)
    requires s.Valid()
    modifies s
    ensures s.Valid() && s.toks == old(s.toks) + PrefixStart()
    ensures s.bytes == old(s.bytes) + [0x01, 0x08]
  {
    hide DataPush, DataTok, TokOk;
    ShortPush([0x08]);
    s.PushData([0x08]);
  }

  method PushPrefixMiddle(s: ScriptBuf)
    requires s.Valid()
    modifies s
    ensures s.Valid() && s.toks == old(s.toks) + PrefixMiddle()
    ensures s.bytes == old(s.bytes) + [0x7e, 0x02, 0x75, 0x08, 0x7e]
  {
    hide Opcode.Code, Assemble, ToksOk, TokOk, IntTok, DataTok, ScriptBuf.Valid, Enc, NumberPush, DataPush;
    OpcodeTable();
    ShortPush([0x75, 0x08]);
    s.PushOp(Cat);
    s.PushData([0x75, 0x08]);
    s.PushOp(Cat);
    Block(old(s.toks), PrefixMiddle());
  }

  method PushPrefixEnd(s: ScriptBuf)
    requires s.Valid()
    modifies s
    ensures s.Valid() && s.toks == old(s.toks) + PrefixEnd()
    ensures s.bytes == old(s.bytes) + [0x7e, 0x01, 0x75, 0x7e]
  {
    hide Opcode.Code, Assemble, ToksOk, TokOk, IntTok, DataTok, ScriptBuf.Valid, Enc, NumberPush, DataPush;
    OpcodeTable();
    ShortPush([0x75]);
    s.PushOp(Cat);
    s.PushData([0x75]);
    s.PushOp(Cat);
    Block(old(s.toks), PrefixEnd());
  }

  method PushOwnBody(s: ScriptBuf)
    requires s.Valid()
    modifies s
    ensures s.Valid() && s.toks == old(s.toks) + OwnBody()
    ensures s.bytes == old(s.bytes) + [0xb9, 0xb9, 0xc9, 0x76, 0x02, 0x20, 0x01, 0x94, 0x7c, 0xbc]
  {
    hide Opcode.Code, Assemble, ToksOk, TokOk, IntTok, DataTok, ScriptBuf.Valid, Enc, NumberPush, DataPush;
    OpcodeTable();
    LengthPushes();
    s.PushOp(TxInputIndex);
    s.PushOp(TxInputIndex);
    s.PushOp(TxInputScriptSigLen);
    s.PushOp(Dup);
    s.PushInt(BODY_LEN);
    s.PushOp(Sub);
    s.PushOp(Swap);
    s.PushOp(TxInputScriptSigSubstr);
    Block(old(s.toks), OwnBody());
  }

  method PushOneInput(s: ScriptBuf)
    requires s.Valid()
    modifies s
    ensures s.Valid() && s.toks == old(s.toks) + OneInput()
    ensures s.bytes == old(s.bytes) + [0x7e, 0xb9, 0xcf, 0x76, 0xd0, 0x51, 0x9d]
  {
    hide Opcode.Code, Assemble, ToksOk, TokOk, IntTok, DataTok, ScriptBuf.Valid, Enc, NumberPush, DataPush;
    OpcodeTable();
    SmallPushes();
    s.PushOp(Cat);
    s.PushOp(TxInputIndex);
    s.PushOp(InputCovenantId);
    s.PushOp(Dup);
    s.PushOp(CovInputCount);
    s.PushInt(1);
    s.PushOp(NumEqualVerify);
    Block(old(s.toks), OneInput());
  }

  method PushOneOutput(s: ScriptBuf)
    requires s.Valid()
    modifies s
    ensures s.Valid() && s.toks == old(s.toks) + OneOutput()
    ensures s.bytes == old(s.bytes) + [0xd2, 0x51, 0x9d]
  {
    hide Opcode.Code, Assemble, ToksOk, TokOk, IntTok, DataTok, ScriptBuf.Valid, Enc, NumberPush, DataPush;
    OpcodeTable();
    SmallPushes();
    s.PushOp(CovOutputCount);
    s.PushInt(1);
    s.PushOp(NumEqualVerify);
    Block(old(s.toks), OneOutput());
  }

  lemma {:induction false} TagPushes()
    ensures DataPush([0x87]) == [0x01, 0x87]
    ensures DataPush([0xAA, 0x20]) == [0x02, 0xaa, 0x20]
    ensures DataPush([0x00, 0x00]) == [0x02, 0x00, 0x00]
  {
  }

  lemma {:induction false} WrapJoin(base: seq<byte>)
    ensures base + [0xaa] + [0x01, 0x87] + [0x7e] + [0x02, 0xaa, 0x20] + [0x7c] + [0x7e] + [0x02, 0x00, 0x00] + [0x7c]
            == base + [0xaa, 0x01, 0x87, 0x7e, 0x02, 0xaa, 0x20, 0x7c, 0x7e, 0x02, 0x00, 0x00, 0x7c]
  {
  }

  method PushWrapHash(s: ScriptBuf)
    requires s.Valid()
    modifies s
    ensures s.Valid() && s.toks == old(s.toks) + WrapHash()
    ensures s.bytes == old(s.bytes) + [0xaa, 0x01, 0x87, 0x7e, 0x02, 0xaa, 0x20, 0x7c, 0x7e, 0x02, 0x00, 0x00, 0x7c]
  {
    hide Opcode.Code, Assemble, ToksOk, TokOk, IntTok, DataTok, ScriptBuf.Valid, Enc, NumberPush, DataPush;
    OpcodeTable();
    TagPushes();
    s.PushOp(Blake2b);
    s.PushData([0x87]);
    s.PushOp(Cat);
    s.PushData([0xAA, 0x20]);
    s.PushOp(Swap);
    s.PushOp(Cat);
    s.PushData([0x00, 0x00]);
    s.PushOp(Swap);
    Block(old(s.toks), WrapHash());
    WrapJoin(old(s.bytes));
  }

  method PushPaysNext(s: ScriptBuf)
    requires s.Valid()
    modifies s
    ensures s.Valid() && s.toks == old(s.toks) + PaysNext()
    ensures s.bytes == old(s.bytes) + [0x7e, 0x00, 0xc3, 0x88]
  {
    hide Opcode.Code, Assemble, ToksOk, TokOk, IntTok, DataTok, ScriptBuf.Valid, Enc, NumberPush, DataPush;
    OpcodeTable();
    SmallPushes();
    s.PushOp(Cat);
    s.PushInt(0);
    s.PushOp(TxOutputSpk);
    s.PushOp(EqualVerify);
    Block(old(s.toks), PaysNext());
  }

  method PushKeepsValue(s: ScriptBuf)
    requires s.Valid()
    modifies s
    ensures s.Valid() && s.toks == old(s.toks) + KeepsValue()
    ensures s.bytes == old(s.bytes) + [0x00, 0xc2, 0xb9, 0xbe, 0x03, 0x40, 0x42, 0x0f, 0x94, 0xa2, 0x69]
  {
    hide Opcode.Code, Assemble, ToksOk, TokOk, IntTok, DataTok, ScriptBuf.Valid, Enc, NumberPush, DataPush;
    SmallPushes();
    OpcodeTable();
    FeePush();
    s.PushInt(0);
    s.PushOp(TxOutputAmount);
    s.PushOp(TxInputIndex);
    s.PushOp(TxInputAmount);
    s.PushInt(MAX_FEE);
    s.PushOp(Sub);
    s.PushOp(GreaterThanOrEqual);
    s.PushOp(Verify);
    Block(old(s.toks), KeepsValue());
  }

  method PushProof(s: ScriptBuf, ps: Params)
    requires s.Valid()
    modifies s
    ensures s.Valid() && s.toks == old(s.toks) + Proof(ps)
    ensures s.bytes == old(s.bytes) + ([0xa8, 0x20] + ps.imageId + [0x20] + ps.controlId
        + [0x01, ps.hashfn, 0x01, 0x21, 0xa6, 0x69, 0x51])
  {
    hide Opcode.Code, Assemble, ToksOk, TokOk, IntTok, DataTok, ScriptBuf.Valid, Enc, NumberPush, DataPush;
    OpcodeTable();
    SmallPushes();
    ShortPush(ps.imageId);
    ShortPush(ps.controlId);
    ShortPush([ps.hashfn]);
    ShortPush([ZK_TAG_RISC0]);
    s.PushOp(Sha256);
    s.PushData(ps.imageId);
    s.PushData(ps.controlId);
    s.PushData([ps.hashfn]);
    s.PushData([ZK_TAG_RISC0]);
    s.PushOp(ZkPrecompile);
    s.PushOp(Verify);
    s.PushInt(1);
    Block(old(s.toks), Proof(ps));
  }

  method PushLineageIn(s: ScriptBuf)
    requires s.Valid()
    modifies s
    ensures s.Valid() && s.toks == old(s.toks) + LineageIn()
    ensures s.bytes == old(s.bytes) + [0xb9, 0xcf, 0x76, 0xd0, 0x51, 0x9d]
  {
    hide Opcode.Code, Assemble, ToksOk, TokOk, IntTok, DataTok, ScriptBuf.Valid, Enc, NumberPush, DataPush;
    OpcodeTable();
    SmallPushes();
    s.PushOp(TxInputIndex);
    s.PushOp(InputCovenantId);
    s.PushOp(Dup);
    s.PushOp(CovInputCount);
    s.PushInt(1);
    s.PushOp(NumEqualVerify);
    Block(old(s.toks), LineageIn());
  }

  method PushLineageOut(s: ScriptBuf)
    requires s.Valid()
    modifies s
    ensures s.Valid() && s.toks == old(s.toks) + LineageOut()
    ensures s.bytes == old(s.bytes) + [0x76, 0xd2, 0x51, 0x9d]
  {
    hide Opcode.Code, Assemble, ToksOk, TokOk, IntTok, DataTok, ScriptBuf.Valid, Enc, NumberPush, DataPush;
    OpcodeTable();
    SmallPushes();
    s.PushOp(Dup);
    s.PushOp(CovOutputCount);
    s.PushInt(1);
    s.PushOp(NumEqualVerify);
    Block(old(s.toks), LineageOut());
  }

  method PushSelfSend(s: ScriptBuf)
    requires s.Valid()
    modifies s
    ensures s.Valid() && s.toks == old(s.toks) + SelfSend()
    ensures s.bytes == old(s.bytes) + [0x00, 0xd3, 0x76, 0xc3, 0xb9, 0xbf, 0x88]
  {
    hide Opcode.Code, Assemble, ToksOk, TokOk, IntTok, DataTok, ScriptBuf.Valid, Enc, NumberPush, DataPush;
    OpcodeTable();
    SmallPushes();
    s.PushInt(0);
    s.PushOp(CovOutputIdx);
    s.PushOp(Dup);
    s.PushOp(TxOutputSpk);
    s.PushOp(TxInputIndex);
    s.PushOp(TxInputSpk);
    s.PushOp(EqualVerify);
    Block(old(s.toks), SelfSend());
  }

  method PushKeepsOwnValue(s: ScriptBuf)
    requires s.Valid()
    modifies s
    ensures s.Valid() && s.toks == old(s.toks) + KeepsOwnValue()
    ensures s.bytes == old(s.bytes) + [0xc2, 0xb9, 0xbe, 0x03, 0x40, 0x42, 0x0f, 0x94, 0xa2, 0x69, 0x51]
  {
    hide Opcode.Code, Assemble, ToksOk, TokOk, IntTok, DataTok, ScriptBuf.Valid, Enc, NumberPush, DataPush;
    OpcodeTable();
    SmallPushes();
    FeePush();
    s.PushOp(TxOutputAmount);
    s.PushOp(TxInputIndex);
    s.PushOp(TxInputAmount);
    s.PushInt(MAX_FEE);
    s.PushOp(Sub);
    s.PushOp(GreaterThanOrEqual);
    s.PushOp(Verify);
    s.PushInt(1);
    Block(old(s.toks), KeepsOwnValue());
  }

  method PushJournal(s: ScriptBuf, ps: Params)
    requires s.Valid()
    modifies s
    ensures s.Valid() && s.toks == old(s.toks) + Journal(ps)
    ensures s.bytes == old(s.bytes) + JournalBytes(ps)
  {
    hide Assemble, ToksOk, ScriptBuf.Valid, FieldBytes, CoRoll, Field, InPriceRange, MustBeRoot, NotOlder, OldTimeBounds;
    Fields();
    PushCoRoll(s, ps);
    PushField(s, 0, 16, 48);
    PushMustBeRoot(s, ps);
    PushField(s, 0, 0, 8);
    PushInPriceRange(s);
    PushField(s, 0, 8, 16);
    PushOldTimeBounds(s);
    PushNotOlder(s);
    Regroup(old(s.toks), CoRoll(ps), Field(0, 16, 48));
    ghost var a := CoRoll(ps) + Field(0, 16, 48);
    Regroup(old(s.toks), a, MustBeRoot(ps));
    ghost var b := a + MustBeRoot(ps);
    Regroup(old(s.toks), b, Field(0, 0, 8));
    ghost var c := b + Field(0, 0, 8);
    Regroup(old(s.toks), c, InPriceRange());
    ghost var d := c + InPriceRange();
    Regroup(old(s.toks), d, Field(0, 8, 16));
    ghost var e := d + Field(0, 8, 16);
    Regroup(old(s.toks), e, OldTimeBounds());
    ghost var f := e + OldTimeBounds();
    Regroup(old(s.toks), f, NotOlder());
    JoinEight(old(s.bytes), [0x20] + ps.heartbeat + [0xd0, 0x51, 0x9d], [0x00, 0x79, 0x60, 0x01, 0x30, 0x7f], [0x20]
        + ps.setRoot + [0x88], [0x00, 0x79, 0x00, 0x58, 0x7f],
        [0x51, 0x08, 0x01, 0x00, 0x00, 0x00, 0x00, 0x00, 0x00, 0x10, 0xa5, 0x69], [0x00, 0x79, 0x58, 0x60, 0x7f],
        [0xb9, 0xb9, 0xc9, 0x76, 0x02, 0x29, 0x01, 0x94, 0x7c, 0x02, 0x21, 0x01], [0x94, 0xbc, 0xa2, 0x69]);
  }

  method PushRebuild(s: ScriptBuf)
    requires s.Valid()
    modifies s
    ensures s.Valid() && s.toks == old(s.toks) + Rebuild()
    ensures s.bytes == old(s.bytes) + RebuildBytes()
  {
    hide Assemble, ToksOk, ScriptBuf.Valid, FieldBytes, Field, OwnBody, PrefixEnd, PrefixMiddle, PrefixStart;
    Fields();
    PushPrefixStart(s);
    PushField(s, 1, 0, 8);
    PushPrefixMiddle(s);
    PushField(s, 1, 8, 16);
    PushPrefixEnd(s);
    PushOwnBody(s);
    Regroup(old(s.toks), PrefixStart(), Field(1, 0, 8));
    ghost var a := PrefixStart() + Field(1, 0, 8);
    Regroup(old(s.toks), a, PrefixMiddle());
    ghost var b := a + PrefixMiddle();
    Regroup(old(s.toks), b, Field(1, 8, 16));
    ghost var c := b + Field(1, 8, 16);
    Regroup(old(s.toks), c, PrefixEnd());
    ghost var d := c + PrefixEnd();
    Regroup(old(s.toks), d, OwnBody());
    JoinSix(old(s.bytes), [0x01, 0x08], [0x51, 0x79, 0x00, 0x58, 0x7f], [0x7e, 0x02, 0x75, 0x08, 0x7e],
        [0x51, 0x79, 0x58, 0x60, 0x7f], [0x7e, 0x01, 0x75, 0x7e],
        [0xb9, 0xb9, 0xc9, 0x76, 0x02, 0x20, 0x01, 0x94, 0x7c, 0xbc]);
  }

  method PushSettle(s: ScriptBuf, ps: Params)
    requires s.Valid()
    modifies s
    ensures s.Valid() && s.toks == old(s.toks) + Settle(ps)
    ensures s.bytes == old(s.bytes) + SettleBytes(ps)
  {
    hide Assemble, ToksOk, ScriptBuf.Valid, KeepsValue, OneInput, OneOutput, PaysNext, Proof, WrapHash;
    PushOneInput(s);
    PushOneOutput(s);
    PushWrapHash(s);
    PushPaysNext(s);
    PushKeepsValue(s);
    PushProof(s, ps);
    Regroup(old(s.toks), OneInput(), OneOutput());
    ghost var a := OneInput() + OneOutput();
    Regroup(old(s.toks), a, WrapHash());
    ghost var b := a + WrapHash();
    Regroup(old(s.toks), b, PaysNext());
    ghost var c := b + PaysNext();
    Regroup(old(s.toks), c, KeepsValue());
    ghost var d := c + KeepsValue();
    Regroup(old(s.toks), d, Proof(ps));
    JoinSix(old(s.bytes), [0x7e, 0xb9, 0xcf, 0x76, 0xd0, 0x51, 0x9d], [0xd2, 0x51, 0x9d],
        [0xaa, 0x01, 0x87, 0x7e, 0x02, 0xaa, 0x20, 0x7c, 0x7e, 0x02, 0x00, 0x00, 0x7c], [0x7e, 0x00, 0xc3, 0x88],
        [0x00, 0xc2, 0xb9, 0xbe, 0x03, 0x40, 0x42, 0x0f, 0x94, 0xa2, 0x69], [0xa8, 0x20] + ps.imageId + [0x20]
        + ps.controlId + [0x01, ps.hashfn, 0x01, 0x21, 0xa6, 0x69, 0x51]);
  }

  method PushPassthrough(s: ScriptBuf)
    requires s.Valid()
    modifies s
    ensures s.Valid() && s.toks == old(s.toks) + Passthrough()
    ensures s.bytes == old(s.bytes) + PassBytes()
  {
    hide Assemble, ToksOk, ScriptBuf.Valid, KeepsOwnValue, LineageIn, LineageOut, SelfSend;
    PushLineageIn(s);
    PushLineageOut(s);
    PushSelfSend(s);
    PushKeepsOwnValue(s);
    Regroup(old(s.toks), LineageIn(), LineageOut());
    ghost var a := LineageIn() + LineageOut();
    Regroup(old(s.toks), a, SelfSend());
    ghost var b := a + SelfSend();
    Regroup(old(s.toks), b, KeepsOwnValue());
    JoinFour(old(s.bytes), [0xb9, 0xcf, 0x76, 0xd0, 0x51, 0x9d], [0x76, 0xd2, 0x51, 0x9d],
        [0x00, 0xd3, 0x76, 0xc3, 0xb9, 0xbf, 0x88], [0xc2, 0xb9, 0xbe, 0x03, 0x40, 0x42, 0x0f, 0x94, 0xa2, 0x69, 0x51]);
  }

  lemma {:induction false} BodyToks(ps: Params)
    ensures [] + [Do(If)] + Journal(ps) + Rebuild() + Settle(ps) + [Do(Else)] + Passthrough() + [Do(EndIf)] ==
            Flatten(BodyCode(ps))
  {
    BodyOk(ps);
    var roll, pass := Line(Roll(ps)), Line(Passthrough());
    assert CodeOk(roll) && CodeOk(pass);
    LineToks(Roll(ps));
    LineToks(Passthrough());
    hide CodeOk, Flatten, Journal, Rebuild, Settle, Passthrough;
    var begun: seq<Tok> := [] + [Do(If)];
    Regroup(begun, Journal(ps), Rebuild());
    Regroup(begun, Journal(ps) + Rebuild(), Settle(ps));
    BranchToks([], roll, pass);
    assert [] + Flatten(BodyCode(ps)) == Flatten(BodyCode(ps));
  }

  lemma BodyJoin(j: seq<byte>, r: seq<byte>, s: seq<byte>, p: seq<byte>)
    ensures [] + [0x63] + j + r + s + [0x67] + p + [0x68] == [0x63] + j + r + s + [0x67] + p + [0x68]
  {
  }

  /** `build_oracle_mb_publish_body`: these 288 bytes. */
  method BuildPublishBody(ps: Params) returns (body: seq<byte>)
    ensures body == Body(ps) && |body| == 288
    ensures body == BodyBytes(ps)
  {
    hide Opcode.Code, Assemble, ToksOk, Flatten, BodyCode, Journal, Rebuild, Settle, Passthrough, JournalBytes, RebuildBytes,
         SettleBytes, PassBytes;
    OpcodeTable();
    BodyOk(ps);
    var s := new ScriptBuf();
    s.PushOp(If);
    PushJournal(s, ps);
    PushRebuild(s);
    PushSettle(s, ps);
    s.PushOp(Else);
    PushPassthrough(s);
    s.PushOp(EndIf);
    BodyToks(ps);
    BodyJoin(JournalBytes(ps), RebuildBytes(), SettleBytes(ps), PassBytes());
    return s.bytes;
  }

  /** `oracle_mb_prefix`. */
  method BuildPrefix(price: nat, t: nat) returns (prefix: seq<byte>)
    requires price < U64_LIMIT && t < U64_LIMIT
    ensures prefix == PrefixBytes(Le64(price), Le64(t))
    ensures prefix == [0x08] + NineBytes(price)[..8] + [0x75, 0x08] + NineBytes(t)[..8] + [0x75]
  {
    hide Le64, NineBytes;
    Le64Bytes(price);
    Le64Bytes(t);
    prefix := [0x08];
    prefix := prefix + Le64(price);
    prefix := prefix + [0x75];
    prefix := prefix + [0x08];
    prefix := prefix + Le64(t);
    prefix := prefix + [0x75];
  }

  /** `build_oracle_mb_redeem`, and the genesis redeem: 308 bytes for every state and all parameters. */
  method BuildRedeem(price: nat, t: nat, ps: Params) returns (redeem: seq<byte>)
    requires price < U64_LIMIT && t < U64_LIMIT
    ensures redeem == Redeem(price, t, ps) && |redeem| == 308
    ensures redeem == [0x08] + NineBytes(price)[..8] + [0x75, 0x08] + NineBytes(t)[..8] + [0x75] + BodyBytes(ps)
  {
    RedeemBytes(price, t, ps);
    hide Redeem, Body, BodyBytes, PrefixBytes, Le64, NineBytes;
    var prefix := BuildPrefix(price, t);
    var body := BuildPublishBody(ps);
    return prefix + body;
  }
}
