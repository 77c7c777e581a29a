/** Spending the oracle with the signature scripts the wallet builds; the heartbeat; the read builder. */
module OracleSpend {
  import opened Bytes
  import opened ScriptNumbers
  import opened ScriptTokens
  import opened ScriptMachine
  import opened ScriptCode
  import opened ScriptRules
  import opened ScriptBytes
  import opened ScriptBuilder
  import opened ScriptSpend
  import opened OracleScript
  import opened OracleRoll
  import opened Oracle
  import opened OracleBuilder

  /** The spender's precompile fields. */
  datatype Fields = Fields(claim: seq<byte>, controlIndex: seq<byte>, controlDigests: seq<byte>, seal: seq<byte>) {
    predicate Fit() {
      |claim| < U32_LIMIT && |controlIndex| < U32_LIMIT && |controlDigests| < U32_LIMIT && |seal| < U32_LIMIT
    }
  }

  function PublishSig(redeem: seq<byte>, zk: Fields, journal: seq<byte>): seq<Tok>
    requires zk.Fit() && |redeem| < U32_LIMIT && |journal| == 48
  {
    [DataTok(zk.claim), DataTok(zk.controlIndex), DataTok(zk.controlDigests), DataTok(zk.seal), DataTok(journal),
        DataTok([0x01]), DataTok(redeem)]
  }

  function PassthroughSig(redeem: seq<byte>): seq<Tok>
    requires |redeem| < U32_LIMIT
  {
    [IntTok(0), DataTok(redeem)]
  }

  /** What a publish leaves under its selector. */
  function PublishStack(zk: Fields, journal: seq<byte>): Stack {
    Push(journal, Push(zk.seal, Push(zk.controlDigests, Push(zk.controlIndex, Push(zk.claim, Nil)))))
  }

  lemma {:induction false} PublishItems(redeem: seq<byte>, zk: Fields, journal: seq<byte>)
    requires zk.Fit() && |redeem| < U32_LIMIT && |journal| == 48
    ensures var ts := PublishSig(redeem, zk, journal);
      && ToksOk(ts) && PushesOnly(ts) && Pushed(ts[6]).value == redeem
      && Items(ts[..6], Nil) == Push([0x01], PublishStack(zk, journal))
  {
    var ts := PublishSig(redeem, zk, journal);
    PushFacts();
    hide DataTok, Pushed, IntTok;
    assert ts[..6] == [ts[0]] + [ts[1]] + [ts[2]] + [ts[3]] + [ts[4]] + [ts[5]];
    ItemsOne([ts[0]], zk.claim, Nil);
    ItemsOne([ts[1]], zk.controlIndex, Items([ts[0]], Nil));
    ItemsOne([ts[2]], zk.controlDigests, Push(zk.controlIndex, Push(zk.claim, Nil)));
    ItemsOne([ts[3]], zk.seal, Push(zk.controlDigests, Push(zk.controlIndex, Push(zk.claim, Nil))));
    ItemsOne([ts[4]], journal, PublishStack(zk, journal).rest);
    ItemsOne([ts[5]], [0x01], PublishStack(zk, journal));
    hide Items, PushesOnly, PublishSig;
    ItemsConcat([ts[0]], [ts[1]], Nil);
    ItemsConcat([ts[0]] + [ts[1]], [ts[2]], Nil);
    ItemsConcat([ts[0]] + [ts[1]] + [ts[2]], [ts[3]], Nil);
    ItemsConcat([ts[0]] + [ts[1]] + [ts[2]] + [ts[3]], [ts[4]], Nil);
    ItemsConcat([ts[0]] + [ts[1]] + [ts[2]] + [ts[3]] + [ts[4]], [ts[5]], Nil);
    PublishPushes(redeem, zk, journal);
  }

  lemma {:induction false} PublishPushes(redeem: seq<byte>, zk: Fields, journal: seq<byte>)
    requires zk.Fit() && |redeem| < U32_LIMIT && |journal| == 48
    ensures ToksOk(PublishSig(redeem, zk, journal)) && PushesOnly(PublishSig(redeem, zk, journal))
  {
    PushFacts();
    PlainToks();
    hide DataTok, Pushed, IntTok, IsControl;
  }

  lemma {:induction false} PassthroughPushes(redeem: seq<byte>)
    requires |redeem| < U32_LIMIT
    ensures ToksOk(PassthroughSig(redeem)) && PushesOnly(PassthroughSig(redeem))
  {
    PushFacts();
    PlainToks();
    hide DataTok, Pushed, IntTok, IsControl;
  }

  function PublishSigScript(redeem: seq<byte>, zk: Fields, journal: seq<byte>): seq<byte>
    requires zk.Fit() && |redeem| < U32_LIMIT && |journal| == 48
  {
    PublishPushes(redeem, zk, journal);
    Assemble(PublishSig(redeem, zk, journal))
  }

  function PassthroughSigScript(redeem: seq<byte>): seq<byte>
    requires |redeem| < U32_LIMIT
  {
    PassthroughPushes(redeem);
    Assemble(PassthroughSig(redeem))
  }

  lemma {:induction false} PublishToks(redeem: seq<byte>, zk: Fields, journal: seq<byte>)
    requires zk.Fit() && |redeem| < U32_LIMIT && |journal| == 48
    ensures [] + [DataTok(zk.claim)] + [DataTok(zk.controlIndex)] + [DataTok(zk.controlDigests)] + [DataTok(zk.seal)]
            + [DataTok(journal)] + [DataTok([0x01])] + [DataTok(redeem)] == PublishSig(redeem, zk, journal)
  {
    hide DataTok, TokOk;
    Block([], PublishSig(redeem, zk, journal));
    assert [] + PublishSig(redeem, zk, journal) == PublishSig(redeem, zk, journal);
  }

  lemma PublishJoin(a: seq<byte>, b: seq<byte>, c: seq<byte>, d: seq<byte>, e: seq<byte>, r: seq<byte>)
    ensures [] + a + b + c + d + e + [0x01, 0x01] + r == a + b + c + d + e + [0x01, 0x01] + r
  {
  }

  method BuildPublishSigScript(redeem: seq<byte>, zk: Fields, journal: seq<byte>) returns (sig: seq<byte>)
    requires zk.Fit() && |redeem| < U32_LIMIT && |journal| == 48
    ensures sig == PublishSigScript(redeem, zk, journal)
    ensures sig == DataPush(zk.claim) + DataPush(zk.controlIndex) + DataPush(zk.controlDigests) + DataPush(zk.seal)
                   + DataPush(journal) + [0x01, 0x01] + DataPush(redeem)
  {
    hide Assemble, ToksOk, TokOk, DataTok, PublishSig, DataPush;
    SelectorPush();
    var s := new ScriptBuf();
    s.PushData(zk.claim);
    s.PushData(zk.controlIndex);
    s.PushData(zk.controlDigests);
    s.PushData(zk.seal);
    s.PushData(journal);
    s.PushData([0x01]);
    s.PushData(redeem);
    PublishToks(redeem, zk, journal);
    PublishJoin(DataPush(zk.claim), DataPush(zk.controlIndex), DataPush(zk.controlDigests), DataPush(zk.seal),
                DataPush(journal), DataPush(redeem));
    return s.bytes;
  }

  lemma {:induction false} SelectorPush()
    ensures DataPush([0x01]) == [0x01, 0x01]
  {
  }

  method BuildPassthroughSigScript(redeem: seq<byte>) returns (sig: seq<byte>)
    requires |redeem| < U32_LIMIT
    ensures sig == PassthroughSigScript(redeem)
    ensures sig == [0x00] + DataPush(redeem)
  {
    hide Assemble, ToksOk, TokOk, DataTok, ScriptBuf.Valid, DataPush;
    var s := new ScriptBuf();
    s.PushInt(0);
    s.PushData(redeem);
    Block([], PassthroughSig(redeem));
    assert s.toks == [] + PassthroughSig(redeem) == PassthroughSig(redeem);
    BufBytes(s);
    return s.bytes;
  }

  /** The oracle at a state, revealed by a publish or a passthrough. */
  function Publish(price: nat, t: nat, ps: Params, zk: Fields, journal: seq<byte>): seq<byte>
    requires price < U64_LIMIT && t < U64_LIMIT && zk.Fit() && |journal| == 48
  {
    RedeemBytes(price, t, ps);
    PublishSigScript(Redeem(price, t, ps), zk, journal)
  }

  function Pass(price: nat, t: nat, ps: Params): seq<byte>
    requires price < U64_LIMIT && t < U64_LIMIT
  {
    RedeemBytes(price, t, ps);
    PassthroughSigScript(Redeem(price, t, ps))
  }

  /**
   * A publish: the oracle's output, spent with the signature script the wallet builds, is accepted
   * exactly when its journal and transaction are a roll.
   */
  lemma {:induction false} PublishSpends(env: Env, price: nat, t: nat, ps: Params, zk: Fields, journal: seq<byte>)
    requires zk.Fit() && |journal| == 48 && AtState(env, price, t, ps)
    requires env.Self().sigScript == Publish(price, t, ps, zk, journal)
    ensures SpendOk(env) <==> Rolls(env, t, ps, PublishStack(zk, journal))
  {
    var redeem := Redeem(price, t, ps);
    hide Redeem, Items, Assemble, ToksOk, PushesOnly, Pushed, SpendOk, Accepts, Rolls, Truthy, Ends, DataTok, P2sh;
    RedeemBytes(price, t, ps);
    PublishItems(redeem, zk, journal);
    DataIsData(redeem);
    TrueSelector();
    SpendIs(env, PublishSig(redeem, zk, journal), redeem, Push([0x01], PublishStack(zk, journal)));
    OracleAccepts(env, price, t, ps, Push([0x01], PublishStack(zk, journal)));
  }

  lemma DataIsData(d: seq<byte>)
    requires 0 < |d| < U32_LIMIT
    ensures DataTok(d).Data?
  {
  }

  lemma {:induction false} TrueSelector()
    ensures Truthy([0x01]) && !Truthy([])
  {
    FlagIsNumber(true);
  }

  /** A passthrough likewise. */
  lemma {:induction false} PassthroughSpends(env: Env, price: nat, t: nat, ps: Params)
    requires AtState(env, price, t, ps)
    requires env.Self().sigScript == Pass(price, t, ps)
    ensures SpendOk(env) <==> PassOk(env)
  {
    RedeemBytes(price, t, ps);
    var redeem := Redeem(price, t, ps);
    var ts := PassthroughSig(redeem);
    PassthroughItems(redeem);
    assert DataTok(redeem).Data?;
    TrueSelector();
    hide Redeem, Items, Assemble, ToksOk, PushesOnly, Pushed, SpendOk, Accepts, Rolls, Truthy, Ends, DataTok, P2sh,
         PassOk, IntTok;
    SpendIs(env, ts, redeem, Push([], Nil));
    OracleAccepts(env, price, t, ps, Push([], Nil));
  }

  lemma {:induction false} PassthroughItems(redeem: seq<byte>)
    requires |redeem| < U32_LIMIT
    ensures var ts := PassthroughSig(redeem);
      ToksOk(ts) && PushesOnly(ts) && Pushed(ts[1]).value == redeem && Items(ts[..1], Nil) == Push([], Nil)
  {
    var ts := PassthroughSig(redeem);
    PlainToks();
    PushedData(redeem);
    assert Pushed(ts[0]) == Some([]);
    hide DataTok, Pushed, IntTok, TokOk;
    assert ts[..1] == [ts[0]] && ts[..1][1..] == [];
    assert Items(ts[..1][1..], Push([], Nil)) == Push([], Nil);
  }

  // ---- the heartbeat ----

  function RollsForward(): seq<Tok> {
    [Do(TxOutputAmount), Do(TxInputIndex), Do(TxInputAmount), Do(GreaterThanOrEqual), Do(Verify), IntTok(1)]
  }

  function Heartbeat(): seq<Tok> {
    LineageIn() + LineageOut() + SelfSend() + RollsForward()
  }

  lemma {:induction false} HeartbeatOk()
    ensures CodeOk(Line(Heartbeat())) && ToksOk(Heartbeat())
  {
    PlainToks();
    PassthroughBlocks();
    hide Plain, CodeOk, IntTok, DataTok, TokLen, Len, TokOk, ToksOk, Enc, Mag;
    PlainLine(RollsForward());
    hide LineageIn, LineageOut, SelfSend, RollsForward;
    SizedJoin(LineageIn(), 6, LineageOut(), 4);
    SizedJoin(LineageIn() + LineageOut(), 10, SelfSend(), 7);
    SizedJoin(LineageIn() + LineageOut() + SelfSend(), 17, RollsForward(), Len(RollsForward()));
    FlattenOk(Line(Heartbeat()));
  }

  method PushRollsForward(s: ScriptBuf)
    requires s.Valid()
    modifies s
    ensures s.Valid() && s.toks == old(s.toks) + RollsForward()
    ensures s.bytes == old(s.bytes) + [0xc2, 0xb9, 0xbe, 0xa2, 0x69, 0x51]
  {
    hide Opcode.Code, Assemble, ToksOk, TokOk, ScriptBuf.Valid, IntTok, Enc, NumberPush;
    OpcodeTable();
    SmallPushes();
    s.PushOp(TxOutputAmount);
    s.PushOp(TxInputIndex);
    s.PushOp(TxInputAmount);
    s.PushOp(GreaterThanOrEqual);
    s.PushOp(Verify);
    s.PushInt(1);
    Block(old(s.toks), RollsForward());
  }

  lemma {:induction false} HeartbeatJoin()
    ensures
      var none: seq<byte> := [];
      none + [0xb9, 0xcf, 0x76, 0xd0, 0x51, 0x9d] + [0x76, 0xd2, 0x51, 0x9d] + [0x00, 0xd3, 0x76, 0xc3, 0xb9, 0xbf, 0x88]
      + [0xc2, 0xb9, 0xbe, 0xa2, 0x69, 0x51] ==
      [0xb9, 0xcf, 0x76, 0xd0, 0x51, 0x9d, 0x76, 0xd2, 0x51, 0x9d, 0x00, 0xd3, 0x76, 0xc3, 0xb9, 0xbf, 0x88, 0xc2, 0xb9,
          0xbe, 0xa2, 0x69, 0x51]
  {
  }

  /** `build_oracle_mb_heartbeat_script`: these 23 bytes. */
  method BuildHeartbeat() returns (script: seq<byte>)
    ensures ToksOk(Heartbeat()) && script == Assemble(Heartbeat())
    ensures script == [0xb9, 0xcf, 0x76, 0xd0, 0x51, 0x9d, 0x76, 0xd2, 0x51, 0x9d, 0x00, 0xd3, 0x76, 0xc3, 0xb9, 0xbf, 0x88,
                       0xc2, 0xb9, 0xbe, 0xa2, 0x69, 0x51]
  {
    hide Assemble, ToksOk, LineageIn, LineageOut, SelfSend, RollsForward, CodeOk;
    HeartbeatOk();
    var s := new ScriptBuf();
    PushLineageIn(s);
    PushLineageOut(s);
    PushSelfSend(s);
    PushRollsForward(s);
    assert [] + LineageIn() == LineageIn();
    HeartbeatJoin();
    return s.bytes;
  }

  lemma {:induction false} RollsForwardMeans(env: Env, out: nat, s: Stack)
    requires env.Valid() && out < |env.outputs|
    ensures Steps(env, RollsForward(), At(Push(Enc(out), s))) ==
            if env.outputs[out].amount >= env.Self().amount then At(Push(Enc(1), s)) else Failed
  {
    StackRules(env);
    TxRules(env);
    NumberRules(env);
    hide Step, Steps, Enc, Dec, Flag, IntTok, DataTok, Mag;
    StepsTo8(env, RollsForward(), At(Push(Enc(out), s)));
  }

  /** The heartbeat accepts exactly a keyless self-send of its one tagged output that keeps the value. */
  lemma {:induction false} HeartbeatAccepts(env: Env, s: Stack)
    requires env.Valid()
    ensures ToksOk(Heartbeat())
    ensures
      var tagged := OutputsTagged(env.outputs, TagOf(env.Self()));
      Accepts(env, Assemble(Heartbeat()), s) <==>
      && s.Nil?
      && |InputsTagged(env.inputs, TagOf(env.Self()))| == 1
      && |tagged| == 1 && tagged[0] < |env.outputs|
      && env.outputs[tagged[0]].spk == env.Self().spk
      && env.outputs[tagged[0]].amount >= env.Self().amount
  {
    HeartbeatOk();
    AcceptsCompiled(env, Line(Heartbeat()), s);
    LineToks(Heartbeat());
    ExecLine(env, Heartbeat(), At(s));
    var id := TagOf(env.Self());
    var tagged := OutputsTagged(env.outputs, id);
    var front := LineageIn() + LineageOut();
    StepsConcat(env, front, SelfSend(), At(s));
    StepsConcat(env, front + SelfSend(), RollsForward(), At(s));
    FailureStays(env);
    LineageMeans(env, s);
    SelfSendMeans(env, id, s);
    CleanOne(s);
    NotClean();
    hide Steps, LineageIn, LineageOut, SelfSend, RollsForward, Enc, TagOf, InputsTagged, OutputsTagged, Clean,
         Accepts, Assemble, Exec, Flatten, CodeOk, ToksOk;
    if |tagged| > 0 && tagged[0] < |env.outputs| {
      RollsForwardMeans(env, tagged[0], s);
    }
  }

  // ---- building the read ----

  method PushRevealBounds(s: ScriptBuf, i: nat, j: nat)
    requires s.Valid() && i <= REDEEM_LEN && j <= REDEEM_LEN
    modifies s
    ensures s.Valid() && s.toks == old(s.toks) + RevealBounds(i, j)
    ensures s.bytes == old(s.bytes) + ([0x76, 0xc9, 0x76] + NumberPush(308 - j) + [0x94, 0x7c] + NumberPush(308 - i)
        + [0x94])
  {
    hide Opcode.Code, Assemble, ToksOk, TokOk, IntTok, DataTok, ScriptBuf.Valid, Enc, NumberPush;
    OpcodeTable();
    s.PushOp(Dup);
    s.PushOp(TxInputScriptSigLen);
    s.PushOp(Dup);
    s.PushInt(REDEEM_LEN - j);
    s.PushOp(Sub);
    s.PushOp(Swap);
    s.PushInt(REDEEM_LEN - i);
    s.PushOp(Sub);
    Block(old(s.toks), RevealBounds(i, j));
  }

  lemma {:induction false} ReadToks(base: seq<Tok>, id: Hash)
    ensures base + LocateOracle(id) + RevealBounds(1, 9) + CutPrice() + RevealBounds(11, 19) + CutTime() ==
            base + Read(id)
  {
    hide LocateOracle, RevealBounds, CutPrice, CutTime;
    var b1 := LocateOracle(id) + RevealBounds(1, 9);
    Regroup(base, LocateOracle(id), RevealBounds(1, 9));
    Regroup(base, b1, CutPrice());
    Regroup(base, b1 + CutPrice(), RevealBounds(11, 19));
    Regroup(base, b1 + CutPrice() + RevealBounds(11, 19), CutTime());
  }

  lemma LocateJoin(base: seq<byte>, id: seq<byte>)
    ensures base + ([0x20] + id) + [0x00] + [0xd1] + [0x76] == base + ([0x20] + id + [0x00, 0xd1, 0x76])
  {
  }

  method PushLocate(s: ScriptBuf, id: Hash)
    requires s.Valid()
    modifies s
    ensures s.Valid() && s.toks == old(s.toks) + LocateOracle(id)
    ensures s.bytes == old(s.bytes) + ([0x20] + id + [0x00, 0xd1, 0x76])
  {
    hide Opcode.Code, Assemble, ToksOk, TokOk, IntTok, DataTok, ScriptBuf.Valid, Enc, NumberPush, DataPush;
    OpcodeTable();
    SmallPushes();
    ShortPush(id);
    s.PushData(id);
    s.PushInt(0);
    s.PushOp(CovInputIdx);
    s.PushOp(Dup);
    Block(old(s.toks), LocateOracle(id));
    LocateJoin(old(s.bytes), id);
  }

  method PushCutPrice(s: ScriptBuf)
    requires s.Valid()
    modifies s
    ensures s.Valid() && s.toks == old(s.toks) + CutPrice()
    ensures s.bytes == old(s.bytes) + [0x7c, 0xbc, 0x7c]
  {
    hide Opcode.Code, Assemble, ToksOk, TokOk, ScriptBuf.Valid;
    OpcodeTable();
    s.PushOp(Swap);
    s.PushOp(TxInputScriptSigSubstr);
    s.PushOp(Swap);
    Block(old(s.toks), CutPrice());
  }

  method PushCutTime(s: ScriptBuf)
    requires s.Valid()
    modifies s
    ensures s.Valid() && s.toks == old(s.toks) + CutTime()
    ensures s.bytes == old(s.bytes) + [0x7c, 0xbc]
  {
    hide Opcode.Code, Assemble, ToksOk, TokOk, ScriptBuf.Valid;
    OpcodeTable();
    s.PushOp(Swap);
    s.PushOp(TxInputScriptSigSubstr);
    Block(old(s.toks), CutTime());
  }

  lemma {:induction false} BoundPushes()
    ensures NumberPush(299) == [0x02, 0x2b, 0x01] && NumberPush(307) == [0x02, 0x33, 0x01]
    ensures NumberPush(289) == [0x02, 0x21, 0x01] && NumberPush(297) == [0x02, 0x29, 0x01]
  {
  }

  lemma {:induction false} ReadJoin(base: seq<byte>, id: seq<byte>)
    ensures base + ([0x20] + id + [0x00, 0xd1, 0x76])
            + ([0x76, 0xc9, 0x76] + [0x02, 0x2b, 0x01] + [0x94, 0x7c] + [0x02, 0x33, 0x01] + [0x94]) + [0x7c, 0xbc, 0x7c]
            + ([0x76, 0xc9, 0x76] + [0x02, 0x21, 0x01] + [0x94, 0x7c] + [0x02, 0x29, 0x01] + [0x94]) + [0x7c, 0xbc] ==
            base + ([0x20] + id
            + [0x00, 0xd1, 0x76, 0x76, 0xc9, 0x76, 0x02, 0x2b, 0x01, 0x94, 0x7c, 0x02, 0x33, 0x01, 0x94, 0x7c, 0xbc, 0x7c,
               0x76, 0xc9, 0x76, 0x02, 0x21, 0x01, 0x94, 0x7c, 0x02, 0x29, 0x01, 0x94, 0x7c, 0xbc])
  {
  }

  /** `push_oracle_mb_read`: these 65 bytes. */
  method PushRead(s: ScriptBuf, id: Hash)
    requires s.Valid()
    modifies s
    ensures s.Valid() && s.toks == old(s.toks) + Read(id)
    ensures s.bytes == old(s.bytes) + ([0x20] + id
                       + [0x00, 0xd1, 0x76, 0x76, 0xc9, 0x76, 0x02, 0x2b, 0x01, 0x94, 0x7c, 0x02, 0x33, 0x01, 0x94,
                           0x7c, 0xbc, 0x7c,
                          0x76, 0xc9, 0x76, 0x02, 0x21, 0x01, 0x94, 0x7c, 0x02, 0x29, 0x01, 0x94, 0x7c, 0xbc])
  {
    hide Assemble, ToksOk, ScriptBuf.Valid, LocateOracle, RevealBounds, CutPrice, CutTime, NumberPush;
    BoundPushes();
    PushLocate(s, id);
    PushRevealBounds(s, 1, 9);
    PushCutPrice(s);
    PushRevealBounds(s, 11, 19);
    PushCutTime(s);
    ReadToks(old(s.toks), id);
    ReadJoin(old(s.bytes), id);
  }
}
