/** The oracle covenant's blocks: the tokens of its publish body, and the redeem script of a state. */
module OracleScript {
  import opened Bytes
  import opened ScriptNumbers
  import opened ScriptTokens
  import opened ScriptMachine
  import opened ScriptCode
  import opened ScriptRules

  const MAX_FEE: nat := 1_000_000
  const BODY_LEN: nat := 288
  const REDEEM_LEN: nat := 308
  const MAX_PRICE: nat := 0x1000_0000_0000_0000
  const ZK_TAG_RISC0: byte := 0x21

  datatype Params = Params(imageId: Hash, controlId: Hash, setRoot: Hash, hashfn: byte, heartbeat: Hash)

  // ---- ROLL ----

  function CoRoll(ps: Params): seq<Tok> {
    [DataTok(ps.heartbeat), Do(CovInputCount), IntTok(1), Do(NumEqualVerify)]
  }

  /** `PICK` the item at `depth` (0 or 1) and cut bytes `i..j` out of it. */
  function Field(depth: nat, i: nat, j: nat): seq<Tok>
    requires depth <= 1 && i < 0x100 && j < 0x100
  {
    [IntTok(depth), Do(Pick), IntTok(i), IntTok(j), Do(Substr)]
  }

  function MustBeRoot(ps: Params): seq<Tok> {
    [DataTok(ps.setRoot), Do(EqualVerify)]
  }

  function InPriceRange(): seq<Tok> {
    [IntTok(1), IntTok(MAX_PRICE + 1), Do(Within), Do(Verify)]
  }

  function OldTimeBounds(): seq<Tok> {
    [Do(TxInputIndex), Do(TxInputIndex), Do(TxInputScriptSigLen), Do(Dup), IntTok(REDEEM_LEN - 11), Do(Sub), Do(Swap),
        IntTok(REDEEM_LEN - 19)]
  }

  function NotOlder(): seq<Tok> {
    [Do(Sub), Do(TxInputScriptSigSubstr), Do(GreaterThanOrEqual), Do(Verify)]
  }

  function PrefixStart(): seq<Tok> {
    [DataTok([0x08])]
  }

  function PrefixMiddle(): seq<Tok> {
    [Do(Cat), DataTok([0x75, 0x08]), Do(Cat)]
  }

  function PrefixEnd(): seq<Tok> {
    [Do(Cat), DataTok([0x75]), Do(Cat)]
  }

  function OwnBody(): seq<Tok> {
    [Do(TxInputIndex), Do(TxInputIndex), Do(TxInputScriptSigLen), Do(Dup), IntTok(BODY_LEN), Do(Sub), Do(Swap),
        Do(TxInputScriptSigSubstr)]
  }

  function OneInput(): seq<Tok> {
    [Do(Cat), Do(TxInputIndex), Do(InputCovenantId), Do(Dup), Do(CovInputCount), IntTok(1), Do(NumEqualVerify)]
  }

  function OneOutput(): seq<Tok> {
    [Do(CovOutputCount), IntTok(1), Do(NumEqualVerify)]
  }

  function WrapHash(): seq<Tok> {
    [Do(Blake2b), DataTok([0x87]), Do(Cat), DataTok([0xAA, 0x20]), Do(Swap), Do(Cat), DataTok([0x00, 0x00]), Do(Swap)]
  }

  function PaysNext(): seq<Tok> {
    [Do(Cat), IntTok(0), Do(TxOutputSpk), Do(EqualVerify)]
  }

  function KeepsValue(): seq<Tok> {
    [IntTok(0), Do(TxOutputAmount), Do(TxInputIndex), Do(TxInputAmount), IntTok(MAX_FEE), Do(Sub),
        Do(GreaterThanOrEqual), Do(Verify)]
  }

  function Proof(ps: Params): seq<Tok> {
    [Do(Sha256), DataTok(ps.imageId), DataTok(ps.controlId), DataTok([ps.hashfn]), DataTok([ZK_TAG_RISC0]),
        Do(ZkPrecompile), Do(Verify), IntTok(1)]
  }

  /** The checks on the journal. */
  function Journal(ps: Params): seq<Tok> {
    CoRoll(ps) + Field(0, 16, 48) + MustBeRoot(ps) + Field(0, 0, 8) + InPriceRange()
    + Field(0, 8, 16) + OldTimeBounds() + NotOlder()
  }

  /** Rebuilding the next redeem script from the journal and the script's own bytes. */
  function Rebuild(): seq<Tok> {
    PrefixStart() + Field(1, 0, 8) + PrefixMiddle() + Field(1, 8, 16) + PrefixEnd() + OwnBody()
  }

  /** Pinning the transaction to it. */
  function Settle(ps: Params): seq<Tok> {
    OneInput() + OneOutput() + WrapHash() + PaysNext() + KeepsValue() + Proof(ps)
  }

  function Roll(ps: Params): seq<Tok> {
    Journal(ps) + Rebuild() + Settle(ps)
  }

  // ---- PASSTHROUGH ----

  function LineageIn(): seq<Tok> {
    [Do(TxInputIndex), Do(InputCovenantId), Do(Dup), Do(CovInputCount), IntTok(1), Do(NumEqualVerify)]
  }

  function LineageOut(): seq<Tok> {
    [Do(Dup), Do(CovOutputCount), IntTok(1), Do(NumEqualVerify)]
  }

  function SelfSend(): seq<Tok> {
    [IntTok(0), Do(CovOutputIdx), Do(Dup), Do(TxOutputSpk), Do(TxInputIndex), Do(TxInputSpk), Do(EqualVerify)]
  }

  function KeepsOwnValue(): seq<Tok> {
    [Do(TxOutputAmount), Do(TxInputIndex), Do(TxInputAmount), IntTok(MAX_FEE), Do(Sub), Do(GreaterThanOrEqual),
        Do(Verify), IntTok(1)]
  }

  function Passthrough(): seq<Tok> {
    LineageIn() + LineageOut() + SelfSend() + KeepsOwnValue()
  }

  function BodyCode(ps: Params): Code {
    Branch(Line(Roll(ps)), Line(Passthrough()))
  }

  // ---- the redeem script ----

  function Prefix(price: nat, t: nat): seq<Tok>
    requires price < U64_LIMIT && t < U64_LIMIT
  {
    [DataTok(Le64(price)), Do(Drop), DataTok(Le64(t)), Do(Drop)]
  }

  function RedeemCode(price: nat, t: nat, ps: Params): Code
    requires price < U64_LIMIT && t < U64_LIMIT
  {
    Chain(Line(Prefix(price, t)), BodyCode(ps))
  }

  /** Lengths of the numbers the body pushes that are not small. */
  lemma {:induction false} ConstantLens()
    ensures TokLen(IntTok(48)) == 2
    ensures TokLen(IntTok(BODY_LEN)) == 3 && TokLen(IntTok(REDEEM_LEN - 11)) == 3
              && TokLen(IntTok(REDEEM_LEN - 19)) == 3
    ensures TokLen(IntTok(MAX_FEE)) == 4 && TokLen(IntTok(MAX_PRICE + 1)) == 9
  {
    assert Pow256(1) == 256 && Pow256(2) == 0x1_0000;
    assert Pow256(3) == 0x100_0000 && Pow256(5) == 0x100_0000_0000;
    assert Pow256(7) == 0x100_0000_0000_0000;
    hide TokLen, IntTok;
    IntLen(48, 1);
    IntLen(BODY_LEN, 2);
    IntLen(REDEEM_LEN - 11, 2);
    IntLen(REDEEM_LEN - 19, 2);
    IntLen(MAX_FEE, 3);
    IntLen(MAX_PRICE + 1, 8);
  }

  lemma {:induction false} JournalBlocks(ps: Params)
    ensures Sized(CoRoll(ps), 36)
    ensures Sized(Field(0, 16, 48), 6)
    ensures Sized(MustBeRoot(ps), 34)
    ensures Sized(Field(0, 0, 8), 5)
    ensures Sized(InPriceRange(), 12)
    ensures Sized(Field(0, 8, 16), 5)
    ensures Sized(OldTimeBounds(), 12)
    ensures Sized(NotOlder(), 4)
  {
    PlainToks();
    LenFacts();
    ConstantLens();
    hide Plain, CodeOk, IntTok, DataTok, TokLen, Len, TokOk, ToksOk, Enc, Mag;
    PlainLine(CoRoll(ps));
    PlainLine(Field(0, 16, 48));
    PlainLine(MustBeRoot(ps));
    PlainLine(Field(0, 0, 8));
    PlainLine(InPriceRange());
    PlainLine(Field(0, 8, 16));
    PlainLine(OldTimeBounds());
    PlainLine(NotOlder());
  }

  lemma {:induction false} JournalOk(ps: Params)
    ensures Sized(Journal(ps), 114)
  {
    JournalBlocks(ps);
    hide Sized, CoRoll, Field, InPriceRange, MustBeRoot, NotOlder, OldTimeBounds;
    SizedJoin(CoRoll(ps), 36, Field(0, 16, 48), 6);
    var a := CoRoll(ps) + Field(0, 16, 48);
    SizedJoin(a, 42, MustBeRoot(ps), 34);
    var b := a + MustBeRoot(ps);
    SizedJoin(b, 76, Field(0, 0, 8), 5);
    var c := b + Field(0, 0, 8);
    SizedJoin(c, 81, InPriceRange(), 12);
    var d := c + InPriceRange();
    SizedJoin(d, 93, Field(0, 8, 16), 5);
    var e := d + Field(0, 8, 16);
    SizedJoin(e, 98, OldTimeBounds(), 12);
    var f := e + OldTimeBounds();
    SizedJoin(f, 110, NotOlder(), 4);
  }

  lemma {:induction false} RebuildBlocks()
    ensures Sized(PrefixStart(), 2)
    ensures Sized(Field(1, 0, 8), 5)
    ensures Sized(PrefixMiddle(), 5)
    ensures Sized(Field(1, 8, 16), 5)
    ensures Sized(PrefixEnd(), 4)
    ensures Sized(OwnBody(), 10)
  {
    PlainToks();
    LenFacts();
    ConstantLens();
    hide Plain, CodeOk, IntTok, DataTok, TokLen, Len, TokOk, ToksOk, Enc, Mag;
    PlainLine(PrefixStart());
    PlainLine(Field(1, 0, 8));
    PlainLine(PrefixMiddle());
    PlainLine(Field(1, 8, 16));
    PlainLine(PrefixEnd());
    PlainLine(OwnBody());
  }

  lemma {:induction false} RebuildOk()
    ensures Sized(Rebuild(), 31)
  {
    RebuildBlocks();
    hide Sized, Field, OwnBody, PrefixEnd, PrefixMiddle, PrefixStart;
    SizedJoin(PrefixStart(), 2, Field(1, 0, 8), 5);
    var a := PrefixStart() + Field(1, 0, 8);
    SizedJoin(a, 7, PrefixMiddle(), 5);
    var b := a + PrefixMiddle();
    SizedJoin(b, 12, Field(1, 8, 16), 5);
    var c := b + Field(1, 8, 16);
    SizedJoin(c, 17, PrefixEnd(), 4);
    var d := c + PrefixEnd();
    SizedJoin(d, 21, OwnBody(), 10);
  }

  lemma {:induction false} SettleBlocks(ps: Params)
    ensures Sized(OneInput(), 7)
    ensures Sized(OneOutput(), 3)
    ensures Sized(WrapHash(), 13)
    ensures Sized(PaysNext(), 4)
    ensures Sized(KeepsValue(), 11)
    ensures Sized(Proof(ps), 74)
  {
    PlainToks();
    LenFacts();
    ConstantLens();
    hide Plain, CodeOk, IntTok, DataTok, TokLen, Len, TokOk, ToksOk, Enc, Mag;
    PlainLine(OneInput());
    PlainLine(OneOutput());
    PlainLine(WrapHash());
    PlainLine(PaysNext());
    PlainLine(KeepsValue());
    PlainLine(Proof(ps));
  }

  lemma {:induction false} SettleOk(ps: Params)
    ensures Sized(Settle(ps), 112)
  {
    SettleBlocks(ps);
    hide Sized, KeepsValue, OneInput, OneOutput, PaysNext, Proof, WrapHash;
    SizedJoin(OneInput(), 7, OneOutput(), 3);
    var a := OneInput() + OneOutput();
    SizedJoin(a, 10, WrapHash(), 13);
    var b := a + WrapHash();
    SizedJoin(b, 23, PaysNext(), 4);
    var c := b + PaysNext();
    SizedJoin(c, 27, KeepsValue(), 11);
    var d := c + KeepsValue();
    SizedJoin(d, 38, Proof(ps), 74);
  }

  lemma {:induction false} PassthroughBlocks()
    ensures Sized(LineageIn(), 6)
    ensures Sized(LineageOut(), 4)
    ensures Sized(SelfSend(), 7)
    ensures Sized(KeepsOwnValue(), 11)
  {
    PlainToks();
    LenFacts();
    ConstantLens();
    hide Plain, CodeOk, IntTok, DataTok, TokLen, Len, TokOk, ToksOk, Enc, Mag;
    PlainLine(LineageIn());
    PlainLine(LineageOut());
    PlainLine(SelfSend());
    PlainLine(KeepsOwnValue());
  }

  lemma {:induction false} PassthroughOk()
    ensures Sized(Passthrough(), 28)
  {
    PassthroughBlocks();
    hide Sized, KeepsOwnValue, LineageIn, LineageOut, SelfSend;
    SizedJoin(LineageIn(), 6, LineageOut(), 4);
    var a := LineageIn() + LineageOut();
    SizedJoin(a, 10, SelfSend(), 7);
    var b := a + SelfSend();
    SizedJoin(b, 17, KeepsOwnValue(), 11);
  }

  /** The body is 288 bytes, whatever the parameters: the length it cuts its own bytes by. */
  lemma {:induction false} BodyOk(ps: Params)
    ensures CodeOk(BodyCode(ps)) && ToksOk(Flatten(BodyCode(ps)))
    ensures Len(Flatten(BodyCode(ps))) == BODY_LEN
  {
    JournalOk(ps);
    RebuildOk();
    SettleOk(ps);
    PassthroughOk();
    hide Journal, Rebuild, Settle, Passthrough;
    SizedJoin(Journal(ps), 114, Rebuild(), 31);
    SizedJoin(Journal(ps) + Rebuild(), 145, Settle(ps), 112);
    hide CodeOk, Roll, Flatten, ToksOk, Len;
    BranchToks([], Line(Roll(ps)), Line(Passthrough()));
    FlattenOk(BodyCode(ps));
    BranchLen(Roll(ps), Passthrough());
  }

  lemma {:induction false} BranchLen(a: seq<Tok>, b: seq<Tok>)
    requires CodeOk(Line(a)) && CodeOk(Line(b))
    ensures ToksOk(Flatten(Branch(Line(a), Line(b))))
    ensures Len(Flatten(Branch(Line(a), Line(b)))) == Len(a) + Len(b) + 3
  {
    FlattenOk(Branch(Line(a), Line(b)));
    LenFacts();
    hide TokLen;
    assert TokOk(Do(If)) && TokOk(Do(Else)) && TokOk(Do(EndIf));
    hide TokOk, Len;
    LenOne([Do(If)]);
    LenOne([Do(Else)]);
    LenOne([Do(EndIf)]);
    LenConcat([Do(If)], a);
    LenConcat([Do(If)] + a, [Do(Else)]);
    LenConcat([Do(If)] + a + [Do(Else)], b);
    LenConcat([Do(If)] + a + [Do(Else)] + b, [Do(EndIf)]);
  }

  lemma {:induction false} RedeemOk(price: nat, t: nat, ps: Params)
    requires price < U64_LIMIT && t < U64_LIMIT
    ensures CodeOk(RedeemCode(price, t, ps)) && ToksOk(Flatten(RedeemCode(price, t, ps)))
  {
    BodyOk(ps);
    PlainToks();
    hide Plain, CodeOk, DataTok, BodyCode, Flatten, ToksOk, Le64, Len;
    PlainLine(Prefix(price, t));
    ChainToks([], Line(Prefix(price, t)), BodyCode(ps));
    FlattenOk(RedeemCode(price, t, ps));
  }

  /** The constant part of the redeem script. */
  function Body(ps: Params): seq<byte> {
    BodyOk(ps);
    Assemble(Flatten(BodyCode(ps)))
  }

  /** The redeem script of the oracle at `price` and time `t`. */
  function Redeem(price: nat, t: nat, ps: Params): seq<byte>
    requires price < U64_LIMIT && t < U64_LIMIT
  {
    RedeemOk(price, t, ps);
    Assemble(Flatten(RedeemCode(price, t, ps)))
  }

  // ---- the bytes of a redeem script ----

  function PrefixBytes(price: seq<byte>, t: seq<byte>): seq<byte> {
    [0x08] + price + [0x75, 0x08] + t + [0x75]
  }

  lemma {:induction false} PrefixAssembles(price: nat, t: nat)
    requires price < U64_LIMIT && t < U64_LIMIT
    ensures ToksOk(Prefix(price, t)) && Assemble(Prefix(price, t)) == PrefixBytes(Le64(price), Le64(t))
  {
    StateAssembles(Le64(price));
    StateAssembles(Le64(t));
    var a: seq<Tok> := [DataTok(Le64(price)), Do(Drop)];
    var b: seq<Tok> := [DataTok(Le64(t)), Do(Drop)];
    assert Prefix(price, t) == a + b;
    AssembleConcat(a, b);
    hide *;
    PrefixRegroup(Le64(price), Le64(t));
  }

  lemma {:induction false} PrefixRegroup(p: seq<byte>, q: seq<byte>)
    ensures ([0x08] + p + [0x75]) + ([0x08] + q + [0x75]) == PrefixBytes(p, q)
  {
    var mid: seq<byte> := [0x75, 0x08];
    assert mid == [0x75] + [0x08];
  }

  /** One state field: push eight bytes, drop them. */
  lemma {:induction false} StateAssembles(field: seq<byte>)
    requires |field| == 8
    ensures var ts := [DataTok(field), Do(Drop)]; ToksOk(ts) && Assemble(ts) == [0x08] + field + [0x75]
  {
    assert TokOk(Do(Drop)) && TokBytes(Do(Drop)) == [0x75];
    assert TokOk(DataTok(field)) && TokBytes(DataTok(field)) == [0x08] + field;
    hide TokOk, TokBytes, DataTok, Assemble;
    OneAssembles(DataTok(field));
    Appended([DataTok(field)], Do(Drop));
    assert [DataTok(field)] + [Do(Drop)] == [DataTok(field), Do(Drop)];
  }

  lemma {:induction false} OneAssembles(t: Tok)
    requires TokOk(t)
    ensures ToksOk([t]) && Assemble([t]) == TokBytes(t)
  {
    assert [t][1..] == [] && Assemble([t][1..]) == [];
    hide TokOk, TokBytes;
    assert Assemble([t]) == TokBytes(t) + [];
  }

  /** The redeem script is the 20-byte prefix and then the body, 308 bytes for every state and all parameters. */
  lemma {:induction false} RedeemBytes(price: nat, t: nat, ps: Params)
    requires price < U64_LIMIT && t < U64_LIMIT
    ensures |Body(ps)| == BODY_LEN
    ensures |Redeem(price, t, ps)| == REDEEM_LEN
    ensures Redeem(price, t, ps) == PrefixBytes(Le64(price), Le64(t)) + Body(ps)
  {
    BodyOk(ps);
    RedeemOk(price, t, ps);
    PrefixAssembles(price, t);
    AssembleConcat(Prefix(price, t), Flatten(BodyCode(ps)));
    hide Assemble, Prefix, BodyCode, Le64, ToksOk;
  }

  /** Where the state sits in it. */
  lemma {:induction false} RedeemFields(price: nat, t: nat, ps: Params)
    requires price < U64_LIMIT && t < U64_LIMIT
    ensures var r := Redeem(price, t, ps);
      |r| == REDEEM_LEN && r[1..9] == Le64(price) && r[11..19] == Le64(t) && r[20..] == Body(ps)
  {
    RedeemBytes(price, t, ps);
    hide Redeem, Body, Le64;
    Cuts(Le64(price), Le64(t), Body(ps));
  }

  lemma Cuts(p: seq<byte>, q: seq<byte>, body: seq<byte>)
    requires |p| == 8 && |q| == 8
    ensures var r := PrefixBytes(p, q) + body; r[1..9] == p && r[11..19] == q && r[20..] == body
  {
  }

  /** Distinct states have distinct scripts. */
  lemma {:induction false} RedeemInjective(p: nat, t: nat, p2: nat, t2: nat, ps: Params)
    requires p < U64_LIMIT && t < U64_LIMIT && p2 < U64_LIMIT && t2 < U64_LIMIT
    requires Redeem(p, t, ps) == Redeem(p2, t2, ps)
    ensures p == p2 && t == t2
  {
    RedeemFields(p, t, ps);
    RedeemFields(p2, t2, ps);
    Le64Value(p);
    Le64Value(p2);
    Le64Value(t);
    Le64Value(t2);
    hide Redeem, Le64;
  }
}
