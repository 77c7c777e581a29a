/** The global spending limit and allowance covenants: one tagged thread, a cap per spend. */
module SpendingLimit {
  import opened Bytes
  import opened ScriptNumbers
  import opened ScriptTokens
  import opened ScriptMachine
  import opened ScriptCode
  import opened ScriptRules
  import opened ScriptBuilder
  import opened ScriptParts
  import opened ScriptBytes

  function CountOutputs(): seq<Tok> {
    [Do(TxInputIndex), Do(InputCovenantId), Do(Dup), Do(CovOutputCount), Do(Dup), IntTok(1), Do(Equal)]
  }

  function SameAddress(): seq<Tok> {
    [Do(Drop), IntTok(0), Do(CovOutputIdx), Do(Dup), Do(TxOutputSpk), Do(TxInputIndex), Do(TxInputSpk), Do(EqualVerify)]
  }

  function WithinCap(cap: nat): seq<Tok>
    requires cap < U64_LIMIT
  {
    [Do(TxOutputAmount), Do(TxInputIndex), Do(TxInputAmount), IntTok(cap), Do(Sub), Do(GreaterThanOrEqual), Do(Verify)]
  }

  function CloseWithinCap(cap: nat): seq<Tok>
    requires cap < U64_LIMIT
  {
    [IntTok(0), Do(EqualVerify), Do(Drop), Do(TxInputIndex), Do(TxInputAmount), IntTok(cap), Do(LessThanOrEqual),
        Do(Verify)]
  }

  /** The part both covenants share: continue the thread or close it. */
  function ThreadCode(cap: nat): Code
    requires cap < U64_LIMIT
  {
    Chain(Line(CountOutputs()), Branch(Chain(Line(SameAddress()), Line(WithinCap(cap))), Line(CloseWithinCap(cap))))
  }

  /** What the thread demands of a spend. */
  ghost predicate ThreadOk(env: Env, cap: nat)
    requires env.Valid()
  {
    var tagged := OutputsTagged(env.outputs, TagOf(env.Self()));
    if |tagged| == 1 then
      && tagged[0] < |env.outputs|
      && env.outputs[tagged[0]].spk == env.Self().spk
      && env.Self().amount - cap <= env.outputs[tagged[0]].amount
    else
      |tagged| == 0 && env.Self().amount <= cap
  }

  lemma {:induction false} CountMeans(env: Env, s: Stack)
    requires env.Valid()
    ensures
      var id := TagOf(env.Self());
      var n := |OutputsTagged(env.outputs, id)|;
      Steps(env, CountOutputs(), At(s)) == At(Push(Flag(n == 1), Push(Enc(n), Push(id, s))))
  {
    StackRules(env);
    TxRules(env);
    TagRules(env);
    EncInjective(|OutputsTagged(env.outputs, TagOf(env.Self()))|, 1);
    hide Step, Steps, Enc, Flag, TagOf, OutputsTagged, InputsTagged, IntTok, DataTok;
    StepsTo8(env, CountOutputs(), At(s));
  }

  lemma {:induction false} SameAddressMeans(env: Env, id: Hash, top: seq<byte>, s: Stack)
    requires env.Valid()
    ensures
      var tagged := OutputsTagged(env.outputs, id);
      Steps(env, SameAddress(), At(Push(top, Push(id, s)))) ==
      if |tagged| > 0 && tagged[0] < |env.outputs| && env.outputs[tagged[0]].spk == env.Self().spk
      then At(Push(Enc(tagged[0]), s)) else Failed
  {
    StackRules(env);
    TxRules(env);
    TagRules(env);
    hide Step, Steps, Enc, Flag, TagOf, OutputsTagged, InputsTagged, IntTok, DataTok;
    StepsTo8(env, SameAddress(), At(Push(top, Push(id, s))));
  }

  lemma {:induction false} WithinCapMeans(env: Env, cap: nat, out: nat, s: Stack)
    requires env.Valid() && cap < U64_LIMIT && out < |env.outputs|
    ensures
      Steps(env, WithinCap(cap), At(Push(Enc(out), s))) ==
      if env.Self().amount - cap <= env.outputs[out].amount then At(s) else Failed
  {
    StackRules(env);
    TxRules(env);
    NumberRules(env);
    hide Step, Steps, Enc, Dec, Flag, IntTok, DataTok;
    StepsTo8(env, WithinCap(cap), At(Push(Enc(out), s)));
  }

  lemma {:induction false} CloseMeans(env: Env, cap: nat, n: nat, id: Hash, s: Stack)
    requires env.Valid() && cap < U64_LIMIT
    ensures
      Steps(env, CloseWithinCap(cap), At(Push(Enc(n), Push(id, s)))) ==
      if n == 0 && env.Self().amount <= cap then At(s) else Failed
  {
    StackRules(env);
    TxRules(env);
    NumberRules(env);
    EncInjective(n, 0);
    hide Step, Steps, Enc, Dec, Flag, IntTok, DataTok;
    StepsTo8(env, CloseWithinCap(cap), At(Push(Enc(n), Push(id, s))));
  }

  /** The thread part leaves the stack alone and succeeds exactly when the spend keeps the thread. */
  lemma {:induction false} ThreadMeans(env: Env, cap: nat, s: Stack)
    requires env.Valid() && cap < U64_LIMIT
    ensures Exec(env, ThreadCode(cap), At(s)) == if ThreadOk(env, cap) then At(s) else Failed
  {
    var id := TagOf(env.Self());
    var tagged := OutputsTagged(env.outputs, id);
    var below := Push(Enc(|tagged|), Push(id, s));
    var keep := Chain(Line(SameAddress()), Line(WithinCap(cap)));
    CountMeans(env, s);
    FlagIsNumber(|tagged| == 1);
    hide Exec, Enc, Flag, Truthy, OutputsTagged, Steps, CountOutputs, SameAddress, WithinCap, CloseWithinCap;
    ExecChain(env, Line(CountOutputs()), Branch(keep, Line(CloseWithinCap(cap))), At(s));
    ExecLine(env, CountOutputs(), At(s));
    ExecBranch(env, keep, Line(CloseWithinCap(cap)), Flag(|tagged| == 1), below);
    if |tagged| == 1 {
      ExecChain(env, Line(SameAddress()), Line(WithinCap(cap)), At(below));
      ExecLine(env, SameAddress(), At(below));
      SameAddressMeans(env, id, Enc(1), s);
      if tagged[0] < |env.outputs| {
        ExecLine(env, WithinCap(cap), At(Push(Enc(tagged[0]), s)));
        WithinCapMeans(env, cap, tagged[0], s);
      }
      ExecFailed(env, Line(WithinCap(cap)));
    } else {
      ExecLine(env, CloseWithinCap(cap), At(below));
      CloseMeans(env, cap, |tagged|, id, s);
    }
  }

  // ---- building the thread part ----

  /** The thread part, written out. */
  function ThreadBytes(cap: nat): seq<byte> {
    [0xb9, 0xcf, 0x76, 0xd2, 0x76, 0x51, 0x87, 0x63, 0x75, 0x00, 0xd3, 0x76, 0xc3, 0xb9, 0xbf, 0x88, 0xc2, 0xb9, 0xbe]
    + NumberPush(cap) + [0x94, 0xa2, 0x69, 0x67, 0x00, 0x88, 0x75, 0xb9, 0xbe] + NumberPush(cap) + [0xa1, 0x69, 0x68]
  }

  /** The spending limit, written out. */
  function LimitBytes(owner: Key, cap: nat, cooldown: nat, salt: Salt): seq<byte> {
    [0x08] + salt + [0x75, 0x20] + owner + [0xad] + NumberPush(cooldown) + [0xb1] + ThreadBytes(cap) + [0x51]
  }

  lemma {:induction false} ThreadBlocks(cap: nat)
    requires cap < U64_LIMIT
    ensures CodeOk(Line(CountOutputs())) && CodeOk(Line(SameAddress()))
    ensures CodeOk(Line(WithinCap(cap))) && CodeOk(Line(CloseWithinCap(cap)))
  {
    ContinueBlocks();
    PlainToks();
    hide Plain, CodeOk, IntTok, DataTok, TokLen, Len, TokOk, ToksOk, Enc, Mag, CountOutputs, SameAddress;
    PlainLine(WithinCap(cap));
    PlainLine(CloseWithinCap(cap));
  }

  lemma {:induction false} ContinueBlocks()
    ensures CodeOk(Line(CountOutputs())) && CodeOk(Line(SameAddress()))
  {
    PlainToks();
    hide Plain, CodeOk, IntTok, DataTok, TokLen, Len, TokOk, ToksOk, Enc, Mag;
    PlainLine(CountOutputs());
    PlainLine(SameAddress());
  }

  method PushCountOutputs(s: ScriptBuf)
    requires s.Valid()
    modifies s
    ensures s.Valid() && s.toks == old(s.toks) + CountOutputs()
    ensures s.bytes == old(s.bytes) + [0xb9, 0xcf, 0x76, 0xd2, 0x76, 0x51, 0x87]
  {
    hide Opcode.Code, Assemble, ToksOk, TokOk, IntTok, Enc, NumberPush, ScriptBuf.Valid;
    OpcodeTable();
    SmallPushes();
    s.PushOp(TxInputIndex);
    s.PushOp(InputCovenantId);
    s.PushOp(Dup);
    s.PushOp(CovOutputCount);
    s.PushOp(Dup);
    s.PushInt(1);
    s.PushOp(Equal);
    Block(old(s.toks), CountOutputs());
  }

  method PushSameAddress(s: ScriptBuf)
    requires s.Valid()
    modifies s
    ensures s.Valid() && s.toks == old(s.toks) + SameAddress()
    ensures s.bytes == old(s.bytes) + [0x75, 0x00, 0xd3, 0x76, 0xc3, 0xb9, 0xbf, 0x88]
  {
    hide Opcode.Code, Assemble, ToksOk, TokOk, IntTok, Enc, NumberPush, ScriptBuf.Valid;
    OpcodeTable();
    SmallPushes();
    s.PushOp(Drop);
    s.PushInt(0);
    s.PushOp(CovOutputIdx);
    s.PushOp(Dup);
    s.PushOp(TxOutputSpk);
    s.PushOp(TxInputIndex);
    s.PushOp(TxInputSpk);
    s.PushOp(EqualVerify);
    Block(old(s.toks), SameAddress());
  }

  method PushWithinCap(s: ScriptBuf, cap: nat)
    requires s.Valid() && cap < U64_LIMIT
    modifies s
    ensures s.Valid() && s.toks == old(s.toks) + WithinCap(cap)
    ensures s.bytes == old(s.bytes) + [0xc2, 0xb9, 0xbe] + NumberPush(cap) + [0x94, 0xa2, 0x69]
  {
    hide Opcode.Code, Assemble, ToksOk, TokOk, IntTok, Enc, NumberPush, ScriptBuf.Valid;
    OpcodeTable();
    SmallPushes();
    s.PushOp(TxOutputAmount);
    s.PushOp(TxInputIndex);
    s.PushOp(TxInputAmount);
    s.PushInt(cap);
    s.PushOp(Sub);
    s.PushOp(GreaterThanOrEqual);
    s.PushOp(Verify);
    Block(old(s.toks), WithinCap(cap));
  }

  method PushCloseWithinCap(s: ScriptBuf, cap: nat)
    requires s.Valid() && cap < U64_LIMIT
    modifies s
    ensures s.Valid() && s.toks == old(s.toks) + CloseWithinCap(cap)
    ensures s.bytes == old(s.bytes) + [0x00, 0x88, 0x75, 0xb9, 0xbe] + NumberPush(cap) + [0xa1, 0x69]
  {
    hide Opcode.Code, Assemble, ToksOk, TokOk, IntTok, Enc, NumberPush, ScriptBuf.Valid;
    OpcodeTable();
    SmallPushes();
    s.PushInt(0);
    s.PushOp(EqualVerify);
    s.PushOp(Drop);
    s.PushOp(TxInputIndex);
    s.PushOp(TxInputAmount);
    s.PushInt(cap);
    s.PushOp(LessThanOrEqual);
    s.PushOp(Verify);
    Block(old(s.toks), CloseWithinCap(cap));
  }

  lemma {:induction false} ThreadJoin(base: seq<byte>, p: seq<byte>)
    ensures
      base + [0xb9, 0xcf, 0x76, 0xd2, 0x76, 0x51, 0x87] + [0x63]
      + [0x75, 0x00, 0xd3, 0x76, 0xc3, 0xb9, 0xbf, 0x88] + ([0xc2, 0xb9, 0xbe] + p + [0x94, 0xa2, 0x69])
      + [0x67] + ([0x00, 0x88, 0x75, 0xb9, 0xbe] + p + [0xa1, 0x69]) + [0x68] ==
      base + ([0xb9, 0xcf, 0x76, 0xd2, 0x76, 0x51, 0x87, 0x63, 0x75, 0x00, 0xd3, 0x76, 0xc3, 0xb9, 0xbf, 0x88, 0xc2,
                  0xb9, 0xbe]
              + p + [0x94, 0xa2, 0x69, 0x67, 0x00, 0x88, 0x75, 0xb9, 0xbe] + p + [0xa1, 0x69, 0x68])
  {
  }

  lemma {:induction false} ThreadToks(base: seq<Tok>, cap: nat)
    requires cap < U64_LIMIT
    ensures CodeOk(ThreadCode(cap))
    ensures base + CountOutputs() + [Do(If)] + SameAddress() + WithinCap(cap) + [Do(Else)] + CloseWithinCap(cap)
            + [Do(EndIf)] == base + Flatten(ThreadCode(cap))
  {
    ThreadBlocks(cap);
    LineToks(CountOutputs());
    LineToks(SameAddress());
    LineToks(WithinCap(cap));
    LineToks(CloseWithinCap(cap));
    hide Flatten, CodeOk, CountOutputs, SameAddress, WithinCap, CloseWithinCap;
    var count, same, within := Line(CountOutputs()), Line(SameAddress()), Line(WithinCap(cap));
    var close := Line(CloseWithinCap(cap));
    var counted := base + CountOutputs();
    ChainToks(counted + [Do(If)], same, within);
    BranchToks(counted, Chain(same, within), close);
    ChainToks(base, count, Branch(Chain(same, within), close));
  }

  method PushThread(s: ScriptBuf, cap: nat)
    requires s.Valid() && cap < U64_LIMIT
    modifies s
    ensures CodeOk(ThreadCode(cap))
    ensures s.Valid() && s.toks == old(s.toks) + Flatten(ThreadCode(cap))
    ensures s.bytes == old(s.bytes) + ThreadBytes(cap)
  {
    hide Opcode.Code, NumberPush, Assemble, ToksOk, ScriptBuf.Valid, Flatten, CodeOk, CountOutputs, SameAddress, WithinCap,
         CloseWithinCap, ThreadCode;
    OpcodeTable();
    PushCountOutputs(s);
    s.PushOp(If);
    PushSameAddress(s);
    PushWithinCap(s, cap);
    s.PushOp(Else);
    PushCloseWithinCap(s, cap);
    s.PushOp(EndIf);
    ThreadToks(old(s.toks), cap);
    ThreadJoin(old(s.bytes), NumberPush(cap));
  }

  // ---- the spending limit ----

  function Waits(cooldown: nat): seq<Tok>
    requires cooldown < U64_LIMIT
  {
    [IntTok(cooldown), Do(CheckSequenceVerify)]
  }

  function LimitCode(owner: Key, cap: nat, cooldown: nat, salt: Salt): Code
    requires cap < U64_LIMIT && cooldown < U64_LIMIT
  {
    Chain(Line(Salted(salt)),
        Chain(Line(Signed(owner)), Chain(Line(Waits(cooldown)), Chain(ThreadCode(cap), Line(One())))))
  }

  lemma {:induction false} HeadBlocks(key: Key, cooldown: nat, salt: Salt)
    requires cooldown < U64_LIMIT
    ensures CodeOk(Line(Salted(salt))) && CodeOk(Line(Signed(key))) && CodeOk(Line(Waits(cooldown)))
              && CodeOk(Line(One()))
  {
    PlainToks();
    hide Plain, CodeOk, IntTok, DataTok, TokLen, Len, TokOk, ToksOk, Enc, Mag;
    PartsOk(key, salt);
    PlainLine(Waits(cooldown));
  }

  method PushHead(s: ScriptBuf, owner: Key, cooldown: nat, salt: Salt)
    requires s.Valid() && cooldown < U64_LIMIT
    modifies s
    ensures s.Valid() && s.toks == old(s.toks) + Salted(salt) + Signed(owner) + Waits(cooldown)
    ensures s.bytes == old(s.bytes) + [0x08] + salt + [0x75, 0x20] + owner + [0xad] + NumberPush(cooldown) + [0xb1]
  {
    hide Opcode.Code, Assemble, ToksOk, TokOk, IntTok, DataTok, Enc, NumberPush, ScriptBuf.Valid;
    OpcodeTable();
    s.PushFixed(salt);
    s.PushOp(Drop);
    s.PushFixed(owner);
    s.PushOp(CheckSigVerify);
    s.PushInt(cooldown);
    s.PushOp(CheckSequenceVerify);
    Block(old(s.toks), Salted(salt));
    Block(old(s.toks) + Salted(salt), Signed(owner));
    Block(old(s.toks) + Salted(salt) + Signed(owner), Waits(cooldown));
  }

  lemma {:induction false} LimitCodeOk(owner: Key, cap: nat, cooldown: nat, salt: Salt)
    requires cap < U64_LIMIT && cooldown < U64_LIMIT
    ensures CodeOk(LimitCode(owner, cap, cooldown, salt)) && ToksOk(Flatten(LimitCode(owner, cap, cooldown, salt)))
  {
    ThreadCodeOk(cap);
    HeadBlocks(owner, cooldown, salt);
    HeadToks(owner, cooldown, salt, Chain(ThreadCode(cap), Line(One())));
    hide CodeOk;
    FlattenOk(LimitCode(owner, cap, cooldown, salt));
  }

  lemma {:induction false} ThreadCodeOk(cap: nat)
    requires cap < U64_LIMIT
    ensures CodeOk(ThreadCode(cap))
  {
    ThreadBlocks(cap);
    hide CountOutputs, SameAddress, WithinCap, CloseWithinCap, ToksOk;
    assert CodeOk(Chain(Line(SameAddress()), Line(WithinCap(cap))));
  }

  function LimitScript(owner: Key, cap: nat, cooldown: nat, salt: Salt): seq<byte>
    requires cap < U64_LIMIT && cooldown < U64_LIMIT
  {
    LimitCodeOk(owner, cap, cooldown, salt);
    Assemble(Flatten(LimitCode(owner, cap, cooldown, salt)))
  }

  lemma {:induction false} HeadToks(owner: Key, cooldown: nat, salt: Salt, body: Code)
    requires cooldown < U64_LIMIT && CodeOk(body)
    ensures
      var c := Chain(Line(Salted(salt)), Chain(Line(Signed(owner)), Chain(Line(Waits(cooldown)), body)));
      && CodeOk(c)
      && [] + Salted(salt) + Signed(owner) + Waits(cooldown) + Flatten(body) == Flatten(c)
  {
    HeadBlocks(owner, cooldown, salt);
    var a, b, c: seq<Tok> := [], [] + Salted(salt), [] + Salted(salt) + Signed(owner);
    var waits := Chain(Line(Waits(cooldown)), body);
    LineToks(Salted(salt));
    LineToks(Signed(owner));
    LineToks(Waits(cooldown));
    hide Flatten, CodeOk, Salted, Signed, Waits;
    ChainToks(c, Line(Waits(cooldown)), body);
    ChainToks(b, Line(Signed(owner)), waits);
    ChainToks(a, Line(Salted(salt)), Chain(Line(Signed(owner)), waits));
    var all := Flatten(Chain(Line(Salted(salt)), Chain(Line(Signed(owner)), waits)));
    assert a + all == all;
  }

  lemma {:induction false} LimitToks(owner: Key, cap: nat, cooldown: nat, salt: Salt)
    requires cap < U64_LIMIT && cooldown < U64_LIMIT
    ensures [] + Salted(salt) + Signed(owner) + Waits(cooldown) + Flatten(ThreadCode(cap)) + [IntTok(1)] ==
            Flatten(LimitCode(owner, cap, cooldown, salt))
  {
    HeadBlocks(owner, cooldown, salt);
    ThreadCodeOk(cap);
    LineToks(One());
    hide Flatten, CodeOk, ThreadCode, Salted, Signed, Waits;
    ChainToks([] + Salted(salt) + Signed(owner) + Waits(cooldown), ThreadCode(cap), Line(One()));
    HeadToks(owner, cooldown, salt, Chain(ThreadCode(cap), Line(One())));
  }

  method BuildGlobalSpendingLimit(owner: Key, cap: nat, cooldown: nat, salt: Salt) returns (script: seq<byte>)
    requires cap < U64_LIMIT && cooldown < U64_LIMIT
    ensures script == LimitScript(owner, cap, cooldown, salt)
    ensures script == LimitBytes(owner, cap, cooldown, salt)
  {
    hide Assemble, ToksOk, TokOk, IntTok, Enc, NumberPush, Flatten, CodeOk, ThreadCode, LimitCode, ThreadBytes, Salted,
         Signed, Waits;
    SmallPushes();
    LimitCodeOk(owner, cap, cooldown, salt);
    var s := new ScriptBuf();
    PushHead(s, owner, cooldown, salt);
    PushThread(s, cap);
    s.PushInt(1);
    LimitToks(owner, cap, cooldown, salt);
    ghost var length: seq<byte> := [0x08];
    assert [] + length == length;
    return s.bytes;
  }

  // ---- what the limit accepts ----

  lemma {:induction false} WaitsMeans(env: Env, cooldown: nat, s: Stack)
    requires cooldown < U64_LIMIT
    ensures Steps(env, Waits(cooldown), At(s)) == if env.sequenceOk(cooldown) then At(s) else Failed
  {
    StackRules(env);
    OracleRules(env);
    hide Step, Steps, DataTok, IntTok, Enc;
    StepsTo8(env, Waits(cooldown), At(s));
  }

  /** The limit accepts exactly the signed, cooled-down spends that continue or close the thread within the cap. */
  lemma {:induction false} LimitAccepts(env: Env, owner: Key, cap: nat, cooldown: nat, salt: Salt, s: Stack)
    requires env.Valid() && cap < U64_LIMIT && cooldown < U64_LIMIT
    ensures Accepts(env, LimitScript(owner, cap, cooldown, salt), s) <==>
            && s.Push? && s.rest.Nil? && env.checkSig(s.top, owner)
            && env.sequenceOk(cooldown)
            && ThreadOk(env, cap)
  {
    LimitCodeOk(owner, cap, cooldown, salt);
    AcceptsCompiled(env, LimitCode(owner, cap, cooldown, salt), s);
    var last := Chain(ThreadCode(cap), Line(One()));
    var waits := Chain(Line(Waits(cooldown)), last);
    var signed := Chain(Line(Signed(owner)), waits);
    hide Exec, Steps, Salted, Signed, Waits, One, ThreadCode, ThreadOk, Accepts, Assemble, Flatten, Truthy;
    ExecLineThen(env, Salted(salt), signed, At(s));
    SaltedMeans(env, salt, s);
    ExecLineThen(env, Signed(owner), waits, At(s));
    SignedMeans(env, owner, s);
    ExecFailed(env, waits);
    ExecFailed(env, last);
    ExecFailed(env, Line(One()));
    if s.Push? {
      ExecLineThen(env, Waits(cooldown), last, At(s.rest));
      WaitsMeans(env, cooldown, s.rest);
      ExecChain(env, ThreadCode(cap), Line(One()), At(s.rest));
      ThreadMeans(env, cap, s.rest);
      ExecLine(env, One(), At(s.rest));
      OneMeans(env, s.rest);
    }
  }

  // ---- whole runs of a thread ----

  /** The id a thread carries is unique to it: a spend of the thread is tagged, and not with the zero hash. */
  ghost predicate OnThread(env: Env, id: Hash, address: seq<byte>) {
    env.Valid() && env.Self().tag == Some(id) && env.Self().spk == address
  }

  /** `next` spends an output of `env` that carries the thread's id. */
  ghost predicate Follows(env: Env, next: Env, id: Hash) {
    && next.Valid()
    && exists o: nat :: o in OutputsTagged(env.outputs, id) && SpendsOutput(env, next, o)
  }

  /** A covenant that demands `ThreadOk` of every spend from its address. */
  ghost predicate Enforces(envs: seq<Env>, address: seq<byte>, cap: nat) {
    forall k :: 0 <= k < |envs| && envs[k].Valid() && envs[k].Self().spk == address ==> ThreadOk(envs[k], cap)
  }

  ghost predicate FollowsAt(envs: seq<Env>, k: nat, id: Hash) {
    0 < k < |envs| && Follows(envs[k - 1], envs[k], id)
  }

  /** Successive spends of one thread, each of an output of the one before. */
  ghost predicate ThreadRun(envs: seq<Env>, id: Hash, address: seq<byte>) {
    && |envs| > 0
    && OnThread(envs[0], id, address)
    && forall k :: 0 < k < |envs| ==> FollowsAt(envs, k, id)
  }

  function Balance(env: Env): int {
    if env.Valid() then env.Self().amount else 0
  }

  /** What the thread holds after `env`: the tagged outputs' total when there is at most one. */
  function Left(env: Env, id: Hash): int {
    var tagged := OutputsTagged(env.outputs, id);
    if |tagged| == 1 && tagged[0] < |env.outputs| then env.outputs[tagged[0]].amount else 0
  }

  /** A step of the thread. */
  lemma {:induction false} ThreadStep(env: Env, next: Env, id: Hash, address: seq<byte>, cap: nat)
    requires OnThread(env, id, address) && ThreadOk(env, cap) && Follows(env, next, id)
    ensures OnThread(next, id, address)
    ensures Balance(env) - Balance(next) <= cap && Balance(next) == Left(env, id)
    ensures |OutputsTagged(env.outputs, id)| == 1
  {
    var tagged := OutputsTagged(env.outputs, id);
    var o: nat :| o in tagged && SpendsOutput(env, next, o);
    OutputsTaggedAre(env.outputs, id, o);
    assert |tagged| == 1 && o == tagged[0];
  }

  /**
   * After any number of spends the thread is one output at the covenant's own address or is
   * closed, and what has left it is at most the cap for each spend.
   */
  lemma {:induction false} ThreadIsCapped(envs: seq<Env>, id: Hash, address: seq<byte>, cap: nat, k: nat)
    requires ThreadRun(envs, id, address) && Enforces(envs, address, cap) && k < |envs|
    ensures OnThread(envs[k], id, address)
    ensures envs[0].Valid() && Balance(envs[0]) - Balance(envs[k]) <= k * cap
    ensures |OutputsTagged(envs[k].outputs, id)| <= 1
    ensures Balance(envs[0]) - Left(envs[k], id) <= (k + 1) * cap
    ensures OutputsTagged(envs[k].outputs, id) == [] ==> Balance(envs[k]) <= cap && k == |envs| - 1
  {
    hide OutputsTagged;
    if k > 0 {
      ThreadIsCapped(envs, id, address, cap, k - 1);
      assert FollowsAt(envs, k, id);
      ThreadStep(envs[k - 1], envs[k], id, address, cap);
    }
    assert ThreadOk(envs[k], cap);
    Times(k, cap);
    if k + 1 < |envs| {
      assert FollowsAt(envs, k + 1, id);
      ThreadStep(envs[k], envs[k + 1], id, address, cap);
    }
    FirstTagged(envs[k], id);
  }

  lemma Times(k: nat, cap: nat)
    ensures (k + 1) * cap == k * cap + cap
    ensures k > 0 ==> k * cap == (k - 1) * cap + cap
  {
  }

  lemma {:induction false} FirstTagged(env: Env, id: Hash)
    ensures var tagged := OutputsTagged(env.outputs, id); |tagged| > 0 ==> tagged[0] < |env.outputs|
  {
    var tagged := OutputsTagged(env.outputs, id);
    if |tagged| > 0 {
      OutputsTaggedAre(env.outputs, id, tagged[0]);
    }
  }

  /** Spend `k` happens at `times[k + 1]`; a relative lock that passes has aged the spent output since `times[k]`. */
  ghost predicate Aged(envs: seq<Env>, times: seq<int>, cooldown: nat) {
    && |times| == |envs| + 1
    && forall k {:trigger envs[k]} :: 0 <= k < |envs| && envs[k].sequenceOk(cooldown) ==>
        times[k] + cooldown <= times[k + 1]
  }

  /** `flow` in `elapsed` is no faster than `cap` each `cooldown`. */
  predicate NoFaster(flow: int, elapsed: int, cap: nat, cooldown: nat) {
    flow * cooldown <= cap * elapsed
  }

  /** The cooldown bounds the outflow by the time that has passed. */
  lemma {:induction false} OutflowPerTime(envs: seq<Env>, times: seq<int>, id: Hash, address: seq<byte>, cap: nat,
          cooldown: nat, k: nat)
    requires ThreadRun(envs, id, address) && Enforces(envs, address, cap) && k < |envs|
    requires Aged(envs, times, cooldown) && forall i :: 0 <= i < |envs| ==> envs[i].sequenceOk(cooldown)
    ensures |times| == |envs| + 1
    ensures NoFaster(Balance(envs[0]) - Left(envs[k], id), times[k + 1] - times[0], cap, cooldown)
  {
    SpendsTakeTime(envs, times, cooldown, k);
    ThreadIsCapped(envs, id, address, cap, k);
    hide *;
    Spread(Balance(envs[0]) - Left(envs[k], id), k + 1, cap, cooldown, times[k + 1] - times[0]);
  }

  lemma {:induction false} SpendsTakeTime(envs: seq<Env>, times: seq<int>, cooldown: nat, k: nat)
    requires Aged(envs, times, cooldown) && k < |envs|
    requires forall i :: 0 <= i < |envs| ==> envs[i].sequenceOk(cooldown)
    ensures |times| == |envs| + 1 && times[0] + (k + 1) * cooldown <= times[k + 1]
  {
    if k > 0 {
      SpendsTakeTime(envs, times, cooldown, k - 1);
      Times(k, cooldown);
    }
    assert envs[k].sequenceOk(cooldown);
  }

  lemma {:induction false} Spread(flow: int, spends: nat, cap: nat, cooldown: nat, elapsed: int)
    requires flow <= spends * cap && spends * cooldown <= elapsed
    ensures NoFaster(flow, elapsed, cap, cooldown)
  {
    assert flow * cooldown <= spends * cap * cooldown;
    assert cap * (spends * cooldown) <= cap * elapsed;
  }

  /** All of `envs` are accepted spends, and `script` is the only script with its hash. */
  ghost predicate AcceptedSpends(envs: seq<Env>, script: seq<byte>, address: seq<byte>) {
    forall k {:trigger envs[k]} :: 0 <= k < |envs| ==>
      envs[k].Valid() && SpendOk(envs[k]) && address == P2sh(envs[k].blake2b(script)) && NoCollision(envs[k], script)
  }

  /** Accepted spends from the limit's address keep the thread and wait out the cooldown. */
  lemma {:induction false} LimitEnforces(envs: seq<Env>, owner: Key, cap: nat, cooldown: nat, salt: Salt,
          address: seq<byte>)
    requires cap < U64_LIMIT && cooldown < U64_LIMIT
    requires AcceptedSpends(envs, LimitScript(owner, cap, cooldown, salt), address)
    ensures Enforces(envs, address, cap)
    ensures Waited(envs, address, cooldown)
  {
    var script := LimitScript(owner, cap, cooldown, salt);
    hide LimitScript, SpendOk, NoCollision, P2sh, ThreadOk;
    forall k | 0 <= k < |envs| && envs[k].Valid() && envs[k].Self().spk == address
      ensures ThreadOk(envs[k], cap) && envs[k].sequenceOk(cooldown)
    {
      var s := SpendRuns(envs[k], script);
      LimitAccepts(envs[k], owner, cap, cooldown, salt, s);
    }
  }

  ghost predicate Waited(envs: seq<Env>, address: seq<byte>, cooldown: nat) {
    forall k {:trigger envs[k]} :: 0 <= k < |envs| && envs[k].Valid() && envs[k].Self().spk == address ==>
        envs[k].sequenceOk(cooldown)
  }

  /** A thread of accepted spends under a covenant that enforces the cap and the cooldown. */
  lemma {:induction false} CappedThread(envs: seq<Env>, times: seq<int>, id: Hash, address: seq<byte>, cap: nat,
          cooldown: nat, k: nat)
    requires ThreadRun(envs, id, address) && Enforces(envs, address, cap) && Waited(envs, address, cooldown)
              && k < |envs|
    requires Aged(envs, times, cooldown)
    ensures OnThread(envs[k], id, address) && |OutputsTagged(envs[k].outputs, id)| <= 1
    ensures Balance(envs[0]) - Left(envs[k], id) <= (k + 1) * cap
    ensures OutputsTagged(envs[k].outputs, id) == [] ==> Balance(envs[k]) <= cap && k == |envs| - 1
    ensures NoFaster(Balance(envs[0]) - Left(envs[k], id), times[k + 1] - times[0], cap, cooldown)
  {
    assert |times| == |envs| + 1;
    forall i | 0 <= i < |envs|
      ensures OnThread(envs[i], id, address) && envs[i].sequenceOk(cooldown)
    {
      ThreadIsCapped(envs, id, address, cap, i);
    }
    ThreadIsCapped(envs, id, address, cap, k);
    OutflowPerTime(envs, times, id, address, cap, cooldown, k);
  }

  /**
   * The spending limit over a whole run: at most one tagged output, always at the covenant's own
   * address; at most the cap per spend, hence per cooldown; closed only within the cap.
   */
  lemma {:induction false} GlobalSpendingLimit(envs: seq<Env>, times: seq<int>, owner: Key, cap: nat, cooldown: nat,
          salt: Salt,
                            id: Hash, address: seq<byte>, k: nat)
    requires cap < U64_LIMIT && cooldown < U64_LIMIT
    requires AcceptedSpends(envs, LimitScript(owner, cap, cooldown, salt), address)
    requires ThreadRun(envs, id, address) && Aged(envs, times, cooldown) && k < |envs|
    ensures |times| == |envs| + 1
    ensures OnThread(envs[k], id, address) && |OutputsTagged(envs[k].outputs, id)| <= 1
    ensures Balance(envs[0]) - Left(envs[k], id) <= (k + 1) * cap
    ensures OutputsTagged(envs[k].outputs, id) == [] ==> Balance(envs[k]) <= cap && k == |envs| - 1
    ensures NoFaster(Balance(envs[0]) - Left(envs[k], id), times[k + 1] - times[0], cap, cooldown)
  {
    LimitEnforces(envs, owner, cap, cooldown, salt, address);
    assert |times| == |envs| + 1;
    hide *;
    CappedThread(envs, times, id, address, cap, cooldown, k);
  }

  /**
   * What the doc comment of the original rules out: an untagged deposit reads as the zero hash,
   * finds no output with that id, and is closed like a thread, exactly when it is within the cap.
   */
  lemma {:induction false} UntaggedDeposit(env: Env, owner: Key, cap: nat, cooldown: nat, salt: Salt, s: Stack)
    requires env.Valid() && cap < U64_LIMIT && cooldown < U64_LIMIT
    requires env.Self().tag == None && forall o :: o in env.outputs ==> o.tag != Some(seq(32, j => 0))
    ensures Accepts(env, LimitScript(owner, cap, cooldown, salt), s) <==>
            && s.Push? && s.rest.Nil? && env.checkSig(s.top, owner) && env.sequenceOk(cooldown)
            && env.Self().amount <= cap
  {
    LimitAccepts(env, owner, cap, cooldown, salt, s);
    NoneTagged(env.outputs, ZeroHash());
  }

  /** Such a deposit: one sompi, signed and cooled down, paid out with no tagged output. */
  lemma {:induction false} UntaggedDepositCloses(owner: Key, cooldown: nat, salt: Salt, spk: seq<byte>)
    returns (env: Env)
    requires cooldown < U64_LIMIT
    ensures env.Valid() && env.Self().tag == None && env.outputs == [Output(1, spk, None)]
    ensures Accepts(env, LimitScript(owner, 1, cooldown, salt), Push([], Nil))
  {
    env := Env(0, [Input(1, spk, None, [])], [Output(1, spk, None)], (sig, key) => true, n => true, n => true,
               x => ZeroHash(), x => ZeroHash(), xs => true);
    UntaggedDeposit(env, owner, 1, cooldown, salt, Push([], Nil));
  }

  lemma {:induction false} NoneTagged(outs: seq<Output>, tag: Hash)
    requires forall o :: o in outs ==> o.tag != Some(tag)
    ensures OutputsTagged(outs, tag) == []
  {
    if outs != [] {
      var n := |outs| - 1;
      assert outs[n] in outs;
      NoneTagged(outs[..n], tag);
    }
  }

  // ---- the allowance ----

  function StartGuard(start: nat): seq<Tok>
    requires start < U64_LIMIT
  {
    if start > 0 then [IntTok(start), Do(CheckLockTimeVerify)] else []
  }

  function CooldownGuard(cooldown: nat): seq<Tok>
    requires cooldown < U64_LIMIT
  {
    if cooldown > 0 then Waits(cooldown) else []
  }

  function OwnerPath(owner: Key): seq<Tok> {
    [DataTok(owner), Do(CheckSig)]
  }

  function BeneficiaryCode(beneficiary: Key, cap: nat, cooldown: nat, start: nat): Code
    requires cap < U64_LIMIT && cooldown < U64_LIMIT && start < U64_LIMIT
  {
    Chain(Line(Signed(beneficiary)),
      Chain(Line(StartGuard(start)), Chain(Line(CooldownGuard(cooldown)), Chain(ThreadCode(cap), Line(One())))))
  }

  function AllowanceCode(owner: Key, beneficiary: Key, cap: nat, cooldown: nat, start: nat, salt: Salt): Code
    requires cap < U64_LIMIT && cooldown < U64_LIMIT && start < U64_LIMIT
  {
    Chain(Line(Salted(salt)), Branch(Line(OwnerPath(owner)), BeneficiaryCode(beneficiary, cap, cooldown, start)))
  }

  lemma {:induction false} AllowanceBlocks(owner: Key, beneficiary: Key, cooldown: nat, start: nat, salt: Salt)
    requires cooldown < U64_LIMIT && start < U64_LIMIT
    ensures CodeOk(Line(Salted(salt))) && CodeOk(Line(Signed(beneficiary))) && CodeOk(Line(OwnerPath(owner)))
    ensures CodeOk(Line(StartGuard(start))) && CodeOk(Line(CooldownGuard(cooldown)))
  {
    hide Plain, CodeOk, IntTok, DataTok, LenTo8, Len, TokOk, ToksOk, Enc, Mag, Salted, Signed;
    HeadBlocks(beneficiary, cooldown, salt);
    PlainToks();
    PlainLine(OwnerPath(owner));
    PlainLine(StartGuard(start));
    PlainLine([]);
  }

  lemma {:induction false} AllowanceCodeOk(owner: Key, beneficiary: Key, cap: nat, cooldown: nat, start: nat,
          salt: Salt)
    requires cap < U64_LIMIT && cooldown < U64_LIMIT && start < U64_LIMIT
    ensures CodeOk(AllowanceCode(owner, beneficiary, cap, cooldown, start, salt))
    ensures ToksOk(Flatten(AllowanceCode(owner, beneficiary, cap, cooldown, start, salt)))
  {
    ThreadCodeOk(cap);
    AllowanceBlocks(owner, beneficiary, cooldown, start, salt);
    HeadBlocks(beneficiary, cooldown, salt);
    hide Salted, Signed, OwnerPath, StartGuard, CooldownGuard, ThreadCode, One, ToksOk, CodeOk, Flatten;
    var last := Chain(ThreadCode(cap), Line(One()));
    ChainToks([], ThreadCode(cap), Line(One()));
    GuardToks([], beneficiary, cooldown, start, last);
    var body := BeneficiaryCode(beneficiary, cap, cooldown, start);
    BranchToks([], Line(OwnerPath(owner)), body);
    ChainToks([], Line(Salted(salt)), Branch(Line(OwnerPath(owner)), body));
    FlattenOk(AllowanceCode(owner, beneficiary, cap, cooldown, start, salt));
  }

  function AllowanceScript(owner: Key, beneficiary: Key, cap: nat, cooldown: nat, start: nat, salt: Salt): seq<byte>
    requires cap < U64_LIMIT && cooldown < U64_LIMIT && start < U64_LIMIT
  {
    AllowanceCodeOk(owner, beneficiary, cap, cooldown, start, salt);
    Assemble(Flatten(AllowanceCode(owner, beneficiary, cap, cooldown, start, salt)))
  }

  /** A lock that is left out for zero. */
  function GuardBytes(value: nat, op: byte): seq<byte> {
    if value > 0 then NumberPush(value) + [op] else []
  }

  /** The beneficiary's path, written out. */
  function BeneficiaryBytes(beneficiary: Key, cap: nat, cooldown: nat, start: nat): seq<byte> {
    [0x20] + beneficiary + [0xad] + GuardBytes(start, 0xb0) + GuardBytes(cooldown, 0xb1) + ThreadBytes(cap) + [0x51]
  }

  /** The allowance, written out. */
  function AllowanceBytes(owner: Key, beneficiary: Key, cap: nat, cooldown: nat, start: nat, salt: Salt): seq<byte> {
    [0x08] + salt + [0x75, 0x63, 0x20] + owner + [0xac, 0x67] + BeneficiaryBytes(beneficiary, cap, cooldown, start)
    + [0x68]
  }

  /** A lock that is there only for a value that is not zero. */
  method PushGuard(s: ScriptBuf, value: nat, op: Opcode)
    requires s.Valid() && value < U64_LIMIT && !op.Other?
    modifies s
    ensures s.Valid() && s.toks == old(s.toks) + if value > 0 then [IntTok(value), Do(op)] else []
    ensures s.bytes == old(s.bytes) + GuardBytes(value, op.Code())
  {
    hide Opcode.Code, Assemble, ToksOk, TokOk, IntTok, Enc, NumberPush, ScriptBuf.Valid;
    OpcodeTable();
    if value > 0 {
      s.PushInt(value);
      s.PushOp(op);
      Block(old(s.toks), [IntTok(value), Do(op)]);
    } else {
      assert s.toks + [] == s.toks;
    }
  }

  method PushGuards(s: ScriptBuf, beneficiary: Key, cooldown: nat, start: nat)
    requires s.Valid() && cooldown < U64_LIMIT && start < U64_LIMIT
    modifies s
    ensures s.Valid() && s.toks == old(s.toks) + Signed(beneficiary) + StartGuard(start) + CooldownGuard(cooldown)
    ensures s.bytes == old(s.bytes) +
                       ([0x20] + beneficiary + [0xad] + GuardBytes(start, 0xb0) + GuardBytes(cooldown, 0xb1))
  {
    hide Opcode.Code, Assemble, ToksOk, TokOk, IntTok, DataTok, Enc, NumberPush, GuardBytes, ScriptBuf.Valid;
    OpcodeTable();
    s.PushFixed(beneficiary);
    s.PushOp(CheckSigVerify);
    Block(old(s.toks), Signed(beneficiary));
    hide Signed;
    PushGuard(s, start, CheckLockTimeVerify);
    PushGuard(s, cooldown, CheckSequenceVerify);
  }

  lemma {:induction false} GuardToks(base: seq<Tok>, beneficiary: Key, cooldown: nat, start: nat, body: Code)
    requires cooldown < U64_LIMIT && start < U64_LIMIT && CodeOk(body)
    ensures
      var c := Chain(Line(Signed(beneficiary)),
          Chain(Line(StartGuard(start)), Chain(Line(CooldownGuard(cooldown)), body)));
      && CodeOk(c)
      && base + Signed(beneficiary) + StartGuard(start) + CooldownGuard(cooldown) + Flatten(body) == base + Flatten(c)
  {
    AllowanceBlocks(beneficiary, beneficiary, cooldown, start, seq(8, i => 0));
    LineToks(Signed(beneficiary));
    LineToks(StartGuard(start));
    LineToks(CooldownGuard(cooldown));
    hide Flatten, CodeOk, Signed, StartGuard, CooldownGuard;
    var cooled := Chain(Line(CooldownGuard(cooldown)), body);
    ChainToks(base + Signed(beneficiary) + StartGuard(start), Line(CooldownGuard(cooldown)), body);
    ChainToks(base + Signed(beneficiary), Line(StartGuard(start)), cooled);
    ChainToks(base, Line(Signed(beneficiary)), Chain(Line(StartGuard(start)), cooled));
  }

  lemma {:induction false} BeneficiaryToks(base: seq<Tok>, beneficiary: Key, cap: nat, cooldown: nat, start: nat)
    requires cap < U64_LIMIT && cooldown < U64_LIMIT && start < U64_LIMIT
    ensures CodeOk(BeneficiaryCode(beneficiary, cap, cooldown, start))
    ensures base + Signed(beneficiary) + StartGuard(start) + CooldownGuard(cooldown) + Flatten(ThreadCode(cap))
            + [IntTok(1)] == base + Flatten(BeneficiaryCode(beneficiary, cap, cooldown, start))
  {
    PartsOk(beneficiary, seq(8, i => 0));
    LineToks(One());
    ThreadCodeOk(cap);
    hide Flatten, CodeOk, ThreadCode, Signed, StartGuard, CooldownGuard;
    ChainToks(base + Signed(beneficiary) + StartGuard(start) + CooldownGuard(cooldown), ThreadCode(cap), Line(One()));
    GuardToks(base, beneficiary, cooldown, start, Chain(ThreadCode(cap), Line(One())));
  }

  lemma BeneficiaryJoin(base: seq<byte>, key: seq<byte>, a: seq<byte>, b: seq<byte>, thread: seq<byte>)
    ensures base + ([0x20] + key + [0xad] + a + b) + thread + [0x51] == base
        + ([0x20] + key + [0xad] + a + b + thread + [0x51])
  {
  }

  method PushBeneficiary(s: ScriptBuf, beneficiary: Key, cap: nat, cooldown: nat, start: nat)
    requires s.Valid() && cap < U64_LIMIT && cooldown < U64_LIMIT && start < U64_LIMIT
    modifies s
    ensures CodeOk(BeneficiaryCode(beneficiary, cap, cooldown, start))
    ensures s.Valid() && s.toks == old(s.toks) + Flatten(BeneficiaryCode(beneficiary, cap, cooldown, start))
    ensures s.bytes == old(s.bytes) + BeneficiaryBytes(beneficiary, cap, cooldown, start)
  {
    hide Assemble, ToksOk, TokOk, Flatten, CodeOk, ThreadCode, BeneficiaryCode, IntTok, Enc, Signed, StartGuard,
         CooldownGuard, GuardBytes, ThreadBytes, NumberPush;
    SmallPushes();
    PushGuards(s, beneficiary, cooldown, start);
    PushThread(s, cap);
    s.PushInt(1);
    BeneficiaryToks(old(s.toks), beneficiary, cap, cooldown, start);
    BeneficiaryJoin(old(s.bytes), beneficiary, GuardBytes(start, 0xb0), GuardBytes(cooldown, 0xb1), ThreadBytes(cap));
  }

  method PushOwnerPath(s: ScriptBuf, owner: Key)
    requires s.Valid()
    modifies s
    ensures s.Valid() && s.toks == old(s.toks) + OwnerPath(owner)
    ensures s.bytes == old(s.bytes) + ([0x20] + owner + [0xac])
  {
    hide Opcode.Code, Assemble, ToksOk, TokOk, ScriptBuf.Valid, DataTok;
    OpcodeTable();
    s.PushFixed(owner);
    s.PushOp(CheckSig);
    Block(old(s.toks), OwnerPath(owner));
  }

  lemma {:induction false} AllowanceToks(owner: Key, beneficiary: Key, cap: nat, cooldown: nat, start: nat,
          salt: Salt)
    requires cap < U64_LIMIT && cooldown < U64_LIMIT && start < U64_LIMIT
    ensures
      var body := BeneficiaryCode(beneficiary, cap, cooldown, start);
      [] + [DataTok(salt)] + [Do(Drop)] + [Do(If)] + OwnerPath(owner) + [Do(Else)] + Flatten(body) + [Do(EndIf)] ==
      Flatten(AllowanceCode(owner, beneficiary, cap, cooldown, start, salt))
  {
    AllowanceBlocks(owner, beneficiary, cooldown, start, salt);
    AllowanceCodeOk(owner, beneficiary, cap, cooldown, start, salt);
    LineToks(Salted(salt));
    LineToks(OwnerPath(owner));
    Block([], Salted(salt));
    hide Flatten, CodeOk, BeneficiaryCode, OwnerPath, DataTok;
    var body := BeneficiaryCode(beneficiary, cap, cooldown, start);
    BranchToks(Salted(salt), Line(OwnerPath(owner)), body);
    ChainToks([], Line(Salted(salt)), Branch(Line(OwnerPath(owner)), body));
    assert [] + Salted(salt) == Salted(salt);
    var all := AllowanceCode(owner, beneficiary, cap, cooldown, start, salt);
    assert [] + Flatten(all) == Flatten(all);
  }

  lemma AllowanceJoin(salt: seq<byte>, owner: seq<byte>, body: seq<byte>)
    ensures [] + [0x08] + salt + [0x75] + [0x63] + ([0x20] + owner + [0xac]) + [0x67] + body + [0x68]
            == [0x08] + salt + [0x75, 0x63, 0x20] + owner + [0xac, 0x67] + body + [0x68]
  {
  }

  method BuildGlobalAllowance(owner: Key, beneficiary: Key, cap: nat, cooldown: nat, start: nat, salt: Salt)
    returns (script: seq<byte>)
    requires cap < U64_LIMIT && cooldown < U64_LIMIT && start < U64_LIMIT
    ensures script == AllowanceScript(owner, beneficiary, cap, cooldown, start, salt)
    ensures script == AllowanceBytes(owner, beneficiary, cap, cooldown, start, salt)
  {
    hide Opcode.Code, Assemble, ToksOk, TokOk, Flatten, CodeOk, BeneficiaryCode, AllowanceCode, BeneficiaryBytes,
        OwnerPath, DataTok;
    OpcodeTable();
    AllowanceCodeOk(owner, beneficiary, cap, cooldown, start, salt);
    var s := new ScriptBuf();
    s.PushFixed(salt);
    s.PushOp(Drop);
    s.PushOp(If);
    PushOwnerPath(s, owner);
    s.PushOp(Else);
    PushBeneficiary(s, beneficiary, cap, cooldown, start);
    s.PushOp(EndIf);
    AllowanceToks(owner, beneficiary, cap, cooldown, start, salt);
    AllowanceJoin(salt, owner, BeneficiaryBytes(beneficiary, cap, cooldown, start));
    return s.bytes;
  }

  lemma {:induction false} GuardsMean(env: Env, cooldown: nat, start: nat, s: Stack)
    requires cooldown < U64_LIMIT && start < U64_LIMIT
    ensures Steps(env, StartGuard(start), At(s)) == if start > 0 && !env.lockTimeOk(start) then Failed else At(s)
    ensures Steps(env, CooldownGuard(cooldown), At(s)) == if cooldown > 0 && !env.sequenceOk(cooldown) then Failed else At(s)
  {
    WaitsMeans(env, cooldown, s);
    StackRules(env);
    OracleRules(env);
    hide Step, DataTok, IntTok, Enc, Waits;
    if start > 0 {
      StepsTo8(env, StartGuard(start), At(s));
    }
  }

  /** What the beneficiary's branch demands. */
  ghost predicate BeneficiaryOk(env: Env, beneficiary: Key, cap: nat, cooldown: nat, start: nat, s: Stack)
    requires env.Valid()
  {
    && s.Push? && s.rest.Nil? && env.checkSig(s.top, beneficiary)
    && (start > 0 ==> env.lockTimeOk(start))
    && (cooldown > 0 ==> env.sequenceOk(cooldown))
    && ThreadOk(env, cap)
  }

  lemma {:induction false} BeneficiaryMeans(env: Env, beneficiary: Key, cap: nat, cooldown: nat, start: nat, s: Stack)
    requires env.Valid() && cap < U64_LIMIT && cooldown < U64_LIMIT && start < U64_LIMIT
    ensures Clean(Exec(env, BeneficiaryCode(beneficiary, cap, cooldown, start), At(s))) <==>
            BeneficiaryOk(env, beneficiary, cap, cooldown, start, s)
  {
    var last := Chain(ThreadCode(cap), Line(One()));
    var cooled := Chain(Line(CooldownGuard(cooldown)), last);
    var started := Chain(Line(StartGuard(start)), cooled);
    hide Exec, Steps, Signed, StartGuard, CooldownGuard, One, ThreadCode, ThreadOk, Truthy;
    ExecLineThen(env, Signed(beneficiary), started, At(s));
    SignedMeans(env, beneficiary, s);
    ExecFailed(env, started);
    ExecFailed(env, cooled);
    ExecFailed(env, last);
    ExecFailed(env, Line(One()));
    if s.Push? {
      GuardsMean(env, cooldown, start, s.rest);
      ExecLineThen(env, StartGuard(start), cooled, At(s.rest));
      ExecLineThen(env, CooldownGuard(cooldown), last, At(s.rest));
      ExecChain(env, ThreadCode(cap), Line(One()), At(s.rest));
      ThreadMeans(env, cap, s.rest);
      ExecLine(env, One(), At(s.rest));
      OneMeans(env, s.rest);
    }
  }

  lemma {:induction false} OwnerPathMeans(env: Env, owner: Key, s: Stack)
    ensures Clean(Steps(env, OwnerPath(owner), At(s))) <==> s.Push? && s.rest.Nil? && env.checkSig(s.top, owner)
  {
    StackRules(env);
    OracleRules(env);
    NumberFacts();
    hide Step, Steps, DataTok, IntTok, Enc, Truthy, Flag, Dec;
    StepsTo8(env, OwnerPath(owner), At(s));
  }

  /** The allowance accepts the owner's signature on one branch, and a capped beneficiary spend on the other. */
  lemma {:induction false} AllowanceAccepts(env: Env, owner: Key, beneficiary: Key, cap: nat, cooldown: nat,
          start: nat, salt: Salt,
          s: Stack)
    requires env.Valid() && cap < U64_LIMIT && cooldown < U64_LIMIT && start < U64_LIMIT
    ensures Accepts(env, AllowanceScript(owner, beneficiary, cap, cooldown, start, salt), s) <==>
            && s.Push?
            && if Truthy(s.top) then s.rest.Push? && s.rest.rest.Nil? && env.checkSig(s.rest.top, owner)
               else BeneficiaryOk(env, beneficiary, cap, cooldown, start, s.rest)
  {
    AllowanceCodeOk(owner, beneficiary, cap, cooldown, start, salt);
    AcceptsCompiled(env, AllowanceCode(owner, beneficiary, cap, cooldown, start, salt), s);
    var yes, no := Line(OwnerPath(owner)), BeneficiaryCode(beneficiary, cap, cooldown, start);
    hide Exec, Steps, Salted, OwnerPath, BeneficiaryCode, BeneficiaryOk, Accepts, Assemble, Flatten, Truthy, Clean;
    ExecLineThen(env, Salted(salt), Branch(yes, no), At(s));
    SaltedMeans(env, salt, s);
    ExecBranchNil(env, yes, no);
    CleanNeedsOne();
    if s.Push? {
      ExecBranch(env, yes, no, s.top, s.rest);
      ExecLine(env, OwnerPath(owner), At(s.rest));
      OwnerPathMeans(env, owner, s.rest);
      BeneficiaryMeans(env, beneficiary, cap, cooldown, start, s.rest);
    }
  }

  lemma CleanNeedsOne()
    ensures !Clean(Failed)
  {
  }

  /** Spends past the start date, if there is one. */
  ghost predicate Started(envs: seq<Env>, address: seq<byte>, start: nat) {
    forall k {:trigger envs[k]} ::
      0 <= k < |envs| && envs[k].Valid() && envs[k].Self().spk == address && start > 0 ==> envs[k].lockTimeOk(start)
  }

  /**
   * Without the owner's signature the allowance enforces the cap, the start date and, if there is
   * one, the cooldown.
   */
  lemma {:induction false} AllowanceEnforces(envs: seq<Env>, owner: Key, beneficiary: Key, cap: nat, cooldown: nat,
          start: nat,
                          salt: Salt, address: seq<byte>)
    requires cap < U64_LIMIT && cooldown < U64_LIMIT && start < U64_LIMIT
    requires AcceptedSpends(envs, AllowanceScript(owner, beneficiary, cap, cooldown, start, salt), address)
    requires forall k, g: seq<byte> :: 0 <= k < |envs| ==> !envs[k].checkSig(g, owner)
    ensures Enforces(envs, address, cap) && Started(envs, address, start)
    ensures 0 < cooldown ==> Waited(envs, address, cooldown)
  {
    var script := AllowanceScript(owner, beneficiary, cap, cooldown, start, salt);
    hide AllowanceScript, SpendOk, NoCollision, P2sh, ThreadOk;
    forall k | 0 <= k < |envs| && envs[k].Valid() && envs[k].Self().spk == address
      ensures ThreadOk(envs[k], cap) && (start > 0 ==> envs[k].lockTimeOk(start))
      ensures 0 < cooldown ==> envs[k].sequenceOk(cooldown)
    {
      var s := SpendRuns(envs[k], script);
      AllowanceAccepts(envs[k], owner, beneficiary, cap, cooldown, start, salt, s);
    }
  }

  /**
   * The allowance over a run in which the owner signs nothing: the spending limit's bounds, past
   * the start date, and with a cooldown also by elapsed time.
   */
  lemma {:induction false} GlobalAllowance(envs: seq<Env>, times: seq<int>, owner: Key, beneficiary: Key, cap: nat,
          cooldown: nat,
                        start: nat, salt: Salt, id: Hash, address: seq<byte>, k: nat)
    requires cap < U64_LIMIT && cooldown < U64_LIMIT && start < U64_LIMIT
    requires AcceptedSpends(envs, AllowanceScript(owner, beneficiary, cap, cooldown, start, salt), address)
    requires forall i, g: seq<byte> :: 0 <= i < |envs| ==> !envs[i].checkSig(g, owner)
    requires ThreadRun(envs, id, address) && Aged(envs, times, cooldown) && k < |envs|
    ensures |times| == |envs| + 1
    ensures OnThread(envs[k], id, address) && |OutputsTagged(envs[k].outputs, id)| <= 1
    ensures Balance(envs[0]) - Left(envs[k], id) <= (k + 1) * cap
    ensures OutputsTagged(envs[k].outputs, id) == [] ==> Balance(envs[k]) <= cap && k == |envs| - 1
    ensures start > 0 ==> envs[k].lockTimeOk(start)
    ensures 0 < cooldown ==> NoFaster(Balance(envs[0]) - Left(envs[k], id), times[k + 1] - times[0], cap, cooldown)
  {
    AllowanceEnforces(envs, owner, beneficiary, cap, cooldown, start, salt, address);
    assert |times| == |envs| + 1;
    assert OnThread(envs[k], id, address) ==> envs[k].Valid() && envs[k].Self().spk == address;
    assert envs[k].Valid() && envs[k].Self().spk == address && start > 0 ==> envs[k].lockTimeOk(start);
    hide *;
    ThreadIsCapped(envs, id, address, cap, k);
    if 0 < cooldown {
      CappedThread(envs, times, id, address, cap, cooldown, k);
    }
  }
}
