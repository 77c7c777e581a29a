/** The supply-chain state machine: one role per state, the state carried in the amount, for any number of roles. */
module StateMachine {
  import opened Bytes
  import opened ScriptNumbers
  import opened ScriptTokens
  import opened ScriptMachine
  import opened ScriptCode
  import opened ScriptRules
  import opened ScriptBytes
  import opened ScriptBuilder
  import opened ScriptParts

  datatype Plan = Plan(roles: seq<Key>, base: nat, step: nat, salt: Salt) {
    /** The builder's own subtractions do not go below zero. */
    predicate Valid() {
      base < U64_LIMIT && |roles| * step <= base
    }

    /** The amount that encodes state `i`. */
    function Amount(i: nat): (v: nat)
      requires Valid() && i <= |roles|
      ensures v <= base
    {
      Product(i, |roles|, step);
      base - i * step
    }
  }

  lemma Product(i: nat, n: nat, step: nat)
    requires i <= n
    ensures 0 <= i * step <= n * step
  {
  }

  lemma {:induction false} AmountsDiffer(p: Plan, i: nat, j: nat)
    requires p.Valid() && 0 < p.step && i < j <= |p.roles|
    ensures p.Amount(j) < p.Amount(i)
  {
    assert (j - i) * p.step > 0;
    assert j * p.step == i * p.step + (j - i) * p.step;
  }

  function ReadAmount(): seq<Tok> {
    [Do(TxInputIndex), Do(TxInputAmount)]
  }

  function InState(v: nat): seq<Tok>
    requires v < U64_LIMIT
  {
    [Do(Dup), IntTok(v), Do(Equal)]
  }

  function BySigner(role: Key): seq<Tok> {
    [Do(Drop), DataTok(role), Do(CheckSigVerify)]
  }

  function SameScript(): seq<Tok> {
    [IntTok(0), Do(TxOutputSpk), Do(TxInputIndex), Do(TxInputSpk), Do(EqualVerify)]
  }

  function NextAmount(v: nat): seq<Tok>
    requires v < U64_LIMIT
  {
    [IntTok(0), Do(TxOutputAmount), IntTok(v), Do(EqualVerify)]
  }

  function NoState(): seq<Tok> {
    [Do(Drop), IntTok(0)]
  }

  /** What role `i` runs. */
  function Transition(p: Plan, i: nat): seq<Tok>
    requires p.Valid() && i < |p.roles|
  {
    if i < |p.roles| - 1 then BySigner(p.roles[i]) + SameScript() + NextAmount(p.Amount(i + 1)) + One()
    else BySigner(p.roles[i]) + One()
  }

  /** States `i` and up: a chain of nested branches. */
  function StatesFrom(p: Plan, i: nat): Code
    requires p.Valid() && i <= |p.roles|
    decreases |p.roles| - i
  {
    if i == |p.roles| then Line(NoState())
    else Chain(Line(InState(p.Amount(i))), Branch(Line(Transition(p, i)), StatesFrom(p, i + 1)))
  }

  function MachineCode(p: Plan): Code
    requires p.Valid()
  {
    Chain(Line(Salted(p.salt)), Chain(Line(ReadAmount()), StatesFrom(p, 0)))
  }

  lemma {:induction false} TransitionOk(p: Plan, i: nat)
    requires p.Valid() && i < |p.roles|
    ensures CodeOk(Line(Transition(p, i)))
  {
    hide Plain, CodeOk, IntTok, DataTok, TokLen, Len, TokOk, ToksOk, Enc, Mag;
    PlainToks();
    PlainLine(BySigner(p.roles[i]));
    PlainLine(SameScript());
    PartsOk(p.roles[i], p.salt);
    if i < |p.roles| - 1 {
      PlainLine(NextAmount(p.Amount(i + 1)));
    }
    hide BySigner, SameScript, NextAmount, One;
    PlainJoin(BySigner(p.roles[i]), One());
    if i < |p.roles| - 1 {
      var a := BySigner(p.roles[i]) + SameScript();
      PlainJoin(BySigner(p.roles[i]), SameScript());
      PlainJoin(a, NextAmount(p.Amount(i + 1)));
      PlainJoin(a + NextAmount(p.Amount(i + 1)), One());
    }
  }

  lemma {:induction false} StatesOk(p: Plan, i: nat)
    requires p.Valid() && i <= |p.roles|
    ensures CodeOk(StatesFrom(p, i))
    decreases |p.roles| - i
  {
    hide Plain, CodeOk, IntTok, DataTok, TokLen, Len, TokOk, ToksOk, Enc, Mag, Transition;
    PlainToks();
    if i == |p.roles| {
      PlainLine(NoState());
    } else {
      PlainLine(InState(p.Amount(i)));
      TransitionOk(p, i);
      StatesOk(p, i + 1);
      hide InState;
      var b := Branch(Line(Transition(p, i)), StatesFrom(p, i + 1));
      BranchToks([], Line(Transition(p, i)), StatesFrom(p, i + 1));
      ChainToks([], Line(InState(p.Amount(i))), b);
    }
  }

  lemma {:induction false} MachineOk(p: Plan)
    requires p.Valid()
    ensures CodeOk(MachineCode(p)) && ToksOk(Flatten(MachineCode(p)))
  {
    hide Plain, CodeOk, IntTok, DataTok, TokLen, Len, TokOk, ToksOk, Enc, Mag, Flatten, StatesFrom;
    PlainToks();
    PlainLine(ReadAmount());
    PlainLine(Salted(p.salt));
    StatesOk(p, 0);
    hide ReadAmount, Salted;
    ChainToks([], Line(ReadAmount()), StatesFrom(p, 0));
    ChainToks([], Line(Salted(p.salt)), Chain(Line(ReadAmount()), StatesFrom(p, 0)));
    FlattenOk(MachineCode(p));
  }

  function Script(p: Plan): seq<byte>
    requires p.Valid()
  {
    MachineOk(p);
    Assemble(Flatten(MachineCode(p)))
  }

  // ---- building ----

  /** The opening part of state `i`, up to its ELSE. */
  function Opening(p: Plan, i: nat): seq<Tok>
    requires p.Valid() && i < |p.roles|
  {
    InState(p.Amount(i)) + [Do(If)] + Transition(p, i) + [Do(Else)]
  }

  function Openings(p: Plan, i: nat, j: nat): seq<Tok>
    requires p.Valid() && i <= j <= |p.roles|
  {
    if i == j then [] else Openings(p, i, j - 1) + Opening(p, j - 1)
  }

  function EndIfs(n: nat): seq<Tok> {
    seq(n, i => Do(EndIf))
  }

  /** Openings left to right, the default, and the ENDIFs at the end nest the branches. */
  lemma {:induction false} NestedToks(p: Plan, i: nat)
    requires p.Valid() && i <= |p.roles|
    ensures Openings(p, i, |p.roles|) + NoState() + EndIfs(|p.roles| - i) == Flatten(StatesFrom(p, i))
    decreases |p.roles| - i
  {
    hide Transition, InState, NoState;
    var n := |p.roles|;
    if i == n {
      LineToks2(NoState());
      assert EndIfs(0) == [];
    } else {
      NestedToks(p, i + 1);
      FirstOpening(p, i, n);
      var inner := Flatten(StatesFrom(p, i + 1));
      var a, b := InState(p.Amount(i)), Transition(p, i);
      assert EndIfs(n - i) == EndIfs(n - i - 1) + [Do(EndIf)];
      FlattenLineThen(a, Branch(Line(b), StatesFrom(p, i + 1)));
      FlattenBranch(b, StatesFrom(p, i + 1));
      assert Flatten(StatesFrom(p, i)) == a + ([Do(If)] + b + [Do(Else)] + inner + [Do(EndIf)]);
      assert a + ([Do(If)] + b + [Do(Else)] + inner + [Do(EndIf)]) == Opening(p, i) + inner + [Do(EndIf)];
      Shift(Opening(p, i), Openings(p, i + 1, n), NoState(), EndIfs(n - i - 1));
    }
  }

  lemma LineToks2(ts: seq<Tok>)
    ensures Flatten(Line(ts)) == ts && [] + ts + [] == ts
  {
  }

  lemma Shift(a: seq<Tok>, b: seq<Tok>, c: seq<Tok>, d: seq<Tok>)
    ensures a + b + c + (d + [Do(EndIf)]) == a + (b + c + d) + [Do(EndIf)]
  {
  }

  lemma {:induction false} FirstOpening(p: Plan, i: nat, j: nat)
    requires p.Valid() && i < j <= |p.roles|
    ensures Openings(p, i, j) == Opening(p, i) + Openings(p, i + 1, j)
  {
    hide Opening;
    if i + 1 < j {
      FirstOpening(p, i, j - 1);
      Regroup(Opening(p, i), Openings(p, i + 1, j - 1), Opening(p, j - 1));
    } else {
      assert Openings(p, i, i) == [];
    }
  }

  // ---- the bytes ----

  /** Output 0 goes to this script with the amount `v`. */
  function ContinuationBytes(v: nat): seq<byte> {
    [0x00, 0xc3, 0xb9, 0xbf, 0x88, 0x00, 0xc2] + NumberPush(v) + [0x88]
  }

  lemma ContinuationJoin(base: seq<byte>, p: seq<byte>)
    ensures base + [0x00] + [0xc3] + [0xb9] + [0xbf] + [0x88] + [0x00] + [0xc2] + p + [0x88] ==
            base + ([0x00, 0xc3, 0xb9, 0xbf, 0x88, 0x00, 0xc2] + p + [0x88])
  {
  }

  /** State `i`, written out: its amount, its role and, but for the last, where it goes on. */
  function StateBytes(p: Plan, i: nat): seq<byte>
    requires p.Valid() && i < |p.roles|
  {
    Product(i + 1, |p.roles|, p.step);
    [0x76] + NumberPush(p.base - i * p.step) + [0x87, 0x63, 0x75, 0x20] + p.roles[i] + [0xad]
    + (if i + 1 < |p.roles| then ContinuationBytes(p.base - (i + 1) * p.step) else []) + [0x51, 0x67]
  }

  function StatesBytes(p: Plan, n: nat): seq<byte>
    requires p.Valid() && n <= |p.roles|
  {
    if n == 0 then [] else StatesBytes(p, n - 1) + StateBytes(p, n - 1)
  }

  function Closing(n: nat): seq<byte> {
    seq(n, i => 0x68)
  }

  /** The machine, written out: one open conditional for each state, closed together at the end. */
  function MachineBytes(p: Plan): seq<byte>
    requires p.Valid()
  {
    [0x08] + p.salt + [0x75, 0xb9, 0xbe] + StatesBytes(p, |p.roles|) + [0x75, 0x00] + Closing(|p.roles|)
  }

  lemma StateJoin(base: seq<byte>, p: Plan, i: nat)
    requires p.Valid() && i < |p.roles|
    ensures
      var here := base + ([0x76] + NumberPush(p.Amount(i)) + [0x87]) + [0x63] + ([0x75, 0x20] + p.roles[i] + [0xad]);
      base + StateBytes(p, i) ==
      (if i < |p.roles| - 1 then here + ContinuationBytes(p.Amount(i + 1)) else here) + [0x51] + [0x67]
  {
    hide NumberPush, ContinuationBytes;
  }

  lemma MachineJoin(p: Plan)
    requires p.Valid()
    ensures [] + ([0x08] + p.salt + [0x75, 0xb9, 0xbe]) + StatesBytes(p, |p.roles|) + [0x75, 0x00]
            + Closing(|p.roles|) == MachineBytes(p)
  {
    hide StatesBytes;
  }

  method PushInState(s: ScriptBuf, v: nat)
    requires s.Valid() && v < U64_LIMIT
    modifies s
    ensures s.Valid() && s.toks == old(s.toks) + InState(v)
    ensures s.bytes == old(s.bytes) + ([0x76] + NumberPush(v) + [0x87])
  {
    hide Opcode.Code, Assemble, ToksOk, IntTok, DataTok, ScriptBuf.Valid, Enc, TokOk, NumberPush;
    OpcodeTable();
    s.PushOp(Dup);
    s.PushInt(v);
    s.PushOp(Equal);
    Block(old(s.toks), InState(v));
  }

  method PushBySigner(s: ScriptBuf, role: Key)
    requires s.Valid()
    modifies s
    ensures s.Valid() && s.toks == old(s.toks) + BySigner(role)
    ensures s.bytes == old(s.bytes) + ([0x75, 0x20] + role + [0xad])
  {
    hide Opcode.Code, Assemble, ToksOk, IntTok, DataTok, ScriptBuf.Valid, Enc, TokOk;
    OpcodeTable();
    s.PushOp(Drop);
    s.PushFixed(role);
    s.PushOp(CheckSigVerify);
    Block(old(s.toks), BySigner(role));
  }

  method PushContinuation(s: ScriptBuf, v: nat)
    requires s.Valid() && v < U64_LIMIT
    modifies s
    ensures s.Valid() && s.toks == old(s.toks) + SameScript() + NextAmount(v)
    ensures s.bytes == old(s.bytes) + ContinuationBytes(v)
  {
    hide Opcode.Code, Assemble, ToksOk, IntTok, DataTok, ScriptBuf.Valid, Enc, TokOk, NumberPush;
    OpcodeTable();
    SmallPushes();
    s.PushInt(0);
    s.PushOp(TxOutputSpk);
    s.PushOp(TxInputIndex);
    s.PushOp(TxInputSpk);
    s.PushOp(EqualVerify);
    Block(old(s.toks), SameScript());
    s.PushInt(0);
    s.PushOp(TxOutputAmount);
    s.PushInt(v);
    s.PushOp(EqualVerify);
    Block(old(s.toks) + SameScript(), NextAmount(v));
    ContinuationJoin(old(s.bytes), NumberPush(v));
  }

  /** One round of the loop over the roles. */
  method PushState(s: ScriptBuf, p: Plan, i: nat)
    requires s.Valid() && p.Valid() && i < |p.roles|
    modifies s
    ensures s.Valid() && s.toks == old(s.toks) + Opening(p, i)
    ensures s.bytes == old(s.bytes) + StateBytes(p, i)
  {
    hide Opcode.Code, Assemble, ToksOk, IntTok, DataTok, ScriptBuf.Valid, InState, BySigner, SameScript, NextAmount,
        IntTok, TokOk, Enc, NumberPush, ContinuationBytes;
    OpcodeTable();
    SmallPushes();
    ghost var was := s.toks;
    var stateAmount := p.Amount(i);
    var nextAmount := p.Amount(i + 1);
    PushInState(s, stateAmount);
    s.PushOp(If);
    ghost var begun := s.toks;
    PushBySigner(s, p.roles[i]);
    if i < |p.roles| - 1 {
      PushContinuation(s, nextAmount);
      s.PushInt(1);
      Regroup(begun, BySigner(p.roles[i]), SameScript());
      Regroup(begun, BySigner(p.roles[i]) + SameScript(), NextAmount(nextAmount));
      Regroup(begun, BySigner(p.roles[i]) + SameScript() + NextAmount(nextAmount), One());
    } else {
      s.PushInt(1);
      Regroup(begun, BySigner(p.roles[i]), One());
    }
    assert s.toks == begun + Transition(p, i);
    hide Transition;
    s.PushOp(Else);
    Regroup(was, InState(stateAmount), [Do(If)]);
    Regroup(was, InState(stateAmount) + [Do(If)], Transition(p, i));
    Regroup(was, InState(stateAmount) + [Do(If)] + Transition(p, i), [Do(Else)]);
    StateJoin(old(s.bytes), p, i);
  }

  method PushEndIfs(s: ScriptBuf, n: nat)
    requires s.Valid()
    modifies s
    ensures s.Valid() && s.toks == old(s.toks) + EndIfs(n)
    ensures s.bytes == old(s.bytes) + Closing(n)
  {
    hide Opcode.Code, ScriptBuf.Valid;
    OpcodeTable();
    for i := 0 to n
      invariant s.Valid() && s.toks == old(s.toks) + EndIfs(i)
      invariant s.bytes == old(s.bytes) + Closing(i)
    {
      s.PushOp(EndIf);
      assert Closing(i + 1) == Closing(i) + [0x68];
      assert EndIfs(i + 1) == EndIfs(i) + [Do(EndIf)];
      Regroup(old(s.toks), EndIfs(i), [Do(EndIf)]);
    }
  }

  method BuildStateMachine(p: Plan) returns (script: seq<byte>)
    requires p.Valid()
    ensures script == Script(p)
    ensures script == MachineBytes(p)
  {
    hide Assemble, ToksOk, IntTok, DataTok, ScriptBuf.Valid, Opening, NoState, EndIfs, Flatten, Transition, InState,
         StatesFrom, CodeOk, Salted, ReadAmount, TokOk, StateBytes;
    MachineOk(p);
    var s := new ScriptBuf();
    PushStart(s, p.salt);
    ghost var head, begun := s.toks, s.bytes;
    for i := 0 to |p.roles|
      invariant s.Valid() && s.toks == head + Openings(p, 0, i)
      invariant s.bytes == begun + StatesBytes(p, i)
    {
      PushState(s, p, i);
      Regroup(head, Openings(p, 0, i), Opening(p, i));
      Regroup(begun, StatesBytes(p, i), StateBytes(p, i));
    }
    PushNoState(s);
    PushEndIfs(s, |p.roles|);
    Regroup(head, Openings(p, 0, |p.roles|), NoState());
    Regroup(head, Openings(p, 0, |p.roles|) + NoState(), EndIfs(|p.roles|));
    NestedToks(p, 0);
    MachineToks(p);
    BufBytes(s);
    MachineJoin(p);
    return s.bytes;
  }

  lemma {:induction false} MachineToks(p: Plan)
    requires p.Valid()
    ensures Flatten(MachineCode(p)) == [] + Salted(p.salt) + ReadAmount() + Flatten(StatesFrom(p, 0))
  {
    hide StatesFrom, Salted, ReadAmount;
    FlattenLineThen(Salted(p.salt), Chain(Line(ReadAmount()), StatesFrom(p, 0)));
    FlattenLineThen(ReadAmount(), StatesFrom(p, 0));
    assert Flatten(MachineCode(p)) == Salted(p.salt) + (ReadAmount() + Flatten(StatesFrom(p, 0)));
    Regroup([] + Salted(p.salt), ReadAmount(), Flatten(StatesFrom(p, 0)));
    assert [] + Salted(p.salt) == Salted(p.salt);
  }

  method PushStart(s: ScriptBuf, salt: Salt)
    requires s.Valid()
    modifies s
    ensures s.Valid() && s.toks == old(s.toks) + Salted(salt) + ReadAmount()
    ensures s.bytes == old(s.bytes) + ([0x08] + salt + [0x75, 0xb9, 0xbe])
  {
    hide Opcode.Code, Assemble, ToksOk, IntTok, DataTok, ScriptBuf.Valid, Enc, TokOk;
    OpcodeTable();
    s.PushFixed(salt);
    s.PushOp(Drop);
    Block(old(s.toks), Salted(salt));
    s.PushOp(TxInputIndex);
    s.PushOp(TxInputAmount);
    Block(old(s.toks) + Salted(salt), ReadAmount());
  }

  method PushNoState(s: ScriptBuf)
    requires s.Valid()
    modifies s
    ensures s.Valid() && s.toks == old(s.toks) + NoState()
    ensures s.bytes == old(s.bytes) + [0x75, 0x00]
  {
    hide Opcode.Code, Assemble, ToksOk, IntTok, DataTok, ScriptBuf.Valid, Enc, TokOk, NumberPush;
    OpcodeTable();
    SmallPushes();
    s.PushOp(Drop);
    s.PushInt(0);
    Block(old(s.toks), NoState());
  }

  // ---- what it accepts ----

  /** Role `i`'s transition: signed by the role, and unless it is the last, output 0 carries the next state. */
  ghost predicate TransitionHolds(env: Env, p: Plan, i: nat, s: Stack)
    requires env.Valid() && p.Valid() && i < |p.roles|
  {
    && s.Push? && env.checkSig(s.top, p.roles[i])
    && (i < |p.roles| - 1 ==>
          && |env.outputs| > 0
          && env.outputs[0].spk == env.Self().spk
          && env.outputs[0].amount == p.Amount(i + 1))
  }

  lemma {:induction false} BySignerMeans(env: Env, role: Key, a: seq<byte>, s: Stack)
    ensures Steps(env, BySigner(role), At(Push(a, s))) == if s.Push? && env.checkSig(s.top, role) then At(s.rest) else Failed
  {
    hide Step, Steps, Enc, Flag, IntTok, DataTok;
    StackRules(env);
    OracleRules(env);
    StepsTo8(env, BySigner(role), At(Push(a, s)));
  }

  lemma {:induction false} SameScriptMeans(env: Env, s: Stack)
    requires env.Valid()
    ensures Steps(env, SameScript(), At(s)) == if |env.outputs| > 0 && env.outputs[0].spk == env.Self().spk then At(s)
        else Failed
  {
    hide Step, Steps, Enc, Flag, IntTok, DataTok;
    StackRules(env);
    TxRules(env);
    StepsTo8(env, SameScript(), At(s));
  }

  lemma {:induction false} NextAmountMeans(env: Env, v: nat, s: Stack)
    requires v < U64_LIMIT
    ensures Steps(env, NextAmount(v), At(s)) == if |env.outputs| > 0 && env.outputs[0].amount == v then At(s) else Failed
  {
    hide Step, Steps, Enc, Flag, IntTok, DataTok;
    StackRules(env);
    TxRules(env);
    EqualNumbers();
    StepsTo8(env, NextAmount(v), At(s));
  }

  lemma {:induction false} InStateMeans(env: Env, n: nat, v: nat, s: Stack)
    requires v < U64_LIMIT
    ensures Steps(env, InState(v), At(Push(Enc(n), s))) == At(Push(Flag(n == v), Push(Enc(n), s)))
  {
    hide Step, Steps, Enc, Flag, IntTok, DataTok;
    StackRules(env);
    EqualNumbers();
    StepsTo8(env, InState(v), At(Push(Enc(n), s)));
  }

  lemma {:induction false} TransitionMeans(env: Env, p: Plan, i: nat, a: seq<byte>, s: Stack)
    requires env.Valid() && p.Valid() && i < |p.roles|
    ensures Clean(Steps(env, Transition(p, i), At(Push(a, s)))) <==> TransitionHolds(env, p, i, s) && s.rest.Nil?
  {
    hide Steps, BySigner, SameScript, NextAmount, One, Enc, Truthy;
    var st := At(Push(a, s));
    var signed, same := BySigner(p.roles[i]), BySigner(p.roles[i]) + SameScript();
    FailureStays(env);
    BySignerMeans(env, p.roles[i], a, s);
    if i < |p.roles| - 1 {
      var v := p.Amount(i + 1);
      StepsConcat(env, signed, SameScript(), st);
      StepsConcat(env, same, NextAmount(v), st);
      StepsConcat(env, same + NextAmount(v), One(), st);
      if s.Push? {
        SameScriptMeans(env, s.rest);
        NextAmountMeans(env, v, s.rest);
        OneMeans(env, s.rest);
      }
    } else {
      StepsConcat(env, signed, One(), st);
      if s.Push? {
        OneMeans(env, s.rest);
      }
    }
  }

  lemma {:induction false} NoStateMeans(env: Env, a: seq<byte>, s: Stack)
    ensures !Clean(Steps(env, NoState(), At(Push(a, s))))
  {
    hide Step, Steps, Enc, Flag, IntTok, DataTok, Truthy;
    StackRules(env);
    FlagIsNumber(false);
    StepsTo8(env, NoState(), At(Push(a, s)));
  }

  /** The input is in state `i` and role `i` moves it on. */
  ghost predicate Fires(env: Env, p: Plan, i: nat, s: Stack)
    requires env.Valid() && p.Valid()
  {
    i < |p.roles| && env.Self().amount == p.Amount(i) && TransitionHolds(env, p, i, s) && s.rest.Nil?
  }

  lemma {:induction false} StatesMean(env: Env, p: Plan, i: nat, s: Stack)
    requires env.Valid() && p.Valid() && 0 < p.step && i <= |p.roles|
    ensures Clean(Exec(env, StatesFrom(p, i), At(Push(Enc(env.Self().amount), s)))) <==>
              exists j: nat :: i <= j && Fires(env, p, j, s)
    decreases |p.roles| - i
  {
    hide Steps, Exec, Enc, Truthy, Clean, Flag, Transition, InState, NoState, TransitionHolds;
    var n := env.Self().amount;
    var below := Push(Enc(n), s);
    if i == |p.roles| {
      ExecLine(env, NoState(), At(below));
      NoStateMeans(env, Enc(n), s);
    } else {
      var v := p.Amount(i);
      var yes, no := Line(Transition(p, i)), StatesFrom(p, i + 1);
      ExecLineThen(env, InState(v), Branch(yes, no), At(below));
      InStateMeans(env, n, v, s);
      ExecBranch(env, yes, no, Flag(n == v), below);
      FlagIsNumber(n == v);
      if n == v {
        ExecLine(env, Transition(p, i), At(below));
        TransitionMeans(env, p, i, Enc(n), s);
        forall j: nat | i < j && Fires(env, p, j, s)
          ensures false
        {
          AmountsDiffer(p, i, j);
        }
        assert Clean(Steps(env, Transition(p, i), At(below))) <==> Fires(env, p, i, s);
      } else {
        StatesMean(env, p, i + 1, s);
      }
    }
  }

  /** The script accepts exactly when the amount encodes a state, that state's role signed, and the state moves on. */
  lemma {:induction false} MachineAccepts(env: Env, p: Plan, s: Stack)
    requires env.Valid() && p.Valid() && 0 < p.step
    ensures Accepts(env, Script(p), s) <==> exists i: nat :: Fires(env, p, i, s)
  {
    hide Steps, Exec, Enc, Truthy, Clean, StatesFrom, Salted, ReadAmount, Fires, Accepts, Assemble, Flatten, CodeOk,
         ToksOk;
    MachineOk(p);
    AcceptsCompiled(env, MachineCode(p), s);
    ExecLineThen(env, Salted(p.salt), Chain(Line(ReadAmount()), StatesFrom(p, 0)), At(s));
    SaltedMeans(env, p.salt, s);
    ExecLineThen(env, ReadAmount(), StatesFrom(p, 0), At(s));
    ReadAmountMeans(env, s);
    StatesMean(env, p, 0, s);
  }

  lemma {:induction false} ReadAmountMeans(env: Env, s: Stack)
    requires env.Valid()
    ensures Steps(env, ReadAmount(), At(s)) == At(Push(Enc(env.Self().amount), s))
  {
    hide Step, Steps, Enc, Flag, IntTok, DataTok;
    TxRules(env);
    StepsTo8(env, ReadAmount(), At(s));
  }

  // ---- whole runs ----

  ghost predicate MovesOn(envs: seq<Env>, k: nat) {
    k + 1 < |envs| && envs[k + 1].Valid() && SpendsOutput(envs[k], envs[k + 1], 0)
  }

  /** An accepted spend, under a hash that takes the machine's script, and only that, to `address`. */
  ghost predicate AcceptedAt(env: Env, p: Plan, address: seq<byte>)
    requires p.Valid()
  {
    env.Valid() && SpendOk(env) && address == P2sh(env.blake2b(Script(p))) && NoCollision(env, Script(p))
  }

  /** Accepted spends, each of output 0 of the one before, from the machine's address at the base amount. */
  ghost predicate MachineRun(envs: seq<Env>, p: Plan, address: seq<byte>)
    requires p.Valid()
  {
    && |envs| > 0 && envs[0].Valid() && envs[0].Self().spk == address && envs[0].Self().amount == p.base
    && (forall k :: 0 <= k < |envs| ==> AcceptedAt(envs[k], p, address))
    && (forall k :: 0 <= k < |envs| - 1 ==> MovesOn(envs, k))
  }

  /**
   * From the base amount, spend `k` is signed by role `k`: the roles act in order, one each. Before
   * the last role output 0 is the machine again, in the next state.
   */
  lemma {:induction false} RolesInOrder(envs: seq<Env>, p: Plan, address: seq<byte>, k: nat)
    requires p.Valid() && 0 < p.step && MachineRun(envs, p, address) && k < |envs| && k < |p.roles|
    ensures envs[k].Self().spk == address && envs[k].Self().amount == p.Amount(k)
    ensures exists g: seq<byte> :: envs[k].checkSig(g, p.roles[k])
    ensures k < |p.roles| - 1 ==>
              |envs[k].outputs| > 0 && envs[k].outputs[0].spk == address && envs[k].outputs[0].amount == p.Amount(k + 1)
  {
    hide Script, SpendOk, NoCollision, Accepts, P2sh;
    if k > 0 {
      RolesInOrder(envs, p, address, k - 1);
      assert MovesOn(envs, k - 1);
    }
    AtAmount(envs[k], p, k);
  }

  /** An accepted spend of state `k`'s amount is role `k`'s. */
  lemma {:induction false} AtAmount(env: Env, p: Plan, k: nat)
    requires p.Valid() && 0 < p.step && k < |p.roles| && env.Valid() && SpendOk(env)
    requires env.Self().spk == P2sh(env.blake2b(Script(p))) && NoCollision(env, Script(p))
              && env.Self().amount == p.Amount(k)
    ensures exists g: seq<byte> :: env.checkSig(g, p.roles[k])
    ensures k < |p.roles| - 1 ==>
              |env.outputs| > 0 && env.outputs[0].spk == env.Self().spk && env.outputs[0].amount == p.Amount(k + 1)
  {
    hide Script, SpendOk, NoCollision, Accepts, P2sh;
    var s := SpendRuns(env, Script(p));
    MachineAccepts(env, p, s);
    var i: nat :| Fires(env, p, i, s);
    if i < k {
      AmountsDiffer(p, i, k);
    } else if k < i {
      AmountsDiffer(p, k, i);
    }
    assert env.checkSig(s.top, p.roles[k]);
  }

  /**
   * No other amount is ever accepted: after the last role's state there is nothing to spend but
   * what it chose to make.
   */
  lemma {:induction false} OnlyStates(env: Env, p: Plan)
    requires p.Valid() && 0 < p.step && env.Valid() && SpendOk(env)
    requires env.Self().spk == P2sh(env.blake2b(Script(p))) && NoCollision(env, Script(p))
    ensures exists i: nat :: i < |p.roles| && env.Self().amount == p.Amount(i)
  {
    hide Script, SpendOk, NoCollision, Accepts, P2sh;
    var s := SpendRuns(env, Script(p));
    MachineAccepts(env, p, s);
    var i: nat :| Fires(env, p, i, s);
    assert env.Self().amount == p.Amount(i);
  }
}
