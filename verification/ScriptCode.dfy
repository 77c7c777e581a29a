/**
 * Structured scripts. `Flatten` compiles blocks and branches to a token stream; running the
 * stream means what the structure says, whatever the branches hold.
 */
module ScriptCode {
  import opened Bytes
  import opened ScriptNumbers
  import opened ScriptTokens
  import opened ScriptMachine

  datatype Code =
    | Line(toks: seq<Tok>)
    | Chain(first: Code, second: Code)
    | Branch(yes: Code, no: Code)
    | When(body: Code)

  predicate CodeOk(c: Code) {
    match c
    case Line(ts) => forall t :: t in ts ==> TokOk(t) && !IsControl(t)
    case Chain(a, b) => CodeOk(a) && CodeOk(b)
    case Branch(a, b) => CodeOk(a) && CodeOk(b)
    case When(a) => CodeOk(a)
  }

  function Flatten(c: Code): seq<Tok> {
    match c
    case Line(ts) => ts
    case Chain(a, b) => Flatten(a) + Flatten(b)
    case Branch(a, b) => [Do(If)] + Flatten(a) + [Do(Else)] + Flatten(b) + [Do(EndIf)]
    case When(a) => [Do(If)] + Flatten(a) + [Do(EndIf)]
  }

  function Steps(env: Env, ts: seq<Tok>, st: State): State {
    if ts == [] then st else Steps(env, ts[1..], Step(env, ts[0], st))
  }

  /** What structured code means. */
  function Exec(env: Env, c: Code, st: State): (r: State)
    ensures st.Failed? ==> r.Failed?
  {
    if st.Failed? then Failed
    else
      match c
      case Line(ts) => Steps(env, ts, st)
      case Chain(a, b) => Exec(env, b, Exec(env, a, st))
      case Branch(a, b) =>
        if st.stack.Nil? then Failed
        else if Truthy(st.stack.top) then Exec(env, a, At(st.stack.rest))
        else Exec(env, b, At(st.stack.rest))
      case When(a) =>
        if st.stack.Nil? then Failed
        else if Truthy(st.stack.top) then Exec(env, a, At(st.stack.rest))
        else At(st.stack.rest)
  }

  lemma {:induction false} RunConcat(env: Env, a: seq<Tok>, b: seq<Tok>, m: Machine)
    ensures Run(env, a + b, m) == Run(env, b, Run(env, a, m))
  {
    hide StepMachine;
    if a == [] {
      assert a + b == b;
    } else {
      assert (a + b)[1..] == a[1..] + b;
      RunConcat(env, a[1..], b, StepMachine(env, a[0], m));
    }
  }

  lemma {:induction false} FailedStays(env: Env, ts: seq<Tok>, m: Machine)
    requires m.state.Failed?
    ensures Run(env, ts, m) == m
  {
    if ts != [] {
      FailedStays(env, ts[1..], m);
    }
  }

  lemma {:induction false} RunOne(env: Env, t: Tok, m: Machine)
    ensures Run(env, [t], m) == StepMachine(env, t, m)
  {
    assert [t][1..] == [];
    hide StepMachine;
  }

  /** `[open] + a + [close]`, and the same with a middle part. */
  lemma {:induction false} RunBlock(env: Env, open: Tok, a: seq<Tok>, close: Tok, m: Machine)
    ensures Run(env, [open] + a + [close], m) == StepMachine(env, close, Run(env, a, StepMachine(env, open, m)))
  {
    hide StepMachine;
    RunConcat(env, [open] + a, [close], m);
    RunConcat(env, [open], a, m);
    RunOne(env, open, m);
    RunOne(env, close, Run(env, [open] + a, m));
  }

  lemma {:induction false} RunTwoBlocks(env: Env, a: seq<Tok>, b: seq<Tok>, m: Machine)
    ensures Run(env, [Do(If)] + a + [Do(Else)] + b + [Do(EndIf)], m) ==
            StepMachine(env, Do(EndIf),
                Run(env, b, StepMachine(env, Do(Else), Run(env, a, StepMachine(env, Do(If), m)))))
  {
    hide StepMachine;
    RunBlock(env, Do(If), a, Do(Else), m);
    RunConcat(env, [Do(If)] + a + [Do(Else)] + b, [Do(EndIf)], m);
    RunConcat(env, [Do(If)] + a + [Do(Else)], b, m);
    RunOne(env, Do(EndIf), Run(env, [Do(If)] + a + [Do(Else)] + b, m));
  }

  lemma {:induction false} LineSkips(env: Env, ts: seq<Tok>, m: Machine)
    requires (forall t :: t in ts ==> !IsControl(t)) && !Executing(m.conds)
    ensures Run(env, ts, m) == m
  {
    hide Step;
    if ts != [] {
      assert ts[0] in ts;
      LineSkips(env, ts[1..], m);
    }
  }

  /** Code in a branch that is not taken changes nothing, however its own conditionals nest. */
  lemma {:induction false} CodeSkips(env: Env, c: Code, m: Machine)
    requires CodeOk(c) && m.state.At? && !Executing(m.conds)
    ensures Run(env, Flatten(c), m) == m
  {
    match c
    case Line(ts) =>
      LineSkips(env, ts, m);
    case Chain(a, b) =>
      RunConcat(env, Flatten(a), Flatten(b), m);
      CodeSkips(env, a, m);
      CodeSkips(env, b, m);
    case Branch(a, b) =>
      var inner := m.(conds := [Skipped] + m.conds);
      assert inner.conds[0] == Skipped && Skipped in inner.conds;
      RunTwoBlocks(env, Flatten(a), Flatten(b), m);
      CodeSkips(env, a, inner);
      CodeSkips(env, b, inner);
      assert inner.conds[1..] == m.conds;
    case When(a) =>
      var inner := m.(conds := [Skipped] + m.conds);
      assert inner.conds[0] == Skipped && Skipped in inner.conds;
      RunBlock(env, Do(If), Flatten(a), Do(EndIf), m);
      CodeSkips(env, a, inner);
      assert inner.conds[1..] == m.conds;
  }

  lemma {:induction false} LineRuns(env: Env, ts: seq<Tok>, m: Machine)
    requires (forall t :: t in ts ==> !IsControl(t)) && Executing(m.conds)
    ensures Run(env, ts, m).state == Steps(env, ts, m.state)
    ensures Run(env, ts, m).conds == m.conds
  {
    if ts != [] {
      assert ts[0] in ts;
      var next := m.(state := Step(env, ts[0], m.state));
      assert m.state.Failed? ==> next == m;
      hide Step;
      LineRuns(env, ts[1..], next);
    }
  }

  /** Agreement of the machine with the structured meaning: the conditionals matter only while nothing failed. */
  predicate Agrees(m: Machine, st: State, conds: seq<Cond>) {
    m.state == st && (st.At? ==> m.conds == conds)
  }

  /** Running compiled code is executing the code it was compiled from. */
  lemma {:induction false} FlattenMeans(env: Env, c: Code, st: State, conds: seq<Cond>)
    requires CodeOk(c) && Executing(conds)
    ensures Agrees(Run(env, Flatten(c), Machine(st, conds)), Exec(env, c, st), conds)
    decreases c, 1
  {
    var m := Machine(st, conds);
    if st.Failed? {
      FailedStays(env, Flatten(c), m);
      return;
    }
    match c
    case Line(ts) =>
      LineRuns(env, ts, m);
    case Chain(a, b) =>
      RunConcat(env, Flatten(a), Flatten(b), m);
      FlattenMeans(env, a, st, conds);
      var mid := Exec(env, a, st);
      if mid.At? {
        FlattenMeans(env, b, mid, conds);
      } else {
        FailedStays(env, Flatten(b), Run(env, Flatten(a), m));
      }
    case Branch(a, b) =>
      BranchMeans(env, a, b, st, conds);
    case When(a) =>
      RunBlock(env, Do(If), Flatten(a), Do(EndIf), m);
      if st.stack.Nil? {
        FailedStays(env, Flatten(a), Fail(conds));
      } else {
        var inner := [if Truthy(st.stack.top) then Taken else NotTaken] + conds;
        assert inner[1..] == conds && inner[0] in inner;
        if Truthy(st.stack.top) {
          FlattenMeans(env, a, At(st.stack.rest), inner);
        } else {
          CodeSkips(env, a, Machine(At(st.stack.rest), inner));
        }
      }
  }

  lemma {:induction false} BranchMeans(env: Env, a: Code, b: Code, st: State, conds: seq<Cond>)
    requires CodeOk(a) && CodeOk(b) && Executing(conds) && st.At?
    ensures Agrees(Run(env, Flatten(Branch(a, b)), Machine(st, conds)), Exec(env, Branch(a, b), st), conds)
    decreases Branch(a, b), 0
  {
    var m := Machine(st, conds);
    RunTwoBlocks(env, Flatten(a), Flatten(b), m);
    if st.stack.Nil? {
      FailedStays(env, Flatten(a), Fail(conds));
      FailedStays(env, Flatten(b), Fail(conds));
      return;
    }
    var rest := At(st.stack.rest);
    var yes, no := [Taken] + conds, [NotTaken] + conds;
    assert yes[1..] == conds && no[1..] == conds && no[0] in no;
    if Truthy(st.stack.top) {
      FlattenMeans(env, a, rest, yes);
      var mid := Run(env, Flatten(a), Machine(rest, yes));
      if mid.state.At? {
        CodeSkips(env, b, Machine(mid.state, no));
      } else {
        FailedStays(env, Flatten(b), mid);
      }
    } else {
      CodeSkips(env, a, Machine(rest, no));
      FlattenMeans(env, b, rest, yes);
    }
  }

  lemma {:induction false} FlattenOk(c: Code)
    requires CodeOk(c)
    ensures ToksOk(Flatten(c))
  {
    match c
    case Line(_) =>
    case Chain(a, b) =>
      FlattenOk(a);
      FlattenOk(b);
    case Branch(a, b) =>
      FlattenOk(a);
      FlattenOk(b);
      assert TokOk(Do(If)) && TokOk(Do(Else)) && TokOk(Do(EndIf));
    case When(a) =>
      FlattenOk(a);
      assert TokOk(Do(If)) && TokOk(Do(EndIf));
  }

  /** The engine accepts the bytes of compiled code exactly when the code ends with one true item. */
  lemma {:induction false} AcceptsCompiled(env: Env, c: Code, s: Stack)
    requires CodeOk(c)
    ensures ToksOk(Flatten(c))
    ensures Accepts(env, Assemble(Flatten(c)), s) <==> Clean(Exec(env, c, At(s)))
  {
    FlattenOk(c);
    ParseAssemble(Flatten(c));
    FlattenMeans(env, c, At(s), []);
  }

  // ---- building the tokens of structured code ----

  lemma {:induction false} ChainToks(base: seq<Tok>, a: Code, b: Code)
    requires CodeOk(a) && CodeOk(b)
    ensures CodeOk(Chain(a, b)) && base + Flatten(a) + Flatten(b) == base + Flatten(Chain(a, b))
  {
    assert base + (Flatten(a) + Flatten(b)) == base + Flatten(a) + Flatten(b);
  }

  lemma {:induction false} BranchToks(base: seq<Tok>, a: Code, b: Code)
    requires CodeOk(a) && CodeOk(b)
    ensures CodeOk(Branch(a, b))
    ensures base + [Do(If)] + Flatten(a) + [Do(Else)] + Flatten(b) + [Do(EndIf)] == base + Flatten(Branch(a, b))
  {
    var body := [Do(If)] + Flatten(a) + [Do(Else)] + Flatten(b);
    assert base + (body + [Do(EndIf)]) == base + body + [Do(EndIf)];
    assert base + body == base + [Do(If)] + Flatten(a) + [Do(Else)] + Flatten(b);
  }

  lemma {:induction false} WhenToks(base: seq<Tok>, a: Code)
    requires CodeOk(a)
    ensures CodeOk(When(a)) && base + [Do(If)] + Flatten(a) + [Do(EndIf)] == base + Flatten(When(a))
  {
    assert base + ([Do(If)] + Flatten(a) + [Do(EndIf)]) == base + [Do(If)] + Flatten(a) + [Do(EndIf)];
  }

  lemma FlattenLineThen(ts: seq<Tok>, c: Code)
    ensures Flatten(Chain(Line(ts), c)) == ts + Flatten(c)
  {
  }

  lemma FlattenBranch(ts: seq<Tok>, c: Code)
    ensures Flatten(Branch(Line(ts), c)) == [Do(If)] + ts + [Do(Else)] + Flatten(c) + [Do(EndIf)]
  {
  }

  lemma LineToks(ts: seq<Tok>)
    requires CodeOk(Line(ts))
    ensures Flatten(Line(ts)) == ts
  {
  }

  /** A token that may stand in a block. */
  predicate Plain(t: Tok) {
    TokOk(t) && !IsControl(t)
  }

  /** Named opcodes and the tokens of the push helpers may. */
  lemma {:induction false} PlainToks()
    ensures forall op: Opcode {:trigger Plain(Do(op))} :: !op.Other? && !op.If? && !op.Else? && !op.EndIf? ==>
              Plain(Do(op))
    ensures forall v: nat {:trigger IntTok(v)} :: v < U64_LIMIT ==> Plain(IntTok(v))
    ensures forall d: seq<byte> {:trigger DataTok(d)} :: |d| < U32_LIMIT ==> Plain(DataTok(d))
  {
    hide Enc;
  }

  lemma {:induction false} PlainLine(ts: seq<Tok>)
    requires forall i :: 0 <= i < |ts| ==> Plain(ts[i])
    ensures CodeOk(Line(ts)) && ToksOk(ts)
    ensures |ts| <= 8 ==> Len(ts) == LenTo8(ts)
  {
    if |ts| <= 8 {
      LenIsTo8(ts);
    }
    hide TokOk, IsControl, Len, TokLen;
  }

  /** A block that may stand in a script, of `n` bytes. */
  predicate Sized(ts: seq<Tok>, n: nat) {
    CodeOk(Line(ts)) && Len(ts) == n
  }

  lemma {:induction false} PlainJoin(a: seq<Tok>, b: seq<Tok>)
    requires CodeOk(Line(a)) && CodeOk(Line(b))
    ensures CodeOk(Line(a + b))
  {
    hide TokOk, IsControl;
  }

  lemma {:induction false} SizedJoin(a: seq<Tok>, m: nat, b: seq<Tok>, n: nat)
    requires Sized(a, m) && Sized(b, n)
    ensures Sized(a + b, m + n)
  {
    AssembleConcat(a, b);
    hide TokOk, IsControl, Assemble;
  }

  // ---- executing a few tokens at a time ----

  lemma {:induction false} StepsConcat(env: Env, a: seq<Tok>, b: seq<Tok>, st: State)
    ensures Steps(env, a + b, st) == Steps(env, b, Steps(env, a, st))
  {
    hide Step;
    if a == [] {
      assert a + b == b;
    } else {
      assert (a + b)[1..] == a[1..] + b;
      StepsConcat(env, a[1..], b, Step(env, a[0], st));
    }
  }

  lemma {:induction false} FailureStays(env: Env)
    ensures forall ts: seq<Tok> {:trigger Steps(env, ts, Failed)} :: Steps(env, ts, Failed) == Failed
  {
    forall ts: seq<Tok>
      ensures Steps(env, ts, Failed) == Failed
    {
      StepsFail(env, ts);
    }
  }

  lemma {:induction false} StepsFail(env: Env, ts: seq<Tok>)
    ensures Steps(env, ts, Failed) == Failed
  {
    if ts != [] {
      StepsFail(env, ts[1..]);
    }
  }

  /** Token `i`, if there is one. */
  function StepAt(env: Env, ts: seq<Tok>, i: nat, st: State): State {
    if i < |ts| then Step(env, ts[i], st) else st
  }

  /** A run of up to eight tokens, step by step. */
  lemma {:induction false} StepsTo8(env: Env, ts: seq<Tok>, st: State)
    requires |ts| <= 8
    ensures
      var mid := StepAt(env, ts, 3, StepAt(env, ts, 2, StepAt(env, ts, 1, StepAt(env, ts, 0, st))));
      Steps(env, ts, st) == StepAt(env, ts, 7, StepAt(env, ts, 6, StepAt(env, ts, 5, StepAt(env, ts, 4, mid))))
  {
    hide Step;
    if ts != [] {
      StepsTo8(env, ts[1..], Step(env, ts[0], st));
    }
  }

  // ---- the meaning of structured code, one layer at a time ----

  lemma {:induction false} ExecLine(env: Env, ts: seq<Tok>, st: State)
    ensures Exec(env, Line(ts), st) == Steps(env, ts, st)
  {
    StepsFail(env, ts);
    hide Steps;
  }

  lemma {:induction false} ExecChain(env: Env, a: Code, b: Code, st: State)
    ensures Exec(env, Chain(a, b), st) == Exec(env, b, Exec(env, a, st))
  {
    hide Steps;
  }

  lemma {:induction false} ExecLineThen(env: Env, ts: seq<Tok>, rest: Code, st: State)
    ensures Exec(env, Chain(Line(ts), rest), st) == Exec(env, rest, Steps(env, ts, st))
  {
    ExecChain(env, Line(ts), rest, st);
    ExecLine(env, ts, st);
  }

  lemma {:induction false} ExecBranch(env: Env, a: Code, b: Code, top: seq<byte>, s: Stack)
    ensures Exec(env, Branch(a, b), At(Push(top, s))) == if Truthy(top) then Exec(env, a, At(s)) else Exec(env, b, At(s))
  {
    hide Steps, Truthy;
  }

  lemma {:induction false} ExecBranchNil(env: Env, a: Code, b: Code)
    ensures Exec(env, Branch(a, b), At(Nil)) == Failed
  {
    hide Steps, Truthy;
  }

  lemma {:induction false} ExecWhen(env: Env, a: Code, top: seq<byte>, s: Stack)
    ensures Exec(env, When(a), At(Push(top, s))) == if Truthy(top) then Exec(env, a, At(s)) else At(s)
  {
    hide Steps, Truthy;
  }

  lemma ExecFailed(env: Env, c: Code)
    ensures Exec(env, c, Failed) == Failed
  {
  }

  // ---- what a symbolic run needs to know about values ----

  lemma {:induction false} NumberFacts()
    ensures forall n: int {:trigger Enc(n)} :: Dec(Enc(n)) == n
    ensures forall c: bool {:trigger Flag(c)} :: (Truthy(Flag(c)) <==> c) && Dec(Flag(c)) == if c then 1 else 0
  {
    forall n: int
      ensures Dec(Enc(n)) == n
    {
      DecEnc(n);
    }
    forall c: bool
      ensures (Truthy(Flag(c)) <==> c) && Dec(Flag(c)) == if c then 1 else 0
    {
      FlagIsNumber(c);
    }
  }

  lemma {:induction false} PushFacts()
    ensures forall v: nat {:trigger IntTok(v)} :: v < U64_LIMIT ==>
              IntTok(v) != Do(If) && !IntTok(v).Do? && Pushed(IntTok(v)) == Some(Enc(v))
    ensures forall d: seq<byte> {:trigger DataTok(d)} :: |d| < U32_LIMIT ==>
              !DataTok(d).Do? && Pushed(DataTok(d)) == Some(d)
  {
    forall v: nat | v < U64_LIMIT
      ensures IntTok(v) != Do(If) && !IntTok(v).Do? && Pushed(IntTok(v)) == Some(Enc(v))
    {
      PushedInt(v);
    }
  }
}
