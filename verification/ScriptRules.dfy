/**
 * One rule per opcode, in the shape a symbolic run meets it: what the step does to a stack whose
 * top items are known. With these, runs are rewriting and need no engine definition.
 */
module ScriptRules {
  import opened Bytes
  import opened ScriptNumbers
  import opened ScriptTokens
  import opened ScriptMachine
  import opened ScriptCode

  /** Pushes; and a failed run stays failed. */
  lemma {:induction false} PushRules(env: Env)
    ensures forall t: Tok {:trigger Step(env, t, Failed)} :: Step(env, t, Failed) == Failed
    ensures forall v: nat, s: Stack {:trigger Step(env, IntTok(v), At(s))} ::
              v < U64_LIMIT ==> Step(env, IntTok(v), At(s)) == At(Push(Enc(v), s))
    ensures forall d: seq<byte>, s: Stack {:trigger Step(env, DataTok(d), At(s))} ::
              |d| < U32_LIMIT ==> Step(env, DataTok(d), At(s)) == At(Push(d, s))
  {
    forall v: nat, s: Stack | v < U64_LIMIT
      ensures Step(env, IntTok(v), At(s)) == At(Push(Enc(v), s))
    {
      PushedInt(v);
      hide Enc, Pushed;
    }
    hide Enc, IntTok;
  }

  /** Opcodes that only move items or compare bytes, and every rule for pushes. */
  lemma {:induction false} StackRules(env: Env)
    ensures forall t: Tok {:trigger Step(env, t, Failed)} :: Step(env, t, Failed) == Failed
    ensures forall v: nat, s: Stack {:trigger Step(env, IntTok(v), At(s))} ::
              v < U64_LIMIT ==> Step(env, IntTok(v), At(s)) == At(Push(Enc(v), s))
    ensures forall d: seq<byte>, s: Stack {:trigger Step(env, DataTok(d), At(s))} ::
              |d| < U32_LIMIT ==> Step(env, DataTok(d), At(s)) == At(Push(d, s))
    ensures forall a: seq<byte>, s: Stack {:trigger Step(env, Do(Drop), At(Push(a, s)))} ::
              Step(env, Do(Drop), At(Push(a, s))) == At(s)
    ensures forall a: seq<byte>, s: Stack {:trigger Step(env, Do(Dup), At(Push(a, s)))} ::
              Step(env, Do(Dup), At(Push(a, s))) == At(Push(a, Push(a, s)))
    ensures forall a: seq<byte>, b: seq<byte>, s: Stack {:trigger Step(env, Do(Swap), At(Push(b, Push(a, s))))} ::
              Step(env, Do(Swap), At(Push(b, Push(a, s)))) == At(Push(a, Push(b, s)))
    ensures forall a: seq<byte>, b: seq<byte>, c: seq<byte>,
              s: Stack {:trigger Step(env, Do(Rot), At(Push(c, Push(b, Push(a, s)))))} ::
              Step(env, Do(Rot), At(Push(c, Push(b, Push(a, s))))) == At(Push(a, Push(c, Push(b, s))))
    ensures forall a: seq<byte>, b: seq<byte>, s: Stack {:trigger Step(env, Do(Cat), At(Push(b, Push(a, s))))} ::
              Step(env, Do(Cat), At(Push(b, Push(a, s)))) == At(Push(a + b, s))
    ensures forall a: seq<byte>, b: seq<byte>, s: Stack {:trigger Step(env, Do(Equal), At(Push(b, Push(a, s))))} ::
              Step(env, Do(Equal), At(Push(b, Push(a, s)))) == At(Push(Flag(a == b), s))
    ensures forall a: seq<byte>, b: seq<byte>,
              s: Stack {:trigger Step(env, Do(EqualVerify), At(Push(b, Push(a, s))))} ::
              Step(env, Do(EqualVerify), At(Push(b, Push(a, s)))) == if a == b then At(s) else Failed
  {
    PushRules(env);
    hide Enc, IntTok, DataTok, Flag, Truthy, Dec;
  }

  /** Picking the top item, or the one below it. */
  lemma {:induction false} PickRules(env: Env)
    ensures forall a: seq<byte>, s: Stack {:trigger Step(env, Do(Pick), At(Push(Enc(0), Push(a, s))))} ::
              Step(env, Do(Pick), At(Push(Enc(0), Push(a, s)))) == At(Push(a, Push(a, s)))
    ensures forall a: seq<byte>, b: seq<byte>,
              s: Stack {:trigger Step(env, Do(Pick), At(Push(Enc(1), Push(a, Push(b, s)))))} ::
              Step(env, Do(Pick), At(Push(Enc(1), Push(a, Push(b, s))))) == At(Push(b, Push(a, Push(b, s))))
  {
    NumberFacts();
    hide Enc, Dec;
    forall a: seq<byte>, b: seq<byte>, s: Stack
      ensures Step(env, Do(Pick), At(Push(Enc(1), Push(a, Push(b, s))))) == At(Push(b, Push(a, Push(b, s))))
    {
      var below := Push(b, s);
      assert Depth(Push(a, below)) == 1 + Depth(below) && Depth(below) == 1 + Depth(s);
      assert Nth(Push(a, below), 1) == Nth(below, 0);
    }
  }

  /** Arithmetic on encoded numbers. */
  lemma {:induction false} NumberRules(env: Env)
    ensures forall n: int {:trigger Enc(n)} :: Dec(Enc(n)) == n
    ensures forall a: int, b: int, s: Stack {:trigger Step(env, Do(Sub), At(Push(Enc(b), Push(Enc(a), s))))} ::
              Step(env, Do(Sub), At(Push(Enc(b), Push(Enc(a), s)))) == At(Push(Enc(a - b), s))
    ensures forall a: int, b: int,
              s: Stack {:trigger Step(env, Do(NumEqualVerify), At(Push(Enc(b), Push(Enc(a), s))))} ::
              Step(env, Do(NumEqualVerify), At(Push(Enc(b), Push(Enc(a), s)))) == if a == b then At(s) else Failed
    ensures forall a: seq<byte>, b: seq<byte>,
              s: Stack {:trigger Step(env, Do(GreaterThanOrEqual), At(Push(b, Push(a, s))))} ::
              Step(env, Do(GreaterThanOrEqual), At(Push(b, Push(a, s)))) == At(Push(Flag(Dec(a) >= Dec(b)), s))
    ensures forall a: seq<byte>, b: seq<byte>,
              s: Stack {:trigger Step(env, Do(LessThanOrEqual), At(Push(b, Push(a, s))))} ::
              Step(env, Do(LessThanOrEqual), At(Push(b, Push(a, s)))) == At(Push(Flag(Dec(a) <= Dec(b)), s))
    ensures forall a: seq<byte>, b: seq<byte>, c: seq<byte>,
              s: Stack {:trigger Step(env, Do(Within), At(Push(c, Push(b, Push(a, s)))))} ::
              Step(env, Do(Within), At(Push(c, Push(b, Push(a, s))))) == At(Push(Flag(Dec(b) <= Dec(a) < Dec(c)), s))
    ensures forall c: bool, s: Stack {:trigger Step(env, Do(Verify), At(Push(Flag(c), s)))} ::
              Step(env, Do(Verify), At(Push(Flag(c), s))) == if c then At(s) else Failed
    ensures forall a: bool, b: bool, s: Stack {:trigger Step(env, Do(BoolOr), At(Push(Flag(b), Push(Flag(a), s))))} ::
              Step(env, Do(BoolOr), At(Push(Flag(b), Push(Flag(a), s)))) == At(Push(Flag(a || b), s))
  {
    NumberFacts();
    hide Enc, Dec, Flag, Truthy;
  }

  /** Byte strings cut by encoded bounds. */
  lemma {:induction false} SliceRules(env: Env)
    ensures forall d: seq<byte>, i: int, j: int,
              s: Stack {:trigger Step(env, Do(Substr), At(Push(Enc(j), Push(Enc(i), Push(d, s)))))} ::
              Step(env, Do(Substr), At(Push(Enc(j), Push(Enc(i), Push(d, s))))) ==
              if 0 <= i <= j <= |d| then At(Push(d[i..j], s)) else Failed
    ensures forall n: nat, i: int, j: int,
              s: Stack {:trigger Step(env, Do(TxInputScriptSigSubstr),
                  At(Push(Enc(j), Push(Enc(i), Push(Enc(n), s)))))} ::
              n < |env.inputs| ==>
                Step(env, Do(TxInputScriptSigSubstr), At(Push(Enc(j), Push(Enc(i), Push(Enc(n), s))))) ==
                if 0 <= i <= j <= |env.inputs[n].sigScript| then At(Push(env.inputs[n].sigScript[i..j], s)) else Failed
    ensures forall n: nat, s: Stack {:trigger Step(env, Do(TxInputScriptSigLen), At(Push(Enc(n), s)))} ::
              n < |env.inputs| ==>
                  Step(env, Do(TxInputScriptSigLen), At(Push(Enc(n), s))) == At(Push(Enc(|env.inputs[n].sigScript|), s))
  {
    NumberFacts();
    hide Enc, Dec;
  }

  /** Looking at the transaction. */
  lemma {:induction false} TxRules(env: Env)
    ensures forall s: Stack {:trigger Step(env, Do(TxInputIndex), At(s))} ::
              Step(env, Do(TxInputIndex), At(s)) == At(Push(Enc(env.index), s))
    ensures forall s: Stack {:trigger Step(env, Do(TxOutputCount), At(s))} ::
              Step(env, Do(TxOutputCount), At(s)) == At(Push(Enc(|env.outputs|), s))
    ensures forall n: nat, s: Stack {:trigger Step(env, Do(TxInputAmount), At(Push(Enc(n), s)))} ::
              n < |env.inputs| ==>
                  Step(env, Do(TxInputAmount), At(Push(Enc(n), s))) == At(Push(Enc(env.inputs[n].amount), s))
    ensures forall n: nat, s: Stack {:trigger Step(env, Do(TxInputSpk), At(Push(Enc(n), s)))} ::
              n < |env.inputs| ==> Step(env, Do(TxInputSpk), At(Push(Enc(n), s))) == At(Push(env.inputs[n].spk, s))
    ensures forall n: nat, s: Stack {:trigger Step(env, Do(TxOutputAmount), At(Push(Enc(n), s)))} ::
              Step(env, Do(TxOutputAmount), At(Push(Enc(n), s))) ==
              if n < |env.outputs| then At(Push(Enc(env.outputs[n].amount), s)) else Failed
    ensures forall n: nat, s: Stack {:trigger Step(env, Do(TxOutputSpk), At(Push(Enc(n), s)))} ::
              Step(env, Do(TxOutputSpk), At(Push(Enc(n), s))) ==
              if n < |env.outputs| then At(Push(env.outputs[n].spk, s)) else Failed
  {
    NumberFacts();
    hide Enc, Dec;
  }

  /** Covenant tags. */
  lemma {:induction false} TagRules(env: Env)
    ensures forall n: nat, s: Stack {:trigger Step(env, Do(InputCovenantId), At(Push(Enc(n), s)))} ::
              n < |env.inputs| ==>
                  Step(env, Do(InputCovenantId), At(Push(Enc(n), s))) == At(Push(TagOf(env.inputs[n]), s))
    ensures forall a: seq<byte>, s: Stack {:trigger Step(env, Do(CovInputCount), At(Push(a, s)))} ::
              Step(env, Do(CovInputCount), At(Push(a, s))) == At(Push(Enc(|InputsTagged(env.inputs, a)|), s))
    ensures forall a: seq<byte>, s: Stack {:trigger Step(env, Do(CovOutputCount), At(Push(a, s)))} ::
              Step(env, Do(CovOutputCount), At(Push(a, s))) == At(Push(Enc(|OutputsTagged(env.outputs, a)|), s))
    ensures forall a: seq<byte>, s: Stack {:trigger Step(env, Do(CovInputIdx), At(Push(Enc(0), Push(a, s))))} ::
              Step(env, Do(CovInputIdx), At(Push(Enc(0), Push(a, s)))) ==
              if |InputsTagged(env.inputs, a)| > 0 then At(Push(Enc(InputsTagged(env.inputs, a)[0]), s)) else Failed
    ensures forall a: seq<byte>, s: Stack {:trigger Step(env, Do(CovOutputIdx), At(Push(Enc(0), Push(a, s))))} ::
              Step(env, Do(CovOutputIdx), At(Push(Enc(0), Push(a, s)))) ==
              if |OutputsTagged(env.outputs, a)| > 0 then At(Push(Enc(OutputsTagged(env.outputs, a)[0]), s)) else Failed
  {
    NumberFacts();
    hide Enc, Dec, TagOf, InputsTagged, OutputsTagged;
  }

  /** The engine's oracles. */
  lemma {:induction false} OracleRules(env: Env)
    ensures forall k: seq<byte>, g: seq<byte>, s: Stack {:trigger Step(env, Do(CheckSig), At(Push(k, Push(g, s))))} ::
              Step(env, Do(CheckSig), At(Push(k, Push(g, s)))) == At(Push(Flag(env.checkSig(g, k)), s))
    ensures forall k: seq<byte>, g: seq<byte>,
              s: Stack {:trigger Step(env, Do(CheckSigVerify), At(Push(k, Push(g, s))))} ::
              Step(env, Do(CheckSigVerify), At(Push(k, Push(g, s)))) == if env.checkSig(g, k) then At(s) else Failed
    ensures forall k: seq<byte> {:trigger Step(env, Do(CheckSigVerify), At(Push(k, Nil)))} ::
              Step(env, Do(CheckSigVerify), At(Push(k, Nil))) == Failed
    ensures forall k: seq<byte> {:trigger Step(env, Do(CheckSig), At(Push(k, Nil)))} ::
              Step(env, Do(CheckSig), At(Push(k, Nil))) == Failed
    ensures forall n: int, s: Stack {:trigger Step(env, Do(CheckLockTimeVerify), At(Push(Enc(n), s)))} ::
              Step(env, Do(CheckLockTimeVerify), At(Push(Enc(n), s))) == if env.lockTimeOk(n) then At(s) else Failed
    ensures forall n: int, s: Stack {:trigger Step(env, Do(CheckSequenceVerify), At(Push(Enc(n), s)))} ::
              Step(env, Do(CheckSequenceVerify), At(Push(Enc(n), s))) == if env.sequenceOk(n) then At(s) else Failed
    ensures forall a: seq<byte>, s: Stack {:trigger Step(env, Do(Sha256), At(Push(a, s)))} ::
              Step(env, Do(Sha256), At(Push(a, s))) == At(Push(env.sha256(a), s))
    ensures forall a: seq<byte>, s: Stack {:trigger Step(env, Do(Blake2b), At(Push(a, s)))} ::
              Step(env, Do(Blake2b), At(Push(a, s))) == At(Push(env.blake2b(a), s))
  {
    NumberFacts();
    hide Enc, Dec;
  }

  /** Encoded numbers are equal as bytes exactly when they are equal. */
  lemma {:induction false} EqualNumbers()
    ensures forall a: int, b: int {:trigger Enc(a), Enc(b)} :: Enc(a) == Enc(b) <==> a == b
  {
    forall a: int, b: int
      ensures Enc(a) == Enc(b) <==> a == b
    {
      EncInjective(a, b);
    }
  }
}
