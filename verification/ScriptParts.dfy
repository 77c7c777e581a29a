/** Blocks that several covenants share: the salt, the signature check and the final true. */
module ScriptParts {
  import opened Bytes
  import opened ScriptNumbers
  import opened ScriptTokens
  import opened ScriptMachine
  import opened ScriptCode
  import opened ScriptRules

  type Key = s: seq<byte> | |s| == 32 witness seq(32, i => 0)
  type Salt = s: seq<byte> | |s| == 8 witness seq(8, i => 0)

  function Salted(salt: Salt): seq<Tok> {
    [DataTok(salt), Do(Drop)]
  }

  function Signed(key: Key): seq<Tok> {
    [DataTok(key), Do(CheckSigVerify)]
  }

  function One(): seq<Tok> {
    [IntTok(1)]
  }

  lemma {:induction false} PartsOk(key: Key, salt: Salt)
    ensures CodeOk(Line(Salted(salt))) && CodeOk(Line(Signed(key))) && CodeOk(Line(One()))
  {
    PlainToks();
    hide Plain, CodeOk, IntTok, DataTok, TokLen, Len, TokOk, ToksOk, Enc, Mag;
    PlainLine(Salted(salt));
    PlainLine(Signed(key));
    PlainLine(One());
  }

  lemma {:induction false} SaltedMeans(env: Env, salt: Salt, s: Stack)
    ensures Steps(env, Salted(salt), At(s)) == At(s)
  {
    StackRules(env);
    hide Step, Steps, DataTok, IntTok, Enc;
    StepsTo8(env, Salted(salt), At(s));
  }

  lemma {:induction false} SignedMeans(env: Env, key: Key, s: Stack)
    ensures Steps(env, Signed(key), At(s)) == if s.Push? && env.checkSig(s.top, key) then At(s.rest) else Failed
  {
    StackRules(env);
    OracleRules(env);
    hide Step, Steps, DataTok, IntTok, Enc;
    StepsTo8(env, Signed(key), At(s));
  }

  lemma {:induction false} OneMeans(env: Env, s: Stack)
    ensures Steps(env, One(), At(s)) == At(Push([1], s)) && (Clean(At(Push([1], s))) <==> s.Nil?)
  {
    StackRules(env);
    FlagIsNumber(true);
    hide Step, Steps, DataTok, IntTok, Enc, Truthy;
    StepsTo8(env, One(), At(s));
  }
}
