/** What a signature script of pushes reveals, and the stack it leaves. */
module ScriptSpend {
  import opened Bytes
  import opened ScriptNumbers
  import opened ScriptTokens
  import opened ScriptMachine
  import opened ScriptCode

  lemma {:induction false} ItemsConcat(a: seq<Tok>, b: seq<Tok>, s: Stack)
    requires PushesOnly(a) && PushesOnly(b)
    ensures PushesOnly(a + b) && Items(a + b, s) == Items(b, Items(a, s))
  {
    if a == [] {
      assert a + b == b;
    } else {
      assert (a + b)[1..] == a[1..] + b;
      ItemsConcat(a[1..], b, Push(Pushed(a[0]).value, s));
    }
  }

  lemma {:induction false} ItemsOne(ts: seq<Tok>, d: seq<byte>, s: Stack)
    requires |d| < U32_LIMIT && ts == [DataTok(d)]
    ensures PushesOnly(ts) && Items(ts, s) == Push(d, s)
  {
    PushedData(d);
    assert ts[1..] == [];
    hide DataTok, Pushed;
  }

  /** A signature script of data pushes reveals its last push on a stack of the others. */
  lemma {:induction false} SpendIs(env: Env, ts: seq<Tok>, redeem: seq<byte>, s: Stack)
    requires env.Valid() && ToksOk(ts) && |ts| > 0 && PushesOnly(ts) && env.Self().sigScript == Assemble(ts)
    requires Pushed(ts[|ts| - 1]).value == redeem && Items(ts[..|ts| - 1], Nil) == s
    requires env.Self().spk == P2sh(env.blake2b(redeem))
    ensures SpendOk(env) <==> Accepts(env, redeem, s)
    ensures ts[|ts| - 1].Data? ==> Ends(env.Self().sigScript, redeem)
  {
    ParseAssemble(ts);
    if ts[|ts| - 1].Data? {
      LastPushEnds(ts);
    }
    hide Assemble, ToksOk, Accepts, P2sh, Ends;
  }

  /** The signature script of one signature: it and then the script it spends. */
  function SignedSpend(sig: seq<byte>, redeem: seq<byte>): seq<byte>
    requires |sig| < U32_LIMIT && |redeem| < U32_LIMIT
  {
    SignedPushes(sig, redeem);
    Assemble([DataTok(sig), DataTok(redeem)])
  }

  lemma {:induction false} SignedPushes(sig: seq<byte>, redeem: seq<byte>)
    requires |sig| < U32_LIMIT && |redeem| < U32_LIMIT
    ensures ToksOk([DataTok(sig), DataTok(redeem)]) && PushesOnly([DataTok(sig), DataTok(redeem)])
  {
    PushFacts();
    PlainToks();
    hide DataTok, Pushed, IsControl;
  }

  lemma {:induction false} SignedSpendIs(env: Env, sig: seq<byte>, redeem: seq<byte>)
    requires env.Valid() && |sig| < U32_LIMIT && |redeem| < U32_LIMIT
    requires env.Self().sigScript == SignedSpend(sig, redeem) && env.Self().spk == P2sh(env.blake2b(redeem))
    ensures SpendOk(env) <==> Accepts(env, redeem, Push(sig, Nil))
  {
    var ts := [DataTok(sig), DataTok(redeem)];
    SignedPushes(sig, redeem);
    PushedData(redeem);
    ItemsOne([DataTok(sig)], sig, Nil);
    hide DataTok, Pushed, Assemble, ToksOk, PushesOnly, SpendOk, Accepts, P2sh, Items;
    assert ts[..1] == [DataTok(sig)];
    SpendIs(env, ts, redeem, Push(sig, Nil));
  }
}
