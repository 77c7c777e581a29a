/** The oracle covenant: it replicates itself, and what whole runs of it keep. */
module Oracle {
  import opened Bytes
  import opened ScriptNumbers
  import opened ScriptTokens
  import opened ScriptMachine
  import opened ScriptCode
  import opened ScriptRules
  import opened OracleScript
  import opened OracleRoll

  /** A journal's first two fields. */
  function JournalPrice(journal: seq<byte>): (p: nat)
    requires |journal| >= 48
    ensures p < U64_LIMIT
  {
    Le64Of(journal[0..8]);
    LeVal(journal[0..8])
  }

  function JournalTime(journal: seq<byte>): (t: nat)
    requires |journal| >= 48
    ensures t < U64_LIMIT
  {
    Le64Of(journal[8..16]);
    LeVal(journal[8..16])
  }

  /** A time as the engine compares it: the eight bytes as a signed script number. */
  function Signed(t: nat): int
    requires t < U64_LIMIT
  {
    Dec(Le64(t))
  }

  lemma {:induction false} JournalFields(journal: seq<byte>)
    requires |journal| >= 48
    ensures journal[0..8] == Le64(JournalPrice(journal)) && journal[8..16] == Le64(JournalTime(journal))
    ensures 1 <= Dec(journal[0..8]) <= MAX_PRICE <==> 1 <= JournalPrice(journal) <= MAX_PRICE
  {
    Le64Of(journal[0..8]);
    Le64Of(journal[8..16]);
    DecOfField(JournalPrice(journal));
    hide LeVal, Dec, Le64;
  }

  /** A roll of an oracle at time `t`: a proved journal of the pinned program, not older, whose state goes on. */
  ghost predicate Rolls(env: Env, t: nat, ps: Params, s: Stack)
    requires env.Valid() && t < U64_LIMIT
  {
    && s.Push? && |s.top| >= 48
    && |InputsTagged(env.inputs, ps.heartbeat)| == 1
    && s.top[16..48] == ps.setRoot
    && 1 <= JournalPrice(s.top) <= MAX_PRICE
    && Signed(t) <= Signed(JournalTime(s.top))
    && Settles(env, Redeem(JournalPrice(s.top), JournalTime(s.top), ps))
    && Proved(env, ps, s.top, s.rest)
    && Take(s.rest, 4).value.1.Nil?
  }

  /** A revealed script's own bytes are where the branches look for them. */
  lemma {:induction false} OwnBytes(sig: seq<byte>, price: nat, t: nat, ps: Params)
    requires price < U64_LIMIT && t < U64_LIMIT && Ends(sig, Redeem(price, t, ps))
    ensures |sig| >= REDEEM_LEN && OldTime(sig) == Le64(t) && Tail(sig) == Body(ps)
  {
    RedeemFields(price, t, ps);
    var r := Redeem(price, t, ps);
    hide Redeem, Body, Le64;
    var k := |sig| - |r|;
    assert sig[k..] == r;
    SubCut(sig, k, 11, 19);
    assert Tail(sig) == r[20..];
  }

  lemma SubCut(b: seq<byte>, k: nat, i: nat, j: nat)
    requires k <= |b| && i <= j <= |b| - k
    ensures b[k..][i..j] == b[k + i..k + j]
  {
  }

  /** The script the ROLL branch rebuilds is the oracle's own, at the journal's state. */
  lemma {:induction false} RebuiltIsRedeem(sig: seq<byte>, price: nat, t: nat, ps: Params, journal: seq<byte>)
    requires price < U64_LIMIT && t < U64_LIMIT && Ends(sig, Redeem(price, t, ps)) && |journal| >= 48
    ensures |sig| >= BODY_LEN
    ensures Rebuilt(sig, journal) == Redeem(JournalPrice(journal), JournalTime(journal), ps)
  {
    OwnBytes(sig, price, t, ps);
    JournalFields(journal);
    RedeemBytes(JournalPrice(journal), JournalTime(journal), ps);
    hide Redeem, Body, Le64, Tail, PrefixBytes, Ends;
  }

  lemma {:induction false} RollIs(env: Env, price: nat, t: nat, ps: Params, s: Stack)
    requires env.Valid() && price < U64_LIMIT && t < U64_LIMIT && Ends(env.Self().sigScript, Redeem(price, t, ps))
    ensures Rolls(env, t, ps, s) <==> RollOk(env, ps, s) && Take(s.rest, 4).value.1.Nil?
  {
    OwnBytes(env.Self().sigScript, price, t, ps);
    if s.Push? && |s.top| >= 48 {
      JournalFields(s.top);
      RebuiltIsRedeem(env.Self().sigScript, price, t, ps, s.top);
    }
    hide Redeem, Settles, Proved, Take, InputsTagged, Dec, Le64, LeVal, Rebuilt, OldTime, Ends, Tail;
  }

  lemma {:induction false} PrefixMeans(env: Env, price: nat, t: nat, s: Stack)
    requires price < U64_LIMIT && t < U64_LIMIT
    ensures Steps(env, Prefix(price, t), At(s)) == At(s)
  {
    StackRules(env);
    hide Step, Steps, DataTok, IntTok, Enc, Le64;
    StepsTo8(env, Prefix(price, t), At(s));
  }

  lemma {:induction false} CleanOne(s: Stack)
    ensures Clean(At(Push(Enc(1), s))) <==> s.Nil?
  {
    FlagIsNumber(true);
  }

  /**
   * The oracle's redeem script, revealed as the last push, accepts exactly the rolls and the
   * passthroughs. In a roll output 0 is the P2SH of the same script at the journal's price and
   * time: the script replicates itself.
   */
  lemma {:induction false} OracleAccepts(env: Env, price: nat, t: nat, ps: Params, s: Stack)
    requires env.Valid() && price < U64_LIMIT && t < U64_LIMIT && Ends(env.Self().sigScript, Redeem(price, t, ps))
    ensures Accepts(env, Redeem(price, t, ps), s) <==>
            && s.Push?
            && if Truthy(s.top) then Rolls(env, t, ps, s.rest) else PassOk(env) && s.rest.Nil?
  {
    RedeemOk(price, t, ps);
    AcceptsCompiled(env, RedeemCode(price, t, ps), s);
    var yes, no := Line(Roll(ps)), Line(Passthrough());
    hide Exec, Steps, Accepts, Roll, Passthrough, Prefix, Truthy, Clean, Rolls, PassOk, RollOk, Enc, Assemble,
         Flatten, ToksOk, Take;
    ExecLineThen(env, Prefix(price, t), Branch(yes, no), At(s));
    PrefixMeans(env, price, t, s);
    ExecBranchNil(env, yes, no);
    assert !Clean(Failed) by {
      NotClean();
    }
    if s.Push? {
      ExecBranch(env, yes, no, s.top, s.rest);
      ExecLine(env, Roll(ps), At(s.rest));
      ExecLine(env, Passthrough(), At(s.rest));
      RollMeans(env, ps, s.rest);
      PassMeans(env, s.rest);
      RollIs(env, price, t, ps, s.rest);
      CleanOne(s.rest);
      if RollOk(env, ps, s.rest) {
        RollNeedsFields(env, ps, s.rest);
        CleanOne(Take(s.rest.rest, 4).value.1);
      }
    }
  }

  lemma NotClean()
    ensures !Clean(Failed)
  {
  }

  lemma {:induction false} RollNeedsFields(env: Env, ps: Params, s: Stack)
    requires env.Valid() && RollOk(env, ps, s)
    ensures s.Push? && Take(s.rest, 4).Some?
  {
    hide JournalHolds, Settles, Take;
  }

  // ---- whole runs ----

  /** `env` accepts a spend of the oracle with id `id`, whose only tagged output is output 0. */
  ghost predicate OracleSpend(env: Env, id: Hash, ps: Params) {
    && env.Valid() && SpendOk(env)
    && env.Self().tag == Some(id)
    && OutputsTagged(env.outputs, id) == [0]
    && forall p, t {:trigger Redeem(p, t, ps)} :: 0 <= p < U64_LIMIT && 0 <= t < U64_LIMIT ==>
        NoCollision(env, Redeem(p, t, ps))
  }

  /** The spent output is the oracle at `price` and `t`. */
  ghost predicate AtState(env: Env, price: nat, t: nat, ps: Params) {
    && env.Valid() && price < U64_LIMIT && t < U64_LIMIT
    && env.Self().spk == P2sh(env.blake2b(Redeem(price, t, ps)))
  }

  /** One spend of the oracle: where it goes next. */
  lemma {:induction false} OracleStep(env: Env, id: Hash, price: nat, t: nat, ps: Params) returns (price2: nat, t2: nat)
    requires OracleSpend(env, id, ps) && AtState(env, price, t, ps)
    ensures price2 < U64_LIMIT && t2 < U64_LIMIT && |env.outputs| > 0
    ensures env.outputs[0].spk == P2sh(env.blake2b(Redeem(price2, t2, ps))) && env.outputs[0].tag == Some(id)
    ensures env.outputs[0].amount >= env.Self().amount - MAX_FEE
    ensures Signed(t) <= Signed(t2)
    ensures (price2 == price && t2 == t) || 1 <= price2 <= MAX_PRICE
  {
    var script := Redeem(price, t, ps);
    assert |script| == REDEEM_LEN by {
      RedeemBytes(price, t, ps);
    }
    OutputsTaggedAre(env.outputs, id, 0);
    hide Redeem, Accepts, SpendOk, JournalTime, JournalPrice, Truthy, OutputsTagged, InputsTagged, Dec, Le64, Proved,
         Take, P2sh;
    var s := SpendRuns(env, script);
    OracleAccepts(env, price, t, ps, s);
    if Truthy(s.top) {
      price2, t2 := JournalPrice(s.rest.top), JournalTime(s.rest.top);
    } else {
      price2, t2 := price, t;
    }
  }

  ghost predicate Continues(envs: seq<Env>, k: nat) {
    k + 1 < |envs| && envs[k + 1].Valid() && SpendsOutput(envs[k], envs[k + 1], 0)
        && envs[k + 1].blake2b == envs[k].blake2b
  }

  /** Successive spends of one oracle. */
  ghost predicate OracleRun(envs: seq<Env>, id: Hash, ps: Params) {
    && (forall k :: 0 <= k < |envs| ==> OracleSpend(envs[k], id, ps))
    && (forall k :: 0 <= k < |envs| - 1 ==> Continues(envs, k))
  }

  /** States `prices` and `times` describe the run: each spend's state, and the one it leaves. */
  ghost predicate Describes(envs: seq<Env>, ps: Params, prices: seq<nat>, times: seq<nat>) {
    && |prices| == |times| == |envs| + 1
    && (forall k :: 0 <= k < |times| ==> times[k] < U64_LIMIT)
    && (forall k :: 0 <= k < |envs| ==> AtState(envs[k], prices[k], times[k], ps))
  }

  /** One spend: only a roll changes the state, into the price range; time does not go back; the fee is capped. */
  ghost predicate Moves(env: Env, price: nat, t: nat, price2: nat, t2: nat) {
    && env.Valid() && |env.outputs| > 0 && t < U64_LIMIT && t2 < U64_LIMIT
    && Signed(t) <= Signed(t2)
    && ((price2 == price && t2 == t) || 1 <= price2 <= MAX_PRICE)
    && env.outputs[0].amount >= env.Self().amount - MAX_FEE
  }

  ghost predicate Steady(envs: seq<Env>, prices: seq<nat>, times: seq<nat>) {
    && |prices| == |times| == |envs| + 1
    && forall k {:trigger envs[k]} :: 0 <= k < |envs| ==>
        Moves(envs[k], prices[k], times[k], prices[k + 1], times[k + 1])
  }

  /** Over any run of rolls and passthroughs. */
  lemma {:induction false} OracleRuns(envs: seq<Env>, id: Hash, ps: Params, price: nat, t: nat)
    returns (prices: seq<nat>, times: seq<nat>)
    requires |envs| > 0 && OracleRun(envs, id, ps) && AtState(envs[0], price, t, ps)
    ensures Describes(envs, ps, prices, times) && prices[0] == price && times[0] == t
    ensures Steady(envs, prices, times)
    ensures |envs[|envs| - 1].outputs| > 0 && prices[|envs|] < U64_LIMIT
    ensures envs[|envs| - 1].outputs[0].spk == P2sh(envs[|envs| - 1].blake2b(Redeem(prices[|envs|], times[|envs|], ps)))
  {
    hide Redeem, SpendOk, NoCollision, OutputsTagged, Signed, P2sh;
    var n := |envs| - 1;
    if n == 0 {
      var p2, t2 := OracleStep(envs[0], id, price, t, ps);
      prices, times := [price, p2], [t, t2];
    } else {
      var front := envs[..n];
      assert forall k :: 0 <= k < n - 1 && Continues(envs, k) ==> Continues(front, k);
      prices, times := OracleRuns(front, id, ps, price, t);
      assert Continues(envs, n - 1);
      var p2, t2 := OracleStep(envs[n], id, prices[n], times[n], ps);
      Extended(envs, front, ps, prices, times, p2, t2);
      prices, times := prices + [p2], times + [t2];
    }
  }

  lemma {:induction false} Extended(envs: seq<Env>, front: seq<Env>, ps: Params, prices: seq<nat>, times: seq<nat>,
          p2: nat, t2: nat)
    requires |envs| > 0 && front == envs[..|envs| - 1] && t2 < U64_LIMIT
    requires Describes(front, ps, prices, times) && Steady(front, prices, times)
    requires AtState(envs[|envs| - 1], prices[|envs| - 1], times[|envs| - 1], ps)
    requires Moves(envs[|envs| - 1], prices[|envs| - 1], times[|envs| - 1], p2, t2)
    ensures Describes(envs, ps, prices + [p2], times + [t2]) && Steady(envs, prices + [p2], times + [t2])
  {
    hide Moves, AtState;
    forall k | 0 <= k < |envs|
      ensures AtState(envs[k], (prices + [p2])[k], (times + [t2])[k], ps)
      ensures Moves(envs[k], (prices + [p2])[k], (times + [t2])[k], (prices + [p2])[k + 1], (times + [t2])[k + 1])
    {
      if k < |envs| - 1 {
        assert front[k] == envs[k];
      }
    }
  }

  /** Times never go back over a whole run, as script numbers. */
  lemma {:induction false} TimesMonotone(envs: seq<Env>, prices: seq<nat>, times: seq<nat>, i: nat, j: nat)
    requires Steady(envs, prices, times) && i <= j <= |envs| && forall k :: 0 <= k < |times| ==> times[k] < U64_LIMIT
    ensures Signed(times[i]) <= Signed(times[j])
  {
    hide Signed;
    if i < j {
      TimesMonotone(envs, prices, times, i, j - 1);
      assert Moves(envs[j - 1], prices[j - 1], times[j - 1], prices[j - 1 + 1], times[j - 1 + 1]);
    }
  }

  // ---- the read ----

  function LocateOracle(id: Hash): seq<Tok> {
    [DataTok(id), IntTok(0), Do(CovInputIdx), Do(Dup)]
  }

  /** Bounds of bytes `i..j` of the redeem script at the end of an input's signature script. */
  function RevealBounds(i: nat, j: nat): seq<Tok>
    requires i <= REDEEM_LEN && j <= REDEEM_LEN
  {
    [Do(Dup), Do(TxInputScriptSigLen), Do(Dup), IntTok(REDEEM_LEN - j), Do(Sub), Do(Swap), IntTok(REDEEM_LEN - i),
        Do(Sub)]
  }

  function CutPrice(): seq<Tok> {
    [Do(Swap), Do(TxInputScriptSigSubstr), Do(Swap)]
  }

  function CutTime(): seq<Tok> {
    [Do(Swap), Do(TxInputScriptSigSubstr)]
  }

  /** `push_oracle_mb_read`. */
  function Read(id: Hash): seq<Tok> {
    LocateOracle(id) + RevealBounds(1, 9) + CutPrice() + RevealBounds(11, 19) + CutTime()
  }

  lemma {:induction false} LocateMeans(env: Env, id: Hash, s: Stack)
    ensures
      var tagged := InputsTagged(env.inputs, id);
      Steps(env, LocateOracle(id), At(s)) == if |tagged| > 0 then At(Push(Enc(tagged[0]), Push(Enc(tagged[0]), s)))
          else Failed
  {
    StackRules(env);
    TagRules(env);
    hide Step, Steps, Enc, Dec, Flag, IntTok, DataTok, InputsTagged, OutputsTagged;
    StepsTo8(env, LocateOracle(id), At(s));
  }

  lemma {:induction false} RevealBoundsMean(env: Env, i: nat, j: nat, n: nat, s: Stack)
    requires i <= REDEEM_LEN && j <= REDEEM_LEN && n < |env.inputs|
    ensures
      var len := |env.inputs[n].sigScript|;
      Steps(env, RevealBounds(i, j), At(Push(Enc(n), s))) ==
      At(Push(Enc(len - (REDEEM_LEN - i)), Push(Enc(len - (REDEEM_LEN - j)), Push(Enc(n), s))))
  {
    StackRules(env);
    SliceRules(env);
    NumberRules(env);
    hide Step, Steps, Enc, Dec, Flag, IntTok, DataTok;
    StepsTo8(env, RevealBounds(i, j), At(Push(Enc(n), s)));
  }

  /** Bytes `i..j` of the redeem script at the end of `sig`. */
  function Revealed(sig: seq<byte>, i: nat, j: nat): seq<byte>
    requires i <= j <= REDEEM_LEN <= |sig|
  {
    sig[|sig| - (REDEEM_LEN - i)..|sig| - (REDEEM_LEN - j)]
  }

  lemma {:induction false} CutsMean(env: Env, i: nat, j: nat, n: nat, m: seq<byte>, s: Stack)
    requires n < |env.inputs| && i <= j <= REDEEM_LEN <= |env.inputs[n].sigScript|
    ensures
      var sig := env.inputs[n].sigScript;
      var bounds := Push(Enc(|sig| - (REDEEM_LEN - i)), Push(Enc(|sig| - (REDEEM_LEN - j)), Push(Enc(n), Push(m, s))));
      && Steps(env, CutPrice(), At(bounds)) == At(Push(m, Push(Revealed(sig, i, j), s)))
      && Steps(env, CutTime(), At(bounds)) == At(Push(Revealed(sig, i, j), Push(m, s)))
  {
    StackRules(env);
    SliceRules(env);
    hide Step, Steps, Enc, Dec, Flag, IntTok, DataTok;
    var sig := env.inputs[n].sigScript;
    var bounds := Push(Enc(|sig| - (REDEEM_LEN - i)), Push(Enc(|sig| - (REDEEM_LEN - j)), Push(Enc(n), Push(m, s))));
    StepsTo8(env, CutPrice(), At(bounds));
    StepsTo8(env, CutTime(), At(bounds));
  }

  lemma {:induction false} RevealedFields(sig: seq<byte>, price: nat, t: nat, ps: Params)
    requires price < U64_LIMIT && t < U64_LIMIT && Ends(sig, Redeem(price, t, ps))
    ensures |sig| >= REDEEM_LEN && Revealed(sig, 1, 9) == Le64(price) && Revealed(sig, 11, 19) == Le64(t)
  {
    RedeemFields(price, t, ps);
    var k := |sig| - REDEEM_LEN;
    hide Redeem, Le64, Body;
    SubCut(sig, k, 1, 9);
    SubCut(sig, k, 11, 19);
  }

  lemma {:induction false} ReadPriceMeans(env: Env, n: nat, id: Hash, price: nat, t: nat, ps: Params, s: Stack)
    requires price < U64_LIMIT && t < U64_LIMIT && n < |env.inputs|
              && Ends(env.inputs[n].sigScript, Redeem(price, t, ps))
    requires Steps(env, LocateOracle(id), At(s)) == At(Push(Enc(n), Push(Enc(n), s)))
    ensures Steps(env, LocateOracle(id) + RevealBounds(1, 9) + CutPrice(), At(s))
              == At(Push(Enc(n), Push(Le64(price), s)))
  {
    hide Steps, LocateOracle, RevealBounds, CutPrice, CutTime, Enc, Mag, Le64, Redeem, Ends, Revealed, LeBytes;
    RevealedFields(env.inputs[n].sigScript, price, t, ps);
    StepsConcat(env, LocateOracle(id), RevealBounds(1, 9), At(s));
    StepsConcat(env, LocateOracle(id) + RevealBounds(1, 9), CutPrice(), At(s));
    RevealBoundsMean(env, 1, 9, n, Push(Enc(n), s));
    CutsMean(env, 1, 9, n, Enc(n), s);
  }

  lemma {:induction false} ReadTimeMeans(env: Env, n: nat, price: nat, t: nat, ps: Params, s: Stack)
    requires price < U64_LIMIT && t < U64_LIMIT && n < |env.inputs|
              && Ends(env.inputs[n].sigScript, Redeem(price, t, ps))
    ensures Steps(env, CutTime(), Steps(env, RevealBounds(11, 19), At(Push(Enc(n), Push(Le64(price), s))))) ==
            At(Push(Le64(t), Push(Le64(price), s)))
  {
    hide Steps, LocateOracle, RevealBounds, CutPrice, CutTime, Enc, Mag, Le64, Redeem, Ends, Revealed, LeBytes;
    RevealedFields(env.inputs[n].sigScript, price, t, ps);
    RevealBoundsMean(env, 11, 19, n, Push(Le64(price), s));
    CutsMean(env, 11, 19, n, Le64(price), s);
  }

  /** The read finds the oracle by its id and leaves exactly its price and time, the time on top. */
  lemma {:induction false} ReadMeans(env: Env, id: Hash, price: nat, t: nat, ps: Params, s: Stack)
    requires price < U64_LIMIT && t < U64_LIMIT
    requires |InputsTagged(env.inputs, id)| > 0
    requires InputsTagged(env.inputs, id)[0] < |env.inputs|
    requires Ends(env.inputs[InputsTagged(env.inputs, id)[0]].sigScript, Redeem(price, t, ps))
    ensures Steps(env, Read(id), At(s)) == At(Push(Le64(t), Push(Le64(price), s)))
  {
    var n := InputsTagged(env.inputs, id)[0];
    var front := LocateOracle(id) + RevealBounds(1, 9) + CutPrice();
    StepsConcat(env, front, RevealBounds(11, 19), At(s));
    StepsConcat(env, front + RevealBounds(11, 19), CutTime(), At(s));
    LocateMeans(env, id, s);
    hide Steps, LocateOracle, RevealBounds, CutPrice, CutTime, Enc, Le64, Redeem, Ends, InputsTagged;
    ReadPriceMeans(env, n, id, price, t, ps, s);
    ReadTimeMeans(env, n, price, t, ps, s);
  }

  /** With no input of the lineage the read fails. */
  lemma {:induction false} ReadNeedsOracle(env: Env, id: Hash, s: Stack)
    requires InputsTagged(env.inputs, id) == []
    ensures Steps(env, Read(id), At(s)) == Failed
  {
    var b1 := LocateOracle(id) + RevealBounds(1, 9);
    var b2 := b1 + CutPrice();
    StepsConcat(env, LocateOracle(id), RevealBounds(1, 9), At(s));
    StepsConcat(env, b1, CutPrice(), At(s));
    StepsConcat(env, b2, RevealBounds(11, 19), At(s));
    StepsConcat(env, b2 + RevealBounds(11, 19), CutTime(), At(s));
    LocateMeans(env, id, s);
    FailureStays(env);
    hide Steps, LocateOracle, RevealBounds, CutPrice, CutTime, InputsTagged;
  }

  /** The transaction as the script of input `n` sees it. */
  function As(env: Env, n: nat): Env {
    env.(index := n)
  }

  /** What a consumer reads is the state the oracle was spent from, because the oracle's own input is a valid spend. */
  lemma {:induction false} ReadsTheState(env: Env, id: Hash, price: nat, t: nat, ps: Params, s: Stack)
    requires price < U64_LIMIT && t < U64_LIMIT && |InputsTagged(env.inputs, id)| > 0
    requires var oracle := As(env, InputsTagged(env.inputs, id)[0]);
      oracle.Valid() && SpendOk(oracle) && AtState(oracle, price, t, ps) && NoCollision(oracle, Redeem(price, t, ps))
    ensures Steps(env, Read(id), At(s)) == At(Push(Le64(t), Push(Le64(price), s)))
  {
    var oracle := As(env, InputsTagged(env.inputs, id)[0]);
    RedeemBytes(price, t, ps);
    hide Redeem, Body, SpendOk, NoCollision, P2sh, InputsTagged, Le64, Accepts;
    var stack := SpendRuns(oracle, Redeem(price, t, ps));
    ReadMeans(env, id, price, t, ps, s);
  }
}
