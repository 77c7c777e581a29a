/** What the oracle's two branches demand of a spend, block by block. */
module OracleRoll {
  import opened Bytes
  import opened ScriptNumbers
  import opened ScriptTokens
  import opened ScriptMachine
  import opened ScriptCode
  import opened ScriptRules
  import opened OracleScript

  // ---- the checks on the journal ----

  lemma {:induction false} CoRollMeans(env: Env, ps: Params, s: Stack)
    ensures Steps(env, CoRoll(ps), At(s)) == if |InputsTagged(env.inputs, ps.heartbeat)| == 1 then At(s) else Failed
  {
    StackRules(env);
    TagRules(env);
    NumberRules(env);
    hide Step, Steps, Enc, Dec, Flag, IntTok, DataTok, InputsTagged, OutputsTagged;
    StepsTo8(env, CoRoll(ps), At(s));
  }

  lemma {:induction false} FieldMeans(env: Env, i: nat, j: nat, b: seq<byte>, s: Stack)
    requires i <= j < 0x100
    ensures Steps(env, Field(0, i, j), At(Push(b, s))) == if j <= |b| then At(Push(b[i..j], Push(b, s))) else Failed
  {
    StackRules(env);
    PickRules(env);
    SliceRules(env);
    hide Step, Steps, Enc, Dec, Flag, IntTok, DataTok;
    StepsTo8(env, Field(0, i, j), At(Push(b, s)));
  }

  lemma {:induction false} FieldBelowMeans(env: Env, i: nat, j: nat, a: seq<byte>, b: seq<byte>, s: Stack)
    requires i <= j < 0x100
    ensures Steps(env, Field(1, i, j), At(Push(a, Push(b, s)))) ==
            if j <= |b| then At(Push(b[i..j], Push(a, Push(b, s)))) else Failed
  {
    StackRules(env);
    PickRules(env);
    SliceRules(env);
    hide Step, Steps, Enc, Dec, Flag, IntTok, DataTok;
    StepsTo8(env, Field(1, i, j), At(Push(a, Push(b, s))));
  }

  lemma {:induction false} FieldOfNothing(env: Env, i: nat, j: nat)
    requires i <= j < 0x100
    ensures Steps(env, Field(0, i, j), At(Nil)) == Failed
  {
    StackRules(env);
    NumberFacts();
    assert Step(env, Do(Pick), At(Push(Enc(0), Nil))) == Failed by {
      hide Enc, Dec;
    }
    hide Step, Steps, Enc, Dec, Flag, IntTok, DataTok;
    StepsTo8(env, Field(0, i, j), At(Nil));
  }

  lemma {:induction false} MustBeRootMeans(env: Env, ps: Params, b: seq<byte>, s: Stack)
    ensures Steps(env, MustBeRoot(ps), At(Push(b, s))) == if b == ps.setRoot then At(s) else Failed
  {
    StackRules(env);
    hide Step, Steps, Enc, Flag, IntTok, DataTok;
    StepsTo8(env, MustBeRoot(ps), At(Push(b, s)));
  }

  lemma {:induction false} InPriceRangeMeans(env: Env, b: seq<byte>, s: Stack)
    ensures Steps(env, InPriceRange(), At(Push(b, s))) == if 1 <= Dec(b) <= MAX_PRICE then At(s) else Failed
  {
    StackRules(env);
    NumberRules(env);
    hide Step, Steps, Enc, Dec, Flag, IntTok, DataTok, Mag;
    StepsTo8(env, InPriceRange(), At(Push(b, s)));
  }

  lemma {:induction false} OldTimeBoundsMean(env: Env, s: Stack)
    requires env.Valid()
    ensures
      var len := |env.Self().sigScript|;
      Steps(env, OldTimeBounds(), At(s)) ==
      At(Push(Enc(REDEEM_LEN - 19), Push(Enc(len), Push(Enc(len - (REDEEM_LEN - 11)), Push(Enc(env.index), s)))))
  {
    StackRules(env);
    TxRules(env);
    SliceRules(env);
    NumberRules(env);
    hide Step, Steps, Enc, Dec, Flag, IntTok, DataTok, Mag;
    StepsTo8(env, OldTimeBounds(), At(s));
  }

  /** The time the script was built with, read out of its own reveal. */
  function OldTime(sig: seq<byte>): seq<byte>
    requires |sig| >= REDEEM_LEN - 11
  {
    sig[|sig| - (REDEEM_LEN - 11)..|sig| - (REDEEM_LEN - 19)]
  }

  lemma {:induction false} NotOlderMeans(env: Env, b: seq<byte>, s: Stack)
    requires env.Valid()
    ensures
      var sig := env.Self().sigScript;
      Steps(env, NotOlder(),
          At(Push(Enc(REDEEM_LEN - 19),
              Push(Enc(|sig|), Push(Enc(|sig| - (REDEEM_LEN - 11)), Push(Enc(env.index), Push(b, s))))))) ==
      if |sig| >= REDEEM_LEN - 11 && Dec(b) >= Dec(OldTime(sig)) then At(s) else Failed
  {
    StackRules(env);
    SliceRules(env);
    NumberRules(env);
    hide Step, Steps, Enc, Dec, Flag, IntTok, DataTok, Mag;
    var sig := env.Self().sigScript;
    StepsTo8(env, NotOlder(),
        At(Push(Enc(REDEEM_LEN - 19),
            Push(Enc(|sig|), Push(Enc(|sig| - (REDEEM_LEN - 11)), Push(Enc(env.index), Push(b, s)))))));
  }

  /** What the journal must say. */
  ghost predicate JournalHolds(env: Env, ps: Params, journal: seq<byte>)
    requires env.Valid()
  {
    var sig := env.Self().sigScript;
    && |InputsTagged(env.inputs, ps.heartbeat)| == 1
    && |journal| >= 48
    && journal[16..48] == ps.setRoot
    && 1 <= Dec(journal[0..8]) <= MAX_PRICE
    && |sig| >= REDEEM_LEN - 11
    && Dec(journal[8..16]) >= Dec(OldTime(sig))
  }

  lemma {:induction false} JournalMeans(env: Env, ps: Params, journal: seq<byte>, s: Stack)
    requires env.Valid()
    ensures Steps(env, Journal(ps), At(Push(journal, s))) == if JournalHolds(env, ps, journal)
        then At(Push(journal, s)) else Failed
  {
    var st := At(Push(journal, s));
    FailureStays(env);
    var b1 := CoRoll(ps) + Field(0, 16, 48);
    var b2 := b1 + MustBeRoot(ps);
    var b3 := b2 + Field(0, 0, 8);
    var b4 := b3 + InPriceRange();
    var b5 := b4 + Field(0, 8, 16);
    var b6 := b5 + OldTimeBounds();
    assert Journal(ps) == b6 + NotOlder();
    StepsConcat(env, CoRoll(ps), Field(0, 16, 48), st);
    StepsConcat(env, b1, MustBeRoot(ps), st);
    StepsConcat(env, b2, Field(0, 0, 8), st);
    StepsConcat(env, b3, InPriceRange(), st);
    StepsConcat(env, b4, Field(0, 8, 16), st);
    StepsConcat(env, b5, OldTimeBounds(), st);
    StepsConcat(env, b6, NotOlder(), st);
    CoRollMeans(env, ps, st.stack);
    FieldMeans(env, 16, 48, journal, s);
    FieldMeans(env, 0, 8, journal, s);
    FieldMeans(env, 8, 16, journal, s);
    hide Steps, Journal, CoRoll, Field, MustBeRoot, InPriceRange, OldTimeBounds, NotOlder, InputsTagged, Dec, Enc,
         OldTime;
    if |journal| >= 48 {
      MustBeRootMeans(env, ps, journal[16..48], st.stack);
      InPriceRangeMeans(env, journal[0..8], st.stack);
      OldTimeBoundsMean(env, Push(journal[8..16], st.stack));
      NotOlderMeans(env, journal[8..16], st.stack);
    }
  }

  // ---- rebuilding the next redeem script ----

  lemma {:induction false} PrefixPartsMean(env: Env, p: seq<byte>, x: seq<byte>, s: Stack)
    ensures Steps(env, PrefixStart(), At(s)) == At(Push([0x08], s))
    ensures Steps(env, PrefixMiddle(), At(Push(p, Push([0x08], s)))) == At(Push([0x08] + p + [0x75, 0x08], s))
    ensures Steps(env, PrefixEnd(), At(Push(p, Push(x, s)))) == At(Push(x + p + [0x75], s))
  {
    StackRules(env);
    hide Step, Steps, Enc, Dec, Flag, IntTok, DataTok;
    StepsTo8(env, PrefixStart(), At(s));
    StepsTo8(env, PrefixMiddle(), At(Push(p, Push([0x08], s))));
    StepsTo8(env, PrefixEnd(), At(Push(p, Push(x, s))));
  }

  /** The last bytes of a signature script, where the revealed script's body is. */
  function Tail(sig: seq<byte>): seq<byte>
    requires |sig| >= BODY_LEN
  {
    sig[|sig| - BODY_LEN..]
  }

  /** The prefix of the state a journal announces. */
  function NextPrefix(journal: seq<byte>): seq<byte>
    requires |journal| >= 16
  {
    PrefixBytes(journal[0..8], journal[8..16])
  }

  /** The redeem script the ROLL branch rebuilds: the journal's state in front of the revealed script's own tail. */
  function Rebuilt(sig: seq<byte>, journal: seq<byte>): seq<byte>
    requires |journal| >= 16 && |sig| >= BODY_LEN
  {
    NextPrefix(journal) + Tail(sig)
  }

  lemma {:induction false} OwnBodyMeans(env: Env, s: Stack)
    requires env.Valid()
    ensures
      var sig := env.Self().sigScript;
      Steps(env, OwnBody(), At(s)) == if |sig| >= BODY_LEN then At(Push(Tail(sig), s)) else Failed
  {
    StackRules(env);
    TxRules(env);
    SliceRules(env);
    NumberRules(env);
    hide Step, Steps, Enc, Dec, Flag, IntTok, DataTok, Mag;
    StepsTo8(env, OwnBody(), At(s));
    WholeTail(env.Self().sigScript, BODY_LEN);
  }

  lemma WholeTail(b: seq<byte>, n: nat)
    ensures |b| >= n ==> b[|b| - n..] == b[|b| - n..|b|]
  {
  }

  lemma {:induction false} RebuildMeans(env: Env, journal: seq<byte>, s: Stack)
    requires env.Valid() && |journal| >= 16
    ensures
      var sig := env.Self().sigScript;
      Steps(env, Rebuild(), At(Push(journal, s))) ==
      if |sig| >= BODY_LEN then
        At(Push(Tail(sig), Push(NextPrefix(journal), Push(journal, s))))
      else Failed
  {
    var below := Push(journal, s);
    var st := At(below);
    var p, q := journal[0..8], journal[8..16];
    var x := [0x08] + p + [0x75, 0x08];
    var b1 := PrefixStart() + Field(1, 0, 8);
    var b2 := b1 + PrefixMiddle();
    var b3 := b2 + Field(1, 8, 16);
    var b4 := b3 + PrefixEnd();
    assert Rebuild() == b4 + OwnBody();
    StepsConcat(env, PrefixStart(), Field(1, 0, 8), st);
    StepsConcat(env, b1, PrefixMiddle(), st);
    StepsConcat(env, b2, Field(1, 8, 16), st);
    StepsConcat(env, b3, PrefixEnd(), st);
    StepsConcat(env, b4, OwnBody(), st);
    PrefixPartsMean(env, p, x, below);
    PrefixPartsMean(env, q, x, below);
    FieldBelowMeans(env, 0, 8, [0x08], journal, s);
    FieldBelowMeans(env, 8, 16, x, journal, s);
    OwnBodyMeans(env, Push(PrefixBytes(p, q), below));
    hide Steps, Rebuild, PrefixStart, Field, PrefixMiddle, PrefixEnd, OwnBody;
  }

  // ---- pinning the transaction ----

  lemma {:induction false} OneInputMeans(env: Env, own: seq<byte>, prefix: seq<byte>, s: Stack)
    requires env.Valid()
    ensures
      var id := TagOf(env.Self());
      Steps(env, OneInput(), At(Push(own, Push(prefix, s)))) ==
      if |InputsTagged(env.inputs, id)| == 1 then At(Push(id, Push(prefix + own, s))) else Failed
  {
    StackRules(env);
    TxRules(env);
    TagRules(env);
    NumberRules(env);
    hide Step, Steps, Enc, Dec, Flag, IntTok, DataTok, TagOf, InputsTagged, OutputsTagged;
    StepsTo8(env, OneInput(), At(Push(own, Push(prefix, s))));
  }

  lemma {:induction false} OneOutputMeans(env: Env, id: seq<byte>, s: Stack)
    ensures Steps(env, OneOutput(), At(Push(id, s))) == if |OutputsTagged(env.outputs, id)| == 1 then At(s) else Failed
  {
    StackRules(env);
    TagRules(env);
    NumberRules(env);
    hide Step, Steps, Enc, Dec, Flag, IntTok, DataTok, TagOf, InputsTagged, OutputsTagged;
    StepsTo8(env, OneOutput(), At(Push(id, s)));
  }

  lemma {:induction false} WrapHashMeans(env: Env, next: seq<byte>, s: Stack)
    ensures Steps(env, WrapHash(), At(Push(next, s))) ==
            At(Push([0xAA, 0x20] + (env.blake2b(next) + [0x87]), Push([0x00, 0x00], s)))
  {
    StackRules(env);
    OracleRules(env);
    hide Step, Steps, Enc, Dec, Flag, IntTok, DataTok;
    StepsTo8(env, WrapHash(), At(Push(next, s)));
  }

  lemma {:induction false} PaysNextMeans(env: Env, h: Hash, s: Stack)
    ensures Steps(env, PaysNext(), At(Push([0xAA, 0x20] + (h + [0x87]), Push([0x00, 0x00], s)))) ==
            if |env.outputs| > 0 && env.outputs[0].spk == P2sh(h) then At(s) else Failed
  {
    StackRules(env);
    TxRules(env);
    var zeros: seq<byte> := [0x00, 0x00];
    assert zeros + ([0xAA, 0x20] + (h + [0x87])) == P2sh(h);
    hide Step, Steps, Enc, Dec, Flag, IntTok, DataTok, P2sh;
    StepsTo8(env, PaysNext(), At(Push([0xAA, 0x20] + (h + [0x87]), Push([0x00, 0x00], s))));
  }

  lemma {:induction false} KeepsValueMeans(env: Env, s: Stack)
    requires env.Valid()
    ensures Steps(env, KeepsValue(), At(s)) ==
            if |env.outputs| > 0 && env.outputs[0].amount >= env.Self().amount - MAX_FEE then At(s) else Failed
  {
    StackRules(env);
    TxRules(env);
    NumberRules(env);
    hide Step, Steps, Enc, Dec, Flag, IntTok, DataTok, Mag;
    StepsTo8(env, KeepsValue(), At(s));
  }

  /** What is handed to the precompile, top first. */
  function ZkItems(env: Env, ps: Params, journal: seq<byte>, fields: seq<seq<byte>>): seq<seq<byte>> {
    [[ZK_TAG_RISC0], [ps.hashfn], ps.controlId, ps.imageId, env.sha256(journal)] + fields
  }

  lemma {:induction false} PrecompileMeans(env: Env, a: seq<byte>, b: seq<byte>, c: seq<byte>, d: seq<byte>,
          e: seq<byte>, s: Stack)
    ensures
      var fields := Take(s, 4);
      Step(env, Do(ZkPrecompile), At(Push(a, Push(b, Push(c, Push(d, Push(e, s))))))) ==
      if fields.Some? then At(Push(Flag(env.zk([a, b, c, d, e] + fields.value.0)), fields.value.1)) else Failed
  {
    var fields := Take(s, 4);
    TakeMore(e, s, 4);
    TakeMore(d, Push(e, s), 5);
    TakeMore(c, Push(d, Push(e, s)), 6);
    TakeMore(b, Push(c, Push(d, Push(e, s))), 7);
    TakeMore(a, Push(b, Push(c, Push(d, Push(e, s)))), 8);
    hide Take;
    if fields.Some? {
      assert [a] + ([b] + ([c] + ([d] + ([e] + fields.value.0)))) == [a, b, c, d, e] + fields.value.0;
    }
  }

  lemma TakeMore(a: seq<byte>, s: Stack, n: nat)
    ensures Take(Push(a, s), n + 1) ==
            if Take(s, n).Some? then Some(([a] + Take(s, n).value.0, Take(s, n).value.1)) else None
  {
  }

  lemma {:induction false} ProofMeans(env: Env, ps: Params, journal: seq<byte>, s: Stack)
    ensures
      var fields := Take(s, 4);
      Steps(env, Proof(ps), At(Push(journal, s))) ==
      if fields.Some? && env.zk(ZkItems(env, ps, journal, fields.value.0)) then At(Push(Enc(1), fields.value.1)) else Failed
  {
    StackRules(env);
    OracleRules(env);
    NumberRules(env);
    PrecompileMeans(env, [ZK_TAG_RISC0], [ps.hashfn], ps.controlId, ps.imageId, env.sha256(journal), s);
    hide Step, Steps, Enc, Dec, Flag, IntTok, DataTok, Take, Mag;
    StepsTo8(env, Proof(ps), At(Push(journal, s)));
  }

  /** What the transaction must do for the next redeem script `next`. */
  ghost predicate Settles(env: Env, next: seq<byte>)
    requires env.Valid()
  {
    var id := TagOf(env.Self());
    && |InputsTagged(env.inputs, id)| == 1
    && |OutputsTagged(env.outputs, id)| == 1
    && |env.outputs| > 0
    && env.outputs[0].spk == P2sh(env.blake2b(next))
    && env.outputs[0].amount >= env.Self().amount - MAX_FEE
  }

  /** The journal is proved. */
  ghost predicate Proved(env: Env, ps: Params, journal: seq<byte>, s: Stack) {
    Take(s, 4).Some? && env.zk(ZkItems(env, ps, journal, Take(s, 4).value.0))
  }

  lemma {:induction false} SettleMeans(env: Env, ps: Params, own: seq<byte>, prefix: seq<byte>, journal: seq<byte>,
          s: Stack)
    requires env.Valid()
    ensures Steps(env, Settle(ps), At(Push(own, Push(prefix, Push(journal, s))))) ==
            if Settles(env, prefix + own) && Proved(env, ps, journal, s) then At(Push(Enc(1), Take(s, 4).value.1))
                else Failed
  {
    var below := Push(journal, s);
    var st := At(Push(own, Push(prefix, below)));
    var next := prefix + own;
    var id := TagOf(env.Self());
    FailureStays(env);
    var b1 := OneInput() + OneOutput();
    var b2 := b1 + WrapHash();
    var b3 := b2 + PaysNext();
    var b4 := b3 + KeepsValue();
    assert Settle(ps) == b4 + Proof(ps);
    StepsConcat(env, OneInput(), OneOutput(), st);
    StepsConcat(env, b1, WrapHash(), st);
    StepsConcat(env, b2, PaysNext(), st);
    StepsConcat(env, b3, KeepsValue(), st);
    StepsConcat(env, b4, Proof(ps), st);
    OneInputMeans(env, own, prefix, below);
    OneOutputMeans(env, id, Push(next, below));
    WrapHashMeans(env, next, below);
    PaysNextMeans(env, env.blake2b(next), below);
    KeepsValueMeans(env, below);
    ProofMeans(env, ps, journal, s);
    hide Steps, Settle, OneInput, OneOutput, WrapHash, PaysNext, KeepsValue, Proof, InputsTagged, OutputsTagged,
         TagOf, P2sh, Enc, Take, ZkItems;
  }

  // ---- the ROLL branch ----

  /** What the ROLL branch demands, on the stack `s` left by its selector. */
  ghost predicate RollOk(env: Env, ps: Params, s: Stack)
    requires env.Valid()
  {
    && s.Push?
    && JournalHolds(env, ps, s.top)
    && Settles(env, Rebuilt(env.Self().sigScript, s.top))
    && Proved(env, ps, s.top, s.rest)
  }

  lemma {:induction false} RollMeans(env: Env, ps: Params, s: Stack)
    requires env.Valid()
    ensures Steps(env, Roll(ps), At(s)) == if RollOk(env, ps, s) then At(Push(Enc(1), Take(s.rest, 4).value.1)) else Failed
  {
    var front := Journal(ps) + Rebuild();
    StepsConcat(env, Journal(ps), Rebuild(), At(s));
    StepsConcat(env, front, Settle(ps), At(s));
    FailureStays(env);
    if s.Nil? {
      JournalOfNothing(env, ps);
      hide Steps, Journal, Rebuild, Settle;
    } else {
      JournalMeans(env, ps, s.top, s.rest);
      HoldsSizes(env, ps, s.top);
      hide Steps, Journal, Rebuild, Settle, JournalHolds, Settles, Proved, Enc, Take, Rebuilt;
      if JournalHolds(env, ps, s.top) {
        RebuiltMeans(env, ps, s.top, s.rest);
      }
    }
  }

  lemma {:induction false} HoldsSizes(env: Env, ps: Params, journal: seq<byte>)
    requires env.Valid()
    ensures JournalHolds(env, ps, journal) ==> |journal| >= 48 && |env.Self().sigScript| >= BODY_LEN
  {
    hide InputsTagged, Dec, OldTime;
  }

  lemma {:induction false} RebuiltMeans(env: Env, ps: Params, journal: seq<byte>, s: Stack)
    requires env.Valid() && |journal| >= 16 && |env.Self().sigScript| >= BODY_LEN
    ensures Steps(env, Settle(ps), Steps(env, Rebuild(), At(Push(journal, s)))) ==
            if Settles(env, Rebuilt(env.Self().sigScript, journal)) && Proved(env, ps, journal, s)
            then At(Push(Enc(1), Take(s, 4).value.1)) else Failed
  {
    var sig := env.Self().sigScript;
    RebuildMeans(env, journal, s);
    SettleMeans(env, ps, Tail(sig), NextPrefix(journal), journal, s);
    hide Steps, Rebuild, Settle, Settles, Proved, Enc, Take, Tail, NextPrefix;
  }

  lemma {:induction false} JournalOfNothing(env: Env, ps: Params)
    ensures Steps(env, Journal(ps), At(Nil)) == Failed
  {
    var b1 := CoRoll(ps) + Field(0, 16, 48);
    var b2 := b1 + MustBeRoot(ps);
    var b3 := b2 + Field(0, 0, 8);
    var b4 := b3 + InPriceRange();
    var b5 := b4 + Field(0, 8, 16);
    StepsConcat(env, CoRoll(ps), Field(0, 16, 48), At(Nil));
    StepsConcat(env, b1, MustBeRoot(ps), At(Nil));
    StepsConcat(env, b2, Field(0, 0, 8), At(Nil));
    StepsConcat(env, b3, InPriceRange(), At(Nil));
    StepsConcat(env, b4, Field(0, 8, 16), At(Nil));
    StepsConcat(env, b5, OldTimeBounds(), At(Nil));
    StepsConcat(env, b5 + OldTimeBounds(), NotOlder(), At(Nil));
    CoRollMeans(env, ps, Nil);
    FieldOfNothing(env, 16, 48);
    FailureStays(env);
    hide Steps, CoRoll, Field, MustBeRoot, InPriceRange, OldTimeBounds, NotOlder, InputsTagged;
  }

  // ---- the PASSTHROUGH branch ----

  lemma {:induction false} LineageMeans(env: Env, s: Stack)
    requires env.Valid()
    ensures
      var id := TagOf(env.Self());
      Steps(env, LineageIn() + LineageOut(), At(s)) ==
      if |InputsTagged(env.inputs, id)| == 1 && |OutputsTagged(env.outputs, id)| == 1 then At(Push(id, s)) else Failed
  {
    StepsConcat(env, LineageIn(), LineageOut(), At(s));
    FailureStays(env);
    StackRules(env);
    TxRules(env);
    TagRules(env);
    NumberRules(env);
    hide Step, Steps, Enc, Dec, Flag, IntTok, DataTok, TagOf, InputsTagged, OutputsTagged;
    StepsTo8(env, LineageIn(), At(s));
    StepsTo8(env, LineageOut(), At(Push(TagOf(env.Self()), s)));
  }

  lemma {:induction false} SelfSendMeans(env: Env, id: seq<byte>, s: Stack)
    requires env.Valid()
    ensures
      var tagged := OutputsTagged(env.outputs, id);
      Steps(env, SelfSend(), At(Push(id, s))) ==
      if |tagged| > 0 && tagged[0] < |env.outputs| && env.outputs[tagged[0]].spk == env.Self().spk
      then At(Push(Enc(tagged[0]), s)) else Failed
  {
    StackRules(env);
    TxRules(env);
    TagRules(env);
    hide Step, Steps, Enc, Dec, Flag, IntTok, DataTok, TagOf, InputsTagged, OutputsTagged;
    StepsTo8(env, SelfSend(), At(Push(id, s)));
  }

  lemma {:induction false} KeepsOwnValueMeans(env: Env, out: nat, s: Stack)
    requires env.Valid() && out < |env.outputs|
    ensures Steps(env, KeepsOwnValue(), At(Push(Enc(out), s))) ==
            if env.outputs[out].amount >= env.Self().amount - MAX_FEE then At(Push(Enc(1), s)) else Failed
  {
    StackRules(env);
    TxRules(env);
    NumberRules(env);
    hide Step, Steps, Enc, Dec, Flag, IntTok, DataTok, Mag;
    StepsTo8(env, KeepsOwnValue(), At(Push(Enc(out), s)));
  }

  /**
   * What the PASSTHROUGH branch demands: one input and one output of the lineage, the output
   * unchanged but for the fee.
   */
  ghost predicate PassOk(env: Env)
    requires env.Valid()
  {
    var id := TagOf(env.Self());
    var tagged := OutputsTagged(env.outputs, id);
    && |InputsTagged(env.inputs, id)| == 1
    && |tagged| == 1
    && tagged[0] < |env.outputs|
    && env.outputs[tagged[0]].spk == env.Self().spk
    && env.outputs[tagged[0]].amount >= env.Self().amount - MAX_FEE
  }

  lemma {:induction false} PassMeans(env: Env, s: Stack)
    requires env.Valid()
    ensures Steps(env, Passthrough(), At(s)) == if PassOk(env) then At(Push(Enc(1), s)) else Failed
  {
    var id := TagOf(env.Self());
    var tagged := OutputsTagged(env.outputs, id);
    var front := LineageIn() + LineageOut();
    StepsConcat(env, front, SelfSend(), At(s));
    StepsConcat(env, front + SelfSend(), KeepsOwnValue(), At(s));
    FailureStays(env);
    LineageMeans(env, s);
    SelfSendMeans(env, id, s);
    hide Steps, LineageIn, LineageOut, SelfSend, KeepsOwnValue, Enc, TagOf, InputsTagged, OutputsTagged;
    if |tagged| > 0 && tagged[0] < |env.outputs| {
      KeepsOwnValueMeans(env, tagged[0], s);
    }
  }
}
