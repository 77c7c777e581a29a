/** The treasury: a stack-shuffling OR over approved destinations. */
module Treasury {
  import opened Bytes
  import opened ScriptNumbers
  import opened ScriptTokens
  import opened ScriptMachine
  import opened ScriptCode
  import opened ScriptRules
  import opened ScriptBytes
  import opened ScriptBuilder
  import opened ScriptParts

  type Spk = s: seq<byte> | |s| + 2 < U32_LIMIT witness []

  /** With the version bytes in front. */
  function Full(spk: Spk): seq<byte> {
    [0x00, 0x00] + spk
  }

  function First(spk: Spk): seq<Tok> {
    [Do(Dup), DataTok(Full(spk)), Do(Equal)]
  }

  function Middle(spk: Spk): seq<Tok> {
    [Do(Swap), Do(Dup), DataTok(Full(spk)), Do(Equal), Do(Rot), Do(BoolOr)]
  }

  function Last(spk: Spk): seq<Tok> {
    [Do(Swap), DataTok(Full(spk)), Do(Equal), Do(BoolOr)]
  }

  function Only(spk: Spk): seq<Tok> {
    [DataTok(Full(spk)), Do(Equal)]
  }

  function OutputSpk(): seq<Tok> {
    [IntTok(0), Do(TxOutputSpk)]
  }

  /** The comparison with destination `i`. */
  function Compare(spks: seq<Spk>, i: nat): seq<Tok>
    requires i < |spks|
  {
    if |spks| == 1 then Only(spks[0])
    else if i == 0 then First(spks[0])
    else if i == |spks| - 1 then Last(spks[i])
    else Middle(spks[i])
  }

  function Compares(spks: seq<Spk>, n: nat): seq<Tok>
    requires n <= |spks|
  {
    if n == 0 then [] else Compares(spks, n - 1) + Compare(spks, n - 1)
  }

  function TreasuryToks(owner: Key, spks: seq<Spk>): seq<Tok> {
    Signed(owner) + OutputSpk() + Compares(spks, |spks|)
  }

  lemma {:induction false} CompareOk(spks: seq<Spk>, i: nat)
    requires i < |spks|
    ensures CodeOk(Line(Compare(spks, i)))
  {
    hide Plain, CodeOk, IntTok, DataTok, TokLen, Len, TokOk, ToksOk, Enc, Mag, Full;
    assert |Full(spks[i])| < U32_LIMIT by {
      FullLength(spks[i]);
    }
    PlainToks();
    if |spks| == 1 {
      PlainLine(Only(spks[i]));
    } else if i == 0 {
      PlainLine(First(spks[i]));
    } else if i == |spks| - 1 {
      PlainLine(Last(spks[i]));
    } else {
      PlainLine(Middle(spks[i]));
    }
  }

  lemma FullLength(spk: Spk)
    ensures |Full(spk)| == |spk| + 2 < U32_LIMIT
  {
  }

  lemma {:induction false} ComparesOk(spks: seq<Spk>, n: nat)
    requires n <= |spks|
    ensures CodeOk(Line(Compares(spks, n)))
  {
    hide Compare;
    if n > 0 {
      hide CodeOk;
      ComparesOk(spks, n - 1);
      CompareOk(spks, n - 1);
      PlainJoin(Compares(spks, n - 1), Compare(spks, n - 1));
    }
  }

  lemma {:induction false} TreasuryOk(owner: Key, spks: seq<Spk>)
    ensures CodeOk(Line(TreasuryToks(owner, spks))) && ToksOk(TreasuryToks(owner, spks))
  {
    hide Plain, CodeOk, IntTok, DataTok, TokLen, Len, TokOk, ToksOk, Enc, Mag, Compares, Signed, Flatten;
    PlainToks();
    PlainLine(OutputSpk());
    PartsOk(owner, seq(8, i => 0));
    ComparesOk(spks, |spks|);
    hide OutputSpk;
    PlainJoin(Signed(owner), OutputSpk());
    PlainJoin(Signed(owner) + OutputSpk(), Compares(spks, |spks|));
    FlattenOk(Line(TreasuryToks(owner, spks)));
    LineToks(TreasuryToks(owner, spks));
  }

  function Script(owner: Key, spks: seq<Spk>): seq<byte> {
    TreasuryOk(owner, spks);
    Assemble(TreasuryToks(owner, spks))
  }

  // ---- building ----

  // ---- the bytes ----

  /** The comparison with destination `i`, written out. */
  function CompareBytes(spks: seq<Spk>, i: nat): seq<byte>
    requires i < |spks|
  {
    var full := DataPush([0x00, 0x00] + spks[i]);
    if |spks| == 1 then full + [0x87]
    else if i == 0 then [0x76] + full + [0x87]
    else if i == |spks| - 1 then [0x7c] + full + [0x87, 0x9b]
    else [0x7c, 0x76] + full + [0x87, 0x7b, 0x9b]
  }

  function ComparesBytes(spks: seq<Spk>, n: nat): seq<byte>
    requires n <= |spks|
  {
    if n == 0 then [] else ComparesBytes(spks, n - 1) + CompareBytes(spks, n - 1)
  }

  /** The treasury, written out. */
  function TreasuryBytes(owner: Key, spks: seq<Spk>): seq<byte> {
    [0x20] + owner + [0xad, 0x00, 0xc3] + ComparesBytes(spks, |spks|)
  }

  method PushHead(s: ScriptBuf, owner: Key)
    requires s.Valid()
    modifies s
    ensures s.Valid() && s.toks == old(s.toks) + Signed(owner) + OutputSpk()
    ensures s.bytes == old(s.bytes) + ([0x20] + owner + [0xad, 0x00, 0xc3])
  {
    hide Opcode.Code, Assemble, ToksOk, TokOk, IntTok, DataTok, ScriptBuf.Valid, Enc, NumberPush;
    OpcodeTable();
    SmallPushes();
    s.PushFixed(owner);
    s.PushOp(CheckSigVerify);
    s.PushInt(0);
    s.PushOp(TxOutputSpk);
    Block(old(s.toks), Signed(owner));
    Block(old(s.toks) + Signed(owner), OutputSpk());
    HeadJoin(old(s.bytes), owner);
  }

  lemma HeadJoin(base: seq<byte>, owner: seq<byte>)
    ensures base + [0x20] + owner + [0xad] + [0x00] + [0xc3] == base + ([0x20] + owner + [0xad, 0x00, 0xc3])
  {
  }

  lemma FullIs(spk: Spk)
    ensures Full(spk) == [0x00, 0x00] + spk
  {
  }

  method PushCompare(s: ScriptBuf, spks: seq<Spk>, i: nat)
    requires s.Valid() && i < |spks|
    modifies s
    ensures s.Valid() && s.toks == old(s.toks) + Compare(spks, i)
    ensures s.bytes == old(s.bytes) + CompareBytes(spks, i)
  {
    hide Opcode.Code, Assemble, ToksOk, IntTok, DataTok, ScriptBuf.Valid, Enc, Full, TokOk, DataPush;
    OpcodeTable();
    FullLength(spks[i]);
    assert Full(spks[i]) == [0x00, 0x00] + spks[i] by {
      FullIs(spks[i]);
    }
    var spkFull := Full(spks[i]);
    if |spks| == 1 {
      s.PushData(spkFull);
      s.PushOp(Equal);
      Block(old(s.toks), Only(spks[i]));
    } else if i == 0 {
      s.PushOp(Dup);
      s.PushData(spkFull);
      s.PushOp(Equal);
      Block(old(s.toks), First(spks[i]));
    } else if i == |spks| - 1 {
      PushLast(s, spkFull, spks[i]);
    } else {
      PushMiddle(s, spkFull, spks[i]);
    }
  }

  method PushLast(s: ScriptBuf, spkFull: seq<byte>, ghost spk: Spk)
    requires s.Valid() && spkFull == Full(spk)
    modifies s
    ensures s.Valid() && s.toks == old(s.toks) + Last(spk)
    ensures s.bytes == old(s.bytes) + ([0x7c] + DataPush(spkFull) + [0x87, 0x9b])
  {
    hide Opcode.Code, Assemble, ToksOk, DataTok, ScriptBuf.Valid, Full, TokOk, DataPush;
    OpcodeTable();
    FullLength(spk);
    s.PushOp(Swap);
    s.PushData(spkFull);
    s.PushOp(Equal);
    s.PushOp(BoolOr);
    Block(old(s.toks), Last(spk));
  }

  method PushMiddle(s: ScriptBuf, spkFull: seq<byte>, ghost spk: Spk)
    requires s.Valid() && spkFull == Full(spk)
    modifies s
    ensures s.Valid() && s.toks == old(s.toks) + Middle(spk)
    ensures s.bytes == old(s.bytes) + ([0x7c, 0x76] + DataPush(spkFull) + [0x87, 0x7b, 0x9b])
  {
    hide Opcode.Code, Assemble, ToksOk, IntTok, DataTok, ScriptBuf.Valid, Enc, Full, TokOk, DataPush;
    OpcodeTable();
    FullLength(spk);
    s.PushOp(Swap);
    s.PushOp(Dup);
    s.PushData(spkFull);
    s.PushOp(Equal);
    s.PushOp(Rot);
    s.PushOp(BoolOr);
    Block(old(s.toks), Middle(spk));
  }

  /** `build_treasury_script`, which refuses an empty list and one of more than four. */
  method BuildTreasury(owner: Key, spks: seq<Spk>) returns (script: seq<byte>)
    requires 1 <= |spks| <= 4
    ensures script == Script(owner, spks)
    ensures script == TreasuryBytes(owner, spks)
  {
    hide Assemble, ToksOk, TokOk, IntTok, DataTok, ScriptBuf.Valid, Enc, Compare, Signed, OutputSpk, CompareBytes;
    var s := new ScriptBuf();
    PushHead(s, owner);
    ghost var head, begun := s.toks, s.bytes;
    assert head == Signed(owner) + OutputSpk();
    for i := 0 to |spks|
      invariant s.Valid() && s.toks == head + Compares(spks, i)
      invariant s.bytes == begun + ComparesBytes(spks, i)
    {
      PushCompare(s, spks, i);
      Regroup(head, Compares(spks, i), Compare(spks, i));
      Regroup(begun, ComparesBytes(spks, i), CompareBytes(spks, i));
    }
    BufBytes(s);
    return s.bytes;
  }

  // ---- what it accepts ----

  /** The output's script is one of the first `n`. */
  ghost predicate Among(spk: seq<byte>, spks: seq<Spk>, n: nat)
    requires n <= |spks|
  {
    exists i :: 0 <= i < n && spk == Full(spks[i])
  }

  lemma {:induction false} OneMoreAmong(spk: seq<byte>, spks: seq<Spk>, n: nat)
    requires n < |spks|
    ensures Among(spk, spks, n + 1) <==> Among(spk, spks, n) || spk == Full(spks[n])
  {
    hide Full;
  }

  lemma {:induction false} CompareMeans(env: Env, spks: seq<Spk>, i: nat, x: seq<byte>, acc: bool, s: Stack)
    requires i < |spks| && |spks| > 1
    ensures i == 0 ==> Steps(env, Compare(spks, i), At(Push(x, s))) == At(Push(Flag(x == Full(spks[i])), Push(x, s)))
    ensures 0 < i < |spks| - 1 ==>
              Steps(env, Compare(spks, i), At(Push(Flag(acc), Push(x, s))))
                  == At(Push(Flag(acc || x == Full(spks[i])), Push(x, s)))
    ensures i == |spks| - 1 ==>
              Steps(env, Compare(spks, i), At(Push(Flag(acc), Push(x, s))))
                  == At(Push(Flag(acc || x == Full(spks[i])), s))
  {
    hide Step, Steps, Enc, Dec, Flag, Truthy, IntTok, DataTok, Full;
    FullLength(spks[i]);
    StackRules(env);
    NumberRules(env);
    if i == 0 {
      StepsTo8(env, Compare(spks, i), At(Push(x, s)));
    } else if i < |spks| - 1 {
      StepsTo8(env, Compare(spks, i), At(Push(Flag(acc), Push(x, s))));
    } else {
      StepsTo8(env, Compare(spks, i), At(Push(Flag(acc), Push(x, s))));
    }
  }

  /** After each comparison the stack holds the script and whether it matched so far; the last one drops the script. */
  lemma {:induction false} ComparesMean(env: Env, spks: seq<Spk>, n: nat, x: seq<byte>, s: Stack)
    requires 0 < n <= |spks| && |spks| > 1
    ensures Steps(env, Compares(spks, n), At(Push(x, s))) ==
            At(Push(Flag(Among(x, spks, n)), if n == |spks| then s else Push(x, s)))
  {
    hide Steps, Compare, Flag, Full, Among;
    var st := At(Push(x, s));
    StepsConcat(env, Compares(spks, n - 1), Compare(spks, n - 1), st);
    OneMoreAmong(x, spks, n - 1);
    if n == 1 {
      StepsNone(env, st);
      NoneAmong(x, spks);
      CompareMeans(env, spks, 0, x, false, s);
    } else {
      ComparesMean(env, spks, n - 1, x, s);
      CompareMeans(env, spks, n - 1, x, Among(x, spks, n - 1), s);
    }
  }

  lemma StepsNone(env: Env, st: State)
    ensures Steps(env, [], st) == st
  {
  }

  lemma NoneAmong(x: seq<byte>, spks: seq<Spk>)
    ensures !Among(x, spks, 0)
  {
  }

  lemma {:induction false} OnlyMeans(env: Env, spks: seq<Spk>, x: seq<byte>, s: Stack)
    requires |spks| == 1
    ensures Steps(env, Compares(spks, 1), At(Push(x, s))) == At(Push(Flag(Among(x, spks, 1)), s))
  {
    hide Step, Steps, Enc, Dec, Flag, Truthy, IntTok, DataTok, Full;
    FullLength(spks[0]);
    StackRules(env);
    StepsTo8(env, Only(spks[0]), At(Push(x, s)));
    assert Compares(spks, 1) == Compares(spks, 0) + Only(spks[0]) == Only(spks[0]);
    assert Among(x, spks, 1) <==> x == Full(spks[0]);
  }

  lemma {:induction false} OutputSpkMeans(env: Env, s: Stack)
    ensures Steps(env, OutputSpk(), At(s)) == if |env.outputs| > 0 then At(Push(env.outputs[0].spk, s)) else Failed
  {
    hide Step, Steps, Enc, Flag, IntTok, DataTok;
    StackRules(env);
    TxRules(env);
    StepsTo8(env, OutputSpk(), At(s));
  }

  lemma {:induction false} CleanFlag(c: bool, s: Stack)
    ensures Clean(At(Push(Flag(c), s))) <==> c && s.Nil?
    ensures !Clean(Failed)
  {
    FlagIsNumber(c);
  }

  /** For a list of any length: the owner signed, and output 0 goes to one of the listed scripts. */
  lemma {:induction false} TreasuryAccepts(env: Env, owner: Key, spks: seq<Spk>, s: Stack)
    requires |spks| > 0
    ensures Accepts(env, Script(owner, spks), s) <==>
            && s.Push? && s.rest.Nil? && env.checkSig(s.top, owner)
            && |env.outputs| > 0 && Among(env.outputs[0].spk, spks, |spks|)
  {
    hide Exec, Steps, Signed, OutputSpk, Compares, Clean, Accepts, Assemble, CodeOk, ToksOk, Flag, Among, Flatten;
    TreasuryOk(owner, spks);
    LineToks(TreasuryToks(owner, spks));
    AcceptsCompiled(env, Line(TreasuryToks(owner, spks)), s);
    ExecLine(env, TreasuryToks(owner, spks), At(s));
    StepsConcat(env, Signed(owner), OutputSpk(), At(s));
    StepsConcat(env, Signed(owner) + OutputSpk(), Compares(spks, |spks|), At(s));
    FailureStays(env);
    SignedMeans(env, owner, s);
    CleanFlag(false, Nil);
    if s.Push? {
      OutputSpkMeans(env, s.rest);
      if |env.outputs| > 0 {
        var x := env.outputs[0].spk;
        CleanFlag(Among(x, spks, |spks|), s.rest);
        if |spks| == 1 {
          OnlyMeans(env, spks, x, s.rest);
        } else {
          ComparesMean(env, spks, |spks|, x, s.rest);
        }
      }
    }
  }
}
