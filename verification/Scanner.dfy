/** The wallet's script scanner: what it reads back out of a redeem script, without running it. */
module Scanner {
  import opened Bytes
  import opened ScriptNumbers
  import opened ScriptTokens
  import opened ScriptMachine
  import opened ScriptCode
  import opened ScriptParts
  import opened SpendingLimit

  const CLTV: byte := 0xB0
  const CSV: byte := 0xB1

  /** `read_script_int`: the first eight bytes, little-endian. */
  function ScriptInt(data: seq<byte>): nat {
    LeVal(if |data| <= 8 then data else data[..8])
  }

  method ReadScriptInt(data: seq<byte>) returns (val: nat)
    ensures val == ScriptInt(data) && val < U64_LIMIT
  {
    val := 0;
    var shift := 1;
    var n := if |data| <= 8 then |data| else 8;
    ghost var low := data[..n];
    assert low == if |data| <= 8 then data else data[..8];
    for idx := 0 to n
      invariant shift == Pow256(idx) && val == LeVal(low[..idx])
    {
      assert low[..idx + 1] == low[..idx] + [low[idx]];
      LeValAppend(low[..idx], [low[idx]]);
      assert LeVal([low[idx]]) == low[idx] as int;
      assert data[idx] == low[idx];
      val := val + data[idx] as int * shift;
      shift := shift * 256;
    }
    assert low[..n] == low;
    LeValBound(low);
    Pow256Of8();
    Pow256Grows(n, 8);
  }

  lemma {:induction false} Pow256Grows(a: nat, b: nat)
    requires a <= b
    ensures Pow256(a) <= Pow256(b)
  {
    if a < b {
      Pow256Grows(a, b - 1);
    }
  }

  /** It inverts `push_int` on every u64. */
  lemma {:induction false} ScriptIntInverts(v: nat)
    requires v < U64_LIMIT
    ensures ScriptInt(Enc(v)) == v
  {
    Pow256Of8();
    MagAtMost(v, 8);
    var m := Mag(v);
    if |Enc(v)| == 9 {
      assert Enc(v)[..8] == m;
    } else if Enc(v) != m {
      LeValAppend(m, [0]);
    }
  }

  // ---- the scan ----

  /** No push names its length in two or four bytes. */
  predicate Narrow(ts: seq<Tok>) {
    forall t :: t in ts && t.Data? ==> t.width == Direct || t.width == OneByte
  }

  predicate IsOp(t: Tok, code: byte) {
    t.Do? && t.op.Code() == code
  }

  /** The value of a push as the scanner reads it. */
  function PushValue(t: Tok, last: nat): nat {
    match t
    case Num(n) => n
    case Data(_, bytes) => ScriptInt(bytes)
    case Do(_) => last
  }

  /** The last push before the first real `code`; 0 when there is no such opcode. */
  function Scan(ts: seq<Tok>, code: byte, last: nat): nat {
    if ts == [] then 0
    else if IsOp(ts[0], code) then last
    else Scan(ts[1..], code, PushValue(ts[0], last))
  }

  /** What the first byte of a script says about its first token. */
  lemma {:induction false} FirstByte(rest: seq<byte>)
    requires rest != []
    ensures
      var op := rest[0];
      var head := First(rest);
      && (op == 0x00 ==> head == Some((Num(0), 1)))
      && (0x51 <= op <= 0x60 ==> head == Some((Num(op as int - 0x50), 1)))
      && (0x01 <= op <= 0x4b && head.Some? ==>
          op as int + 1 <= |rest| && head == Some((Data(Direct, rest[1..1 + op as int]), 1 + op as int)))
      && (op == 0x4c && head.Some? ==>
            2 <= |rest| && 2 + rest[1] as int <= |rest|
            && head == Some((Data(OneByte, rest[2..2 + rest[1] as int]), 2 + rest[1] as int)))
      && ((op == 0x4d || op == 0x4e) && head.Some? ==> head.value.0.Data? && !Narrow([head.value.0]))
      && (0x4e < op && !(0x51 <= op <= 0x60) ==> head == Some((Do(Decode(op)), 1)))
  {
    hide Decode;
    var head := First(rest);
    assert head.Some? ==> head.value.0 in [head.value.0];
  }

  /** One step of the byte loop: how far it moves, and the value it remembers. */
  method ScanStep(redeem: seq<byte>, i: nat, last: nat) returns (next: nat, value: nat)
    requires i < |redeem|
    ensures next > i
    ensures
      var head := First(redeem[i..]);
      head.Some? && Narrow([head.value.0]) ==> next == i + head.value.1 && value == PushValue(head.value.0, last)
  {
    hide First, Narrow, ScriptInt;
    var op := redeem[i];
    ghost var rest := redeem[i..];
    assert rest[0] == op && |rest| == |redeem| - i;
    FirstByte(rest);
    value := last;
    if op == 0x00 {
      return i + 1, 0;
    } else if 0x51 <= op <= 0x60 {
      return i + 1, op as int - 0x50;
    } else if 0x01 <= op <= 0x4b {
      var len := op as int;
      if i + 1 + len <= |redeem| {
        assert redeem[i + 1..i + 1 + len] == rest[1..1 + len];
        value := ReadScriptInt(redeem[i + 1..i + 1 + len]);
      }
      return i + 1 + len, value;
    } else if op == 0x4c {
      if i + 1 < |redeem| {
        var len := redeem[i + 1] as int;
        assert rest[1] == redeem[i + 1];
        if i + 2 + len <= |redeem| {
          assert redeem[i + 2..i + 2 + len] == rest[2..2 + len];
          value := ReadScriptInt(redeem[i + 2..i + 2 + len]);
        }
        return i + 2 + len, value;
      } else {
        return i + 1, value;
      }
    } else {
      return i + 1, value;
    }
  }

  /** The loop is at the start of the token sequence `todo`, which will scan to the answer. */
  ghost predicate Synced(redeem: seq<byte>, i: nat, todo: seq<Tok>, code: byte, last: nat, answer: nat) {
    i <= |redeem| && Parse(redeem[i..]) == Some(todo) && Narrow(todo) && Scan(todo, code, last) == answer
  }

  /** The byte loop of `extract_cltv_locktime` and `extract_csv_sequence`. */
  method ScanFor(redeem: seq<byte>, code: byte) returns (r: nat)
    requires code == CLTV || code == CSV
    ensures
      var ts := Parse(redeem);
      ts.Some? && Narrow(ts.value) ==> r == Scan(ts.value, code, 0)
  {
    hide Parse, First, Narrow, Scan, PushValue, IsOp;
    ghost var whole := Parse(redeem);
    ghost var good := whole.Some? && Narrow(whole.value);
    ghost var todo: seq<Tok> := if good then whole.value else [];
    ghost var answer := if good then Scan(whole.value, code, 0) else 0;
    var i: nat := 0;
    var last := 0;
    assert redeem[0..] == redeem;
    while i < |redeem|
      invariant good ==> Synced(redeem, i, todo, code, last, answer)
      decreases |redeem| - i
    {
      if good {
        NextToken(redeem, i, todo, code, last, answer);
      }
      if redeem[i] == code {
        return last;
      }
      i, last := ScanStep(redeem, i, last);
      if good {
        todo := todo[1..];
      }
    }
    if good {
      AtEnd(redeem, i, todo, code, last, answer);
    }
    return 0;
  }

  lemma {:induction false} AtEnd(redeem: seq<byte>, i: nat, ts: seq<Tok>, code: byte, last: nat, answer: nat)
    requires Synced(redeem, i, ts, code, last, answer) && i >= |redeem|
    ensures answer == 0
  {
    assert redeem[i..] == [];
  }

  lemma {:induction false} NextToken(redeem: seq<byte>, i: nat, ts: seq<Tok>, code: byte, last: nat, answer: nat)
    requires i < |redeem| && Synced(redeem, i, ts, code, last, answer) && (code == CLTV || code == CSV)
    ensures ts != [] && First(redeem[i..]).Some? && First(redeem[i..]).value.0 == ts[0] && Narrow([ts[0]])
    ensures redeem[i] == code ==> answer == last
    ensures redeem[i] != code ==>
              Synced(redeem, i + First(redeem[i..]).value.1, ts[1..], code, PushValue(ts[0], last), answer)
  {
    var rest := redeem[i..];
    var n := First(rest).value.1;
    assert rest[n..] == redeem[i + n..];
    assert ts == [ts[0]] + ts[1..];
    OpByte(rest, code);
    hide Parse, First, IsOp, PushValue;
  }

  lemma {:induction false} OpByte(rest: seq<byte>, code: byte)
    requires rest != [] && First(rest).Some? && (code == CLTV || code == CSV)
    ensures rest[0] == code <==> IsOp(First(rest).value.0, code)
  {
    hide Decode;
  }

  method ExtractCltvLocktime(redeem: seq<byte>) returns (r: nat)
    ensures
      var ts := Parse(redeem);
      ts.Some? && Narrow(ts.value) ==> r == Scan(ts.value, CLTV, 0)
  {
    r := ScanFor(redeem, CLTV);
  }

  method ExtractCsvSequence(redeem: seq<byte>) returns (r: nat)
    ensures
      var ts := Parse(redeem);
      ts.Some? && Narrow(ts.value) ==> r == Scan(ts.value, CSV, 0)
  {
    r := ScanFor(redeem, CSV);
  }

  // ---- what the scan finds ----

  predicate Absent(ts: seq<Tok>, code: byte) {
    forall t :: t in ts ==> !IsOp(t, code)
  }

  /**
   * The scan reads the operand pushed just before the first such opcode, whatever the bytes of the
   * pushes before it.
   */
  lemma {:induction false} ScanFinds(before: seq<Tok>, v: nat, op: Opcode, rest: seq<Tok>, last: nat)
    requires v < U64_LIMIT && Absent(before, op.Code())
    ensures Scan(before + [IntTok(v), Do(op)] + rest, op.Code(), last) == v
  {
    var ts := before + [IntTok(v), Do(op)] + rest;
    if before == [] {
      assert ts[0] == IntTok(v) && ts[1..][0] == Do(op);
      assert PushValue(IntTok(v), last) == v by {
        IntTokValue(v, last);
      }
      hide IntTok;
    } else {
      assert ts[0] == before[0] && before[0] in before;
      assert ts[1..] == before[1..] + [IntTok(v), Do(op)] + rest;
      ScanFinds(before[1..], v, op, rest, PushValue(ts[0], last));
    }
  }

  lemma {:induction false} IntTokValue(v: nat, last: nat)
    requires v < U64_LIMIT
    ensures PushValue(IntTok(v), last) == v && !IntTok(v).Do?
  {
    ScriptIntInverts(v);
    hide Enc, ScriptInt;
  }

  lemma {:induction false} ScanAbsent(ts: seq<Tok>, code: byte, last: nat)
    requires Absent(ts, code)
    ensures Scan(ts, code, last) == 0
  {
    if ts != [] {
      assert ts[0] in ts;
      ScanAbsent(ts[1..], code, PushValue(ts[0], last));
    }
  }

  // ---- on the covenants' own scripts ----

  /** A token the scanner passes over: not one of its opcodes, and not a wide push. */
  predicate Tame(t: Tok) {
    !IsOp(t, CLTV) && !IsOp(t, CSV) && (t.Data? ==> t.width == Direct || t.width == OneByte)
  }

  predicate AllTame(ts: seq<Tok>) {
    forall i :: 0 <= i < |ts| ==> Tame(ts[i])
  }

  lemma {:induction false} TameFacts()
    ensures forall op: Opcode {:trigger Tame(Do(op))} ::
              !op.Other? && !op.CheckLockTimeVerify? && !op.CheckSequenceVerify? ==> Tame(Do(op))
    ensures forall v: nat {:trigger IntTok(v)} :: v < U64_LIMIT ==> Tame(IntTok(v))
    ensures forall d: seq<byte> {:trigger DataTok(d)} :: |d| <= 255 ==> Tame(DataTok(d))
  {
    hide Enc;
  }

  lemma {:induction false} TameJoin(a: seq<Tok>, b: seq<Tok>)
    requires AllTame(a) && AllTame(b)
    ensures AllTame(a + b)
  {
    hide Tame;
  }

  lemma TameIs(ts: seq<Tok>)
    requires AllTame(ts)
    ensures Narrow(ts) && Absent(ts, CLTV) && Absent(ts, CSV)
  {
  }

  lemma {:induction false} ThreadTame(cap: nat)
    requires cap < U64_LIMIT
    ensures AllTame(Flatten(ThreadCode(cap)))
  {
    hide Tame, IntTok, DataTok, Enc, Mag;
    TameFacts();
    assert AllTame(CountOutputs()) && AllTame(SameAddress()) && AllTame(WithinCap(cap)) && AllTame(CloseWithinCap(cap));
    assert AllTame([Do(If)]) && AllTame([Do(Else)]) && AllTame([Do(EndIf)]);
    ThreadFlattens(cap);
    hide AllTame, CountOutputs, SameAddress, WithinCap, CloseWithinCap, Flatten;
    var keep := SameAddress() + WithinCap(cap);
    TameJoin(SameAddress(), WithinCap(cap));
    TameJoin([Do(If)], keep);
    TameJoin([Do(If)] + keep, [Do(Else)]);
    TameJoin([Do(If)] + keep + [Do(Else)], CloseWithinCap(cap));
    TameJoin([Do(If)] + keep + [Do(Else)] + CloseWithinCap(cap), [Do(EndIf)]);
    TameJoin(CountOutputs(), [Do(If)] + keep + [Do(Else)] + CloseWithinCap(cap) + [Do(EndIf)]);
  }

  lemma {:induction false} ThreadFlattens(cap: nat)
    requires cap < U64_LIMIT
    ensures
      var keep := SameAddress() + WithinCap(cap);
      Flatten(ThreadCode(cap)) ==
      CountOutputs() + ([Do(If)] + keep + [Do(Else)] + CloseWithinCap(cap) + [Do(EndIf)])
  {
    hide CountOutputs, SameAddress, WithinCap, CloseWithinCap;
    var keep := Chain(Line(SameAddress()), Line(WithinCap(cap)));
    FlattenLineThen(SameAddress(), Line(WithinCap(cap)));
    FlattenLineThen(CountOutputs(), Branch(keep, Line(CloseWithinCap(cap))));
  }

  lemma {:induction false} HeadTame(salt: Salt, key: Key)
    ensures AllTame(Salted(salt)) && AllTame(Signed(key)) && AllTame(One())
  {
    hide Tame, IntTok, DataTok, Enc, Mag;
    TameFacts();
  }

  /** What comes before and after the cooldown of a spending limit. */
  lemma {:induction false} LimitToks(owner: Key, cap: nat, cooldown: nat, salt: Salt)
    requires cap < U64_LIMIT && cooldown < U64_LIMIT
    ensures Flatten(LimitCode(owner, cap, cooldown, salt)) ==
            (Salted(salt) + Signed(owner)) + [IntTok(cooldown), Do(CheckSequenceVerify)]
                + (Flatten(ThreadCode(cap)) + One())
  {
    hide Salted, Signed, One, ThreadCode, IntTok;
    var last := Chain(ThreadCode(cap), Line(One()));
    var waits := Chain(Line(Waits(cooldown)), last);
    FlattenLineThen(Salted(salt), Chain(Line(Signed(owner)), waits));
    FlattenLineThen(Signed(owner), waits);
    FlattenLineThen(Waits(cooldown), last);
    assert Flatten(last) == Flatten(ThreadCode(cap)) + One();
    Reassociate(Salted(salt), Signed(owner), Waits(cooldown), Flatten(last));
  }

  lemma Reassociate(a: seq<Tok>, b: seq<Tok>, c: seq<Tok>, d: seq<Tok>)
    ensures a + (b + (c + d)) == (a + b) + c + d
  {
  }

  /** From a spending limit's script the wallet reads its cooldown, and no lock time. */
  lemma {:induction false} LimitScans(owner: Key, cap: nat, cooldown: nat, salt: Salt)
    requires cap < U64_LIMIT && cooldown < U64_LIMIT
    ensures
      var ts := Parse(LimitScript(owner, cap, cooldown, salt));
      ts.Some? && Narrow(ts.value) && Scan(ts.value, CSV, 0) == cooldown && Scan(ts.value, CLTV, 0) == 0
  {
    hide Tame, AllTame, Salted, Signed, One, ThreadCode, IntTok, Scan, LimitCode, Parse, Assemble, Flatten, Narrow,
         Absent;
    var a, b := Salted(salt) + Signed(owner), Flatten(ThreadCode(cap)) + One();
    LimitCodeOk(owner, cap, cooldown, salt);
    ParseAssemble(Flatten(LimitCode(owner, cap, cooldown, salt)));
    LimitToks(owner, cap, cooldown, salt);
    HeadTame(salt, owner);
    ThreadTame(cap);
    TameJoin(Salted(salt), Signed(owner));
    TameJoin(Flatten(ThreadCode(cap)), One());
    TameIs(a);
    TameIs(b);
    ScanFinds(a, cooldown, CheckSequenceVerify, b, 0);
    LockAbsent(a, cooldown, b);
    ScanAbsent(a + [IntTok(cooldown), Do(CheckSequenceVerify)] + b, CLTV, 0);
  }

  lemma {:induction false} LockAbsent(a: seq<Tok>, v: nat, b: seq<Tok>)
    requires v < U64_LIMIT && Narrow(a) && Narrow(b) && Absent(a, CLTV) && Absent(b, CLTV)
    ensures
      var ts := a + [IntTok(v), Do(CheckSequenceVerify)] + b;
      Narrow(ts) && Absent(ts, CLTV)
  {
    IntTokValue(v, 0);
    assert IntTok(v).Data? ==> IntTok(v).width == Direct;
    hide IntTok;
  }

  /** What comes around the two guards of an allowance. */
  lemma {:induction false} AllowanceToks(owner: Key, beneficiary: Key, cap: nat, cooldown: nat, start: nat, salt: Salt)
    requires cap < U64_LIMIT && cooldown < U64_LIMIT && start < U64_LIMIT
    ensures Flatten(AllowanceCode(owner, beneficiary, cap, cooldown, start, salt)) ==
            (Salted(salt) + [Do(If)] + OwnerPath(owner) + [Do(Else)] + Signed(beneficiary))
            + StartGuard(start) + CooldownGuard(cooldown) + (Flatten(ThreadCode(cap)) + One() + [Do(EndIf)])
  {
    hide Salted, Signed, One, ThreadCode, IntTok, StartGuard, CooldownGuard, OwnerPath;
    var last := Chain(ThreadCode(cap), Line(One()));
    var cooled := Chain(Line(CooldownGuard(cooldown)), last);
    var started := Chain(Line(StartGuard(start)), cooled);
    var body := BeneficiaryCode(beneficiary, cap, cooldown, start);
    FlattenLineThen(Signed(beneficiary), started);
    FlattenLineThen(StartGuard(start), cooled);
    FlattenLineThen(CooldownGuard(cooldown), last);
    assert Flatten(last) == Flatten(ThreadCode(cap)) + One();
    FlattenBranch(OwnerPath(owner), body);
    FlattenLineThen(Salted(salt), Branch(Line(OwnerPath(owner)), body));
    hide Flatten;
    Nest(Salted(salt), [Do(If)] + OwnerPath(owner) + [Do(Else)], Signed(beneficiary),
         StartGuard(start), CooldownGuard(cooldown), Flatten(last));
    assert Salted(salt) + ([Do(If)] + OwnerPath(owner) + [Do(Else)])
        == Salted(salt) + [Do(If)] + OwnerPath(owner) + [Do(Else)];
  }

  lemma {:induction false} Nest(a: seq<Tok>, b: seq<Tok>, c: seq<Tok>, d: seq<Tok>, e: seq<Tok>, f: seq<Tok>)
    ensures a + (b + (c + (d + (e + f))) + [Do(EndIf)]) == (a + b + c) + d + e + (f + [Do(EndIf)])
  {
    assert c + (d + (e + f)) == c + d + e + f;
  }

  /** From an allowance's script the wallet reads its cooldown and its start date, 0 where there is none. */
  lemma {:induction false} AllowanceScans(owner: Key, beneficiary: Key, cap: nat, cooldown: nat, start: nat, salt: Salt)
    requires cap < U64_LIMIT && cooldown < U64_LIMIT && start < U64_LIMIT
    ensures
      var ts := Parse(AllowanceScript(owner, beneficiary, cap, cooldown, start, salt));
      ts.Some? && Narrow(ts.value) && Scan(ts.value, CSV, 0) == cooldown && Scan(ts.value, CLTV, 0) == start
  {
    hide Tame, AllTame, Salted, Signed, One, ThreadCode, IntTok, Scan, AllowanceCode, Parse, Assemble, Flatten,
         Narrow, Absent, StartGuard, CooldownGuard, OwnerPath;
    AllowanceCodeOk(owner, beneficiary, cap, cooldown, start, salt);
    ParseAssemble(Flatten(AllowanceCode(owner, beneficiary, cap, cooldown, start, salt)));
    AllowanceToks(owner, beneficiary, cap, cooldown, start, salt);
    var a := Salted(salt) + [Do(If)] + OwnerPath(owner) + [Do(Else)] + Signed(beneficiary);
    var b := Flatten(ThreadCode(cap)) + One() + [Do(EndIf)];
    AroundTame(owner, beneficiary, cap, salt);
    TameIs(a);
    TameIs(b);
    GuardsScan(a, start, cooldown, b);
  }

  lemma {:induction false} AroundTame(owner: Key, beneficiary: Key, cap: nat, salt: Salt)
    requires cap < U64_LIMIT
    ensures AllTame(Salted(salt) + [Do(If)] + OwnerPath(owner) + [Do(Else)] + Signed(beneficiary))
    ensures AllTame(Flatten(ThreadCode(cap)) + One() + [Do(EndIf)])
  {
    hide Tame, IntTok, DataTok, Enc, Mag, ThreadCode, Flatten;
    TameFacts();
    HeadTame(salt, beneficiary);
    ThreadTame(cap);
    assert AllTame(OwnerPath(owner)) && AllTame([Do(If)]) && AllTame([Do(Else)]) && AllTame([Do(EndIf)]);
    hide AllTame, Salted, Signed, OwnerPath, One;
    TameJoin(Salted(salt), [Do(If)]);
    TameJoin(Salted(salt) + [Do(If)], OwnerPath(owner));
    TameJoin(Salted(salt) + [Do(If)] + OwnerPath(owner), [Do(Else)]);
    TameJoin(Salted(salt) + [Do(If)] + OwnerPath(owner) + [Do(Else)], Signed(beneficiary));
    TameJoin(Flatten(ThreadCode(cap)), One());
    TameJoin(Flatten(ThreadCode(cap)) + One(), [Do(EndIf)]);
  }

  lemma {:induction false} GuardsScan(a: seq<Tok>, start: nat, cooldown: nat, b: seq<Tok>)
    requires start < U64_LIMIT && cooldown < U64_LIMIT && Narrow(a) && Narrow(b)
    requires Absent(a, CLTV) && Absent(a, CSV) && Absent(b, CLTV) && Absent(b, CSV)
    ensures
      var ts := a + StartGuard(start) + CooldownGuard(cooldown) + b;
      Narrow(ts) && Scan(ts, CSV, 0) == cooldown && Scan(ts, CLTV, 0) == start
  {
    var s, c := StartGuard(start), CooldownGuard(cooldown);
    var ts := a + s + c + b;
    GuardFacts(start, cooldown);
    hide Scan, StartGuard, CooldownGuard, IntTok;
    assert Narrow(ts) && Absent(a + s, CSV) && Absent(c + b, CLTV);
    assert ts == a + s + (c + b);
    if start > 0 {
      ScanFinds(a, start, CheckLockTimeVerify, c + b, 0);
    } else {
      assert Absent(ts, CLTV);
      ScanAbsent(ts, CLTV, 0);
    }
    if cooldown > 0 {
      ScanFinds(a + s, cooldown, CheckSequenceVerify, b, 0);
    } else {
      assert Absent(ts, CSV);
      ScanAbsent(ts, CSV, 0);
    }
  }

  lemma {:induction false} GuardFacts(start: nat, cooldown: nat)
    requires start < U64_LIMIT && cooldown < U64_LIMIT
    ensures Narrow(StartGuard(start)) && Absent(StartGuard(start), CSV) && Narrow(CooldownGuard(cooldown))
              && Absent(CooldownGuard(cooldown), CLTV)
    ensures StartGuard(start) == if start > 0 then [IntTok(start), Do(CheckLockTimeVerify)] else []
    ensures CooldownGuard(cooldown) == if cooldown > 0 then [IntTok(cooldown), Do(CheckSequenceVerify)] else []
  {
    IntTokValue(start, 0);
    IntTokValue(cooldown, 0);
    assert IntTok(start).Data? ==> IntTok(start).width == Direct;
    assert IntTok(cooldown).Data? ==> IntTok(cooldown).width == Direct;
    hide IntTok;
  }
}
