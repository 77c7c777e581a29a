/**
 * The script engine: what each opcode the builders use does to the stack, how conditionals are
 * skipped, and when a P2SH input is accepted. Hashes, signatures, time locks and the ZK
 * precompile are parameters.
 */
module ScriptMachine {
  import opened Bytes
  import opened ScriptNumbers
  import opened ScriptTokens

  type Hash = s: seq<byte> | |s| == 32 witness seq(32, i => 0)

  function ZeroHash(): Hash {
    seq(32, i => 0)
  }

  /** Amounts are in sompi; `spk` is the public key script with its two version bytes in front. */
  datatype Input = Input(amount: nat, spk: seq<byte>, tag: Option<Hash>, sigScript: seq<byte>)

  datatype Output = Output(amount: nat, spk: seq<byte>, tag: Option<Hash>)

  /** The transaction as the script of input `index` sees it, and the engine's oracles. */
  datatype Env = Env(
    index: nat,
    inputs: seq<Input>,
    outputs: seq<Output>,
    checkSig: (seq<byte>, seq<byte>) -> bool,
    lockTimeOk: int -> bool,
    sequenceOk: int -> bool,
    blake2b: seq<byte> -> Hash,
    sha256: seq<byte> -> Hash,
    zk: seq<seq<byte>> -> bool)
  {
    predicate Valid() { index < |inputs| }

    function Self(): Input
      requires Valid()
    {
      inputs[index]
    }
  }

  datatype Stack = Nil | Push(top: seq<byte>, rest: Stack)

  /** A failed script, or a stack to go on from. */
  datatype State = Failed | At(stack: Stack)

  function Depth(s: Stack): nat {
    if s.Nil? then 0 else 1 + Depth(s.rest)
  }

  function Nth(s: Stack, n: nat): seq<byte>
    requires n < Depth(s)
  {
    if n == 0 then s.top else Nth(s.rest, n - 1)
  }

  // ---- covenant tags ----

  function InputsTagged(ins: seq<Input>, tag: seq<byte>): seq<nat> {
    if ins == [] then []
    else
      var n := |ins| - 1;
      InputsTagged(ins[..n], tag) + (if ins[n].tag.Some? && ins[n].tag.value == tag then [n] else [])
  }

  /** Indices of the outputs that carry `tag`, ascending. */
  function OutputsTagged(outs: seq<Output>, tag: seq<byte>): seq<nat> {
    if outs == [] then []
    else
      var n := |outs| - 1;
      OutputsTagged(outs[..n], tag) + (if outs[n].tag.Some? && outs[n].tag.value == tag then [n] else [])
  }

  lemma {:induction false} OutputsTaggedAre(outs: seq<Output>, tag: seq<byte>, i: nat)
    ensures i in OutputsTagged(outs, tag) <==> i < |outs| && outs[i].tag.Some? && outs[i].tag.value == tag
  {
    if outs != [] {
      var n := |outs| - 1;
      OutputsTaggedAre(outs[..n], tag, i);
      assert i < n ==> outs[..n][i] == outs[i];
    }
  }

  lemma {:induction false} InputsTaggedAre(ins: seq<Input>, tag: seq<byte>, i: nat)
    ensures i in InputsTagged(ins, tag) <==> i < |ins| && ins[i].tag.Some? && ins[i].tag.value == tag
  {
    if ins != [] {
      var n := |ins| - 1;
      InputsTaggedAre(ins[..n], tag, i);
      assert i < n ==> ins[..n][i] == ins[i];
    }
  }

  /** The id an input carries; the engine reads an untagged input as the zero hash. */
  function TagOf(i: Input): Hash {
    if i.tag.Some? then i.tag.value else ZeroHash()
  }

  // ---- opcodes ----

  function Must(c: bool, s: Stack): State {
    if c then At(s) else Failed
  }

  /** `b[start..end]`. */
  function Slice(b: seq<byte>, start: int, end: int, s: Stack): State {
    if 0 <= start <= end <= |b| then At(Push(b[start..end], s)) else Failed
  }

  function InputAt(env: Env, n: int): Option<Input> {
    if 0 <= n < |env.inputs| then Some(env.inputs[n]) else None
  }

  function OutputAt(env: Env, n: int): Option<Output> {
    if 0 <= n < |env.outputs| then Some(env.outputs[n]) else None
  }

  /** The `k`-th of some indices. */
  function IndexAt(indices: seq<nat>, k: int, s: Stack): State {
    if 0 <= k < |indices| then At(Push(Enc(indices[k]), s)) else Failed
  }

  /** Opcodes that take nothing from the stack. */
  function Apply0(env: Env, op: Opcode, s: Stack): State {
    match op
    case TxInputIndex => At(Push(Enc(env.index), s))
    case TxOutputCount => At(Push(Enc(|env.outputs|), s))
    case _ => Failed
  }

  /** Opcodes that take `a` from the stack `s`. */
  function Apply1(env: Env, op: Opcode, a: seq<byte>, s: Stack): State {
    match op
    case Verify => Must(Truthy(a), s)
    case Drop => At(s)
    case Dup => At(Push(a, Push(a, s)))
    case Pick => var n := Dec(a); if 0 <= n < Depth(s) then At(Push(Nth(s, n), s)) else Failed
    case Sha256 => At(Push(env.sha256(a), s))
    case Blake2b => At(Push(env.blake2b(a), s))
    case CheckLockTimeVerify => Must(env.lockTimeOk(Dec(a)), s)
    case CheckSequenceVerify => Must(env.sequenceOk(Dec(a)), s)
    case TxInputAmount => var i := InputAt(env, Dec(a)); if i.Some? then At(Push(Enc(i.value.amount), s)) else Failed
    case TxInputSpk => var i := InputAt(env, Dec(a)); if i.Some? then At(Push(i.value.spk, s)) else Failed
    case TxInputScriptSigLen => var i := InputAt(env, Dec(a)); if i.Some? then At(Push(Enc(|i.value.sigScript|), s))
        else Failed
    case TxOutputAmount => var o := OutputAt(env, Dec(a)); if o.Some? then At(Push(Enc(o.value.amount), s)) else Failed
    case TxOutputSpk => var o := OutputAt(env, Dec(a)); if o.Some? then At(Push(o.value.spk, s)) else Failed
    case InputCovenantId => var i := InputAt(env, Dec(a)); if i.Some? then At(Push(TagOf(i.value), s)) else Failed
    case CovInputCount => At(Push(Enc(|InputsTagged(env.inputs, a)|), s))
    case CovOutputCount => At(Push(Enc(|OutputsTagged(env.outputs, a)|), s))
    case _ => Failed
  }

  /** Opcodes that take `b` from the top of the stack and `a` from below it. */
  function Apply2(env: Env, op: Opcode, a: seq<byte>, b: seq<byte>, s: Stack): State {
    match op
    case Swap => At(Push(a, Push(b, s)))
    case Cat => At(Push(a + b, s))
    case Equal => At(Push(Flag(a == b), s))
    case EqualVerify => Must(a == b, s)
    case Sub => At(Push(Enc(Dec(a) - Dec(b)), s))
    case BoolOr => At(Push(Flag(Dec(a) != 0 || Dec(b) != 0), s))
    case NumEqualVerify => Must(Dec(a) == Dec(b), s)
    case LessThanOrEqual => At(Push(Flag(Dec(a) <= Dec(b)), s))
    case GreaterThanOrEqual => At(Push(Flag(Dec(a) >= Dec(b)), s))
    case CheckSig => At(Push(Flag(env.checkSig(a, b)), s))
    case CheckSigVerify => Must(env.checkSig(a, b), s)
    case CovInputIdx => IndexAt(InputsTagged(env.inputs, a), Dec(b), s)
    case CovOutputIdx => IndexAt(OutputsTagged(env.outputs, a), Dec(b), s)
    case _ => Failed
  }

  /** Opcodes that take three items; `c` was on top. */
  function Apply3(env: Env, op: Opcode, a: seq<byte>, b: seq<byte>, c: seq<byte>, s: Stack): State {
    match op
    case Rot => At(Push(a, Push(c, Push(b, s))))
    case Substr => Slice(a, Dec(b), Dec(c), s)
    case Within => At(Push(Flag(Dec(b) <= Dec(a) < Dec(c)), s))
    case TxInputScriptSigSubstr =>
      var i := InputAt(env, Dec(a));
      if i.Some? then Slice(i.value.sigScript, Dec(b), Dec(c), s) else Failed
    case _ => Failed
  }

  /** The nine items of the ZK precompile, top first. */
  function TakeNine(s: Stack): Option<(seq<seq<byte>>, Stack)> {
    Take(s, 9)
  }

  function Take(s: Stack, n: nat): Option<(seq<seq<byte>>, Stack)> {
    if n == 0 then Some(([], s))
    else if s.Nil? then None
    else
      var more := Take(s.rest, n - 1);
      if more.None? then None else Some(([s.top] + more.value.0, more.value.1))
  }

  predicate Nullary(op: Opcode) {
    op.TxInputIndex? || op.TxOutputCount?
  }

  predicate Unary(op: Opcode) {
    || op.Verify? || op.Drop? || op.Dup? || op.Pick? || op.Sha256? || op.Blake2b?
    || op.CheckLockTimeVerify? || op.CheckSequenceVerify? || op.TxInputAmount? || op.TxInputSpk?
    || op.TxInputScriptSigLen? || op.TxOutputAmount? || op.TxOutputSpk? || op.InputCovenantId?
    || op.CovInputCount? || op.CovOutputCount?
  }

  predicate Binary(op: Opcode) {
    || op.Swap? || op.Cat? || op.Equal? || op.EqualVerify? || op.Sub? || op.BoolOr? || op.NumEqualVerify?
    || op.LessThanOrEqual? || op.GreaterThanOrEqual? || op.CheckSig? || op.CheckSigVerify?
    || op.CovInputIdx? || op.CovOutputIdx?
  }

  predicate Ternary(op: Opcode) {
    op.Rot? || op.Substr? || op.Within? || op.TxInputScriptSigSubstr?
  }

  /** One opcode that is not a conditional. Anything the model does not know fails. */
  function Apply(env: Env, op: Opcode, s: Stack): State {
    if Nullary(op) then Apply0(env, op, s)
    else if Unary(op) then
      if s.Push? then Apply1(env, op, s.top, s.rest) else Failed
    else if Binary(op) then
      if s.Push? && s.rest.Push? then Apply2(env, op, s.rest.top, s.top, s.rest.rest) else Failed
    else if Ternary(op) then
      if s.Push? && s.rest.Push? && s.rest.rest.Push? then
        Apply3(env, op, s.rest.rest.top, s.rest.top, s.top, s.rest.rest.rest)
      else Failed
    else if op.ZkPrecompile? then
      var t := TakeNine(s);
      if t.Some? then At(Push(Flag(env.zk(t.value.0)), t.value.1)) else Failed
    else Failed
  }

  predicate IsControl(t: Tok) {
    t == Do(If) || t == Do(Else) || t == Do(EndIf)
  }

  /** One token outside conditionals. */
  function Step(env: Env, t: Tok, st: State): State {
    if st.Failed? then Failed
    else if t.Do? then Apply(env, t.op, st.stack)
    else
      var data := Pushed(t);
      if data.Some? then At(Push(data.value, st.stack)) else Failed
  }

  // ---- conditionals ----

  /** A conditional being executed, one whose branch is not taken, or one inside such a branch. */
  datatype Cond = Taken | NotTaken | Skipped

  datatype Machine = Machine(state: State, conds: seq<Cond>)

  predicate Executing(conds: seq<Cond>) {
    forall c :: c in conds ==> c == Taken
  }

  function Fail(conds: seq<Cond>): Machine {
    Machine(Failed, conds)
  }

  function StepControl(t: Tok, m: Machine): Machine
    requires IsControl(t)
  {
    if t.op.If? then
      if !Executing(m.conds) then m.(conds := [Skipped] + m.conds)
      else if m.state.Failed? || m.state.stack.Nil? then Fail(m.conds)
      else Machine(At(m.state.stack.rest), [if Truthy(m.state.stack.top) then Taken else NotTaken] + m.conds)
    else if m.conds == [] then Fail([])
    else if t.op.Else? then
      match m.conds[0]
      case Taken => m.(conds := [NotTaken] + m.conds[1..])
      case NotTaken => m.(conds := [Taken] + m.conds[1..])
      case Skipped => m
    else m.(conds := m.conds[1..])
  }

  function StepMachine(env: Env, t: Tok, m: Machine): Machine {
    if m.state.Failed? then m
    else if IsControl(t) then StepControl(t, m)
    else if Executing(m.conds) then m.(state := Step(env, t, m.state))
    else m
  }

  function Run(env: Env, ts: seq<Tok>, m: Machine): Machine {
    if ts == [] then m else Run(env, ts[1..], StepMachine(env, ts[0], m))
  }

  /** A script succeeds when its conditionals are closed and exactly one item, a true one, is left. */
  predicate Succeeds(m: Machine) {
    m.conds == [] && Clean(m.state)
  }

  predicate Clean(st: State) {
    st.At? && st.stack.Push? && st.stack.rest.Nil? && Truthy(st.stack.top)
  }

  /** The redeem script `redeem` accepts when run on the stack `s`. */
  predicate Accepts(env: Env, redeem: seq<byte>, s: Stack) {
    var ts := Parse(redeem);
    ts.Some? && Succeeds(Run(env, ts.value, Machine(At(s), [])))
  }

  // ---- P2SH ----

  /** Version 0, `BLAKE2B <hash> EQUAL`. */
  function P2sh(h: Hash): seq<byte> {
    [0x00, 0x00, 0xAA, 0x20] + h + [0x87]
  }

  predicate PushesOnly(ts: seq<Tok>) {
    forall t :: t in ts ==> Pushed(t).Some?
  }

  /** The stack a push-only script leaves. */
  function Items(ts: seq<Tok>, s: Stack): Stack
    requires PushesOnly(ts)
  {
    if ts == [] then s else Items(ts[1..], Push(Pushed(ts[0]).value, s))
  }

  /** What spending a P2SH input takes: push-only, the last push hashes to the address, and it accepts the rest. */
  predicate SpendOk(env: Env)
    requires env.Valid()
  {
    var pushes := Parse(env.Self().sigScript);
    && pushes.Some? && pushes.value != [] && PushesOnly(pushes.value)
    && var redeem := Pushed(pushes.value[|pushes.value| - 1]).value;
    && env.Self().spk == P2sh(env.blake2b(redeem))
    && Accepts(env, redeem, Items(pushes.value[..|pushes.value| - 1], Nil))
  }

  /** No other script hashes like `script`. */
  ghost predicate NoCollision(env: Env, script: seq<byte>) {
    forall r: seq<byte> :: env.blake2b(r) == env.blake2b(script) ==> r == script
  }

  lemma {:induction false} P2shInjective(a: Hash, b: Hash)
    requires P2sh(a) == P2sh(b)
    ensures a == b
  {
    assert a == P2sh(a)[4..36] && b == P2sh(b)[4..36];
  }

  /** A spend of a script's address runs that script on the stack the signature script left below it. */
  lemma {:induction false} SpendRuns(env: Env, script: seq<byte>) returns (s: Stack)
    requires env.Valid() && SpendOk(env) && env.Self().spk == P2sh(env.blake2b(script)) && NoCollision(env, script)
    ensures Accepts(env, script, s)
    ensures |script| > 1 ==> Ends(env.Self().sigScript, script)
  {
    var pushes := Parse(env.Self().sigScript).value;
    var n := |pushes| - 1;
    var redeem := Pushed(pushes[n]).value;
    P2shInjective(env.blake2b(redeem), env.blake2b(script));
    s := Items(pushes[..n], Nil);
    if |script| > 1 {
      LastPushEnds(pushes);
    }
  }

  predicate Ends(s: seq<byte>, t: seq<byte>) {
    |t| <= |s| && s[|s| - |t|..] == t
  }

  lemma {:induction false} LastPushEnds(ts: seq<Tok>)
    requires ToksOk(ts) && ts != [] && ts[|ts| - 1].Data?
    ensures Ends(Assemble(ts), ts[|ts| - 1].bytes)
  {
    hide *;
    var n := |ts| - 1;
    OkParts(ts, n);
    Appended(ts[..n], ts[n]);
    assert ts == ts[..n] + [ts[n]];
    TokEnds(ts[n]);
    EndsAfter(Assemble(ts[..n]), TokBytes(ts[n]), ts[n].bytes);
  }

  lemma OkParts(ts: seq<Tok>, n: nat)
    requires ToksOk(ts) && n < |ts|
    ensures ToksOk(ts[..n]) && TokOk(ts[n])
  {
  }

  lemma TokEnds(t: Tok)
    requires TokOk(t) && t.Data?
    ensures Ends(TokBytes(t), t.bytes)
  {
  }

  lemma {:induction false} EndsAfter(a: seq<byte>, b: seq<byte>, t: seq<byte>)
    requires Ends(b, t)
    ensures Ends(a + b, t)
  {
    assert (a + b)[|a + b| - |t|..] == b[|b| - |t|..];
  }

  /** `next` spends output `o` of `env`. */
  predicate SpendsOutput(env: Env, next: Env, o: nat)
    requires next.Valid()
  {
    && o < |env.outputs|
    && next.Self().amount == env.outputs[o].amount
    && next.Self().spk == env.outputs[o].spk
    && next.Self().tag == env.outputs[o].tag
  }
}
