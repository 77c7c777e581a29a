/** Scripts as byte strings and as token sequences, and the round trip between the two. */
module ScriptTokens {
  import opened Bytes
  import opened ScriptNumbers

  datatype Opcode =
    | If | Else | EndIf | Verify | Drop | Dup | Rot | Pick | Swap | Cat | Substr
    | Equal | EqualVerify | Sub | BoolOr | NumEqualVerify | LessThanOrEqual | GreaterThanOrEqual | Within
    | ZkPrecompile | Sha256 | Blake2b | CheckSig | CheckSigVerify | CheckLockTimeVerify | CheckSequenceVerify
    | TxOutputCount | TxInputIndex | TxInputScriptSigSubstr | TxInputAmount | TxInputSpk | TxOutputAmount | TxOutputSpk
    | TxInputScriptSigLen | InputCovenantId | CovInputCount | CovInputIdx | CovOutputCount | CovOutputIdx
    | Other(code: byte)
  {
    /** The byte of an opcode, from the opcode table and the oracle's own constants. */
    function Code(): byte {
      match this
      case If => 0x63
      case Else => 0x67
      case EndIf => 0x68
      case Verify => 0x69
      case Drop => 0x75
      case Dup => 0x76
      case Pick => 0x79
      case Rot => 0x7b
      case Swap => 0x7c
      case Cat => 0x7e
      case Substr => 0x7f
      case Equal => 0x87
      case EqualVerify => 0x88
      case Sub => 0x94
      case BoolOr => 0x9b
      case NumEqualVerify => 0x9d
      case LessThanOrEqual => 0xa1
      case GreaterThanOrEqual => 0xa2
      case Within => 0xa5
      case ZkPrecompile => 0xa6
      case Sha256 => 0xa8
      case Blake2b => 0xaa
      case CheckSig => 0xac
      case CheckSigVerify => 0xad
      case CheckLockTimeVerify => 0xb0
      case CheckSequenceVerify => 0xb1
      case TxOutputCount => 0xb4
      case TxInputIndex => 0xb9
      case TxInputScriptSigSubstr => 0xbc
      case TxInputAmount => 0xbe
      case TxInputSpk => 0xbf
      case TxOutputAmount => 0xc2
      case TxOutputSpk => 0xc3
      case TxInputScriptSigLen => 0xc9
      case InputCovenantId => 0xcf
      case CovInputCount => 0xd0
      case CovInputIdx => 0xd1
      case CovOutputCount => 0xd2
      case CovOutputIdx => 0xd3
      case Other(code) => code
    }
  }

  function StackOp(code: byte): (op: Opcode)
    ensures op.Code() == code
  {
    match code
    case 0x63 => If
    case 0x67 => Else
    case 0x68 => EndIf
    case 0x69 => Verify
    case 0x75 => Drop
    case 0x76 => Dup
    case 0x79 => Pick
    case 0x7b => Rot
    case 0x7c => Swap
    case 0x7e => Cat
    case 0x7f => Substr
    case _ => Other(code)
  }

  function NumberOp(code: byte): (op: Opcode)
    ensures op.Code() == code
  {
    match code
    case 0x87 => Equal
    case 0x88 => EqualVerify
    case 0x94 => Sub
    case 0x9b => BoolOr
    case 0x9d => NumEqualVerify
    case 0xa1 => LessThanOrEqual
    case 0xa2 => GreaterThanOrEqual
    case 0xa5 => Within
    case 0xa6 => ZkPrecompile
    case 0xa8 => Sha256
    case 0xaa => Blake2b
    case 0xac => CheckSig
    case 0xad => CheckSigVerify
    case _ => Other(code)
  }

  function TxOp(code: byte): (op: Opcode)
    ensures op.Code() == code
  {
    match code
    case 0xb0 => CheckLockTimeVerify
    case 0xb1 => CheckSequenceVerify
    case 0xb4 => TxOutputCount
    case 0xb9 => TxInputIndex
    case 0xbc => TxInputScriptSigSubstr
    case 0xbe => TxInputAmount
    case 0xbf => TxInputSpk
    case 0xc2 => TxOutputAmount
    case 0xc3 => TxOutputSpk
    case _ => Other(code)
  }

  function CovenantOp(code: byte): (op: Opcode)
    ensures op.Code() == code
  {
    match code
    case 0xc9 => TxInputScriptSigLen
    case 0xcf => InputCovenantId
    case 0xd0 => CovInputCount
    case 0xd1 => CovInputIdx
    case 0xd2 => CovOutputCount
    case 0xd3 => CovOutputIdx
    case _ => Other(code)
  }

  /** The opcode of a byte that does not push. */
  function Decode(code: byte): (op: Opcode)
    ensures op.Code() == code
  {
    if code < 0x87 then StackOp(code) else if code < 0xb0 then NumberOp(code) else if code < 0xc9 then TxOp(code)
        else CovenantOp(code)
  }

  /** How a push names its length: in the opcode, or in 1, 2 or 4 bytes after it. */
  datatype Width = Direct | OneByte | TwoBytes | FourBytes

  datatype Tok =
    | Num(n: nat)
    | Data(width: Width, bytes: seq<byte>)
    | Do(op: Opcode)

  predicate PushByte(code: byte) {
    code <= 0x4e || 0x51 <= code <= 0x60
  }

  /** A token that stands for itself: its length fits its width, and an opcode is the one its byte decodes to. */
  predicate TokOk(t: Tok) {
    match t
    case Num(n) => n <= 16
    case Data(Direct, bytes) => 1 <= |bytes| <= 75
    case Data(OneByte, bytes) => |bytes| < 0x100
    case Data(TwoBytes, bytes) => |bytes| < 0x1_0000
    case Data(FourBytes, bytes) => |bytes| < U32_LIMIT
    case Do(op) => !PushByte(op.Code()) && Decode(op.Code()) == op
  }

  function TokBytes(t: Tok): (b: seq<byte>)
    requires TokOk(t)
    ensures |b| > 0
  {
    match t
    case Num(n) => [if n == 0 then 0 else 0x50 + n]
    case Data(Direct, bytes) => [|bytes|] + bytes
    case Data(OneByte, bytes) => [0x4c, |bytes|] + bytes
    case Data(TwoBytes, bytes) => [0x4d] + Le16Bytes(|bytes|) + bytes
    case Data(FourBytes, bytes) => [0x4e] + Le32Bytes(|bytes|) + bytes
    case Do(op) => [op.Code()]
  }

  predicate ToksOk(ts: seq<Tok>) {
    forall t :: t in ts ==> TokOk(t)
  }

  function Assemble(ts: seq<Tok>): seq<byte>
    requires ToksOk(ts)
  {
    if ts == [] then [] else TokBytes(ts[0]) + Assemble(ts[1..])
  }

  lemma {:induction false} AssembleConcat(a: seq<Tok>, b: seq<Tok>)
    requires ToksOk(a) && ToksOk(b)
    ensures ToksOk(a + b) && Assemble(a + b) == Assemble(a) + Assemble(b)
  {
    if a == [] {
      assert a + b == b;
    } else {
      assert (a + b)[1..] == a[1..] + b;
      AssembleConcat(a[1..], b);
    }
  }

  /** One more token at the end. */
  lemma {:induction false} Appended(ts: seq<Tok>, t: Tok)
    requires ToksOk(ts) && TokOk(t)
    ensures ToksOk(ts + [t]) && Assemble(ts + [t]) == Assemble(ts) + TokBytes(t)
  {
    hide TokOk, TokBytes;
    AssembleConcat(ts, [t]);
    assert [t][1..] == [];
    assert Assemble([t]) == TokBytes(t) + [];
  }

  /** The first token of a script, and how many bytes it takes; nothing when a push runs past the end. */
  function First(s: seq<byte>): (r: Option<(Tok, nat)>)
    requires s != []
    ensures r.Some? ==> 0 < r.value.1 <= |s| && TokOk(r.value.0) && TokBytes(r.value.0) == s[..r.value.1]
  {
    var code := s[0];
    if code == 0 then
      assert s[..1] == [0];
      Some((Num(0), 1))
    else if code <= 0x4b then Push(s, Direct, 1, code as int)
    else if code == 0x4c then if |s| < 2 then None else Push(s, OneByte, 2, s[1] as int)
    else if code == 0x4d then if |s| < 3 then None else PushTwo(s)
    else if code == 0x4e then if |s| < 5 then None else PushFour(s)
    else if 0x51 <= code <= 0x60 then
      assert s[..1] == [code];
      Some((Num(code - 0x50), 1))
    else
      assert s[..1] == [code];
      Some((Do(Decode(code)), 1))
  }

  function Push(s: seq<byte>, width: Width, start: nat, len: nat): (r: Option<(Tok, nat)>)
    requires start <= |s|
    ensures r == if start + len <= |s| then Some((Data(width, s[start..start + len]), start + len)) else None
  {
    if start + len <= |s| then Some((Data(width, s[start..start + len]), start + len)) else None
  }

  function PushTwo(s: seq<byte>): (r: Option<(Tok, nat)>)
    requires |s| >= 3 && s[0] == 0x4d
    ensures r.Some? ==> 0 < r.value.1 <= |s| && TokOk(r.value.0) && TokBytes(r.value.0) == s[..r.value.1]
    ensures r == Push(s, TwoBytes, 3, Le16(s, 1))
  {
    var len := Le16(s, 1);
    assert Le16Bytes(len) == s[1..3];
    Push(s, TwoBytes, 3, len)
  }

  function PushFour(s: seq<byte>): (r: Option<(Tok, nat)>)
    requires |s| >= 5 && s[0] == 0x4e
    ensures r.Some? ==> 0 < r.value.1 <= |s| && TokOk(r.value.0) && TokBytes(r.value.0) == s[..r.value.1]
    ensures r == Push(s, FourBytes, 5, Le32(s, 1))
  {
    var len := Le32(s, 1);
    Le32BytesOf(s[1..5]);
    assert Le32(s[1..5], 0) == Le32(s, 1);
    Push(s, FourBytes, 5, len)
  }

  lemma {:induction false} Le32BytesOf(b: seq<byte>)
    requires |b| == 4
    ensures Le32Bytes(Le32(b, 0)) == b
  {
    var hi := b[3] as int;
    var mid := b[2] as int + 256 * hi;
    var low := b[1] as int + 256 * mid;
    assert Le32(b, 0) == b[0] as int + 256 * low;
    assert Le32(b, 0) / 256 == low && low / 256 == mid && mid / 256 == hi;
  }

  function Parse(s: seq<byte>): (r: Option<seq<Tok>>)
    ensures r.Some? ==> ToksOk(r.value) && Assemble(r.value) == s
  {
    if s == [] then Some([])
    else
      var head := First(s);
      if head.None? then None
      else
        var rest := Parse(s[head.value.1..]);
        if rest.None? then None
        else
          Joined(s, head.value.0, head.value.1, rest.value);
          Some([head.value.0] + rest.value)
  }

  lemma {:induction false} Joined(s: seq<byte>, t: Tok, n: nat, rest: seq<Tok>)
    requires TokOk(t) && n <= |s| && TokBytes(t) == s[..n] && ToksOk(rest) && Assemble(rest) == s[n..]
    ensures ToksOk([t] + rest) && Assemble([t] + rest) == s
  {
    hide TokBytes, TokOk;
    assert ([t] + rest)[1..] == rest;
  }

  /** The first token of what a token and more bytes assemble to is that token. */
  lemma {:induction false} FirstOf(t: Tok, rest: seq<byte>)
    requires TokOk(t)
    ensures First(TokBytes(t) + rest) == Some((t, |TokBytes(t)|))
  {
    var s := TokBytes(t) + rest;
    match t {
      case Num(_) =>
      case Do(_) =>
      case Data(Direct, bytes) => assert s[1..1 + |bytes|] == bytes;
      case Data(OneByte, bytes) => assert s[2..2 + |bytes|] == bytes;
      case Data(TwoBytes, bytes) =>
        assert s[1] == Le16Bytes(|bytes|)[0] && s[2] == Le16Bytes(|bytes|)[1];
        assert s[3..3 + |bytes|] == bytes;
      case Data(FourBytes, bytes) =>
        var l := Le32Bytes(|bytes|);
        assert s[1] == l[0] && s[2] == l[1] && s[3] == l[2] && s[4] == l[3];
        assert s[5..5 + |bytes|] == bytes;
    }
  }

  /** Assembling loses nothing: every script an engine can read is the assembly of exactly one token sequence. */
  lemma {:induction false} ParseAssemble(ts: seq<Tok>)
    requires ToksOk(ts)
    ensures Parse(Assemble(ts)) == Some(ts)
  {
    if ts != [] {
      var rest := Assemble(ts[1..]);
      var s := TokBytes(ts[0]) + rest;
      FirstOf(ts[0], rest);
      assert s[|TokBytes(ts[0])|..] == rest;
      ParseAssemble(ts[1..]);
      assert ts == [ts[0]] + ts[1..];
    }
  }

  // ---- the tokens the builders' helpers push ----

  /** `push_int`. */
  function IntTok(v: nat): (t: Tok)
    requires v < U64_LIMIT
    ensures TokOk(t) && (v <= 16 ==> t == Num(v)) && (v > 16 ==> t == Data(Direct, Enc(v)))
  {
    if v <= 16 then Num(v)
    else
      EncLength(v);
      Data(Direct, Enc(v))
  }

  lemma {:induction false} MagAtMost(v: nat, n: nat)
    requires v < Pow256(n)
    ensures |Mag(v)| <= n
  {
    if v > 0 {
      MagAtMost(v / 256, n - 1);
    }
  }

  lemma {:induction false} EncLength(v: nat)
    requires 0 < v < U64_LIMIT
    ensures 1 <= |Enc(v)| <= 9
  {
    Pow256Of8();
    MagAtMost(v, 8);
  }

  /** `push_data`, with the shortest width. */
  function DataTok(data: seq<byte>): (t: Tok)
    requires |data| < U32_LIMIT
    ensures TokOk(t)
  {
    if data == [] then Num(0)
    else Data(if |data| <= 75 then Direct else if |data| <= 255 then OneByte else if |data| <= 65535 then TwoBytes
        else FourBytes, data)
  }

  /** The bytes a pushing token leaves on the stack. */
  function Pushed(t: Tok): Option<seq<byte>> {
    match t
    case Num(n) => if n < 0x100 then Some(if n == 0 then [] else [n]) else None
    case Data(_, bytes) => Some(bytes)
    case Do(_) => None
  }

  lemma {:induction false} PushedInt(v: nat)
    requires v < U64_LIMIT
    ensures Pushed(IntTok(v)) == Some(Enc(v))
  {
    if 0 < v <= 16 {
      assert Mag(v) == [v];
    }
  }

  lemma PushedData(data: seq<byte>)
    requires |data| < U32_LIMIT
    ensures Pushed(DataTok(data)) == Some(data)
  {
  }

  // ---- lengths ----

  function TokLen(t: Tok): nat {
    if TokOk(t) then |TokBytes(t)| else 0
  }

  function Len(ts: seq<Tok>): nat
    requires ToksOk(ts)
  {
    |Assemble(ts)|
  }

  lemma {:induction false} LenConcat(a: seq<Tok>, b: seq<Tok>)
    requires ToksOk(a) && ToksOk(b)
    ensures ToksOk(a + b) && Len(a + b) == Len(a) + Len(b)
  {
    AssembleConcat(a, b);
    hide Assemble;
  }

  lemma {:induction false} LenOne(ts: seq<Tok>)
    requires |ts| == 1 && ToksOk(ts)
    ensures Len(ts) == TokLen(ts[0])
  {
    assert ts[1..] == [];
    assert Assemble(ts[1..]) == [] && TokOk(ts[0]);
    hide TokBytes, TokOk;
    assert Assemble(ts) == TokBytes(ts[0]) + [];
  }

  /** The length of token `i`, if there is one. */
  function LenAt(ts: seq<Tok>, i: nat): nat {
    if i < |ts| then TokLen(ts[i]) else 0
  }

  /** The length of up to eight tokens, written out. */
  function LenTo8(ts: seq<Tok>): nat {
    LenAt(ts, 0) + LenAt(ts, 1) + LenAt(ts, 2) + LenAt(ts, 3)
    + LenAt(ts, 4) + LenAt(ts, 5) + LenAt(ts, 6) + LenAt(ts, 7)
  }

  lemma {:induction false} LenIsTo8(ts: seq<Tok>)
    requires |ts| <= 8 && ToksOk(ts)
    ensures Len(ts) == LenTo8(ts)
  {
    hide TokBytes, TokOk;
    if ts != [] {
      assert TokOk(ts[0]);
      LenIsTo8(ts[1..]);
    }
  }

  lemma {:induction false} LenFacts()
    ensures forall op: Opcode {:trigger TokLen(Do(op))} :: !op.Other? ==> TokLen(Do(op)) == 1
    ensures forall v: nat {:trigger IntTok(v)} :: v <= 16 ==> TokLen(IntTok(v)) == 1
    ensures forall d: seq<byte> {:trigger DataTok(d)} :: 1 <= |d| <= 75 ==> TokLen(DataTok(d)) == 1 + |d|
  {
    hide Enc;
  }

  /** What `push_int` takes for a number of `n` bytes with room for the sign. */
  lemma {:induction false} IntLen(v: nat, n: nat)
    requires 16 < v < U64_LIMIT && n > 0 && Pow256(n - 1) <= v < 128 * Pow256(n - 1)
    ensures TokLen(IntTok(v)) == 1 + n
  {
    EncLengthIs(v, n);
    hide Enc, Pow256;
  }
}
