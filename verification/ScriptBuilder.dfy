/** The byte vector the covenant builders append to. */
module ScriptBuilder {
  import opened Bytes
  import opened ScriptNumbers
  import opened ScriptTokens
  import opened ScriptBytes

  /** A script under construction: its bytes, and the tokens they are the assembly of. */
  class ScriptBuf {
    var bytes: seq<byte>
    ghost var toks: seq<Tok>

    ghost predicate Valid()
      reads this
    {
      ToksOk(toks) && bytes == Assemble(toks)
    }

    constructor ()
      ensures Valid() && toks == [] && bytes == []
    {
      bytes := [];
      toks := [];
    }

    method PushOp(op: Opcode)
      requires Valid() && !op.Other?
      modifies this
      ensures Valid() && toks == old(toks) + [Do(op)]
      ensures bytes == old(bytes) + [op.Code()]
    {
      Appended(toks, Do(op));
      bytes := bytes + [op.Code()];
      toks := toks + [Do(op)];
    }

    /**
     * `push_int`: the small-integer opcodes, then the minimal little-endian bytes with a sign byte
     * if they need one.
     */
    method PushInt(value: nat)
      requires Valid() && value < U64_LIMIT
      modifies this
      ensures Valid() && toks == old(toks) + [IntTok(value)]
      ensures bytes == old(bytes) + NumberPush(value)
    {
      hide Assemble, TokBytes, TokOk, IntTok, ToksOk, NumberPush, Enc, Mag;
      Appended(toks, IntTok(value));
      PushedNumber(value);
      if value == 0 {
        bytes := bytes + [0x00];
      } else if value <= 16 {
        bytes := bytes + [0x50 + value];
      } else {
        var number := LeBytesOf(value);
        if number[|number| - 1] >= 0x80 {
          number := number + [0x00];
        }
        bytes := bytes + ([|number|] + number);
      }
      toks := toks + [IntTok(value)];
    }

    /** `push_data`: the shortest length prefix that fits, then the data. */
    method PushData(data: seq<byte>)
      requires Valid() && |data| < U32_LIMIT
      modifies this
      ensures Valid() && toks == old(toks) + [DataTok(data)]
      ensures bytes == old(bytes) + DataPush(data)
    {
      hide Assemble, TokBytes, TokOk, DataTok, ToksOk, DataPush;
      Appended(toks, DataTok(data));
      DataTokBytes(data);
      DataPushed(data);
      var prefix: seq<byte>;
      if |data| <= 75 {
        prefix := [|data|];
      } else if |data| <= 255 {
        prefix := [0x4c, |data|];
      } else if |data| <= 65535 {
        prefix := [0x4d] + [|data| % 0x100, |data| / 0x100];
      } else {
        prefix := [0x4e] + Le32Bytes(|data|);
      }
      assert TokBytes(DataTok(data)) == prefix + data;
      hide *;
      assert bytes + (prefix + data) == bytes + prefix + data;
      bytes := bytes + prefix + data;
      toks := toks + [DataTok(data)];
    }

    /** `push_pubkey` and the salt prefix: a fixed length byte, then the bytes. */
    method PushFixed(data: seq<byte>)
      requires Valid() && 1 <= |data| <= 75
      modifies this
      ensures Valid() && toks == old(toks) + [DataTok(data)]
      ensures bytes == old(bytes) + [|data|] + data
    {
      hide Assemble, TokBytes, TokOk, DataTok, ToksOk;
      Appended(toks, DataTok(data));
      DataTokBytes(data);
      var prefix: seq<byte> := [|data|];
      assert TokBytes(DataTok(data)) == prefix + data;
      hide *;
      assert bytes + (prefix + data) == bytes + prefix + data;
      bytes := bytes + prefix + data;
      toks := toks + [DataTok(data)];
    }
  }

  /** The loop of `push_int`. */
  method LeBytesOf(value: nat) returns (bytes: seq<byte>)
    requires value > 0
    ensures bytes == Mag(value)
  {
    hide *;
    var v := value;
    bytes := [];
    MagZero();
    while v > 0
      invariant bytes + Mag(v) == Mag(value)
    {
      MagStep(bytes, v);
      bytes := bytes + [v % 256];
      v := v / 256;
    }
  }

  lemma MagZero()
    ensures Mag(0) == []
  {
  }

  lemma {:induction false} MagUnfold(v: nat)
    requires v > 0
    ensures v % 256 < 0x100 && Mag(v) == [v % 256] + Mag(v / 256)
  {
    hide LeVal;
  }

  lemma {:induction false} MagStep(done: seq<byte>, v: nat)
    requires v > 0
    ensures done + Mag(v) == done + [v % 256] + Mag(v / 256)
  {
    MagUnfold(v);
    hide *;
    var low: seq<byte> := [v % 256];
    assert done + (low + Mag(v / 256)) == done + low + Mag(v / 256);
  }

  // ---- what is pushed one by one is a block ----

  lemma BufBytes(s: ScriptBuf)
    requires s.Valid()
    ensures ToksOk(s.toks) && s.bytes == Assemble(s.toks)
  {
  }

  lemma Regroup<T>(base: seq<T>, a: seq<T>, b: seq<T>)
    ensures base + a + b == base + (a + b)
  {
  }

  /** Something between two blocks. */
  lemma Enclosed<T>(base: seq<T>, a: seq<T>, mid: seq<T>, b: seq<T>)
    ensures base + a + mid + b == base + (a + mid + b)
  {
  }

  /** `base` with item `i` behind it, if there is one. */
  function With<T>(base: seq<T>, ts: seq<T>, i: nat): seq<T> {
    if i < |ts| then base + [ts[i]] else base
  }

  /** Up to eight tokens or bytes appended one at a time. */
  lemma {:induction false} Block<T>(base: seq<T>, ts: seq<T>)
    requires |ts| <= 8
    ensures
      var four := With(With(With(With(base, ts, 0), ts, 1), ts, 2), ts, 3);
      With(With(With(With(four, ts, 4), ts, 5), ts, 6), ts, 7) == base + ts
  {
    Appends(base, ts, 0, 1);
    Appends(base, ts, 1, 2);
    Appends(base, ts, 2, 3);
    Appends(base, ts, 3, 4);
    Appends(base, ts, 4, 5);
    Appends(base, ts, 5, 6);
    Appends(base, ts, 6, 7);
    Appends(base, ts, 7, 8);
    hide With;
    assert Front(ts, 0) == [] && base + [] == base && Front(ts, 8) == ts;
  }

  function Front<T>(ts: seq<T>, n: nat): seq<T> {
    if n < |ts| then ts[..n] else ts
  }

  lemma {:induction false} Appends<T>(base: seq<T>, ts: seq<T>, i: nat, n: nat)
    requires n == i + 1
    ensures With(base + Front(ts, i), ts, i) == base + Front(ts, n)
  {
    if i < |ts| {
      assert Front(ts, n) == Front(ts, i) + [ts[i]];
    }
  }
}
