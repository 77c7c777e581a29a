/** Merkle roots and proofs, and the whitelist script that checks them level by level. */
module Merkle {
  import opened Bytes
  import BitStrings
  import opened ScriptNumbers
  import opened ScriptTokens
  import opened ScriptMachine
  import opened ScriptCode
  import opened ScriptRules
  import opened ScriptBytes
  import opened ScriptBuilder
  import opened ScriptParts

  type Hasher = seq<byte> -> Hash

  // ---- trees ----

  /** The least `d` with at least `n` leaves at depth `d`. */
  function DepthFor(n: nat): (d: nat)
    ensures n <= BitStrings.Pow2(d) && (d > 0 ==> BitStrings.Pow2(d - 1) < n)
  {
    if n <= 1 then 0 else 1 + DepthFor((n + 1) / 2)
  }

  function Leaves(h: Hasher, data: seq<seq<byte>>): (r: seq<Hash>)
    ensures |r| == |data|
  {
    seq(|data|, i requires 0 <= i < |data| => h(data[i]))
  }

  /** Leaf `i`: its hash, or a zero hash past the end of the list. */
  function Leaf(h: Hasher, data: seq<seq<byte>>, i: nat): Hash {
    if i < |data| then h(data[i]) else ZeroHash()
  }

  /** Leaf hashes, padded with zero hashes to a power of two. */
  function Padded(h: Hasher, data: seq<seq<byte>>): (r: seq<Hash>)
    ensures |r| == BitStrings.Pow2(DepthFor(|data|))
  {
    seq(BitStrings.Pow2(DepthFor(|data|)), i requires 0 <= i => Leaf(h, data, i))
  }

  function Pair(h: Hasher, a: Hash, b: Hash): Hash {
    var left: seq<byte> := a;
    h(left + b)
  }

  /** The level above. */
  function Above(h: Hasher, level: seq<Hash>): (r: seq<Hash>)
    ensures |r| == |level| / 2
  {
    seq(|level| / 2, i requires 0 <= i < |level| / 2 => Pair(h, level[2 * i], level[2 * i + 1]))
  }

  function Root(h: Hasher, level: seq<Hash>, depth: nat): Hash
    requires |level| == BitStrings.Pow2(depth)
    decreases depth
  {
    if depth == 0 then level[0] else Root(h, Above(h, level), depth - 1)
  }

  /** One proof step: the sibling, and 1 when the node is the left child. */
  type Sibling = (Hash, byte)

  function ProofStep(level: seq<Hash>, idx: nat): (p: Sibling)
    requires |level| % 2 == 0 && idx < |level|
  {
    if idx % 2 == 0 then (level[idx + 1], 1) else (level[idx - 1], 0)
  }

  function Proof(h: Hasher, level: seq<Hash>, depth: nat, idx: nat): (p: seq<Sibling>)
    requires |level| == BitStrings.Pow2(depth) && idx < |level|
    ensures |p| == depth
    decreases depth
  {
    if depth == 0 then [] else [ProofStep(level, idx)] + Proof(h, Above(h, level), depth - 1, idx / 2)
  }

  /** What the script computes: direction 1 puts the running hash on the left. */
  function FoldStep(h: Hasher, cur: Hash, p: Sibling): Hash {
    if p.1 == 1 then Pair(h, cur, p.0) else Pair(h, p.0, cur)
  }

  function Fold(h: Hasher, cur: Hash, proof: seq<Sibling>): Hash
    decreases |proof|
  {
    if proof == [] then cur else Fold(h, FoldStep(h, cur, proof[0]), proof[1..])
  }

  /** A node and its sibling hash to their parent. */
  lemma {:induction false} StepUp(h: Hasher, level: seq<Hash>, idx: nat)
    requires |level| % 2 == 0 && idx < |level|
    ensures idx / 2 < |Above(h, level)| && FoldStep(h, level[idx], ProofStep(level, idx)) == Above(h, level)[idx / 2]
  {
    if idx % 2 == 0 {
      assert idx == 2 * (idx / 2);
    } else {
      assert idx == 2 * (idx / 2) + 1;
    }
  }

  /** Folding a node's proof gives the root, wherever the node is. */
  lemma {:induction false} ProofFolds(h: Hasher, level: seq<Hash>, depth: nat, idx: nat)
    requires |level| == BitStrings.Pow2(depth) && idx < |level|
    ensures Fold(h, level[idx], Proof(h, level, depth, idx)) == Root(h, level, depth)
    decreases depth
  {
    hide Above, FoldStep, ProofStep;
    if depth > 0 {
      StepUp(h, level, idx);
      var rest := Proof(h, Above(h, level), depth - 1, idx / 2);
      var proof := [ProofStep(level, idx)] + rest;
      assert proof[1..] == rest && proof[0] == ProofStep(level, idx);
      ProofFolds(h, Above(h, level), depth - 1, idx / 2);
    }
  }

  // ---- the builders' loops ----

  method NextPowerOfTwo(n: nat) returns (p: nat)
    requires n > 0
    ensures p == BitStrings.Pow2(DepthFor(n))
  {
    p := 1;
    ghost var d := 0;
    while p < n
      invariant p == BitStrings.Pow2(d) && d <= DepthFor(n)
      decreases DepthFor(n) - d
    {
      Pow2Grows(DepthFor(n), d);
      p := 2 * p;
      d := d + 1;
    }
    if d < DepthFor(n) {
      Pow2Grows(d, DepthFor(n) - 1);
    }
  }

  lemma {:induction false} Pow2Grows(a: nat, b: nat)
    ensures a <= b ==> BitStrings.Pow2(a) <= BitStrings.Pow2(b)
  {
    if a < b {
      Pow2Grows(a, b - 1);
    }
  }

  method PaddedLevel(h: Hasher, data: seq<seq<byte>>) returns (level: seq<Hash>)
    requires data != []
    ensures level == Padded(h, data)
    ensures forall i :: 0 <= i < |level| ==> level[i] == if i < |data| then h(data[i]) else seq(32, j => 0)
  {
    level := Leaves(h, data);
    var target := NextPowerOfTwo(|data|);
    while |level| < target
      invariant |data| <= |level| <= target
      invariant forall i :: 0 <= i < |level| ==> level[i] == Leaf(h, data, i)
    {
      level := level + [seq(32, j => 0)];
    }
  }

  method NextLevel(h: Hasher, level: seq<Hash>) returns (next: seq<Hash>)
    requires |level| % 2 == 0
    ensures next == Above(h, level)
  {
    next := [];
    while 2 * |next| < |level|
      invariant 2 * |next| <= |level|
      invariant next == Above(h, level)[..|next|]
    {
      var k := |next|;
      var combined: seq<byte> := level[2 * k];
      combined := combined + level[2 * k + 1];
      assert Above(h, level)[k] == h(combined);
      next := next + [h(combined)];
    }
  }

  /** `compute_merkle_root`. */
  method ComputeMerkleRoot(h: Hasher, data: seq<seq<byte>>) returns (root: Hash)
    ensures data == [] ==> root == seq(32, j => 0)
    ensures data != [] ==> root == Root(h, Padded(h, data), DepthFor(|data|))
  {
    hide Padded, Above, DepthFor;
    if data == [] {
      return seq(32, j => 0);
    }
    var level := PaddedLevel(h, data);
    ghost var depth: nat := DepthFor(|data|);
    while |level| > 1
      invariant |level| == BitStrings.Pow2(depth) && Root(h, level, depth) == Root(h, Padded(h, data), DepthFor(|data|))
      decreases depth
    {
      level := NextLevel(h, level);
      depth := depth - 1;
    }
    return level[0];
  }

  /** `generate_merkle_proof`. */
  method GenerateMerkleProof(h: Hasher, data: seq<seq<byte>>, leafIndex: nat) returns (proof: seq<Sibling>)
    ensures leafIndex >= |data| ==> proof == []
    ensures leafIndex < |data| ==>
              leafIndex < |Padded(h, data)| && proof == Proof(h, Padded(h, data), DepthFor(|data|), leafIndex)
  {
    hide Padded, Above, DepthFor, Proof, ProofStep;
    if data == [] || leafIndex >= |data| {
      return [];
    }
    var level := PaddedLevel(h, data);
    ghost var depth: nat := DepthFor(|data|);
    ghost var all := Proof(h, level, depth, leafIndex);
    var idx: nat := leafIndex;
    proof := [];
    while |level| > 1
      invariant |level| == BitStrings.Pow2(depth) && idx < |level|
      invariant proof + Proof(h, level, depth, idx) == all
      decreases depth
    {
      var siblingIdx := if idx % 2 == 0 then idx + 1 else idx - 1;
      var direction: byte := if idx % 2 == 0 then 1 else 0;
      ProofMore(proof, h, level, depth, idx);
      proof := proof + [(level[siblingIdx], direction)];
      level := NextLevel(h, level);
      idx := idx / 2;
      depth := depth - 1;
    }
    ProofEnds(h, level, depth, idx);
  }

  lemma ProofEnds(h: Hasher, level: seq<Hash>, depth: nat, idx: nat)
    requires |level| == BitStrings.Pow2(depth) == 1 && idx < |level|
    ensures Proof(h, level, depth, idx) == []
  {
  }

  lemma {:induction false} ProofMore(done: seq<Sibling>, h: Hasher, level: seq<Hash>, depth: nat, idx: nat)
    requires |level| == BitStrings.Pow2(depth) && idx < |level| && depth > 0
    ensures |level| % 2 == 0 && ProofStep(level, idx) == if idx % 2 == 0 then (level[idx + 1], 1) else (level[idx - 1], 0)
    ensures done + Proof(h, level, depth, idx)
              == done + [ProofStep(level, idx)] + Proof(h, Above(h, level), depth - 1, idx / 2)
  {
    var step, rest := [ProofStep(level, idx)], Proof(h, Above(h, level), depth - 1, idx / 2);
    assert Proof(h, level, depth, idx) == step + rest;
    hide Proof;
    assert done + (step + rest) == done + step + rest;
  }

  /** For every leaf the generated proof folds to the computed root, and has one step per level. */
  lemma {:induction false} MerkleAgrees(h: Hasher, data: seq<seq<byte>>, idx: nat)
    requires idx < |data|
    ensures idx < |Padded(h, data)|
    ensures |Proof(h, Padded(h, data), DepthFor(|data|), idx)| == DepthFor(|data|)
    ensures Fold(h, h(data[idx]), Proof(h, Padded(h, data), DepthFor(|data|), idx))
              == Root(h, Padded(h, data), DepthFor(|data|))
  {
    ProofFolds(h, Padded(h, data), DepthFor(|data|), idx);
  }

  // ---- the script ----

  function BringUp(): seq<Tok> {
    [Do(Swap)]
  }

  function HashPair(): seq<Tok> {
    [Do(Cat), Do(Blake2b)]
  }

  function LevelCode(): Code {
    Chain(Line(BringUp()), Chain(When(Line(BringUp())), Line(HashPair())))
  }

  function Levels(n: nat, last: Code): Code {
    if n == 0 then last else Chain(LevelCode(), Levels(n - 1, last))
  }

  function HashLeaf(): seq<Tok> {
    [Do(Blake2b)]
  }

  function CheckRoot(root: Hash): seq<Tok> {
    [DataTok(root), Do(EqualVerify), IntTok(0), Do(TxOutputSpk), Do(EqualVerify), IntTok(1)]
  }

  function Refund(owner: Key, locktime: nat): seq<Tok>
    requires locktime < U64_LIMIT
  {
    [DataTok(owner), Do(CheckSigVerify), IntTok(locktime), Do(CheckLockTimeVerify), IntTok(1)]
  }

  function ClaimCode(owner: Key, root: Hash, depth: nat): Code {
    Chain(Line(Signed(owner)), Chain(Line(HashLeaf()), Levels(depth, Line(CheckRoot(root)))))
  }

  function WhitelistCode(owner: Key, root: Hash, depth: nat, locktime: nat): Code
    requires locktime < U64_LIMIT
  {
    Branch(Line(Refund(owner, locktime)), ClaimCode(owner, root, depth))
  }

  lemma {:induction false} LevelOk()
    ensures CodeOk(LevelCode())
  {
    hide Plain, CodeOk, TokLen, Len, TokOk, ToksOk;
    PlainToks();
    PlainLine(BringUp());
    PlainLine(HashPair());
    WhenToks([], Line(BringUp()));
    ChainToks([], When(Line(BringUp())), Line(HashPair()));
    ChainToks([], Line(BringUp()), Chain(When(Line(BringUp())), Line(HashPair())));
  }

  lemma {:induction false} LevelsOk(n: nat, last: Code)
    requires CodeOk(last)
    ensures CodeOk(Levels(n, last))
  {
    if n > 0 {
      LevelOk();
      LevelsOk(n - 1, last);
      hide LevelCode;
    }
  }

  lemma {:induction false} ClaimOk(owner: Key, root: Hash, depth: nat)
    ensures CodeOk(ClaimCode(owner, root, depth)) && CodeOk(Levels(depth, Line(CheckRoot(root))))
    ensures CodeOk(Line(CheckRoot(root))) && CodeOk(Line(HashLeaf())) && CodeOk(Line(Signed(owner)))
  {
    hide Plain, CodeOk, IntTok, DataTok, TokLen, Len, TokOk, ToksOk, Enc, Mag, Flatten, Levels, Signed;
    PlainToks();
    PlainLine(HashLeaf());
    PlainLine(CheckRoot(root));
    PartsOk(owner, seq(8, i => 0));
    LevelsOk(depth, Line(CheckRoot(root)));
    hide HashLeaf, CheckRoot;
    var walk := Levels(depth, Line(CheckRoot(root)));
    ChainToks([], Line(HashLeaf()), walk);
    ChainToks([], Line(Signed(owner)), Chain(Line(HashLeaf()), walk));
  }

  lemma {:induction false} RefundOk(owner: Key, locktime: nat)
    requires locktime < U64_LIMIT
    ensures CodeOk(Line(Refund(owner, locktime)))
  {
    hide Plain, CodeOk, IntTok, DataTok, TokLen, Len, TokOk, ToksOk, Enc, Mag;
    PlainToks();
    PlainLine(Refund(owner, locktime));
  }

  lemma {:induction false} WhitelistOk(owner: Key, root: Hash, depth: nat, locktime: nat)
    requires locktime < U64_LIMIT
    ensures CodeOk(WhitelistCode(owner, root, depth, locktime))
              && ToksOk(Flatten(WhitelistCode(owner, root, depth, locktime)))
  {
    hide CodeOk, ToksOk, Flatten, Refund, ClaimCode;
    ClaimOk(owner, root, depth);
    RefundOk(owner, locktime);
    BranchToks([], Line(Refund(owner, locktime)), ClaimCode(owner, root, depth));
    FlattenOk(WhitelistCode(owner, root, depth, locktime));
  }

  function Script(owner: Key, root: Hash, depth: nat, locktime: nat): seq<byte>
    requires locktime < U64_LIMIT
  {
    WhitelistOk(owner, root, depth, locktime);
    Assemble(Flatten(WhitelistCode(owner, root, depth, locktime)))
  }

  // ---- building the script ----

  function Repeat(n: nat): seq<Tok> {
    if n == 0 then [] else Repeat(n - 1) + Flatten(LevelCode())
  }

  lemma {:induction false} RepeatFront(n: nat)
    requires n > 0
    ensures Repeat(n) == Flatten(LevelCode()) + Repeat(n - 1)
  {
    hide LevelCode, Flatten;
    var a := Flatten(LevelCode());
    if n > 1 {
      RepeatFront(n - 1);
      Regroup(a, Repeat(n - 2), a);
    } else {
      assert Repeat(0) == [] && [] + a == a + [];
    }
  }

  /** The unrolled loop is the nested levels. */
  lemma {:induction false} UnrolledToks(n: nat, last: Code)
    ensures Repeat(n) + Flatten(last) == Flatten(Levels(n, last))
  {
    hide LevelCode;
    if n > 0 {
      UnrolledToks(n - 1, last);
      RepeatFront(n);
      Regroup(Flatten(LevelCode()), Repeat(n - 1), Flatten(last));
    } else {
      assert Repeat(0) == [] && [] + Flatten(last) == Flatten(last);
    }
  }

  /** The levels, written out. */
  function LevelsBytes(n: nat): seq<byte> {
    if n == 0 then [] else LevelsBytes(n - 1) + [0x7c, 0x63, 0x7c, 0x68, 0x7e, 0xaa]
  }

  function ClaimBytes(owner: Key, root: Hash, depth: nat): seq<byte> {
    [0x20] + owner + [0xad, 0xaa] + LevelsBytes(depth) + [0x20] + root + [0x88, 0x00, 0xc3, 0x88, 0x51]
  }

  /** The whitelist, written out. */
  function WhitelistBytes(owner: Key, root: Hash, depth: nat, locktime: nat): seq<byte> {
    [0x63, 0x20] + owner + [0xad] + NumberPush(locktime) + [0xb0, 0x51, 0x67] + ClaimBytes(owner, root, depth) + [0x68]
  }

  lemma RefundJoin(base: seq<byte>, owner: seq<byte>, p: seq<byte>)
    ensures base + [0x20] + owner + [0xad] + p + [0xb0] + [0x51] == base + ([0x20] + owner + [0xad] + p + [0xb0, 0x51])
  {
  }

  lemma RootPush(root: Hash)
    ensures DataPush(root) == [0x20] + root
  {
  }

  lemma RootJoin(base: seq<byte>, root: seq<byte>)
    ensures base + ([0x20] + root) + [0x88] + [0x00] + [0xc3] + [0x88] + [0x51] ==
            base + ([0x20] + root + [0x88, 0x00, 0xc3, 0x88, 0x51])
  {
  }

  lemma ClaimJoin(base: seq<byte>, owner: seq<byte>, levels: seq<byte>, root: seq<byte>)
    ensures base + ([0x20] + owner + [0xad, 0xaa]) + levels + ([0x20] + root + [0x88, 0x00, 0xc3, 0x88, 0x51]) ==
            base + ([0x20] + owner + [0xad, 0xaa] + levels + [0x20] + root + [0x88, 0x00, 0xc3, 0x88, 0x51])
  {
  }

  lemma WhitelistJoin(owner: seq<byte>, p: seq<byte>, claim: seq<byte>)
    ensures [] + [0x63] + ([0x20] + owner + [0xad] + p + [0xb0, 0x51]) + [0x67] + claim + [0x68] ==
            [0x63, 0x20] + owner + [0xad] + p + [0xb0, 0x51, 0x67] + claim + [0x68]
  {
  }

  method PushLevel(s: ScriptBuf)
    requires s.Valid()
    modifies s
    ensures s.Valid() && s.toks == old(s.toks) + Flatten(LevelCode())
    ensures s.bytes == old(s.bytes) + [0x7c, 0x63, 0x7c, 0x68, 0x7e, 0xaa]
  {
    hide Opcode.Code, Assemble, ToksOk, ScriptBuf.Valid, TokOk;
    OpcodeTable();
    s.PushOp(Swap);
    s.PushOp(If);
    s.PushOp(Swap);
    s.PushOp(EndIf);
    s.PushOp(Cat);
    s.PushOp(Blake2b);
    LevelToks();
    Block(old(s.toks), Flatten(LevelCode()));
  }

  lemma {:induction false} LevelToks()
    ensures Flatten(LevelCode()) == [Do(Swap), Do(If), Do(Swap), Do(EndIf), Do(Cat), Do(Blake2b)]
  {
    var w := When(Line(BringUp()));
    assert Flatten(w) == [Do(If)] + BringUp() + [Do(EndIf)] == [Do(If), Do(Swap), Do(EndIf)];
    FlattenLineThen(BringUp(), Chain(w, Line(HashPair())));
    assert Flatten(Chain(w, Line(HashPair()))) == Flatten(w) + HashPair()
        == [Do(If), Do(Swap), Do(EndIf), Do(Cat), Do(Blake2b)];
  }

  method PushRefund(s: ScriptBuf, owner: Key, locktime: nat)
    requires s.Valid() && locktime < U64_LIMIT
    modifies s
    ensures s.Valid() && s.toks == old(s.toks) + Refund(owner, locktime)
    ensures s.bytes == old(s.bytes) + ([0x20] + owner + [0xad] + NumberPush(locktime) + [0xb0, 0x51])
  {
    hide Opcode.Code, Assemble, ToksOk, ScriptBuf.Valid, IntTok, DataTok, Enc, TokOk, NumberPush;
    OpcodeTable();
    SmallPushes();
    s.PushFixed(owner);
    s.PushOp(CheckSigVerify);
    s.PushInt(locktime);
    s.PushOp(CheckLockTimeVerify);
    s.PushInt(1);
    Block(old(s.toks), Refund(owner, locktime));
    RefundJoin(old(s.bytes), owner, NumberPush(locktime));
  }

  method PushCheckRoot(s: ScriptBuf, root: Hash)
    requires s.Valid()
    modifies s
    ensures s.Valid() && s.toks == old(s.toks) + CheckRoot(root)
    ensures s.bytes == old(s.bytes) + ([0x20] + root + [0x88, 0x00, 0xc3, 0x88, 0x51])
  {
    hide Opcode.Code, Assemble, ToksOk, ScriptBuf.Valid, IntTok, DataTok, Enc, TokOk, NumberPush, DataPush;
    OpcodeTable();
    SmallPushes();
    RootPush(root);
    s.PushData(root);
    s.PushOp(EqualVerify);
    s.PushInt(0);
    s.PushOp(TxOutputSpk);
    s.PushOp(EqualVerify);
    s.PushInt(1);
    Block(old(s.toks), CheckRoot(root));
    RootJoin(old(s.bytes), root);
  }

  method PushClaim(s: ScriptBuf, owner: Key, root: Hash, depth: nat)
    requires s.Valid()
    modifies s
    ensures s.Valid() && CodeOk(ClaimCode(owner, root, depth))
              && s.toks == old(s.toks) + Flatten(ClaimCode(owner, root, depth))
    ensures s.bytes == old(s.bytes) + ClaimBytes(owner, root, depth)
  {
    hide Assemble, ToksOk, ScriptBuf.Valid, IntTok, DataTok, Enc, CodeOk, Flatten, LevelCode, CheckRoot, HashLeaf,
         Signed, Levels, TokOk;
    ClaimOk(owner, root, depth);
    LineToks(Signed(owner));
    LineToks(HashLeaf());
    LineToks(CheckRoot(root));
    ghost var t0 := s.toks;
    PushOwner(s, owner);
    ghost var t2, b2 := s.toks, s.bytes;
    for i := 0 to depth
      invariant s.Valid() && s.toks == t2 + Repeat(i)
      invariant s.bytes == b2 + LevelsBytes(i)
    {
      PushLevel(s);
      Regroup(t2, Repeat(i), Flatten(LevelCode()));
      Regroup(b2, LevelsBytes(i), [0x7c, 0x63, 0x7c, 0x68, 0x7e, 0xaa]);
    }
    PushCheckRoot(s, root);
    Regroup(t2, Repeat(depth), CheckRoot(root));
    UnrolledToks(depth, Line(CheckRoot(root)));
    ghost var walk := Levels(depth, Line(CheckRoot(root)));
    ChainToks(t0 + Signed(owner), Line(HashLeaf()), walk);
    ChainToks(t0, Line(Signed(owner)), Chain(Line(HashLeaf()), walk));
    ClaimJoin(old(s.bytes), owner, LevelsBytes(depth), root);
  }

  method PushOwner(s: ScriptBuf, owner: Key)
    requires s.Valid()
    modifies s
    ensures s.Valid() && s.toks == old(s.toks) + Signed(owner) + HashLeaf()
    ensures s.bytes == old(s.bytes) + ([0x20] + owner + [0xad, 0xaa])
  {
    hide Opcode.Code, Assemble, ToksOk, ScriptBuf.Valid, IntTok, DataTok, Enc, TokOk;
    OpcodeTable();
    s.PushFixed(owner);
    s.PushOp(CheckSigVerify);
    Block(old(s.toks), Signed(owner));
    s.PushOp(Blake2b);
  }

  /** `build_merkle_whitelist_script`. */
  method BuildMerkleWhitelist(owner: Key, root: Hash, depth: byte, locktime: nat) returns (script: seq<byte>)
    requires locktime < U64_LIMIT
    ensures script == Script(owner, root, depth, locktime)
    ensures script == WhitelistBytes(owner, root, depth, locktime)
  {
    hide Opcode.Code, Assemble, ToksOk, ScriptBuf.Valid, CodeOk, Flatten, Refund, ClaimCode, TokOk, NumberPush, ClaimBytes;
    OpcodeTable();
    WhitelistOk(owner, root, depth, locktime);
    RefundOk(owner, locktime);
    LineToks(Refund(owner, locktime));
    var s := new ScriptBuf();
    s.PushOp(If);
    PushRefund(s, owner, locktime);
    s.PushOp(Else);
    PushClaim(s, owner, root, depth);
    s.PushOp(EndIf);
    BranchToks([], Line(Refund(owner, locktime)), ClaimCode(owner, root, depth));
    ghost var all := Flatten(WhitelistCode(owner, root, depth, locktime));
    assert [] + all == all;
    BufBytes(s);
    WhitelistJoin(owner, NumberPush(locktime), ClaimBytes(owner, root, depth));
    return s.bytes;
  }

  // ---- what a claim runs ----

  function Direction(b: byte): seq<byte> {
    if b == 0 then [] else [1]
  }

  /** The proof on the stack: the first level's direction on top, its sibling below. */
  function ProofStack(proof: seq<Sibling>, below: Stack): Stack {
    if proof == [] then below else Push(Direction(proof[0].1), Push(proof[0].0, ProofStack(proof[1..], below)))
  }

  lemma {:induction false} LevelMeans(env: Env, cur: Hash, p: Sibling, s: Stack)
    requires p.1 <= 1
    ensures Exec(env, LevelCode(), At(Push(cur, Push(Direction(p.1), Push(p.0, s)))))
              == At(Push(FoldStep(env.blake2b, cur, p), s))
  {
    hide Exec, Step, Steps, Truthy;
    StackRules(env);
    OracleRules(env);
    var tail := Chain(When(Line(BringUp())), Line(HashPair()));
    ExecLineThen(env, BringUp(), tail, At(Push(cur, Push(Direction(p.1), Push(p.0, s)))));
    StepsTo8(env, BringUp(), At(Push(cur, Push(Direction(p.1), Push(p.0, s)))));
    var st := Push(cur, Push(p.0, s));
    ExecChain(env, When(Line(BringUp())), Line(HashPair()), At(Push(Direction(p.1), st)));
    ExecWhen(env, Line(BringUp()), Direction(p.1), st);
    ExecLine(env, BringUp(), At(st));
    StepsTo8(env, BringUp(), At(st));
    DirectionIsTrue(p.1);
    var ordered := if p.1 == 1 then Push(p.0, Push(cur, s)) else st;
    ExecLine(env, HashPair(), At(ordered));
    StepsTo8(env, HashPair(), At(ordered));
  }

  lemma {:induction false} DirectionIsTrue(b: byte)
    requires b <= 1
    ensures Truthy(Direction(b)) <==> b == 1
  {
    FlagIsNumber(b == 1);
  }

  lemma {:induction false} LevelsMean(env: Env, proof: seq<Sibling>, last: Code, cur: Hash, s: Stack)
    requires forall i :: 0 <= i < |proof| ==> proof[i].1 <= 1
    ensures Exec(env, Levels(|proof|, last), At(Push(cur, ProofStack(proof, s)))) ==
            Exec(env, last, At(Push(Fold(env.blake2b, cur, proof), s)))
  {
    hide Exec, LevelCode, FoldStep, Direction;
    if proof != [] {
      var rest := ProofStack(proof[1..], s);
      ExecChain(env, LevelCode(), Levels(|proof| - 1, last), At(Push(cur, ProofStack(proof, s))));
      LevelMeans(env, cur, proof[0], rest);
      LevelsMean(env, proof[1..], last, FoldStep(env.blake2b, cur, proof[0]), s);
    }
  }

  lemma {:induction false} CheckRootMeans(env: Env, root: Hash, x: Hash, dest: seq<byte>)
    ensures Clean(Steps(env, CheckRoot(root), At(Push(x, Push(dest, Nil))))) <==>
            x == root && |env.outputs| > 0 && env.outputs[0].spk == dest
  {
    hide Step, Steps, Enc, Flag, IntTok, DataTok, Truthy;
    StackRules(env);
    TxRules(env);
    EncOne();
    FlagIsNumber(true);
    StepsTo8(env, CheckRoot(root), At(Push(x, Push(dest, Nil))));
  }

  /** What a claim leaves on the stack for the redeem script. */
  function ClaimStack(sig: seq<byte>, dest: seq<byte>, proof: seq<Sibling>, copy: seq<byte>): Stack {
    Push([], Push(sig, Push(dest, ProofStack(proof, Push(copy, Nil)))))
  }

  /**
   * A claim with a proof of the script's depth is accepted exactly when the owner signed, the
   * proof folds the destination's hash to the root, and output 0 is the copy.
   */
  lemma {:induction false} ClaimAccepts(env: Env, owner: Key, root: Hash, locktime: nat, sig: seq<byte>,
          dest: seq<byte>,
          proof: seq<Sibling>, copy: seq<byte>)
    requires locktime < U64_LIMIT && forall i :: 0 <= i < |proof| ==> proof[i].1 <= 1
    ensures Accepts(env, Script(owner, root, |proof|, locktime), ClaimStack(sig, dest, proof, copy)) <==>
            && env.checkSig(sig, owner)
            && Fold(env.blake2b, env.blake2b(dest), proof) == root
            && |env.outputs| > 0 && env.outputs[0].spk == copy
  {
    hide Exec, Steps, Truthy, Clean, Accepts, Assemble, Flatten, CodeOk, ToksOk, Refund, Signed, HashLeaf, CheckRoot,
         Levels, Fold, ProofStack;
    var last := Line(CheckRoot(root));
    var walk := Levels(|proof|, last);
    var claim := Chain(Line(HashLeaf()), walk);
    var s := ClaimStack(sig, dest, proof, copy);
    var below := ProofStack(proof, Push(copy, Nil));
    WhitelistOk(owner, root, |proof|, locktime);
    AcceptsCompiled(env, WhitelistCode(owner, root, |proof|, locktime), s);
    ExecBranch(env, Line(Refund(owner, locktime)), ClaimCode(owner, root, |proof|), [], s.rest);
    FalseSelector();
    ExecLineThen(env, Signed(owner), claim, At(s.rest));
    SignedMeans(env, owner, s.rest);
    ExecFailed(env, claim);
    ExecLineThen(env, HashLeaf(), walk, At(Push(dest, below)));
    HashLeafMeans(env, dest, below);
    LevelsMean(env, proof, last, env.blake2b(dest), Push(copy, Nil));
    var x := Fold(env.blake2b, env.blake2b(dest), proof);
    ExecLine(env, CheckRoot(root), At(Push(x, Push(copy, Nil))));
    CheckRootMeans(env, root, x, copy);
    NeverClean();
  }

  lemma NeverClean()
    ensures !Clean(Failed)
  {
  }

  lemma FalseSelector()
    ensures !Truthy([])
  {
  }

  lemma {:induction false} HashLeafMeans(env: Env, dest: seq<byte>, s: Stack)
    ensures Steps(env, HashLeaf(), At(Push(dest, s))) == At(Push(env.blake2b(dest), s))
  {
    hide Step, Steps;
    OracleRules(env);
    StepsTo8(env, HashLeaf(), At(Push(dest, s)));
  }

  /** The wallet's claim for a listed destination, against the computed root and with the generated proof. */
  lemma {:induction false} HonestClaim(env: Env, owner: Key, data: seq<seq<byte>>, idx: nat, locktime: nat,
          sig: seq<byte>)
    requires idx < |data| && locktime < U64_LIMIT
    ensures idx < |Padded(env.blake2b, data)|
    ensures
      var h := env.blake2b;
      var depth := DepthFor(|data|);
      var root := Root(h, Padded(h, data), depth);
      var proof := Proof(h, Padded(h, data), depth, idx);
      Accepts(env, Script(owner, root, depth, locktime), ClaimStack(sig, data[idx], proof, data[idx])) <==>
      env.checkSig(sig, owner) && |env.outputs| > 0 && env.outputs[0].spk == data[idx]
  {
    var h := env.blake2b;
    var depth := DepthFor(|data|);
    var level := Padded(h, data);
    MerkleAgrees(h, data, idx);
    ProofDirections(h, level, depth, idx);
    hide Script, Accepts, Padded, Root, Fold, Proof, ClaimStack, BitStrings.Pow2;
    ClaimAccepts(env, owner, Root(h, level, depth), locktime, sig, data[idx], Proof(h, level, depth, idx), data[idx]);
  }

  lemma {:induction false} ProofDirections(h: Hasher, level: seq<Hash>, depth: nat, idx: nat)
    requires |level| == BitStrings.Pow2(depth) && idx < |level|
    ensures forall i :: 0 <= i < depth ==> Proof(h, level, depth, idx)[i].1 <= 1
    decreases depth
  {
    if depth > 0 {
      ProofDirections(h, Above(h, level), depth - 1, idx / 2);
    }
  }
}
