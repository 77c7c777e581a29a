/**
 * What the wallet's scanner reads out of the other covenants' scripts: the first lock time there
 * is, whatever the keys, salts, hashes and amounts in them.
 */
module BuilderScans {
  import opened Bytes
  import opened ScriptNumbers
  import opened ScriptTokens
  import opened ScriptMachine
  import opened ScriptCode
  import opened ScriptParts
  import opened Scanner
  import StateMachine
  import ShipEscrow
  import Treasury
  import Merkle
  import OracleScript
  import OracleSpend

  /** The scanner for `code` passes over `t`. */
  predicate Passes(t: Tok, code: byte) {
    !IsOp(t, code) && (t.Data? ==> t.width == Direct || t.width == OneByte)
  }

  predicate AllPass(ts: seq<Tok>, code: byte) {
    forall t :: t in ts ==> Passes(t, code)
  }

  /** Every line of the code passes. */
  predicate CodePasses(c: Code, code: byte) {
    match c
    case Line(ts) => AllPass(ts, code)
    case Chain(a, b) => CodePasses(a, code) && CodePasses(b, code)
    case Branch(a, b) => CodePasses(a, code) && CodePasses(b, code)
    case When(a) => CodePasses(a, code)
  }

  lemma {:induction false} PassFacts(code: byte)
    requires code == CLTV || code == CSV
    ensures forall op: Opcode {:trigger Passes(Do(op), code)} ::
              !op.Other? && !op.CheckLockTimeVerify? && !op.CheckSequenceVerify? ==> Passes(Do(op), code)
    ensures code == CSV ==> Passes(Do(CheckLockTimeVerify), code)
    ensures forall v: nat {:trigger IntTok(v)} :: v < U64_LIMIT ==> Passes(IntTok(v), code)
    ensures forall d: seq<byte> {:trigger DataTok(d)} :: |d| <= 255 ==> Passes(DataTok(d), code)
  {
    hide Enc;
  }

  lemma {:induction false} PassJoin(a: seq<Tok>, b: seq<Tok>, code: byte)
    requires AllPass(a, code) && AllPass(b, code)
    ensures AllPass(a + b, code)
  {
    hide Passes;
  }

  lemma {:induction false} FlattenPasses(c: Code, code: byte)
    requires CodePasses(c, code) && (code == CLTV || code == CSV)
    ensures AllPass(Flatten(c), code)
  {
    PassFacts(code);
    hide Passes;
    assert AllPass([Do(If)], code) && AllPass([Do(Else)], code) && AllPass([Do(EndIf)], code);
    hide AllPass;
    match c {
      case Line(_) =>
      case Chain(a, b) =>
        FlattenPasses(a, code);
        FlattenPasses(b, code);
        PassJoin(Flatten(a), Flatten(b), code);
      case Branch(a, b) =>
        FlattenPasses(a, code);
        FlattenPasses(b, code);
        PassJoin([Do(If)], Flatten(a), code);
        PassJoin([Do(If)] + Flatten(a), [Do(Else)], code);
        PassJoin([Do(If)] + Flatten(a) + [Do(Else)], Flatten(b), code);
        PassJoin([Do(If)] + Flatten(a) + [Do(Else)] + Flatten(b), [Do(EndIf)], code);
      case When(a) =>
        FlattenPasses(a, code);
        PassJoin([Do(If)], Flatten(a), code);
        PassJoin([Do(If)] + Flatten(a), [Do(EndIf)], code);
    }
  }

  lemma {:induction false} PassChain(a: Code, b: Code, code: byte)
    requires CodePasses(a, code) && CodePasses(b, code)
    ensures CodePasses(Chain(a, b), code)
  {
    hide AllPass;
  }

  lemma {:induction false} PassBranch(a: Code, b: Code, code: byte)
    requires CodePasses(a, code) && CodePasses(b, code)
    ensures CodePasses(Branch(a, b), code)
  {
    hide AllPass;
  }

  lemma PassedIs(ts: seq<Tok>, code: byte)
    requires AllPass(ts, code)
    ensures Narrow(ts) && Absent(ts, code)
  {
  }

  // ---- the first lock ----

  /** The first `op` of `ts` checks the number `v`. */
  ghost predicate Locks(ts: seq<Tok>, op: Opcode, v: nat) {
    v < U64_LIMIT && exists a, b :: Absent(a, op.Code()) && ts == a + [IntTok(v), Do(op)] + b
  }

  lemma {:induction false} LocksWithin(before: seq<Tok>, ts: seq<Tok>, rest: seq<Tok>, op: Opcode, v: nat)
    requires Locks(ts, op, v) && Absent(before, op.Code())
    ensures Locks(before + ts + rest, op, v)
  {
    var a, b :| Absent(a, op.Code()) && ts == a + [IntTok(v), Do(op)] + b;
    hide IntTok;
    var all := before + ts + rest;
    assert all == (before + a) + [IntTok(v), Do(op)] + (b + rest);
  }

  lemma {:induction false} LocksScan(ts: seq<Tok>, op: Opcode, v: nat)
    requires Locks(ts, op, v)
    ensures Scan(ts, op.Code(), 0) == v
  {
    var a, b :| Absent(a, op.Code()) && ts == a + [IntTok(v), Do(op)] + b;
    hide IntTok;
    ScanFinds(a, v, op, b, 0);
  }

  /** Code whose first CLTV checks `v`, wherever it is nested. */
  ghost predicate LocksAt(c: Code, v: nat) {
    Locks(Flatten(c), CheckLockTimeVerify, v)
  }

  lemma {:induction false} LocksFirst(a: Code, b: Code, v: nat)
    requires LocksAt(a, v)
    ensures LocksAt(Chain(a, b), v)
  {
    LocksWithin([], Flatten(a), Flatten(b), CheckLockTimeVerify, v);
    assert [] + Flatten(a) == Flatten(a);
  }

  lemma {:induction false} LocksSecond(a: Code, b: Code, v: nat)
    requires CodePasses(a, CLTV) && LocksAt(b, v)
    ensures LocksAt(Chain(a, b), v)
  {
    FlattenPasses(a, CLTV);
    PassedIs(Flatten(a), CLTV);
    LocksWithin(Flatten(a), Flatten(b), [], CheckLockTimeVerify, v);
    assert Flatten(a) + Flatten(b) + [] == Flatten(a) + Flatten(b);
  }

  lemma {:induction false} LocksYes(a: Code, b: Code, v: nat)
    requires LocksAt(a, v)
    ensures LocksAt(Branch(a, b), v)
  {
    var rest := [Do(Else)] + Flatten(b) + [Do(EndIf)];
    LocksWithin([Do(If)], Flatten(a), rest, CheckLockTimeVerify, v);
    assert [Do(If)] + Flatten(a) + rest == Flatten(Branch(a, b));
  }

  lemma {:induction false} LocksNo(a: Code, b: Code, v: nat)
    requires CodePasses(a, CLTV) && LocksAt(b, v)
    ensures LocksAt(Branch(a, b), v)
  {
    FlattenPasses(a, CLTV);
    PassedIs(Flatten(a), CLTV);
    var before := [Do(If)] + Flatten(a) + [Do(Else)];
    assert Absent(before, CLTV);
    LocksWithin(before, Flatten(b), [Do(EndIf)], CheckLockTimeVerify, v);
  }

  /** What the wallet reads from a script: its cooldown and its lock time. */
  ghost predicate Reads(script: seq<byte>, cooldown: nat, locktime: nat) {
    var ts := Parse(script);
    ts.Some? && Narrow(ts.value) && Scan(ts.value, CSV, 0) == cooldown && Scan(ts.value, CLTV, 0) == locktime
  }

  lemma {:induction false} ReadsLock(c: Code, v: nat)
    requires CodeOk(c) && ToksOk(Flatten(c)) && CodePasses(c, CSV) && LocksAt(c, v)
    ensures Reads(Assemble(Flatten(c)), 0, v)
  {
    var ts := Flatten(c);
    hide Parse, Assemble, Scan, Flatten, Locks, CodeOk, ToksOk, CodePasses, AllPass, Narrow, Absent;
    ParseAssemble(ts);
    FlattenPasses(c, CSV);
    PassedIs(ts, CSV);
    ScanAbsent(ts, CSV, 0);
    LocksScan(ts, CheckLockTimeVerify, v);
  }

  lemma {:induction false} ReadsNothing(c: Code)
    requires CodeOk(c) && ToksOk(Flatten(c)) && CodePasses(c, CSV) && CodePasses(c, CLTV)
    ensures Reads(Assemble(Flatten(c)), 0, 0)
  {
    var ts := Flatten(c);
    hide Parse, Assemble, Scan, Flatten, CodeOk, ToksOk, CodePasses, AllPass, Narrow, Absent;
    ParseAssemble(ts);
    FlattenPasses(c, CSV);
    FlattenPasses(c, CLTV);
    PassedIs(ts, CSV);
    PassedIs(ts, CLTV);
    ScanAbsent(ts, CSV, 0);
    ScanAbsent(ts, CLTV, 0);
  }

  lemma {:induction false} PartsPass(key: Key, salt: Salt, code: byte)
    requires code == CLTV || code == CSV
    ensures AllPass(Salted(salt), code) && AllPass(Signed(key), code) && AllPass(One(), code)
  {
    PassFacts(code);
    hide Passes, IntTok, DataTok;
  }

  // ---- the state machine ----

  lemma {:induction false} TransitionPasses(p: StateMachine.Plan, i: nat, code: byte)
    requires p.Valid() && i < |p.roles| && (code == CLTV || code == CSV)
    ensures AllPass(StateMachine.Transition(p, i), code)
  {
    PassFacts(code);
    hide Passes, IntTok, DataTok;
    var a := StateMachine.BySigner(p.roles[i]);
    assert AllPass(a, code) && AllPass(StateMachine.SameScript(), code) && AllPass(One(), code);
    if i < |p.roles| - 1 {
      var next := StateMachine.NextAmount(p.Amount(i + 1));
      assert AllPass(next, code);
      hide AllPass, StateMachine.BySigner, StateMachine.SameScript, StateMachine.NextAmount, One;
      PassJoin(a, StateMachine.SameScript(), code);
      PassJoin(a + StateMachine.SameScript(), next, code);
      PassJoin(a + StateMachine.SameScript() + next, One(), code);
    } else {
      PassJoin(a, One(), code);
    }
  }

  lemma {:induction false} StatesPass(p: StateMachine.Plan, i: nat, code: byte)
    requires p.Valid() && i <= |p.roles| && (code == CLTV || code == CSV)
    ensures CodePasses(StateMachine.StatesFrom(p, i), code)
    decreases |p.roles| - i
  {
    hide AllPass, Passes, StateMachine.Transition, StateMachine.InState, StateMachine.NoState;
    if i == |p.roles| {
      StatePasses(0, code);
    } else {
      StatePasses(p.Amount(i), code);
      TransitionPasses(p, i, code);
      StatesPass(p, i + 1, code);
      var here, rest := Line(StateMachine.InState(p.Amount(i))), StateMachine.StatesFrom(p, i + 1);
      PassBranch(Line(StateMachine.Transition(p, i)), rest, code);
      PassChain(here, Branch(Line(StateMachine.Transition(p, i)), rest), code);
    }
  }

  lemma {:induction false} MachinePasses(p: StateMachine.Plan, code: byte)
    requires p.Valid() && (code == CLTV || code == CSV)
    ensures CodePasses(StateMachine.MachineCode(p), code)
  {
    hide AllPass, Salted, StateMachine.ReadAmount, StateMachine.StatesFrom;
    PartsPass(p.salt + p.salt + p.salt + p.salt, p.salt, code);
    StatesPass(p, 0, code);
    StatePasses(0, code);
    PassChain(Line(StateMachine.ReadAmount()), StateMachine.StatesFrom(p, 0), code);
    PassChain(Line(Salted(p.salt)), Chain(Line(StateMachine.ReadAmount()), StateMachine.StatesFrom(p, 0)), code);
  }

  /** A state machine has no lock. */
  lemma {:induction false} MachineScans(p: StateMachine.Plan)
    requires p.Valid()
    ensures Reads(StateMachine.Script(p), 0, 0)
  {
    StateMachine.MachineOk(p);
    MachinePasses(p, CSV);
    MachinePasses(p, CLTV);
    hide CodeOk, CodePasses, ToksOk, Flatten, Assemble, StateMachine.MachineCode, Reads;
    ReadsNothing(StateMachine.MachineCode(p));
  }

  // ---- the treasury ----

  /** The destinations' scripts fit a push with a one-byte length. */
  predicate Short(spks: seq<Treasury.Spk>) {
    forall i :: 0 <= i < |spks| ==> |spks[i]| <= 253
  }

  lemma {:induction false} ComparesPass(spks: seq<Treasury.Spk>, n: nat, code: byte)
    requires Short(spks) && n <= |spks| && (code == CLTV || code == CSV)
    ensures AllPass(Treasury.Compares(spks, n), code)
  {
    if n > 0 {
      ComparesPass(spks, n - 1, code);
      ComparePasses(spks, n - 1, code);
      hide AllPass, Treasury.Compare;
      PassJoin(Treasury.Compares(spks, n - 1), Treasury.Compare(spks, n - 1), code);
    }
  }

  lemma {:induction false} ComparePasses(spks: seq<Treasury.Spk>, i: nat, code: byte)
    requires Short(spks) && i < |spks| && (code == CLTV || code == CSV)
    ensures AllPass(Treasury.Compare(spks, i), code)
  {
    PassFacts(code);
    Treasury.FullLength(spks[i]);
    hide Passes, DataTok, Treasury.Full;
  }

  lemma {:induction false} TreasuryPasses(owner: Key, spks: seq<Treasury.Spk>, code: byte)
    requires Short(spks) && (code == CLTV || code == CSV)
    ensures AllPass(Treasury.TreasuryToks(owner, spks), code)
  {
    PassFacts(code);
    PartsPass(owner, seq(8, i => 0), code);
    ComparesPass(spks, |spks|, code);
    hide Passes, IntTok, DataTok, Treasury.Compares, Signed;
    assert AllPass(Treasury.OutputSpk(), code);
    hide AllPass, Treasury.OutputSpk;
    PassJoin(Signed(owner), Treasury.OutputSpk(), code);
    PassJoin(Signed(owner) + Treasury.OutputSpk(), Treasury.Compares(spks, |spks|), code);
  }

  /** Nor has a treasury with destinations of at most 253 bytes. */
  lemma {:induction false} TreasuryScans(owner: Key, spks: seq<Treasury.Spk>)
    requires Short(spks)
    ensures Reads(Treasury.Script(owner, spks), 0, 0)
  {
    var ts := Treasury.TreasuryToks(owner, spks);
    Treasury.TreasuryOk(owner, spks);
    TreasuryPasses(owner, spks, CSV);
    TreasuryPasses(owner, spks, CLTV);
    hide CodeOk, AllPass, ToksOk, Assemble, Treasury.TreasuryToks, Reads;
    assert Flatten(Line(ts)) == ts;
    ReadsNothing(Line(ts));
  }

  // ---- the merkle whitelist ----

  lemma {:induction false} LevelsPass(n: nat, last: Code, code: byte)
    requires CodePasses(last, code) && (code == CLTV || code == CSV)
    ensures CodePasses(Merkle.Levels(n, last), code)
  {
    PassFacts(code);
    hide Passes;
    if n > 0 {
      LevelsPass(n - 1, last, code);
      assert AllPass(Merkle.BringUp(), code) && AllPass(Merkle.HashPair(), code);
      assert CodePasses(Merkle.LevelCode(), code) by {
        assert CodePasses(When(Line(Merkle.BringUp())), code);
        assert CodePasses(Chain(When(Line(Merkle.BringUp())), Line(Merkle.HashPair())), code);
      }
      hide AllPass, Merkle.LevelCode;
    }
  }

  lemma {:induction false} ClaimPasses(owner: Key, root: Hash, depth: nat, code: byte)
    requires code == CLTV || code == CSV
    ensures CodePasses(Merkle.ClaimCode(owner, root, depth), code)
  {
    PassFacts(code);
    PartsPass(owner, seq(8, i => 0), code);
    hide Passes, IntTok, DataTok, Signed, Merkle.Levels;
    assert AllPass(Merkle.CheckRoot(root), code) && AllPass(Merkle.HashLeaf(), code);
    hide AllPass, Merkle.HashLeaf, Merkle.CheckRoot;
    var walk := Merkle.Levels(depth, Line(Merkle.CheckRoot(root)));
    LevelsPass(depth, Line(Merkle.CheckRoot(root)), code);
    PassChain(Line(Merkle.HashLeaf()), walk, code);
    PassChain(Line(Signed(owner)), Chain(Line(Merkle.HashLeaf()), walk), code);
  }

  /** From a merkle whitelist the wallet reads the owner's lock time. */
  lemma {:induction false} WhitelistScans(owner: Key, root: Hash, depth: nat, locktime: nat)
    requires locktime < U64_LIMIT
    ensures Reads(Merkle.Script(owner, root, depth, locktime), 0, locktime)
  {
    var refund, claim := Line(Merkle.Refund(owner, locktime)), Merkle.ClaimCode(owner, root, depth);
    Merkle.WhitelistOk(owner, root, depth, locktime);
    ClaimPasses(owner, root, depth, CSV);
    RefundLocks(owner, locktime);
    hide CodeOk, ToksOk, Flatten, Assemble, Reads, LocksAt, AllPass, Merkle.Refund, Merkle.ClaimCode;
    LocksYes(refund, claim, locktime);
    ReadsLock(Branch(refund, claim), locktime);
  }

  lemma {:induction false} RefundLocks(owner: Key, locktime: nat)
    requires locktime < U64_LIMIT
    ensures AllPass(Merkle.Refund(owner, locktime), CSV) && LocksAt(Line(Merkle.Refund(owner, locktime)), locktime)
  {
    PassFacts(CSV);
    PassFacts(CLTV);
    hide Passes, IntTok, DataTok;
    var a, b: seq<Tok> := [DataTok(owner), Do(CheckSigVerify)], [IntTok(1)];
    assert AllPass(a, CLTV);
    PassedIs(a, CLTV);
    assert Merkle.Refund(owner, locktime) == a + [IntTok(locktime), Do(CheckLockTimeVerify)] + b;
  }

  // ---- the shipping escrow ----

  lemma {:induction false} AfterLocks(deadline: nat)
    requires deadline < U64_LIMIT
    ensures AllPass(ShipEscrow.After(deadline), CSV) && LocksAt(Line(ShipEscrow.After(deadline)), deadline)
  {
    PassFacts(CSV);
    hide Passes, IntTok;
    assert Absent([], CLTV);
    assert ShipEscrow.After(deadline) == [] + [IntTok(deadline), Do(CheckLockTimeVerify)] + [];
  }

  lemma {:induction false} PaymentPasses(key: Key, code: byte)
    requires code == CLTV || code == CSV
    ensures AllPass(ShipEscrow.PaysTo(0, key), code) && AllPass(ShipEscrow.PaysTo(1, key), code)
  {
    PassFacts(code);
    ShipEscrow.P2pkLength(key);
    hide Passes, IntTok, DataTok, ShipEscrow.P2pk;
  }

  lemma {:induction false} OutputsPass(fee: nat, code: byte)
    requires fee < U64_LIMIT && (code == CLTV || code == CSV)
    ensures AllPass(ShipEscrow.Outputs(1), code) && AllPass(ShipEscrow.Outputs(2), code)
    ensures AllPass(ShipEscrow.ExactFee(fee), code) && AllPass(ShipEscrow.DropAmount(), code)
  {
    PassFacts(code);
    hide Passes, IntTok;
  }

  lemma {:induction false} StatePasses(v: nat, code: byte)
    requires v < U64_LIMIT && (code == CLTV || code == CSV)
    ensures AllPass(StateMachine.InState(v), code) && AllPass(StateMachine.NextAmount(v), code)
    ensures AllPass(StateMachine.SameScript(), code)
    ensures AllPass(StateMachine.ReadAmount(), code) && AllPass(StateMachine.NoState(), code)
  {
    PassFacts(code);
    hide Passes, IntTok;
  }

  /** The blocks that pay. */
  lemma {:induction false} PayoutsPass(e: ShipEscrow.Deal, code: byte)
    requires e.Fits() && (code == CLTV || code == CSV)
    ensures AllPass(ShipEscrow.PickUp(e), code) && AllPass(ShipEscrow.RefundBuyer(e), code)
    ensures AllPass(ShipEscrow.PayWorkers(e), code) && AllPass(ShipEscrow.ArbiterRefund(e), code)
  {
    PaymentPasses(e.buyer, code);
    PaymentPasses(e.seller, code);
    PaymentPasses(e.deliverer, code);
    OutputsPass(e.fee, code);
    StatePasses(e.Remaining(), code);
    PartsPass(e.deliverer, e.salt, code);
    PartsPass(e.arbiter, e.salt, code);
    hide Passes, ShipEscrow.PaysTo, ShipEscrow.Outputs, ShipEscrow.ExactFee, StateMachine.SameScript,
         StateMachine.NextAmount, Signed;
  }

  lemma {:induction false} EscrowPasses(e: ShipEscrow.Deal)
    requires e.Fits()
    ensures CodePasses(ShipEscrow.EscrowCode(e), CSV)
  {
    var total, rest := e.Total(), e.Remaining();
    OutputsPass(e.fee, CSV);
    StatePasses(total, CSV);
    StatePasses(rest, CSV);
    PayoutsPass(e, CSV);
    PartsPass(e.buyer, e.salt, CSV);
    PartsPass(e.arbiter, e.salt, CSV);
    AfterLocks(e.deadline1);
    AfterLocks(e.deadline2);
    hide AllPass, ShipEscrow.PickUp, ShipEscrow.RefundBuyer, ShipEscrow.PayWorkers, ShipEscrow.ArbiterRefund,
         ShipEscrow.After, ShipEscrow.DropAmount, StateMachine.InState, StateMachine.ReadAmount,
         StateMachine.NoState, Signed, Salted, LocksAt, ShipEscrow.Deal.Total, ShipEscrow.Deal.Remaining;
    var signed := Line(Signed(e.arbiter));
    var early, late := Line(ShipEscrow.After(e.deadline1)), Line(ShipEscrow.After(e.deadline2));
    var drop, none := Line(ShipEscrow.DropAmount()), Line(StateMachine.NoState());
    var refund := Chain(Branch(signed, early), Line(ShipEscrow.RefundBuyer(e)));
    PassBranch(signed, early, CSV);
    PassChain(Branch(signed, early), Line(ShipEscrow.RefundBuyer(e)), CSV);
    PassBranch(Line(ShipEscrow.PickUp(e)), refund, CSV);
    PassChain(drop, Branch(Line(ShipEscrow.PickUp(e)), refund), CSV);
    PassBranch(signed, late, CSV);
    PassBranch(Line(Signed(e.buyer)), Branch(signed, late), CSV);
    var pay := Chain(ShipEscrow.AuthorizeCode(e), Line(ShipEscrow.PayWorkers(e)));
    PassChain(ShipEscrow.AuthorizeCode(e), Line(ShipEscrow.PayWorkers(e)), CSV);
    PassBranch(pay, Line(ShipEscrow.ArbiterRefund(e)), CSV);
    PassChain(drop, Branch(pay, Line(ShipEscrow.ArbiterRefund(e))), CSV);
    hide CodePasses, ShipEscrow.FundedCode, ShipEscrow.InTransitCode;
    DispatchPasses(e);
    var dispatch := ShipEscrow.DispatchCode(e);
    LinePasses(StateMachine.ReadAmount(), CSV);
    LinePasses(Salted(e.salt), CSV);
    PassChain(Line(StateMachine.ReadAmount()), dispatch, CSV);
    PassChain(Line(Salted(e.salt)), Chain(Line(StateMachine.ReadAmount()), dispatch), CSV);
  }

  lemma LinePasses(ts: seq<Tok>, code: byte)
    requires AllPass(ts, code)
    ensures CodePasses(Line(ts), code)
  {
  }

  lemma {:induction false} DispatchPasses(e: ShipEscrow.Deal)
    requires e.Fits() && CodePasses(ShipEscrow.FundedCode(e), CSV) && CodePasses(ShipEscrow.InTransitCode(e), CSV)
    ensures CodePasses(ShipEscrow.DispatchCode(e), CSV)
  {
    var funded, transit, none := ShipEscrow.FundedCode(e), ShipEscrow.InTransitCode(e), Line(StateMachine.NoState());
    StatePasses(e.Total(), CSV);
    StatePasses(e.Remaining(), CSV);
    LinePasses(StateMachine.NoState(), CSV);
    LinePasses(StateMachine.InState(e.Total()), CSV);
    LinePasses(StateMachine.InState(e.Remaining()), CSV);
    hide CodePasses, AllPass, StateMachine.InState, StateMachine.NoState, ShipEscrow.FundedCode,
         ShipEscrow.InTransitCode, ShipEscrow.Deal.Total, ShipEscrow.Deal.Remaining;
    var later := Chain(Line(StateMachine.InState(e.Remaining())), Branch(transit, none));
    PassBranch(transit, none, CSV);
    PassChain(Line(StateMachine.InState(e.Remaining())), Branch(transit, none), CSV);
    PassBranch(funded, later, CSV);
    PassChain(Line(StateMachine.InState(e.Total())), Branch(funded, later), CSV);
  }

  lemma {:induction false} EscrowLocks(e: ShipEscrow.Deal)
    requires e.Fits()
    ensures LocksAt(ShipEscrow.EscrowCode(e), e.deadline1)
  {
    OutputsPass(e.fee, CLTV);
    StatePasses(e.Total(), CLTV);
    StatePasses(e.Remaining(), CLTV);
    PayoutsPass(e, CLTV);
    PartsPass(e.arbiter, e.salt, CLTV);
    AfterLocks(e.deadline1);
    hide AllPass, ShipEscrow.PickUp, ShipEscrow.RefundBuyer, ShipEscrow.After, ShipEscrow.DropAmount,
         StateMachine.InState, StateMachine.ReadAmount, StateMachine.NoState, Signed, Salted, LocksAt,
         ShipEscrow.InTransitCode;
    var signed, after := Line(Signed(e.arbiter)), Line(ShipEscrow.After(e.deadline1));
    var refund := Chain(Branch(signed, after), Line(ShipEscrow.RefundBuyer(e)));
    var pay := Branch(Line(ShipEscrow.PickUp(e)), refund);
    var later := Chain(Line(StateMachine.InState(e.Remaining())),
                       Branch(ShipEscrow.InTransitCode(e), Line(StateMachine.NoState())));
    LocksNo(signed, after, e.deadline1);
    LocksFirst(Branch(signed, after), Line(ShipEscrow.RefundBuyer(e)), e.deadline1);
    LocksNo(Line(ShipEscrow.PickUp(e)), refund, e.deadline1);
    LocksSecond(Line(ShipEscrow.DropAmount()), pay, e.deadline1);
    LocksYes(ShipEscrow.FundedCode(e), later, e.deadline1);
    LocksSecond(Line(StateMachine.InState(e.Total())), Branch(ShipEscrow.FundedCode(e), later), e.deadline1);
    LocksSecond(Line(StateMachine.ReadAmount()), ShipEscrow.DispatchCode(e), e.deadline1);
    LocksSecond(Line(Salted(e.salt)), Chain(Line(StateMachine.ReadAmount()), ShipEscrow.DispatchCode(e)), e.deadline1);
  }

  /** From a shipping escrow the wallet reads the first of its two deadlines. */
  lemma {:induction false} EscrowScans(e: ShipEscrow.Deal)
    requires e.Fits()
    ensures Reads(ShipEscrow.Script(e), 0, e.deadline1)
  {
    ShipEscrow.EscrowOk(e);
    EscrowPasses(e);
    EscrowLocks(e);
    hide CodeOk, CodePasses, ToksOk, Flatten, Assemble, ShipEscrow.EscrowCode, Reads, LocksAt;
    ReadsLock(ShipEscrow.EscrowCode(e), e.deadline1);
  }

  // ---- the oracle and its heartbeat ----

  lemma {:induction false} JournalPasses(ps: OracleScript.Params, code: byte)
    requires code == CLTV || code == CSV
    ensures AllPass(OracleScript.Journal(ps), code)
  {
    JournalBlocksPass(ps, code);
    TimeBlocksPass(code);
    FieldPasses(0, 16, 48, code);
    FieldPasses(0, 0, 8, code);
    FieldPasses(0, 8, 16, code);
    hide Passes, OracleScript.CoRoll, OracleScript.Field, OracleScript.MustBeRoot, OracleScript.InPriceRange,
         OracleScript.OldTimeBounds, OracleScript.NotOlder;
  }

  lemma {:induction false} FieldPasses(depth: nat, i: nat, j: nat, code: byte)
    requires depth <= 1 && i < 0x100 && j < 0x100 && (code == CLTV || code == CSV)
    ensures AllPass(OracleScript.Field(depth, i, j), code)
  {
    PassFacts(code);
    hide Passes, IntTok;
  }

  lemma {:induction false} JournalBlocksPass(ps: OracleScript.Params, code: byte)
    requires code == CLTV || code == CSV
    ensures AllPass(OracleScript.CoRoll(ps), code) && AllPass(OracleScript.MustBeRoot(ps), code)
  {
    PassFacts(code);
    hide Passes, IntTok, DataTok;
  }

  lemma {:induction false} TimeBlocksPass(code: byte)
    requires code == CLTV || code == CSV
    ensures AllPass(OracleScript.OldTimeBounds(), code) && AllPass(OracleScript.NotOlder(), code)
    ensures AllPass(OracleScript.InPriceRange(), code)
  {
    PassFacts(code);
    hide Passes, IntTok;
  }

  lemma {:induction false} RebuildPasses(code: byte)
    requires code == CLTV || code == CSV
    ensures AllPass(OracleScript.Rebuild(), code)
  {
    RebuildBlocksPass(code);
    FieldPasses(1, 0, 8, code);
    FieldPasses(1, 8, 16, code);
    hide Passes, OracleScript.Field, OracleScript.PrefixStart, OracleScript.PrefixMiddle, OracleScript.PrefixEnd,
         OracleScript.OwnBody;
  }

  lemma {:induction false} RebuildBlocksPass(code: byte)
    requires code == CLTV || code == CSV
    ensures AllPass(OracleScript.PrefixStart(), code) && AllPass(OracleScript.PrefixMiddle(), code)
    ensures AllPass(OracleScript.PrefixEnd(), code) && AllPass(OracleScript.OwnBody(), code)
  {
    PassFacts(code);
    hide Passes, IntTok, DataTok;
  }

  lemma {:induction false} SettlePasses(ps: OracleScript.Params, code: byte)
    requires code == CLTV || code == CSV
    ensures AllPass(OracleScript.Settle(ps), code)
  {
    SettleBlocksPass(code);
    PaymentBlocksPass(code);
    WrapHashPasses(code);
    ProofPasses(ps, code);
    hide Passes, OracleScript.OneInput, OracleScript.OneOutput, OracleScript.WrapHash, OracleScript.PaysNext,
         OracleScript.KeepsValue, OracleScript.Proof;
  }

  lemma {:induction false} SettleBlocksPass(code: byte)
    requires code == CLTV || code == CSV
    ensures AllPass(OracleScript.OneInput(), code) && AllPass(OracleScript.OneOutput(), code)
  {
    PassFacts(code);
    hide Passes, IntTok;
  }

  lemma {:induction false} PaymentBlocksPass(code: byte)
    requires code == CLTV || code == CSV
    ensures AllPass(OracleScript.PaysNext(), code) && AllPass(OracleScript.KeepsValue(), code)
  {
    PassFacts(code);
    hide Passes, IntTok;
  }

  lemma {:induction false} WrapHashPasses(code: byte)
    requires code == CLTV || code == CSV
    ensures AllPass(OracleScript.WrapHash(), code)
  {
    PassFacts(code);
    hide Passes, DataTok;
  }

  lemma {:induction false} ProofPasses(ps: OracleScript.Params, code: byte)
    requires code == CLTV || code == CSV
    ensures AllPass(OracleScript.Proof(ps), code)
  {
    PassFacts(code);
    hide Passes, IntTok, DataTok;
  }

  lemma {:induction false} SelfSendPasses(code: byte)
    requires code == CLTV || code == CSV
    ensures AllPass(OracleScript.LineageIn(), code) && AllPass(OracleScript.LineageOut(), code)
    ensures AllPass(OracleScript.SelfSend(), code)
  {
    PassFacts(code);
    hide Passes, IntTok;
  }

  lemma {:induction false} OwnValuePasses(code: byte)
    requires code == CLTV || code == CSV
    ensures AllPass(OracleScript.KeepsOwnValue(), code) && AllPass(OracleSpend.RollsForward(), code)
  {
    PassFacts(code);
    hide Passes, IntTok;
  }

  lemma {:induction false} PassthroughPasses(code: byte)
    requires code == CLTV || code == CSV
    ensures AllPass(OracleScript.Passthrough(), code) && AllPass(OracleSpend.Heartbeat(), code)
  {
    SelfSendPasses(code);
    OwnValuePasses(code);
    hide Passes, OracleScript.LineageIn, OracleScript.LineageOut, OracleScript.SelfSend, OracleScript.KeepsOwnValue,
         OracleSpend.RollsForward;
  }

  lemma {:induction false} OraclePasses(price: nat, t: nat, ps: OracleScript.Params, code: byte)
    requires price < U64_LIMIT && t < U64_LIMIT && (code == CLTV || code == CSV)
    ensures CodePasses(OracleScript.RedeemCode(price, t, ps), code)
  {
    PrefixPasses(price, t, code);
    JournalPasses(ps, code);
    RebuildPasses(code);
    SettlePasses(ps, code);
    PassthroughPasses(code);
    hide AllPass, OracleScript.Journal, OracleScript.Rebuild, OracleScript.Settle, OracleScript.Passthrough,
         OracleScript.Prefix;
    PassJoin(OracleScript.Journal(ps), OracleScript.Rebuild(), code);
    PassJoin(OracleScript.Journal(ps) + OracleScript.Rebuild(), OracleScript.Settle(ps), code);
    PassBranch(Line(OracleScript.Roll(ps)), Line(OracleScript.Passthrough()), code);
    PassChain(Line(OracleScript.Prefix(price, t)), OracleScript.BodyCode(ps), code);
  }

  lemma {:induction false} PrefixPasses(price: nat, t: nat, code: byte)
    requires price < U64_LIMIT && t < U64_LIMIT && (code == CLTV || code == CSV)
    ensures AllPass(OracleScript.Prefix(price, t), code)
  {
    PassFacts(code);
    hide Passes, DataTok, Le64;
  }

  /** The oracle has no lock, whatever its price, its time and its pins. */
  lemma {:induction false} OracleScans(price: nat, t: nat, ps: OracleScript.Params)
    requires price < U64_LIMIT && t < U64_LIMIT
    ensures Reads(OracleScript.Redeem(price, t, ps), 0, 0)
  {
    OracleScript.RedeemOk(price, t, ps);
    OraclePasses(price, t, ps, CSV);
    OraclePasses(price, t, ps, CLTV);
    hide CodeOk, CodePasses, ToksOk, Flatten, Assemble, OracleScript.RedeemCode, Reads;
    ReadsNothing(OracleScript.RedeemCode(price, t, ps));
  }

  /** Nor has its heartbeat. */
  lemma {:induction false} HeartbeatScans()
    ensures ToksOk(OracleSpend.Heartbeat()) && Reads(Assemble(OracleSpend.Heartbeat()), 0, 0)
  {
    OracleSpend.HeartbeatOk();
    PassthroughPasses(CSV);
    PassthroughPasses(CLTV);
    hide CodeOk, AllPass, ToksOk, Assemble, OracleSpend.Heartbeat, Reads;
    assert Flatten(Line(OracleSpend.Heartbeat())) == OracleSpend.Heartbeat();
    ReadsNothing(Line(OracleSpend.Heartbeat()));
  }
}
