/** The shipping escrow: two states, seven ways to spend, two spends at most. */
module ShipEscrow {
  import opened Bytes
  import opened ScriptNumbers
  import opened ScriptTokens
  import opened ScriptMachine
  import opened ScriptCode
  import opened ScriptRules
  import opened ScriptBytes
  import opened ScriptBuilder
  import opened ScriptParts
  import opened StateMachine

  /** Seller, deliverer, buyer and arbiter; the price, the fee and the two deadlines. */
  datatype Deal = Deal(seller: Key, deliverer: Key, buyer: Key, arbiter: Key, product: nat, fee: nat,
                       deadline1: nat, deadline2: nat, salt: Salt)
  {
    predicate Fits() {
      product + fee < U64_LIMIT && deadline1 < U64_LIMIT && deadline2 < U64_LIMIT
    }

    function Tranche1(): nat { product / 2 }

    function Tranche2(): nat { product - product / 2 }

    function Total(): nat { product + fee }

    /** What stays in escrow after the pickup. */
    function Remaining(): nat { product + fee - product / 2 }
  }

  /** Version 0, `<key> CHECKSIG`. */
  function P2pk(key: Key): seq<byte> {
    [0x00, 0x00, 0x20] + key + [0xac]
  }

  function PaysTo(i: nat, key: Key): seq<Tok>
    requires i <= 1
  {
    [IntTok(i), Do(TxOutputSpk), DataTok(P2pk(key)), Do(EqualVerify)]
  }

  function Outputs(n: nat): seq<Tok>
    requires n <= 2
  {
    [Do(TxOutputCount), IntTok(n), Do(EqualVerify), IntTok(1)]
  }

  function ExactFee(fee: nat): seq<Tok>
    requires fee < U64_LIMIT
  {
    [IntTok(1), Do(TxOutputAmount), IntTok(fee), Do(EqualVerify)]
  }

  function After(deadline: nat): seq<Tok>
    requires deadline < U64_LIMIT
  {
    [IntTok(deadline), Do(CheckLockTimeVerify)]
  }

  function DropAmount(): seq<Tok> {
    [Do(Drop)]
  }

  function PickUp(e: Deal): seq<Tok>
    requires e.Fits()
  {
    Signed(e.deliverer) + SameScript() + NextAmount(e.Remaining()) + PaysTo(1, e.seller) + Outputs(2)
  }

  function RefundBuyer(e: Deal): seq<Tok> {
    PaysTo(0, e.buyer) + Outputs(1)
  }

  function PayWorkers(e: Deal): seq<Tok>
    requires e.Fits()
  {
    PaysTo(0, e.seller) + PaysTo(1, e.deliverer) + ExactFee(e.fee) + Outputs(2)
  }

  function ArbiterRefund(e: Deal): seq<Tok> {
    Signed(e.arbiter) + PaysTo(0, e.buyer) + Outputs(1)
  }

  function FundedCode(e: Deal): Code
    requires e.Fits()
  {
    Chain(Line(DropAmount()),
      Branch(Line(PickUp(e)),
             Chain(Branch(Line(Signed(e.arbiter)), Line(After(e.deadline1))), Line(RefundBuyer(e)))))
  }

  function AuthorizeCode(e: Deal): Code
    requires e.Fits()
  {
    Branch(Line(Signed(e.buyer)), Branch(Line(Signed(e.arbiter)), Line(After(e.deadline2))))
  }

  function InTransitCode(e: Deal): Code
    requires e.Fits()
  {
    Chain(Line(DropAmount()), Branch(Chain(AuthorizeCode(e), Line(PayWorkers(e))), Line(ArbiterRefund(e))))
  }

  function DispatchCode(e: Deal): Code
    requires e.Fits()
  {
    Chain(Line(InState(e.Total())), Branch(FundedCode(e),
      Chain(Line(InState(e.Remaining())), Branch(InTransitCode(e), Line(NoState())))))
  }

  function EscrowCode(e: Deal): Code
    requires e.Fits()
  {
    Chain(Line(Salted(e.salt)), Chain(Line(ReadAmount()), DispatchCode(e)))
  }

  // ---- what each block demands ----

  ghost predicate Pays(env: Env, i: nat, key: Key) {
    i < |env.outputs| && env.outputs[i].spk == P2pk(key)
  }

  lemma {:induction false} PaysToMeans(env: Env, i: nat, key: Key, s: Stack)
    requires i <= 1
    ensures Steps(env, PaysTo(i, key), At(s)) == if Pays(env, i, key) then At(s) else Failed
  {
    hide Step, Steps, Enc, Flag, IntTok, DataTok, P2pk;
    assert |P2pk(key)| < U32_LIMIT by {
      P2pkLength(key);
    }
    StackRules(env);
    TxRules(env);
    StepsTo8(env, PaysTo(i, key), At(s));
  }

  lemma P2pkLength(key: Key)
    ensures |P2pk(key)| == 36
  {
  }

  lemma {:induction false} OutputsMean(env: Env, n: nat, s: Stack)
    requires n <= 2
    ensures Steps(env, Outputs(n), At(s)) == if |env.outputs| == n then At(Push([1], s)) else Failed
  {
    hide Step, Steps, Enc, Flag, IntTok, DataTok;
    StackRules(env);
    TxRules(env);
    EncInjective(|env.outputs|, n);
    EncOne();
    StepsTo8(env, Outputs(n), At(s));
  }

  lemma {:induction false} ExactFeeMeans(env: Env, fee: nat, s: Stack)
    requires fee < U64_LIMIT
    ensures Steps(env, ExactFee(fee), At(s)) == if |env.outputs| > 1 && env.outputs[1].amount == fee then At(s) else Failed
  {
    hide Step, Steps, Enc, Flag, IntTok, DataTok;
    StackRules(env);
    TxRules(env);
    EqualNumbers();
    StepsTo8(env, ExactFee(fee), At(s));
  }

  lemma {:induction false} AfterMeans(env: Env, deadline: nat, s: Stack)
    requires deadline < U64_LIMIT
    ensures Steps(env, After(deadline), At(s)) == if env.lockTimeOk(deadline) then At(s) else Failed
  {
    hide Step, Steps, Enc, Flag, IntTok, DataTok;
    StackRules(env);
    OracleRules(env);
    StepsTo8(env, After(deadline), At(s));
  }

  lemma {:induction false} DropMeans(env: Env, a: seq<byte>, s: Stack)
    ensures Steps(env, DropAmount(), At(Push(a, s))) == At(s)
  {
    hide Step, Steps;
    StackRules(env);
    StepsTo8(env, DropAmount(), At(Push(a, s)));
  }

  /** The true item a branch ends with. */
  function Done(s: Stack): State {
    At(Push([1], s))
  }

  lemma {:induction false} PickUpMeans(env: Env, e: Deal, s: Stack)
    requires env.Valid() && e.Fits()
    ensures Steps(env, PickUp(e), At(s)) ==
            if s.Push? && env.checkSig(s.top, e.deliverer) && PickedUp(env, e) then Done(s.rest) else Failed
  {
    hide Steps, Signed, SameScript, NextAmount, PaysTo, Outputs, Pays;
    var a := Signed(e.deliverer) + SameScript();
    var b := a + NextAmount(e.Remaining());
    StepsConcat(env, Signed(e.deliverer), SameScript(), At(s));
    StepsConcat(env, a, NextAmount(e.Remaining()), At(s));
    StepsConcat(env, b, PaysTo(1, e.seller), At(s));
    StepsConcat(env, b + PaysTo(1, e.seller), Outputs(2), At(s));
    FailureStays(env);
    SignedMeans(env, e.deliverer, s);
    if s.Push? {
      SameScriptMeans(env, s.rest);
      NextAmountMeans(env, e.Remaining(), s.rest);
      PaysToMeans(env, 1, e.seller, s.rest);
      OutputsMean(env, 2, s.rest);
    }
  }

  /** The pickup's outputs: the escrow goes on with what remains, the seller gets the rest. */
  ghost predicate PickedUp(env: Env, e: Deal)
    requires env.Valid()
  {
    && |env.outputs| == 2
    && env.outputs[0].spk == env.Self().spk && env.outputs[0].amount == e.Remaining()
    && Pays(env, 1, e.seller)
  }

  ghost predicate Refunded(env: Env, e: Deal) {
    |env.outputs| == 1 && Pays(env, 0, e.buyer)
  }

  ghost predicate WorkersPaid(env: Env, e: Deal) {
    |env.outputs| == 2 && Pays(env, 0, e.seller) && Pays(env, 1, e.deliverer) && env.outputs[1].amount == e.fee
  }

  lemma {:induction false} RefundBuyerMeans(env: Env, e: Deal, s: Stack)
    ensures Steps(env, RefundBuyer(e), At(s)) == if Refunded(env, e) then Done(s) else Failed
  {
    hide Steps, PaysTo, Outputs, Pays;
    StepsConcat(env, PaysTo(0, e.buyer), Outputs(1), At(s));
    FailureStays(env);
    PaysToMeans(env, 0, e.buyer, s);
    OutputsMean(env, 1, s);
  }

  lemma {:induction false} PayWorkersMeans(env: Env, e: Deal, s: Stack)
    requires e.Fits()
    ensures Steps(env, PayWorkers(e), At(s)) == if WorkersPaid(env, e) then Done(s) else Failed
  {
    hide Steps, PaysTo, Outputs, ExactFee, Pays;
    var a := PaysTo(0, e.seller) + PaysTo(1, e.deliverer);
    StepsConcat(env, PaysTo(0, e.seller), PaysTo(1, e.deliverer), At(s));
    StepsConcat(env, a, ExactFee(e.fee), At(s));
    StepsConcat(env, a + ExactFee(e.fee), Outputs(2), At(s));
    FailureStays(env);
    PaysToMeans(env, 0, e.seller, s);
    PaysToMeans(env, 1, e.deliverer, s);
    ExactFeeMeans(env, e.fee, s);
    OutputsMean(env, 2, s);
  }

  lemma {:induction false} ArbiterRefundMeans(env: Env, e: Deal, s: Stack)
    ensures Steps(env, ArbiterRefund(e), At(s)) ==
            if s.Push? && env.checkSig(s.top, e.arbiter) && Refunded(env, e) then Done(s.rest) else Failed
  {
    hide Steps, Signed, PaysTo, Outputs, Pays;
    StepsConcat(env, Signed(e.arbiter), PaysTo(0, e.buyer), At(s));
    StepsConcat(env, Signed(e.arbiter) + PaysTo(0, e.buyer), Outputs(1), At(s));
    FailureStays(env);
    SignedMeans(env, e.arbiter, s);
    if s.Push? {
      PaysToMeans(env, 0, e.buyer, s.rest);
      OutputsMean(env, 1, s.rest);
    }
  }

  // ---- the paths ----

  datatype Path = Pickup | ArbiterRefundsEarly | EarlyTimeout | BuyerConfirms | ArbiterAwards | LateTimeout | ArbiterRefundsLate

  ghost predicate SignedBy(env: Env, s: Stack, key: Key) {
    s.Push? && s.rest.Nil? && env.checkSig(s.top, key)
  }

  ghost predicate Selects(s: Stack, flag: bool) {
    s.Push? && Truthy(s.top) == flag
  }

  /** The amount that is dispatched second: a price below two gives it to the first state too, which comes first. */
  ghost predicate InTransitAmount(env: Env, e: Deal)
    requires env.Valid()
  {
    env.Self().amount == e.Remaining() && e.Remaining() != e.Total()
  }

  /** What each path takes: the state it starts from, its selectors and authorization, and its outputs. */
  ghost predicate PathHolds(env: Env, e: Deal, path: Path, s: Stack)
    requires env.Valid()
  {
    match path
    case Pickup =>
      env.Self().amount == e.Total() && Selects(s, true) && SignedBy(env, s.rest, e.deliverer) && PickedUp(env, e)
    case ArbiterRefundsEarly =>
      && env.Self().amount == e.Total() && Selects(s, false) && Selects(s.rest, true)
      && SignedBy(env, s.rest.rest, e.arbiter) && Refunded(env, e)
    case EarlyTimeout =>
      && env.Self().amount == e.Total() && Selects(s, false) && Selects(s.rest, false)
      && s.rest.rest.Nil? && env.lockTimeOk(e.deadline1) && Refunded(env, e)
    case BuyerConfirms =>
      && InTransitAmount(env, e) && Selects(s, true) && Selects(s.rest, true)
      && SignedBy(env, s.rest.rest, e.buyer) && WorkersPaid(env, e)
    case ArbiterAwards =>
      && InTransitAmount(env, e) && Selects(s, true) && Selects(s.rest, false) && Selects(s.rest.rest, true)
      && SignedBy(env, s.rest.rest.rest, e.arbiter) && WorkersPaid(env, e)
    case LateTimeout =>
      && InTransitAmount(env, e) && Selects(s, true) && Selects(s.rest, false) && Selects(s.rest.rest, false)
      && s.rest.rest.rest.Nil? && env.lockTimeOk(e.deadline2) && WorkersPaid(env, e)
    case ArbiterRefundsLate =>
      && InTransitAmount(env, e) && Selects(s, false)
      && SignedBy(env, s.rest, e.arbiter) && Refunded(env, e)
  }

  // ---- what the escrow accepts ----

  lemma {:induction false} FundedMeans(env: Env, e: Deal, a: seq<byte>, s: Stack)
    requires env.Valid() && e.Fits() && env.Self().amount == e.Total()
    ensures Clean(Exec(env, FundedCode(e), At(Push(a, s)))) <==> exists path :: PathHolds(env, e, path, s)
  {
    hide Exec, Steps, DropAmount, PickUp, Signed, After, RefundBuyer, Truthy, PickedUp, Refunded, WorkersPaid,
         Deal.Total, Deal.Remaining;
    var refund := Chain(Branch(Line(Signed(e.arbiter)), Line(After(e.deadline1))), Line(RefundBuyer(e)));
    ExecLineThen(env, DropAmount(), Branch(Line(PickUp(e)), refund), At(Push(a, s)));
    DropMeans(env, a, s);
    ExecBranchNil(env, Line(PickUp(e)), refund);
    TrueIsTrue();
    if s.Push? {
      ExecBranch(env, Line(PickUp(e)), refund, s.top, s.rest);
      if Truthy(s.top) {
        ExecLine(env, PickUp(e), At(s.rest));
        PickUpMeans(env, e, s.rest);
        assert Clean(Exec(env, FundedCode(e), At(Push(a, s)))) <==> PathHolds(env, e, Pickup, s);
      } else {
        EarlyRefundMeans(env, e, s.rest);
        assert Clean(Exec(env, FundedCode(e), At(Push(a, s)))) <==>
          PathHolds(env, e, ArbiterRefundsEarly, s) || PathHolds(env, e, EarlyTimeout, s);
      }
    }
  }

  lemma {:induction false} TrueIsTrue()
    ensures Truthy([1])
  {
    FlagIsNumber(true);
  }

  /** The refund out of the funded state. */
  lemma {:induction false} EarlyRefundMeans(env: Env, e: Deal, s: Stack)
    requires env.Valid() && e.Fits()
    ensures
      var refund := Chain(Branch(Line(Signed(e.arbiter)), Line(After(e.deadline1))), Line(RefundBuyer(e)));
      Clean(Exec(env, refund, At(s))) <==>
      && s.Push? && Refunded(env, e)
      && if Truthy(s.top) then SignedBy(env, s.rest, e.arbiter) else s.rest.Nil? && env.lockTimeOk(e.deadline1)
  {
    hide Exec, Steps, Signed, After, RefundBuyer, Truthy, Refunded;
    var who := Branch(Line(Signed(e.arbiter)), Line(After(e.deadline1)));
    ExecChain(env, who, Line(RefundBuyer(e)), At(s));
    ExecBranchNil(env, Line(Signed(e.arbiter)), Line(After(e.deadline1)));
    ExecFailed(env, Line(RefundBuyer(e)));
    TrueIsTrue();
    if s.Push? {
      ExecBranch(env, Line(Signed(e.arbiter)), Line(After(e.deadline1)), s.top, s.rest);
      ExecLine(env, Signed(e.arbiter), At(s.rest));
      ExecLine(env, After(e.deadline1), At(s.rest));
      SignedMeans(env, e.arbiter, s.rest);
      AfterMeans(env, e.deadline1, s.rest);
      var below := if Truthy(s.top) && s.rest.Push? then s.rest.rest else s.rest;
      ExecLine(env, RefundBuyer(e), At(below));
      RefundBuyerMeans(env, e, below);
    }
  }

  /** Who may pay the workers, and the stack left after it. */
  function Authorized(env: Env, e: Deal, s: Stack): State {
    if s.Nil? then Failed
    else if Truthy(s.top) then
      if s.rest.Push? && env.checkSig(s.rest.top, e.buyer) then At(s.rest.rest) else Failed
    else if s.rest.Nil? then Failed
    else if Truthy(s.rest.top) then
      if s.rest.rest.Push? && env.checkSig(s.rest.rest.top, e.arbiter) then At(s.rest.rest.rest) else Failed
    else if env.lockTimeOk(e.deadline2) then At(s.rest.rest)
    else Failed
  }

  lemma {:induction false} AuthorizeMeans(env: Env, e: Deal, s: Stack)
    requires e.Fits()
    ensures Exec(env, AuthorizeCode(e), At(s)) == Authorized(env, e, s)
  {
    hide Exec, Steps, Signed, After, Truthy;
    var others := Branch(Line(Signed(e.arbiter)), Line(After(e.deadline2)));
    ExecBranchNil(env, Line(Signed(e.buyer)), others);
    ExecBranchNil(env, Line(Signed(e.arbiter)), Line(After(e.deadline2)));
    if s.Push? {
      ExecBranch(env, Line(Signed(e.buyer)), others, s.top, s.rest);
      ExecLine(env, Signed(e.buyer), At(s.rest));
      SignedMeans(env, e.buyer, s.rest);
      if s.rest.Push? {
        ExecBranch(env, Line(Signed(e.arbiter)), Line(After(e.deadline2)), s.rest.top, s.rest.rest);
        ExecLine(env, Signed(e.arbiter), At(s.rest.rest));
        ExecLine(env, After(e.deadline2), At(s.rest.rest));
        SignedMeans(env, e.arbiter, s.rest.rest);
        AfterMeans(env, e.deadline2, s.rest.rest);
      }
    }
  }

  lemma {:induction false} PayMeans(env: Env, e: Deal, s: Stack)
    requires e.Fits()
    ensures
      var st := Authorized(env, e, s);
      Clean(Exec(env, Chain(AuthorizeCode(e), Line(PayWorkers(e))), At(s))) <==>
          st.At? && st.stack.Nil? && WorkersPaid(env, e)
  {
    hide Exec, Steps, AuthorizeCode, PayWorkers, WorkersPaid, Authorized, Truthy;
    ExecChain(env, AuthorizeCode(e), Line(PayWorkers(e)), At(s));
    AuthorizeMeans(env, e, s);
    ExecFailed(env, Line(PayWorkers(e)));
    TrueIsTrue();
    var st := Authorized(env, e, s);
    if st.At? {
      ExecLine(env, PayWorkers(e), st);
      PayWorkersMeans(env, e, st.stack);
    }
  }

  lemma {:induction false} InTransitMeans(env: Env, e: Deal, a: seq<byte>, s: Stack)
    requires env.Valid() && e.Fits() && env.Self().amount == e.Remaining() && e.Total() != e.Remaining()
    ensures Clean(Exec(env, InTransitCode(e), At(Push(a, s)))) <==> exists path :: PathHolds(env, e, path, s)
  {
    hide Exec, Steps, DropAmount, AuthorizeCode, PayWorkers, ArbiterRefund, Truthy, PickedUp, Refunded, WorkersPaid,
         Deal.Total, Deal.Remaining;
    var pay, refund := Chain(AuthorizeCode(e), Line(PayWorkers(e))), Line(ArbiterRefund(e));
    ExecLineThen(env, DropAmount(), Branch(pay, refund), At(Push(a, s)));
    DropMeans(env, a, s);
    ExecBranchNil(env, pay, refund);
    TrueIsTrue();
    if s.Push? {
      ExecBranch(env, pay, refund, s.top, s.rest);
      if Truthy(s.top) {
        PayMeans(env, e, s.rest);
        assert Clean(Exec(env, InTransitCode(e), At(Push(a, s)))) <==>
          PathHolds(env, e, BuyerConfirms, s) || PathHolds(env, e, ArbiterAwards, s)
              || PathHolds(env, e, LateTimeout, s);
      } else {
        ExecLine(env, ArbiterRefund(e), At(s.rest));
        ArbiterRefundMeans(env, e, s.rest);
        assert Clean(Exec(env, InTransitCode(e), At(Push(a, s)))) <==> PathHolds(env, e, ArbiterRefundsLate, s);
      }
    }
  }

  lemma {:induction false} DispatchMeans(env: Env, e: Deal, s: Stack)
    requires env.Valid() && e.Fits()
    ensures Clean(Exec(env, DispatchCode(e), At(Push(Enc(env.Self().amount), s)))) <==>
              exists path :: PathHolds(env, e, path, s)
  {
    hide Exec, Steps, InState, NoState, FundedCode, InTransitCode, Truthy, Enc, Flag, Clean, PickedUp, Refunded,
         WorkersPaid;
    var n := env.Self().amount;
    var below := Push(Enc(n), s);
    var later := Chain(Line(InState(e.Remaining())), Branch(InTransitCode(e), Line(NoState())));
    ExecLineThen(env, InState(e.Total()), Branch(FundedCode(e), later), At(below));
    InStateMeans(env, n, e.Total(), s);
    FlagIsNumber(n == e.Total());
    ExecBranch(env, FundedCode(e), later, Flag(n == e.Total()), below);
    if n == e.Total() {
      FundedMeans(env, e, Enc(n), s);
    } else {
      ExecLineThen(env, InState(e.Remaining()), Branch(InTransitCode(e), Line(NoState())), At(below));
      InStateMeans(env, n, e.Remaining(), s);
      FlagIsNumber(n == e.Remaining());
      ExecBranch(env, InTransitCode(e), Line(NoState()), Flag(n == e.Remaining()), below);
      if n == e.Remaining() {
        InTransitMeans(env, e, Enc(n), s);
      } else {
        ExecLine(env, NoState(), At(below));
        NoStateMeans(env, Enc(n), s);
      }
    }
  }

  lemma {:induction false} BlocksOk(e: Deal)
    requires e.Fits()
    ensures CodeOk(Line(DropAmount())) && CodeOk(Line(ReadAmount())) && CodeOk(Line(NoState()))
    ensures CodeOk(Line(InState(e.Total()))) && CodeOk(Line(InState(e.Remaining())))
    ensures CodeOk(Line(SameScript())) && CodeOk(Line(NextAmount(e.Remaining())))
    ensures CodeOk(Line(After(e.deadline1))) && CodeOk(Line(After(e.deadline2)))
  {
    hide Plain, CodeOk, IntTok, DataTok, TokLen, Len, TokOk, ToksOk, Enc, Mag;
    PlainToks();
    PlainLine(DropAmount());
    PlainLine(ReadAmount());
    PlainLine(NoState());
    PlainLine(InState(e.Total()));
    PlainLine(InState(e.Remaining()));
    PlainLine(SameScript());
    PlainLine(NextAmount(e.Remaining()));
    PlainLine(After(e.deadline1));
    PlainLine(After(e.deadline2));
  }

  lemma {:induction false} PayoutsOk(e: Deal, i: nat, key: Key)
    requires e.Fits() && i <= 1
    ensures CodeOk(Line(PaysTo(i, key))) && CodeOk(Line(Outputs(1))) && CodeOk(Line(Outputs(2)))
              && CodeOk(Line(ExactFee(e.fee)))
    ensures CodeOk(Line(Signed(key)))
  {
    hide Plain, CodeOk, IntTok, DataTok, TokLen, Len, TokOk, ToksOk, Enc, Mag, P2pk;
    P2pkLength(key);
    PlainToks();
    PartsOk(key, e.salt);
    PlainLine(PaysTo(i, key));
    PlainLine(Outputs(1));
    PlainLine(Outputs(2));
    PlainLine(ExactFee(e.fee));
  }

  lemma {:induction false} LinesOk(e: Deal)
    requires e.Fits()
    ensures CodeOk(Line(PickUp(e))) && CodeOk(Line(RefundBuyer(e))) && CodeOk(Line(PayWorkers(e)))
              && CodeOk(Line(ArbiterRefund(e)))
    ensures CodeOk(Line(Signed(e.arbiter))) && CodeOk(Line(Signed(e.buyer)))
  {
    hide CodeOk, Signed, SameScript, NextAmount, PaysTo, Outputs, ExactFee;
    BlocksOk(e);
    PayoutsOk(e, 0, e.buyer);
    PayoutsOk(e, 0, e.arbiter);
    PayoutsOk(e, 0, e.seller);
    PayoutsOk(e, 1, e.seller);
    PayoutsOk(e, 1, e.deliverer);
    var a := Signed(e.deliverer) + SameScript();
    var b := a + NextAmount(e.Remaining());
    PlainJoin(Signed(e.deliverer), SameScript());
    PlainJoin(a, NextAmount(e.Remaining()));
    PlainJoin(b, PaysTo(1, e.seller));
    PlainJoin(b + PaysTo(1, e.seller), Outputs(2));
    PlainJoin(PaysTo(0, e.buyer), Outputs(1));
    var c := PaysTo(0, e.seller) + PaysTo(1, e.deliverer);
    PlainJoin(PaysTo(0, e.seller), PaysTo(1, e.deliverer));
    PlainJoin(c, ExactFee(e.fee));
    PlainJoin(c + ExactFee(e.fee), Outputs(2));
    PlainJoin(Signed(e.arbiter), PaysTo(0, e.buyer));
    PlainJoin(Signed(e.arbiter) + PaysTo(0, e.buyer), Outputs(1));
  }

  lemma {:induction false} EscrowOk(e: Deal)
    requires e.Fits()
    ensures CodeOk(FundedCode(e)) && CodeOk(AuthorizeCode(e)) && CodeOk(InTransitCode(e)) && CodeOk(DispatchCode(e))
    ensures CodeOk(EscrowCode(e)) && ToksOk(Flatten(EscrowCode(e)))
  {
    hide CodeOk, ToksOk, Flatten, Signed, PickUp, RefundBuyer, PayWorkers, ArbiterRefund, After, InState, NoState,
         ReadAmount, DropAmount, Salted;
    BlocksOk(e);
    LinesOk(e);
    PartsOk(e.buyer, e.salt);
    FundedOk(e);
    InTransitOk(e);
    var t := Branch(InTransitCode(e), Line(NoState()));
    var u := Chain(Line(InState(e.Remaining())), t);
    BranchToks([], InTransitCode(e), Line(NoState()));
    ChainToks([], Line(InState(e.Remaining())), t);
    BranchToks([], FundedCode(e), u);
    ChainToks([], Line(InState(e.Total())), Branch(FundedCode(e), u));
    ChainToks([], Line(ReadAmount()), DispatchCode(e));
    ChainToks([], Line(Salted(e.salt)), Chain(Line(ReadAmount()), DispatchCode(e)));
    FlattenOk(EscrowCode(e));
  }

  lemma {:induction false} FundedOk(e: Deal)
    requires e.Fits()
    ensures CodeOk(FundedCode(e))
  {
    hide CodeOk, Flatten, Signed, PickUp, RefundBuyer, After, DropAmount;
    BlocksOk(e);
    LinesOk(e);
    var who := Branch(Line(Signed(e.arbiter)), Line(After(e.deadline1)));
    BranchToks([], Line(Signed(e.arbiter)), Line(After(e.deadline1)));
    ChainToks([], who, Line(RefundBuyer(e)));
    BranchToks([], Line(PickUp(e)), Chain(who, Line(RefundBuyer(e))));
    ChainToks([], Line(DropAmount()), Branch(Line(PickUp(e)), Chain(who, Line(RefundBuyer(e)))));
  }

  lemma {:induction false} InTransitOk(e: Deal)
    requires e.Fits()
    ensures CodeOk(AuthorizeCode(e)) && CodeOk(InTransitCode(e))
  {
    hide CodeOk, Flatten, Signed, PayWorkers, ArbiterRefund, After, DropAmount;
    BlocksOk(e);
    LinesOk(e);
    var others := Branch(Line(Signed(e.arbiter)), Line(After(e.deadline2)));
    BranchToks([], Line(Signed(e.arbiter)), Line(After(e.deadline2)));
    BranchToks([], Line(Signed(e.buyer)), others);
    var pay := Chain(AuthorizeCode(e), Line(PayWorkers(e)));
    ChainToks([], AuthorizeCode(e), Line(PayWorkers(e)));
    BranchToks([], pay, Line(ArbiterRefund(e)));
    ChainToks([], Line(DropAmount()), Branch(pay, Line(ArbiterRefund(e))));
  }

  function Script(e: Deal): seq<byte>
    requires e.Fits()
  {
    EscrowOk(e);
    Assemble(Flatten(EscrowCode(e)))
  }

  /** The escrow accepts exactly its seven paths; the last four only where its two amounts differ. */
  lemma {:induction false} EscrowAccepts(env: Env, e: Deal, s: Stack)
    requires env.Valid() && e.Fits()
    ensures Accepts(env, Script(e), s) <==> exists path :: PathHolds(env, e, path, s)
  {
    hide Exec, Steps, Salted, ReadAmount, DispatchCode, Clean, Accepts, Assemble, Flatten, CodeOk, ToksOk, PathHolds,
         Enc;
    EscrowOk(e);
    AcceptsCompiled(env, EscrowCode(e), s);
    ExecLineThen(env, Salted(e.salt), Chain(Line(ReadAmount()), DispatchCode(e)), At(s));
    SaltedMeans(env, e.salt, s);
    ExecLineThen(env, ReadAmount(), DispatchCode(e), At(s));
    ReadAmountMeans(env, s);
    DispatchMeans(env, e, s);
  }

  /** The split adds up. */
  lemma EscrowConserves(e: Deal)
    ensures e.Tranche1() + e.Remaining() == e.Total()
    ensures e.Remaining() == e.Tranche2() + e.fee
    ensures e.Tranche1() + e.Tranche2() == e.product
  {
  }

  /**
   * A price of zero or one makes both states the same amount, and the state in transit is never
   * reached: every accepted spend is a pickup, which leaves the amount as it is, or a refund.
   */
  lemma {:induction false} TinyPrice(env: Env, e: Deal, s: Stack)
    requires env.Valid() && e.Fits() && Accepts(env, Script(e), s)
    ensures e.product < 2 <==> e.Remaining() == e.Total()
    ensures e.product < 2 ==> env.Self().amount == e.Total() && (PickedUp(env, e) || Refunded(env, e))
  {
    hide Script, Accepts, PathHolds;
    EscrowAccepts(env, e, s);
    AmountsMeet(e);
    var path :| PathHolds(env, e, path, s);
    TinyPath(env, e, path, s);
  }

  lemma AmountsMeet(e: Deal)
    ensures e.product < 2 <==> e.Remaining() == e.Total()
  {
  }

  lemma {:induction false} TinyPath(env: Env, e: Deal, path: Path, s: Stack)
    requires env.Valid() && PathHolds(env, e, path, s)
    ensures e.Remaining() == e.Total() ==> env.Self().amount == e.Total() && (PickedUp(env, e) || Refunded(env, e))
  {
    hide Deal.Total, Deal.Remaining, Truthy, PickedUp, Refunded, WorkersPaid, SignedBy, Selects;
  }

  // ---- whole runs ----

  ghost predicate SpendsEscrow(env: Env, e: Deal, address: seq<byte>)
    requires e.Fits()
  {
    && env.Valid() && SpendOk(env) && env.Self().spk == address
    && address == P2sh(env.blake2b(Script(e))) && NoCollision(env, Script(e))
  }

  /** The payees' scripts are not the escrow's. */
  lemma {:induction false} PayeesDiffer(key: Key, h: Hash)
    ensures P2pk(key) != P2sh(h)
  {
    assert P2pk(key)[2] == 0x20 && P2sh(h)[2] == 0xAA;
  }

  /** From the funded state: the deal is over, or what remains is in output 0 and nowhere else. */
  lemma {:induction false} FirstSpend(env: Env, e: Deal, address: seq<byte>, o: nat)
    requires e.Fits() && e.product >= 2 && SpendsEscrow(env, e, address) && env.Self().amount == e.Total()
    requires o < |env.outputs| && env.outputs[o].spk == address
    ensures o == 0 && env.outputs[0].amount == e.Remaining() && PickedUp(env, e)
  {
    hide Script, SpendOk, NoCollision, Accepts, P2sh, P2pk, Truthy;
    var s := SpendRuns(env, Script(e));
    EscrowAccepts(env, e, s);
    var path :| PathHolds(env, e, path, s);
    PayeesDiffer(e.seller, env.blake2b(Script(e)));
    PayeesDiffer(e.buyer, env.blake2b(Script(e)));
    EscrowConserves(e);
  }

  /** From the state in transit nothing goes on, and if the workers are paid the deliverer gets exactly the fee. */
  lemma {:induction false} SecondSpend(env: Env, e: Deal, address: seq<byte>)
    requires e.Fits() && e.product >= 2 && SpendsEscrow(env, e, address) && env.Self().amount == e.Remaining()
    ensures forall o :: 0 <= o < |env.outputs| ==> env.outputs[o].spk != address
    ensures WorkersPaid(env, e) || Refunded(env, e)
    ensures Pays(env, 1, e.deliverer) ==> env.outputs[1].amount == e.fee
  {
    hide Script, SpendOk, NoCollision, Accepts, P2sh, P2pk, Truthy;
    var s := SpendRuns(env, Script(e));
    EscrowAccepts(env, e, s);
    var path :| PathHolds(env, e, path, s);
    PayeesDiffer(e.seller, env.blake2b(Script(e)));
    PayeesDiffer(e.buyer, env.blake2b(Script(e)));
    PayeesDiffer(e.deliverer, env.blake2b(Script(e)));
    EscrowConserves(e);
  }

  ghost predicate EscrowGoesOn(envs: seq<Env>, address: seq<byte>, k: nat) {
    && k + 1 < |envs| && envs[k].Valid() && envs[k + 1].Valid()
    && exists o: nat :: o < |envs[k].outputs| && envs[k].outputs[o].spk == address
        && SpendsOutput(envs[k], envs[k + 1], o)
  }

  /** Every run from the total has at most two spends, the second from what the pickup left. */
  lemma {:induction false} AtMostTwoSpends(envs: seq<Env>, e: Deal, address: seq<byte>)
    requires e.Fits() && e.product >= 2 && |envs| > 0 && envs[0].Valid() && envs[0].Self().amount == e.Total()
    requires forall k {:trigger envs[k]} :: 0 <= k < |envs| ==> SpendsEscrow(envs[k], e, address)
    requires forall k :: 0 <= k < |envs| - 1 ==> EscrowGoesOn(envs, address, k)
    ensures |envs| <= 2
    ensures |envs| == 2 ==>
              && envs[1].Valid() && envs[1].Self().amount == e.Remaining()
              && (WorkersPaid(envs[1], e) || Refunded(envs[1], e))
  {
    hide SpendsEscrow, PickedUp, Refunded, WorkersPaid;
    if |envs| > 1 {
      assert EscrowGoesOn(envs, address, 0);
      var o: nat :| o < |envs[0].outputs| && envs[0].outputs[o].spk == address && SpendsOutput(envs[0], envs[1], o);
      FirstSpend(envs[0], e, address, o);
      SecondSpend(envs[1], e, address);
      assert |envs| > 2 ==> EscrowGoesOn(envs, address, 1);
    }
  }

  // ---- building ----

  // ---- the bytes ----

  function PaysBytes(i: nat, key: Key): seq<byte> {
    [if i == 0 then 0x00 else 0x51, 0xc3, 0x24, 0x00, 0x00, 0x20] + key + [0xac, 0x88]
  }

  function SignedBytes(key: Key): seq<byte> {
    [0x20] + key + [0xad]
  }

  function PickUpBytes(e: Deal): seq<byte> {
    SignedBytes(e.deliverer) + ContinuationBytes(e.product + e.fee - e.product / 2) + PaysBytes(1, e.seller)
    + [0xb4, 0x52, 0x88, 0x51]
  }

  function RefundBytes(e: Deal): seq<byte> {
    PaysBytes(0, e.buyer) + [0xb4, 0x51, 0x88, 0x51]
  }

  function PayWorkersBytes(e: Deal): seq<byte> {
    PaysBytes(0, e.seller) + PaysBytes(1, e.deliverer) + [0x51, 0xc2] + NumberPush(e.fee) + [0x88]
    + [0xb4, 0x52, 0x88, 0x51]
  }

  function ArbiterRefundBytes(e: Deal): seq<byte> {
    SignedBytes(e.arbiter) + RefundBytes(e)
  }

  /** The funded state: a pickup, or a refund by the arbiter or after the first deadline. */
  function FundedBytes(e: Deal): seq<byte> {
    [0x75, 0x63] + PickUpBytes(e) + [0x67, 0x63] + SignedBytes(e.arbiter) + [0x67] + NumberPush(e.deadline1)
    + [0xb0, 0x68] + RefundBytes(e) + [0x68]
  }

  /** The buyer, the arbiter or the second deadline. */
  function AuthorizeBytes(e: Deal): seq<byte> {
    [0x63] + SignedBytes(e.buyer) + [0x67, 0x63] + SignedBytes(e.arbiter) + [0x67] + NumberPush(e.deadline2)
    + [0xb0, 0x68, 0x68]
  }

  /** The state in transit. */
  function InTransitBytes(e: Deal): seq<byte> {
    [0x75, 0x63] + AuthorizeBytes(e) + PayWorkersBytes(e) + [0x67] + ArbiterRefundBytes(e) + [0x68]
  }

  /** The two states, told apart by the amount. */
  function DispatchBytes(e: Deal): seq<byte> {
    [0x76] + NumberPush(e.product + e.fee) + [0x87, 0x63] + FundedBytes(e) + [0x67, 0x76]
    + NumberPush(e.product + e.fee - e.product / 2) + [0x87, 0x63] + InTransitBytes(e) + [0x67, 0x75, 0x00, 0x68, 0x68]
  }

  /** The escrow, written out. */
  function EscrowBytes(e: Deal): seq<byte> {
    [0x08] + e.salt + [0x75, 0xb9, 0xbe] + DispatchBytes(e)
  }

  lemma ScriptPush(key: Key)
    ensures DataPush(P2pk(key)) == [0x24, 0x00, 0x00, 0x20] + key + [0xac]
  {
  }

  lemma TwoPush()
    ensures NumberPush(2) == [0x52]
  {
  }

  lemma {:induction false} PaysJoin(base: seq<byte>, i: nat, key: Key)
    requires i <= 1
    ensures base + NumberPush(i) + [0xc3] + DataPush(P2pk(key)) + [0x88] == base + PaysBytes(i, key)
  {
    hide NumberPush, DataPush, P2pk;
    SmallPushes();
    ScriptPush(key);
  }

  lemma PickUpJoin(base: seq<byte>, e: Deal)
    requires e.Fits()
    ensures base + ([0x20] + e.deliverer + [0xad]) + ContinuationBytes(e.Remaining()) + PaysBytes(1, e.seller)
            + ([0xb4] + [0x52] + [0x88, 0x51]) == base + PickUpBytes(e)
  {
    hide ContinuationBytes, PaysBytes;
  }

  lemma RefundJoin(base: seq<byte>, e: Deal)
    ensures base + PaysBytes(0, e.buyer) + ([0xb4] + [0x51] + [0x88, 0x51]) == base + RefundBytes(e)
  {
    hide PaysBytes;
  }

  lemma PayWorkersJoin(base: seq<byte>, e: Deal)
    ensures base + PaysBytes(0, e.seller) + PaysBytes(1, e.deliverer) + ([0x51, 0xc2] + NumberPush(e.fee) + [0x88])
            + ([0xb4] + [0x52] + [0x88, 0x51]) == base + PayWorkersBytes(e)
  {
    hide PaysBytes, NumberPush;
  }

  lemma ArbiterJoin(base: seq<byte>, e: Deal)
    ensures base + ([0x20] + e.arbiter + [0xad]) + PaysBytes(0, e.buyer) + ([0xb4] + [0x51] + [0x88, 0x51]) ==
            base + ArbiterRefundBytes(e)
  {
    hide PaysBytes;
  }

  lemma FundedJoin(base: seq<byte>, e: Deal)
    ensures base + [0x75] + [0x63] + PickUpBytes(e) + [0x67] + [0x63] + ([0x20] + e.arbiter + [0xad]) + [0x67]
            + (NumberPush(e.deadline1) + [0xb0]) + [0x68] + RefundBytes(e) + [0x68] == base + FundedBytes(e)
  {
    hide PickUpBytes, NumberPush, RefundBytes;
  }

  lemma AuthorizeJoin(base: seq<byte>, e: Deal)
    ensures base + [0x63] + ([0x20] + e.buyer + [0xad]) + [0x67] + [0x63] + ([0x20] + e.arbiter + [0xad]) + [0x67]
            + (NumberPush(e.deadline2) + [0xb0]) + [0x68] + [0x68] == base + AuthorizeBytes(e)
  {
    hide NumberPush;
  }

  lemma InTransitJoin(base: seq<byte>, e: Deal)
    ensures base + [0x75] + [0x63] + AuthorizeBytes(e) + PayWorkersBytes(e) + [0x67] + ArbiterRefundBytes(e) + [0x68] ==
            base + InTransitBytes(e)
  {
    hide AuthorizeBytes, PayWorkersBytes, ArbiterRefundBytes;
  }

  lemma DispatchJoin(base: seq<byte>, e: Deal)
    requires e.Fits()
    ensures base + ([0x76] + NumberPush(e.Total()) + [0x87]) + [0x63] + FundedBytes(e) + [0x67]
            + ([0x76] + NumberPush(e.Remaining()) + [0x87]) + [0x63] + InTransitBytes(e) + [0x67] + [0x75, 0x00]
            + [0x68] + [0x68] == base + DispatchBytes(e)
  {
    hide NumberPush, FundedBytes, InTransitBytes;
  }

  lemma EscrowJoin(e: Deal)
    ensures [] + ([0x08] + e.salt + [0x75, 0xb9, 0xbe]) + DispatchBytes(e) == EscrowBytes(e)
  {
    hide DispatchBytes;
  }

  method BuildP2pk(key: Key) returns (spk: seq<byte>)
    ensures spk == P2pk(key) && |spk| == 36
    ensures spk == [0x00, 0x00, 0x20] + key + [0xac]
  {
    spk := [0x00, 0x00];
    spk := spk + [0x20];
    spk := spk + key;
    spk := spk + [0xac];
  }

  method PushPaysTo(s: ScriptBuf, i: nat, key: Key)
    requires s.Valid() && i <= 1
    modifies s
    ensures s.Valid() && s.toks == old(s.toks) + PaysTo(i, key)
    ensures s.bytes == old(s.bytes) + PaysBytes(i, key)
  {
    hide Opcode.Code, Assemble, ToksOk, IntTok, DataTok, ScriptBuf.Valid, Enc, P2pk, TokOk, NumberPush, DataPush, PaysBytes;
    OpcodeTable();
    var spk := BuildP2pk(key);
    s.PushInt(i);
    s.PushOp(TxOutputSpk);
    s.PushData(spk);
    s.PushOp(EqualVerify);
    Block(old(s.toks), PaysTo(i, key));
    PaysJoin(old(s.bytes), i, key);
  }

  method PushOutputs(s: ScriptBuf, n: nat)
    requires s.Valid() && n <= 2
    modifies s
    ensures s.Valid() && s.toks == old(s.toks) + Outputs(n)
    ensures s.bytes == old(s.bytes) + ([0xb4] + NumberPush(n) + [0x88, 0x51])
  {
    hide Opcode.Code, Assemble, ToksOk, IntTok, DataTok, ScriptBuf.Valid, Enc, TokOk, NumberPush;
    OpcodeTable();
    SmallPushes();
    s.PushOp(TxOutputCount);
    s.PushInt(n);
    s.PushOp(EqualVerify);
    s.PushInt(1);
    Block(old(s.toks), Outputs(n));
  }

  method PushSigned(s: ScriptBuf, key: Key)
    requires s.Valid()
    modifies s
    ensures s.Valid() && s.toks == old(s.toks) + Signed(key)
    ensures s.bytes == old(s.bytes) + ([0x20] + key + [0xad])
  {
    hide Opcode.Code, Assemble, ToksOk, IntTok, DataTok, ScriptBuf.Valid, Enc, TokOk;
    OpcodeTable();
    s.PushFixed(key);
    s.PushOp(CheckSigVerify);
    Block(old(s.toks), Signed(key));
  }

  method PushAfter(s: ScriptBuf, deadline: nat)
    requires s.Valid() && deadline < U64_LIMIT
    modifies s
    ensures s.Valid() && s.toks == old(s.toks) + After(deadline)
    ensures s.bytes == old(s.bytes) + (NumberPush(deadline) + [0xb0])
  {
    hide Opcode.Code, Assemble, ToksOk, IntTok, DataTok, ScriptBuf.Valid, Enc, TokOk, NumberPush;
    OpcodeTable();
    s.PushInt(deadline);
    s.PushOp(CheckLockTimeVerify);
    Block(old(s.toks), After(deadline));
  }

  method PushExactFee(s: ScriptBuf, fee: nat)
    requires s.Valid() && fee < U64_LIMIT
    modifies s
    ensures s.Valid() && s.toks == old(s.toks) + ExactFee(fee)
    ensures s.bytes == old(s.bytes) + ([0x51, 0xc2] + NumberPush(fee) + [0x88])
  {
    hide Opcode.Code, Assemble, ToksOk, IntTok, DataTok, ScriptBuf.Valid, Enc, TokOk, NumberPush;
    OpcodeTable();
    SmallPushes();
    s.PushInt(1);
    s.PushOp(TxOutputAmount);
    s.PushInt(fee);
    s.PushOp(EqualVerify);
    Block(old(s.toks), ExactFee(fee));
  }

  method PushPickUp(s: ScriptBuf, e: Deal)
    requires s.Valid() && e.Fits()
    modifies s
    ensures s.Valid() && s.toks == old(s.toks) + PickUp(e)
    ensures s.bytes == old(s.bytes) + PickUpBytes(e)
  {
    hide Assemble, ToksOk, ScriptBuf.Valid, Signed, SameScript, NextAmount, PaysTo, Outputs, NumberPush, PaysBytes,
        ContinuationBytes;
    TwoPush();
    ghost var was := s.toks;
    PushSigned(s, e.deliverer);
    PushContinuation(s, e.Remaining());
    PushPaysTo(s, 1, e.seller);
    PushOutputs(s, 2);
    ghost var a := Signed(e.deliverer) + SameScript();
    ghost var b := a + NextAmount(e.Remaining());
    Regroup(was, Signed(e.deliverer), SameScript());
    Regroup(was, a, NextAmount(e.Remaining()));
    Regroup(was, b, PaysTo(1, e.seller));
    Regroup(was, b + PaysTo(1, e.seller), Outputs(2));
    PickUpJoin(old(s.bytes), e);
  }

  method PushRefundBuyer(s: ScriptBuf, e: Deal)
    requires s.Valid()
    modifies s
    ensures s.Valid() && s.toks == old(s.toks) + RefundBuyer(e)
    ensures s.bytes == old(s.bytes) + RefundBytes(e)
  {
    hide Assemble, ToksOk, ScriptBuf.Valid, PaysTo, Outputs, NumberPush, PaysBytes;
    SmallPushes();
    ghost var was := s.toks;
    PushPaysTo(s, 0, e.buyer);
    PushOutputs(s, 1);
    Regroup(was, PaysTo(0, e.buyer), Outputs(1));
    RefundJoin(old(s.bytes), e);
  }

  method PushPayWorkers(s: ScriptBuf, e: Deal)
    requires s.Valid() && e.Fits()
    modifies s
    ensures s.Valid() && s.toks == old(s.toks) + PayWorkers(e)
    ensures s.bytes == old(s.bytes) + PayWorkersBytes(e)
  {
    hide Assemble, ToksOk, ScriptBuf.Valid, PaysTo, Outputs, ExactFee, NumberPush, PaysBytes;
    TwoPush();
    ghost var was := s.toks;
    PushPaysTo(s, 0, e.seller);
    PushPaysTo(s, 1, e.deliverer);
    PushExactFee(s, e.fee);
    PushOutputs(s, 2);
    ghost var a := PaysTo(0, e.seller) + PaysTo(1, e.deliverer);
    Regroup(was, PaysTo(0, e.seller), PaysTo(1, e.deliverer));
    Regroup(was, a, ExactFee(e.fee));
    Regroup(was, a + ExactFee(e.fee), Outputs(2));
    PayWorkersJoin(old(s.bytes), e);
  }

  method PushArbiterRefund(s: ScriptBuf, e: Deal)
    requires s.Valid()
    modifies s
    ensures s.Valid() && s.toks == old(s.toks) + ArbiterRefund(e)
    ensures s.bytes == old(s.bytes) + ArbiterRefundBytes(e)
  {
    hide Assemble, ToksOk, ScriptBuf.Valid, Signed, PaysTo, Outputs, NumberPush, PaysBytes;
    SmallPushes();
    ghost var was := s.toks;
    PushSigned(s, e.arbiter);
    PushPaysTo(s, 0, e.buyer);
    PushOutputs(s, 1);
    Regroup(was, Signed(e.arbiter), PaysTo(0, e.buyer));
    Regroup(was, Signed(e.arbiter) + PaysTo(0, e.buyer), Outputs(1));
    ArbiterJoin(old(s.bytes), e);
  }

  /** State 0: funded. */
  method PushFunded(s: ScriptBuf, e: Deal)
    requires s.Valid() && e.Fits()
    modifies s
    ensures s.Valid() && CodeOk(FundedCode(e)) && s.toks == old(s.toks) + Flatten(FundedCode(e))
    ensures s.bytes == old(s.bytes) + FundedBytes(e)
  {
    hide Opcode.Code, Assemble, ToksOk, ScriptBuf.Valid, CodeOk, Flatten, Signed, After, PickUp, RefundBuyer, TokOk,
        NumberPush, PickUpBytes, RefundBytes;
    OpcodeTable();
    BlocksOk(e);
    LinesOk(e);
    LineToks(DropAmount());
    LineToks(PickUp(e));
    LineToks(Signed(e.arbiter));
    LineToks(After(e.deadline1));
    LineToks(RefundBuyer(e));
    ghost var who := Branch(Line(Signed(e.arbiter)), Line(After(e.deadline1)));
    ghost var refund := Chain(who, Line(RefundBuyer(e)));
    ghost var t0 := s.toks;
    s.PushOp(Drop);
    ghost var t1 := s.toks;
    s.PushOp(If);
    PushPickUp(s, e);
    s.PushOp(Else);
    ghost var t2 := s.toks;
    s.PushOp(If);
    PushSigned(s, e.arbiter);
    s.PushOp(Else);
    PushAfter(s, e.deadline1);
    s.PushOp(EndIf);
    BranchToks(t2, Line(Signed(e.arbiter)), Line(After(e.deadline1)));
    PushRefundBuyer(s, e);
    ChainToks(t2, who, Line(RefundBuyer(e)));
    s.PushOp(EndIf);
    BranchToks(t1, Line(PickUp(e)), refund);
    ChainToks(t0, Line(DropAmount()), Branch(Line(PickUp(e)), refund));
    FundedJoin(old(s.bytes), e);
  }

  /** The authorization in state 1. */
  method PushAuthorize(s: ScriptBuf, e: Deal)
    requires s.Valid() && e.Fits()
    modifies s
    ensures s.Valid() && CodeOk(AuthorizeCode(e)) && s.toks == old(s.toks) + Flatten(AuthorizeCode(e))
    ensures s.bytes == old(s.bytes) + AuthorizeBytes(e)
  {
    hide Opcode.Code, Assemble, ToksOk, ScriptBuf.Valid, CodeOk, Flatten, Signed, After, TokOk, NumberPush;
    OpcodeTable();
    BlocksOk(e);
    LinesOk(e);
    LineToks(Signed(e.buyer));
    LineToks(Signed(e.arbiter));
    LineToks(After(e.deadline2));
    ghost var others := Branch(Line(Signed(e.arbiter)), Line(After(e.deadline2)));
    ghost var t0 := s.toks;
    s.PushOp(If);
    PushSigned(s, e.buyer);
    s.PushOp(Else);
    ghost var t1 := s.toks;
    s.PushOp(If);
    PushSigned(s, e.arbiter);
    s.PushOp(Else);
    PushAfter(s, e.deadline2);
    s.PushOp(EndIf);
    BranchToks(t1, Line(Signed(e.arbiter)), Line(After(e.deadline2)));
    s.PushOp(EndIf);
    BranchToks(t0, Line(Signed(e.buyer)), others);
    AuthorizeJoin(old(s.bytes), e);
  }

  /** State 1: in transit. */
  method PushInTransit(s: ScriptBuf, e: Deal)
    requires s.Valid() && e.Fits()
    modifies s
    ensures s.Valid() && CodeOk(InTransitCode(e)) && s.toks == old(s.toks) + Flatten(InTransitCode(e))
    ensures s.bytes == old(s.bytes) + InTransitBytes(e)
  {
    hide Opcode.Code, Assemble, ToksOk, ScriptBuf.Valid, CodeOk, Flatten, AuthorizeCode, PayWorkers, ArbiterRefund,
        TokOk, AuthorizeBytes, PayWorkersBytes, ArbiterRefundBytes;
    OpcodeTable();
    BlocksOk(e);
    LinesOk(e);
    LineToks(DropAmount());
    LineToks(PayWorkers(e));
    LineToks(ArbiterRefund(e));
    ghost var pay := Chain(AuthorizeCode(e), Line(PayWorkers(e)));
    ghost var t0 := s.toks;
    s.PushOp(Drop);
    ghost var t1 := s.toks;
    s.PushOp(If);
    ghost var t2 := s.toks;
    PushAuthorize(s, e);
    PushPayWorkers(s, e);
    ChainToks(t2, AuthorizeCode(e), Line(PayWorkers(e)));
    s.PushOp(Else);
    PushArbiterRefund(s, e);
    s.PushOp(EndIf);
    BranchToks(t1, pay, Line(ArbiterRefund(e)));
    ChainToks(t0, Line(DropAmount()), Branch(pay, Line(ArbiterRefund(e))));
    InTransitJoin(old(s.bytes), e);
  }

  lemma {:induction false} DispatchToks(base: seq<Tok>, e: Deal)
    requires e.Fits() && CodeOk(FundedCode(e)) && CodeOk(InTransitCode(e))
    ensures CodeOk(DispatchCode(e))
    ensures base + InState(e.Total()) + [Do(If)] + Flatten(FundedCode(e)) + [Do(Else)] + InState(e.Remaining()) + [Do(If)]
            + Flatten(InTransitCode(e)) + [Do(Else)] + NoState() + [Do(EndIf)] + [Do(EndIf)] ==
            base + Flatten(DispatchCode(e))
  {
    hide CodeOk, Flatten, FundedCode, InTransitCode, InState, NoState;
    BlocksOk(e);
    LineToks(InState(e.Total()));
    LineToks(InState(e.Remaining()));
    LineToks(NoState());
    var inner := Branch(InTransitCode(e), Line(NoState()));
    var later := Chain(Line(InState(e.Remaining())), inner);
    var t1 := base + InState(e.Total());
    var t2 := t1 + [Do(If)] + Flatten(FundedCode(e)) + [Do(Else)];
    BranchToks(t2 + InState(e.Remaining()), InTransitCode(e), Line(NoState()));
    ChainToks(t2, Line(InState(e.Remaining())), inner);
    BranchToks(t1, FundedCode(e), later);
    ChainToks(base, Line(InState(e.Total())), Branch(FundedCode(e), later));
  }

  method PushDispatch(s: ScriptBuf, e: Deal)
    requires s.Valid() && e.Fits()
    modifies s
    ensures s.Valid() && CodeOk(DispatchCode(e)) && s.toks == old(s.toks) + Flatten(DispatchCode(e))
    ensures s.bytes == old(s.bytes) + DispatchBytes(e)
  {
    hide Opcode.Code, Assemble, ToksOk, ScriptBuf.Valid, CodeOk, Flatten, DispatchCode, FundedCode, InTransitCode,
        InState, NoState,
         TokOk, NumberPush, DispatchBytes, FundedBytes, InTransitBytes;
    OpcodeTable();
    PushInState(s, e.Total());
    s.PushOp(If);
    PushFunded(s, e);
    s.PushOp(Else);
    PushInState(s, e.Remaining());
    s.PushOp(If);
    PushInTransit(s, e);
    s.PushOp(Else);
    PushNoState(s);
    s.PushOp(EndIf);
    s.PushOp(EndIf);
    DispatchToks(old(s.toks), e);
    DispatchJoin(old(s.bytes), e);
  }

  /** `build_ship_escrow_script`. */
  method BuildShipEscrow(e: Deal) returns (script: seq<byte>)
    requires e.Fits()
    ensures script == Script(e)
    ensures script == EscrowBytes(e)
  {
    hide Assemble, ToksOk, ScriptBuf.Valid, CodeOk, Flatten, DispatchCode, Salted, ReadAmount, DispatchBytes;
    EscrowOk(e);
    BlocksOk(e);
    PartsOk(e.buyer, e.salt);
    LineToks(Salted(e.salt));
    LineToks(ReadAmount());
    var s := new ScriptBuf();
    PushStart(s, e.salt);
    PushDispatch(s, e);
    ghost var none: seq<Tok> := [];
    ChainToks(none + Salted(e.salt), Line(ReadAmount()), DispatchCode(e));
    ChainToks(none, Line(Salted(e.salt)), Chain(Line(ReadAmount()), DispatchCode(e)));
    assert none + Flatten(EscrowCode(e)) == Flatten(EscrowCode(e));
    BufBytes(s);
    EscrowJoin(e);
    return s.bytes;
  }
}
