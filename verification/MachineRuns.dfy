/**
 * How long a state machine runs. The last role may pay anyone, the machine's own address too:
 * exactly then the roles start again.
 */
module MachineRuns {
  import opened Bytes
  import opened ScriptNumbers
  import opened ScriptTokens
  import opened ScriptMachine
  import opened ScriptParts
  import opened ScriptSpend
  import opened StateMachine

  /** Every spend of the run is of the machine's address. */
  ghost predicate Stays(envs: seq<Env>, address: seq<byte>) {
    forall k {:trigger envs[k]} :: 0 <= k < |envs| ==> envs[k].Valid() && envs[k].Self().spk == address
  }

  /** Output 0 puts the machine back in state `i`. */
  ghost predicate ReEnters(env: Env, p: Plan, address: seq<byte>, i: nat)
    requires p.Valid()
  {
    i < |p.roles| && |env.outputs| > 0 && env.outputs[0].spk == address && env.outputs[0].amount == p.Amount(i)
  }

  /** Output 0 puts the machine back in some state. */
  ghost predicate Restarts(env: Env, p: Plan, address: seq<byte>)
    requires p.Valid()
  {
    exists i: nat :: ReEnters(env, p, address, i)
  }

  /** A spend of state `i`, signed by its role; before the last role, output 0 is the machine in the next state. */
  ghost predicate ActsIn(env: Env, p: Plan, address: seq<byte>, i: nat)
    requires p.Valid()
  {
    && i < |p.roles| && env.Valid() && env.Self().amount == p.Amount(i)
    && (exists g: seq<byte> :: env.checkSig(g, p.roles[i]))
    && (i < |p.roles| - 1 ==> ReEnters(env, p, address, i + 1))
  }

  /** The state of each spend of a run: each leads into the one after it. */
  ghost predicate InStates(envs: seq<Env>, p: Plan, address: seq<byte>, states: seq<nat>)
    requires p.Valid()
  {
    && |states| == |envs| > 0 && states[0] == 0
    && (forall k :: 0 <= k < |envs| ==> ActsIn(envs[k], p, address, states[k]))
    && (forall k :: 0 < k < |envs| ==> LeadsTo(envs, p, address, states, k))
  }

  ghost predicate LeadsTo(envs: seq<Env>, p: Plan, address: seq<byte>, states: seq<nat>, k: nat)
    requires p.Valid()
  {
    && 0 < k < |envs| == |states| && ReEnters(envs[k - 1], p, address, states[k])
    && (states[k - 1] < |p.roles| - 1 ==> states[k] == states[k - 1] + 1)
  }

  /** Every run at the machine's address, of any length, goes through its states. */
  lemma {:induction false} RunStates(envs: seq<Env>, p: Plan, address: seq<byte>) returns (states: seq<nat>)
    requires p.Valid() && 0 < p.step && MachineRun(envs, p, address) && Stays(envs, address)
    ensures |states| == |envs| > 0 && InStates(envs, p, address, states)
  {
    hide *;
    NonEmpty(envs, p, address);
    var n := |envs| - 1;
    var i := StateAt(envs, p, address, n);
    if n == 0 {
      FirstState(envs, p, address, i);
      states := [0];
    } else {
      RunFront(envs, p, address);
      var before := RunStates(envs[..n], p, address);
      Meets(envs, p, address, n);
      states := before + [i];
      assert ActsIn(envs[..n][n - 1], p, address, before[n - 1]) by {
        ActsAt(envs[..n], p, address, before, n - 1);
      }
      NextIs(envs[n - 1], envs[n], p, address, before[n - 1], i);
      LeadsThere(envs, p, address, states, n);
      InStatesGrow(envs, p, address, before, i);
    }
  }

  lemma NonEmpty(envs: seq<Env>, p: Plan, address: seq<byte>)
    requires p.Valid() && MachineRun(envs, p, address)
    ensures |envs| > 0
  {
  }

  lemma {:induction false} ActsAt(envs: seq<Env>, p: Plan, address: seq<byte>, states: seq<nat>, k: nat)
    requires p.Valid() && InStates(envs, p, address, states) && k < |envs|
    ensures |states| == |envs| && ActsIn(envs[k], p, address, states[k])
  {
    hide ActsIn, LeadsTo;
  }

  lemma {:induction false} LeadsThere(envs: seq<Env>, p: Plan, address: seq<byte>, states: seq<nat>, k: nat)
    requires p.Valid() && 0 < k < |envs| == |states| && ReEnters(envs[k - 1], p, address, states[k])
    requires states[k - 1] < |p.roles| - 1 ==> states[k] == states[k - 1] + 1
    ensures LeadsTo(envs, p, address, states, k)
  {
    hide ReEnters;
  }

  lemma {:induction false} Meets(envs: seq<Env>, p: Plan, address: seq<byte>, k: nat)
    requires p.Valid() && MachineRun(envs, p, address) && Stays(envs, address) && 0 < k < |envs|
    ensures envs[k].Valid() && SpendsOutput(envs[k - 1], envs[k], 0) && envs[k].Self().spk == address
  {
    hide Script, SpendOk, NoCollision, P2sh;
    assert MovesOn(envs, k - 1);
  }

  lemma {:induction false} FirstState(envs: seq<Env>, p: Plan, address: seq<byte>, i: nat)
    requires p.Valid() && 0 < p.step && MachineRun(envs, p, address) && |envs| == 1
    requires ActsIn(envs[0], p, address, i)
    ensures InStates(envs, p, address, [0])
  {
    hide Script, SpendOk, NoCollision, P2sh;
    assert envs[0].Self().amount == p.Amount(0);
    SameAmount(p, 0, i);
  }

  lemma {:induction false} StateAt(envs: seq<Env>, p: Plan, address: seq<byte>, k: nat) returns (i: nat)
    requires p.Valid() && 0 < p.step && MachineRun(envs, p, address) && Stays(envs, address) && k < |envs|
    ensures i < |p.roles| && ActsIn(envs[k], p, address, i) && envs[k].Valid() && envs[k].Self().amount == p.Amount(i)
  {
    hide Script, SpendOk, NoCollision, P2sh;
    OnlyStates(envs[k], p);
    i :| i < |p.roles| && envs[k].Self().amount == p.Amount(i);
    AtAmount(envs[k], p, i);
  }

  lemma {:induction false} RunFront(envs: seq<Env>, p: Plan, address: seq<byte>)
    requires p.Valid() && MachineRun(envs, p, address) && Stays(envs, address) && |envs| > 1
    ensures MachineRun(envs[..|envs| - 1], p, address) && Stays(envs[..|envs| - 1], address)
  {
    var front := envs[..|envs| - 1];
    hide AcceptedAt, MovesOn;
    forall k | 0 <= k < |front| - 1
      ensures MovesOn(front, k)
    {
      MovesIn(envs, |front|, k);
    }
  }

  lemma {:induction false} MovesIn(envs: seq<Env>, n: nat, k: nat)
    requires MovesOn(envs, k) && k + 1 < n <= |envs|
    ensures MovesOn(envs[..n], k)
  {
    hide SpendsOutput;
    assert envs[..n][k] == envs[k] && envs[..n][k + 1] == envs[k + 1];
  }

  lemma {:induction false} NextIs(env: Env, next: Env, p: Plan, address: seq<byte>, j: nat, i: nat)
    requires p.Valid() && 0 < p.step && ActsIn(env, p, address, j) && next.Valid() && SpendsOutput(env, next, 0)
    requires i < |p.roles| && next.Self().spk == address && next.Self().amount == p.Amount(i)
    ensures ReEnters(env, p, address, i)
    ensures j < |p.roles| - 1 ==> i == j + 1
  {
    if j < |p.roles| - 1 {
      SameAmount(p, j + 1, i);
    }
  }

  lemma {:induction false} InStatesGrow(envs: seq<Env>, p: Plan, address: seq<byte>, before: seq<nat>, i: nat)
    requires p.Valid() && |envs| > 1 && InStates(envs[..|envs| - 1], p, address, before)
    requires ActsIn(envs[|envs| - 1], p, address, i) && LeadsTo(envs, p, address, before + [i], |envs| - 1)
    ensures InStates(envs, p, address, before + [i])
  {
    var states, front := before + [i], envs[..|envs| - 1];
    hide ActsIn, ReEnters;
    forall k | 0 < k < |envs|
      ensures LeadsTo(envs, p, address, states, k)
    {
      if k < |front| {
        assert LeadsTo(front, p, address, before, k);
      }
    }
  }

  lemma {:induction false} SameAmount(p: Plan, i: nat, j: nat)
    requires p.Valid() && 0 < p.step && i <= |p.roles| && j <= |p.roles| && p.Amount(i) == p.Amount(j)
    ensures i == j
  {
    if i < j {
      AmountsDiffer(p, i, j);
    } else if j < i {
      AmountsDiffer(p, j, i);
    }
  }

  /**
   * A run has at most one spend for each role, unless the last role itself paid output 0 back to
   * the machine at a state's amount.
   */
  lemma {:induction false} EndsAfterRoles(envs: seq<Env>, p: Plan, address: seq<byte>)
    requires p.Valid() && 0 < p.step && MachineRun(envs, p, address) && Stays(envs, address)
    ensures 0 < |p.roles|
    ensures |envs| <= |p.roles| || Restarts(envs[|p.roles| - 1], p, address)
  {
    var states := RunStates(envs, p, address);
    var n := |p.roles|;
    assert ActsIn(envs[0], p, address, states[0]);
    if |envs| > n {
      hide MachineRun, Stays, ActsIn;
      assert LeadsTo(envs, p, address, states, n);
    }
  }

  /**
   * And exactly then: output 0 of a spend can be spent as the machine if and only if it is at the
   * machine's address with a state's amount.
   */
  lemma {:induction false} GoesOnExactly(env: Env, p: Plan, address: seq<byte>)
    requires p.Valid() && 0 < p.step && |Script(p)| < U32_LIMIT
    requires address == P2sh(env.blake2b(Script(p))) && NoCollision(env, Script(p))
    ensures (exists next: Env :: Continues(env, next, address)) <==> Restarts(env, p, address)
  {
    hide Script, SpendOk, NoCollision, P2sh;
    if next: Env :| Continues(env, next, address) {
      assert NoCollision(next, Script(p)) by {
        SameHash(env, next, Script(p));
      }
      OnlyStates(next, p);
      var i: nat :| i < |p.roles| && next.Self().amount == p.Amount(i);
      assert ReEnters(env, p, address, i);
    }
    if i: nat :| ReEnters(env, p, address, i) {
      var next := Turn(p, env.blake2b, i, env.outputs[0].tag, p.Amount(i + 1));
      TurnAccepted(p, env.blake2b, i, env.outputs[0].tag, p.Amount(i + 1));
      assert Continues(env, next, address);
    }
  }

  /** `next` spends output 0 of `env`, is at `address`, and is accepted. */
  ghost predicate Continues(env: Env, next: Env, address: seq<byte>) {
    && next.Valid() && next.blake2b == env.blake2b && SpendsOutput(env, next, 0)
    && next.Self().spk == address && SpendOk(next)
  }

  lemma SameHash(env: Env, next: Env, script: seq<byte>)
    requires NoCollision(env, script) && next.blake2b == env.blake2b
    ensures NoCollision(next, script)
  {
  }

  /** A spend of state `i` that pays `amount` back to the machine; any signature passes. */
  function Turn(p: Plan, h: seq<byte> -> Hash, i: nat, tag: Option<Hash>, amount: nat): (env: Env)
    requires p.Valid() && i < |p.roles| && |Script(p)| < U32_LIMIT
    ensures env.Valid() && env.blake2b == h
  {
    var address := P2sh(h(Script(p)));
    Env(0, [Input(p.Amount(i), address, tag, SignedSpend([], Script(p)))], [Output(amount, address, tag)],
        (g, k) => true, n => false, n => false, h, x => ZeroHash(), xs => false)
  }

  lemma {:induction false} TurnAccepted(p: Plan, h: seq<byte> -> Hash, i: nat, tag: Option<Hash>, amount: nat)
    requires p.Valid() && 0 < p.step && i < |p.roles| && |Script(p)| < U32_LIMIT
    requires i < |p.roles| - 1 ==> amount == p.Amount(i + 1)
    ensures SpendOk(Turn(p, h, i, tag, amount))
  {
    var env := Turn(p, h, i, tag, amount);
    hide Script, SpendOk, P2sh, SignedSpend, Accepts;
    assert Fires(env, p, i, Push([], Nil));
    MachineAccepts(env, p, Push([], Nil));
    SignedSpendIs(env, [], Script(p));
  }

  // ---- a machine that never ends ----

  /** A hash that tells one script from every other. */
  function ScriptHash(script: seq<byte>): seq<byte> -> Hash {
    r => if r == script then seq(32, i => 1) else ZeroHash()
  }

  lemma {:induction false} ScriptApart(env: Env, script: seq<byte>)
    requires env.blake2b == ScriptHash(script)
    ensures NoCollision(env, script)
  {
    assert ScriptHash(script)(script)[0] == 1;
  }

  /** The state after `i` when the last role starts the machine again. */
  function NextState(p: Plan, i: nat): (j: nat)
    requires i < |p.roles|
    ensures j < |p.roles| && (i < |p.roles| - 1 ==> j == i + 1)
  {
    if i == |p.roles| - 1 then 0 else i + 1
  }

  /** Accepted runs of every length: the last role pays the base amount back each time round. */
  lemma {:induction false} RunsOn(p: Plan, m: nat) returns (envs: seq<Env>, i: nat)
    requires p.Valid() && 0 < p.step && |p.roles| > 0 && |Script(p)| < U32_LIMIT && m > 0
    ensures |envs| == m && MachineRun(envs, p, MachineAddress(p)) && Stays(envs, MachineAddress(p))
    ensures i < |p.roles| && envs[m - 1] == Round(p, i)
  {
    hide Round, Script, SpendOk, NoCollision, P2sh, Spent, MachineRun, Stays, MachineAddress;
    if m == 1 {
      i := 0;
      envs := [Round(p, 0)];
      RoundAccepted(p, 0);
      AllSpent(envs, p);
    } else {
      var front, last := RunsOn(p, m - 1);
      i := NextState(p, last);
      envs := front + [Round(p, i)];
      RoundAccepted(p, i);
      RoundsMeet(p, last);
      assert envs[..|envs| - 1] == front;
      RunBack(envs, p);
    }
  }

  /** One spend of that run. */
  function Round(p: Plan, i: nat): Env
    requires p.Valid() && i < |p.roles| && |Script(p)| < U32_LIMIT
  {
    Turn(p, ScriptHash(Script(p)), i, None, p.Amount(NextState(p, i)))
  }

  function MachineAddress(p: Plan): seq<byte>
    requires p.Valid()
  {
    P2sh(ScriptHash(Script(p))(Script(p)))
  }

  /** What a run asks of each of its spends. */
  ghost predicate Spent(env: Env, p: Plan)
    requires p.Valid()
  {
    AcceptedAt(env, p, MachineAddress(p)) && env.Self().spk == MachineAddress(p)
  }

  lemma {:induction false} RoundAccepted(p: Plan, i: nat)
    requires p.Valid() && 0 < p.step && i < |p.roles| && |Script(p)| < U32_LIMIT
    ensures Spent(Round(p, i), p) && Round(p, i).Valid() && Round(p, i).Self().amount == p.Amount(i)
              && p.Amount(0) == p.base
  {
    TurnAccepted(p, ScriptHash(Script(p)), i, None, p.Amount(NextState(p, i)));
    ScriptApart(Round(p, i), Script(p));
    hide Script, SpendOk, NoCollision, P2sh, ScriptHash, SignedSpend;
  }

  lemma {:induction false} RoundsMeet(p: Plan, i: nat)
    requires p.Valid() && i < |p.roles| && |Script(p)| < U32_LIMIT
    ensures Round(p, NextState(p, i)).Valid() && SpendsOutput(Round(p, i), Round(p, NextState(p, i)), 0)
  {
    hide Script, P2sh, ScriptHash, SignedSpend;
  }

  lemma {:induction false} RunBack(envs: seq<Env>, p: Plan)
    requires p.Valid() && |envs| > 1 && MachineRun(envs[..|envs| - 1], p, MachineAddress(p))
    requires Stays(envs[..|envs| - 1], MachineAddress(p)) && Spent(envs[|envs| - 1], p)
    requires envs[|envs| - 1].Valid() && SpendsOutput(envs[|envs| - 2], envs[|envs| - 1], 0)
    ensures MachineRun(envs, p, MachineAddress(p)) && Stays(envs, MachineAddress(p))
  {
    var n := |envs| - 1;
    hide Script, SpendOk, NoCollision, P2sh, SpendsOutput, MachineAddress, Spent, MachineRun, Stays;
    forall k | 0 <= k <= n
      ensures Spent(envs[k], p) && (k < n ==> MovesOn(envs, k))
      ensures k == 0 ==> envs[k].Valid() && envs[k].Self().amount == p.base
    {
      if k < n {
        SpentAt(envs[..n], p, k);
      }
      if k < n - 1 {
        MovesAt(envs[..n], p, k);
      }
    }
    AllSpent(envs, p);
  }

  lemma {:induction false} SpentAt(envs: seq<Env>, p: Plan, k: nat)
    requires p.Valid() && k < |envs| && MachineRun(envs, p, MachineAddress(p)) && Stays(envs, MachineAddress(p))
    ensures Spent(envs[k], p)
    ensures k == 0 ==> envs[k].Valid() && envs[k].Self().amount == p.base
  {
    hide Script, SpendOk, NoCollision, P2sh;
  }

  lemma {:induction false} MovesAt(envs: seq<Env>, p: Plan, k: nat)
    requires p.Valid() && k + 1 < |envs| && MachineRun(envs, p, MachineAddress(p))
    ensures MovesOn(envs, k)
  {
    hide Script, SpendOk, NoCollision, P2sh, MovesOn;
  }

  lemma {:induction false} AllSpent(envs: seq<Env>, p: Plan)
    requires p.Valid() && |envs| > 0 && forall k :: 0 <= k < |envs| ==> Spent(envs[k], p)
    requires envs[0].Valid() && envs[0].Self().amount == p.base
    requires forall k :: 0 <= k < |envs| - 1 ==> MovesOn(envs, k)
    ensures MachineRun(envs, p, MachineAddress(p)) && Stays(envs, MachineAddress(p))
  {
    hide Script, SpendOk, NoCollision, P2sh, MovesOn, MachineAddress;
  }
}
