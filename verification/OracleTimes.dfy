/**
 * The oracle's time is a u64 that the script compares as a signed number. Where the two orders
 * agree over whole runs, and a run of accepted rolls that turns the time back.
 */
module OracleTimes {
  import opened Bytes
  import opened ScriptNumbers
  import opened ScriptTokens
  import opened ScriptMachine
  import opened OracleScript
  import opened OracleRoll
  import opened Oracle
  import opened OracleSpend

  /** The least time that reads as negative, or rather as a negative zero. */
  const SIGN_BIT: nat := 0x8000_0000_0000_0000

  /** From a time below 2^63 the script lets through the times from it on and below 2^63, and 2^63 itself from 0. */
  lemma {:induction false} UnsignedTimes(t: nat, t2: nat)
    requires t < SIGN_BIT && t2 < U64_LIMIT
    ensures Signed(t) <= Signed(t2) <==> t <= t2 < SIGN_BIT || (t == 0 && t2 == SIGN_BIT)
  {
    DecOfField(t);
    DecOfField(t2);
    hide Dec, Le64;
  }

  /** From a time of 2^63 on it lets through everything below, and no other time above. */
  lemma {:induction false} NegativeTimes(t: nat, t2: nat)
    requires SIGN_BIT <= t < U64_LIMIT && t2 < U64_LIMIT
    ensures Signed(t) <= Signed(t2) <==> t2 <= t
  {
    DecOfField(t);
    DecOfField(t2);
    hide Dec, Le64;
  }

  /** One step keeps unsigned order, whatever the next time, exactly from the times below 2^63. */
  lemma {:induction false} UnsignedStep(t: nat)
    requires t < U64_LIMIT
    ensures t < SIGN_BIT <==> forall t2: nat :: t2 < U64_LIMIT && Signed(t) <= Signed(t2) ==> t <= t2
  {
    hide Signed;
    if t < SIGN_BIT {
      forall t2: nat | t2 < U64_LIMIT && Signed(t) <= Signed(t2)
        ensures t <= t2
      {
        UnsignedTimes(t, t2);
      }
    } else {
      NegativeTimes(t, 0);
    }
  }

  /** The states of a run, with u64 times. */
  ghost predicate IsHistory(envs: seq<Env>, prices: seq<nat>, times: seq<nat>) {
    Steady(envs, prices, times) && forall k :: 0 <= k < |times| ==> times[k] < U64_LIMIT
  }

  ghost predicate Ordered(times: seq<nat>) {
    forall i, j :: 0 <= i <= j < |times| ==> times[i] <= times[j]
  }

  lemma {:induction false} StepAt(envs: seq<Env>, prices: seq<nat>, times: seq<nat>, k: nat)
    requires IsHistory(envs, prices, times) && k < |envs|
    ensures |times| == |envs| + 1 && Signed(times[k]) <= Signed(times[k + 1])
  {
    assert Moves(envs[k], prices[k], times[k], prices[k + 1], times[k + 1]);
  }

  /**
   * Over any run, from any state: the unsigned time never goes back exactly when no time of 2^63
   * or more is ever left.
   */
  lemma {:induction false} UnsignedRun(envs: seq<Env>, prices: seq<nat>, times: seq<nat>)
    requires IsHistory(envs, prices, times)
    ensures |times| == |envs| + 1
    ensures Ordered(times) <==> forall k :: 0 <= k < |envs| && times[k] >= SIGN_BIT ==> times[k + 1] == times[k]
  {
    hide Signed, Moves;
    if Ordered(times) {
      forall k | 0 <= k < |envs| && times[k] >= SIGN_BIT
        ensures times[k + 1] == times[k]
      {
        StepAt(envs, prices, times, k);
        NegativeTimes(times[k], times[k + 1]);
      }
    }
    if forall k :: 0 <= k < |envs| && times[k] >= SIGN_BIT ==> times[k + 1] == times[k] {
      forall i, j | 0 <= i <= j < |times|
        ensures times[i] <= times[j]
      {
        NeverBack(envs, prices, times, i, j);
      }
    }
  }

  lemma {:induction false} NeverBack(envs: seq<Env>, prices: seq<nat>, times: seq<nat>, i: nat, j: nat)
    requires IsHistory(envs, prices, times) && i <= j < |times|
    requires forall k :: 0 <= k < |envs| && times[k] >= SIGN_BIT ==> times[k + 1] == times[k]
    ensures times[i] <= times[j]
  {
    hide Signed, Moves;
    if i < j {
      NeverBack(envs, prices, times, i, j - 1);
      StepAt(envs, prices, times, j - 1);
      if times[j - 1] < SIGN_BIT {
        UnsignedTimes(times[j - 1], times[j]);
      }
    }
  }

  /**
   * What a publisher can see to: a run from a time below 2^63, the genesis time 0 among them, stays
   * ordered and below 2^63 exactly when no journal carries the time 2^63.
   */
  lemma {:induction false} SafeRun(envs: seq<Env>, prices: seq<nat>, times: seq<nat>)
    requires IsHistory(envs, prices, times) && times[0] < SIGN_BIT
    ensures Ordered(times) && (forall k :: 0 <= k < |times| ==> times[k] < SIGN_BIT) <==>
            forall k :: 0 <= k < |times| ==> times[k] != SIGN_BIT
  {
    if forall k :: 0 <= k < |times| ==> times[k] != SIGN_BIT {
      forall k | 0 <= k < |times|
        ensures times[k] < SIGN_BIT
      {
        StaysBelow(envs, prices, times, k);
      }
      UnsignedRun(envs, prices, times);
    }
  }

  lemma {:induction false} StaysBelow(envs: seq<Env>, prices: seq<nat>, times: seq<nat>, k: nat)
    requires IsHistory(envs, prices, times) && times[0] < SIGN_BIT && k < |times|
    requires forall i :: 0 <= i < |times| ==> times[i] != SIGN_BIT
    ensures times[k] < SIGN_BIT
  {
    hide Signed, Moves;
    if k > 0 {
      StaysBelow(envs, prices, times, k - 1);
      StepAt(envs, prices, times, k - 1);
      UnsignedTimes(times[k - 1], times[k]);
    }
  }

  // ---- a run that goes back ----

  /** `r` is an oracle script with this body. */
  predicate IsState(r: seq<byte>, body: seq<byte>) {
    |r| == REDEEM_LEN && r == PrefixBytes(r[1..9], r[11..19]) + body
  }

  /** A hash that tells the oracle's states apart from each other and from everything else. */
  function StateHash(body: seq<byte>): seq<byte> -> Hash {
    r => if |r| >= 19 && IsState(r, body) then Marked(r[1..9], r[11..19]) else ZeroHash()
  }

  function Marked(a: seq<byte>, b: seq<byte>): Hash
    requires |a| == 8 && |b| == 8
  {
    a + b + seq(16, i => 1)
  }

  lemma {:induction false} HashOfState(ps: Params, price: nat, t: nat)
    requires price < U64_LIMIT && t < U64_LIMIT
    ensures StateHash(Body(ps))(Redeem(price, t, ps)) == Marked(Le64(price), Le64(t))
  {
    RedeemBytes(price, t, ps);
    RedeemFields(price, t, ps);
    hide Redeem, Body, PrefixBytes, Le64;
  }

  lemma {:induction false} StatesApart(env: Env, ps: Params, price: nat, t: nat)
    requires price < U64_LIMIT && t < U64_LIMIT && env.blake2b == StateHash(Body(ps))
    ensures NoCollision(env, Redeem(price, t, ps))
  {
    var script := Redeem(price, t, ps);
    HashOfState(ps, price, t);
    RedeemBytes(price, t, ps);
    hide Redeem, Body, PrefixBytes, Le64;
    forall r: seq<byte> | env.blake2b(r) == env.blake2b(script)
      ensures r == script
    {
      assert Marked(Le64(price), Le64(t))[31] == 1;
      if |r| >= 19 && IsState(r, Body(ps)) {
        assert r[1..9] == Marked(r[1..9], r[11..19])[..8] == Le64(price);
        assert r[11..19] == Marked(r[1..9], r[11..19])[8..16] == Le64(t);
      }
    }
  }

  lemma {:induction false} AllStatesApart(env: Env, ps: Params)
    requires env.blake2b == StateHash(Body(ps))
    ensures forall p, t {:trigger Redeem(p, t, ps)} :: 0 <= p < U64_LIMIT && 0 <= t < U64_LIMIT ==>
              NoCollision(env, Redeem(p, t, ps))
  {
    hide Redeem, NoCollision, StateHash;
    forall p, t | 0 <= p < U64_LIMIT && 0 <= t < U64_LIMIT
      ensures NoCollision(env, Redeem(p, t, ps))
    {
      StatesApart(env, ps, p, t);
    }
  }

  /** A journal that carries a price and a time of the pinned program. */
  function JournalOf(price: nat, t: nat, ps: Params): (j: seq<byte>)
    requires price < U64_LIMIT && t < U64_LIMIT
    ensures |j| == 48 && j[16..48] == ps.setRoot
  {
    Le64(price) + Le64(t) + ps.setRoot
  }

  lemma {:induction false} JournalReads(price: nat, t: nat, ps: Params)
    requires price < U64_LIMIT && t < U64_LIMIT
    ensures JournalPrice(JournalOf(price, t, ps)) == price && JournalTime(JournalOf(price, t, ps)) == t
  {
    var j := JournalOf(price, t, ps);
    assert j[0..8] == Le64(price) && j[8..16] == Le64(t);
    Le64Value(price);
    Le64Value(t);
    hide Le64, LeVal;
  }

  /** No spender's fields: the precompile is taken to accept. */
  function NoFields(): Fields {
    Fields([], [], [], [])
  }

  /** The transaction that rolls the oracle from one state to another, with the heartbeat beside it. */
  function RollOf(ps: Params, id: Hash, price: nat, t: nat, price2: nat, t2: nat): (env: Env)
    requires price < U64_LIMIT && t < U64_LIMIT && price2 < U64_LIMIT && t2 < U64_LIMIT
    ensures env.Valid() && env.blake2b == StateHash(Body(ps))
  {
    var h := StateHash(Body(ps));
    var sig := Publish(price, t, ps, NoFields(), JournalOf(price2, t2, ps));
    Env(0,
        [Input(1, P2sh(h(Redeem(price, t, ps))), Some(id), sig), Input(1, [], Some(ps.heartbeat), [])],
        [Output(1, P2sh(h(Redeem(price2, t2, ps))), Some(id))],
        (g, k) => false, n => false, n => false, h, x => ZeroHash(), xs => true)
  }

  /** `env` is an accepted spend of the oracle at `price` and `t`, by a roll to `price2` and `t2`. */
  ghost predicate Accepted(env: Env, id: Hash, price: nat, t: nat, price2: nat, t2: nat, ps: Params)
    requires price < U64_LIMIT && t < U64_LIMIT && price2 < U64_LIMIT && t2 < U64_LIMIT
  {
    && AtState(env, price, t, ps) && Oracle.OracleSpend(env, id, ps)
    && Rolls(env, t, ps, PublishStack(NoFields(), JournalOf(price2, t2, ps)))
  }

  lemma {:induction false} RollIsPaid(ps: Params, id: Hash, price: nat, t: nat, price2: nat, t2: nat)
    requires price < U64_LIMIT && t < U64_LIMIT && price2 < U64_LIMIT && t2 < U64_LIMIT && id != ps.heartbeat
    ensures
      var env := RollOf(ps, id, price, t, price2, t2);
      && AtState(env, price, t, ps) && Settles(env, Redeem(price2, t2, ps))
      && env.Self().sigScript == Publish(price, t, ps, NoFields(), JournalOf(price2, t2, ps))
      && env.Self().tag == Some(id) && |env.inputs| == 2 && |env.outputs| == 1
      && env.inputs[0].tag == Some(id) && env.inputs[1].tag == Some(ps.heartbeat) && env.outputs[0].tag == Some(id)
      && forall xs :: env.zk(xs)
  {
    Tags(RollOf(ps, id, price, t, price2, t2), id, ps.heartbeat);
    hide Redeem, Publish, StateHash, JournalOf, InputsTagged, OutputsTagged, P2sh;
  }

  /** Every price in range and every time the comparison lets through can be rolled to. */
  lemma {:induction false} RollAccepted(ps: Params, id: Hash, price: nat, t: nat, price2: nat, t2: nat)
    requires price < U64_LIMIT && t < U64_LIMIT && 1 <= price2 <= MAX_PRICE && t2 < U64_LIMIT
    requires id != ps.heartbeat && Signed(t) <= Signed(t2)
    ensures price2 < U64_LIMIT && Accepted(RollOf(ps, id, price, t, price2, t2), id, price, t, price2, t2, ps)
  {
    hide Redeem, Signed, SpendOk, NoCollision, Publish, StateHash, JournalOf, JournalPrice, JournalTime, Take, Proved,
         InputsTagged, OutputsTagged, P2sh, RollOf, Settles, Body;
    var env := RollOf(ps, id, price, t, price2, t2);
    var journal := JournalOf(price2, t2, ps);
    JournalReads(price2, t2, ps);
    RollIsPaid(ps, id, price, t, price2, t2);
    Tags(env, id, ps.heartbeat);
    FourFields(env, ps, journal);
    AllStatesApart(env, ps);
    assert Rolls(env, t, ps, PublishStack(NoFields(), journal));
    hide Rolls;
    PublishSpends(env, price, t, ps, NoFields(), journal);
  }

  lemma {:induction false} FourFields(env: Env, ps: Params, journal: seq<byte>)
    requires forall xs :: env.zk(xs)
    ensures
      var s := PublishStack(NoFields(), journal).rest;
      Proved(env, ps, journal, s) && Take(s, 4).Some? && Take(s, 4).value.1.Nil?
  {
    var s := PublishStack(NoFields(), journal).rest;
    assert Take(s.rest.rest.rest.rest, 0) == Some(([], Nil));
    assert Take(s.rest.rest.rest, 1).Some? && Take(s.rest.rest, 2).Some? && Take(s.rest, 3).Some?;
  }

  lemma {:induction false} Tags(env: Env, id: Hash, heartbeat: Hash)
    requires id != heartbeat && |env.inputs| == 2 && |env.outputs| == 1
    requires env.inputs[0].tag == Some(id) && env.inputs[1].tag == Some(heartbeat) && env.outputs[0].tag == Some(id)
    ensures InputsTagged(env.inputs, id) == [0] && InputsTagged(env.inputs, heartbeat) == [1]
    ensures OutputsTagged(env.outputs, id) == [0]
  {
    assert env.inputs[..1][..0] == [] && env.outputs[..0] == [];
    assert InputsTagged(env.inputs[..1][..0], id) == [] && InputsTagged(env.inputs[..1][..0], heartbeat) == [];
    assert InputsTagged(env.inputs[..1], id) == [0] && InputsTagged(env.inputs[..1], heartbeat) == [];
  }

  /** The second of two rolls spends what the first one made. */
  lemma {:induction false} RollsInto(ps: Params, id: Hash, price: nat, t: nat, price2: nat, t2: nat, price3: nat,
          t3: nat)
    requires price < U64_LIMIT && t < U64_LIMIT && price2 < U64_LIMIT && t2 < U64_LIMIT
    requires price3 < U64_LIMIT && t3 < U64_LIMIT
    ensures
      var env, next := RollOf(ps, id, price, t, price2, t2), RollOf(ps, id, price2, t2, price3, t3);
      && next.Valid() && SpendsOutput(env, next, 0) && next.blake2b == env.blake2b
      && |next.outputs| == 1 && next.outputs[0].spk == P2sh(next.blake2b(Redeem(price3, t3, ps)))
  {
    hide Redeem, Publish, StateHash, P2sh;
  }

  lemma {:induction false} RunOfTwo(envs: seq<Env>, id: Hash, ps: Params)
    requires |envs| == 2 && Oracle.OracleSpend(envs[0], id, ps) && Oracle.OracleSpend(envs[1], id, ps)
    requires envs[1].Valid() && SpendsOutput(envs[0], envs[1], 0) && envs[1].blake2b == envs[0].blake2b
    ensures OracleRun(envs, id, ps)
  {
    hide Oracle.OracleSpend, SpendsOutput;
    assert forall k :: 0 <= k < 1 ==> Continues(envs, k);
  }

  /**
   * Two accepted rolls of one oracle: from the genesis time 0 to 2^63, which reads as a negative
   * zero, and from there back to 0.
   */
  lemma {:induction false} TimeGoesBack(ps: Params, id: Hash, price: nat) returns (envs: seq<Env>)
    requires 1 <= price <= MAX_PRICE && id != ps.heartbeat
    ensures price < U64_LIMIT && |envs| == 2 && OracleRun(envs, id, ps)
    ensures Accepted(envs[0], id, price, 0, price, SIGN_BIT, ps)
    ensures Accepted(envs[1], id, price, SIGN_BIT, price, 0, ps)
    ensures |envs[1].outputs| == 1 && envs[1].outputs[0].spk == P2sh(envs[1].blake2b(Redeem(price, 0, ps)))
  {
    UnsignedTimes(0, SIGN_BIT);
    NegativeTimes(SIGN_BIT, 0);
    RollAccepted(ps, id, price, 0, price, SIGN_BIT);
    RollAccepted(ps, id, price, SIGN_BIT, price, 0);
    RollsInto(ps, id, price, 0, price, SIGN_BIT, price, 0);
    hide *;
    envs := [RollOf(ps, id, price, 0, price, SIGN_BIT), RollOf(ps, id, price, SIGN_BIT, price, 0)];
    RunOfTwo(envs, id, ps);
  }
}
