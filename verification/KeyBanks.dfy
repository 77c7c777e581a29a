/** The lazily extended key banks: a cache that must agree with deriving every key. */
module KeyBanks {
  import opened Bytes

  type Key = s: seq<byte> | |s| == 32 witness seq(32, i => 0)

  /** A chain parent: the x-only public key at each index, where derivation succeeds. */
  type Chain = nat -> Option<Key>

  /** An index, and whether it is on the change chain. */
  type Hit = (nat, bool)

  function ZeroKey(): (k: Key)
    ensures forall i :: 0 <= i < 32 ==> k[i] == 0
  {
    seq(32, i => 0)
  }

  /** Slot `i` of a bank once it has been filled: the derived key, or zero where derivation fails. */
  function SlotKey(chain: Chain, i: nat): Key {
    if chain(i).Some? then chain(i).value else ZeroKey()
  }

  /** Slots before the front are filled; the others are still zero. */
  ghost predicate Filled(bank: seq<Key>, front: nat, chain: Chain) {
    && front <= |bank| <= 0xFFFF
    && (forall i :: 0 <= i < front ==> bank[i] == SlotKey(chain, i))
    && (forall i :: front <= i < |bank| ==> bank[i] == ZeroKey())
  }

  /** Some index below `n` derives to `target`. */
  ghost predicate Derives(chain: Chain, n: nat, target: Key) {
    exists i: nat :: i < n && chain(i) == Some(target)
  }

  /** A filled slot holds a non-zero target exactly when its index derives to it. */
  lemma SlotIsKey(bank: seq<Key>, front: nat, chain: Chain, target: Key, i: nat)
    requires Filled(bank, front, chain) && target != ZeroKey() && i < front
    ensures bank[i] == target <==> chain(i) == Some(target)
  {
  }

  /** `ext_find_pubkey`: receive slots first, then change slots. */
  method FindPubkey(recv: seq<Key>, recvN: nat, chg: seq<Key>, chgN: nat, target: Key) returns (r: Option<Hit>)
    requires recvN <= |recv| && chgN <= |chg|
    ensures r.None? ==> target !in recv[..recvN] && target !in chg[..chgN]
    ensures r.Some? && !r.value.1 ==> r.value.0 < recvN && recv[r.value.0] == target && target !in recv[..r.value.0]
    ensures r.Some? && r.value.1 ==>
              target !in recv[..recvN] && r.value.0 < chgN && chg[r.value.0] == target && target !in chg[..r.value.0]
  {
    for i := 0 to recvN
      invariant target !in recv[..i]
    {
      if recv[i] == target {
        return Some((i, false));
      }
    }
    for i := 0 to chgN
      invariant target !in chg[..i]
    {
      if chg[i] == target {
        return Some((i, true));
      }
    }
    return None;
  }

  class Banks {
    var recv: array<Key>
    var recvN: nat
    var chg: array<Key>
    var chgN: nat

    ghost predicate Valid(recvChain: Chain, chgChain: Chain)
      reads this, recv, chg
    {
      && recv != chg
      && Filled(recv[..], recvN, recvChain)
      && Filled(chg[..], chgN, chgChain)
    }

    /** The scan walked both chains in step: the receive front is level with the change front or one ahead. */
    predicate InStep()
      reads this
    {
      chgN <= recvN <= chgN + 1
    }

    /** One derivation on the receive chain. */
    method AdvanceRecv(recvChain: Chain, ghost chgChain: Chain, target: Key) returns (hit: bool)
      requires Valid(recvChain, chgChain) && recvN < recv.Length
      modifies this`recvN, recv
      ensures Valid(recvChain, chgChain) && recvN == old(recvN) + 1 <= 0xFFFF
      ensures hit <==> recvChain(old(recvN)) == Some(target)
    {
      ghost var was := recv[..];
      ghost var chgWas := chg[..];
      var r := recvN;
      recvN := r + 1;
      var pk := recvChain(r);
      hit := false;
      if pk.Some? {
        recv[r] := pk.value;
        hit := pk.value == target;
      }
      assert recv[..] == was[r := SlotKey(recvChain, r)];
      assert chg[..] == chgWas;
    }

    /** One derivation on the change chain. */
    method AdvanceChg(ghost recvChain: Chain, chgChain: Chain, target: Key) returns (hit: bool)
      requires Valid(recvChain, chgChain) && chgN < chg.Length
      modifies this`chgN, chg
      ensures Valid(recvChain, chgChain) && chgN == old(chgN) + 1 <= 0xFFFF
      ensures hit <==> chgChain(old(chgN)) == Some(target)
    {
      ghost var was := chg[..];
      ghost var recvWas := recv[..];
      var c := chgN;
      chgN := c + 1;
      var pk := chgChain(c);
      hit := false;
      if pk.Some? {
        chg[c] := pk.value;
        hit := pk.value == target;
      }
      assert chg[..] == was[c := SlotKey(chgChain, c)];
      assert recv[..] == recvWas;
    }

    /** The search of the filled slots, in terms of the chains. */
    method FindFilled(ghost recvChain: Chain, ghost chgChain: Chain, target: Key) returns (r: Option<Hit>)
      requires Valid(recvChain, chgChain) && target != ZeroKey()
      ensures r.Some? <==> Derives(recvChain, recvN, target) || Derives(chgChain, chgN, target)
      ensures r.Some? && r.value.1 ==> r.value.0 < chgN && chgChain(r.value.0) == Some(target)
      ensures r.Some? && !r.value.1 ==> r.value.0 < recvN && recvChain(r.value.0) == Some(target)
    {
      r := FindPubkey(recv[..], recvN, chg[..], chgN, target);
      Searched(recvChain, chgChain, target);
      if r.Some? {
        if r.value.1 {
          SlotIsKey(chg[..], chgN, chgChain, target, r.value.0);
        } else {
          SlotIsKey(recv[..], recvN, recvChain, target, r.value.0);
        }
      }
    }

    /**
     * `ext_scan_find`. `recvOk` and `chgOk` say whether the two chain parents can be derived; the
     * chains are what they derive, and what the banks were filled from. The answer is that of a
     * full scan of both banks' range, and only the fronts and the slots they pass change.
     */
    method ScanFind(recvChain: Chain, recvOk: bool, chgChain: Chain, chgOk: bool, target: Key) returns (r: Option<Hit>)
      requires Valid(recvChain, chgChain) && target != ZeroKey()
      modifies this`recvN, this`chgN, recv, chg
      ensures Valid(recvChain, chgChain) && recvN >= old(recvN) && chgN >= old(chgN)
      ensures r.Some? ==>
                var (i, change) := r.value;
                if change then i < chgN && chgChain(i) == Some(target) else i < recvN && recvChain(i) == Some(target)
      ensures recvOk && chgOk ==>
                (r.Some? <==> Derives(recvChain, recv.Length, target) || Derives(chgChain, chg.Length, target))
      ensures !(recvOk && chgOk) ==>
                && (r.Some? <==> Derives(recvChain, old(recvN), target) || Derives(chgChain, old(chgN), target))
                && recvN == old(recvN) && chgN == old(chgN)
      ensures old(InStep()) && recv.Length == chg.Length ==> InStep()
      // What a fresh hit costs: both fronts stop at it.
      ensures old(InStep()) && r.Some? && r.value.0 < recv.Length && r.value.0 < chg.Length
              && r.value.0 >= (if r.value.1 then old(chgN) else old(recvN)) ==>
                recvN == r.value.0 + 1 && chgN == r.value.0 + (if r.value.1 then 1 else 0)
    {
      hide Filled, SlotKey;
      FrontsFit(recvChain, chgChain);
      var hit := FindFilled(recvChain, chgChain, target);
      if hit.Some? {
        Sooner(recvChain, recvN, recv.Length, target);
        Sooner(chgChain, chgN, chg.Length, target);
        return hit;
      }
      if !recvOk || !chgOk {
        return None;
      }
      while true
        invariant Valid(recvChain, chgChain) && recvN >= old(recvN) && chgN >= old(chgN)
        invariant recvN <= recv.Length && chgN <= chg.Length
        invariant !Derives(recvChain, recvN, target) && !Derives(chgChain, chgN, target)
        invariant old(InStep()) ==> chgN <= recvN || recvN == recv.Length
        invariant old(InStep()) ==> recvN <= chgN + 1 || chgN == chg.Length
        decreases recv.Length - recvN + chg.Length - chgN
      {
        FrontsFit(recvChain, chgChain);
        var n := recvN;
        var c := chgN;
        if n >= recv.Length && c >= chg.Length {
          return None;
        }
        var takeRecv := n < recv.Length && (n <= c || c >= chg.Length);
        if takeRecv {
          var found := AdvanceRecv(recvChain, chgChain, target);
          if found {
            return Some((n, false));
          }
          OneMore(recvChain, n, target);
        } else {
          var found := AdvanceChg(recvChain, chgChain, target);
          if found {
            return Some((c, true));
          }
          OneMore(chgChain, c, target);
        }
      }
    }

    lemma FrontsFit(recvChain: Chain, chgChain: Chain)
      requires Valid(recvChain, chgChain)
      ensures recvN <= recv.Length <= 0xFFFF && chgN <= chg.Length <= 0xFFFF
    {
    }

    /** What the filled slots say. */
    lemma {:induction false} Searched(recvChain: Chain, chgChain: Chain, target: Key)
      requires Valid(recvChain, chgChain) && target != ZeroKey()
      ensures target in recv[..][..recvN] <==> Derives(recvChain, recvN, target)
      ensures target in chg[..][..chgN] <==> Derives(chgChain, chgN, target)
    {
      InBank(recv[..], recvN, recvChain, target);
      InBank(chg[..], chgN, chgChain, target);
    }
  }

  lemma {:induction false} InBank(bank: seq<Key>, front: nat, chain: Chain, target: Key)
    requires Filled(bank, front, chain) && target != ZeroKey()
    ensures target in bank[..front] <==> Derives(chain, front, target)
  {
    if target in bank[..front] {
      var i :| 0 <= i < front && bank[..front][i] == target;
      SlotIsKey(bank, front, chain, target, i);
    }
    if Derives(chain, front, target) {
      var i: nat :| i < front && chain(i) == Some(target);
      assert bank[..front][i] == target;
    }
  }

  lemma Sooner(chain: Chain, n: nat, m: nat, target: Key)
    requires n <= m
    ensures Derives(chain, n, target) ==> Derives(chain, m, target)
  {
  }

  lemma OneMore(chain: Chain, n: nat, target: Key)
    requires !Derives(chain, n, target) && chain(n) != Some(target)
    ensures !Derives(chain, n + 1, target)
  {
  }
}
