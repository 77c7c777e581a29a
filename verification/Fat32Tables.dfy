/** Allocation tables on their own: free lists, chains, claiming a chain, freeing a walk. */
module Fat32Tables {
  import opened Fat32Layout

  // ---- first fit ----

  /** The free clusters below `hi`, ascending. */
  function FreeUpTo(t: Table, hi: nat): (r: seq<nat>)
    requires hi <= |t|
  {
    if hi <= 2 then [] else FreeUpTo(t, hi - 1) + (if t[hi - 1] == 0 then [hi - 1] else [])
  }

  ghost predicate Ascending(s: seq<nat>) {
    forall i, j :: 0 <= i < j < |s| ==> s[i] < s[j]
  }

  /** `FreeUpTo` lists exactly the free clusters, each once, in order. */
  lemma {:induction false} FreeUpToIsExact(t: Table, hi: nat)
    requires hi <= |t|
    ensures Ascending(FreeUpTo(t, hi))
    ensures forall c: nat :: c in FreeUpTo(t, hi) <==> 2 <= c < hi && t[c] == 0
  {
    if hi > 2 {
      FreeUpToIsExact(t, hi - 1);
      var prev := FreeUpTo(t, hi - 1);
      assert forall i :: 0 <= i < |prev| ==> prev[i] in prev;
    }
  }

  lemma {:induction false} FreeUpToGrows(t: Table, lo: nat, hi: nat)
    requires lo <= hi <= |t|
    ensures FreeUpTo(t, lo) <= FreeUpTo(t, hi)
  {
    if lo < hi {
      FreeUpToGrows(t, lo, hi - 1);
    }
  }

  // ---- chains ----

  /** `cs` is a whole chain of `t`: data clusters of the table, each naming the next, the last an end marker. */
  ghost predicate IsChain(t: Table, cs: seq<nat>) {
    && |cs| > 0
    && (forall i :: 0 <= i < |cs| ==> IsData(cs[i]) && cs[i] < |t|)
    && (forall i :: 0 <= i < |cs| - 1 ==> t[cs[i]] == cs[i + 1])
    && t[cs[|cs| - 1]] >= EOC_MIN
  }

  /** A chain that ends cannot meet itself. */
  lemma {:induction false} ChainIsAcyclic(t: Table, cs: seq<nat>, i: nat, j: nat)
    requires IsChain(t, cs) && i < j < |cs|
    ensures cs[i] != cs[j]
    decreases |cs| - j
  {
    assert t[cs[i]] == cs[i + 1];
    if j < |cs| - 1 {
      assert t[cs[j]] == cs[j + 1];
      ChainIsAcyclic(t, cs, i + 1, j + 1);
    }
  }

  lemma {:induction false} ChainTail(t: Table, cs: seq<nat>)
    requires IsChain(t, cs) && |cs| > 1
    ensures IsChain(t, cs[1..])
  {
    forall i | 0 <= i < |cs[1..]| - 1
      ensures t[cs[1..][i]] == cs[1..][i + 1]
    {
      assert t[cs[i + 1]] == cs[i + 2];
    }
  }

  /** A chain whose own entries are untouched is still a chain. */
  lemma {:induction false} ChainKept(t: Table, u: Table, cs: seq<nat>)
    requires IsChain(t, cs) && |t| == |u|
    requires forall c :: c in cs ==> u[c] == t[c]
    ensures IsChain(u, cs)
  {
    forall i | 0 <= i < |cs|
      ensures u[cs[i]] == t[cs[i]]
    {
      assert cs[i] in cs;
    }
  }

  // ---- claiming a chain of free clusters ----

  function Link(chain: seq<nat>, k: nat): nat
    requires k < |chain|
  {
    if k + 1 < |chain| then chain[k + 1] else EOC
  }

  /** Entry `c` once links `lo..hi` of `chain` have been written over `t`, in that order. */
  function ClaimedEntry(t: Table, chain: seq<nat>, lo: nat, hi: nat, c: nat): (v: nat)
    requires lo <= hi <= |chain| && c < |t|
    ensures c !in chain[lo..hi] ==> v == t[c]
  {
    if hi == lo then t[c]
    else if chain[hi - 1] == c then Link(chain, hi - 1)
    else
      assert chain[lo..hi] == chain[lo..hi - 1] + [chain[hi - 1]];
      ClaimedEntry(t, chain, lo, hi - 1, c)
  }

  /** `t` with the links of `chain[lo..]` written. */
  function Claim(t: Table, chain: seq<nat>, lo: nat): (u: Table)
    requires lo <= |chain|
    ensures |u| == |t|
  {
    seq(|t|, c requires 0 <= c < |t| => ClaimedEntry(t, chain, lo, |chain|, c))
  }

  lemma {:induction false} ClaimedEntryAt(t: Table, chain: seq<nat>, lo: nat, hi: nat, k: nat)
    requires lo <= k < hi <= |chain| && chain[k] < |t| && Ascending(chain)
    ensures ClaimedEntry(t, chain, lo, hi, chain[k]) == Link(chain, k)
  {
    if k < hi - 1 {
      ClaimedEntryAt(t, chain, lo, hi - 1, k);
    }
  }

  /** Writing `lo..mid` adds nothing to an entry that only `mid..hi` touch, and the other way round. */
  lemma {:induction false} ClaimSplit(t: Table, chain: seq<nat>, lo: nat, mid: nat, hi: nat, c: nat)
    requires lo <= mid <= hi <= |chain| && c < |t|
    ensures c !in chain[mid..hi] ==> ClaimedEntry(t, chain, lo, hi, c) == ClaimedEntry(t, chain, lo, mid, c)
    ensures c !in chain[lo..mid] ==> ClaimedEntry(t, chain, lo, hi, c) == ClaimedEntry(t, chain, mid, hi, c)
  {
    if mid < hi {
      ClaimSplit(t, chain, lo, mid, hi - 1, c);
      assert chain[mid..hi] == chain[mid..hi - 1] + [chain[hi - 1]];
    } else {
      assert chain[mid..hi] == [];
    }
  }

  /**
   * What a partly written claim looks like: the links from `lo` on form a complete tail that
   * ends in an end marker, every cluster before it is still free, and no other entry moved.
   */
  lemma {:induction false} ClaimedTail(t: Table, chain: seq<nat>, lo: nat)
    requires lo <= |chain| && Ascending(chain)
    requires forall k :: 0 <= k < |chain| ==> IsData(chain[k]) && chain[k] < |t| && t[chain[k]] == 0
    ensures lo < |chain| ==> IsChain(Claim(t, chain, lo), chain[lo..])
    ensures forall k :: 0 <= k < lo ==> Claim(t, chain, lo)[chain[k]] == 0
    ensures forall c :: 0 <= c < |t| && c !in chain[lo..] ==> Claim(t, chain, lo)[c] == t[c]
  {
    var u := Claim(t, chain, lo);
    var n := |chain|;
    assert chain[lo..n] == chain[lo..];
    forall k | lo <= k < n
      ensures u[chain[k]] == Link(chain, k)
    {
      ClaimedEntryAt(t, chain, lo, n, k);
    }
    forall c | 0 <= c < |t| && c !in chain[lo..]
      ensures u[c] == t[c]
    {
      assert u[c] == ClaimedEntry(t, chain, lo, n, c);
    }
    hide Claim, ClaimedEntry;
    forall k | 0 <= k < lo
      ensures chain[k] !in chain[lo..]
    {
    }
    if lo < n {
      TailIsChain(u, chain, lo);
    }
  }

  lemma {:induction false} TailIsChain(u: Table, chain: seq<nat>, lo: nat)
    requires lo < |chain| && forall k :: 0 <= k < |chain| ==> IsData(chain[k]) && chain[k] < |u|
    requires forall k :: lo <= k < |chain| ==> u[chain[k]] == Link(chain, k)
    ensures IsChain(u, chain[lo..])
  {
    var tail := chain[lo..];
    assert forall i :: 0 <= i < |tail| ==> tail[i] == chain[lo + i];
    assert u[tail[|tail| - 1]] == Link(chain, |chain| - 1);
  }

  /** Claiming free clusters leaves every chain there was. */
  lemma {:induction false} ClaimKeepsChains(t: Table, chain: seq<nat>, lo: nat, other: seq<nat>)
    requires lo <= |chain| && Ascending(chain)
    requires forall k :: 0 <= k < |chain| ==> IsData(chain[k]) && chain[k] < |t| && t[chain[k]] == 0
    requires IsChain(t, other)
    ensures IsChain(Claim(t, chain, lo), other)
    ensures forall c :: c in chain ==> c !in other
  {
    ClaimedTail(t, chain, lo);
    forall c | c in other
      ensures t[c] != 0
    {
      var i :| 0 <= i < |other| && other[i] == c;
      assert i < |other| - 1 ==> t[other[i]] == other[i + 1];
    }
    ChainKept(t, Claim(t, chain, lo), other);
  }

  /** No entry that differs from `t` names a free cluster. */
  ghost predicate NoDanglingLink(t: Table, u: Table) {
    && |u| == |t|
    && forall c :: 0 <= c < |u| && u[c] != t[c] ==> u[c] >= EOC_MIN || (u[c] < |u| && u[u[c]] != 0)
  }

  /** Interrupting a claim anywhere never leaves a written link into a cluster that is not claimed. */
  lemma {:induction false} ClaimedTailHasNoDanglingLink(t: Table, chain: seq<nat>, lo: nat)
    requires lo <= |chain| && Ascending(chain)
    requires forall k :: 0 <= k < |chain| ==> IsData(chain[k]) && chain[k] < |t| && t[chain[k]] == 0
    ensures NoDanglingLink(t, Claim(t, chain, lo))
  {
    var u := Claim(t, chain, lo);
    ClaimedTail(t, chain, lo);
    forall c | 0 <= c < |u| && u[c] != t[c]
      ensures u[c] >= EOC_MIN || (u[c] < |u| && u[u[c]] != 0)
    {
      var tail := chain[lo..];
      var i :| 0 <= i < |tail| && tail[i] == c;
      if i + 1 < |tail| {
        assert u[tail[i]] == tail[i + 1];
        assert i + 1 < |tail| - 1 ==> u[tail[i + 1]] == tail[i + 2];
      }
    }
  }

  // ---- freeing a walk ----

  ghost function NonZero(t: Table): set<nat> {
    set c: nat | c < |t| && t[c] != 0
  }

  lemma {:induction false} ZeroedShrinks(t: Table, c: nat)
    requires c < |t|
    ensures t[c] != 0 ==> NonZero(t[c := 0]) < NonZero(t)
    ensures t[c] == 0 ==> t[c := 0] == t
  {
    if t[c] != 0 {
      assert c in NonZero(t) && c !in NonZero(t[c := 0]);
    }
  }

  /**
   * The clusters met by following links from `c` while zeroing each entry passed. Any table
   * ends the walk: an entry met twice reads zero the second time.
   */
  ghost function Walk(t: Table, c: nat): (w: seq<nat>)
    ensures forall x :: x in w ==> IsData(x) && x < |t|
    decreases NonZero(t), if IsData(c) then 1 else 0
  {
    if !IsData(c) || c >= |t| then [] else
      ZeroedShrinks(t, c);
      [c] + Walk(t[c := 0], t[c])
  }

  /** The walk from `c` leaves the table at no step. */
  ghost predicate WalkStays(t: Table, c: nat)
    decreases NonZero(t), if IsData(c) then 1 else 0
  {
    IsData(c) ==>
      && c < |t|
      && (ZeroedShrinks(t, c);
          WalkStays(t[c := 0], t[c]))
  }

  /** `t` with the entries of `cs` zeroed. */
  ghost function Clear(t: Table, cs: seq<nat>): (u: Table)
    ensures |u| == |t|
  {
    seq(|t|, c requires 0 <= c < |t| => if c in cs then 0 else t[c])
  }

  lemma ClearOne(t: Table, c: nat)
    requires c < |t|
    ensures Clear(t, [c]) == t[c := 0]
  {
  }

  lemma ClearTwice(t: Table, a: seq<nat>, b: seq<nat>)
    ensures Clear(Clear(t, a), b) == Clear(t, a + b)
  {
  }

  /** One step of a walk over a table already zeroed on `done`. */
  lemma {:induction false} WalkStep(t: Table, done: seq<nat>, c: nat)
    requires IsData(c) && c < |t|
    ensures
      var u := Clear(t, done);
      && Walk(u, c) == [c] + Walk(Clear(t, done + [c]), u[c])
      && (WalkStays(u, c) ==> WalkStays(Clear(t, done + [c]), u[c]))
  {
    var u := Clear(t, done);
    ZeroedShrinks(u, c);
    ClearOne(u, c);
    ClearTwice(t, done, [c]);
  }

  /** On a whole chain the walk is the chain. */
  lemma {:induction false} WalkOfChain(t: Table, cs: seq<nat>)
    requires IsChain(t, cs)
    ensures Walk(t, cs[0]) == cs && WalkStays(t, cs[0])
    decreases |cs|
  {
    ZeroedShrinks(t, cs[0]);
    var u := t[cs[0] := 0];
    if |cs| > 1 {
      var rest := cs[1..];
      ChainTail(t, cs);
      forall c | c in rest
        ensures u[c] == t[c]
      {
        var i :| 0 <= i < |rest| && rest[i] == c;
        ChainIsAcyclic(t, cs, 0, i + 1);
      }
      ChainKept(t, u, rest);
      WalkOfChain(u, rest);
      assert t[cs[0]] == cs[1];
      assert cs == [cs[0]] + rest;
    } else {
      assert Walk(u, t[cs[0]]) == [];
    }
  }

  /** A path of links of `t` through data clusters. */
  ghost predicate IsPath(t: Table, p: seq<nat>) {
    && |p| > 0
    && (forall i :: 0 <= i < |p| ==> IsData(p[i]) && p[i] < |t|)
    && (forall i :: 0 <= i < |p| - 1 ==> t[p[i]] == p[i + 1])
  }

  /** Every cluster walked is reached by links of the table as it was. */
  lemma {:induction false} WalkedIsReached(t: Table, c: nat, x: nat) returns (p: seq<nat>)
    requires x in Walk(t, c)
    ensures IsPath(t, p) && p[0] == c && p[|p| - 1] == x
    decreases NonZero(t), if IsData(c) then 1 else 0
  {
    ZeroedShrinks(t, c);
    if x == c {
      p := [c];
    } else {
      var u := t[c := 0];
      var q := WalkedIsReached(u, t[c], x);
      // Only the last cluster of `q` may be `c`, which reads zero in `u`.
      forall i | 0 <= i < |q| - 1
        ensures t[q[i]] == q[i + 1]
      {
        assert u[q[i]] == q[i + 1];
      }
      p := [c] + q;
      forall i | 0 <= i < |p| - 1
        ensures t[p[i]] == p[i + 1]
      {
        assert i > 0 ==> t[q[i - 1]] == q[i];
      }
    }
  }

  /** A walk over a table already zeroed on `done` is closed under the links of the table as it was. */
  lemma {:induction false} WalkIsClosed(t: Table, done: seq<nat>, c: nat, x: nat)
    requires x in Walk(Clear(t, done), c) && x !in done && IsData(t[x]) && t[x] < |t|
    ensures t[x] in Walk(Clear(t, done), c) || t[x] in done
    decreases NonZero(Clear(t, done)), if IsData(c) then 1 else 0
  {
    var u := Clear(t, done);
    ZeroedShrinks(u, c);
    ClearOne(u, c);
    ClearTwice(t, done, [c]);
    if x != c {
      WalkIsClosed(t, done + [c], u[c], x);
    } else {
      assert u[c] == t[c];
      assert Walk(u[c := 0], t[c])[0] == t[c];
    }
  }

  /** Every cluster reached by links is walked: on any table the walk is exactly what is reachable. */
  lemma {:induction false} ReachedIsWalked(t: Table, p: seq<nat>)
    requires IsPath(t, p)
    ensures p[|p| - 1] in Walk(t, p[0])
    decreases |p|
  {
    var n := |p|;
    if n == 1 {
      assert p[0] == Walk(t, p[0])[0];
    } else {
      ReachedIsWalked(t, p[..n - 1]);
      assert t[p[n - 2]] == p[n - 1];
      assert Clear(t, []) == t;
      WalkIsClosed(t, [], p[0], p[n - 2]);
    }
  }
}
