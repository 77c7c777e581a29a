/** Laying a file's data out over its chain, and that reading the chain gives the data back. */
module Fat32Write {
  import opened Bytes
  import opened Fat32Card
  import opened Fat32Layout
  import opened Fat32Tables
  import opened Fat32Alloc
  import opened Fat32Dir
  import opened Fat32Root
  import opened Fat32Read

  function Zeros(n: nat): (r: seq<byte>)
    ensures |r| == n && forall i :: 0 <= i < n ==> r[i] == 0
  {
    seq(n, i => 0)
  }

  /** Sector `j` of `data`, zero-filled at and past its end. */
  function DataSector(data: seq<byte>, j: nat): Sector {
    if 512 * j + 512 <= |data| then data[512 * j..512 * j + 512]
    else if 512 * j < |data| then data[512 * j..] + Zeros(512 - (|data| - 512 * j))
    else ZeroSector()
  }

  /** The sectors of cluster `c` hold the sectors of `data` from sector `j` on. */
  ghost predicate ClusterHolds(d: Disk, f: Info, c: nat, data: seq<byte>, j: nat) {
    SectorsHold(d, ClusterToSector(f, c), f.sectorsPerCluster, data, j)
  }

  /** The number of sectors in the first `k` clusters of a chain. */
  function FirstSector(f: Info, k: nat): nat {
    k * f.sectorsPerCluster
  }

  lemma FirstSectorNext(f: Info, k: nat)
    ensures FirstSector(f, 0) == 0
    ensures FirstSector(f, k + 1) == FirstSector(f, k) + f.sectorsPerCluster
  {
  }

  lemma FirstSectorMono(f: Info, i: nat, j: nat)
    requires i <= j
    ensures FirstSector(f, i) <= FirstSector(f, j)
  {
  }

  /** The clusters of `chain` hold `data`, in order, zero-filled to their end. */
  ghost predicate Holds(d: Disk, f: Info, chain: seq<nat>, data: seq<byte>) {
    forall k :: 0 <= k < |chain| ==> ClusterHolds(d, f, chain[k], data, FirstSector(f, k))
  }

  /** `e` differs from `d` at most in the sectors of the clusters `cs`. */
  ghost predicate OnlyIn(d: Disk, e: Disk, f: Info, cs: seq<nat>) {
    && |e| == |d|
    && forall q :: 0 <= q < |d| && (forall c :: c in cs ==> !InCluster(f, c, q)) ==> e[q] == d[q]
  }

  ghost predicate SameOutside(d: Disk, e: Disk, base: nat, n: nat) {
    && |d| == |e|
    && forall q :: 0 <= q < |d| && !(base <= q < base + n) ==> e[q] == d[q]
  }

  /** Every card state after the first `from` differs from `d` at most in `n` sectors from `base`. */
  ghost predicate PastOutside(d: Disk, history: seq<Disk>, from: nat, base: nat, n: nat) {
    from <= |history| && forall i | from <= i < |history| :: SameOutside(d, history[i], base, n)
  }

  /** Every card state after the first `from` differs from `d` at most in the clusters `cs`. */
  ghost predicate PastIn(d: Disk, history: seq<Disk>, from: nat, f: Info, cs: seq<nat>) {
    from <= |history| && forall i | from <= i < |history| :: OnlyIn(d, history[i], f, cs)
  }

  /** `count` whole sectors in one call. */
  method WriteMulti(card: Card, block: nat, data: seq<byte>, count: nat) returns (r: Result<Unit>)
    requires card.Valid() && |data| == 512 * count
    modifies card
    ensures card.Valid() && |card.sectors| == |old(card.sectors)|
    ensures r.Err? ==> r.error == Io
    ensures SameOutside(old(card.sectors), card.sectors, block, count)
    ensures old(card.history) <= card.history
    ensures PastOutside(old(card.sectors), card.history, |old(card.history)|, block, count)
    ensures r.Ok? ==> (count > 0 ==> block + count <= |card.sectors|)
                      && forall q :: block <= q < block + count ==>
                           card.sectors[q] == data[512 * (q - block)..512 * (q - block) + 512]
  {
    for k := 0 to count
      invariant card.Valid() && |card.sectors| == |old(card.sectors)|
      invariant k > 0 ==> block + k <= |card.sectors|
      invariant SameOutside(old(card.sectors), card.sectors, block, k)
      invariant old(card.history) <= card.history
      invariant PastOutside(old(card.sectors), card.history, |old(card.history)|, block, count)
      invariant forall q :: block <= q < block + k ==>
                  card.sectors[q] == data[512 * (q - block)..512 * (q - block) + 512]
    {
      var _ :- card.WriteBlock(block + k, data[512 * k..512 * k + 512]);
    }
    return Ok(Unit);
  }

  /** Sectors `base..base + n` hold the sectors of `data` from sector `j` on. */
  ghost predicate SectorsHold(d: Disk, base: nat, n: nat, data: seq<byte>, j: nat) {
    && base + n <= |d|
    && forall q :: base <= q < base + n ==> d[q] == DataSector(data, j + q - base)
  }

  /** The full sectors of one cluster, in one call. */
  method WriteFull(card: Card, baseSector: nat, data: seq<byte>, pos: nat, fullSectors: nat, ghost j: nat)
    returns (r: Result<Unit>)
    requires card.Valid() && 0 < fullSectors && pos == 512 * j && 512 * (j + fullSectors) <= |data|
    modifies card
    ensures card.Valid() && SameOutside(old(card.sectors), card.sectors, baseSector, fullSectors)
    ensures old(card.history) <= card.history
    ensures PastOutside(old(card.sectors), card.history, |old(card.history)|, baseSector, fullSectors)
    ensures r.Err? ==> r.error == Io
    ensures r.Ok? ==> SectorsHold(card.sectors, baseSector, fullSectors, data, j)
  {
    hide PastOutside;
    var part := data[pos..pos + fullSectors * 512];
    r := WriteMulti(card, baseSector, part, fullSectors);
    if r.Ok? {
      FullSectors(card.sectors, baseSector, data, part, fullSectors, j);
    }
  }

  lemma {:induction false} FullSectors(d: Disk, base: nat, data: seq<byte>, part: seq<byte>, n: nat, j: nat)
    requires 0 < n && 512 * (j + n) <= |data| && part == data[512 * j..512 * (j + n)] && base + n <= |d|
    requires forall q :: base <= q < base + n ==> d[q] == part[512 * (q - base)..512 * (q - base) + 512]
    ensures SectorsHold(d, base, n, data, j)
  {
    forall q | base <= q < base + n
      ensures d[q] == DataSector(data, j + q - base)
    {
      var k := q - base;
      assert 512 * k + 512 <= 512 * n;
      SliceOfSlice(data, 512 * j, 512 * (j + n), 512 * k, 512 * k + 512);
      assert 512 * j + 512 * k == 512 * (j + k);
    }
  }

  lemma {:induction false} SliceOfSlice(s: seq<byte>, a: nat, b: nat, c: nat, d: nat)
    requires a <= b <= |s| && c <= d <= b - a
    ensures s[a..b][c..d] == s[a + c..a + d]
  {
    assert forall i :: 0 <= i < d - c ==> s[a..b][c..d][i] == s[a + c..a + d][i];
  }

  /** The sector of `data` at `pos`, zero-filled. */
  method FillSector(data: seq<byte>, pos: nat, chunk: nat, ghost j: nat) returns (sectorBuf: Sector)
    requires pos == 512 * j < |data|
    requires chunk == (if |data| - pos < 512 then |data| - pos else 512)
    ensures sectorBuf == DataSector(data, j)
  {
    sectorBuf := Patch(ZeroSector(), 0, data[pos..pos + chunk]);
  }

  lemma PastTheEnd(data: seq<byte>, j: nat)
    requires |data| <= 512 * j
    ensures DataSector(data, j) == ZeroSector()
  {
  }

  lemma NoPast(d: Disk, history: seq<Disk>, base: nat)
    ensures PastOutside(d, history, |history|, base, 0)
  {
  }

  lemma {:induction false} PastInCluster(d: Disk, history: seq<Disk>, from: nat, f: Info, c: nat, n: nat)
    requires PastOutside(d, history, from, ClusterToSector(f, c), n) && n <= f.sectorsPerCluster
    ensures PastIn(d, history, from, f, [c])
  {
    assert c in [c];
  }

  /** The sectors of a cluster after its full ones: the partial sector, if there is one, and the zero fill. */
  method WriteRest(card: Card, baseSector: nat, spc: nat, data: seq<byte>, pos0: nat, fullSectors: nat, ghost j: nat)
    returns (r: Result<nat>)
    requires card.Valid() && fullSectors <= spc
    requires fullSectors > 0 ==> SectorsHold(card.sectors, baseSector, fullSectors, data, j)
    requires pos0 == 512 * (j + fullSectors) <= |data|
    modifies card
    ensures card.Valid() && SameOutside(old(card.sectors), card.sectors, baseSector, spc)
    ensures old(card.history) <= card.history
    ensures PastOutside(old(card.sectors), card.history, |old(card.history)|, baseSector, spc)
    ensures r.Err? ==> r.error == Io
    ensures r.Ok? ==>
              && (spc > 0 ==> SectorsHold(card.sectors, baseSector, spc, data, j))
              && r.value == (if |data| < 512 * (j + spc) then |data| else 512 * (j + spc))
  {
    hide DataSector;
    var pos := pos0;
    var remaining := |data| - pos0;
    for s := fullSectors to spc
      invariant card.Valid() && SameOutside(old(card.sectors), card.sectors, baseSector, spc)
      invariant old(card.history) <= card.history
      invariant PastOutside(old(card.sectors), card.history, |old(card.history)|, baseSector, spc)
      invariant s > 0 ==> SectorsHold(card.sectors, baseSector, s, data, j)
      invariant 0 <= remaining && pos + remaining == |data|
      invariant pos == if |data| < 512 * (j + s) then |data| else 512 * (j + s)
    {
      if remaining == 0 {
        PastTheEnd(data, j + s);
        var _ :- card.WriteBlock(baseSector + s, ZeroSector());
        continue;
      }
      var chunk := if remaining >= 512 then 512 else remaining;
      var sectorBuf := FillSector(data, pos, chunk, j + s);
      var _ :- card.WriteBlock(baseSector + s, sectorBuf);
      pos := pos + chunk;
      remaining := remaining - chunk;
    }
    return Ok(pos);
  }

  /** Two writes inside a cluster, one after the other. */
  lemma {:induction false} PastOn(d: Disk, e: Disk, h: seq<Disk>, history: seq<Disk>, from: nat, f: Info, c: nat,
          n: nat)
    requires n <= f.sectorsPerCluster
    requires PastOutside(d, h, from, ClusterToSector(f, c), n) && SameOutside(d, e, ClusterToSector(f, c), n)
    requires h <= history && PastOutside(e, history, |h|, ClusterToSector(f, c), f.sectorsPerCluster)
    ensures PastIn(d, history, from, f, [c])
  {
    hide ClusterToSector;
    assert c in [c];
    forall i | from <= i < |history|
      ensures OnlyIn(d, history[i], f, [c])
    {
      if i < |h| {
        assert history[i] == h[i];
      }
    }
  }

  /** One cluster of a file: its full sectors at once, then the partial sector and the zero fill. */
  method WriteCluster(card: Card, f: Info, cluster: nat, data: seq<byte>, pos0: nat, ghost j: nat)
    returns (r: Result<nat>)
    requires card.Valid() && pos0 == 512 * j < |data| && 0 < f.sectorsPerCluster
    modifies card
    ensures card.Valid() && OnlyIn(old(card.sectors), card.sectors, f, [cluster])
    ensures old(card.history) <= card.history
    ensures PastIn(old(card.sectors), card.history, |old(card.history)|, f, [cluster])
    ensures r.Err? ==> r.error == Io
    ensures r.Ok? ==>
              && ClusterHolds(card.sectors, f, cluster, data, j)
              && r.value == (if |data| < 512 * (j + f.sectorsPerCluster) then |data| else 512 * (j + f.sectorsPerCluster))
  {
    hide ClusterToSector, DataSector, PastOutside, PastIn;
    var pos := pos0;
    var remaining := |data| - pos0;
    var spc := f.sectorsPerCluster;
    ghost var d, from := card.sectors, |card.history|;
    var baseSector := ClusterToSector(f, cluster);
    assert cluster in [cluster];
    NoPast(d, card.history, baseSector);
    var fullSectors := if remaining / 512 < spc then remaining / 512 else spc;
    if fullSectors >= 1 {
      var full := WriteFull(card, baseSector, data, pos, fullSectors, j);
      PastInCluster(d, card.history, from, f, cluster, fullSectors);
      var _ :- full;
      pos := pos + fullSectors * 512;
    }
    ghost var e, h := card.sectors, card.history;
    r := WriteRest(card, baseSector, spc, data, pos, fullSectors, j);
    PastOn(d, e, h, card.history, from, f, cluster, fullSectors);
  }

  /** A chain of exactly the clusters `data` needs, all on the card. */
  ghost predicate FitsChain(d: Disk, f: Info, chain: seq<nat>, data: seq<byte>) {
    && WellFormed(f, |d|)
    && IsChain(Fat(d, f, 0), chain)
    && (forall k :: 0 <= k < |chain| ==> OnCard(f, chain[k]))
    && 512 * FirstSector(f, |chain| - 1) < |data| <= 512 * FirstSector(f, |chain|)
  }

  ghost predicate HoldsUpTo(d: Disk, f: Info, chain: seq<nat>, data: seq<byte>, n: nat)
    requires n <= |chain|
  {
    forall k :: 0 <= k < n ==> ClusterHolds(d, f, chain[k], data, FirstSector(f, k))
  }

  /** Writing cluster `n` leaves the clusters before it, and every FAT entry. */
  lemma {:induction false} ClusterWritten(d0: Disk, d: Disk, e: Disk, f: Info, chain: seq<nat>, data: seq<byte>, n: nat)
    requires FitsChain(d0, f, chain, data) && n < |chain|
    requires OnlyIn(d0, d, f, chain) && OnlyIn(d, e, f, [chain[n]])
    ensures OnlyIn(d0, e, f, chain)
    ensures HoldsUpTo(d, f, chain, data, n) ==> HoldsUpTo(e, f, chain, data, n)
    ensures Fat(e, f, 0) == Fat(d0, f, 0)
  {
    assert chain[n] in chain;
    FatKept(d0, e, f, chain);
    if HoldsUpTo(d, f, chain, data, n) {
      forall k | 0 <= k < n
        ensures ClusterHolds(e, f, chain[k], data, FirstSector(f, k))
      {
        ChainIsAcyclic(Fat(d0, f, 0), chain, k, n);
        HeldKept(d, e, f, chain[n], chain[k], data, FirstSector(f, k));
      }
    }
  }

  lemma {:induction false} HeldKept(d: Disk, e: Disk, f: Info, written: nat, c: nat, data: seq<byte>, j: nat)
    requires WellFormed(f, |d|) && OnCard(f, written) && OnCard(f, c) && written != c
    requires OnlyIn(d, e, f, [written]) && ClusterHolds(d, f, c, data, j)
    ensures ClusterHolds(e, f, c, data, j)
  {
    hide WellFormed, ClusterToSector, OnCard, DataSector;
    ClusterKept(d, e, f, |d|, written, c);
    var base := ClusterToSector(f, c);
    forall q | base <= q < base + f.sectorsPerCluster
      ensures e[q] == DataSector(data, j + q - base)
    {
      assert InCluster(f, c, q);
    }
  }

  /** Writing one cluster leaves the sectors of another. */
  lemma {:induction false} ClusterKept(d: Disk, e: Disk, f: Info, size: nat, written: nat, c: nat)
    requires WellFormed(f, size) && OnCard(f, written) && OnCard(f, c) && written != c && |d| == size
    requires OnlyIn(d, e, f, [written])
    ensures forall q: nat :: InCluster(f, c, q) && q < |d| ==> e[q] == d[q]
  {
    hide WellFormed, ClusterToSector, OnCard;
    forall q: nat | InCluster(f, c, q) && q < |d|
      ensures e[q] == d[q]
    {
      if InCluster(f, written, q) {
        ClustersDisjoint(f, size, written, c, q - ClusterToSector(f, written), q - ClusterToSector(f, c));
      }
    }
  }

  /** Writes inside data clusters touch no FAT. */
  lemma {:induction false} FatKept(d: Disk, e: Disk, f: Info, cs: seq<nat>)
    requires WellFormed(f, |d|) && (forall k :: 0 <= k < |cs| ==> OnCard(f, cs[k])) && OnlyIn(d, e, f, cs)
    ensures Fat(e, f, 0) == Fat(d, f, 0) && Nibbles(e, f, 0) == Nibbles(d, f, 0)
    ensures f.numFats == 2 ==> Fat(e, f, 1) == Fat(d, f, 1) && Nibbles(e, f, 1) == Nibbles(d, f, 1)
  {
    forall s | f.fatStart <= s < f.dataStart
      ensures d[s] == e[s]
    {
      forall c | c in cs
        ensures !InCluster(f, c, s)
      {
        var k :| 0 <= k < |cs| && cs[k] == c;
        ClusterIsBehindFats(f, |d|, c);
      }
    }
    FatUnchanged(d, e, f, 0);
    if f.numFats == 2 {
      FatUnchanged(d, e, f, 1);
    }
  }

  /** Where the data loop stands: `k` clusters are filled, `cluster` is the next, `pos` bytes are written. */
  ghost predicate Filled(d0: Disk, d: Disk, f: Info, chain: seq<nat>, data: seq<byte>, k: nat, cluster: nat, pos: nat) {
    && FitsChain(d0, f, chain, data)
    && OnlyIn(d0, d, f, chain) && Fat(d, f, 0) == Fat(d0, f, 0)
    && k <= |chain| && (pos < |data| && k < |chain| ==> cluster == chain[k])
    && HoldsUpTo(d, f, chain, data, k)
    && pos == (if |data| < 512 * FirstSector(f, k) then |data| else 512 * FirstSector(f, k))
  }

  lemma {:induction false} FillStart(d: Disk, f: Info, chain: seq<nat>, data: seq<byte>)
    requires FitsChain(d, f, chain, data)
    ensures Filled(d, d, f, chain, data, 0, chain[0], 0) && 0 < f.sectorsPerCluster
  {
    FirstSectorNext(f, 0);
  }

  /** While bytes are left there is a next cluster of the chain. */
  lemma {:induction false} FillMore(d0: Disk, d: Disk, f: Info, chain: seq<nat>, data: seq<byte>, k: nat,
          cluster: nat, pos: nat)
    requires Filled(d0, d, f, chain, data, k, cluster, pos) && pos < |data|
    ensures k < |chain| && cluster == chain[k] && IsData(cluster) && pos == 512 * FirstSector(f, k)
  {
    hide Fat, HoldsUpTo, OnlyIn, FirstSector;
  }

  lemma {:induction false} FillNext(d0: Disk, d: Disk, e: Disk, f: Info, chain: seq<nat>, data: seq<byte>, k: nat,
          cluster: nat,
          pos: nat, next: nat)
    requires Filled(d0, d, f, chain, data, k, cluster, pos) && k < |chain|
    requires OnlyIn(d, e, f, [chain[k]]) && ClusterHolds(e, f, chain[k], data, FirstSector(f, k))
    requires pos == 512 * FirstSector(f, k)
    requires k + 1 < |chain| ==> next == chain[k + 1]
    ensures
      var end := 512 * (FirstSector(f, k) + f.sectorsPerCluster);
      Filled(d0, e, f, chain, data, k + 1, next, if |data| < end then |data| else end)
  {
    ClusterWritten(d0, d, e, f, chain, data, k);
    FirstSectorNext(f, k);
    hide Fat, OnlyIn, FirstSector, ClusterHolds;
  }

  lemma {:induction false} FillOnlyIn(d0: Disk, d: Disk, e: Disk, f: Info, chain: seq<nat>, data: seq<byte>, k: nat,
          cluster: nat,
          pos: nat)
    requires Filled(d0, d, f, chain, data, k, cluster, pos) && k < |chain| && OnlyIn(d, e, f, [chain[k]])
    ensures OnlyIn(d0, e, f, chain) && |e| == |d0|
  {
    ClusterWritten(d0, d, e, f, chain, data, k);
  }

  /** What the card passed through while cluster `k` was written. */
  lemma {:induction false} FillPast(d0: Disk, d: Disk, h: seq<Disk>, history: seq<Disk>, from: nat, f: Info,
          chain: seq<nat>,
          data: seq<byte>,
                 k: nat, cluster: nat, pos: nat)
    requires Filled(d0, d, f, chain, data, k, cluster, pos) && k < |chain|
    requires h <= history && PastIn(d0, h, from, f, chain) && PastIn(d, history, |h|, f, [chain[k]])
    ensures PastIn(d0, history, from, f, chain)
  {
    forall i | from <= i < |history|
      ensures OnlyIn(d0, history[i], f, chain)
    {
      if i < |h| {
        assert history[i] == h[i];
      } else {
        FillOnlyIn(d0, d, history[i], f, chain, data, k, cluster, pos);
      }
    }
  }

  /** The FAT names the next cluster of the chain, if there is one. */
  lemma {:induction false} FillLink(d0: Disk, d: Disk, f: Info, chain: seq<nat>, data: seq<byte>, k: nat,
          cluster: nat, pos: nat, e: Disk)
    requires Filled(d0, d, f, chain, data, k, cluster, pos) && k + 1 < |chain| && OnlyIn(d, e, f, [chain[k]])
    ensures NextOf(e, f, chain[k]) == Ok(chain[k + 1]) && chain[k + 1] != chain[k] && chain[k + 1] != chain[0]
  {
    ClusterWritten(d0, d, e, f, chain, data, k);
    LinkRead(d0, e, f, chain, k);
  }

  lemma {:induction false} FillMiddle(f: Info, d: Disk, chain: seq<nat>, data: seq<byte>, k: nat)
    requires FitsChain(d, f, chain, data) && k < |chain| && 512 * (FirstSector(f, k) + f.sectorsPerCluster) < |data|
    ensures k + 1 < |chain|
  {
    FirstSectorNext(f, k);
    hide FirstSector;
  }

  lemma {:induction false} FillDone(d0: Disk, d: Disk, f: Info, chain: seq<nat>, data: seq<byte>, k: nat,
          cluster: nat, pos: nat)
    requires Filled(d0, d, f, chain, data, k, cluster, pos) && pos == |data|
    ensures OnlyIn(d0, d, f, chain) && Holds(d, f, chain, data)
  {
    if k < |chain| {
      FirstSectorMono(f, k, |chain| - 1);
    }
  }

  /** The data loop of the create: walk the new chain and fill each cluster. */
  method WriteData(card: Card, f: Info, firstCluster: nat, data: seq<byte>, ghost chain: seq<nat>)
    returns (r: Result<Unit>)
    requires card.Valid() && FitsChain(card.sectors, f, chain, data) && chain[0] == firstCluster
    modifies card
    ensures card.Valid() && OnlyIn(old(card.sectors), card.sectors, f, chain)
    ensures old(card.history) <= card.history
    ensures PastIn(old(card.sectors), card.history, |old(card.history)|, f, chain)
    ensures r.Err? ==> r.error == Io
    ensures r.Ok? ==> Holds(card.sectors, f, chain, data)
  {
    ghost var d0, from := card.sectors, |card.history|;
    FillStart(d0, f, chain, data);
    OnlyInRefl(d0, f, chain);
    hide ClusterToSector, ClusterHolds, NextOf, OnlyIn, FirstSector, Filled, FitsChain;
    ghost var k: nat := 0;
    var cluster := firstCluster;
    var remaining := |data|;
    var pos := 0;
    while remaining > 0 && 2 <= cluster < 0x0FFF_FFF8
      invariant card.Valid() && 0 <= remaining && pos + remaining == |data|
      invariant OnlyIn(d0, card.sectors, f, chain)
      invariant old(card.history) <= card.history && PastIn(d0, card.history, from, f, chain)
      invariant Filled(d0, card.sectors, f, chain, data, k, cluster, pos)
      decreases remaining
    {
      FillMore(d0, card.sectors, f, chain, data, k, cluster, pos);
      ghost var d, c, h := card.sectors, cluster, card.history;
      var written := WriteCluster(card, f, cluster, data, pos, FirstSector(f, k));
      FillOnlyIn(d0, d, card.sectors, f, chain, data, k, c, pos);
      FillPast(d0, d, h, card.history, from, f, chain, data, k, c, pos);
      ghost var was := pos;
      pos :- written;
      remaining := |data| - pos;
      if remaining > 0 {
        FillMiddle(f, d0, chain, data, k);
        FillLink(d0, d, f, chain, data, k, c, was, card.sectors);
        var next :- ReadFatEntry(card, f, cluster);
        if next == cluster || next == firstCluster {
          // The original refuses a chain that loops; the allocator's does not.
          assert false;
        }
        cluster := next;
      }
      FillNext(d0, d, card.sectors, f, chain, data, k, c, was, if k + 1 < |chain| then chain[k + 1] else 0);
      AnyCluster(d0, card.sectors, f, chain, data, k + 1, if k + 1 < |chain| then chain[k + 1] else 0, cluster, pos);
      k := k + 1;
    }
    if remaining > 0 {
      FillMore(d0, card.sectors, f, chain, data, k, cluster, pos);
    }
    FillDone(d0, card.sectors, f, chain, data, k, cluster, pos);
    return Ok(Unit);
  }

  lemma AnyCluster(d0: Disk, d: Disk, f: Info, chain: seq<nat>, data: seq<byte>, k: nat, c: nat, cluster: nat, pos: nat)
    requires Filled(d0, d, f, chain, data, k, c, pos)
    requires pos < |data| ==> cluster == c
    ensures Filled(d0, d, f, chain, data, k, cluster, pos)
  {
  }

  lemma OnlyInSize(d: Disk, e: Disk, f: Info, cs: seq<nat>)
    requires OnlyIn(d, e, f, cs)
    ensures |e| == |d|
  {
  }

  /** The FAT still answers with the next cluster of the chain, which is new to the walk. */
  lemma {:induction false} LinkRead(d0: Disk, d: Disk, f: Info, chain: seq<nat>, k: nat)
    requires WellFormed(f, |d0|) && |d| == |d0| && IsChain(Fat(d0, f, 0), chain) && Fat(d, f, 0) == Fat(d0, f, 0)
    requires k + 1 < |chain|
    ensures NextOf(d, f, chain[k]) == Ok(chain[k + 1])
    ensures chain[k + 1] != chain[k] && chain[k + 1] != chain[0]
  {
    var t := Fat(d0, f, 0);
    NextOfTable(d, f, chain[k]);
    assert t[chain[k]] == chain[k + 1];
    ChainIsAcyclic(t, chain, k, k + 1);
    ChainIsAcyclic(t, chain, 0, k + 1);
  }

  lemma OnlyInRefl(d: Disk, f: Info, cs: seq<nat>)
    ensures OnlyIn(d, d, f, cs)
  {
  }
}
