/** Reading what was written, and what keeps a file's contents. */
module Fat32Files {
  import opened Bytes
  import opened Fat32Card
  import opened Fat32Layout
  import opened Fat32Tables
  import opened Fat32Alloc
  import opened Fat32Dir
  import opened Fat32Root
  import opened Fat32Read
  import opened Fat32Write

  // ---- write, then read ----

  /** How many of `n` sectors' bytes from sector `j` on belong to `data`. */
  function BytesIn(data: seq<byte>, j: nat, n: nat): (m: nat)
    requires 512 * j <= |data|
    ensures m <= 512 * n && 512 * j + m <= |data|
    ensures m == 512 * n || 512 * j + m == |data|
  {
    if |data| - 512 * j < 512 * n then |data| - 512 * j else 512 * n
  }

  lemma DataSectorPrefix(data: seq<byte>, k: nat, n: nat)
    requires n <= 512 && 512 * k + n <= |data|
    ensures DataSector(data, k)[..n] == data[512 * k..512 * k + n]
  {
  }

  /** The bytes of sectors that hold `data` from sector `j` on are the bytes of `data` from there. */
  lemma {:induction false} BytesOfHeld(d: Disk, base: nat, n: nat, data: seq<byte>, j: nat)
    requires SectorsHold(d, base, n, data, j) && 512 * j <= |data|
    ensures SectorBytes(d, base, n)[..BytesIn(data, j, n)] == data[512 * j..512 * j + BytesIn(data, j, n)]
  {
    hide DataSector;
    if n > 0 {
      var m, m1 := BytesIn(data, j, n), BytesIn(data, j, n - 1);
      BytesOfHeld(d, base, n - 1, data, j);
      assert d[base + n - 1] == DataSector(data, j + n - 1);
      if m > m1 {
        assert m1 == 512 * (n - 1);
        DataSectorPrefix(data, j + n - 1, m - m1);
        OneMoreSector(d, base, n - 1, m - m1);
        WholePrefix(SectorBytes(d, base, n - 1));
        assert data[512 * j..512 * j + m] == data[512 * j..512 * j + m1] + data[512 * j + m1..512 * j + m];
      } else {
        assert SectorBytes(d, base, n)[..m] == SectorBytes(d, base, n - 1)[..m];
      }
    }
  }

  /** A chain that holds `data` reads back as `data`. */
  lemma {:induction false} ReadBack(d: Disk, f: Info, chain: seq<nat>, data: seq<byte>)
    requires FitsChain(d, f, chain, data) && Holds(d, f, chain, data)
    ensures |chain| > 0 && 0 < f.sectorsPerCluster && ReadFrom(d, f, chain[0], chain[0], |data|) == Ok(data)
  {
    FitsSome(d, f, chain, data);
    assert FirstSector(f, 0) == 0;
    hide *;
    ReadBackFrom(d, f, chain, data, 0);
    assert data[0..] == data;
  }

  lemma FitsSome(d: Disk, f: Info, chain: seq<nat>, data: seq<byte>)
    requires FitsChain(d, f, chain, data)
    ensures |chain| > 0 && 0 < f.sectorsPerCluster && 512 * FirstSector(f, |chain| - 1) < |data|
    ensures data != []
  {
  }

  /** One cluster of a read. */
  lemma {:induction false} ReadUnfold(d: Disk, f: Info, cluster: nat, first: nat, remaining: nat)
    requires 0 < f.sectorsPerCluster && 0 < remaining && IsData(cluster)
    requires ClusterToSector(f, cluster) + SectorsNeeded(f, remaining) <= |d|
    ensures
      var got := SectorBytes(d, ClusterToSector(f, cluster), SectorsNeeded(f, remaining));
      var next := NextOf(d, f, cluster);
      && (remaining <= |got| ==> ReadFrom(d, f, cluster, first, remaining) == Ok(got[..remaining]))
      && (remaining > |got| && next.Ok? && next.value != cluster && next.value != first ==>
            ReadFrom(d, f, cluster, first, remaining)
                == Prepend(got, ReadFrom(d, f, next.value, first, remaining - |got|)))
  {
    hide ClusterToSector, SectorsNeeded, SectorBytes, NextOf, Prepend;
  }

  /** Cluster `k` of a chain that holds `data` is on the card and holds the data from there on. */
  lemma HeldCluster(d: Disk, f: Info, chain: seq<nat>, data: seq<byte>, k: nat)
    requires FitsChain(d, f, chain, data) && Holds(d, f, chain, data) && k < |chain|
    ensures 0 < f.sectorsPerCluster && IsData(chain[k])
    ensures ClusterHolds(d, f, chain[k], data, FirstSector(f, k))
  {
  }

  lemma {:induction false} HeldFrom(d: Disk, f: Info, c: nat, data: seq<byte>, j: nat, n: nat)
    requires ClusterHolds(d, f, c, data, j) && 512 * j < |data| && n == SectorsNeeded(f, |data| - 512 * j)
    ensures ClusterToSector(f, c) + n <= |d|
    ensures SectorBytes(d, ClusterToSector(f, c), n)[..BytesIn(data, j, n)]
              == data[512 * j..512 * j + BytesIn(data, j, n)]
  {
    hide ClusterToSector, DataSector, SectorBytes, BytesIn;
    BytesOfHeld(d, ClusterToSector(f, c), n, data, j);
  }

  lemma {:induction false} ReadBackFrom(d: Disk, f: Info, chain: seq<nat>, data: seq<byte>, k: nat)
    requires FitsChain(d, f, chain, data) && Holds(d, f, chain, data) && k < |chain|
    requires 512 * FirstSector(f, k) < |data|
    ensures 0 < f.sectorsPerCluster
    ensures ReadFrom(d, f, chain[k], chain[0], |data| - 512 * FirstSector(f, k)) == Ok(data[512 * FirstSector(f, k)..])
    decreases |chain| - k
  {
    hide FirstSector, ClusterToSector, ClusterHolds, SectorBytes, NextOf, Fat, WellFormed, MaxCluster, IsChain,
         ReadFrom, Holds, BytesIn;
    var j := FirstSector(f, k);
    var off := 512 * j;
    var remaining := |data| - off;
    var n := SectorsNeeded(f, remaining);
    HeldCluster(d, f, chain, data, k);
    HeldFrom(d, f, chain[k], data, j, n);
    FirstSectorNext(f, k);
    ReadUnfold(d, f, chain[k], chain[0], remaining);
    var got := SectorBytes(d, ClusterToSector(f, chain[k]), n);
    if remaining > |got| {
      assert got[..|got|] == got;
      LinkRead(d, d, f, chain, k);
      ReadBackFrom(d, f, chain, data, k + 1);
      assert data[off..] == data[off..off + |got|] + data[off + |got|..];
    } else {
      assert BytesIn(data, j, n) == remaining;
      assert data[off..off + remaining] == data[off..];
    }
  }

  // ---- the chain and contents of an entry ----

  /** The clusters of a directory entry's file. */
  ghost function ChainOf(d: Disk, f: Info, e: DirEntry): seq<nat>
    requires WellFormed(f, |d|)
  {
    Walk(Fat(d, f, 0), e.FirstCluster())
  }

  /** An entry without clusters is empty; any other names a whole chain on the card, long enough for its size. */
  ghost predicate FileOk(d: Disk, f: Info, e: DirEntry) {
    && WellFormed(f, |d|)
    && var chain := ChainOf(d, f, e);
       if e.FirstCluster() == 0 then e.fileSize == 0
       else
         && IsChain(Fat(d, f, 0), chain)
         && chain[0] == e.FirstCluster()
         && (forall k :: 0 <= k < |chain| ==> OnCard(f, chain[k]))
         && e.fileSize <= 512 * FirstSector(f, |chain|)
  }

  /** The entries and the sectors of the clusters `cs` are the same on both cards. */
  ghost predicate ClustersKept(d: Disk, e: Disk, f: Info, cs: seq<nat>)
    requires WellFormed(f, |d|)
  {
    && |e| == |d|
    && (forall c :: c in cs && c < 128 * f.fatSize ==> Fat(e, f, 0)[c] == Fat(d, f, 0)[c])
    && (forall c, q: nat :: c in cs && InCluster(f, c, q) && q < |d| ==> e[q] == d[q])
  }

  lemma {:induction false} SectorBytesSame(d: Disk, e: Disk, base: nat, n: nat)
    requires |d| == |e| && base + n <= |d| && forall q :: base <= q < base + n ==> d[q] == e[q]
    ensures SectorBytes(d, base, n) == SectorBytes(e, base, n)
  {
    if n > 0 {
      SectorBytesSame(d, e, base, n - 1);
    }
  }

  /** A read step over equal sectors and an equal entry is the same read step. */
  lemma {:induction false} ReadSame(d: Disk, e: Disk, f: Info, c: nat, first: nat, remaining: nat)
    requires |d| == |e| && 0 < f.sectorsPerCluster && NextOf(d, f, c) == NextOf(e, f, c)
    requires forall q: nat :: InCluster(f, c, q) && q < |d| ==> e[q] == d[q]
    requires
      var next := NextOf(d, f, c);
      var left := remaining - 512 * SectorsNeeded(f, remaining);
      next.Ok? && left > 0 ==> ReadFrom(e, f, next.value, first, left) == ReadFrom(d, f, next.value, first, left)
    ensures ReadFrom(e, f, c, first, remaining) == ReadFrom(d, f, c, first, remaining)
  {
    hide ClusterToSector, SectorBytes, NextOf, SectorsNeeded, Prepend;
    var n := SectorsNeeded(f, remaining);
    var base := ClusterToSector(f, c);
    if base + n <= |d| {
      forall q: nat | base <= q < base + n
        ensures d[q] == e[q]
      {
        assert InCluster(f, c, q);
      }
      SectorBytesSame(d, e, base, n);
    }
  }

  /** The entry of a kept cluster, on both cards. */
  lemma {:induction false} KeptLink(d: Disk, e: Disk, f: Info, chain: seq<nat>, k: nat)
    requires WellFormed(f, |d|) && IsChain(Fat(d, f, 0), chain) && ClustersKept(d, e, f, chain) && k < |chain|
    ensures 0 < f.sectorsPerCluster
    ensures NextOf(e, f, chain[k]) == NextOf(d, f, chain[k])
    ensures k + 1 < |chain| ==> NextOf(d, f, chain[k]) == Ok(chain[k + 1])
    ensures k + 1 == |chain| ==> NextOf(d, f, chain[k]).Ok? && !IsData(NextOf(d, f, chain[k]).value)
  {
    var c := chain[k];
    assert c in chain && IsData(c) && c < 128 * f.fatSize;
    assert k + 1 < |chain| ==> Fat(d, f, 0)[c] == chain[k + 1];
    NextOfTable(d, f, c);
    NextOfTable(e, f, c);
  }

  /** A walk along a kept chain reads the same, however many bytes are asked for. */
  lemma {:induction false} ReadKept(d: Disk, e: Disk, f: Info, chain: seq<nat>, k: nat, remaining: nat)
    requires WellFormed(f, |d|) && IsChain(Fat(d, f, 0), chain) && ClustersKept(d, e, f, chain) && k < |chain|
    ensures 0 < f.sectorsPerCluster
    ensures ReadFrom(e, f, chain[k], chain[0], remaining) == ReadFrom(d, f, chain[k], chain[0], remaining)
    decreases |chain| - k
  {
    KeptLink(d, e, f, chain, k);
    var left := remaining - 512 * SectorsNeeded(f, remaining);
    if left > 0 {
      if k + 1 < |chain| {
        ReadKept(d, e, f, chain, k + 1, left);
      } else {
        ReadEnds(d, e, f, NextOf(d, f, chain[k]).value, chain[0], left);
      }
    }
    hide ReadFrom, NextOf, IsChain, Fat, WellFormed, SectorsNeeded, ClusterToSector;
    assert chain[k] in chain;
    ReadSame(d, e, f, chain[k], chain[0], remaining);
  }

  lemma ReadEnds(d: Disk, e: Disk, f: Info, cluster: nat, first: nat, remaining: nat)
    requires 0 < f.sectorsPerCluster && !IsData(cluster)
    ensures ReadFrom(e, f, cluster, first, remaining) == ReadFrom(d, f, cluster, first, remaining)
  {
  }

  /** Whatever else happens to the card, an entry whose clusters are kept keeps its chain and its contents. */
  lemma {:induction false} FileKept(d: Disk, e: Disk, f: Info, entry: DirEntry)
    requires FileOk(d, f, entry) && ClustersKept(d, e, f, ChainOf(d, f, entry))
    ensures FileOk(e, f, entry)
    ensures ChainOf(e, f, entry) == ChainOf(d, f, entry)
    ensures 0 < f.sectorsPerCluster && Contents(e, f, entry) == Contents(d, f, entry)
  {
    var chain := ChainOf(d, f, entry);
    if entry.FirstCluster() != 0 {
      hide Fat, ClusterToSector;
      var t, u := Fat(d, f, 0), Fat(e, f, 0);
      forall c | c in chain
        ensures u[c] == t[c]
      {
        var i :| 0 <= i < |chain| && chain[i] == c;
      }
      ChainKept(t, u, chain);
      WalkOfChain(u, chain);
      ReadKept(d, e, f, chain, 0, entry.fileSize);
    }
  }

  /** A file that is well formed can be read. */
  lemma {:induction false} FileReads(d: Disk, f: Info, entry: DirEntry)
    requires FileOk(d, f, entry)
    ensures 0 < f.sectorsPerCluster && Contents(d, f, entry).Ok?
  {
    if entry.FirstCluster() != 0 {
      FirstSectorNext(f, 0);
      ChainReads(d, f, ChainOf(d, f, entry), 0, entry.fileSize);
    }
  }

  lemma {:induction false} ChainReads(d: Disk, f: Info, chain: seq<nat>, k: nat, remaining: nat)
    requires WellFormed(f, |d|) && IsChain(Fat(d, f, 0), chain) && k < |chain|
    requires forall i :: 0 <= i < |chain| ==> OnCard(f, chain[i])
    requires 512 * FirstSector(f, k) + remaining <= 512 * FirstSector(f, |chain|)
    ensures ReadFrom(d, f, chain[k], chain[0], remaining).Ok?
    decreases |chain| - k
  {
    var n := SectorsNeeded(f, remaining);
    ClusterSectors(f, |d|, chain[k]);
    assert IsData(chain[k]) && 0 < f.sectorsPerCluster;
    FirstSectorNext(f, k);
    hide FirstSector, ClusterToSector, SectorBytes, NextOf, Fat, WellFormed;
    if remaining > 512 * n {
      assert k + 1 < |chain|;
      LinkRead(d, d, f, chain, k);
      ChainReads(d, f, chain, k + 1, remaining - 512 * n);
    }
  }
}
