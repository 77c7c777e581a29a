/** FAT entry I/O, the one-cluster allocator and the batched chain allocator. */
module Fat32Alloc {
  import opened Bytes
  import opened Fat32Card
  import opened Fat32Layout
  import opened Fat32Tables

  // ---- one entry ----

  method ReadFatEntry(card: Card, f: Info, cluster: nat) returns (r: Result<nat>)
    ensures r == Err(Io) || r == NextOf(card.sectors, f, cluster)
  {
    var (sector, offset) := FatSectorFor(f, cluster);
    var buf :- card.ReadBlock(sector);
    if offset + 3 >= 512 {
      return Err(FatOffsetOutOfRange);
    }
    return Ok(Le32(buf, offset) % 0x1000_0000);
  }

  /** The FAT1 entry of any cluster number, as the card at `d` answers it. */
  function NextOf(d: Disk, f: Info, cluster: nat): (r: Result<nat>)
    ensures r.Err? ==> r.error == Io || r.error == FatOffsetOutOfRange
    ensures r.Ok? ==> r.value < NIBBLE
  {
    var (sector, offset) := FatSectorFor(f, cluster);
    if sector >= |d| then Err(Io)
    else if offset + 3 >= 512 then Err(FatOffsetOutOfRange)
    else Ok(Le32(d[sector], offset) % NIBBLE)
  }

  /** Where the entry of a cluster inside the FAT is, in both copies. */
  lemma {:induction false} EntryPlace(f: Info, size: nat, cluster: nat)
    requires WellFormed(f, size) && cluster < 128 * f.fatSize && cluster < 0x4000_0000
    ensures FatSectorFor(f, cluster) == (f.fatStart + cluster / 128, 4 * (cluster % 128))
    ensures cluster / 128 < f.fatSize
  {
    CopyOnCard(f, size, 0);
  }

  /** The word the FAT reader and the scans look at is the table's entry. */
  lemma {:induction false} EntryRead(d: Disk, f: Info, cluster: nat)
    requires WellFormed(f, |d|) && cluster < 128 * f.fatSize && cluster < 0x4000_0000
    ensures
      var (sector, offset) := FatSectorFor(f, cluster);
      && sector < |d| && sector < U32_MAX && offset + 4 <= 512
      && Le32(d[sector], offset) % NIBBLE == Fat(d, f, 0)[cluster]
  {
    EntryPlace(f, |d|, cluster);
    CopyOnCard(f, |d|, 0);
  }

  lemma {:induction false} NextOfTable(d: Disk, f: Info, cluster: nat)
    requires WellFormed(f, |d|) && cluster < 128 * f.fatSize && cluster < 0x4000_0000
    ensures NextOf(d, f, cluster) == Ok(Fat(d, f, 0)[cluster])
  {
    EntryPlace(f, |d|, cluster);
    CopyOnCard(f, |d|, 0);
  }

  /** Copy `copy` of `e` is copy `copy` of `d` with one entry set; the reserved nibbles are kept. */
  ghost predicate EntrySet(d: Disk, e: Disk, f: Info, copy: nat, cluster: nat, value: nat)
    requires WellFormed(f, |d|) && |d| == |e| && copy < f.numFats && cluster < 128 * f.fatSize
  {
    && Fat(e, f, copy) == Fat(d, f, copy)[cluster := value]
    && Nibbles(e, f, copy) == Nibbles(d, f, copy)
  }

  /** The entry is set in every copy the card has. */
  ghost predicate EntrySetInAll(d: Disk, e: Disk, f: Info, cluster: nat, value: nat)
    requires WellFormed(f, |d|) && |d| == |e| && cluster < 128 * f.fatSize
  {
    && EntrySet(d, e, f, 0, cluster, value)
    && (f.numFats == 2 ==> EntrySet(d, e, f, 1, cluster, value))
  }

  /** Rewriting one word of one FAT sector sets one entry of one copy. */
  lemma {:induction false} SetLowSetsEntry(d: Disk, f: Info, copy: nat, cluster: nat, value: nat)
    requires WellFormed(f, |d|) && copy < f.numFats && cluster < 128 * f.fatSize && value < NIBBLE
    ensures CopyStart(f, copy) + cluster / 128 < |d|
    ensures
      var s := CopyStart(f, copy) + cluster / 128;
      var e := d[s := SetLow(d[s], 4 * (cluster % 128), value)];
      && SameOutsideFats(d, e, f)
      && EntrySet(d, e, f, copy, cluster, value)
      && OtherCopySame(d, e, f, copy)
  {
    hide SetLow, Low, High;
    CopyOnCard(f, |d|, copy);
    var s := CopyStart(f, copy) + cluster / 128;
    var sec := SetLow(d[s], 4 * (cluster % 128), value);
    SetLowWords(d[s], cluster % 128, value);
    FatAfterWrite(d, f, copy, cluster / 128, sec);
    var e := d[s := sec];
    forall c | 0 <= c < 128 * f.fatSize
      ensures Fat(e, f, copy)[c] == Fat(d, f, copy)[cluster := value][c]
      ensures Nibbles(e, f, copy)[c] == Nibbles(d, f, copy)[c]
    {
      assert c == c / 128 * 128 + c % 128;
    }
    assert Fat(e, f, copy) == Fat(d, f, copy)[cluster := value];
    assert Nibbles(e, f, copy) == Nibbles(d, f, copy);
  }

  /** The entry lies in the FAT; a chain on a damaged card may name a cluster whose entry does not. */
  predicate InFat(f: Info, cluster: nat) {
    cluster < 128 * f.fatSize && cluster < 0x4000_0000
  }

  method WriteFatEntry(card: Card, f: Info, cluster: nat, value: nat) returns (r: Result<Unit>)
    requires card.Valid() && WellFormed(f, |card.sectors|)
    requires FatSectorFor(f, cluster).1 + 4 <= 512 && value < NIBBLE
    modifies card
    ensures card.Valid() && |card.sectors| == |old(card.sectors)|
    ensures r.Err? ==> r.error == Io
    ensures InFat(f, cluster) ==>
              && SameOutsideFats(old(card.sectors), card.sectors, f)
              && (r.Ok? ==> EntrySetInAll(old(card.sectors), card.sectors, f, cluster, value))
  {
    hide Fat, Nibbles, SetLow, FatSectorFor, CopyStart, MaxCluster, Le32;
    ghost var d0 := card.sectors;
    if InFat(f, cluster) {
      EntryPlace(f, |d0|, cluster);
      CopyOnCard(f, |d0|, 0);
      SetLowSetsEntry(d0, f, 0, cluster, value);
    }
    var (sector, offset) := FatSectorFor(f, cluster);
    var buf :- card.ReadBlock(sector);
    buf := SetLow(buf, offset, value);
    var _ :- card.WriteBlock(sector, buf);
    if f.numFats > 1 {
      ghost var d1 := card.sectors;
      if InFat(f, cluster) {
        CopyOnCard(f, |d1|, 1);
        SetLowSetsEntry(d1, f, 1, cluster, value);
      }
      var fat2Sector := sector + f.fatSize;
      buf :- card.ReadBlock(fat2Sector);
      buf := SetLow(buf, offset, value);
      var _ :- card.WriteBlock(fat2Sector, buf);
    }
    return Ok(Unit);
  }

  /** The free cluster a cyclic scan of `2..max` from `start` meets first. */
  ghost predicate FirstFrom(t: Table, max: nat, start: nat, c: nat)
    requires max <= |t|
  {
    && c < |t| && t[c] == 0
    && if start <= c
       then forall x :: start <= x < c ==> t[x] != 0
       else (forall x :: start <= x < max ==> t[x] != 0) && (forall x :: 2 <= x < c ==> t[x] != 0)
  }

  method AllocateCluster(card: Card, f: Info, startHint: nat) returns (r: Result<nat>)
    requires card.Valid() && WellFormed(f, |card.sectors|)
    modifies card
    ensures card.Valid() && SameOutsideFats(old(card.sectors), card.sectors, f)
    ensures r.Ok? ==>
              && OnCard(f, r.value)
              && FirstFrom(Fat(old(card.sectors), f, 0), MaxCluster(f), if OnCard(f, startHint) then startHint else 2,
                  r.value)
              && EntrySetInAll(old(card.sectors), card.sectors, f, r.value, EOC)
    ensures r.Err? ==> r.error == Io || r.error == DiskFull
    ensures r == Err(DiskFull) ==>
              && card.sectors == old(card.sectors)
              && forall c | 2 <= c < MaxCluster(f) :: Fat(card.sectors, f, 0)[c] != 0
  {
    hide Fat, Nibbles, EntrySet, FatSectorFor, CopyStart, Le32;
    var maxCluster := MaxCluster(f);
    ghost var d := card.sectors;
    ghost var t := Fat(d, f, 0);
    var buf: Sector := ZeroSector();
    var lastSector := U32_MAX;
    var cluster := if 2 <= startHint < maxCluster then startHint else 2;
    var start := cluster;
    ghost var left := maxCluster - 2;
    while true
      invariant card.Valid() && card.sectors == d
      invariant 2 <= cluster < maxCluster && 2 <= start < maxCluster
      invariant lastSector != U32_MAX ==> 0 <= lastSector < |d| && buf == d[lastSector]
      invariant if start <= cluster
                then (forall x :: start <= x < cluster ==> t[x] != 0) && left == maxCluster - 2 - (cluster - start)
                else && (forall x :: start <= x < maxCluster ==> t[x] != 0)
                     && (forall x :: 2 <= x < cluster ==> t[x] != 0)
                     && left == start - cluster
      decreases left
    {
      EntryRead(d, f, cluster);
      var (sector, offset) := FatSectorFor(f, cluster);
      if sector != lastSector {
        buf :- card.ReadBlock(sector);
        lastSector := sector;
      }
      var entry := Le32(buf, offset);
      if entry % NIBBLE == 0 {
        var _ :- WriteFatEntry(card, f, cluster, 0x0FFF_FFFF);
        return Ok(cluster);
      }
      cluster := cluster + 1;
      left := left - 1;
      if cluster >= maxCluster {
        cluster := 2;
      }
      if cluster == start {
        return Err(DiskFull);
      }
    }
  }

  // ---- the batched allocator ----

  /** All free clusters of FAT1, ascending. */
  function FreeClusters(d: Disk, f: Info): seq<nat>
    requires WellFormed(f, |d|)
  {
    FreeUpTo(Fat(d, f, 0), MaxCluster(f))
  }

  /** The `count` lowest free clusters. */
  function FirstFit(d: Disk, f: Info, count: nat): (chain: seq<nat>)
    requires WellFormed(f, |d|) && count <= |FreeClusters(d, f)|
    ensures |chain| == count
  {
    FreeClusters(d, f)[..count]
  }

  /** First fit picks distinct free clusters on the card, in order, and skips none below its last. */
  lemma {:induction false} FirstFitIsLowest(d: Disk, f: Info, count: nat)
    requires WellFormed(f, |d|) && count <= |FreeClusters(d, f)|
    ensures
      var chain := FirstFit(d, f, count);
      var t := Fat(d, f, 0);
      && Ascending(chain)
      && (forall k :: 0 <= k < count ==> OnCard(f, chain[k]) && t[chain[k]] == 0)
      && (forall c, k :: 0 <= k < count && 2 <= c < chain[k] && t[c] == 0 ==> c in chain)
  {
    var t := Fat(d, f, 0);
    var all := FreeClusters(d, f);
    var chain := FirstFit(d, f, count);
    FreeUpToIsExact(t, MaxCluster(f));
    forall k | 0 <= k < count
      ensures OnCard(f, chain[k]) && t[chain[k]] == 0
    {
      assert all[k] in all;
    }
    forall c, k | 0 <= k < count && 2 <= c < chain[k] && t[c] == 0
      ensures c in chain
    {
      assert c in all;
      var i :| 0 <= i < |all| && all[i] == c;
      assert i < k;
      assert chain[i] == c;
    }
  }

  /** The links of `chain[lo..]` are written in copy `copy`; its reserved nibbles are as before. */
  ghost predicate CopyClaimed(d: Disk, e: Disk, f: Info, chain: seq<nat>, copy: nat, lo: nat)
    requires WellFormed(f, |d|) && |d| == |e| && copy < f.numFats && lo <= |chain|
  {
    && Fat(e, f, copy) == Claim(Fat(d, f, copy), chain, lo)
    && Nibbles(e, f, copy) == Nibbles(d, f, copy)
  }

  /** The links from `lo` on are in FAT1 and those from `lo2` on in FAT2; nothing outside the FATs moved. */
  ghost predicate PartlyClaimed(d: Disk, e: Disk, f: Info, chain: seq<nat>, lo: nat, lo2: nat)
    requires WellFormed(f, |d|) && lo <= |chain| && lo2 <= |chain|
  {
    && SameOutsideFats(d, e, f)
    && CopyClaimed(d, e, f, chain, 0, lo)
    && (f.numFats == 2 ==> CopyClaimed(d, e, f, chain, 1, lo2))
  }

  /** A power loss during the claim of `chain` leaves a card like this: FAT2 trails FAT1, both hold a tail. */
  ghost predicate CrashedClaim(d: Disk, e: Disk, f: Info, chain: seq<nat>)
    requires WellFormed(f, |d|)
  {
    exists lo, lo2 | 0 <= lo <= lo2 <= |chain| :: PartlyClaimed(d, e, f, chain, lo, lo2)
  }

  lemma {:induction false} NothingClaimed(d: Disk, f: Info, chain: seq<nat>)
    requires WellFormed(f, |d|)
    ensures PartlyClaimed(d, d, f, chain, |chain|, |chain|)
  {
    assert Claim(Fat(d, f, 0), chain, |chain|) == Fat(d, f, 0);
    if f.numFats == 2 {
      assert Claim(Fat(d, f, 1), chain, |chain|) == Fat(d, f, 1);
    }
  }

  /** The run `chain[lo..mid]` of an ascending chain is the part of `chain[lo..]` in its FAT sector. */
  ghost predicate IsRun(chain: seq<nat>, lo: nat, mid: nat, page: nat) {
    && lo < mid <= |chain|
    && (forall k :: lo <= k < mid ==> chain[k] / 128 == page)
    && (forall k :: mid <= k < |chain| ==> chain[k] / 128 != page)
    && (forall k :: 0 <= k < lo ==> chain[k] / 128 != page)
  }

  /** Writing one run into one sector of one FAT copy moves that copy from `mid` to `lo`. */
  lemma {:induction false} RunWritten(d0: Disk, d: Disk, f: Info, chain: seq<nat>, copy: nat, lo: nat, mid: nat,
          page: nat, sec: Sector)
    requires WellFormed(f, |d0|) && |d| == |d0| && copy < f.numFats && page < f.fatSize
    requires IsRun(chain, lo, mid, page)
    requires CopyClaimed(d0, d, f, chain, copy, mid)
    requires CopyStart(f, copy) + page < |d|
    requires forall w | 0 <= w < 128 :: Low(sec, w) == ClaimedEntry(Fat(d0, f, copy), chain, lo, mid, 128 * page + w)
    requires var was := d[CopyStart(f, copy) + page]; forall w | 0 <= w < 128 :: High(sec, w) == High(was, w)
    ensures
      var e := d[CopyStart(f, copy) + page := sec];
      && SameOutsideFats(d, e, f)
      && CopyClaimed(d0, e, f, chain, copy, lo)
      && OtherCopySame(d, e, f, copy)
  {
    hide Low, High, ClaimedEntry;
    FatAfterWrite(d, f, copy, page, sec);
    var e := d[CopyStart(f, copy) + page := sec];
    var n := |chain|;
    var t := Fat(d0, f, copy);
    forall c | 0 <= c < |t|
      ensures Fat(e, f, copy)[c] == Claim(t, chain, lo)[c]
      ensures Nibbles(e, f, copy)[c] == Nibbles(d, f, copy)[c]
    {
      assert c == 128 * (c / 128) + c % 128;
      ClaimSplit(t, chain, lo, mid, n, c);
      if c / 128 == page {
        assert c !in chain[mid..n];
      } else {
        assert c !in chain[lo..mid];
      }
    }
    assert Fat(e, f, copy) == Claim(t, chain, lo);
    assert Nibbles(e, f, copy) == Nibbles(d, f, copy);
  }

  /** The next card of the second pass, and that a power loss there is a crashed claim. */
  lemma {:induction false} RunWrittenInOrder(d0: Disk, d: Disk, f: Info, chain: seq<nat>, copy: nat, lo: nat,
          mid: nat, page: nat,
          sec: Sector)
    requires WellFormed(f, |d0|) && |d| == |d0| && copy < f.numFats && page < f.fatSize
    requires IsRun(chain, lo, mid, page)
    requires PartlyClaimed(d0, d, f, chain, if copy > 0 then lo else mid, mid)
    requires CopyStart(f, copy) + page < |d|
    requires forall w | 0 <= w < 128 :: Low(sec, w) == ClaimedEntry(Fat(d0, f, copy), chain, lo, mid, 128 * page + w)
    requires var was := d[CopyStart(f, copy) + page]; forall w | 0 <= w < 128 :: High(sec, w) == High(was, w)
    ensures
      var e := d[CopyStart(f, copy) + page := sec];
      && PartlyClaimed(d0, e, f, chain, lo, if copy == 1 then lo else mid)
      && CrashedClaim(d0, e, f, chain)
  {
    hide Low, High, ClaimedEntry, Claim, Fat, Nibbles, CopyStart, MaxCluster;
    RunWritten(d0, d, f, chain, copy, lo, mid, page, sec);
    var e := d[CopyStart(f, copy) + page := sec];
    assert PartlyClaimed(d0, e, f, chain, lo, if copy == 1 then lo else mid);
  }

  /** Every state the card passed through after the first `from` writes is a crashed claim. */
  ghost predicate CrashSafe(d: Disk, history: seq<Disk>, from: nat, f: Info, chain: seq<nat>)
    requires WellFormed(f, |d|)
  {
    from <= |history| && forall i | from <= i < |history| :: CrashedClaim(d, history[i], f, chain)
  }

  /**
   * The inner loop of the second pass: write the links of `chain[k0..k1]` that live in FAT
   * sector `sector` into its buffer, keeping the reserved nibbles.
   */
  method PatchLinks(f: Info, chain: seq<nat>, sector: nat, k0: nat, k1: nat, was: Sector, ghost page: nat,
          ghost t: Table)
    returns (buf: Sector)
    requires k0 <= k1 <= |chain| && 128 * page + 128 <= |t|
    requires forall k :: 0 <= k < |chain| ==> IsData(chain[k])
    requires forall k :: 0 <= k < |chain| ==> FatSectorFor(f, chain[k]).1 == 4 * (chain[k] % 128)
    requires forall k :: 0 <= k < |chain| ==> (FatSectorFor(f, chain[k]).0 == sector <==> chain[k] / 128 == page)
    requires forall w | 0 <= w < 128 :: Low(was, w) == t[128 * page + w]
    ensures forall w | 0 <= w < 128 :: Low(buf, w) == ClaimedEntry(t, chain, k0, k1, 128 * page + w)
    ensures forall w | 0 <= w < 128 :: High(buf, w) == High(was, w)
  {
    hide Low, High, SetLow, FatSectorFor;
    buf := was;
    var n := |chain|;
    for k := k0 to k1
      invariant forall w | 0 <= w < 128 :: Low(buf, w) == ClaimedEntry(t, chain, k0, k, 128 * page + w)
      invariant forall w | 0 <= w < 128 :: High(buf, w) == High(was, w)
    {
      var (s, offset) := FatSectorFor(f, chain[k]);
      if s != sector {
        continue;
      }
      var value := if k + 1 < n then chain[k + 1] else EOC;
      SetLowWords(buf, chain[k] % 128, value);
      buf := SetLow(buf, offset, value);
    }
  }

  /** One run of the second pass: its FAT sector is read once and written once per copy. */
  method ClaimRun(card: Card, f: Info, chain: seq<nat>, sector: nat, iStart: nat, iEnd: nat, wrapped: bool,
                  ghost d0: Disk, ghost from: nat)
    returns (r: Result<Unit>)
    requires card.Valid() && WellFormed(f, |d0|) && |card.sectors| == |d0|
    requires iStart < iEnd <= |chain| && forall k :: 0 <= k < |chain| ==> OnCard(f, chain[k])
    requires sector == f.fatStart + chain[iStart] / 128 && IsRun(chain, iStart, iEnd, chain[iStart] / 128)
    requires PartlyClaimed(d0, card.sectors, f, chain, iEnd, iEnd)
    requires CrashSafe(d0, card.history, from, f, chain)
    modifies card
    ensures card.Valid() && |card.sectors| == |d0| && old(card.history) <= card.history
    ensures CrashSafe(d0, card.history, from, f, chain)
    ensures r.Err? ==> r.error == Io
    ensures r.Ok? ==> PartlyClaimed(d0, card.sectors, f, chain, iStart, iStart)
  {
    hide Low, High, Fat, Nibbles, Claim, ClaimedEntry, FatSectorFor, CopyClaimed, CrashedClaim;
    ghost var page := chain[iStart] / 128;
    forall k | 0 <= k < |chain|
      ensures FatSectorFor(f, chain[k]) == (f.fatStart + chain[k] / 128, 4 * (chain[k] % 128))
      ensures chain[k] / 128 < f.fatSize && IsData(chain[k])
    {
      EntryPlace(f, |d0|, chain[k]);
    }
    var copies := if f.numFats > 1 then f.numFats else 1;
    for fatCopy := 0 to copies
      invariant card.Valid() && |card.sectors| == |d0| && old(card.history) <= card.history
      invariant PartlyClaimed(d0, card.sectors, f, chain,
                              if fatCopy > 0 then iStart else iEnd, if fatCopy > 1 then iStart else iEnd)
      invariant CrashSafe(d0, card.history, from, f, chain)
    {
      var target := sector + fatCopy * f.fatSize;
      ghost var d := card.sectors;
      UntouchedPage(d0, d, f, chain, fatCopy, iEnd, page);
      assert target == CopyStart(f, fatCopy) + page;
      var buf :- card.ReadBlock(target);
      // Unwrapped: exactly this run. Wrapped: any entry in the sector.
      var k0 := if wrapped then 0 else iStart;
      var k1 := if wrapped then |chain| else iEnd;
      buf := PatchLinks(f, chain, sector, k0, k1, buf, page, Fat(d0, f, fatCopy));
      RunOnly(Fat(d0, f, fatCopy), chain, k0, k1, iStart, iEnd, page);
      RunWrittenInOrder(d0, d, f, chain, fatCopy, iStart, iEnd, page, buf);
      var _ :- card.WriteBlock(target, buf);
    }
    return Ok(Unit);
  }

  /** The second pass: the runs of the chain, one FAT sector each, highest sector first. */
  method ClaimRuns(card: Card, f: Info, chain: seq<nat>, wrapped: bool) returns (r: Result<Unit>)
    requires card.Valid() && WellFormed(f, |card.sectors|)
    requires |chain| > 0 && Ascending(chain) && forall k :: 0 <= k < |chain| ==> OnCard(f, chain[k])
    modifies card
    ensures card.Valid() && |card.sectors| == |old(card.sectors)| && old(card.history) <= card.history
    ensures r.Err? ==> r.error == Io
    ensures r.Ok? ==> PartlyClaimed(old(card.sectors), card.sectors, f, chain, 0, 0)
    ensures CrashSafe(old(card.sectors), card.history, |old(card.history)|, f, chain)
  {
    hide FatSectorFor, PartlyClaimed, CrashedClaim;
    ghost var d0 := card.sectors;
    ghost var from := |card.history|;
    var n := |chain|;
    var iEnd := n;
    NothingClaimed(d0, f, chain);
    forall k | 0 <= k < n
      ensures FatSectorFor(f, chain[k]).0 == f.fatStart + chain[k] / 128
    {
      EntryPlace(f, |d0|, chain[k]);
    }
    while iEnd > 0
      invariant 0 <= iEnd <= n
      invariant 0 < iEnd < n ==> chain[iEnd - 1] / 128 < chain[iEnd] / 128
      invariant card.Valid() && |card.sectors| == |d0| && old(card.history) <= card.history
      invariant PartlyClaimed(d0, card.sectors, f, chain, iEnd, iEnd)
      invariant CrashSafe(d0, card.history, from, f, chain)
    {
      var (sector, _) := FatSectorFor(f, chain[iEnd - 1]);
      ghost var page := chain[iEnd - 1] / 128;
      var iStart := iEnd - 1;
      while iStart > 0 && FatSectorFor(f, chain[iStart - 1]).0 == sector
        invariant 0 <= iStart < iEnd
        invariant forall k :: iStart <= k < iEnd ==> chain[k] / 128 == page
      {
        iStart := iStart - 1;
      }
      RunIsMaximal(chain, iStart, iEnd, page);
      if wrapped && exists k | iEnd <= k < n :: FatSectorFor(f, chain[k]).0 == sector {
        // The original skips a sector that a later run has covered; the chain ascends, so none has.
        assert false;
      }
      var _ :- ClaimRun(card, f, chain, sector, iStart, iEnd, wrapped, d0, from);
      iEnd := iStart;
    }
    return Ok(Unit);
  }

  /** Patching more of the chain than the run makes no difference inside the run's sector. */
  lemma {:induction false} RunOnly(t: Table, chain: seq<nat>, k0: nat, k1: nat, lo: nat, mid: nat, page: nat)
    requires IsRun(chain, lo, mid, page) && k0 <= lo && mid <= k1 <= |chain| && 128 * page + 128 <= |t|
    ensures forall c | 128 * page <= c < 128 * page + 128 ::
              ClaimedEntry(t, chain, k0, k1, c) == ClaimedEntry(t, chain, lo, mid, c)
  {
    forall c | 128 * page <= c < 128 * page + 128
      ensures ClaimedEntry(t, chain, k0, k1, c) == ClaimedEntry(t, chain, lo, mid, c)
    {
      assert c / 128 == page;
      assert c !in chain[k0..lo] && c !in chain[mid..k1];
      ClaimSplit(t, chain, k0, lo, k1, c);
      ClaimSplit(t, chain, lo, mid, k1, c);
    }
  }

  lemma {:induction false} RunIsMaximal(chain: seq<nat>, lo: nat, mid: nat, page: nat)
    requires Ascending(chain) && lo < mid <= |chain|
    requires forall k :: lo <= k < mid ==> chain[k] / 128 == page
    requires mid < |chain| ==> chain[mid - 1] / 128 < chain[mid] / 128
    requires lo > 0 ==> chain[lo - 1] / 128 != page
    ensures IsRun(chain, lo, mid, page)
    ensures lo > 0 ==> chain[lo - 1] / 128 < chain[lo] / 128
  {
    forall k | mid <= k < |chain|
      ensures chain[k] / 128 != page
    {
      assert chain[mid] <= chain[k];
    }
    forall k | 0 <= k < lo
      ensures chain[k] / 128 != page
    {
      assert chain[k] <= chain[lo - 1] < chain[lo];
    }
    if lo > 0 {
      assert chain[lo - 1] < chain[lo];
    }
  }

  /** Before its own run is written, a FAT sector still holds what it held at the start. */
  lemma {:induction false} UntouchedPage(d0: Disk, d: Disk, f: Info, chain: seq<nat>, copy: nat, mid: nat, page: nat)
    requires WellFormed(f, |d0|) && |d| == |d0| && copy < f.numFats && page < f.fatSize && mid <= |chain|
    requires CopyClaimed(d0, d, f, chain, copy, mid)
    requires forall k :: mid <= k < |chain| ==> chain[k] / 128 != page
    ensures CopyStart(f, copy) + page < |d|
    ensures
      var sec := d[CopyStart(f, copy) + page];
      forall w | 0 <= w < 128 :: Low(sec, w) == Fat(d0, f, copy)[128 * page + w]
  {
    hide Low, High;
    CopyOnCard(f, |d|, copy);
    var t := Fat(d0, f, copy);
    var sec := d[CopyStart(f, copy) + page];
    forall w | 0 <= w < 128
      ensures Low(sec, w) == t[128 * page + w]
    {
      var c := 128 * page + w;
      assert c / 128 == page && c % 128 == w;
      assert Fat(d, f, copy)[c] == Low(sec, w);
      assert c !in chain[mid..|chain|];
    }
  }

  /** The first pass: first fit from cluster 2, wrapping once. `wrapped` only when the scan saw the whole card. */
  method ScanFree(card: Card, f: Info, count: nat) returns (r: Result<(seq<nat>, bool)>)
    requires card.Valid() && WellFormed(f, |card.sectors|)
    ensures r.Err? ==> r.error in {Io, AllocationFailed, DiskFull}
    ensures r == Err(DiskFull) ==> |FreeClusters(card.sectors, f)| < count
    ensures r.Ok? ==> count <= |FreeClusters(card.sectors, f)| && r.value.0 == FirstFit(card.sectors, f, count)
  {
    hide Fat, FatSectorFor, Le32, CopyStart;
    var maxCluster := MaxCluster(f);
    var chain: seq<nat> := [];
    if * {
      return Err(AllocationFailed);
    }
    ghost var d := card.sectors;
    ghost var t := Fat(d, f, 0);
    var buf: Sector := ZeroSector();
    var lastSector := U32_MAX;
    var cluster := 2;
    var scanned := 0;
    var wrapped := false;
    var span := maxCluster - 2;
    while |chain| < count
      invariant scanned <= span && |chain| <= count
      invariant if scanned < span || span == 0 then cluster == 2 + scanned && !wrapped else cluster == 2 && wrapped
      invariant chain == FreeUpTo(t, 2 + scanned)
      invariant lastSector != U32_MAX ==> 0 <= lastSector < |d| && buf == d[lastSector]
      decreases span - scanned
    {
      if scanned >= span {
        return Err(DiskFull);
      }
      EntryRead(d, f, cluster);
      var (sector, offset) := FatSectorFor(f, cluster);
      if sector != lastSector {
        buf :- card.ReadBlock(sector);
        lastSector := sector;
      }
      var entry := Le32(buf, offset);
      if entry % NIBBLE == 0 {
        chain := chain + [cluster];
      }
      cluster := cluster + 1;
      scanned := scanned + 1;
      if cluster >= maxCluster {
        cluster := 2;
        wrapped := true;
      }
    }
    FreeUpToGrows(t, 2 + scanned, maxCluster);
    return Ok((chain, wrapped));
  }

  method AllocateChain(card: Card, f: Info, count: nat) returns (r: Result<nat>)
    requires card.Valid() && WellFormed(f, |card.sectors|)
    modifies card
    ensures card.Valid() && |card.sectors| == |old(card.sectors)| && old(card.history) <= card.history
    ensures r.Err? ==> r.error in {Io, AllocationFailed, ZeroClusters, DiskFull}
    ensures r == Err(ZeroClusters) <==> count == 0
    ensures r == Err(DiskFull) ==> |FreeClusters(old(card.sectors), f)| < count
    ensures r.Err? && r.error != Io ==> card.history == old(card.history)
    ensures r.Ok? ==>
              && count <= |FreeClusters(old(card.sectors), f)|
              && r.value == FirstFit(old(card.sectors), f, count)[0]
              && PartlyClaimed(old(card.sectors), card.sectors, f, FirstFit(old(card.sectors), f, count), 0, 0)
    ensures card.history != old(card.history) ==>
              && count <= |FreeClusters(old(card.sectors), f)|
              && CrashSafe(old(card.sectors), card.history, |old(card.history)|, f,
                  FirstFit(old(card.sectors), f, count))
  {
    hide PartlyClaimed, CrashSafe, FreeClusters;
    if count == 0 {
      return Err(ZeroClusters);
    }
    var found :- ScanFree(card, f, count);
    var (chain, wrapped) := found;
    FirstFitIsLowest(card.sectors, f, count);
    var first := chain[0];
    var _ :- ClaimRuns(card, f, chain, wrapped);
    return Ok(first);
  }
}
