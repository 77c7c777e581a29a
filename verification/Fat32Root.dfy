/** Slots of the root directory: which are live, which one a new entry takes, and growing the directory. */
module Fat32Root {
  import opened Bytes
  import opened Fat32Card
  import opened Fat32Layout
  import opened Fat32Tables
  import opened Fat32Alloc
  import opened Fat32Dir

  // ---- one entry ----

  /** The 32 bytes of a new entry: times and reserved bytes are zero. */
  function EntryBytes(e: DirEntry): (r: seq<byte>)
    requires e.Valid()
    ensures |r| == 32
  {
    e.name + [e.attr] + seq(8, i => 0) + Le16Bytes(e.clusterHi) + seq(4, i => 0) + Le16Bytes(e.clusterLo)
        + Le32Bytes(e.fileSize)
  }

  function PutEntry(sec: Sector, off: nat, e: DirEntry): Sector
    requires off + 32 <= 512 && e.Valid()
  {
    Patch(sec, off, EntryBytes(e))
  }

  /** A stored entry reads back as itself, unless its first byte or attribute hides it. */
  lemma {:induction false} EntryRoundTrip(sec: Sector, off: nat, e: DirEntry)
    requires off + 32 <= 512 && e.Valid()
    ensures EntryAt(PutEntry(sec, off, e), off) ==
            if e.name[0] == END_MARK || e.name[0] == DELETED_MARK || e.attr == ATTR_LFN then None else Some(e)
    ensures PutEntry(sec, off, e)[off] == e.name[0]
  {
    var r := PutEntry(sec, off, e);
    var b := EntryBytes(e);
    assert forall k :: 0 <= k < 32 ==> r[off + k] == b[k];
    assert r[off..off + 11] == e.name;
    assert Le16(r, off + 20) == Le16(Le16Bytes(e.clusterHi), 0);
    assert Le16(r, off + 26) == Le16(Le16Bytes(e.clusterLo), 0);
    assert Le32(r, off + 28) == Le32(Le32Bytes(e.fileSize), 0);
  }

  /** The 32 bytes of a slot that a create fills: the name, the archive attribute, the cluster and the size, zeros else. */
  predicate FreshSlot(sec: Sector, off: nat, name: Name, cluster: nat, size: nat)
    requires off + 32 <= 512
  {
    && sec[off..off + 11] == name
    && sec[off + 11] == 0x20
    && sec[off + 12..off + 20] == [0, 0, 0, 0, 0, 0, 0, 0] && sec[off + 22..off + 26] == [0, 0, 0, 0]
    && sec[off + 20] == cluster / 0x1_0000 % 0x100 && sec[off + 21] == cluster / 0x100_0000
    && sec[off + 26] == cluster % 0x100 && sec[off + 27] == cluster / 0x100 % 0x100
    && sec[off + 28] == size % 0x100 && sec[off + 29] == size / 0x100 % 0x100
    && sec[off + 30] == size / 0x1_0000 % 0x100 && sec[off + 31] == size / 0x100_0000
  }

  lemma {:induction false} PutIsFresh(sec: Sector, off: nat, e: DirEntry)
    requires off + 32 <= 512 && e.Valid() && e.attr == 0x20
    ensures FreshSlot(PutEntry(sec, off, e), off, e.name, e.FirstCluster(), e.fileSize)
  {
    var r := PutEntry(sec, off, e);
    var b := EntryBytes(e);
    assert forall k :: 0 <= k < 32 ==> r[off + k] == b[k];
    assert r[off..off + 11] == e.name;
    Quarters(e.fileSize);
    Halves(e.clusterHi, e.clusterLo);
    var lo, hi, size := Le16Bytes(e.clusterLo), Le16Bytes(e.clusterHi), Le32Bytes(e.fileSize);
    assert b[11] == e.attr && b[20] == hi[0] && b[21] == hi[1] && b[26] == lo[0] && b[27] == lo[1];
    assert b[28] == size[0] && b[29] == size[1] && b[30] == size[2] && b[31] == size[3];
    assert r[off + 12..off + 20] == b[12..20] == [0, 0, 0, 0, 0, 0, 0, 0];
    assert r[off + 22..off + 26] == b[22..26] == [0, 0, 0, 0];
  }

  lemma {:induction false} Quarters(v: nat)
    requires v < U32_LIMIT
    ensures Le32Bytes(v) == [v % 0x100, v / 0x100 % 0x100, v / 0x1_0000 % 0x100, v / 0x100_0000]
  {
    assert v / 0x100 / 0x100 == v / 0x1_0000 && v / 0x1_0000 / 0x100 == v / 0x100_0000;
  }

  lemma {:induction false} Halves(hi: nat, lo: nat)
    requires hi < 0x1_0000 && lo < 0x1_0000
    ensures
      var c := 0x1_0000 * hi + lo;
      && Le16Bytes(hi) == [c / 0x1_0000 % 0x100, c / 0x100_0000]
      && Le16Bytes(lo) == [c % 0x100, c / 0x100 % 0x100]
  {
    var c := 0x1_0000 * hi + lo;
    assert c / 0x1_0000 == hi && c / 0x100_0000 == hi / 0x100;
    assert c / 0x100 == 0x100 * hi + lo / 0x100;
  }

  // ---- slots ----

  predicate IsEnd(sec: Sector, i: nat)
    requires i < 16
  {
    sec[32 * i] == END_MARK
  }

  predicate IsFree(sec: Sector, i: nat)
    requires i < 16
  {
    sec[32 * i] == END_MARK || sec[32 * i] == DELETED_MARK
  }

  function Slot(sec: Sector, i: nat): Option<DirEntry>
    requires i < 16
  {
    EntryAt(sec, 32 * i)
  }

  /** The first free slot of a sector at or after `i`, or 16. */
  function FreeIn(sec: Sector, i: nat): (j: nat)
    requires i <= 16
    ensures i <= j <= 16
    ensures j < 16 ==> IsFree(sec, j)
    ensures forall k :: i <= k < j ==> !IsFree(sec, k)
    decreases 16 - i
  {
    if i == 16 || IsFree(sec, i) then i else FreeIn(sec, i + 1)
  }

  /** The first free slot of the sectors `secs`. */
  function FreeSlot(d: Disk, secs: seq<nat>): Option<(nat, nat)> {
    if secs == [] || secs[0] >= |d| then None
    else
      var j := FreeIn(d[secs[0]], 0);
      if j < 16 then Some((secs[0], j)) else FreeSlot(d, secs[1..])
  }

  ghost predicate AllOn(d: Disk, secs: seq<nat>) {
    && (forall k :: 0 <= k < |secs| ==> secs[k] < |d|)
    && (forall j, k :: 0 <= j < k < |secs| ==> secs[j] != secs[k])
  }

  /** Every slot after an end mark is an end mark too. */
  ghost predicate Tidy(d: Disk, secs: seq<nat>)
    requires AllOn(d, secs)
  {
    forall k, i, l, j ::
      0 <= k <= l < |secs| && 0 <= i < 16 && 0 <= j < 16 && (k < l || i < j) && IsEnd(d[secs[k]], i) ==>
          IsEnd(d[secs[l]], j)
  }

  /** Slot `i` of sector `q` holds a live entry named like `name`. */
  ghost predicate Named(d: Disk, q: nat, i: nat, name: Name)
    requires q < |d| && i < 16
  {
    Slot(d[q], i).Some? && SameName(Slot(d[q], i).value.name, name)
  }

  lemma {:induction false} ScanSlotsIs(sec: Sector, sector: nat, i: nat, name: Name)
    requires i <= 16
    ensures
      match ScanSlots(sec, sector, i, name)
      case Found(e, q, o) => q == sector && o % 32 == 0 && i <= o / 32 < 16 && Slot(sec, o / 32) == Some(e)
          && SameName(e.name, name)
      case EndOfDirectory => exists k :: i <= k < 16 && IsEnd(sec, k)
                                         && forall j :: i <= j < k ==> Slot(sec, j).Some? ==>
                                             !SameName(Slot(sec, j).value.name, name)
      case NotHere => forall j :: i <= j < 16 ==> Slot(sec, j).Some? ==> !SameName(Slot(sec, j).value.name, name)
      case OffCard => false
    decreases 16 - i
  {
    hide EntryAt, SameName;
    if i < 16 && !IsEnd(sec, i) {
      ScanSlotsIs(sec, sector, i + 1, name);
      if ScanSlots(sec, sector, i + 1, name).EndOfDirectory? && ScanSlots(sec, sector, i, name).EndOfDirectory? {
        var k :| i + 1 <= k < 16 && IsEnd(sec, k)
                 && forall j :: i + 1 <= j < k ==> Slot(sec, j).Some? ==> !SameName(Slot(sec, j).value.name, name);
        assert forall j :: i <= j < k ==> Slot(sec, j).Some? ==> !SameName(Slot(sec, j).value.name, name);
      }
    }
  }

  lemma {:induction false} TidyTail(d: Disk, secs: seq<nat>)
    requires secs != [] && AllOn(d, secs) && Tidy(d, secs)
    ensures AllOn(d, secs[1..]) && Tidy(d, secs[1..])
  {
    var t := secs[1..];
    assert forall k :: 0 <= k < |t| ==> t[k] == secs[k + 1];
    forall k, i, l, j | 0 <= k <= l < |t| && 0 <= i < 16 && 0 <= j < 16 && (k < l || i < j) && IsEnd(d[t[k]], i)
      ensures IsEnd(d[t[l]], j)
    {
      assert IsEnd(d[secs[k + 1]], i);
      assert IsEnd(d[secs[l + 1]], j);
    }
  }

  /** In a tidy directory a scan finds a live entry of that name if there is one, and only then. */
  lemma {:induction false} ScanIs(d: Disk, secs: seq<nat>, name: Name)
    requires AllOn(d, secs) && Tidy(d, secs)
    ensures
      match ScanSectors(d, secs, name)
      case Found(e, q, o) => q in secs && q < |d| && o % 32 == 0 && o / 32 < 16 && Slot(d[q], o / 32) == Some(e)
          && Named(d, q, o / 32, name)
      case OffCard => false
      case _ => forall q, i :: q in secs && 0 <= i < 16 ==> !Named(d, q, i, name)
  {
    hide EntryAt, SameName, ScanSlots;
    if secs != [] {
      TidyTail(d, secs);
      ScanIs(d, secs[1..], name);
      ScanSlotsIs(d[secs[0]], secs[0], 0, name);
      if ScanSlots(d[secs[0]], secs[0], 0, name).EndOfDirectory? {
        var k :| 0 <= k < 16 && IsEnd(d[secs[0]], k)
                 && forall j :: 0 <= j < k ==> Slot(d[secs[0]], j).Some? ==> !SameName(Slot(d[secs[0]], j).value.name, name);
        forall q, i | q in secs && 0 <= i < 16
          ensures !Named(d, q, i, name)
        {
          var l :| 0 <= l < |secs| && secs[l] == q;
          if l > 0 || i > k {
            assert IsEnd(d[secs[l]], i);
            EndIsNotLive(d[q], i);
          } else if i == k {
            EndIsNotLive(d[q], i);
          }
        }
      }
    }
  }

  /** In a whole tidy directory a search finds a slot named so if there is one, and only then. */
  lemma {:induction false} FindIsExact(d: Disk, f: Info, cs: seq<nat>, name: Name)
    requires RootOk(d, f, cs) && AllOn(d, DirSectors(f, cs)) && Tidy(d, DirSectors(f, cs))
    ensures 0 < f.sectorsPerCluster
    ensures
      match Find(d, f, name)
      case Ok((entry, q, o)) => q in DirSectors(f, cs) && HitOn(d, entry, q, o, name)
      case Err(error) =>
        && error == FileNotFound
        && forall q, i :: q in DirSectors(f, cs) && 0 <= i < 16 ==> !NamedSo(d[q], i, name)
  {
    FindIsScan(d, f, cs, name);
    ScanIs(d, DirSectors(f, cs), name);
    FoundIs(d, f, f.rootCluster, 0, name);
    hide Find, ScanSectors, SameName, DirSectors, Tidy, HitOn, NamedSo, EntryAt, RootChain;
    if Find(d, f, name).Err? {
      forall q, i | q in DirSectors(f, cs) && 0 <= i < 16
        ensures !NamedSo(d[q], i, name)
      {
        assert !Named(d, q, i, name);
        EntryIs(d[q], i, name);
      }
    }
  }

  lemma EndIsNotLive(sec: Sector, i: nat)
    requires i < 16 && IsFree(sec, i)
    ensures Slot(sec, i) == None
  {
  }

  /** Where the first free slot is: everything before it is taken. */
  lemma {:induction false} FreeSlotIs(d: Disk, secs: seq<nat>) returns (k: nat)
    requires AllOn(d, secs)
    ensures
      match FreeSlot(d, secs)
      case Some((q, i)) =>
        && k < |secs| && secs[k] == q && i < 16 && IsFree(d[q], i)
        && (forall l, j :: 0 <= l <= k && 0 <= j < 16 && (l < k || j < i) ==> !IsFree(d[secs[l]], j))
      case None => forall l, j :: 0 <= l < |secs| && 0 <= j < 16 ==> !IsFree(d[secs[l]], j)
  {
    k := 0;
    if secs != [] {
      var j0 := FreeIn(d[secs[0]], 0);
      if j0 == 16 {
        var t := secs[1..];
        assert forall l :: 0 <= l < |t| ==> t[l] == secs[l + 1];
        var m := FreeSlotIs(d, t);
        k := m + 1;
        forall l, j | 0 <= l < |secs| && 0 <= j < 16 && FreeSlot(d, secs).None?
          ensures !IsFree(d[secs[l]], j)
        {
          if l > 0 {
            assert secs[l] == t[l - 1];
          }
        }
        if FreeSlot(d, secs).Some? {
          var (q, i) := FreeSlot(d, secs).value;
          forall l, j | 0 <= l <= k && 0 <= j < 16 && (l < k || j < i)
            ensures !IsFree(d[secs[l]], j)
          {
            if l > 0 {
              assert secs[l] == t[l - 1];
            }
          }
        }
      }
    }
  }

  lemma {:induction false} FreeSlotConcat(d: Disk, a: seq<nat>, b: seq<nat>)
    requires forall k :: 0 <= k < |a| ==> a[k] < |d|
    ensures FreeSlot(d, a + b) == if FreeSlot(d, a).None? then FreeSlot(d, b) else FreeSlot(d, a)
  {
    if a == [] {
      assert a + b == b;
    } else {
      assert (a + b)[1..] == a[1..] + b;
      FreeSlotConcat(d, a[1..], b);
    }
  }

  // ---- the sectors of a directory or a file ----

  lemma {:induction false} DirSectorsConcat(f: Info, a: seq<nat>, b: seq<nat>)
    ensures DirSectors(f, a + b) == DirSectors(f, a) + DirSectors(f, b)
  {
    if a == [] {
      assert a + b == b;
    } else {
      assert (a + b)[1..] == a[1..] + b;
      DirSectorsConcat(f, a[1..], b);
    }
  }

  ghost predicate Distinct(cs: seq<nat>) {
    forall i, j :: 0 <= i < j < |cs| ==> cs[i] != cs[j]
  }

  /** Sector `q` belongs to cluster `c`. */
  ghost predicate InCluster(f: Info, c: nat, q: nat) {
    ClusterToSector(f, c) <= q < ClusterToSector(f, c) + f.sectorsPerCluster
  }

  /** The sectors of distinct clusters on the card: on the card, behind the FATs, no two alike, and only theirs. */
  lemma {:induction false} DirSectorsAre(d: Disk, f: Info, cs: seq<nat>)
    requires WellFormed(f, |d|) && Distinct(cs) && forall i :: 0 <= i < |cs| ==> OnCard(f, cs[i])
    ensures AllOn(d, DirSectors(f, cs))
    ensures forall q :: q in DirSectors(f, cs) ==> f.dataStart <= q < |d|
    ensures forall q :: q in DirSectors(f, cs) ==> exists c :: c in cs && InCluster(f, c, q)
    ensures forall c, q :: c in cs && InCluster(f, c, q) ==> q in DirSectors(f, cs)
  {
    hide ClusterToSector, WellFormed, OnCard;
    if cs != [] {
      var here := SectorsOf(f, cs[0]);
      var rest := DirSectors(f, cs[1..]);
      DirSectorsAre(d, f, cs[1..]);
      assert OnCard(f, cs[0]);
      ClusterSectors(f, |d|, cs[0]);
      ClusterIsBehindFats(f, |d|, cs[0]);
      assert forall c :: c in cs <==> c == cs[0] || c in cs[1..];
      forall q | q in here
        ensures InCluster(f, cs[0], q)
      {
        var k :| 0 <= k < |here| && here[k] == q;
      }
      forall q: nat | InCluster(f, cs[0], q)
        ensures q in here
      {
        assert here[q - ClusterToSector(f, cs[0])] == q;
      }
      forall j, k | 0 <= j < |here| && 0 <= k < |rest|
        ensures here[j] != rest[k]
      {
        assert rest[k] in rest;
        var c :| c in cs[1..] && InCluster(f, c, rest[k]);
        var i :| 0 <= i < |cs[1..]| && cs[1..][i] == c;
        assert cs[0] != cs[i + 1] && OnCard(f, cs[i + 1]);
        ClustersDisjoint(f, |d|, cs[0], c, j, rest[k] - ClusterToSector(f, c));
      }
    }
  }

  lemma {:induction false} ClusterIsBehindFats(f: Info, size: nat, c: nat)
    requires WellFormed(f, size) && OnCard(f, c)
    ensures f.dataStart <= ClusterToSector(f, c)
    ensures ClusterToSector(f, c) + f.sectorsPerCluster <= size
  {
    ClusterSectors(f, size, c);
  }

  lemma {:induction false} RootSectorsAre(d: Disk, f: Info, cs: seq<nat>)
    requires RootChain(d, f, cs)
    ensures AllOn(d, DirSectors(f, cs))
    ensures forall q :: q in DirSectors(f, cs) ==> f.dataStart <= q < |d|
    ensures forall q :: q in DirSectors(f, cs) ==> exists c :: c in cs && InCluster(f, c, q)
    ensures forall c, q :: c in cs && InCluster(f, c, q) ==> q in DirSectors(f, cs)
    ensures Distinct(cs)
  {
    forall i, j | 0 <= i < j < |cs|
      ensures cs[i] != cs[j]
    {
      ChainIsAcyclic(Fat(d, f, 0), cs, i, j);
    }
    DirSectorsAre(d, f, cs);
  }

  // ---- growing the directory ----

  /** The directory chain `cs` of `d` has grown by the zeroed cluster `nc`; nothing else changed. */
  ghost predicate Lengthened(d: Disk, e: Disk, f: Info, cs: seq<nat>, nc: nat)
    requires RootOk(d, f, cs)
  {
    && |e| == |d|
    && OnCard(f, nc) && Fat(d, f, 0)[nc] == 0
    && Fat(e, f, 0) == Fat(d, f, 0)[nc := EOC][cs[|cs| - 1] := nc]
    && (f.numFats == 2 ==> Fat(e, f, 1) == Fat(d, f, 1)[nc := EOC][cs[|cs| - 1] := nc])
    && (forall s :: 0 <= s < |d| && !(f.fatStart <= s < f.dataStart) ==>
          e[s] == if InCluster(f, nc, s) then ZeroSector() else d[s])
    && RootChain(e, f, cs + [nc])
  }

  /** And a walk of the grown directory is within its bound. */
  ghost predicate Extended(d: Disk, e: Disk, f: Info, cs: seq<nat>, nc: nat)
    requires RootOk(d, f, cs)
  {
    Lengthened(d, e, f, cs, nc) && RootOk(e, f, cs + [nc])
  }

  /** A full directory of as many clusters as a walk may read has grown by one more. */
  ghost predicate Overgrown(d: Disk, e: Disk, f: Info, cs: seq<nat>)
    requires RootOk(d, f, cs)
  {
    && FreeSlot(d, DirSectors(f, cs)).None? && MAX_DIR_SECTORS < |cs| * f.sectorsPerCluster
    && exists nc :: Lengthened(d, e, f, cs, nc)
  }

  /** `now` is `was` with `entry` stored in the first free slot of the directory `cs`. */
  ghost predicate Stored(was: Disk, now: Disk, f: Info, cs: seq<nat>, entry: DirEntry)
    requires entry.Valid()
  {
    && RootOk(was, f, cs)
    && FreeSlot(was, DirSectors(f, cs)).Some?
    && var (q, i) := FreeSlot(was, DirSectors(f, cs)).value;
       && q < |was| && i < 16
       && now == was[q := PutEntry(was[q], 32 * i, entry)]
  }

  /** What a successful write of a directory entry does: `cs2` is the directory after it. */
  ghost predicate EntryAdded(d: Disk, now: Disk, f: Info, cs: seq<nat>, cs2: seq<nat>, mid: Disk, entry: DirEntry)
    requires RootOk(d, f, cs) && entry.Valid()
  {
    && Stored(mid, now, f, cs2, entry)
    && if cs2 == cs then mid == d
       else |cs2| == |cs| + 1 && cs2[..|cs|] == cs
            && FreeSlot(d, DirSectors(f, cs)).None?
            && Extended(d, mid, f, cs, cs2[|cs|])
  }

  /** At most one write happened, and it stored `entry` in the slot `free`. */
  ghost predicate AtMostStored(was: Disk, now: Disk, h: seq<Disk>, history: seq<Disk>, free: Option<(nat, nat)>,
          entry: DirEntry)
    requires entry.Valid()
  {
    || (now == was && history == h)
    || (&& free.Some? && free.value.0 < |was| && free.value.1 < 16
        && now == was[free.value.0 := PutEntry(was[free.value.0], 32 * free.value.1, entry)]
        && history == h + [now])
  }

  /** What trying the slots of the sectors `secs` did: the first free one took `entry`, if there is one. */
  ghost predicate Tried(was: Disk, now: Disk, h: seq<Disk>, history: seq<Disk>, secs: seq<nat>, entry: DirEntry,
          r: Result<bool>)
    requires entry.Valid()
  {
    && AtMostStored(was, now, h, history, FreeSlot(was, secs), entry)
    && (r == Ok(false) ==> now == was && history == h && FreeSlot(was, secs).None?)
    && (r == Ok(true) ==>
          var free := FreeSlot(was, secs);
          && free.Some? && free.value.0 < |was| && free.value.1 < 16
          && now == was[free.value.0 := PutEntry(was[free.value.0], 32 * free.value.1, entry)])
  }

  lemma StoredNothing(d: Disk, h: seq<Disk>, block: nat, entry: DirEntry)
    requires entry.Valid()
    ensures AtMostStored(d, d, h, h, FreeSlot(d, [block]), entry)
  {
  }

  lemma {:induction false} StoredHere(d: Disk, e: Disk, h: seq<Disk>, history: seq<Disk>, block: nat, entry: DirEntry)
    requires entry.Valid() && block < |d| && FreeIn(d[block], 0) < 16
    requires || (e == d && history == h)
             || (e == d[block := PutEntry(d[block], 32 * FreeIn(d[block], 0), entry)] && history == h + [e])
    ensures AtMostStored(d, e, h, history, FreeSlot(d, [block]), entry)
  {
    hide PutEntry;
  }

  /** Try the free slots of one sector. */
  method StoreInSector(card: Card, block: nat, entry: DirEntry) returns (r: Result<bool>)
    requires card.Valid() && entry.Valid()
    modifies card
    ensures card.Valid() && |card.sectors| == |old(card.sectors)|
    ensures r.Err? ==> r.error == Io
    ensures r.Ok? ==> block < |card.sectors| && r.value == (FreeIn(old(card.sectors)[block], 0) < 16)
    ensures r == Ok(false) ==> card.sectors == old(card.sectors) && card.history == old(card.history)
    ensures
      var free := FreeSlot(old(card.sectors), [block]);
      AtMostStored(old(card.sectors), card.sectors, old(card.history), card.history, free, entry)
    ensures r == Ok(true) ==>
              var was := old(card.sectors)[block];
              card.sectors == old(card.sectors)[block := PutEntry(was, 32 * FreeIn(was, 0), entry)]
  {
    hide PutEntry, FreeSlot, AtMostStored;
    ghost var d, h := card.sectors, card.history;
    StoredNothing(d, h, block, entry);
    var buf :- card.ReadBlock(block);
    for i := 0 to 16
      invariant FreeIn(buf, 0) == FreeIn(buf, i)
    {
      var off := i * 32;
      if buf[off] == END_MARK || buf[off] == DELETED_MARK {
        buf := PutEntry(buf, off, entry);
        var written := card.WriteBlock(block, buf);
        StoredHere(d, card.sectors, h, card.history, block, entry);
        var _ :- written;
        return Ok(true);
      }
    }
    return Ok(false);
  }

  /** Try the free slots of one cluster. */
  method StoreInCluster(card: Card, f: Info, cluster: nat, entry: DirEntry) returns (r: Result<bool>)
    requires card.Valid() && entry.Valid()
    modifies card
    ensures card.Valid() && |card.sectors| == |old(card.sectors)|
    ensures r.Err? ==> r.error == Io
    ensures Tried(old(card.sectors), card.sectors, old(card.history), card.history, SectorsOf(f, cluster), entry, r)
  {
    hide PutEntry, ClusterToSector, FreeIn;
    var baseSector := ClusterToSector(f, cluster);
    ghost var d := card.sectors;
    for s := 0 to f.sectorsPerCluster
      invariant card.Valid() && card.sectors == d && card.history == old(card.history)
      invariant FreeSlot(d, SectorsOf(f, cluster)) == FreeSlot(d, SectorsFrom(baseSector, s, f.sectorsPerCluster))
      invariant s > 0 ==> baseSector + s <= |d|
    {
      var stored :- StoreInSector(card, baseSector + s, entry);
      if stored {
        return Ok(true);
      }
      assert SectorsFrom(baseSector, s, f.sectorsPerCluster)[1..]
          == SectorsFrom(baseSector, s + 1, f.sectorsPerCluster);
    }
    return Ok(false);
  }

  /** Zero the sectors of a new directory cluster. */
  method ZeroCluster(card: Card, f: Info, cluster: nat) returns (r: Result<Unit>)
    requires card.Valid()
    modifies card
    ensures card.Valid() && |card.sectors| == |old(card.sectors)|
    ensures r.Err? ==> r.error == Io
    ensures r.Ok? ==> forall s :: 0 <= s < |card.sectors| ==>
                        card.sectors[s] == if InCluster(f, cluster, s) then ZeroSector() else old(card.sectors)[s]
  {
    var newBase := ClusterToSector(f, cluster);
    for s := 0 to f.sectorsPerCluster
      invariant card.Valid() && |card.sectors| == |old(card.sectors)|
      invariant forall q :: 0 <= q < |card.sectors| ==>
                  card.sectors[q] == if newBase <= q < newBase + s then ZeroSector() else old(card.sectors)[q]
    {
      var _ :- card.WriteBlock(newBase + s, ZeroSector());
    }
    return Ok(Unit);
  }

  /** `cluster` ends the directory. */
  ghost predicate EndsAt(d: Disk, f: Info, cs: seq<nat>, cluster: nat) {
    RootOk(d, f, cs) && cs[|cs| - 1] == cluster
  }

  /** Allocate, link and zero one more cluster at the end of the directory. */
  method ExtendDirectory(card: Card, f: Info, cluster: nat, ghost cs: seq<nat>) returns (r: Result<nat>)
    requires card.Valid() && WellFormed(f, |card.sectors|)
    requires FatSectorFor(f, cluster).1 + 4 <= 512
    modifies card
    ensures card.Valid() && |card.sectors| == |old(card.sectors)|
    ensures r.Err? ==> r.error == Io || r.error == DiskFull
    ensures r == Err(DiskFull) ==> card.sectors == old(card.sectors)
    // The new cluster is the first free one behind `cluster`, wrapping once.
    ensures r.Ok? ==>
              FirstFrom(Fat(old(card.sectors), f, 0), MaxCluster(f), if OnCard(f, cluster + 1) then cluster + 1 else 2,
                        r.value)
    ensures EndsAt(old(card.sectors), f, cs, cluster) && r.Ok? ==>
              Lengthened(old(card.sectors), card.sectors, f, cs, r.value)
  {
    hide FatSectorFor, ClusterToSector, Lengthened, Fat, MaxCluster;
    ghost var d := card.sectors;
    var newCl :- AllocateCluster(card, f, cluster + 1);
    ghost var d1 := card.sectors;
    var _ :- WriteFatEntry(card, f, cluster, newCl);
    ghost var d2 := card.sectors;
    var _ :- ZeroCluster(card, f, newCl);
    if EndsAt(d, f, cs, cluster) {
      DirectoryLengthened(d, d1, d2, card.sectors, f, cs, newCl);
    }
    return Ok(newCl);
  }

  lemma {:induction false} DirectoryLengthened(d: Disk, d1: Disk, d2: Disk, e: Disk, f: Info, cs: seq<nat>, nc: nat)
    requires RootOk(d, f, cs)
    requires SameOutsideFats(d, d1, f) && SameOutsideFats(d1, d2, f) && |e| == |d|
    requires OnCard(f, nc) && Fat(d, f, 0)[nc] == 0
    requires EntrySetInAll(d, d1, f, nc, EOC)
    requires EntrySetInAll(d1, d2, f, cs[|cs| - 1], nc)
    requires forall s :: 0 <= s < |e| ==> e[s] == if InCluster(f, nc, s) then ZeroSector() else d2[s]
    ensures Lengthened(d, e, f, cs, nc)
  {
    hide ClusterToSector, Nibbles, MaxCluster, CopyStart;
    ClusterIsBehindFats(f, |d|, nc);
    hide Fat;
    var last := cs[|cs| - 1];
    FatUnchanged(d2, e, f, 0);
    if f.numFats == 2 {
      FatUnchanged(d2, e, f, 1);
    }
    var t, u := Fat(d, f, 0), Fat(e, f, 0);
    var grown: Table := t[nc := EOC];
    assert u == grown[last := nc];
    var cs2 := cs + [nc];
    ChainGrows(t, cs, nc);
    assert RootChain(e, f, cs2);
  }

  lemma {:induction false} WithinBound(d: Disk, e: Disk, f: Info, cs: seq<nat>, nc: nat)
    requires RootOk(d, f, cs) && Lengthened(d, e, f, cs, nc) && |cs| * f.sectorsPerCluster <= MAX_DIR_SECTORS
    ensures Extended(d, e, f, cs, nc)
  {
    hide RootChain;
    assert |cs + [nc]| - 1 == |cs|;
  }

  /** A free cluster linked behind the last one lengthens the chain. */
  lemma {:induction false} ChainGrows(t: Table, cs: seq<nat>, nc: nat)
    requires IsChain(t, cs) && IsData(nc) && nc < |t| && t[nc] == 0
    ensures IsChain(t[nc := EOC][cs[|cs| - 1] := nc], cs + [nc])
  {
    var n := |cs|;
    var u := t[nc := EOC][cs[n - 1] := nc];
    var cs2 := cs + [nc];
    forall i | 0 <= i < n
      ensures cs[i] != nc && (i < n - 1 ==> cs[i] != cs[n - 1])
    {
      assert i < n - 1 ==> t[cs[i]] == cs[i + 1];
      if i < n - 1 {
        ChainIsAcyclic(t, cs, i, n - 1);
      }
    }
    forall i | 0 <= i < n
      ensures u[cs2[i]] == cs2[i + 1]
    {
    }
  }

  /** Where a walk over the directory `cs` of the card `mid` stands: cluster `k`, with no free slot before it. */
  ghost predicate AtCluster(d: Disk, mid: Disk, f: Info, cs: seq<nat>, cs2: seq<nat>, k: nat, cluster: nat, walked: nat)
    requires RootOk(d, f, cs)
  {
    && RootOk(mid, f, cs2)
    && k < |cs2| && cluster == cs2[k] && walked == k * f.sectorsPerCluster
    && FreeSlot(mid, DirSectors(f, cs2)) == FreeSlot(mid, DirSectors(f, cs2[k..]))
    && if cs2 == cs then mid == d
       else |cs2| == |cs| + 1 && cs2[..|cs|] == cs
            && FreeSlot(d, DirSectors(f, cs)).None?
            && Extended(d, mid, f, cs, cs2[|cs|])
  }

  lemma {:induction false} FreeSlotSame(d: Disk, e: Disk, secs: seq<nat>)
    requires |d| == |e| && forall q :: q in secs && q < |d| ==> d[q] == e[q]
    ensures FreeSlot(d, secs) == FreeSlot(e, secs)
  {
    hide FreeIn;
    if secs != [] {
      FreeSlotSame(d, e, secs[1..]);
    }
  }

  /** The first free slot from cluster `k` on is in cluster `k` or behind it. */
  lemma {:induction false} FreeSlotFrom(d: Disk, f: Info, cs: seq<nat>, k: nat)
    requires WellFormed(f, |d|) && k < |cs| && OnCard(f, cs[k])
    ensures
      var here := FreeSlot(d, SectorsOf(f, cs[k]));
      FreeSlot(d, DirSectors(f, cs[k..])) == if here.None? then FreeSlot(d, DirSectors(f, cs[k + 1..])) else here
  {
    hide WellFormed, ClusterToSector, FreeIn;
    ClusterIsBehindFats(f, |d|, cs[k]);
    FreeSlotConcat(d, SectorsOf(f, cs[k]), DirSectors(f, cs[k + 1..]));
    assert cs[k..][1..] == cs[k + 1..];
  }

  lemma {:induction false} AtStart(d: Disk, f: Info, cs: seq<nat>)
    requires RootOk(d, f, cs)
    ensures AtCluster(d, d, f, cs, cs, 0, f.rootCluster, 0)
  {
    assert cs[0..] == cs;
  }

  lemma InDirectory(d: Disk, mid: Disk, f: Info, cs: seq<nat>, cs2: seq<nat>, k: nat, cluster: nat, walked: nat)
    requires RootOk(d, f, cs) && AtCluster(d, mid, f, cs, cs2, k, cluster, walked)
    ensures k < |cs2|
  {
  }

  lemma {:induction false} AtStored(d: Disk, mid: Disk, now: Disk, f: Info, cs: seq<nat>, cs2: seq<nat>, k: nat,
          cluster: nat,
          walked: nat, entry: DirEntry)
    requires RootOk(d, f, cs) && AtCluster(d, mid, f, cs, cs2, k, cluster, walked) && entry.Valid()
    requires
      var free := FreeSlot(mid, SectorsOf(f, cluster));
      && free.Some? && free.value.0 < |mid| && free.value.1 < 16
      && now == mid[free.value.0 := PutEntry(mid[free.value.0], 32 * free.value.1, entry)]
    ensures EntryAdded(d, now, f, cs, cs2, mid, entry)
  {
    hide ClusterToSector, Fat, MaxCluster, Extended, FreeIn, PutEntry, DirSectors, WellFormed;
    FreeSlotFrom(mid, f, cs2, k);
  }

  /** No free slot in cluster `k`, which is not the last: the walk goes on to cluster `k + 1`. */
  lemma {:induction false} AtNext(d: Disk, mid: Disk, f: Info, cs: seq<nat>, cs2: seq<nat>, k: nat, cluster: nat,
                                  walked: nat)
    requires RootOk(d, f, cs) && AtCluster(d, mid, f, cs, cs2, k, cluster, walked) && walked <= MAX_DIR_SECTORS
    requires FreeSlot(mid, SectorsOf(f, cluster)).None?
    requires k + 1 < |cs2|
    ensures NextDir(mid, f, cluster, walked) == Ok((Some(cs2[k + 1]), walked + f.sectorsPerCluster))
    ensures AtCluster(d, mid, f, cs, cs2, k + 1, cs2[k + 1], walked + f.sectorsPerCluster)
  {
    hide Fat, WellFormed, OnCard, SectorsOf, DirSectors, Extended, NextDir, FreeSlot;
    FreeSlotFrom(mid, f, cs2, k);
    ChargedBefore(k, |cs2|, f.sectorsPerCluster);
    ChargedBefore(k + 1, |cs2|, f.sectorsPerCluster);
    NextInChain(mid, f, cs2, k);
  }

  /** No free slot in the last cluster: the directory is full, and it has not grown in this walk. */
  lemma {:induction false} AtLast(d: Disk, mid: Disk, f: Info, cs: seq<nat>, cs2: seq<nat>, k: nat, cluster: nat,
                                  walked: nat)
    requires RootOk(d, f, cs) && AtCluster(d, mid, f, cs, cs2, k, cluster, walked) && walked <= MAX_DIR_SECTORS
    requires FreeSlot(mid, SectorsOf(f, cluster)).None?
    requires k + 1 == |cs2|
    ensures NextDir(mid, f, cluster, walked) == Ok((None, walked))
    ensures mid == d && cs2 == cs && cluster == cs[|cs| - 1]
    ensures FreeSlot(d, DirSectors(f, cs)).None?
    ensures walked + f.sectorsPerCluster == |cs| * f.sectorsPerCluster
  {
    hide Fat, WellFormed, OnCard, SectorsOf, NextDir;
    FreeSlotFrom(mid, f, cs2, k);
    assert cs2[k + 1..] == [];
    assert FreeSlot(mid, DirSectors(f, [])).None?;
    hide FreeSlot, DirSectors;
    ChargedBefore(k, |cs2|, f.sectorsPerCluster);
    NextInChain(mid, f, cs2, k);
    if cs2 != cs {
      GrownHasRoom(d, mid, f, cs, cs2[|cs|]);
    }
  }

  lemma {:induction false} GrownHasRoom(d: Disk, e: Disk, f: Info, cs: seq<nat>, nc: nat)
    requires RootOk(d, f, cs) && Lengthened(d, e, f, cs, nc)
    ensures FreeSlot(e, SectorsOf(f, nc)).Some?
  {
    ClusterIsBehindFats(f, |e|, nc);
    hide Fat, ClusterToSector;
    var secs := SectorsOf(f, nc);
    assert secs[0] == ClusterToSector(f, nc);
    assert InCluster(f, nc, secs[0]);
    assert IsFree(e[secs[0]], 0);
  }

  /** The directory was full and has grown: the walk is at its new last cluster. */
  lemma {:induction false} AtGrown(d: Disk, e: Disk, f: Info, cs: seq<nat>, nc: nat)
    requires RootOk(d, f, cs) && Extended(d, e, f, cs, nc)
    requires FreeSlot(d, DirSectors(f, cs)).None?
    ensures AtCluster(d, e, f, cs, cs + [nc], |cs|, nc, |cs| * f.sectorsPerCluster)
  {
    RootSectorsAre(d, f, cs);
    var cs2 := cs + [nc];
    RootSectorsAre(e, f, cs2);
    hide ClusterToSector, FreeIn, SectorsOf;
    DirSectorsConcat(f, cs, [nc]);
    forall q | q in DirSectors(f, cs)
      ensures d[q] == e[q]
    {
      if InCluster(f, nc, q) {
        var c :| c in cs && InCluster(f, c, q);
        assert nc !in cs by {
          NotFreeInChain(Fat(d, f, 0), cs, nc);
        }
        ClustersDisjoint(f, |d|, c, nc, q - ClusterToSector(f, c), q - ClusterToSector(f, nc));
      }
    }
    FreeSlotSame(d, e, DirSectors(f, cs));
    FreeSlotConcat(e, DirSectors(f, cs), DirSectors(f, [nc]));
    assert cs2[|cs|..] == [nc];
    assert cs2[..|cs|] == cs;
  }

  lemma {:induction false} NotFreeInChain(t: Table, cs: seq<nat>, c: nat)
    requires IsChain(t, cs) && c < |t| && t[c] == 0
    ensures c !in cs
  {
    forall i | 0 <= i < |cs|
      ensures t[cs[i]] != 0
    {
      assert i < |cs| - 1 ==> t[cs[i]] == cs[i + 1];
    }
  }

  /** After cluster `k` was tried. */
  lemma {:induction false} AfterTry(d: Disk, mid: Disk, now: Disk, h: seq<Disk>, history: seq<Disk>, f: Info,
          cs: seq<nat>, cs2: seq<nat>,
                 k: nat, cluster: nat, walked: nat, entry: DirEntry, r: Result<bool>)
    requires RootOk(d, f, cs) && AtCluster(d, mid, f, cs, cs2, k, cluster, walked)
    requires entry.Valid() && Tried(mid, now, h, history, SectorsOf(f, cluster), entry, r)
    ensures r == Ok(true) ==> EntryAdded(d, now, f, cs, cs2, mid, entry)
    ensures mid == d && cs2 == cs ==>
              (now == d && history == h) || (history == h + [now] && EntryAdded(d, now, f, cs, cs, d, entry))
    ensures r == Ok(false) ==> now == mid && history == h && FreeSlot(mid, SectorsOf(f, cluster)).None?
  {
    hide RootOk, FreeSlot, SectorsOf, NextDir, DirSectors, Extended, EntryAdded, PutEntry;
    if r == Ok(true) || history != h {
      AtStored(d, mid, now, f, cs, cs2, k, cluster, walked, entry);
    }
  }

  /** The cluster to try after a full one: the next of the directory, or a new one at its end. */
  method GoOn(card: Card, f: Info, cluster: nat, sectorsWalked: nat, ghost d: Disk, ghost cs: seq<nat>,
          ghost was: seq<nat>, ghost k0: nat)
    returns (r: Result<(nat, nat)>, ghost cs2: seq<nat>, ghost k: nat)
    requires card.Valid() && |card.sectors| == |d| && WellFormed(f, |d|) && sectorsWalked <= MAX_DIR_SECTORS
    requires RootOk(d, f, cs) ==>
               && AtCluster(d, card.sectors, f, cs, was, k0, cluster, sectorsWalked)
               && FreeSlot(card.sectors, SectorsOf(f, cluster)).None?
    modifies card
    ensures card.Valid() && |card.sectors| == |d|
    ensures r.Ok? ==> sectorsWalked < r.value.1 <= MAX_DIR_SECTORS
    ensures RootOk(d, f, cs) ==>
              && (r.Err? ==> r.error in {Io, DiskFull, DirectoryTooLarge})
              && (r.Ok? ==> AtCluster(d, card.sectors, f, cs, cs2, k, r.value.0, r.value.1))
    ensures RootOk(d, f, cs) && FreeSlot(d, DirSectors(f, cs)).Some? ==>
              card.sectors == old(card.sectors) && card.history == old(card.history) && cs2 == was
    ensures RootOk(d, f, cs) && r == Err(DiskFull) ==> card.sectors == d
    ensures RootOk(d, f, cs) && r == Err(DirectoryTooLarge) ==> Overgrown(d, card.sectors, f, cs)
  {
    assert 0 < f.sectorsPerCluster;
    hide FreeSlot, FatSectorFor, SectorsOf, NextDir, DirSectors, WellFormed, RootOk, AtCluster, Extended, Lengthened;
    ghost var onRoot := RootOk(d, f, cs);
    cs2, k := was, k0 + 1;
    if onRoot {
      InDirectory(d, card.sectors, f, cs, was, k0, cluster, sectorsWalked);
      if k < |was| {
        AtNext(d, card.sectors, f, cs, was, k0, cluster, sectorsWalked);
      } else {
        AtLast(d, card.sectors, f, cs, was, k0, cluster, sectorsWalked);
      }
    }
    var step := NextDirCluster(card, f, cluster, sectorsWalked);
    if step.Err? {
      return Err(step.error), cs2, k;
    }
    if step.value.0.Some? {
      return Ok((step.value.0.value, step.value.1)), cs2, k;
    }
    // Genuine end of chain: extend the directory.
    var newCl := ExtendDirectory(card, f, cluster, cs);
    if newCl.Err? {
      return Err(newCl.error), cs2, k;
    }
    var walked := SatAdd(sectorsWalked, f.sectorsPerCluster);
    if walked > 8192 {
      return Err(DirectoryTooLarge), cs2, k;
    }
    if onRoot {
      WithinBound(d, card.sectors, f, cs, newCl.value);
      AtGrown(d, card.sectors, f, cs, newCl.value);
    }
    cs2, k := cs + [newCl.value], |cs|;
    return Ok((newCl.value, walked)), cs2, k;
  }

  /** Write a directory entry into the first free slot of the root directory, growing it if it is full. */
  method WriteDirEntryToRoot(card: Card, f: Info, entry: DirEntry, ghost cs: seq<nat>)
    returns (r: Result<Unit>, ghost cs2: seq<nat>, ghost mid: Disk)
    requires card.Valid() && WellFormed(f, |card.sectors|) && entry.Valid()
    modifies card
    ensures card.Valid() && |card.sectors| == |old(card.sectors)|
    ensures RootOk(old(card.sectors), f, cs) ==>
              && (r.Err? ==> r.error in {Io, DiskFull, DirectoryTooLarge})
              && (r.Ok? ==> EntryAdded(old(card.sectors), card.sectors, f, cs, cs2, mid, entry))
    ensures RootOk(old(card.sectors), f, cs) && r == Err(DiskFull) ==> card.sectors == old(card.sectors)
    ensures RootOk(old(card.sectors), f, cs) && r == Err(DirectoryTooLarge) ==>
              Overgrown(old(card.sectors), card.sectors, f, cs)
    // A directory with a free slot is written at most once: before that it is as it was, after it the entry is there.
    ensures RootOk(old(card.sectors), f, cs) && FreeSlot(old(card.sectors), DirSectors(f, cs)).Some? ==>
              || (card.sectors == old(card.sectors) && card.history == old(card.history))
              || (card.history == old(card.history) + [card.sectors]
                  && EntryAdded(old(card.sectors), card.sectors, f, cs, cs, old(card.sectors), entry))
  {
    hide FreeSlot, Tried, SectorsOf, DirSectors, WellFormed, RootOk, AtCluster, EntryAdded, Overgrown;
    ghost var d := card.sectors;
    ghost var k: nat := 0;
    cs2, mid := cs, d;
    ghost var onRoot := RootOk(d, f, cs);
    ghost var room := onRoot && FreeSlot(d, DirSectors(f, cs)).Some?;
    var cluster := f.rootCluster;
    var sectorsWalked := 0;
    if onRoot {
      AtStart(d, f, cs);
    }
    while true
      invariant card.Valid() && |card.sectors| == |d| && sectorsWalked <= MAX_DIR_SECTORS
      invariant onRoot ==> card.sectors == mid && AtCluster(d, mid, f, cs, cs2, k, cluster, sectorsWalked)
      invariant room ==> mid == d && cs2 == cs && card.history == old(card.history)
      decreases MAX_DIR_SECTORS - sectorsWalked
    {
      ghost var h := card.history;
      var stored := StoreInCluster(card, f, cluster, entry);
      if onRoot {
        AfterTry(d, mid, card.sectors, h, card.history, f, cs, cs2, k, cluster, sectorsWalked, entry, stored);
      }
      if stored.Err? {
        return Err(stored.error), cs2, mid;
      }
      if stored.value {
        return Ok(Unit), cs2, mid;
      }
      var next, grown, at := GoOn(card, f, cluster, sectorsWalked, d, cs, cs2, k);
      if next.Err? {
        return Err(next.error), cs2, mid;
      }
      cluster := next.value.0;
      sectorsWalked := next.value.1;
      cs2, mid, k := grown, card.sectors, at;
    }
  }
}
