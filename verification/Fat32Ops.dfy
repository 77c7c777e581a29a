/** Create, delete and overwrite: each is one update of the map from names to contents. */
module Fat32Ops {
  import opened Bytes
  import opened Fat32Card
  import opened Fat32Layout
  import opened Fat32Tables
  import opened Fat32Alloc
  import opened Fat32Dir
  import opened Fat32Root
  import opened Fat32Read
  import opened Fat32Write
  import opened Fat32Files
  import opened Fat32Delete
  import opened Fat32Fs

  /** A name that a directory entry can carry without reading as free. */
  predicate Storable(name: Name) {
    name[0] != END_MARK && name[0] != DELETED_MARK
  }

  const ATTR_ARCHIVE: byte := 0x20

  // ---- create ----

  /** Clusters that `size` bytes need. */
  function ClustersNeeded(f: Info, size: nat): nat
    requires 0 < f.sectorsPerCluster
  {
    if size == 0 then 0 else (size + ClusterBytes(f) - 1) / ClusterBytes(f)
  }

  lemma {:induction false} Ceiling(n: nat, m: nat)
    requires 0 < n && 0 < m
    ensures var q := (n + m - 1) / m; 0 < q && (q - 1) * m < n <= q * m
  {
    var q := (n + m - 1) / m;
    var r := (n + m - 1) % m;
    assert n + m - 1 == m * q + r;
    assert (q - 1) * m == m * q - m;
    assert q <= 0 ==> m * q <= 0;
  }

  lemma {:induction false} NeededFit(f: Info, size: nat)
    requires 0 < f.sectorsPerCluster && 0 < size
    ensures
      var n := ClustersNeeded(f, size);
      0 < n && 512 * FirstSector(f, n - 1) < size <= 512 * FirstSector(f, n)
  {
    Ceiling(size, ClusterBytes(f));
    var n := ClustersNeeded(f, size);
    InBytes(f, n);
    InBytes(f, n - 1);
  }

  lemma InBytes(f: Info, k: nat)
    ensures 512 * FirstSector(f, k) == k * ClusterBytes(f)
  {
  }

  /** The chain the allocator claimed is one the data fits. */
  lemma {:induction false} ClaimFits(d: Disk, e: Disk, f: Info, data: seq<byte>, count: nat)
    requires WellFormed(f, |d|) && data != [] && count == ClustersNeeded(f, |data|)
    requires count <= |FreeClusters(d, f)| && PartlyClaimed(d, e, f, FirstFit(d, f, count), 0, 0)
    ensures FitsChain(e, f, FirstFit(d, f, count), data)
  {
    var chain := FirstFit(d, f, count);
    FirstFitIsLowest(d, f, count);
    NeededFit(f, |data|);
    hide FreeClusters, FirstFit, FirstSector, ClustersNeeded, Fat;
    ClaimedTail(Fat(d, f, 0), chain, 0);
    assert chain[0..] == chain;
  }

  function NewEntry(name: Name, first: nat, size: nat): (e: DirEntry)
    requires first < NIBBLE && size < U32_LIMIT
    ensures e.Valid() && e.FirstCluster() == first
    ensures e.name == name && e.attr == 0x20 && e.fileSize == size
  {
    DirEntry(name, ATTR_ARCHIVE, first / 0x1_0000, first % 0x1_0000, size)
  }

  /** Claiming and filling a chain makes a whole spare file and disturbs no other. */
  lemma {:induction false} FilePrepared(d: Disk, d1: Disk, d2: Disk, f: Info, cs: seq<nat>, name: Name,
          data: seq<byte>, count: nat)
    requires FsOk(d, f, cs) && data != [] && |data| < U32_LIMIT && count == ClustersNeeded(f, |data|)
    requires count <= |FreeClusters(d, f)| && PartlyClaimed(d, d1, f, FirstFit(d, f, count), 0, 0)
    requires OnlyIn(d1, d2, f, FirstFit(d, f, count)) && Holds(d2, f, FirstFit(d, f, count), data)
    ensures 0 < count && FirstFit(d, f, count)[0] < NIBBLE
    ensures FsOk(d2, f, cs) && (Mirrored(d, f) ==> Mirrored(d2, f))
    ensures 0 < f.sectorsPerCluster && forall n :: Lookup(d2, f, n) == Lookup(d, f, n)
    ensures
      var e := NewEntry(name, FirstFit(d, f, count)[0], |data|);
      Prepared(d2, f, cs, e, data)
  {
    var chain := FirstFit(d, f, count);
    ClaimFits(d, d1, f, data, count);
    FirstFitIsLowest(d, f, count);
    FirstFitIsSpare(d, f, cs, count);
    ClaimIsConfined(d, d1, f, chain, 0, 0);
    ConfinedTwice(d, d1, d2, f, chain);
    ConfinedChange(d, d2, f, cs, chain);
    StillFits(d1, d2, f, chain, data);
    SpareStays(d, d2, f, cs, chain);
    FitsSome(d1, f, chain, data);
    hide FsOk, Lookup, FitsChain, Holds, FirstFit, FreeClusters, ClustersNeeded, OnlyClusters, OnlyIn, Spare,
         FirstSector, Fat;
    HeldFile(d2, f, cs, NewEntry(name, chain[0], |data|), chain, data);
  }

  lemma {:induction false} StillFits(d1: Disk, d2: Disk, f: Info, chain: seq<nat>, data: seq<byte>)
    requires FitsChain(d1, f, chain, data) && |d1| == |d2| && Fat(d2, f, 0) == Fat(d1, f, 0)
    ensures FitsChain(d2, f, chain, data)
  {
    hide Fat, FirstSector;
  }

  lemma {:induction false} SpareStays(d: Disk, e: Disk, f: Info, cs: seq<nat>, chain: seq<nat>)
    requires FsOk(d, f, cs) && FsOk(e, f, cs) && EntriesKept(d, e, f, cs, cs) && Spare(d, f, cs, chain) && |e| == |d|
    ensures Spare(e, f, cs, chain)
  {
    EntriesStayOk(d, e, f, cs, cs);
    hide Live, EntryOf, ChainOf, FileOk, Fat, RootOk, Tidy, AllOn, DirSectors, EntriesOk, EntriesApart, ClustersKept,
         Contents;
  }

  /** `e` names a whole file of the card that is not in the directory yet, with contents `data`. */
  ghost predicate Prepared(d: Disk, f: Info, cs: seq<nat>, e: DirEntry, data: seq<byte>) {
    && FileOk(d, f, e)
    && Spare(d, f, cs, ChainOf(d, f, e))
    && 0 < f.sectorsPerCluster
    && Contents(d, f, e) == Ok(data)
  }

  lemma {:induction false} HeldFile(d: Disk, f: Info, cs: seq<nat>, e: DirEntry, chain: seq<nat>, data: seq<byte>)
    requires FitsChain(d, f, chain, data) && Holds(d, f, chain, data) && Spare(d, f, cs, chain)
    requires e.FirstCluster() == chain[0] && e.fileSize == |data|
    ensures Prepared(d, f, cs, e, data)
  {
    ReadBack(d, f, chain, data);
    WalkOfChain(Fat(d, f, 0), chain);
    hide Fat, Holds, Walk, FirstSector, ReadFrom;
  }

  lemma EmptyFile(d: Disk, f: Info, cs: seq<nat>, e: DirEntry)
    requires WellFormed(f, |d|) && e.FirstCluster() == 0 && e.fileSize == 0
    ensures Prepared(d, f, cs, e, [])
  {
  }

  /** A prepared file survives the growth of the directory. */
  lemma {:induction false} PreparedAfterGrowth(d: Disk, e: Disk, f: Info, cs: seq<nat>, nc: nat, entry: DirEntry,
          data: seq<byte>)
    requires FsOk(d, f, cs) && Extended(d, e, f, cs, nc) && FreeSlot(d, DirSectors(f, cs)).None?
    requires Prepared(d, f, cs, entry, data)
    ensures FsOk(e, f, cs + [nc]) && (forall n :: Lookup(e, f, n) == Lookup(d, f, n))
    ensures Prepared(e, f, cs + [nc], entry, data)
    ensures |e| == |d| && (Mirrored(d, f) ==> Mirrored(e, f))
  {
    DirectoryGrown(d, e, f, cs, nc);
    FileOutsideGrowth(d, e, f, cs, nc, entry);
    FileKept(d, e, f, entry);
    EntriesStayOk(d, e, f, cs, cs + [nc]);
    hide Live, EntryOf, ChainOf, FileOk, RootOk, Tidy, AllOn, DirSectors, EntriesOk, EntriesApart, ClustersKept,
         Contents, Lookup, Fat;
    forall c | c in ChainOf(d, f, entry)
      ensures c !in cs + [nc]
    {
    }
  }

  /** What a create does to a well-formed file system. */
  ghost predicate Created(d: Disk, e: Disk, f: Info, cs2: seq<nat>, name: Name, data: seq<byte>)
    requires 0 < f.sectorsPerCluster
  {
    && FsOk(e, f, cs2)
    && forall n :: Lookup(e, f, n) == if SameName(name, n) then Ok(data) else Lookup(d, f, n)
  }

  lemma {:induction false} EntryAddedCreates(d: Disk, e: Disk, f: Info, cs: seq<nat>, cs2: seq<nat>, mid: Disk,
          entry: DirEntry,
          data: seq<byte>)
    requires FsOk(d, f, cs) && Prepared(d, f, cs, entry, data)
    requires entry.Valid() && Storable(entry.name) && entry.attr != ATTR_LFN
    requires EntryAdded(d, e, f, cs, cs2, mid, entry)
    requires Find(d, f, entry.name) == Err(FileNotFound)
    ensures Created(d, e, f, cs2, entry.name, data) && (entry.attr == 0x20 ==> Entered(e, f, entry))
    ensures |e| == |d| && (Mirrored(d, f) ==> Mirrored(e, f))
  {
    hide Entered, FsOk, Prepared, Extended, Lookup, FreeSlot, DirSectors, Live, EntryOf, Contents, Fat, Find;
    if cs2 != cs {
      var nc := cs2[|cs|];
      assert cs2 == cs + [nc];
      PreparedAfterGrowth(d, mid, f, cs, nc, entry, data);
      StillMissing(d, mid, f, cs, cs2, entry.name);
    }
    LookupMissing(mid, f, cs2, entry.name);
    StoreOne(mid, e, f, cs2, entry, data);
  }

  lemma {:induction false} StillMissing(d: Disk, mid: Disk, f: Info, cs: seq<nat>, cs2: seq<nat>, name: Name)
    requires FsOk(d, f, cs) && FsOk(mid, f, cs2)
    requires 0 < f.sectorsPerCluster && Find(d, f, name) == Err(FileNotFound)
              && Lookup(mid, f, name) == Lookup(d, f, name)
    ensures Find(mid, f, name) == Err(FileNotFound)
  {
    hide Find, Contents, RootOk, Tidy, AllOn, DirSectors, EntriesApart, Live, EntryOf;
    if q, i :| Live(mid, f, cs2, q, i) && SameName(EntryOf(mid, f, cs2, q, i).name, name) {
      LookupLive(mid, f, cs2, q, i, name);
      FileReads(mid, f, EntryOf(mid, f, cs2, q, i));
    } else {
      LookupNone(mid, f, cs2, name);
    }
  }

  lemma {:induction false} StoreOne(d: Disk, e: Disk, f: Info, cs: seq<nat>, entry: DirEntry, data: seq<byte>)
    requires FsOk(d, f, cs) && Prepared(d, f, cs, entry, data)
    requires entry.Valid() && Storable(entry.name) && entry.attr != ATTR_LFN && Stored(d, e, f, cs, entry)
    requires forall q, i :: Live(d, f, cs, q, i) ==> !SameName(EntryOf(d, f, cs, q, i).name, entry.name)
    ensures Created(d, e, f, cs, entry.name, data) && (entry.attr == 0x20 ==> Entered(e, f, entry))
    ensures |e| == |d| && (Mirrored(d, f) ==> Mirrored(e, f))
  {
    hide FsOk, Lookup, FreeSlot, DirSectors, Live, EntryOf, Contents, FileOk, ChainOf, Spare, Fat, PutEntry, RootOk,
         Mirrored, Entered;
    EntryStored(d, e, f, cs, entry, data);
  }

  // ---- power loss during a create ----

  /** The file system is well formed and every name reads as it did. */
  ghost predicate Unharmed(d: Disk, e: Disk, f: Info, cs: seq<nat>)
    requires 0 < f.sectorsPerCluster
  {
    && FsOk(e, f, cs)
    && forall n :: Lookup(e, f, n) == Lookup(d, f, n)
  }

  ghost predicate PastUnharmed(d: Disk, history: seq<Disk>, from: nat, f: Info, cs: seq<nat>)
    requires 0 < f.sectorsPerCluster
  {
    from <= |history| && forall i | from <= i < |history| :: Unharmed(d, history[i], f, cs)
  }

  /** Every card state after the first `from` is the old file system or the one with the new file whole. */
  ghost predicate AllOrNothing(d: Disk, history: seq<Disk>, from: nat, f: Info, cs: seq<nat>, name: Name,
          data: seq<byte>)
    requires 0 < f.sectorsPerCluster
  {
    && from <= |history|
    && forall i | from <= i < |history| :: Unharmed(d, history[i], f, cs) || Created(d, history[i], f, cs, name, data)
  }

  lemma {:induction false} ClaimPast(d: Disk, h: seq<Disk>, history: seq<Disk>, f: Info, cs: seq<nat>, count: nat)
    requires FsOk(d, f, cs) && 0 < f.sectorsPerCluster && h <= history
    requires history != h ==> count <= |FreeClusters(d, f)| && CrashSafe(d, history, |h|, f, FirstFit(d, f, count))
    ensures PastUnharmed(d, history, |h|, f, cs)
  {
    hide FsOk, Lookup, FirstFit, FreeClusters, CrashedClaim;
    forall i | |h| <= i < |history|
      ensures Unharmed(d, history[i], f, cs)
    {
      CrashedClaimKeepsFiles(d, history[i], f, cs, count);
    }
  }

  /** What the card passed through while the claimed clusters were filled. */
  lemma {:induction false} DataPast(d: Disk, d1: Disk, h1: seq<Disk>, history: seq<Disk>, from: nat, f: Info,
          cs: seq<nat>, count: nat)
    requires FsOk(d, f, cs) && 0 < f.sectorsPerCluster && h1 <= history
    requires count <= |FreeClusters(d, f)| && PartlyClaimed(d, d1, f, FirstFit(d, f, count), 0, 0)
    requires PastUnharmed(d, h1, from, f, cs) && PastIn(d1, history, |h1|, f, FirstFit(d, f, count))
    ensures PastUnharmed(d, history, from, f, cs)
  {
    var chain := FirstFit(d, f, count);
    FirstFitIsLowest(d, f, count);
    FirstFitIsSpare(d, f, cs, count);
    ClaimIsConfined(d, d1, f, chain, 0, 0);
    hide FsOk, Lookup, FirstFit, FreeClusters, OnlyClusters, OnlyIn, Spare, Fat, PartlyClaimed;
    forall i | from <= i < |history|
      ensures Unharmed(d, history[i], f, cs)
    {
      if i < |h1| {
        assert history[i] == h1[i];
      } else {
        ConfinedTwice(d, d1, history[i], f, chain);
        ConfinedChange(d, history[i], f, cs, chain);
      }
    }
  }

  /** The directory has the room it had. */
  lemma {:induction false} RoomKept(d: Disk, d1: Disk, d2: Disk, f: Info, cs: seq<nat>, count: nat)
    requires FsOk(d, f, cs)
    requires count <= |FreeClusters(d, f)| && PartlyClaimed(d, d1, f, FirstFit(d, f, count), 0, 0)
    requires OnlyIn(d1, d2, f, FirstFit(d, f, count))
    ensures FreeSlot(d2, DirSectors(f, cs)) == FreeSlot(d, DirSectors(f, cs))
  {
    var chain := FirstFit(d, f, count);
    FirstFitIsLowest(d, f, count);
    FirstFitIsSpare(d, f, cs, count);
    ClaimIsConfined(d, d1, f, chain, 0, 0);
    ConfinedTwice(d, d1, d2, f, chain);
    DirectoryKept(d, d2, f, cs, chain);
    FreeSlotSame(d, d2, DirSectors(f, cs));
  }

  lemma {:induction false} StoredPast(d: Disk, e: Disk, h: seq<Disk>, history: seq<Disk>, from: nat, f: Info,
          cs: seq<nat>, name: Name,
          data: seq<byte>)
    requires 0 < f.sectorsPerCluster && PastUnharmed(d, h, from, f, cs)
    requires history == h || (history == h + [e] && Created(d, e, f, cs, name, data))
    ensures h <= history && AllOrNothing(d, history, from, f, cs, name, data)
  {
    hide Unharmed, Created;
    forall i | from <= i < |history|
      ensures Unharmed(d, history[i], f, cs) || Created(d, history[i], f, cs, name, data)
    {
      if i < |h| {
        assert history[i] == h[i];
      }
    }
  }

  // ---- a directory that cannot grow ----

  /** The directory has no free slot, and one cluster more is past the walk bound. */
  ghost predicate FullToTheBound(d: Disk, f: Info, cs: seq<nat>) {
    FreeSlot(d, DirSectors(f, cs)).None? && MAX_DIR_SECTORS < |cs| * f.sectorsPerCluster
  }

  /** Every file reads as it did, but a name that was missing answers with the error for a circular chain. */
  ghost predicate Overlong(d: Disk, e: Disk, f: Info)
    requires 0 < f.sectorsPerCluster
  {
    forall n :: Lookup(e, f, n) == if Lookup(d, f, n) == Err(FileNotFound) then Err(CircularFatChain) else Lookup(d, f, n)
  }

  /** The refused create of a full directory, from the card `d2` with its data written. */
  lemma {:induction false} RefusedStore(d: Disk, d2: Disk, e: Disk, f: Info, cs: seq<nat>)
    requires 0 < f.sectorsPerCluster && FsOk(d2, f, cs) && (forall n :: Lookup(d2, f, n) == Lookup(d, f, n))
    requires RootOk(d2, f, cs) && Overgrown(d2, e, f, cs)
    requires FreeSlot(d2, DirSectors(f, cs)) == FreeSlot(d, DirSectors(f, cs))
    ensures FullToTheBound(d, f, cs) && Overlong(d, e, f)
  {
    OvergrownDirectory(d2, e, f, cs);
    hide FsOk, Lookup, FreeSlot, DirSectors, RootOk, Lengthened;
  }

  /** No entry is ever added to such a directory. */
  lemma {:induction false} NoRoomAtAll(d: Disk, e: Disk, f: Info, cs: seq<nat>, cs2: seq<nat>, mid: Disk,
          entry: DirEntry)
    requires RootOk(d, f, cs) && entry.Valid() && EntryAdded(d, e, f, cs, cs2, mid, entry)
    ensures !FullToTheBound(d, f, cs)
  {
    hide FreeSlot, DirSectors, PutEntry, RootChain, Lengthened;
    if cs2 != cs {
      assert |cs2| - 1 == |cs| && cs + [cs2[|cs|]] == cs2;
    }
  }

  lemma SameRoom(d: Disk, d2: Disk, f: Info, cs: seq<nat>)
    requires FreeSlot(d2, DirSectors(f, cs)) == FreeSlot(d, DirSectors(f, cs))
    ensures FullToTheBound(d2, f, cs) == FullToTheBound(d, f, cs)
  {
  }

  lemma SameLookups(d: Disk, e: Disk, f: Info, cs: seq<nat>)
    requires 0 < f.sectorsPerCluster && FsOk(e, f, cs) && forall n :: Lookup(e, f, n) == Lookup(d, f, n)
    ensures Unharmed(d, e, f, cs)
  {
  }

  // ---- what a create leaves alone ----

  /** The chain is claimed in both FATs, and nothing else changed but its sectors and the sector `q`. */
  ghost predicate OnlyClaimed(d: Disk, e: Disk, f: Info, chain: seq<nat>, q: nat)
    requires WellFormed(f, |d|)
  {
    && |e| == |d|
    && CopyClaimed(d, e, f, chain, 0, 0) && (f.numFats == 2 ==> CopyClaimed(d, e, f, chain, 1, 0))
    && forall s :: 0 <= s < |d| && !(f.fatStart <= s < f.dataStart) && s != q ==>
         (forall c :: c in chain ==> !InCluster(f, c, s)) ==> e[s] == d[s]
  }

  /** A chain of nothing. */
  lemma {:induction false} NothingClaimed(d: Disk, f: Info)
    requires WellFormed(f, |d|)
    ensures PartlyClaimed(d, d, f, [], 0, 0) && OnlyIn(d, d, f, [])
  {
    hide Fat, Nibbles;
    forall t: Table
      ensures Claim(t, [], 0) == t
    {
      assert forall c :: 0 <= c < |t| ==> Claim(t, [], 0)[c] == ClaimedEntry(t, [], 0, 0, c);
    }
  }

  /** Claimed, filled, and its entry stored in the room there was. */
  lemma {:induction false} CreateConfined(d: Disk, d1: Disk, d2: Disk, e: Disk, f: Info, cs: seq<nat>, cs2: seq<nat>,
          mid: Disk, chain: seq<nat>, entry: DirEntry)
    requires RootOk(d2, f, cs) && entry.Valid() && WellFormed(f, |d|)
    requires PartlyClaimed(d, d1, f, chain, 0, 0) && OnlyIn(d1, d2, f, chain)
    requires forall k :: 0 <= k < |chain| ==> OnCard(f, chain[k])
    requires EntryAdded(d2, e, f, cs, cs2, mid, entry)
    requires FreeSlot(d2, DirSectors(f, cs)) == FreeSlot(d, DirSectors(f, cs)) && FreeSlot(d, DirSectors(f, cs)).Some?
    ensures OnlyClaimed(d, e, f, chain, FreeSlot(d, DirSectors(f, cs)).value.0)
  {
    assert cs2 == cs && mid == d2;
    var (q, i) := FreeSlot(d, DirSectors(f, cs)).value;
    RootSectorsAre(d2, f, cs);
    var k := FreeSlotIs(d2, DirSectors(f, cs));
    assert q in DirSectors(f, cs);
    FatKept(d1, d2, f, chain);
    hide PutEntry, DirSectors, FreeSlot, Fat, Nibbles, RootChain, Extended, InCluster;
    FatUnchanged(d2, e, f, 0);
    if f.numFats == 2 {
      FatUnchanged(d2, e, f, 1);
    }
  }

  /**
   * `create_file`. The caller's data must fit the u32 arithmetic of the cluster count, which
   * the original leaves to trap.
   */
  method CreateFile(card: Card, f: Info, name: Name, data: seq<byte>, ghost cs: seq<nat>)
    returns (r: Result<DirEntry>, ghost cs2: seq<nat>)
    requires card.Valid() && WellFormed(f, |card.sectors|) && |data| + ClusterBytes(f) <= U32_LIMIT
    modifies card
    ensures card.Valid() && |card.sectors| == |old(card.sectors)|
    ensures r.Ok? ==> r.value.name == name && r.value.attr == 0x20 && r.value.fileSize == |data|
    ensures r.Ok? && data == [] ==> r.value.FirstCluster() == 0
    // The entry returned is the one on the card, whose slot holds it and zeros else, and it starts the file's chain.
    ensures r.Ok? && Storable(name) && FsOk(old(card.sectors), f, cs)
            && Find(old(card.sectors), f, name) == Err(FileNotFound) ==>
              Entered(card.sectors, f, r.value)
    // Where the directory had room, the clusters the size needs are claimed, and nothing outside them and one slot
    // changed.
    ensures FsOk(old(card.sectors), f, cs) && FreeSlot(old(card.sectors), DirSectors(f, cs)).Some? && r.Ok? ==>
              && ClustersNeeded(f, |data|) <= |FreeClusters(old(card.sectors), f)|
              && OnlyClaimed(old(card.sectors), card.sectors, f,
                             FirstFit(old(card.sectors), f, ClustersNeeded(f, |data|)),
                             FreeSlot(old(card.sectors), DirSectors(f, cs)).value.0)
    ensures r.Ok? && Storable(name) && FsOk(old(card.sectors), f, cs)
            && Find(old(card.sectors), f, name) == Err(FileNotFound) ==>
              && Created(old(card.sectors), card.sectors, f, cs2, name, data)
              && (Mirrored(old(card.sectors), f) ==> Mirrored(card.sectors, f))
    ensures FsOk(old(card.sectors), f, cs) && r.Err? ==> r.error in {Io, AllocationFailed, DiskFull, DirectoryTooLarge}
    // A refusal leaves every name reading as it did.
    ensures FsOk(old(card.sectors), f, cs) && (r == Err(DiskFull) || r == Err(AllocationFailed)) ==>
              Unharmed(old(card.sectors), card.sectors, f, cs)
    // But not this one: it comes from a full directory that a walk can just read, after it has grown.
    ensures FsOk(old(card.sectors), f, cs) && r == Err(DirectoryTooLarge) ==>
              FullToTheBound(old(card.sectors), f, cs) && Overlong(old(card.sectors), card.sectors, f)
    ensures FsOk(old(card.sectors), f, cs) && FullToTheBound(old(card.sectors), f, cs) ==> r.Err?
    // A power loss or failure at any write: all of the new file or none of it, unless the directory must grow.
    ensures FsOk(old(card.sectors), f, cs) && Storable(name) && Find(old(card.sectors), f, name) == Err(FileNotFound)
            && FreeSlot(old(card.sectors), DirSectors(f, cs)).Some? ==>
              && old(card.history) <= card.history
              && AllOrNothing(old(card.sectors), card.history, |old(card.history)|, f, cs, name, data)
  {
    hide Entered, OnlyClaimed, FullToTheBound, Overlong, Unharmed, Overgrown, FreeSlot, DirSectors, PastUnharmed,
        AllOrNothing, PastIn,
         FsOk, Find, Created, RootOk, Mirrored, Prepared,
         Lookup, PartlyClaimed, FreeClusters, FirstFit, Holds, OnlyIn, FitsChain, CrashSafe, EntryAdded, Fat;
    cs2 := cs;
    ghost var d := card.sectors;
    var count := ClustersNeeded(f, |data|);
    var firstCluster := 0;
    ghost var sound := FsOk(d, f, cs);
    ghost var h, from := card.history, |card.history|;
    ghost var chain: seq<nat>, claimed := [], d;
    NothingClaimed(d, f);
    if data != [] {
      NeededFit(f, |data|);
      var first := AllocateChain(card, f, count);
      if sound {
        SameLookups(d, d, f, cs);
        ClaimPast(d, h, card.history, f, cs, count);
        AllUnharmed(d, card.history, from, f, cs, name, data);
      }
      if first.Err? {
        return Err(first.error), cs2;
      }
      firstCluster := first.value;
      chain := FirstFit(d, f, count);
      ghost var d1, h1 := card.sectors, card.history;
      claimed := d1;
      ClaimFits(d, d1, f, data, count);
      var written := WriteData(card, f, firstCluster, data, chain);
      OnlyInSize(d1, card.sectors, f, chain);
      if sound {
        DataPast(d, d1, h1, card.history, from, f, cs, count);
        AllUnharmed(d, card.history, from, f, cs, name, data);
        RoomKept(d, d1, card.sectors, f, cs, count);
      }
      if written.Err? {
        return Err(written.error), cs2;
      }
      if sound {
        FilePrepared(d, d1, card.sectors, f, cs, name, data, count);
      }
      FirstIsCluster(d, f, count);
      ChainIsOnCard(d, f, count);
    } else if sound {
      EmptyFile(d, f, cs, NewEntry(name, 0, 0));
      NoneYet(d, h, f, cs);
    }
    var entry := NewEntry(name, firstCluster, |data|);
    ghost var d2, h2 := card.sectors, card.history;
    var stored, root, mid := WriteDirEntryToRoot(card, f, entry, cs);
    cs2 := root;
    if sound {
      SoundRoot(d2, f, cs);
      if stored == Err(DirectoryTooLarge) {
        RefusedStore(d, d2, card.sectors, f, cs);
      } else if stored == Err(DiskFull) {
        SameLookups(d, d2, f, cs);
      } else if stored.Ok? {
        NoRoomAtAll(d2, card.sectors, f, cs, cs2, mid, entry);
        SameRoom(d, d2, f, cs);
        if FreeSlot(d, DirSectors(f, cs)).Some? {
          CreateConfined(d, claimed, d2, card.sectors, f, cs, cs2, mid, chain, entry);
        }
      }
      if Storable(name) && Find(d, f, name) == Err(FileNotFound) && FreeSlot(d, DirSectors(f, cs)).Some? {
        if card.history != h2 {
          FinishCreate(d, d2, card.sectors, f, cs, cs, d2, entry, data);
        }
        StoredPast(d, card.sectors, h2, card.history, from, f, cs, name, data);
      }
      if stored.Ok? && Storable(name) && Find(d, f, name) == Err(FileNotFound) {
        FinishCreate(d, d2, card.sectors, f, cs, cs2, mid, entry, data);
      }
    }
    if stored.Err? {
      return Err(stored.error), cs2;
    }
    return Ok(entry), cs2;
  }

  lemma {:induction false} AllUnharmed(d: Disk, history: seq<Disk>, from: nat, f: Info, cs: seq<nat>, name: Name,
          data: seq<byte>)
    requires 0 < f.sectorsPerCluster && PastUnharmed(d, history, from, f, cs)
    ensures AllOrNothing(d, history, from, f, cs, name, data)
  {
    hide Unharmed, Created;
  }

  lemma NoneYet(d: Disk, h: seq<Disk>, f: Info, cs: seq<nat>)
    requires 0 < f.sectorsPerCluster
    ensures PastUnharmed(d, h, |h|, f, cs)
  {
  }

  lemma {:induction false} FirstIsCluster(d: Disk, f: Info, count: nat)
    requires WellFormed(f, |d|) && 0 < count <= |FreeClusters(d, f)|
    ensures FirstFit(d, f, count)[0] < NIBBLE
  {
    FirstFitIsLowest(d, f, count);
  }

  lemma {:induction false} ChainIsOnCard(d: Disk, f: Info, count: nat)
    requires WellFormed(f, |d|) && count <= |FreeClusters(d, f)|
    ensures forall k :: 0 <= k < |FirstFit(d, f, count)| ==> OnCard(f, FirstFit(d, f, count)[k])
  {
    FirstFitIsLowest(d, f, count);
  }

  lemma SoundRoot(d: Disk, f: Info, cs: seq<nat>)
    requires FsOk(d, f, cs)
    ensures RootOk(d, f, cs)
  {
  }

  lemma {:induction false} FinishCreate(d: Disk, d2: Disk, e: Disk, f: Info, cs: seq<nat>, cs2: seq<nat>, mid: Disk,
          entry: DirEntry,
          data: seq<byte>)
    requires FsOk(d, f, cs) && FsOk(d2, f, cs) && |d2| == |d| && (Mirrored(d, f) ==> Mirrored(d2, f))
    requires 0 < f.sectorsPerCluster && forall n :: Lookup(d2, f, n) == Lookup(d, f, n)
    requires Prepared(d2, f, cs, entry, data) && entry.Valid() && Storable(entry.name) && entry.attr != ATTR_LFN
    requires EntryAdded(d2, e, f, cs, cs2, mid, entry)
    requires Find(d, f, entry.name) == Err(FileNotFound)
    ensures Created(d, e, f, cs2, entry.name, data) && (entry.attr == 0x20 ==> Entered(e, f, entry))
    ensures |e| == |d| && (Mirrored(d, f) ==> Mirrored(e, f))
  {
    hide Entered, Find, Prepared, Lookup, EntryAdded, Fat;
    StillMissing(d, d2, f, cs, cs, entry.name);
    hide FsOk;
    EntryAddedCreates(d2, e, f, cs, cs2, mid, entry, data);
  }

  // ---- delete ----

  /** What a delete does to a well-formed file system. */
  ghost predicate Deleted(d: Disk, e: Disk, f: Info, cs: seq<nat>, name: Name)
    requires 0 < f.sectorsPerCluster
  {
    && FsOk(e, f, cs)
    && forall n :: Lookup(e, f, n) == if SameName(name, n) then Err(FileNotFound) else Lookup(d, f, n)
  }

  function Mark(sec: Sector, offset: nat): Sector
    requires offset < 512
  {
    sec[offset := DELETED_MARK]
  }

  /** Marking a live entry deleted removes its name, and only that; its clusters become spare. */
  lemma {:induction false} EntryMarked(d: Disk, e: Disk, f: Info, cs: seq<nat>, q: nat, i: nat)
    requires FsOk(d, f, cs) && Live(d, f, cs, q, i) && e == d[q := Mark(d[q], 32 * i)]
    ensures Deleted(d, e, f, cs, EntryOf(d, f, cs, q, i).name)
    ensures Spare(e, f, cs, ChainOf(d, f, EntryOf(d, f, cs, q, i)))
    ensures Fat(e, f, 0) == Fat(d, f, 0) && (f.numFats == 2 ==> Fat(e, f, 1) == Fat(d, f, 1))
  {
    var entry := EntryOf(d, f, cs, q, i);
    MarkedSlot(d, e, f, cs, q, i);
    DirectorySectorOnly(d, e, f, cs, q, i);
    OtherEntries(d, e, f, cs, q, i);
    ChainOnCard(d, f, entry);
    hide Slot, DirSectors, ChainOf, FileOk, Fat, RootOk, Contents, Live, EntryOf, SlotRewritten, SameName, Tidy,
         AllOn, Find, Lookup;
    MarkedFs(d, e, f, cs, q, i);
    forall n
      ensures Lookup(e, f, n) == if SameName(entry.name, n) then Err(FileNotFound) else Lookup(d, f, n)
    {
      if SameName(entry.name, n) {
        forall p, j | Live(e, f, cs, p, j)
          ensures !SameName(EntryOf(e, f, cs, p, j).name, n)
        {
          SameNameEq(EntryOf(e, f, cs, p, j).name, n, entry.name);
          SameNameEq(entry.name, n, entry.name);
        }
        LookupNone(e, f, cs, n);
      } else {
        OtherLookups(d, e, f, cs, q, i, n);
      }
    }
  }

  lemma {:induction false} MarkedSlot(d: Disk, e: Disk, f: Info, cs: seq<nat>, q: nat, i: nat)
    requires FsOk(d, f, cs) && Live(d, f, cs, q, i) && e == d[q := Mark(d[q], 32 * i)]
    ensures SlotRewritten(d, e, f, cs, q, i) && !Live(e, f, cs, q, i)
    ensures AllOn(e, DirSectors(f, cs)) && Tidy(e, DirSectors(f, cs))
  {
    hide DirSectors, EntriesOk, EntriesApart, RootOk;
    var secs := DirSectors(f, cs);
    forall j | 0 <= j < 16 && j != i
      ensures Slot(e[q], j) == Slot(d[q], j) && IsEnd(e[q], j) == IsEnd(d[q], j)
    {
      assert e[q][32 * j..32 * j + 32] == d[q][32 * j..32 * j + 32];
      SlotBytes(d[q], e[q], j);
    }
    var k :| 0 <= k < |secs| && secs[k] == q;
    forall l, j | 0 <= l <= k && 0 <= j < 16 && (l < k || j < i)
      ensures !IsEnd(d[secs[l]], j)
    {
      assert !IsEnd(d[secs[k]], i);
    }
    RewrittenIsTidy(d, e, f, cs, secs, q, i, k);
  }

  lemma {:induction false} MarkedFs(d: Disk, e: Disk, f: Info, cs: seq<nat>, q: nat, i: nat)
    requires FsOk(d, f, cs) && SlotRewritten(d, e, f, cs, q, i) && !Live(e, f, cs, q, i)
    requires RootOk(e, f, cs) && AllOn(e, DirSectors(f, cs)) && Tidy(e, DirSectors(f, cs))
    ensures FsOk(e, f, cs)
  {
    OtherEntries(d, e, f, cs, q, i);
    hide Slot, DirSectors, ChainOf, FileOk, Fat, RootOk, Contents, Live, EntryOf, SlotRewritten, SameName, Tidy, AllOn;
  }

  /** Freeing all or some of a spare walk keeps the file system and everything it holds. */
  lemma {:induction false} FreeingKeepsFiles(d: Disk, e: Disk, f: Info, cs: seq<nat>, walk: seq<nat>, done: seq<nat>,
          done2: seq<nat>)
    requires FsOk(d, f, cs) && Spare(d, f, cs, walk) && done <= walk && Freed(d, e, f, done, done2)
    ensures FsOk(e, f, cs)
    ensures 0 < f.sectorsPerCluster && forall n :: Lookup(e, f, n) == Lookup(d, f, n)
  {
    var t := Fat(d, f, 0);
    forall c | 0 <= c < |t| && c !in walk
      ensures Fat(e, f, 0)[c] == t[c]
    {
      assert c !in done;
    }
    assert OnlyClusters(d, e, f, walk);
    ConfinedChange(d, e, f, cs, walk);
  }

  /** A delete cut short after its directory write: the name is gone and every other file reads as it did. */
  lemma {:induction false} CrashedDeleteKeepsFiles(d: Disk, d1: Disk, e: Disk, f: Info, cs: seq<nat>, walk: seq<nat>,
          name: Name)
    requires 0 < f.sectorsPerCluster && WellFormed(f, |d1|)
    requires Deleted(d, d1, f, cs, name) && Spare(d1, f, cs, walk) && CrashedFree(d1, e, f, walk)
    ensures Deleted(d, e, f, cs, name)
  {
    hide Spare, Freed, Lookup, FsOk;
    var done, done2 :| done2 <= done <= walk && Freed(d1, e, f, done, done2);
    FreeingKeepsFiles(d1, e, f, cs, walk, done, done2);
  }

  /** The found entry is live, and its walk is its whole chain. */
  lemma {:induction false} FoundIsLive(d: Disk, f: Info, cs: seq<nat>, name: Name)
    requires FsOk(d, f, cs) && 0 < f.sectorsPerCluster && Find(d, f, name).Ok?
    ensures
      var (entry, q, o) := Find(d, f, name).value;
      && o % 32 == 0 && Live(d, f, cs, q, o / 32) && EntryOf(d, f, cs, q, o / 32) == entry
      && SameName(entry.name, name)
      && WalkStays(Fat(d, f, 0), entry.FirstCluster())
  {
    hide Find, Contents, Slot, Tidy, AllOn, DirSectors, RootOk;
    if q, i :| Live(d, f, cs, q, i) && SameName(EntryOf(d, f, cs, q, i).name, name) {
      LookupLive(d, f, cs, q, i, name);
      var entry := EntryOf(d, f, cs, q, i);
      if entry.FirstCluster() != 0 {
        WalkOfChain(Fat(d, f, 0), ChainOf(d, f, entry));
      }
    } else {
      LookupNone(d, f, cs, name);
    }
  }

  lemma {:induction false} DeletedAs(d: Disk, e: Disk, f: Info, cs: seq<nat>, a: Name, b: Name)
    requires 0 < f.sectorsPerCluster && Deleted(d, e, f, cs, a) && SameName(a, b)
    ensures Deleted(d, e, f, cs, b)
  {
    hide SameName, Lookup, FsOk;
    forall n
      ensures SameName(a, n) == SameName(b, n)
    {
      SameNameEq(a, b, n);
      SameNameEq(b, a, n);
    }
  }

  /** `e` is `d` with the first byte of `name`'s slot marked deleted and its file's chain freed in both FATs. */
  ghost predicate Erased(d: Disk, e: Disk, f: Info, name: Name)
    requires 0 < f.sectorsPerCluster && WellFormed(f, |d|)
  {
    var found := Find(d, f, name);
    && found.Ok? && found.value.1 < |d| && found.value.2 < 512
    && var chain := ChainOf(d, f, found.value.0);
       Freed(d[found.value.1 := d[found.value.1][found.value.2 := 0xE5]], e, f, chain, chain)
  }

  /** `delete_file`: the directory entry first, then the chain. */
  method DeleteFile(card: Card, f: Info, name: Name, ghost cs: seq<nat>) returns (r: Result<Unit>)
    requires card.Valid() && WellFormed(f, |card.sectors|)
    modifies card
    ensures card.Valid() && |card.sectors| == |old(card.sectors)| && old(card.history) <= card.history
    ensures Find(old(card.sectors), f, name).Err? ==>
              card.sectors == old(card.sectors) && card.history == old(card.history) && r.Err?
    ensures r.Err? ==> r.error == Io || Find(old(card.sectors), f, name) == Err(r.error)
    ensures FsOk(old(card.sectors), f, cs) && r.Ok? ==>
              && Deleted(old(card.sectors), card.sectors, f, cs, name)
              && FreeSlot(card.sectors, DirSectors(f, cs)).Some?
              && (Mirrored(old(card.sectors), f) ==> Mirrored(card.sectors, f))
              && Erased(old(card.sectors), card.sectors, f, name)
    // A power loss at any write: the file is gone or not, and no live entry reaches a freed cluster.
    ensures FsOk(old(card.sectors), f, cs) ==>
              forall i | |old(card.history)| <= i < |card.history| :: Deleted(old(card.sectors), card.history[i], f,
                  cs, name)
  {
    hide Erased, FreeSlot, DirSectors, FsOk, Find, Deleted, RootOk, Lookup, Fat, Spare, Live, EntryOf, ChainOf, FreeSafe,
         Freed, WalkStays, Walk, Mirrored;
    ghost var d := card.sectors;
    ghost var from := |card.history|;
    ghost var sound := FsOk(d, f, cs);
    var found :- FindFileInRoot(card, f, name);
    var (entry, sector, offset) := found;
    PlaceOnCard(d, f, name);
    var buf :- card.ReadBlock(sector);
    buf := Mark(buf, offset);
    ghost var d1 := d[sector := buf];
    if sound {
      MarkFound(d, d1, f, cs, name);
    }
    var _ :- card.WriteBlock(sector, buf);
    ghost var h1 := card.history;
    r := FreeChain(card, f, entry.FirstCluster());
    if sound {
      forall i | from <= i < |card.history|
        ensures Deleted(d, card.history[i], f, cs, name)
      {
        if i >= |h1| {
          CrashAt(d, d1, card.history, |h1|, i, f, cs, entry.FirstCluster(), name);
        } else {
          assert card.history[i] == h1[i] == d1;
        }
      }
      if r.Ok? {
        FinishDelete(d, d1, card.sectors, f, cs, Walk(Fat(d1, f, 0), entry.FirstCluster()), name);
        ErasedIs(d, d1, card.sectors, f, name);
      }
    }
  }

  lemma {:induction false} ErasedIs(d: Disk, d1: Disk, e: Disk, f: Info, name: Name)
    requires 0 < f.sectorsPerCluster && WellFormed(f, |d|) && Find(d, f, name).Ok?
    requires var (entry, q, o) := Find(d, f, name).value; q < |d| && o < 512 && d1 == d[q := Mark(d[q], o)]
    requires Fat(d1, f, 0) == Fat(d, f, 0)
    requires
      var walk := Walk(Fat(d1, f, 0), Find(d, f, name).value.0.FirstCluster());
      Freed(d1, e, f, walk, walk)
    ensures Erased(d, e, f, name)
  {
    hide Fat, Walk, Find, Freed;
  }

  lemma {:induction false} PlaceOnCard(d: Disk, f: Info, name: Name)
    requires 0 < f.sectorsPerCluster
    ensures Find(d, f, name).Ok? ==> Find(d, f, name).value.1 < |d| && Find(d, f, name).value.2 + 32 <= 512
  {
    FoundIs(d, f, f.rootCluster, 0, name);
  }

  lemma {:induction false} MarkFound(d: Disk, d1: Disk, f: Info, cs: seq<nat>, name: Name)
    requires FsOk(d, f, cs) && 0 < f.sectorsPerCluster && Find(d, f, name).Ok?
    requires var (entry, q, o) := Find(d, f, name).value; q < |d| && o < 512 && d1 == d[q := Mark(d[q], o)]
    ensures Deleted(d, d1, f, cs, name)
    ensures
      var first := Find(d, f, name).value.0.FirstCluster();
      && Spare(d1, f, cs, Walk(Fat(d1, f, 0), first))
      && WalkStays(Fat(d1, f, 0), first)
      && Fat(d1, f, 0) == Fat(d, f, 0)
    ensures Mirrored(d, f) ==> Mirrored(d1, f)
    ensures FreeSlot(d1, DirSectors(f, cs)).Some?
  {
    var (entry, q, o) := Find(d, f, name).value;
    FoundIsLive(d, f, cs, name);
    MarkFrees(d, d1, f, cs, q, o / 32);
    hide DirSectors, FreeSlot, FsOk, Find, Deleted, RootOk, Fat, Spare, Live, EntryOf, WalkStays, Walk, SameName;
    EntryMarked(d, d1, f, cs, q, o / 32);
    DeletedAs(d, d1, f, cs, entry.name, name);
  }

  /** A deleted entry leaves a free slot behind. */
  lemma {:induction false} MarkFrees(d: Disk, d1: Disk, f: Info, cs: seq<nat>, q: nat, i: nat)
    requires FsOk(d, f, cs) && Live(d, f, cs, q, i) && d1 == d[q := Mark(d[q], 32 * i)]
    ensures FreeSlot(d1, DirSectors(f, cs)).Some?
  {
    hide Slot, DirSectors, EntriesOk, EntriesApart, RootOk, FreeSlot;
    var secs := DirSectors(f, cs);
    assert AllOn(d1, secs);
    var l :| 0 <= l < |secs| && secs[l] == q;
    var _ := FreeSlotIs(d1, secs);
    assert IsFree(d1[secs[l]], i);
  }

  lemma {:induction false} CrashAt(d: Disk, d1: Disk, history: seq<Disk>, from: nat, i: nat, f: Info, cs: seq<nat>,
          first: nat, name: Name)
    requires 0 < f.sectorsPerCluster && WellFormed(f, |d1|) && Deleted(d, d1, f, cs, name)
    requires Spare(d1, f, cs, Walk(Fat(d1, f, 0), first))
    requires FreeSafe(d1, history, from, f, Walk(Fat(d1, f, 0), first)) && from <= i < |history|
    ensures Deleted(d, history[i], f, cs, name)
  {
    hide Deleted, Spare, Fat, Walk;
    CrashedDeleteKeepsFiles(d, d1, history[i], f, cs, Walk(Fat(d1, f, 0), first), name);
  }

  lemma {:induction false} FinishDelete(d: Disk, d1: Disk, e: Disk, f: Info, cs: seq<nat>, walk: seq<nat>, name: Name)
    requires 0 < f.sectorsPerCluster && WellFormed(f, |d1|) && |d| == |d1| && Deleted(d, d1, f, cs, name)
    requires Spare(d1, f, cs, walk) && Freed(d1, e, f, walk, walk) && (Mirrored(d, f) ==> Mirrored(d1, f))
    requires FreeSlot(d1, DirSectors(f, cs)).Some?
    ensures Deleted(d, e, f, cs, name)
    ensures |e| == |d| && (Mirrored(d, f) ==> Mirrored(e, f))
    ensures FreeSlot(e, DirSectors(f, cs)).Some?
  {
    FreeingKeepsDirectory(d1, e, f, cs, walk);
    hide FreeSlot, DirSectors, Fat, Clear, Lookup, FsOk, Spare;
    FreeingKeepsFiles(d1, e, f, cs, walk, walk, walk);
  }

  lemma {:induction false} FreeingKeepsDirectory(d: Disk, e: Disk, f: Info, cs: seq<nat>, walk: seq<nat>)
    requires FsOk(d, f, cs) && Spare(d, f, cs, walk) && Freed(d, e, f, walk, walk)
    ensures FreeSlot(e, DirSectors(f, cs)) == FreeSlot(d, DirSectors(f, cs))
  {
    hide DirSectors, EntriesOk, EntriesApart, Live;
    assert OnlyClusters(d, e, f, walk);
    DirectoryKept(d, e, f, cs, walk);
    FreeSlotSame(d, e, DirSectors(f, cs));
  }

  // ---- overwrite ----

  /** What an overwrite does to a well-formed file system. */
  lemma {:induction false} DeletedThenCreated(d: Disk, d1: Disk, e: Disk, f: Info, cs: seq<nat>, cs2: seq<nat>,
          name: Name,
          data: seq<byte>)
    requires 0 < f.sectorsPerCluster && Deleted(d, d1, f, cs, name) && Created(d1, e, f, cs2, name, data)
    ensures Created(d, e, f, cs2, name, data)
  {
    hide FsOk, Lookup, SameName;
  }

  /**
   * Every card state after the first `from`: the name is missing or holds the new data whole, and
   * every other name reads as it did.
   */
  ghost predicate GoneOrReplaced(d: Disk, history: seq<Disk>, from: nat, f: Info, cs: seq<nat>, name: Name,
          data: seq<byte>)
    requires 0 < f.sectorsPerCluster
  {
    && from <= |history|
    && forall i | from <= i < |history| ::
         Deleted(d, history[i], f, cs, name) || Created(d, history[i], f, cs, name, data)
  }

  lemma {:induction false} ReplacedPast(d: Disk, d1: Disk, h1: seq<Disk>, history: seq<Disk>, from: nat, f: Info,
          cs: seq<nat>,
          name: Name, data: seq<byte>)
    requires 0 < f.sectorsPerCluster && Deleted(d, d1, f, cs, name)
    requires from <= |h1| && forall i | from <= i < |h1| :: Deleted(d, h1[i], f, cs, name)
    requires h1 <= history && AllOrNothing(d1, history, |h1|, f, cs, name, data)
    ensures GoneOrReplaced(d, history, from, f, cs, name, data)
  {
    hide FsOk, Lookup, SameName;
    forall i | from <= i < |history|
      ensures Deleted(d, history[i], f, cs, name) || Created(d, history[i], f, cs, name, data)
    {
      if i < |h1| {
        assert history[i] == h1[i];
      } else if Created(d1, history[i], f, cs, name, data) {
        DeletedThenCreated(d, d1, history[i], f, cs, cs, name, data);
      } else {
        assert Unharmed(d1, history[i], f, cs);
      }
    }
  }

  method OverwriteFile(card: Card, f: Info, name: Name, data: seq<byte>, ghost cs: seq<nat>)
    returns (r: Result<Unit>, ghost cs2: seq<nat>)
    requires card.Valid() && WellFormed(f, |card.sectors|) && |data| + ClusterBytes(f) <= U32_LIMIT
    modifies card
    ensures card.Valid() && |card.sectors| == |old(card.sectors)|
    ensures FsOk(old(card.sectors), f, cs) && Storable(name) && r.Ok? ==>
              && Created(old(card.sectors), card.sectors, f, cs2, name, data)
              && (Mirrored(old(card.sectors), f) ==> Mirrored(card.sectors, f))
    // A power loss or failure at any write of an overwrite proper: the deleted entry left a free
    // slot, so the directory never grows, and the name is gone or holds the new data whole.
    ensures FsOk(old(card.sectors), f, cs) && Storable(name) && Find(old(card.sectors), f, name).Ok? ==>
              && old(card.history) <= card.history
              && GoneOrReplaced(old(card.sectors), card.history, |old(card.history)|, f, cs, name, data)
  {
    hide FsOk, Find, Deleted, Created, Mirrored, FreeSlot, DirSectors, AllOrNothing, GoneOrReplaced;
    ghost var d, h := card.sectors, card.history;
    cs2 := cs;
    var deleted := DeleteFile(card, f, name, cs);
    ghost var sound := FsOk(d, f, cs);
    if deleted.Err? && deleted.error != FileNotFound {
      if sound {
        GoneSoFar(d, card.history, |h|, f, cs, name, data);
      }
      return Err(deleted.error), cs2;
    }
    ghost var d1, h1 := card.sectors, card.history;
    if sound && deleted.Ok? {
      DeletedIsMissing(d, d1, f, cs, name);
    }
    var created, root := CreateFile(card, f, name, data, cs);
    cs2 := root;
    if sound && deleted.Ok? && Storable(name) {
      ReplacedPast(d, d1, h1, card.history, |h|, f, cs, name, data);
    }
    if created.Err? {
      return Err(created.error), cs2;
    }
    if sound && deleted.Ok? && Storable(name) {
      DeletedThenCreated(d, d1, card.sectors, f, cs, cs2, name, data);
    }
    return Ok(Unit), cs2;
  }

  lemma {:induction false} GoneSoFar(d: Disk, history: seq<Disk>, from: nat, f: Info, cs: seq<nat>, name: Name,
          data: seq<byte>)
    requires 0 < f.sectorsPerCluster && from <= |history|
    requires forall i | from <= i < |history| :: Deleted(d, history[i], f, cs, name)
    ensures GoneOrReplaced(d, history, from, f, cs, name, data)
  {
    hide Deleted, Created;
  }

  lemma {:induction false} DeletedIsMissing(d: Disk, d1: Disk, f: Info, cs: seq<nat>, name: Name)
    requires 0 < f.sectorsPerCluster && Deleted(d, d1, f, cs, name)
    ensures FsOk(d1, f, cs) && Find(d1, f, name) == Err(FileNotFound)
  {
    hide Find, Contents, RootOk, Tidy, AllOn, DirSectors, EntriesApart, Live, EntryOf, SameName;
    SameNameEq(name, name, name);
    if q, i :| Live(d1, f, cs, q, i) && SameName(EntryOf(d1, f, cs, q, i).name, name) {
      LookupLive(d1, f, cs, q, i, name);
      FileReads(d1, f, EntryOf(d1, f, cs, q, i));
    } else {
      LookupNone(d1, f, cs, name);
    }
  }
}
