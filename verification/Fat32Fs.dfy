/**
 * The file system as a map from names to contents: what keeps it well formed, and what each
 * step of a create or a delete does to the map.
 */
module Fat32Fs {
  import opened Bytes
  import opened Fat32Card
  import opened Fat32Layout
  import opened Fat32Tables
  import opened Fat32Alloc
  import opened Fat32Dir
  import opened Fat32Root
  import opened Fat32Read
  import opened Fat32Write
  import opened Fat32Files
  import opened Fat32Delete

  /** Slot `i` of sector `q` of the directory `cs` holds a live entry. */
  ghost predicate Live(d: Disk, f: Info, cs: seq<nat>, q: nat, i: nat) {
    q in DirSectors(f, cs) && q < |d| && i < 16 && Slot(d[q], i).Some?
  }

  ghost function EntryOf(d: Disk, f: Info, cs: seq<nat>, q: nat, i: nat): DirEntry
    requires Live(d, f, cs, q, i)
  {
    Slot(d[q], i).value
  }

  ghost predicate Apart(a: seq<nat>, b: seq<nat>) {
    forall c :: c in a ==> c !in b
  }

  ghost predicate Mirrored(d: Disk, f: Info)
    requires WellFormed(f, |d|)
  {
    f.numFats == 2 ==> Fat(d, f, 1) == Fat(d, f, 0)
  }

  /** Every live entry's file is whole and shares no cluster with the directory. */
  ghost predicate EntriesOk(d: Disk, f: Info, cs: seq<nat>)
    requires WellFormed(f, |d|)
  {
    forall q, i :: Live(d, f, cs, q, i) ==>
      FileOk(d, f, EntryOf(d, f, cs, q, i)) && Apart(ChainOf(d, f, EntryOf(d, f, cs, q, i)), cs)
  }

  /** Two live entries have different names and share no cluster. */
  ghost predicate EntriesApart(d: Disk, f: Info, cs: seq<nat>)
    requires WellFormed(f, |d|)
  {
    forall q, i, p, j :: Live(d, f, cs, q, i) && Live(d, f, cs, p, j) && (q != p || i != j) ==>
      && !SameName(EntryOf(d, f, cs, q, i).name, EntryOf(d, f, cs, p, j).name)
      && Apart(ChainOf(d, f, EntryOf(d, f, cs, q, i)), ChainOf(d, f, EntryOf(d, f, cs, p, j)))
  }

  /** The file system is well formed: `cs` is its root directory. */
  ghost predicate FsOk(d: Disk, f: Info, cs: seq<nat>) {
    && RootOk(d, f, cs)
    && AllOn(d, DirSectors(f, cs)) && Tidy(d, DirSectors(f, cs))
    && EntriesOk(d, f, cs)
    && EntriesApart(d, f, cs)
  }

  /** The contents of the file called `name`: find it, then read it. */
  function Lookup(d: Disk, f: Info, name: Name): Result<seq<byte>>
    requires 0 < f.sectorsPerCluster
  {
    var found := Find(d, f, name);
    if found.Err? then Err(found.error) else Contents(d, f, found.value.0)
  }

  lemma SameNameEq(a: Name, b: Name, c: Name)
    ensures SameName(a, b) ==> SameName(b, a)
    ensures SameName(a, b) && SameName(b, c) ==> SameName(a, c)
    ensures SameName(a, a)
  {
  }

  /** On a well-formed file system a live entry is what its name finds. */
  lemma {:induction false} LookupLive(d: Disk, f: Info, cs: seq<nat>, q: nat, i: nat, name: Name)
    requires FsOk(d, f, cs) && Live(d, f, cs, q, i) && SameName(EntryOf(d, f, cs, q, i).name, name)
    ensures 0 < f.sectorsPerCluster
    ensures Find(d, f, name) == Ok((EntryOf(d, f, cs, q, i), q, 32 * i))
    ensures Lookup(d, f, name) == Contents(d, f, EntryOf(d, f, cs, q, i))
  {
    var secs := DirSectors(f, cs);
    FindIsScan(d, f, cs, name);
    ScanIs(d, secs, name);
    hide Find, ScanSectors, Contents, SameName, Slot, DirSectors, EntriesOk, Tidy, AllOn, RootOk, WellFormed, Fat;
    var e := EntryOf(d, f, cs, q, i);
    assert Named(d, q, i, name);
    match ScanSectors(d, secs, name) {
      case Found(e2, p, o) =>
        assert Live(d, f, cs, p, o / 32);
        SameNameEq(e2.name, name, e.name);
        SameNameEq(e.name, name, e2.name);
    }
  }

  /** What a scan finds is live and named so. */
  lemma {:induction false} HitIsLive(d: Disk, f: Info, cs: seq<nat>, name: Name)
    requires FsOk(d, f, cs)
    ensures
      match ScanSectors(d, DirSectors(f, cs), name)
      case Found(e, q, o) =>
        Live(d, f, cs, q, o / 32) && EntryOf(d, f, cs, q, o / 32) == e && SameName(e.name, name)
      case OffCard => false
      case _ => true
  {
    ScanIs(d, DirSectors(f, cs), name);
    hide ScanSectors, SameName, Slot, DirSectors, EntriesOk, EntriesApart, Tidy, AllOn, RootOk;
  }

  lemma {:induction false} LookupNone(d: Disk, f: Info, cs: seq<nat>, name: Name)
    requires FsOk(d, f, cs)
    requires forall q, i :: Live(d, f, cs, q, i) ==> !SameName(EntryOf(d, f, cs, q, i).name, name)
    ensures 0 < f.sectorsPerCluster
    ensures Find(d, f, name) == Err(FileNotFound) && Lookup(d, f, name) == Err(FileNotFound)
  {
    FindIsScan(d, f, cs, name);
    HitIsLive(d, f, cs, name);
    PositiveClusters(d, f, cs);
    hide Find, ScanSectors, SameName, DirSectors, Live, EntryOf, FsOk;
  }

  lemma {:induction false} LookupMissing(d: Disk, f: Info, cs: seq<nat>, name: Name)
    requires FsOk(d, f, cs) && 0 < f.sectorsPerCluster && Find(d, f, name) == Err(FileNotFound)
    ensures forall q, i :: Live(d, f, cs, q, i) ==> !SameName(EntryOf(d, f, cs, q, i).name, name)
  {
    forall q, i | Live(d, f, cs, q, i) && SameName(EntryOf(d, f, cs, q, i).name, name)
      ensures false
    {
      LookupLive(d, f, cs, q, i, name);
    }
  }

  /** Every live entry of `e` is a live entry of `d` whose clusters are as they were, apart from the directory `cs2`. */
  ghost predicate EntriesKept(d: Disk, e: Disk, f: Info, cs: seq<nat>, cs2: seq<nat>)
    requires WellFormed(f, |d|)
  {
    forall q, i :: Live(e, f, cs2, q, i) ==>
      && Live(d, f, cs, q, i)
      && EntryOf(e, f, cs2, q, i) == EntryOf(d, f, cs, q, i)
      && ClustersKept(d, e, f, ChainOf(d, f, EntryOf(d, f, cs, q, i)))
      && Apart(ChainOf(d, f, EntryOf(d, f, cs, q, i)), cs2)
  }

  /** Entries that are kept stay well formed and keep their chains and contents. */
  lemma {:induction false} EntriesStayOk(d: Disk, e: Disk, f: Info, cs: seq<nat>, cs2: seq<nat>)
    requires FsOk(d, f, cs) && |e| == |d|
    requires RootOk(e, f, cs2) && AllOn(e, DirSectors(f, cs2)) && Tidy(e, DirSectors(f, cs2))
    requires EntriesKept(d, e, f, cs, cs2)
    ensures FsOk(e, f, cs2)
    ensures forall q, i :: Live(e, f, cs2, q, i) ==>
              ChainOf(e, f, EntryOf(e, f, cs2, q, i)) == ChainOf(d, f, EntryOf(e, f, cs2, q, i))
    ensures 0 < f.sectorsPerCluster
    ensures forall q, i :: Live(e, f, cs2, q, i) ==>
              Contents(e, f, EntryOf(e, f, cs2, q, i)) == Contents(d, f, EntryOf(e, f, cs2, q, i))
  {
    assert 0 < f.sectorsPerCluster;
    hide Contents, ChainOf, FileOk, ClustersKept, Slot, DirSectors, Tidy, AllOn, SameName;
    forall q, i | Live(e, f, cs2, q, i)
      ensures FileOk(e, f, EntryOf(e, f, cs2, q, i))
      ensures ChainOf(e, f, EntryOf(e, f, cs2, q, i)) == ChainOf(d, f, EntryOf(e, f, cs2, q, i))
      ensures Contents(e, f, EntryOf(e, f, cs2, q, i)) == Contents(d, f, EntryOf(e, f, cs2, q, i))
    {
      FileKept(d, e, f, EntryOf(e, f, cs2, q, i));
    }
  }

  /** No live entry was lost either: every name finds what it found. */
  lemma {:induction false} LookupsKept(d: Disk, e: Disk, f: Info, cs: seq<nat>, cs2: seq<nat>, name: Name)
    requires FsOk(d, f, cs) && FsOk(e, f, cs2) && |e| == |d|
    requires EntriesKept(d, e, f, cs, cs2)
    requires forall q, i :: Live(d, f, cs, q, i) ==> Live(e, f, cs2, q, i)
    ensures 0 < f.sectorsPerCluster && Lookup(e, f, name) == Lookup(d, f, name)
    ensures Find(e, f, name) == Find(d, f, name)
  {
    EntriesStayOk(d, e, f, cs, cs2);
    hide Contents, ChainOf, FileOk, ClustersKept, Slot, DirSectors, SameName, Lookup, Find, Fat, RootOk, EntriesOk,
         EntriesApart, Tidy, AllOn;
    if q, i :| Live(d, f, cs, q, i) && SameName(EntryOf(d, f, cs, q, i).name, name) {
      LookupLive(d, f, cs, q, i, name);
      LookupLive(e, f, cs2, q, i, name);
    } else {
      LookupNone(d, f, cs, name);
      LookupNone(e, f, cs2, name);
    }
  }

  // ---- space claimed and filled outside every file ----

  /** `e` differs from `d` only in the entries and sectors of the clusters `cs`. */
  ghost predicate OnlyClusters(d: Disk, e: Disk, f: Info, cs: seq<nat>)
    requires WellFormed(f, |d|)
  {
    && |e| == |d|
    && (forall c :: 0 <= c < 128 * f.fatSize && c !in cs ==> Fat(e, f, 0)[c] == Fat(d, f, 0)[c])
    && (forall q: nat ::
          q < |d| && !(f.fatStart <= q < f.dataStart) && (forall c :: c in cs ==> !InCluster(f, c, q)) ==> e[q] == d[q])
  }

  /** A change confined to some clusters leaves the others. */
  lemma {:induction false} OthersKept(d: Disk, e: Disk, f: Info, changed: seq<nat>, kept: seq<nat>)
    requires WellFormed(f, |d|) && OnlyClusters(d, e, f, changed) && Apart(kept, changed)
    requires forall c :: c in changed ==> OnCard(f, c)
    requires forall c :: c in kept ==> OnCard(f, c)
    ensures ClustersKept(d, e, f, kept)
    ensures forall q :: q in DirSectors(f, kept) && q < |d| ==> e[q] == d[q]
  {
    hide Fat;
    forall c, q: nat | c in kept && InCluster(f, c, q) && q < |d|
      ensures e[q] == d[q]
    {
      NotInOthers(f, |d|, changed, c, q);
    }
    InSomeCluster(f, |d|, kept);
  }

  lemma {:induction false} NotInOthers(f: Info, size: nat, others: seq<nat>, c: nat, q: nat)
    requires WellFormed(f, size) && OnCard(f, c) && InCluster(f, c, q) && c !in others
    requires forall x :: x in others ==> OnCard(f, x)
    ensures !(f.fatStart <= q < f.dataStart)
    ensures forall x :: x in others ==> !InCluster(f, x, q)
  {
    ClusterIsBehindFats(f, size, c);
    hide WellFormed, ClusterToSector, OnCard;
    forall x | x in others
      ensures !InCluster(f, x, q)
    {
      if InCluster(f, x, q) {
        ClustersDisjoint(f, size, x, c, q - ClusterToSector(f, x), q - ClusterToSector(f, c));
      }
    }
  }

  lemma {:induction false} InSomeCluster(f: Info, size: nat, cs: seq<nat>)
    requires WellFormed(f, size) && forall c :: c in cs ==> OnCard(f, c)
    ensures forall q :: q in DirSectors(f, cs) ==> exists c :: c in cs && InCluster(f, c, q)
  {
    hide WellFormed, ClusterToSector, OnCard;
    if cs != [] {
      InSomeCluster(f, size, cs[1..]);
      forall q | q in DirSectors(f, cs)
        ensures exists c :: c in cs && InCluster(f, c, q)
      {
        if q in SectorsOf(f, cs[0]) {
          assert cs[0] in cs && InCluster(f, cs[0], q);
        } else {
          assert q in DirSectors(f, cs[1..]);
          var c :| c in cs[1..] && InCluster(f, c, q);
          assert c in cs;
        }
      }
    }
  }

  /** `changed` is outside the directory and outside every file. */
  ghost predicate Spare(d: Disk, f: Info, cs: seq<nat>, changed: seq<nat>)
    requires WellFormed(f, |d|)
  {
    && (forall c :: c in changed ==> OnCard(f, c))
    && Apart(cs, changed)
    && forall q, i :: Live(d, f, cs, q, i) ==> Apart(ChainOf(d, f, EntryOf(d, f, cs, q, i)), changed)
  }

  lemma {:induction false} ChainOnCard(d: Disk, f: Info, e: DirEntry)
    requires FileOk(d, f, e)
    ensures forall c :: c in ChainOf(d, f, e) ==> OnCard(f, c)
  {
    var chain := ChainOf(d, f, e);
    hide Fat;
    forall c | c in chain
      ensures OnCard(f, c)
    {
      var k :| 0 <= k < |chain| && chain[k] == c;
    }
  }

  /** The directory is untouched by a change confined to spare clusters. */
  lemma {:induction false} DirectoryKept(d: Disk, e: Disk, f: Info, cs: seq<nat>, changed: seq<nat>)
    requires RootOk(d, f, cs) && OnlyClusters(d, e, f, changed) && Apart(cs, changed)
    requires forall c :: c in changed ==> OnCard(f, c)
    ensures RootOk(e, f, cs)
    ensures forall q :: q in DirSectors(f, cs) ==> q < |d| && e[q] == d[q]
  {
    RootSectorsAre(d, f, cs);
    hide ClusterToSector, DirSectors;
    forall c | c in cs
      ensures OnCard(f, c) && c < 128 * f.fatSize
    {
      var k :| 0 <= k < |cs| && cs[k] == c;
    }
    OthersKept(d, e, f, changed, cs);
    ChainKept(Fat(d, f, 0), Fat(e, f, 0), cs);
  }

  /** A change confined to spare clusters keeps the file system and everything it holds. */
  lemma {:induction false} ConfinedChange(d: Disk, e: Disk, f: Info, cs: seq<nat>, changed: seq<nat>)
    requires FsOk(d, f, cs) && OnlyClusters(d, e, f, changed) && Spare(d, f, cs, changed)
    ensures FsOk(e, f, cs) && EntriesKept(d, e, f, cs, cs)
    ensures forall q, i :: Live(d, f, cs, q, i) <==> Live(e, f, cs, q, i)
    ensures 0 < f.sectorsPerCluster && forall name :: Lookup(e, f, name) == Lookup(d, f, name)
  {
    DirectoryKept(d, e, f, cs, changed);
    TidyKept(d, e, DirSectors(f, cs));
    hide ChainOf, FileOk, ClustersKept, OnlyClusters, Slot, DirSectors, Tidy, AllOn, SameName, Lookup, Find, Fat,
         RootOk, EntriesApart;
    forall q, i | Live(e, f, cs, q, i)
      ensures Live(d, f, cs, q, i) && EntryOf(e, f, cs, q, i) == EntryOf(d, f, cs, q, i)
      ensures ClustersKept(d, e, f, ChainOf(d, f, EntryOf(d, f, cs, q, i)))
      ensures Apart(ChainOf(d, f, EntryOf(d, f, cs, q, i)), cs)
    {
      var entry := EntryOf(d, f, cs, q, i);
      ChainOnCard(d, f, entry);
      OthersKept(d, e, f, changed, ChainOf(d, f, entry));
    }
    EntriesStayOk(d, e, f, cs, cs);
    forall name
      ensures Lookup(e, f, name) == Lookup(d, f, name)
    {
      LookupsKept(d, e, f, cs, cs, name);
    }
  }

  lemma {:induction false} TidyKept(d: Disk, e: Disk, secs: seq<nat>)
    requires AllOn(d, secs) && Tidy(d, secs) && |e| == |d|
    requires forall q :: q in secs ==> q < |d| && e[q] == d[q]
    ensures AllOn(e, secs) && Tidy(e, secs)
  {
    forall k, i, l, j |
      0 <= k <= l < |secs| && 0 <= i < 16 && 0 <= j < 16 && (k < l || i < j) && IsEnd(e[secs[k]], i)
      ensures IsEnd(e[secs[l]], j)
    {
      assert secs[k] in secs && secs[l] in secs;
      assert IsEnd(d[secs[k]], i);
    }
  }

  // ---- the steps of a create ----

  /** First fit takes spare clusters only. */
  lemma {:induction false} FirstFitIsSpare(d: Disk, f: Info, cs: seq<nat>, count: nat)
    requires FsOk(d, f, cs) && count <= |FreeClusters(d, f)|
    ensures Spare(d, f, cs, FirstFit(d, f, count))
  {
    FirstFitIsLowest(d, f, count);
    var chain := FirstFit(d, f, count);
    hide FirstFit, ClustersKept, Slot, DirSectors, Tidy, AllOn, EntriesApart;
    var t := Fat(d, f, 0);
    forall c | c in chain
      ensures OnCard(f, c) && c !in cs
    {
      var k :| 0 <= k < |chain| && chain[k] == c;
      NotFreeInChain(t, cs, c);
    }
    forall q, i | Live(d, f, cs, q, i)
      ensures Apart(ChainOf(d, f, EntryOf(d, f, cs, q, i)), chain)
    {
      var entry := EntryOf(d, f, cs, q, i);
      forall c | c in chain
        ensures c !in ChainOf(d, f, entry)
      {
        var k :| 0 <= k < |chain| && chain[k] == c;
        FreeIsInNoFile(d, f, entry, c);
      }
    }
  }

  lemma {:induction false} FreeIsInNoFile(d: Disk, f: Info, e: DirEntry, c: nat)
    requires FileOk(d, f, e) && c < 128 * f.fatSize && Fat(d, f, 0)[c] == 0
    ensures c !in ChainOf(d, f, e)
  {
    hide Fat;
    if e.FirstCluster() != 0 {
      NotFreeInChain(Fat(d, f, 0), ChainOf(d, f, e), c);
    }
  }

  /** Claiming `chain`, whole or in part, changes its clusters only. */
  lemma {:induction false} ClaimIsConfined(d: Disk, e: Disk, f: Info, chain: seq<nat>, lo: nat, lo2: nat)
    requires WellFormed(f, |d|) && lo <= |chain| && lo2 <= |chain| && PartlyClaimed(d, e, f, chain, lo, lo2)
    ensures OnlyClusters(d, e, f, chain)
  {
    var t := Fat(d, f, 0);
    forall c | 0 <= c < |t| && c !in chain
      ensures Fat(e, f, 0)[c] == t[c]
    {
      assert Claim(t, chain, lo)[c] == ClaimedEntry(t, chain, lo, |chain|, c);
      assert c !in chain[lo..|chain|];
    }
  }

  lemma {:induction false} ConfinedTwice(d: Disk, e: Disk, g: Disk, f: Info, chain: seq<nat>)
    requires WellFormed(f, |d|) && OnlyClusters(d, e, f, chain) && OnlyIn(e, g, f, chain)
    requires forall k :: 0 <= k < |chain| ==> OnCard(f, chain[k])
    ensures OnlyClusters(d, g, f, chain)
    ensures Fat(g, f, 0) == Fat(e, f, 0)
    ensures f.numFats == 2 ==> Fat(g, f, 1) == Fat(e, f, 1)
  {
    FatKept(e, g, f, chain);
    hide Fat, ClusterToSector;
  }

  /** A create cut short while it claims its clusters: every file still reads as it did. */
  lemma {:induction false} CrashedClaimKeepsFiles(d: Disk, e: Disk, f: Info, cs: seq<nat>, count: nat)
    requires FsOk(d, f, cs) && count <= |FreeClusters(d, f)|
    requires CrashedClaim(d, e, f, FirstFit(d, f, count))
    ensures FsOk(e, f, cs)
    ensures 0 < f.sectorsPerCluster && forall name :: Lookup(e, f, name) == Lookup(d, f, name)
  {
    var chain := FirstFit(d, f, count);
    var lo, lo2 :| 0 <= lo <= lo2 <= |chain| && PartlyClaimed(d, e, f, chain, lo, lo2);
    FirstFitIsSpare(d, f, cs, count);
    ClaimIsConfined(d, e, f, chain, lo, lo2);
    ConfinedChange(d, e, f, cs, chain);
  }

  /** A live slot of a grown directory is a live slot of the old one: the new cluster is all end marks. */
  lemma {:induction false} GrownSlots(d: Disk, e: Disk, f: Info, cs: seq<nat>, nc: nat)
    requires RootOk(d, f, cs) && Lengthened(d, e, f, cs, nc)
    ensures AllOn(d, DirSectors(f, cs)) && AllOn(e, DirSectors(f, cs + [nc]))
    ensures DirSectors(f, cs + [nc]) == DirSectors(f, cs) + DirSectors(f, [nc])
    ensures forall q :: q in DirSectors(f, cs) ==> e[q] == d[q]
    ensures forall q :: q in DirSectors(f, [nc]) ==> q < |e| && e[q] == ZeroSector()
  {
    RootSectorsAre(d, f, cs);
    var cs2 := cs + [nc];
    RootSectorsAre(e, f, cs2);
    hide SectorsOf;
    DirSectorsConcat(f, cs, [nc]);
    hide DirSectors, ClusterToSector;
    NotFreeInChain(Fat(d, f, 0), cs, nc);
    forall q | q in DirSectors(f, cs)
      ensures e[q] == d[q]
    {
      var c :| c in cs && InCluster(f, c, q);
      var k :| 0 <= k < |cs| && cs[k] == c;
      NotInOthers(f, |d|, [nc], c, q);
      assert nc in [nc];
    }
    forall q | q in DirSectors(f, [nc])
      ensures q < |e| && e[q] == ZeroSector()
    {
      assert forall c :: c in [nc] ==> OnCard(f, c);
      InSomeCluster(f, |d|, [nc]);
      assert q in DirSectors(f, cs2);
    }
  }

  lemma {:induction false} GrownIsTidy(d: Disk, e: Disk, a: seq<nat>, b: seq<nat>)
    requires AllOn(d, a) && AllOn(e, a + b) && |d| == |e|
    requires forall q :: q in a ==> e[q] == d[q]
    requires forall q :: q in b ==> q < |e| && e[q] == ZeroSector()
    requires FreeSlot(d, a).None?
    ensures Tidy(e, a + b)
  {
    var _ := FreeSlotIs(d, a);
    var secs := a + b;
    forall k, i | 0 <= k < |a| && 0 <= i < 16
      ensures !IsEnd(e[secs[k]], i)
    {
      assert secs[k] == a[k] && a[k] in a;
      assert !IsFree(d[a[k]], i);
    }
    forall k, i, l, j |
      0 <= k <= l < |secs| && 0 <= i < 16 && 0 <= j < 16 && (k < l || i < j) && IsEnd(e[secs[k]], i)
      ensures IsEnd(e[secs[l]], j)
    {
      assert k >= |a|;
      assert secs[l] == b[l - |a|] && b[l - |a|] in b;
    }
  }

  /** Growing a full directory keeps the file system and everything it holds. */
  lemma {:induction false} DirectoryGrown(d: Disk, e: Disk, f: Info, cs: seq<nat>, nc: nat)
    requires FsOk(d, f, cs) && Extended(d, e, f, cs, nc) && FreeSlot(d, DirSectors(f, cs)).None?
    ensures FsOk(e, f, cs + [nc]) && EntriesKept(d, e, f, cs, cs + [nc])
    ensures forall q, i :: Live(d, f, cs, q, i) <==> Live(e, f, cs + [nc], q, i)
    ensures 0 < f.sectorsPerCluster && forall name :: Lookup(e, f, name) == Lookup(d, f, name)
  {
    var cs2 := cs + [nc];
    GrownSlots(d, e, f, cs, nc);
    GrownIsTidy(d, e, DirSectors(f, cs), DirSectors(f, [nc]));
    hide ChainOf, FileOk, ClustersKept, Slot, DirSectors, Tidy, AllOn, SameName, Lookup, Find, EntriesApart,
         EntriesOk, Live, EntryOf, Apart;
    forall q, i
      ensures Live(d, f, cs, q, i) <==> Live(e, f, cs2, q, i)
      ensures Live(e, f, cs2, q, i) ==>
                && EntryOf(e, f, cs2, q, i) == EntryOf(d, f, cs, q, i)
                && ClustersKept(d, e, f, ChainOf(d, f, EntryOf(d, f, cs, q, i)))
                && Apart(ChainOf(d, f, EntryOf(d, f, cs, q, i)), cs2)
    {
      GrownEntry(d, e, f, cs, nc, q, i);
    }
    EntriesStayOk(d, e, f, cs, cs2);
    forall name
      ensures Lookup(e, f, name) == Lookup(d, f, name)
    {
      LookupsKept(d, e, f, cs, cs2, name);
    }
  }

  /** One slot of a grown directory. */
  lemma {:induction false} GrownEntry(d: Disk, e: Disk, f: Info, cs: seq<nat>, nc: nat, q: nat, i: nat)
    requires RootOk(d, f, cs) && EntriesOk(d, f, cs) && Lengthened(d, e, f, cs, nc)
    ensures Live(d, f, cs, q, i) <==> Live(e, f, cs + [nc], q, i)
    ensures Live(d, f, cs, q, i) ==>
              && EntryOf(e, f, cs + [nc], q, i) == EntryOf(d, f, cs, q, i)
              && ClustersKept(d, e, f, ChainOf(d, f, EntryOf(d, f, cs, q, i)))
              && Apart(ChainOf(d, f, EntryOf(d, f, cs, q, i)), cs + [nc])
  {
    GrownSlots(d, e, f, cs, nc);
    hide ChainOf, FileOk, ClustersKept, Slot, DirSectors, AllOn, Lengthened, Apart, Fat, RootOk;
    assert |e| == |d|;
    if Live(d, f, cs, q, i) {
      FileOutsideGrowth(d, e, f, cs, nc, EntryOf(d, f, cs, q, i));
    }
    if Live(e, f, cs + [nc], q, i) && q in DirSectors(f, [nc]) {
      EndIsNotLive(ZeroSector(), i);
    }
  }

  /** A chain of used clusters outside the directory is outside its growth. */
  lemma {:induction false} ChainOutsideGrowth(d: Disk, e: Disk, f: Info, cs: seq<nat>, nc: nat, chain: seq<nat>)
    requires RootOk(d, f, cs) && Lengthened(d, e, f, cs, nc)
    requires IsChain(Fat(d, f, 0), chain) && Apart(chain, cs) && forall k :: 0 <= k < |chain| ==> OnCard(f, chain[k])
    ensures ClustersKept(d, e, f, chain)
    ensures Apart(chain, cs + [nc])
  {
    var t := Fat(d, f, 0);
    NotFreeInChain(t, chain, nc);
    hide ClusterToSector;
    var last := cs[|cs| - 1];
    assert last in cs;
    forall c | c in chain
      ensures OnCard(f, c) && c != nc && c != last
    {
      var k :| 0 <= k < |chain| && chain[k] == c;
    }
    forall c | c in chain && c < 128 * f.fatSize
      ensures Fat(e, f, 0)[c] == t[c]
    {
      var grown: Table := t[nc := EOC];
      assert Fat(e, f, 0) == grown[last := nc];
    }
    hide Fat;
    forall c, q: nat | c in chain && InCluster(f, c, q) && q < |d|
      ensures e[q] == d[q]
    {
      NotInOthers(f, |d|, [nc], c, q);
      assert nc in [nc];
    }
  }

  lemma {:induction false} FileOutsideGrowth(d: Disk, e: Disk, f: Info, cs: seq<nat>, nc: nat, entry: DirEntry)
    requires RootOk(d, f, cs) && Lengthened(d, e, f, cs, nc)
    requires FileOk(d, f, entry) && Apart(ChainOf(d, f, entry), cs)
    ensures ClustersKept(d, e, f, ChainOf(d, f, entry))
    ensures Apart(ChainOf(d, f, entry), cs + [nc])
  {
    hide Fat, RootOk, ClustersKept, Apart, Lengthened;
    if entry.FirstCluster() != 0 {
      ChainOutsideGrowth(d, e, f, cs, nc, ChainOf(d, f, entry));
    } else {
      NoClusters(d, e, f, cs, nc, entry);
    }
  }

  lemma {:induction false} NoClusters(d: Disk, e: Disk, f: Info, cs: seq<nat>, nc: nat, entry: DirEntry)
    requires RootOk(d, f, cs) && Lengthened(d, e, f, cs, nc) && entry.FirstCluster() == 0
    ensures ChainOf(d, f, entry) == []
    ensures ClustersKept(d, e, f, ChainOf(d, f, entry))
    ensures Apart(ChainOf(d, f, entry), cs + [nc])
  {
    hide Fat;
  }

  lemma {:induction false} ScanSame(d: Disk, e: Disk, secs: seq<nat>, name: Name)
    requires |d| == |e| && forall q :: q in secs && q < |d| ==> d[q] == e[q]
    ensures ScanSectors(e, secs, name) == ScanSectors(d, secs, name)
  {
    hide ScanSlots;
    if secs != [] {
      ScanSame(d, e, secs[1..], name);
    }
  }

  /** A scan that stops at an end mark has met a free slot. */
  lemma {:induction false} EndIsFree(d: Disk, secs: seq<nat>, name: Name)
    requires FreeSlot(d, secs).None? && forall k :: 0 <= k < |secs| ==> secs[k] < |d|
    ensures !ScanSectors(d, secs, name).EndOfDirectory?
  {
    if secs != [] {
      ScanSlotsIs(d[secs[0]], secs[0], 0, name);
      assert FreeIn(d[secs[0]], 0) == 16;
      assert forall k :: 0 <= k < 16 && IsEnd(d[secs[0]], k) ==> IsFree(d[secs[0]], k);
      EndIsFree(d, secs[1..], name);
    }
  }

  /**
   * A directory one cluster longer than a walk may read: every file reads as it did, and a missing
   * name is no longer missing but an error.
   */
  lemma {:induction false} OvergrownDirectory(d: Disk, e: Disk, f: Info, cs: seq<nat>)
    requires FsOk(d, f, cs) && Overgrown(d, e, f, cs)
    ensures 0 < f.sectorsPerCluster
    ensures forall name :: Lookup(e, f, name) == Overgrew(Lookup(d, f, name))
  {
    var nc :| Lengthened(d, e, f, cs, nc);
    hide FsOk, RootOk, FreeSlot, DirSectors, Lengthened, Lookup;
    PositiveClusters(d, f, cs);
    forall name
      ensures Lookup(e, f, name) == Overgrew(Lookup(d, f, name))
    {
      OvergrownLookup(d, e, f, cs, nc, name);
    }
  }

  /** What an overgrown directory makes of an answer. */
  function Overgrew(r: Result<seq<byte>>): Result<seq<byte>> {
    if r == Err(FileNotFound) then Err(CircularFatChain) else r
  }

  lemma PositiveClusters(d: Disk, f: Info, cs: seq<nat>)
    requires FsOk(d, f, cs)
    ensures 0 < f.sectorsPerCluster
  {
  }

  lemma {:induction false} OvergrownLookup(d: Disk, e: Disk, f: Info, cs: seq<nat>, nc: nat, name: Name)
    requires FsOk(d, f, cs) && Lengthened(d, e, f, cs, nc) && 0 < f.sectorsPerCluster
    requires FreeSlot(d, DirSectors(f, cs)).None? && MAX_DIR_SECTORS < |cs| * f.sectorsPerCluster
    ensures Lookup(e, f, name) == Overgrew(Lookup(d, f, name))
  {
    var secs := DirSectors(f, cs);
    GrownSlots(d, e, f, cs, nc);
    FindFromIsCut(e, f, cs, nc, 0, name);
    assert cs[0..] == cs;
    FindIsScan(d, f, cs, name);
    ScanSame(d, e, secs, name);
    EndIsFree(d, secs, name);
    HitIsLive(d, f, cs, name);
    hide ScanSectors, SameName, Slot, DirSectors, Contents, EntriesApart, Tidy, AllOn, RootOk, WellFormed, Fat,
         Lengthened, FindFrom, ClustersKept, FileOk, FreeSlot;
    match ScanSectors(d, secs, name) {
      case Found(entry, q, o) =>
        assert Live(d, f, cs, q, o / 32);
        FileOutsideGrowth(d, e, f, cs, nc, entry);
        FileKept(d, e, f, entry);
        FileReads(d, f, entry);
      case _ =>
    }
  }

  // ---- one directory sector rewritten ----

  /** `sec` differs from `was` in slot `i` at most. */
  ghost predicate OnlySlot(was: Sector, sec: Sector, i: nat)
    requires i < 16
  {
    forall j :: 0 <= j < 16 && j != i ==> Slot(sec, j) == Slot(was, j) && IsEnd(sec, j) == IsEnd(was, j)
  }

  lemma {:induction false} PutEntrySlot(was: Sector, i: nat, e: DirEntry)
    requires i < 16 && e.Valid()
    ensures OnlySlot(was, PutEntry(was, 32 * i, e), i)
  {
    var sec := PutEntry(was, 32 * i, e);
    forall j | 0 <= j < 16 && j != i
      ensures Slot(sec, j) == Slot(was, j) && IsEnd(sec, j) == IsEnd(was, j)
    {
      assert sec[32 * j..32 * j + 32] == was[32 * j..32 * j + 32];
      SlotBytes(was, sec, j);
    }
  }

  lemma {:induction false} SlotBytes(was: Sector, sec: Sector, j: nat)
    requires j < 16 && sec[32 * j..32 * j + 32] == was[32 * j..32 * j + 32]
    ensures Slot(sec, j) == Slot(was, j) && IsEnd(sec, j) == IsEnd(was, j)
  {
    var a, b := was[32 * j..32 * j + 32], sec[32 * j..32 * j + 32];
    assert forall k :: 0 <= k < 32 ==> was[32 * j + k] == a[k] && sec[32 * j + k] == b[k];
    assert was[32 * j..32 * j + 11] == a[..11];
    assert sec[32 * j..32 * j + 11] == b[..11];
  }

  /** `e` is `d` with slot `i` of the directory sector `q` rewritten, and that slot is no end mark now. */
  ghost predicate SlotRewritten(d: Disk, e: Disk, f: Info, cs: seq<nat>, q: nat, i: nat) {
    && q in DirSectors(f, cs) && q < |d| && i < 16
    && |e| == |d| && (forall p :: 0 <= p < |d| && p != q ==> e[p] == d[p])
    && OnlySlot(d[q], e[q], i)
    && !IsEnd(e[q], i)
  }

  /** Rewriting a directory sector touches neither the FATs nor any cluster outside the directory. */
  lemma {:induction false} DirectorySectorOnly(d: Disk, e: Disk, f: Info, cs: seq<nat>, q: nat, i: nat)
    requires RootOk(d, f, cs) && SlotRewritten(d, e, f, cs, q, i)
    ensures RootOk(e, f, cs)
    ensures Fat(e, f, 0) == Fat(d, f, 0) && (f.numFats == 2 ==> Fat(e, f, 1) == Fat(d, f, 1))
    ensures OnlyClusters(d, e, f, cs)
  {
    RootSectorsAre(d, f, cs);
    hide DirSectors, ClusterToSector, OnlySlot;
    FatUnchanged(d, e, f, 0);
    if f.numFats == 2 {
      FatUnchanged(d, e, f, 1);
    }
  }

  lemma {:induction false} ApartFromDirectory(d: Disk, e: Disk, f: Info, cs: seq<nat>, q: nat, i: nat, chain: seq<nat>)
    requires RootOk(d, f, cs) && SlotRewritten(d, e, f, cs, q, i)
    requires Apart(chain, cs) && forall c :: c in chain ==> OnCard(f, c)
    ensures ClustersKept(d, e, f, chain)
  {
    DirectorySectorOnly(d, e, f, cs, q, i);
    hide Fat, DirSectors, SlotRewritten;
    forall c | c in cs
      ensures OnCard(f, c)
    {
      var k :| 0 <= k < |cs| && cs[k] == c;
    }
    OthersKept(d, e, f, cs, chain);
  }

  /** The directory stays tidy if no end mark comes before the rewritten slot. */
  lemma {:induction false} RewrittenIsTidy(d: Disk, e: Disk, f: Info, cs: seq<nat>, secs: seq<nat>, q: nat, i: nat,
          k: nat)
    requires secs == DirSectors(f, cs) && AllOn(d, secs) && Tidy(d, secs) && SlotRewritten(d, e, f, cs, q, i)
    requires k < |secs| && secs[k] == q
    requires forall l, j :: 0 <= l <= k && 0 <= j < 16 && (l < k || j < i) ==> !IsEnd(d[secs[l]], j)
    ensures AllOn(e, secs) && Tidy(e, secs)
  {
    hide DirSectors, Slot;
    forall m, a, l, b |
      0 <= m <= l < |secs| && 0 <= a < 16 && 0 <= b < 16 && (m < l || a < b) && IsEnd(e[secs[m]], a)
      ensures IsEnd(e[secs[l]], b)
    {
      SameEnd(d, e, secs, q, i, k, m, a);
      SameEnd(d, e, secs, q, i, k, l, b);
      assert IsEnd(d[secs[m]], a);
    }
  }

  lemma {:induction false} SameEnd(d: Disk, e: Disk, secs: seq<nat>, q: nat, i: nat, k: nat, l: nat, j: nat)
    requires AllOn(d, secs) && |e| == |d| && k < |secs| && secs[k] == q && i < 16 && l < |secs| && j < 16
    requires (forall p :: 0 <= p < |d| && p != q ==> e[p] == d[p]) && OnlySlot(d[q], e[q], i)
    ensures l != k || j != i ==> IsEnd(e[secs[l]], j) == IsEnd(d[secs[l]], j)
  {
    hide Slot;
    if l != k {
      assert secs[l] != q;
    }
  }

  /** The other slots hold what they held. */
  lemma {:induction false} OtherSlots(d: Disk, e: Disk, f: Info, cs: seq<nat>, q: nat, i: nat, p: nat, j: nat)
    requires RootOk(d, f, cs) && EntriesOk(d, f, cs) && SlotRewritten(d, e, f, cs, q, i)
    requires p != q || j != i
    ensures Live(e, f, cs, p, j) <==> Live(d, f, cs, p, j)
    ensures Live(d, f, cs, p, j) ==>
              && EntryOf(e, f, cs, p, j) == EntryOf(d, f, cs, p, j)
              && ClustersKept(d, e, f, ChainOf(d, f, EntryOf(d, f, cs, p, j)))
  {
    assert WellFormed(f, |d|);
    hide Slot, DirSectors, ChainOf, FileOk, ClustersKept, Fat, RootOk;
    if Live(d, f, cs, p, j) {
      var entry := EntryOf(d, f, cs, p, j);
      ChainOnCard(d, f, entry);
      ApartFromDirectory(d, e, f, cs, q, i, ChainOf(d, f, entry));
    }
  }

  /** All entries but the one in slot `i` of sector `q` are kept when that slot is rewritten. */
  lemma {:induction false} OtherEntries(d: Disk, e: Disk, f: Info, cs: seq<nat>, q: nat, i: nat)
    requires FsOk(d, f, cs) && SlotRewritten(d, e, f, cs, q, i)
    ensures forall p, j :: p != q || j != i ==> (Live(e, f, cs, p, j) <==> Live(d, f, cs, p, j))
    ensures forall p, j :: (p != q || j != i) && Live(d, f, cs, p, j) ==>
              && EntryOf(e, f, cs, p, j) == EntryOf(d, f, cs, p, j)
              && FileOk(e, f, EntryOf(d, f, cs, p, j))
              && ChainOf(e, f, EntryOf(d, f, cs, p, j)) == ChainOf(d, f, EntryOf(d, f, cs, p, j))
              && 0 < f.sectorsPerCluster
              && Contents(e, f, EntryOf(d, f, cs, p, j)) == Contents(d, f, EntryOf(d, f, cs, p, j))
  {
    assert WellFormed(f, |d|);
    hide Slot, DirSectors, ChainOf, FileOk, ClustersKept, Fat, RootOk, Contents, Live, EntryOf, SlotRewritten;
    forall p, j | p != q || j != i
      ensures Live(e, f, cs, p, j) <==> Live(d, f, cs, p, j)
      ensures Live(d, f, cs, p, j) ==>
                && EntryOf(e, f, cs, p, j) == EntryOf(d, f, cs, p, j)
                && FileOk(e, f, EntryOf(d, f, cs, p, j))
                && ChainOf(e, f, EntryOf(d, f, cs, p, j)) == ChainOf(d, f, EntryOf(d, f, cs, p, j))
                && 0 < f.sectorsPerCluster
                && Contents(e, f, EntryOf(d, f, cs, p, j)) == Contents(d, f, EntryOf(d, f, cs, p, j))
    {
      OtherSlots(d, e, f, cs, q, i, p, j);
      if Live(d, f, cs, p, j) {
        FileKept(d, e, f, EntryOf(d, f, cs, p, j));
      }
    }
  }

  /** What is found under a name after one entry changed, for a name that is not its own. */
  lemma {:induction false} OtherLookups(d: Disk, e: Disk, f: Info, cs: seq<nat>, q: nat, i: nat, name: Name)
    requires FsOk(d, f, cs) && FsOk(e, f, cs) && SlotRewritten(d, e, f, cs, q, i)
    requires Live(d, f, cs, q, i) ==> !SameName(EntryOf(d, f, cs, q, i).name, name)
    requires Live(e, f, cs, q, i) ==> !SameName(EntryOf(e, f, cs, q, i).name, name)
    ensures 0 < f.sectorsPerCluster && Lookup(e, f, name) == Lookup(d, f, name)
  {
    OtherEntries(d, e, f, cs, q, i);
    hide Slot, DirSectors, ChainOf, FileOk, ClustersKept, Fat, RootOk, Contents, Live, EntryOf, SlotRewritten,
         SameName, Lookup, Find;
    hide FsOk, WellFormed;
    if p, j :| Live(d, f, cs, p, j) && SameName(EntryOf(d, f, cs, p, j).name, name) {
      LookupLive(d, f, cs, p, j, name);
      LookupLive(e, f, cs, p, j, name);
    } else {
      LookupNone(d, f, cs, name);
      LookupNone(e, f, cs, name);
    }
  }

  // ---- the last step of a create ----

  /** The free slot that a new entry takes is rewritten, and nothing else. */
  lemma {:induction false} StoredIsRewritten(d: Disk, e: Disk, f: Info, cs: seq<nat>, entry: DirEntry)
    returns (q: nat, i: nat)
    requires RootOk(d, f, cs) && AllOn(d, DirSectors(f, cs)) && Tidy(d, DirSectors(f, cs))
    requires entry.Valid() && Stored(d, e, f, cs, entry)
    requires entry.name[0] != END_MARK && entry.name[0] != DELETED_MARK && entry.attr != ATTR_LFN
    ensures SlotRewritten(d, e, f, cs, q, i)
    ensures !Live(d, f, cs, q, i) && Live(e, f, cs, q, i) && EntryOf(e, f, cs, q, i) == entry
    ensures q < |d| && e[q] == PutEntry(d[q], 32 * i, entry)
    ensures AllOn(e, DirSectors(f, cs)) && Tidy(e, DirSectors(f, cs))
  {
    hide DirSectors, FreeSlot, PutEntry, RootOk, EntryAt, Slot, IsEnd, IsFree, Tidy;
    var secs := DirSectors(f, cs);
    var slot := FreeSlot(d, secs).value;
    q, i := slot.0, slot.1;
    var k := FreeSlotIs(d, secs);
    assert secs[k] in secs;
    EndIsNotLive(d[q], i);
    PutEntrySlot(d[q], i, entry);
    PutEntryIsLive(d[q], i, entry);
    NotFreeNotEnd(d, secs, k, i);
    RewrittenIsTidy(d, e, f, cs, secs, q, i, k);
  }

  lemma {:induction false} PutEntryIsLive(was: Sector, i: nat, entry: DirEntry)
    requires i < 16 && entry.Valid()
    requires entry.name[0] != END_MARK && entry.name[0] != DELETED_MARK && entry.attr != ATTR_LFN
    ensures Slot(PutEntry(was, 32 * i, entry), i) == Some(entry) && !IsEnd(PutEntry(was, 32 * i, entry), i)
  {
    hide PutEntry, EntryAt;
    EntryRoundTrip(was, 32 * i, entry);
  }

  lemma {:induction false} NotFreeNotEnd(d: Disk, secs: seq<nat>, k: nat, i: nat)
    requires AllOn(d, secs) && k < |secs|
    requires forall l, j :: 0 <= l <= k && 0 <= j < 16 && (l < k || j < i) ==> !IsFree(d[secs[l]], j)
    ensures forall l, j :: 0 <= l <= k && 0 <= j < 16 && (l < k || j < i) ==> !IsEnd(d[secs[l]], j)
  {
    forall l, j | 0 <= l <= k && 0 <= j < 16 && (l < k || j < i)
      ensures !IsEnd(d[secs[l]], j)
    {
      assert !IsFree(d[secs[l]], j);
    }
  }

  /** A search for the entry's name finds it, in a slot with exactly its bytes, and its file is whole. */
  ghost predicate Entered(d: Disk, f: Info, entry: DirEntry)
    requires 0 < f.sectorsPerCluster
  {
    && FileOk(d, f, entry)
    && var found := Find(d, f, entry.name);
       && found.Ok? && found.value.0 == entry
       && found.value.1 < |d| && found.value.2 + 32 <= 512
       && FreshSlot(d[found.value.1], found.value.2, entry.name, entry.FirstCluster(), entry.fileSize)
  }

  lemma {:induction false} EnteredAt(d: Disk, f: Info, cs: seq<nat>, q: nat, i: nat, was: Sector, entry: DirEntry)
    requires FsOk(d, f, cs) && Live(d, f, cs, q, i) && EntryOf(d, f, cs, q, i) == entry
    requires entry.Valid() && entry.attr == 0x20 && d[q] == PutEntry(was, 32 * i, entry)
    ensures 0 < f.sectorsPerCluster && Entered(d, f, entry)
  {
    hide Find, PutEntry, FreshSlot, DirSectors, FileOk, RootOk, Tidy, AllOn, Slot, EntriesApart, Contents;
    SameNameEq(entry.name, entry.name, entry.name);
    LookupLive(d, f, cs, q, i, entry.name);
    PutIsFresh(was, 32 * i, entry);
  }

  /** A new entry for a whole spare file: the file system stays well formed and has one more file. */
  lemma {:induction false} EntryStored(d: Disk, e: Disk, f: Info, cs: seq<nat>, entry: DirEntry, data: seq<byte>)
    requires FsOk(d, f, cs) && entry.Valid() && Stored(d, e, f, cs, entry)
    requires entry.name[0] != END_MARK && entry.name[0] != DELETED_MARK && entry.attr != ATTR_LFN
    requires FileOk(d, f, entry) && Spare(d, f, cs, ChainOf(d, f, entry))
    requires 0 < f.sectorsPerCluster && Contents(d, f, entry) == Ok(data)
    requires forall q, i :: Live(d, f, cs, q, i) ==> !SameName(EntryOf(d, f, cs, q, i).name, entry.name)
    ensures FsOk(e, f, cs)
    ensures |e| == |d| && (Mirrored(d, f) ==> Mirrored(e, f))
    ensures forall name :: Lookup(e, f, name) == if SameName(entry.name, name) then Ok(data) else Lookup(d, f, name)
    ensures entry.attr == 0x20 ==> Entered(e, f, entry)
  {
    var q, i := StoredIsRewritten(d, e, f, cs, entry);
    DirectorySectorOnly(d, e, f, cs, q, i);
    OtherEntries(d, e, f, cs, q, i);
    NewFileKept(d, e, f, cs, q, i, entry);
    StoredFs(d, e, f, cs, q, i, entry);
    if entry.attr == 0x20 {
      EnteredAt(e, f, cs, q, i, d[q], entry);
    }
    hide Entered, Slot, DirSectors, ChainOf, FileOk, ClustersKept, Fat, RootOk, Contents, Live, EntryOf, SlotRewritten,
         SameName, Lookup, FsOk;
    forall name
      ensures Lookup(e, f, name) == if SameName(entry.name, name) then Ok(data) else Lookup(d, f, name)
    {
      if SameName(entry.name, name) {
        LookupLive(e, f, cs, q, i, name);
      } else {
        OtherLookups(d, e, f, cs, q, i, name);
      }
    }
  }

  lemma {:induction false} NewFileKept(d: Disk, e: Disk, f: Info, cs: seq<nat>, q: nat, i: nat, entry: DirEntry)
    requires RootOk(d, f, cs) && SlotRewritten(d, e, f, cs, q, i)
    requires FileOk(d, f, entry) && Spare(d, f, cs, ChainOf(d, f, entry))
    ensures FileOk(e, f, entry) && ChainOf(e, f, entry) == ChainOf(d, f, entry)
    ensures 0 < f.sectorsPerCluster && Contents(e, f, entry) == Contents(d, f, entry)
  {
    hide Fat, DirSectors, SlotRewritten, Live, EntryOf, FileOk, ChainOf, Contents, ClustersKept;
    ApartFromDirectory(d, e, f, cs, q, i, ChainOf(d, f, entry));
    FileKept(d, e, f, entry);
  }

  lemma {:induction false} StoredFs(d: Disk, e: Disk, f: Info, cs: seq<nat>, q: nat, i: nat, entry: DirEntry)
    requires FsOk(d, f, cs) && SlotRewritten(d, e, f, cs, q, i)
    requires !Live(d, f, cs, q, i) && Live(e, f, cs, q, i) && EntryOf(e, f, cs, q, i) == entry
    requires RootOk(e, f, cs) && AllOn(e, DirSectors(f, cs)) && Tidy(e, DirSectors(f, cs))
    requires FileOk(e, f, entry) && Spare(d, f, cs, ChainOf(e, f, entry))
    requires forall p, j :: Live(d, f, cs, p, j) ==> !SameName(EntryOf(d, f, cs, p, j).name, entry.name)
    ensures FsOk(e, f, cs)
  {
    OtherEntries(d, e, f, cs, q, i);
    hide Slot, DirSectors, ChainOf, FileOk, Fat, RootOk, Contents, Live, EntryOf, SlotRewritten, SameName, Tidy, AllOn;
    forall p, j, r, k | Live(e, f, cs, p, j) && Live(e, f, cs, r, k) && (p != r || j != k)
      ensures !SameName(EntryOf(e, f, cs, p, j).name, EntryOf(e, f, cs, r, k).name)
      ensures Apart(ChainOf(e, f, EntryOf(e, f, cs, p, j)), ChainOf(e, f, EntryOf(e, f, cs, r, k)))
    {
      SameNameEq(EntryOf(e, f, cs, p, j).name, EntryOf(e, f, cs, r, k).name, entry.name);
    }
  }
}
