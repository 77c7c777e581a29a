/** The root directory: 32-byte entries, bounded chain walks, find, and the specification of a scan. */
module Fat32Dir {
  import opened Bytes
  import opened Fat32Card
  import opened Fat32Layout
  import opened Fat32Tables
  import opened Fat32Alloc

  type Name = s: seq<byte> | |s| == 11 witness seq(11, i => 0x20)

  const END_MARK: byte := 0x00
  const DELETED_MARK: byte := 0xE5
  const ATTR_LFN: byte := 0x0F

  /** Sectors any one root-directory walk may read before it gives up. */
  const MAX_DIR_SECTORS: nat := 8192

  datatype DirEntry = DirEntry(name: Name, attr: byte, clusterHi: nat, clusterLo: nat, fileSize: nat) {
    predicate Valid() {
      clusterHi < 0x1_0000 && clusterLo < 0x1_0000 && fileSize < U32_LIMIT
    }

    function FirstCluster(): nat {
      0x1_0000 * clusterHi + clusterLo
    }
  }

  /** `DirEntry::from_bytes` on the 32 bytes at `off`: nothing for an end mark, a deleted or a long-name entry. */
  function EntryAt(sec: Sector, off: nat): (r: Option<DirEntry>)
    requires off + 32 <= 512
    ensures r.Some? ==> r.value.Valid()
  {
    if sec[off] == END_MARK || sec[off] == DELETED_MARK || sec[off + 11] == ATTR_LFN then None
    else Some(DirEntry(sec[off..off + 11], sec[off + 11], Le16(sec, off + 20), Le16(sec, off + 26),
        Le32(sec, off + 28)))
  }

  function Upper(b: byte): byte {
    if 0x61 <= b <= 0x7A then b - 32 else b
  }

  /** 8.3 names compare without regard to case. */
  predicate SameName(a: Name, b: Name) {
    forall i :: 0 <= i < 11 ==> Upper(a[i]) == Upper(b[i])
  }

  /** Two bytes are the same letter: they are equal, or an ASCII letter in its two cases. */
  predicate SameLetter(a: byte, b: byte) {
    a == b || (0x41 <= a <= 0x5A && b == a + 0x20) || (0x41 <= b <= 0x5A && a == b + 0x20)
  }

  /** Names match in all eleven bytes; where neither has a small letter they match only if they are equal. */
  lemma {:induction false} NamesMatch(a: Name, b: Name)
    ensures SameName(a, b) <==> forall k :: 0 <= k < 11 ==> SameLetter(a[k], b[k])
    ensures (forall k :: 0 <= k < 11 ==> !(0x61 <= a[k] <= 0x7A) && !(0x61 <= b[k] <= 0x7A)) ==>
              (SameName(a, b) <==> a == b)
  {
    forall k | 0 <= k < 11
      ensures Upper(a[k]) == Upper(b[k]) <==> SameLetter(a[k], b[k])
    {
      LettersMatch(a[k], b[k]);
    }
    if SameName(a, b) && forall k :: 0 <= k < 11 ==> !(0x61 <= a[k] <= 0x7A) && !(0x61 <= b[k] <= 0x7A) {
      forall k | 0 <= k < 11
        ensures a[k] == b[k]
      {
        assert Upper(a[k]) == Upper(b[k]);
      }
    }
  }

  lemma {:induction false} LettersMatch(a: byte, b: byte)
    ensures Upper(a) == Upper(b) <==> SameLetter(a, b)
  {
  }

  /** The 32 bytes of slot `i` are a live entry whose name is `name`, as the card holds them. */
  predicate NamedSo(sec: Sector, i: nat, name: Name)
    requires i < 16
  {
    && sec[32 * i] != 0x00 && sec[32 * i] != 0xE5 && sec[32 * i + 11] != 0x0F
    && forall k :: 0 <= k < 11 ==> SameLetter(sec[32 * i + k], name[k])
  }

  /** `e` is what the 32 bytes at `off` say, field by field. */
  predicate FieldsAt(sec: Sector, off: nat, e: DirEntry)
    requires off + 32 <= 512
  {
    && e.name == sec[off..off + 11]
    && e.attr == sec[off + 11]
    && e.FirstCluster() == sec[off + 26] as int + 0x100 * sec[off + 27] as int + 0x1_0000 * sec[off + 20] as int
                           + 0x100_0000 * sec[off + 21] as int
    && e.fileSize == sec[off + 28] as int + 0x100 * sec[off + 29] as int + 0x1_0000 * sec[off + 30] as int
                     + 0x100_0000 * sec[off + 31] as int
  }

  lemma {:induction false} EntryIs(sec: Sector, i: nat, name: Name)
    requires i < 16
    ensures
      var e := EntryAt(sec, 32 * i);
      && (NamedSo(sec, i, name) <==> e.Some? && SameName(e.value.name, name))
      && (e.Some? ==> FieldsAt(sec, 32 * i, e.value))
  {
    var n := sec[32 * i..32 * i + 11];
    assert forall k :: 0 <= k < 11 ==> n[k] == sec[32 * i + k];
    NamesMatch(n, name);
    hide SameLetter, SameName;
  }

  // ---- scanning ----

  datatype Hit = Found(entry: DirEntry, sector: nat, offset: nat) | EndOfDirectory | NotHere | OffCard

  /** Slots `i..16` of one sector, up to the first end mark or match. */
  function ScanSlots(sec: Sector, sector: nat, i: nat, name: Name): Hit
    requires i <= 16
    decreases 16 - i
  {
    if i == 16 then NotHere
    else if sec[32 * i] == END_MARK then EndOfDirectory
    else
      var e := EntryAt(sec, 32 * i);
      if e.Some? && SameName(e.value.name, name) then Found(e.value, sector, 32 * i)
      else ScanSlots(sec, sector, i + 1, name)
  }

  /** The sectors `secs` in order. */
  function ScanSectors(d: Disk, secs: seq<nat>, name: Name): Hit {
    if secs == [] then NotHere
    else if secs[0] >= |d| then OffCard
    else
      var hit := ScanSlots(d[secs[0]], secs[0], 0, name);
      if hit.NotHere? then ScanSectors(d, secs[1..], name) else hit
  }

  /** Sectors `s..spc` of the cluster at `base`. */
  function SectorsFrom(base: nat, s: nat, spc: nat): (r: seq<nat>)
    requires s <= spc
    ensures |r| == spc - s
    ensures forall k :: 0 <= k < |r| ==> r[k] == base + s + k
  {
    seq(spc - s, k requires 0 <= k < spc - s => base + s + k)
  }

  function SectorsOf(f: Info, cluster: nat): seq<nat> {
    SectorsFrom(ClusterToSector(f, cluster), 0, f.sectorsPerCluster)
  }

  // ---- following the chain ----

  /** The next cluster of a directory walk, and the sectors charged so far. */
  function NextDir(d: Disk, f: Info, cluster: nat, walked: nat): (r: Result<(Option<nat>, nat)>)
    requires walked <= MAX_DIR_SECTORS
    ensures r.Ok? && r.value.0.Some? ==> r.value.1 == walked + f.sectorsPerCluster <= MAX_DIR_SECTORS
    ensures r.Ok? ==> FatSectorFor(f, cluster).1 + 4 <= 512
  {
    var next := NextOf(d, f, cluster);
    if next.Err? then Err(next.error)
    else if next.value >= EOC_MIN then Ok((None, walked))
    else if next.value < 2 then Err(BadFatChain)
    else if SatAdd(walked, f.sectorsPerCluster) > MAX_DIR_SECTORS then Err(CircularFatChain)
    else Ok((Some(next.value), walked + f.sectorsPerCluster))
  }

  method NextDirCluster(card: Card, f: Info, cluster: nat, sectorsWalked: nat)
    returns (r: Result<(Option<nat>, nat)>)
    requires sectorsWalked <= MAX_DIR_SECTORS
    ensures r == Err(Io) || r == NextDir(card.sectors, f, cluster, sectorsWalked)
  {
    var next :- ReadFatEntry(card, f, cluster);
    if next >= 0x0FFF_FFF8 {
      return Ok((None, sectorsWalked));
    }
    if next < 2 {
      return Err(BadFatChain);
    }
    var walked := SatAdd(sectorsWalked, f.sectorsPerCluster);
    if walked > 8192 {
      return Err(CircularFatChain);
    }
    return Ok((Some(next), walked));
  }

  // ---- find ----

  function FindFrom(d: Disk, f: Info, cluster: nat, walked: nat, name: Name): (r: Result<(DirEntry, nat, nat)>)
    requires 0 < f.sectorsPerCluster && walked <= MAX_DIR_SECTORS
    decreases MAX_DIR_SECTORS - walked
  {
    match ScanSectors(d, SectorsOf(f, cluster), name)
    case Found(entry, sector, offset) => Ok((entry, sector, offset))
    case EndOfDirectory => Err(FileNotFound)
    case OffCard => Err(Io)
    case NotHere =>
      var next := NextDir(d, f, cluster, walked);
      if next.Err? then Err(next.error)
      else if next.value.0.None? then Err(FileNotFound)
      else FindFrom(d, f, next.value.0.value, next.value.1, name)
  }

  /** What `find_file_in_root` answers on the card at `d`, whatever its FAT holds. */
  function Find(d: Disk, f: Info, name: Name): Result<(DirEntry, nat, nat)>
    requires 0 < f.sectorsPerCluster
  {
    FindFrom(d, f, f.rootCluster, 0, name)
  }

  /** The 16 entries of one sector. */
  method FindInSector(buf: Sector, sector: nat, name: Name) returns (hit: Hit)
    ensures hit == ScanSlots(buf, sector, 0, name) && !hit.OffCard?
  {
    hide EntryAt, SameName;
    for i := 0 to 16
      invariant ScanSlots(buf, sector, 0, name) == ScanSlots(buf, sector, i, name)
    {
      var off := i * 32;
      if buf[off] == END_MARK {
        return EndOfDirectory;
      }
      var entry := EntryAt(buf, off);
      if entry.Some? && SameName(entry.value.name, name) {
        return Found(entry.value, sector, off);
      }
    }
    return NotHere;
  }

  /** One cluster of the walk: its sectors in order. */
  method FindInCluster(card: Card, f: Info, cluster: nat, name: Name) returns (r: Result<Hit>)
    ensures r == Err(Io)
              || (r.Ok? && !r.value.OffCard? && r.value == ScanSectors(card.sectors, SectorsOf(f, cluster), name))
  {
    hide ScanSlots, ClusterToSector;
    var baseSector := ClusterToSector(f, cluster);
    ghost var d := card.sectors;
    for s := 0 to f.sectorsPerCluster
      invariant ScanSectors(d, SectorsOf(f, cluster), name)
                  == ScanSectors(d, SectorsFrom(baseSector, s, f.sectorsPerCluster), name)
    {
      var buf :- card.ReadBlock(baseSector + s);
      assert SectorsFrom(baseSector, s, f.sectorsPerCluster)[1..]
          == SectorsFrom(baseSector, s + 1, f.sectorsPerCluster);
      var hit := FindInSector(buf, baseSector + s, name);
      if !hit.NotHere? {
        return Ok(hit);
      }
    }
    return Ok(NotHere);
  }

  /** A hit is a slot of the card that is named so, and the entry is what its bytes say. */
  predicate HitOn(d: Disk, entry: DirEntry, sector: nat, offset: nat, name: Name) {
    && sector < |d| && offset % 32 == 0 && offset / 32 < 16
    && NamedSo(d[sector], offset / 32, name)
    && FieldsAt(d[sector], offset, entry)
  }

  lemma {:induction false} SlotHit(d: Disk, sector: nat, i: nat, name: Name)
    requires sector < |d| && i <= 16
    ensures
      var hit := ScanSlots(d[sector], sector, i, name);
      hit.Found? ==> HitOn(d, hit.entry, hit.sector, hit.offset, name)
    decreases 16 - i
  {
    hide EntryAt, SameName, NamedSo, FieldsAt;
    if i < 16 {
      EntryIs(d[sector], i, name);
      SlotHit(d, sector, i + 1, name);
    }
  }

  lemma {:induction false} SectorHit(d: Disk, secs: seq<nat>, name: Name)
    ensures
      var hit := ScanSectors(d, secs, name);
      hit.Found? ==> HitOn(d, hit.entry, hit.sector, hit.offset, name)
  {
    hide ScanSlots, HitOn;
    if secs != [] && secs[0] < |d| {
      SlotHit(d, secs[0], 0, name);
      SectorHit(d, secs[1..], name);
    }
  }

  /** Whatever the card holds, what a search finds is there. */
  lemma {:induction false} FoundIs(d: Disk, f: Info, cluster: nat, walked: nat, name: Name)
    requires 0 < f.sectorsPerCluster && walked <= MAX_DIR_SECTORS
    ensures
      var found := FindFrom(d, f, cluster, walked, name);
      found.Ok? ==> HitOn(d, found.value.0, found.value.1, found.value.2, name)
    decreases MAX_DIR_SECTORS - walked
  {
    hide NextOf, ScanSectors, SectorsOf, HitOn;
    SectorHit(d, SectorsOf(f, cluster), name);
    if ScanSectors(d, SectorsOf(f, cluster), name).NotHere? {
      var next := NextDir(d, f, cluster, walked);
      if next.Ok? && next.value.0.Some? {
        FoundIs(d, f, next.value.0.value, next.value.1, name);
      }
    }
  }

  lemma {:induction false} HitLetters(d: Disk, found: Result<(DirEntry, nat, nat)>, name: Name)
    requires found.Ok? ==> HitOn(d, found.value.0, found.value.1, found.value.2, name)
    ensures found.Ok? ==> forall k :: 0 <= k < 11 ==> SameLetter(found.value.0.name[k], name[k])
  {
    hide SameLetter;
    if found.Ok? {
      var (entry, sector, offset) := found.value;
      assert forall k :: 0 <= k < 11 ==> entry.name[k] == d[sector][32 * (offset / 32) + k];
    }
  }

  method FindFileInRoot(card: Card, f: Info, name: Name) returns (r: Result<(DirEntry, nat, nat)>)
    requires 0 < f.sectorsPerCluster
    ensures r == Err(Io) || r == Find(card.sectors, f, name)
    ensures r.Ok? ==> HitOn(card.sectors, r.value.0, r.value.1, r.value.2, name)
    ensures r.Ok? ==> forall k :: 0 <= k < 11 ==> SameLetter(r.value.0.name[k], name[k])
  {
    hide ScanSectors, SectorsOf, NextOf, HitOn;
    FoundIs(card.sectors, f, f.rootCluster, 0, name);
    HitLetters(card.sectors, Find(card.sectors, f, name), name);
    var cluster := f.rootCluster;
    var sectorsWalked := 0;
    while true
      invariant sectorsWalked <= MAX_DIR_SECTORS
      invariant Find(card.sectors, f, name) == FindFrom(card.sectors, f, cluster, sectorsWalked, name)
      decreases MAX_DIR_SECTORS - sectorsWalked
    {
      var hit :- FindInCluster(card, f, cluster, name);
      match hit {
        case Found(entry, sector, offset) => return Ok((entry, sector, offset));
        case EndOfDirectory => return Err(FileNotFound);
        case NotHere =>
      }
      var step :- NextDirCluster(card, f, cluster, sectorsWalked);
      if step.0.None? {
        return Err(FileNotFound);
      }
      cluster := step.0.value;
      sectorsWalked := step.1;
    }
  }

  // ---- a whole root directory ----

  /** The sectors of the clusters `cs`, in order. */
  function DirSectors(f: Info, cs: seq<nat>): seq<nat> {
    if cs == [] then [] else SectorsOf(f, cs[0]) + DirSectors(f, cs[1..])
  }

  /** `cs` is the root directory's chain: whole and on the card. */
  ghost predicate RootChain(d: Disk, f: Info, cs: seq<nat>) {
    && WellFormed(f, |d|)
    && IsChain(Fat(d, f, 0), cs)
    && cs[0] == f.rootCluster
    && (forall i :: 0 <= i < |cs| ==> OnCard(f, cs[i]))
  }

  /** And a walk along it stays within its bound. */
  ghost predicate RootOk(d: Disk, f: Info, cs: seq<nat>) {
    RootChain(d, f, cs) && (|cs| - 1) * f.sectorsPerCluster <= MAX_DIR_SECTORS
  }

  /** What a walk is charged before cluster `k`. */
  lemma {:induction false} ChargedBefore(k: nat, n: nat, spc: nat)
    requires k < n
    ensures 0 <= k * spc <= (n - 1) * spc
    ensures (k + 1) * spc == k * spc + spc
  {
    assert (n - 1) * spc == k * spc + (n - 1 - k) * spc;
    assert 0 <= (n - 1 - k) * spc;
  }

  /** Where the walk of a directory goes from cluster `k`: along the chain, as far as the bound lets it. */
  lemma {:induction false} NextInChain(d: Disk, f: Info, cs: seq<nat>, k: nat)
    requires RootChain(d, f, cs) && k < |cs| && k * f.sectorsPerCluster <= MAX_DIR_SECTORS
    ensures 0 <= k * f.sectorsPerCluster
    ensures NextDir(d, f, cs[k], k * f.sectorsPerCluster) ==
            if k + 1 == |cs| then Ok((None, k * f.sectorsPerCluster))
            else if (k + 1) * f.sectorsPerCluster > MAX_DIR_SECTORS then Err(CircularFatChain)
            else Ok((Some(cs[k + 1]), (k + 1) * f.sectorsPerCluster))
  {
    hide NextOf, FatSectorFor, MaxCluster;
    ChargedBefore(k, |cs|, f.sectorsPerCluster);
    NextOfTable(d, f, cs[k]);
    if k + 1 < |cs| {
      assert Fat(d, f, 0)[cs[k]] == cs[k + 1];
    }
  }

  lemma {:induction false} ScanConcat(d: Disk, a: seq<nat>, b: seq<nat>, name: Name)
    ensures ScanSectors(d, a + b, name) ==
            if ScanSectors(d, a, name).NotHere? then ScanSectors(d, b, name) else ScanSectors(d, a, name)
  {
    if a == [] {
      assert a + b == b;
    } else {
      assert (a + b)[1..] == a[1..] + b;
      ScanConcat(d, a[1..], b, name);
    }
  }

  function HitResult(hit: Hit): Result<(DirEntry, nat, nat)> {
    match hit
    case Found(entry, sector, offset) => Ok((entry, sector, offset))
    case OffCard => Err(Io)
    case _ => Err(FileNotFound)
  }

  /** On a whole root directory `find` is one scan of its sectors: the walk bound never bites. */
  lemma {:induction false} FindIsScan(d: Disk, f: Info, cs: seq<nat>, name: Name)
    requires RootOk(d, f, cs)
    ensures Find(d, f, name) == HitResult(ScanSectors(d, DirSectors(f, cs), name))
  {
    FindFromIsScan(d, f, cs, 0, name);
    assert cs[0..] == cs;
  }

  lemma {:induction false} FindFromIsScan(d: Disk, f: Info, cs: seq<nat>, k: nat, name: Name)
    requires RootOk(d, f, cs) && k < |cs|
    ensures 0 <= k * f.sectorsPerCluster <= MAX_DIR_SECTORS
    ensures FindFrom(d, f, cs[k], k * f.sectorsPerCluster, name)
              == HitResult(ScanSectors(d, DirSectors(f, cs[k..]), name))
    decreases |cs| - k
  {
    hide ScanSlots, ScanSectors, SectorsOf, NextDir, WellFormed;
    var spc := f.sectorsPerCluster;
    ChargedBefore(k, |cs|, spc);
    NextInChain(d, f, cs, k);
    ScanConcat(d, SectorsOf(f, cs[k]), DirSectors(f, cs[k + 1..]), name);
    assert cs[k..][1..] == cs[k + 1..];
    if k + 1 < |cs| {
      ChargedBefore(k + 1, |cs|, spc);
      FindFromIsScan(d, f, cs, k + 1, name);
    } else {
      NothingToScan(d, f, cs[k + 1..], name);
    }
  }

  lemma {:induction false} NothingToScan(d: Disk, f: Info, cs: seq<nat>, name: Name)
    requires cs == []
    ensures ScanSectors(d, DirSectors(f, cs), name) == NotHere
  {
  }

  /** What a scan that was cut short by the walk bound answers. */
  function CutResult(hit: Hit): Result<(DirEntry, nat, nat)> {
    if hit.NotHere? then Err(CircularFatChain) else HitResult(hit)
  }

  /**
   * A directory with one cluster more than the walk bound allows: the clusters before it are
   * searched, and a name that is not in them is answered with the error for a circular chain.
   */
  lemma {:induction false} FindFromIsCut(d: Disk, f: Info, cs: seq<nat>, nc: nat, k: nat, name: Name)
    requires RootChain(d, f, cs + [nc]) && k < |cs|
    requires (|cs| - 1) * f.sectorsPerCluster <= MAX_DIR_SECTORS < |cs| * f.sectorsPerCluster
    ensures 0 <= k * f.sectorsPerCluster <= MAX_DIR_SECTORS
    ensures FindFrom(d, f, cs[k], k * f.sectorsPerCluster, name)
              == CutResult(ScanSectors(d, DirSectors(f, cs[k..]), name))
    decreases |cs| - k
  {
    hide ScanSlots, ScanSectors, SectorsOf, NextDir, WellFormed;
    var spc := f.sectorsPerCluster;
    ChargedBefore(k, |cs|, spc);
    NextInChain(d, f, cs + [nc], k);
    ScanConcat(d, SectorsOf(f, cs[k]), DirSectors(f, cs[k + 1..]), name);
    assert cs[k..][1..] == cs[k + 1..];
    if k + 1 < |cs| {
      ChargedBefore(k + 1, |cs|, spc);
      FindFromIsCut(d, f, cs, nc, k + 1, name);
    } else {
      NothingToScan(d, f, cs[k + 1..], name);
    }
  }
}
