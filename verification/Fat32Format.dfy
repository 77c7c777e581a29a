/** Formatting a card: the geometry it derives, what it writes, and the empty file system that results. */
module Fat32Format {
  import opened Bytes
  import opened Fat32Card
  import opened Fat32Layout
  import opened Fat32Tables
  import opened Fat32Alloc
  import opened Fat32Dir
  import opened Fat32Root
  import opened Fat32Fs
  import opened Fat32Mount

  type u32 = x: int | 0 <= x < U32_LIMIT

  const RESERVED_SECTORS: nat := 32
  const NUM_FATS: nat := 2
  const FAT32_MIN_CLUSTERS: nat := 65_525

  /** The smallest card that can be formatted. */
  const SMALLEST_CARD: nat := 66_599

  datatype Geometry = Geometry(totalSectors: nat, sectorsPerCluster: nat, fatSize: nat, clusters: nat)

  // ---- geometry ----

  /** A cluster size the format tries. */
  predicate Candidate(spc: nat)
    ensures Candidate(spc) ==> 0 < spc
  {
    spc in {64, 32, 16, 8, 4, 2, 1}
  }

  /** FAT sectors that hold an entry for every cluster the card could have at `spc` sectors each. */
  function FatSizeFor(total: nat, spc: nat): nat
    requires 0 < spc && RESERVED_SECTORS < total
  {
    ((total - RESERVED_SECTORS) / spc + 129) / 128
  }

  /** At `spc` sectors per cluster the card reaches the FAT32 cluster floor. */
  predicate ReachesFloor(total: nat, spc: nat)
    requires 0 < spc
  {
    && RESERVED_SECTORS < total
    && RESERVED_SECTORS + NUM_FATS * FatSizeFor(total, spc) < total
    && FAT32_MIN_CLUSTERS <= (total - RESERVED_SECTORS - NUM_FATS * FatSizeFor(total, spc)) / spc
  }

  /** A geometry that tiles the front of a card of `total` sectors, wasting less than a cluster. */
  predicate Tiles(g: Geometry, total: nat) {
    && IsPowerOfTwo(g.sectorsPerCluster)
    && 0 < g.fatSize
    && g.totalSectors == RESERVED_SECTORS + NUM_FATS * g.fatSize + g.clusters * g.sectorsPerCluster
    && g.totalSectors <= total < g.totalSectors + g.sectorsPerCluster
    && FAT32_MIN_CLUSTERS <= g.clusters
    && g.clusters + 2 <= 128 * g.fatSize
    && g.clusters + 2 <= EOC_MIN
  }

  /** A card that misses the floor at any cluster size above one sector is small. */
  lemma FloorBound(total: nat, spc: nat)
    requires spc in {64, 32, 16, 8, 4, 2} && !ReachesFloor(total, spc)
    ensures total < 0x80_0000
  {
  }

  /** One sector per cluster reaches the floor exactly from `SMALLEST_CARD` on, and larger clusters need more. */
  lemma FloorExact(total: nat, spc: nat)
    requires Candidate(spc)
    ensures ReachesFloor(total, spc) ==> SMALLEST_CARD <= total
    ensures spc == 1 && SMALLEST_CARD <= total ==> ReachesFloor(total, spc)
  {
  }

  /** Sizing the FAT for the whole data region leaves an entry for every cluster behind it. */
  lemma FatCovers(total: nat, spc: nat)
    requires Candidate(spc) && RESERVED_SECTORS < total
    requires RESERVED_SECTORS + NUM_FATS * FatSizeFor(total, spc) < total
    ensures (total - RESERVED_SECTORS - NUM_FATS * FatSizeFor(total, spc)) / spc + 2 <= 128 * FatSizeFor(total, spc)
  {
  }

  /**
   * Cluster and FAT size for a card. Every intermediate value fits a u32; the last guard of the
   * loop never fires; and a card is refused only when no cluster size reaches the floor.
   */
  method DeriveGeometry(totalSectors: u32) returns (r: Result<Geometry>)
    ensures r.Ok? <==> 66_599 <= totalSectors
    ensures r.Err? ==> r.error == CardTooSmall
    ensures r.Ok? ==>
              var g := r.value;
              && g.sectorsPerCluster in {64, 32, 16, 8, 4, 2, 1}
              && g.fatSize == ((totalSectors - 32) / g.sectorsPerCluster + 2 + 127) / 128
              && g.clusters == (totalSectors - 32 - 2 * g.fatSize) / g.sectorsPerCluster >= 65_525
    ensures r.Ok? ==>
              && Tiles(r.value, totalSectors)
              && Candidate(r.value.sectorsPerCluster)
              && (forall spc: nat :: Candidate(spc) && r.value.sectorsPerCluster < spc ==>
                    !ReachesFloor(totalSectors, spc))
  {
    hide ReachesFloor;
    var sizes := [64, 32, 16, 8, 4, 2, 1];
    for i := 0 to 7
      invariant forall t: nat :: Candidate(t) && (i < 7 ==> sizes[i] < t) ==> !ReachesFloor(totalSectors, t)
      invariant i > 0 ==> totalSectors < 0x80_0000
    {
      var spc: u32 := sizes[i];
      FloorExact(totalSectors, spc);
      if totalSectors <= RESERVED_SECTORS {
        break;
      }
      var round := TryClusterSize(totalSectors, spc);
      if round.Some? {
        EnoughClusters(round.value, totalSectors);
        return Ok(round.value);
      }
      if spc != 1 {
        FloorBound(totalSectors, spc);
        assert spc == 2 * sizes[i + 1];
      }
    }
    assert RESERVED_SECTORS < totalSectors ==> !ReachesFloor(totalSectors, 1);
    FloorExact(totalSectors, 1);
    return Err(CardTooSmall);
  }

  lemma EnoughClusters(g: Geometry, total: nat)
    requires Tiles(g, total)
    ensures g.clusters >= 65_525
  {
  }

  lemma Quotient(n: nat, m: nat)
    requires 0 < m
    ensures n / m * m <= n < n / m * m + m
  {
  }

  lemma QuotientBound(n: nat, m: nat)
    requires Candidate(m) && n < U32_LIMIT && (m == 64 || n < 0x80_0000)
    ensures 0 <= n / m < 0x400_0000
  {
  }

  /** The geometry that a round of the loop returns. */
  lemma {:induction false} RoundTiles(total: nat, spc: nat, fatSize: nat, clusters: nat)
    requires Candidate(spc) && ReachesFloor(total, spc) && total < U32_LIMIT && (spc == 64 || total < 0x80_0000)
    requires fatSize == FatSizeFor(total, spc)
    requires clusters == (total - RESERVED_SECTORS - NUM_FATS * fatSize) / spc
    ensures 0 <= clusters * spc <= total - RESERVED_SECTORS - NUM_FATS * fatSize
    ensures Tiles(Geometry(RESERVED_SECTORS + NUM_FATS * fatSize + clusters * spc, spc, fatSize, clusters), total)
  {
    FatCovers(total, spc);
    var data := total - RESERVED_SECTORS - NUM_FATS * fatSize;
    Quotient(data, spc);
    QuotientBound(data, spc);
    hide FatSizeFor;
  }

  /** One round of the loop. */
  method TryClusterSize(totalSectors: u32, spc: u32) returns (r: Option<Geometry>)
    requires Candidate(spc) && RESERVED_SECTORS < totalSectors
    requires spc != 64 ==> totalSectors < 0x80_0000
    ensures r.Some? <==> ReachesFloor(totalSectors, spc)
    ensures r.Some? ==> r.value.sectorsPerCluster == spc && Tiles(r.value, totalSectors)
    ensures r.Some? ==>
              && r.value.fatSize == FatSizeFor(totalSectors, spc)
              && r.value.clusters == (totalSectors - RESERVED_SECTORS - NUM_FATS * r.value.fatSize) / spc
  {
    hide Tiles, Candidate;
    var available: u32 := totalSectors - RESERVED_SECTORS;
    QuotientBound(available, spc);
    var approxClusters: u32 := available / spc;
    var entries: u32 := approxClusters + 2;
    var rounded: u32 := entries + 127;
    var fatSize: u32 := rounded / 128;
    assert fatSize == FatSizeFor(totalSectors, spc);
    hide FatSizeFor;
    var fatTotal: u32 := NUM_FATS * fatSize;
    var before: u32 := RESERVED_SECTORS + fatTotal;
    if totalSectors <= before {
      return None;
    }
    var data: u32 := available - fatTotal;
    QuotientBound(data, spc);
    var clusters: u32 := data / spc;
    if clusters < FAT32_MIN_CLUSTERS {
      return None;
    }
    FatCovers(totalSectors, spc);
    var covered: u32 := fatSize * 128;
    var needed: u32 := clusters + 2;
    if covered < needed {
      assert false;
    }
    RoundTiles(totalSectors, spc, fatSize, clusters);
    hide ReachesFloor;
    var used: u32 := clusters * spc;
    var end: u32 := before + used;
    return Some(Geometry(end, spc, fatSize, clusters));
  }

  // ---- what is written ----

  function InfoOf(g: Geometry): Info {
    Info(512, g.sectorsPerCluster, RESERVED_SECTORS, NUM_FATS, g.fatSize, 2, g.totalSectors, RESERVED_SECTORS,
         RESERVED_SECTORS + NUM_FATS * g.fatSize)
  }

  /** The BPB sector. */
  function BootSector(g: Geometry): Sector
    requires g.sectorsPerCluster < 0x100 && g.totalSectors < U32_LIMIT && g.fatSize < U32_LIMIT
  {
    var s := Patch(ZeroSector(), 0, [0xEB, 0x58, 0x90, 0x4D, 0x53, 0x44, 0x4F, 0x53, 0x35, 0x2E, 0x30]);
    var s := Patch(s, 11, [0x00, 0x02, g.sectorsPerCluster as byte, RESERVED_SECTORS as byte, 0x00, NUM_FATS as byte]);
    var s := Patch(s, 21, [0xF8]);
    var s := Patch(s, 24, [0x3F, 0x00, 0xFF]);
    var s := Patch(s, 32, Le32Bytes(g.totalSectors));
    var s := Patch(s, 36, Le32Bytes(g.fatSize));
    var s := Patch(s, 44, [0x02, 0x00, 0x00, 0x00, 0x01, 0x00, 0x06]);
    var s := Patch(s, 66,
        [0x29, 0x4B, 0x53, 0x53, 0x00, 0x4B, 0x41, 0x53, 0x53, 0x49, 0x47, 0x4E, 0x45, 0x52, 0x20, 0x20]);
    var s := Patch(s, 82, [0x46, 0x41, 0x54, 0x33, 0x32, 0x20, 0x20, 0x20]);
    Patch(s, 510, [0x55, 0xAA])
  }

  /** The FSInfo sector: free clusters, and the first of them. */
  function FsInfo(freeCount: nat): Sector
    requires freeCount < U32_LIMIT
  {
    var s := Patch(ZeroSector(), 0, [0x52, 0x52, 0x61, 0x41]);
    var s := Patch(s, 484, [0x72, 0x72, 0x41, 0x61]);
    var s := Patch(s, 488, Le32Bytes(freeCount));
    var s := Patch(s, 492, Le32Bytes(3));
    Patch(s, 510, [0x55, 0xAA])
  }

  /** The first sector of a fresh FAT: media byte, and end markers for clusters 1 and 2. */
  function FatFirst(): Sector {
    Patch(ZeroSector(), 0, [0xF8, 0xFF, 0xFF, 0x0F, 0xFF, 0xFF, 0xFF, 0x0F, 0xFF, 0xFF, 0xFF, 0x0F])
  }

  /** Mounting reads back from the BPB exactly the geometry that was written. */
  lemma {:induction false} BootRoundTrip(g: Geometry, total: nat)
    requires Tiles(g, total) && total <= U32_MAX
    ensures g.fatSize < U32_LIMIT
    ensures HasJump(BootSector(g)) && FromBootSector(BootSector(g)) == Ok(InfoOf(g))
  {
    BootBytes(g);
    var s := BootSector(g);
    assert IsPowerOfTwo(g.sectorsPerCluster) && RESERVED_SECTORS + NUM_FATS * g.fatSize <= U32_MAX;
    hide BootSector, Tiles;
    BootWords(g, s);
    hide Le32Bytes, Le32;
  }

  lemma {:induction false} BootWords(g: Geometry, s: Sector)
    requires g.totalSectors < U32_LIMIT && g.fatSize < U32_LIMIT
    requires s[32..36] == Le32Bytes(g.totalSectors) && s[36..40] == Le32Bytes(g.fatSize)
    requires s[44] == 2 && s[45] == 0 && s[46] == 0 && s[47] == 0
    ensures Le32(s, 32) == g.totalSectors && Le32(s, 36) == g.fatSize && Le32(s, 44) == 2
  {
    hide Le32Bytes;
    Le32Same(s, 32, s[32..36]);
    Le32Same(s, 36, s[36..40]);
  }

  lemma Le32Same(s: Sector, o: nat, t: seq<byte>)
    requires o + 4 <= 512 && |t| == 4 && s[o] == t[0] && s[o + 1] == t[1] && s[o + 2] == t[2] && s[o + 3] == t[3]
    ensures Le32(s, o) == Le32(t, 0)
  {
  }

  lemma {:induction false} BootBytes(g: Geometry)
    requires g.sectorsPerCluster < 0x100 && g.totalSectors < U32_LIMIT && g.fatSize < U32_LIMIT
    ensures
      var s := BootSector(g);
      var t := Le32Bytes(g.totalSectors);
      var u := Le32Bytes(g.fatSize);
      && s[0] == 0xEB && s[510] == 0x55 && s[511] == 0xAA
      && s[11] == 0 && s[12] == 2 && s[13] == g.sectorsPerCluster && s[14] == 32 && s[15] == 0 && s[16] == 2
      && s[19] == 0 && s[20] == 0
      && s[32] == t[0] && s[33] == t[1] && s[34] == t[2] && s[35] == t[3]
      && s[36] == u[0] && s[37] == u[1] && s[38] == u[2] && s[39] == u[3]
      && s[44] == 2 && s[45] == 0 && s[46] == 0 && s[47] == 0
  {
    hide Patch, Le32Bytes, Le32;
  }

  /** Sector `q` of a formatted card, up to the end of the root cluster. */
  function Image(g: Geometry, q: nat): Sector
    requires Fits(g)
  {
    if q == 0 || q == 6 then BootSector(g)
    else if q == 1 || q == 7 then FsInfo(g.clusters - 1)
    else if q == RESERVED_SECTORS || q == RESERVED_SECTORS + g.fatSize then FatFirst()
    else ZeroSector()
  }

  /** The geometry's numbers fit their fields. */
  predicate Fits(g: Geometry) {
    && 0 < g.sectorsPerCluster < 0x100 && g.totalSectors < U32_LIMIT
    && 1 < g.fatSize < U32_LIMIT && 1 <= g.clusters < U32_LIMIT
  }

  lemma {:induction false} TilesFits(g: Geometry, total: nat)
    requires Tiles(g, total) && total <= U32_MAX
    ensures Fits(g)
  {
    assert g.clusters * g.sectorsPerCluster >= 0;
  }

  /** First sector past what the format writes. */
  function End(g: Geometry): nat {
    RESERVED_SECTORS + NUM_FATS * g.fatSize + g.sectorsPerCluster
  }

  /** The sectors `done` hold what the format writes there. */
  ghost predicate Laid(d: Disk, g: Geometry, done: set<nat>)
    requires Fits(g)
  {
    forall q :: q in done ==> q < |d| && d[q] == Image(g, q)
  }

  /** Every sector the format writes has been written. */
  ghost predicate Formatted(d: Disk, g: Geometry) {
    Fits(g) && End(g) <= |d| && forall q: nat :: q < End(g) ==> d[q] == Image(g, q)
  }

  ghost predicate PastKept(d: Disk, e: Disk, g: Geometry) {
    |e| == |d| && forall q :: End(g) <= q < |d| ==> e[q] == d[q]
  }

  // ---- the image, byte by byte ----

  /** The boot sector of a format. */
  predicate BootImage(s: Sector, g: Geometry) {
    // Jump, OEM name, sector and cluster size, reserved sectors, number of FATs.
    && s[..17] == [0xEB, 0x58, 0x90, 'M' as int, 'S' as int, 'D' as int, 'O' as int, 'S' as int, '5' as int,
                   '.' as int, '0' as int, 0, 2, g.sectorsPerCluster, 32, 0, 2]
    // No root entries, no 16-bit total; media byte; sectors per track and heads.
    && s[17..32] == [0, 0, 0, 0, 0xF8, 0, 0, 0x3F, 0, 0xFF, 0, 0, 0, 0, 0]
    // Total sectors, sectors of a FAT.
    && Number(s, 32, 4) == g.totalSectors && Number(s, 36, 4) == g.fatSize
    // Root cluster 2, FSInfo in sector 1, backup in sector 6.
    && s[40..51] == [0, 0, 0, 0, 2, 0, 0, 0, 1, 0, 6]
    && (forall k :: 51 <= k < 66 ==> s[k] == 0)
    // Extended signature, serial number, label and type.
    && s[66..90] == [0x29, 0x4B, 0x53, 0x53, 0x00, 'K' as int, 'A' as int, 'S' as int, 'S' as int, 'I' as int,
                     'G' as int, 'N' as int, 'E' as int, 'R' as int, ' ' as int, ' ' as int, 'F' as int, 'A' as int,
                     'T' as int, '3' as int, '2' as int, ' ' as int, ' ' as int, ' ' as int]
    && (forall k :: 90 <= k < 510 ==> s[k] == 0)
    && s[510] == 0x55 && s[511] == 0xAA
  }

  /** The FSInfo sector of a format. */
  predicate InfoImage(s: Sector, freeCount: nat) {
    && s[..4] == ['R' as int, 'R' as int, 'a' as int, 'A' as int]
    && (forall k :: 4 <= k < 484 ==> s[k] == 0)
    && s[484..488] == ['r' as int, 'r' as int, 'A' as int, 'a' as int]
    && Number(s, 488, 4) == freeCount && Number(s, 492, 4) == 3
    && (forall k :: 496 <= k < 510 ==> s[k] == 0)
    && s[510] == 0x55 && s[511] == 0xAA
  }

  /** The first sector of a FAT of a format: the media byte, and three ended clusters. */
  predicate FatImage(s: Sector) {
    && s[..12] == [0xF8, 0xFF, 0xFF, 0x0F, 0xFF, 0xFF, 0xFF, 0x0F, 0xFF, 0xFF, 0xFF, 0x0F]
    && forall k :: 12 <= k < 512 ==> s[k] == 0
  }

  lemma {:induction false} BootIs(g: Geometry)
    requires Fits(g)
    ensures BootImage(BootSector(g), g)
  {
    var s := BootSector(g);
    hide Patch, Le32Bytes, Le32, Number, Fits;
    BootHead(g);
    BootTail(g);
    NumberAt(s, 32, g.totalSectors);
    NumberAt(s, 36, g.fatSize);
  }

  lemma {:induction false} NumberAt(s: Sector, o: nat, v: nat)
    requires o + 4 <= 512 && v < U32_LIMIT && s[o..o + 4] == Le32Bytes(v)
    ensures Number(s, o, 4) == v
  {
    var t := Le32Bytes(v);
    hide Le32Bytes, Number;
    assert s[o] == s[o..o + 4][0] && s[o + 1] == s[o..o + 4][1] && s[o + 2] == s[o..o + 4][2] && s[o + 3] == s[o..o + 4][3];
    Le32Same(s, o, t);
    Numbers(s, o);
  }

  lemma {:induction false} BootHead(g: Geometry)
    requires Fits(g)
    ensures
      var s := BootSector(g);
      && s[..17] == [0xEB, 0x58, 0x90, 'M' as int, 'S' as int, 'D' as int, 'O' as int, 'S' as int, '5' as int,
                     '.' as int, '0' as int, 0, 2, g.sectorsPerCluster, 32, 0, 2]
      && s[17..32] == [0, 0, 0, 0, 0xF8, 0, 0, 0x3F, 0, 0xFF, 0, 0, 0, 0, 0]
      && s[32..36] == Le32Bytes(g.totalSectors) && s[36..40] == Le32Bytes(g.fatSize)
  {
    hide Patch, Le32Bytes, Le32;
  }

  lemma {:induction false} BootTail(g: Geometry)
    requires Fits(g)
    ensures
      var s := BootSector(g);
      && s[40..51] == [0, 0, 0, 0, 2, 0, 0, 0, 1, 0, 6]
      && (forall k :: 51 <= k < 66 ==> s[k] == 0)
      && s[66..90] == [0x29, 0x4B, 0x53, 0x53, 0x00, 'K' as int, 'A' as int, 'S' as int, 'S' as int, 'I' as int,
                       'G' as int, 'N' as int, 'E' as int, 'R' as int, ' ' as int, ' ' as int, 'F' as int, 'A' as int,
                       'T' as int, '3' as int, '2' as int, ' ' as int, ' ' as int, ' ' as int]
      && (forall k :: 90 <= k < 510 ==> s[k] == 0)
      && s[510] == 0x55 && s[511] == 0xAA
  {
    hide Patch, Le32Bytes, Le32;
  }

  lemma {:induction false} InfoIs(freeCount: nat)
    requires freeCount < U32_LIMIT
    ensures InfoImage(FsInfo(freeCount), freeCount)
  {
    var s := FsInfo(freeCount);
    hide Patch, Le32Bytes, Le32, Number;
    assert s[488..492] == Le32Bytes(freeCount) && s[492..496] == Le32Bytes(3);
    NumberAt(s, 488, freeCount);
    NumberAt(s, 492, 3);
  }

  lemma {:induction false} FatIs()
    ensures FatImage(FatFirst())
  {
    hide Patch;
  }

  /** A formatted card, byte by byte: boot sector and FSInfo with their backups, the heads of both FATs, and zeros. */
  lemma {:induction false} FormattedBytes(d: Disk, g: Geometry)
    requires Formatted(d, g)
    ensures |d| >= 32 + 2 * g.fatSize + g.sectorsPerCluster && g.fatSize > 1
    ensures BootImage(d[0], g) && d[6] == d[0]
    ensures g.clusters >= 1 && InfoImage(d[1], g.clusters - 1) && d[7] == d[1]
    ensures FatImage(d[32]) && d[32 + g.fatSize] == d[32]
    ensures forall q :: 2 <= q < 32 + 2 * g.fatSize + g.sectorsPerCluster && q !in {6, 7, 32, 32 + g.fatSize} ==>
              forall k :: 0 <= k < 512 ==> d[q][k] == 0
  {
    BootIs(g);
    InfoIs(g.clusters - 1);
    FatIs();
    hide BootSector, FsInfo, FatFirst, BootImage, InfoImage, FatImage;
    assert d[0] == Image(g, 0) && d[6] == Image(g, 6) && d[1] == Image(g, 1) && d[7] == Image(g, 7);
    assert d[32] == Image(g, 32) && d[32 + g.fatSize] == Image(g, 32 + g.fatSize);
    forall q | 2 <= q < 32 + 2 * g.fatSize + g.sectorsPerCluster && q !in {6, 7, 32, 32 + g.fatSize}
      ensures forall k :: 0 <= k < 512 ==> d[q][k] == 0
    {
      assert d[q] == Image(g, q);
      Zeros(g, q);
    }
  }

  // ---- the format ----

  method VerifySector(card: Card, sector: nat, wanted: Sector) returns (r: Result<Unit>)
    ensures r.Ok? ==> sector < |card.sectors| && card.sectors[sector] == wanted
    ensures r.Err? ==>
              r.error == Io || (r.error == VerifyFailed && sector < |card.sectors| && card.sectors[sector] != wanted)
  {
    var back :- card.ReadBlock(sector);
    if back != wanted {
      var _ :- card.ReadBlock(sector);
      return Err(VerifyFailed);
    }
    return Ok(Unit);
  }

  /** One write of the format. */
  method Lay(card: Card, block: nat, data: Sector, ghost g: Geometry, ghost done: set<nat>) returns (r: Result<Unit>)
    requires card.Valid() && Fits(g) && block < End(g) && data == Image(g, block) && Laid(card.sectors, g, done)
    modifies card
    ensures card.Valid() && PastKept(old(card.sectors), card.sectors, g)
    ensures r.Ok? ==> Laid(card.sectors, g, done + {block})
    ensures r.Err? ==> r.error == Io
  {
    hide Image;
    r := card.WriteBlock(block, data);
  }

  lemma Zeros(g: Geometry, q: nat)
    requires Fits(g) && 2 <= q && q != 6 && q != 7 && q != RESERVED_SECTORS && q != RESERVED_SECTORS + g.fatSize
    ensures Image(g, q) == ZeroSector()
  {
  }

  /** Boot sector, FSInfo, their backups, and the rest of the reserved region. */
  method LayReserved(card: Card, g: Geometry) returns (r: Result<Unit>, ghost done: set<nat>)
    requires card.Valid() && Fits(g)
    modifies card
    ensures card.Valid() && PastKept(old(card.sectors), card.sectors, g)
    ensures r.Ok? ==> Laid(card.sectors, g, done) && forall q: nat :: q < RESERVED_SECTORS ==> q in done
    ensures r.Err? ==> r.error == Io
  {
    var bpb := BootSector(g);
    var fsInfo := FsInfo(g.clusters - 1);
    assert Image(g, 0) == bpb == Image(g, 6) && Image(g, 1) == fsInfo == Image(g, 7);
    hide BootSector, FsInfo, Image;
    done := {};
    r := Lay(card, 0, bpb, g, done);
    if r.Err? { return; }
    done := {0};
    r := Lay(card, 6, bpb, g, done);
    if r.Err? { return; }
    done := {0, 6};
    assert Laid(card.sectors, g, done);
    r := VerifySector(card, 0, bpb);
    if r.Err? { return; }
    r := Lay(card, 1, fsInfo, g, done);
    if r.Err? { return; }
    done := done + {1};
    r := Lay(card, 7, fsInfo, g, done);
    if r.Err? { return; }
    done := done + {7};
    for s := 2 to RESERVED_SECTORS
      invariant card.Valid() && PastKept(old(card.sectors), card.sectors, g)
      invariant Laid(card.sectors, g, done) && forall q: nat :: q < s || q == 6 || q == 7 ==> q in done
    {
      if s == 6 || s == 7 {
        continue;
      }
      Zeros(g, s);
      r := Lay(card, s, ZeroSector(), g, done);
      if r.Err? { return; }
      done := done + {s};
    }
    r := Ok(Unit);
  }

  /** Both FATs, sector by sector. */
  /** Sector `i` of both copies, past their first. */
  method LayPair(card: Card, g: Geometry, i: nat, ghost done: set<nat>) returns (r: Result<Unit>)
    requires card.Valid() && Fits(g) && Laid(card.sectors, g, done) && 0 < i < g.fatSize
    modifies card
    ensures card.Valid() && PastKept(old(card.sectors), card.sectors, g)
    ensures r.Ok? ==> Laid(card.sectors, g, done + {RESERVED_SECTORS + i, RESERVED_SECTORS + g.fatSize + i})
    ensures r.Err? ==> r.error == Io
  {
    hide Image, Laid;
    var fat1, fat2 := RESERVED_SECTORS + i, RESERVED_SECTORS + g.fatSize + i;
    Zeros(g, fat1);
    Zeros(g, fat2);
    var _ :- Lay(card, fat1, ZeroSector(), g, done);
    r := Lay(card, fat2, ZeroSector(), g, done + {fat1});
    assert done + {fat1} + {fat2} == done + {fat1, fat2};
  }

  method LayFats(card: Card, g: Geometry, ghost reserved: set<nat>) returns (r: Result<Unit>, ghost done: set<nat>)
    requires card.Valid() && Fits(g) && Laid(card.sectors, g, reserved)
    modifies card
    ensures card.Valid() && PastKept(old(card.sectors), card.sectors, g)
    ensures r.Ok? ==>
              && Laid(card.sectors, g, done) && reserved <= done
              && forall q: nat :: RESERVED_SECTORS <= q < RESERVED_SECTORS + NUM_FATS * g.fatSize ==> q in done
    ensures r.Err? ==> r.error == Io
  {
    var fat1 := RESERVED_SECTORS;
    var fat2 := fat1 + g.fatSize;
    assert Image(g, fat1) == FatFirst() == Image(g, fat2);
    hide Image, Laid, FatFirst;
    done := reserved;
    r := Lay(card, fat1, FatFirst(), g, done);
    if r.Err? { return; }
    done := done + {fat1};
    r := Lay(card, fat2, FatFirst(), g, done);
    if r.Err? { return; }
    done := done + {fat2};
    for i := 1 to g.fatSize
      invariant card.Valid() && PastKept(old(card.sectors), card.sectors, g)
      invariant Laid(card.sectors, g, done) && reserved <= done
      invariant forall q: nat :: fat1 <= q < fat1 + i || fat2 <= q < fat2 + i ==> q in done
    {
      r := LayPair(card, g, i, done);
      if r.Err? { return; }
      done := done + {fat1 + i, fat2 + i};
    }
    r := Ok(Unit);
  }

  method LayRoot(card: Card, g: Geometry, ghost fats: set<nat>) returns (r: Result<Unit>, ghost done: set<nat>)
    requires card.Valid() && Fits(g) && Laid(card.sectors, g, fats)
    modifies card
    ensures card.Valid() && PastKept(old(card.sectors), card.sectors, g)
    ensures r.Ok? ==>
              && Laid(card.sectors, g, done) && fats <= done
              && forall q: nat :: RESERVED_SECTORS + NUM_FATS * g.fatSize <= q < End(g) ==> q in done
    ensures r.Err? ==> r.error == Io
  {
    hide Image;
    var dataStart := RESERVED_SECTORS + NUM_FATS * g.fatSize;
    done := fats;
    for i := 0 to g.sectorsPerCluster
      invariant card.Valid() && PastKept(old(card.sectors), card.sectors, g)
      invariant Laid(card.sectors, g, done) && fats <= done
      invariant forall q: nat :: dataStart <= q < dataStart + i ==> q in done
    {
      Zeros(g, dataStart + i);
      r := Lay(card, dataStart + i, ZeroSector(), g, done);
      if r.Err? { return; }
      done := done + {dataStart + i};
    }
    r := Ok(Unit);
  }

  /** The sectors that decide whether a card is usable hold what the format writes there. */
  ghost predicate Checked(d: Disk, g: Geometry)
    requires Fits(g)
  {
    var fat1, fat2 := RESERVED_SECTORS, RESERVED_SECTORS + g.fatSize;
    forall q :: q in {0, 6, 1, fat1, fat2, fat1 + g.fatSize - 1, fat2 + g.fatSize - 1, fat2 + g.fatSize} ==>
      q < |d| && d[q] == Image(g, q)
  }

  /** What the read-back reads, in its order, and what it wants there. */
  function Checks(g: Geometry): (r: seq<(nat, Sector)>)
    requires Fits(g)
    ensures |r| == 8
  {
    var bpb := BootSector(g);
    var fat1 := RESERVED_SECTORS;
    var fat2 := fat1 + g.fatSize;
    [(0, bpb), (6, bpb), (1, FsInfo(g.clusters - 1)), (fat1, FatFirst()), (fat2, FatFirst()),
     (fat1 + g.fatSize - 1, ZeroSector()), (fat2 + g.fatSize - 1, ZeroSector()),
     (RESERVED_SECTORS + NUM_FATS * g.fatSize, ZeroSector())]
  }

  lemma {:induction false} ChecksAre(g: Geometry)
    requires Fits(g)
    ensures forall k :: 0 <= k < 8 ==> Checks(g)[k].1 == Image(g, Checks(g)[k].0) && Checks(g)[k].0 < End(g)
    ensures
      var c, fat2 := Checks(g), RESERVED_SECTORS + g.fatSize;
      && c[0].0 == 0 && c[1].0 == 6 && c[2].0 == 1 && c[3].0 == RESERVED_SECTORS
      && c[4].0 == fat2 && c[5].0 == fat2 - 1 && c[6].0 == fat2 + g.fatSize - 1 && c[7].0 == fat2 + g.fatSize
  {
    hide BootSector, FsInfo, FatFirst, ZeroSector;
    Zeros(g, RESERVED_SECTORS + g.fatSize - 1);
    Zeros(g, RESERVED_SECTORS + 2 * g.fatSize - 1);
    Zeros(g, RESERVED_SECTORS + NUM_FATS * g.fatSize);
  }

  /** The read-back at the end, on any card: passed, the checked sectors hold the image. */
  method VerifyAll(card: Card, g: Geometry) returns (r: Result<Unit>)
    requires Fits(g)
    ensures r.Ok? ==> Checked(card.sectors, g)
    ensures r.Err? ==> r.error == Io || (r.error == VerifyFailed && !Checked(card.sectors, g))
    ensures Formatted(card.sectors, g) ==> Checked(card.sectors, g)
  {
    var checks := Checks(g);
    ChecksAre(g);
    hide Checks, Image;
    for i := 0 to |checks|
      invariant forall k :: 0 <= k < i ==> checks[k].0 < |card.sectors| && card.sectors[checks[k].0] == checks[k].1
    {
      var _ :- VerifySector(card, checks[i].0, checks[i].1);
    }
    AllChecked(card.sectors, g, checks);
    return Ok(Unit);
  }

  lemma {:induction false} AllChecked(d: Disk, g: Geometry, checks: seq<(nat, Sector)>)
    requires Fits(g) && |checks| == 8
    requires forall k :: 0 <= k < 8 ==>
               checks[k].0 < |d| && d[checks[k].0] == checks[k].1 == Image(g, checks[k].0)
    requires
      var fat2 := RESERVED_SECTORS + g.fatSize;
      && checks[0].0 == 0 && checks[1].0 == 6 && checks[2].0 == 1 && checks[3].0 == RESERVED_SECTORS
      && checks[4].0 == fat2 && checks[5].0 == fat2 - 1 && checks[6].0 == fat2 + g.fatSize - 1
      && checks[7].0 == fat2 + g.fatSize
    ensures Checked(d, g)
  {
    hide Image;
  }

  /**
   * Format a card whose capacity is reported as `probed`. A refused card is left as it was; a
   * formatted one holds the image of its geometry and is otherwise untouched.
   */
  method DoFormat(card: Card, probed: Result<u32>) returns (r: Result<Unit>, ghost g: Geometry)
    requires card.Valid() && (probed.Err? ==> probed.error == Io)
    modifies card
    ensures card.Valid() && |card.sectors| == |old(card.sectors)|
    ensures r.Err? ==> r.error in {Io, CardTooSmall}
    ensures r == Err(CardTooSmall) ==> probed.Ok? && probed.value < SMALLEST_CARD && card.sectors == old(card.sectors)
    ensures r.Ok? ==>
              && probed.Ok? && SMALLEST_CARD <= probed.value && Tiles(g, probed.value)
              && Formatted(card.sectors, g) && PastKept(old(card.sectors), card.sectors, g)
  {
    hide Tiles, Image;
    g := Geometry(0, 1, 2, 1);
    var test := card.ReadBlock(0);
    if test.Err? { return Err(test.error), g; }
    if probed.Err? { return Err(probed.error), g; }
    var derived := DeriveGeometry(probed.value);
    if derived.Err? { return Err(derived.error), g; }
    var geo := derived.value;
    g := geo;
    TilesFits(g, probed.value);
    ghost var done;
    r, done := LayReserved(card, geo);
    if r.Err? { return; }
    r, done := LayFats(card, geo, done);
    if r.Err? { return; }
    r, done := LayRoot(card, geo, done);
    if r.Err? { return; }
    assert Formatted(card.sectors, g) by {
      assert forall q: nat :: q < End(g) ==> q in done;
      assert End(g) - 1 in done;
    }
    r := VerifyAll(card, geo);
  }

  // ---- the empty file system ----

  /** Entry `c` of a fresh FAT. */
  function FreshEntry(c: nat): nat {
    if c == 0 then EOC_MIN else if c <= 2 then EOC else 0
  }

  lemma FreshSectors()
    ensures forall w: nat :: w < 128 ==> Low(FatFirst(), w) == FreshEntry(w) && High(FatFirst(), w) == 0
    ensures forall w: nat :: w < 128 ==> Low(ZeroSector(), w) == 0 && High(ZeroSector(), w) == 0
  {
  }

  lemma {:induction false} FormattedGeometry(d: Disk, g: Geometry, total: nat)
    requires Tiles(g, total) && total <= U32_MAX && g.totalSectors <= |d|
    ensures WellFormed(InfoOf(g), |d|)
    ensures MaxCluster(InfoOf(g)) == g.clusters + 2 && OnCard(InfoOf(g), 2)
    ensures ClusterToSector(InfoOf(g), 2) == RESERVED_SECTORS + NUM_FATS * g.fatSize
  {
    var f := InfoOf(g);
    var data := g.clusters * g.sectorsPerCluster;
    assert f.dataStart == CopyStart(f, 2) && f.totalSectors - f.dataStart == data;
    assert data / g.sectorsPerCluster == g.clusters;
  }

  /** Both FAT copies of a formatted card: clusters 0 to 2 hold end markers, every other entry is free. */
  lemma {:induction false} FormattedFat(d: Disk, g: Geometry, total: nat, copy: nat)
    requires Tiles(g, total) && total <= U32_MAX && g.totalSectors <= |d| && Formatted(d, g) && copy < 2
    ensures WellFormed(InfoOf(g), |d|)
    ensures Fat(d, InfoOf(g), copy) == seq(128 * g.fatSize, c requires 0 <= c < 128 * g.fatSize => FreshEntry(c))
    ensures Nibbles(d, InfoOf(g), copy) == seq(128 * g.fatSize, c => 0)
  {
    FormattedGeometry(d, g, total);
    FreshSectors();
    var f := InfoOf(g);
    CopyOnCard(f, |d|, copy);
    forall c | 0 <= c < 128 * g.fatSize
      ensures d[CopyStart(f, copy) + c / 128] == if c / 128 == 0 then FatFirst() else ZeroSector()
    {
      var q := CopyStart(f, copy) + c / 128;
      assert q < End(g) && d[q] == Image(g, q);
      hide FatFirst, ZeroSector, BootSector, FsInfo;
    }
    hide FatFirst, ZeroSector, Low, High, Image, Formatted, Tiles;
  }

  /** The root directory of a formatted card is one cluster of end marks. */
  lemma {:induction false} FormattedRoot(d: Disk, g: Geometry, total: nat)
    requires Tiles(g, total) && total <= U32_MAX && g.totalSectors <= |d| && Formatted(d, g)
    ensures RootOk(d, InfoOf(g), [2])
    ensures AllOn(d, DirSectors(InfoOf(g), [2])) && Tidy(d, DirSectors(InfoOf(g), [2]))
    ensures forall q, i :: !Live(d, InfoOf(g), [2], q, i)
  {
    var f := InfoOf(g);
    FormattedGeometry(d, g, total);
    FormattedFat(d, g, total, 0);
    assert IsChain(Fat(d, f, 0), [2]) by {
      hide Fat, WellFormed, Formatted;
    }
    var secs := DirSectors(f, [2]);
    var one: seq<nat> := [2];
    assert one[1..] == [];
    assert DirSectors(f, one[1..]) == [];
    assert secs == SectorsOf(f, one[0]) + DirSectors(f, one[1..]);
    assert secs == SectorsOf(f, 2);
    hide Fat, Nibbles, IsChain;
    forall k | 0 <= k < |secs|
      ensures secs[k] < |d| && d[secs[k]] == ZeroSector()
    {
      assert secs[k] == RESERVED_SECTORS + NUM_FATS * g.fatSize + k;
      assert d[secs[k]] == Image(g, secs[k]);
      Zeros(g, secs[k]);
      hide Image;
    }
  }

  lemma {:induction false} NoEntries(d: Disk, f: Info, cs: seq<nat>)
    requires RootOk(d, f, cs) && AllOn(d, DirSectors(f, cs)) && Tidy(d, DirSectors(f, cs))
    requires forall q, i :: !Live(d, f, cs, q, i)
    ensures FsOk(d, f, cs) && 0 < f.sectorsPerCluster
  {
    hide Live, Tidy, AllOn, DirSectors, Fat, IsChain;
  }

  lemma {:induction false} FormattedBoots(d: Disk, g: Geometry, total: nat)
    requires Tiles(g, total) && total <= U32_MAX && Formatted(d, g)
    ensures HasJump(d[0]) && FromBootSector(d[0]) == Ok(InfoOf(g))
    ensures Le32(d[1], 488) == g.clusters - 1 && Le32(d[1], 492) == 3
  {
    assert d[0] == Image(g, 0) && d[1] == Image(g, 1);
    BootRoundTrip(g, total);
    FsInfoFields(g.clusters - 1);
    hide BootSector, FsInfo, FromBootSector, HasJump, Tiles, Le32;
  }

  lemma {:induction false} FormattedFree(d: Disk, g: Geometry, total: nat)
    requires Tiles(g, total) && total <= U32_MAX && g.totalSectors <= |d| && Formatted(d, g)
    ensures WellFormed(InfoOf(g), |d|) && Mirrored(d, InfoOf(g))
    ensures |FreeClusters(d, InfoOf(g))| == g.clusters - 1 > 0 && FreeClusters(d, InfoOf(g))[0] == 3
  {
    FormattedGeometry(d, g, total);
    FormattedFat(d, g, total, 0);
    FormattedFat(d, g, total, 1);
    hide Fat, Nibbles, Formatted, WellFormed, Tiles;
    FreshFree(Fat(d, InfoOf(g), 0), g.clusters + 2);
  }

  /**
   * A formatted card mounts as the geometry that was derived for it, with identical FATs and an
   * empty, well-formed file system; FSInfo's free count and next free cluster are the true ones.
   */
  lemma {:induction false} FormatThenMount(d: Disk, g: Geometry, total: nat)
    requires Tiles(g, total) && total <= U32_MAX && g.totalSectors <= |d| && Formatted(d, g)
    ensures HasJump(d[0]) && FromBootSector(d[0]) == Ok(InfoOf(g))
    ensures WellFormed(InfoOf(g), |d|) && Mirrored(d, InfoOf(g))
    ensures FsOk(d, InfoOf(g), [2])
    ensures forall name: Name :: Lookup(d, InfoOf(g), name) == Err(FileNotFound)
    ensures |FreeClusters(d, InfoOf(g))| == Le32(d[1], 488) > 0
    ensures FreeClusters(d, InfoOf(g))[0] == Le32(d[1], 492)
  {
    FormattedBoots(d, g, total);
    FormattedFree(d, g, total);
    FormattedRoot(d, g, total);
    var f := InfoOf(g);
    hide *;
    NoEntries(d, f, [2]);
    forall name: Name
      ensures Lookup(d, f, name) == Err(FileNotFound)
    {
      LookupNone(d, f, [2], name);
    }
  }

  lemma {:induction false} FsInfoFields(freeCount: nat)
    requires freeCount < U32_LIMIT
    ensures Le32(FsInfo(freeCount), 488) == freeCount && Le32(FsInfo(freeCount), 492) == 3
  {
    var s, t := FsInfo(freeCount), Le32Bytes(freeCount);
    assert s[488] == t[0] && s[489] == t[1] && s[490] == t[2] && s[491] == t[3];
  }

  lemma {:induction false} FreshFree(t: Table, hi: nat)
    requires 3 <= hi <= |t| && forall c :: 0 <= c < |t| ==> t[c] == FreshEntry(c)
    ensures |FreeUpTo(t, hi)| == hi - 3 && (hi > 3 ==> FreeUpTo(t, hi)[0] == 3)
  {
    if hi > 3 {
      FreshFree(t, hi - 1);
    } else {
      assert FreeUpTo(t, 2) == [];
    }
  }
}
