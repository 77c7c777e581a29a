/**
 * Where FAT32 puts things: the mounted geometry, cluster and FAT-entry addressing with the
 * u32 saturation of the original, and each FAT copy read as a table of 28-bit values.
 */
module Fat32Layout {
  import opened Bytes
  import opened Fat32Card

  /** First value that ends a chain, and the value the allocator writes. */
  const EOC_MIN: nat := 0x0FFF_FFF8
  const EOC: nat := 0x0FFF_FFFF
  const NIBBLE: nat := 0x1000_0000
  const U32_MAX: nat := 0xFFFF_FFFF

  datatype Info = Info(
    bytesPerSector: nat,
    sectorsPerCluster: nat,
    reservedSectors: nat,
    numFats: nat,
    fatSize: nat,
    rootCluster: nat,
    totalSectors: nat,
    fatStart: nat,
    dataStart: nat)

  function SatAdd(a: nat, b: nat): nat {
    if a + b > U32_MAX then U32_MAX else a + b
  }

  function SatMul(a: nat, b: nat): nat {
    if a * b > U32_MAX then U32_MAX else a * b
  }

  /** Sums and products are exact up to the largest u32, and stick there. */
  lemma {:induction false} Saturating(a: nat, b: nat)
    ensures SatAdd(a, b) <= 0xFFFF_FFFF && (a + b <= 0xFFFF_FFFF ==> SatAdd(a, b) == a + b)
    ensures SatMul(a, b) <= 0xFFFF_FFFF && (a * b <= 0xFFFF_FFFF ==> SatMul(a, b) == a * b)
    ensures a + b > 0xFFFF_FFFF ==> SatAdd(a, b) == 0xFFFF_FFFF
    ensures a * b > 0xFFFF_FFFF ==> SatMul(a, b) == 0xFFFF_FFFF
  {
  }

  predicate IsData(cluster: nat) {
    2 <= cluster < EOC_MIN
  }

  function ClusterToSector(f: Info, cluster: nat): nat {
    if cluster < 2 then f.dataStart else SatAdd(f.dataStart, SatMul(cluster - 2, f.sectorsPerCluster))
  }

  /** Where a cluster starts: clusters 0 and 1 read as the start of the data region, and a sum past u32 sticks. */
  lemma {:induction false} ClusterPlace(f: Info, cluster: nat)
    requires f.dataStart <= 0xFFFF_FFFF
    ensures cluster < 2 ==> ClusterToSector(f, cluster) == f.dataStart
    ensures cluster >= 2 ==>
              var sector := f.dataStart + (cluster - 2) * f.sectorsPerCluster;
              ClusterToSector(f, cluster) == if sector <= 0xFFFF_FFFF then sector else 0xFFFF_FFFF
  {
  }

  /** Sector and byte offset of a cluster's entry in FAT1. */
  function FatSectorFor(f: Info, cluster: nat): (r: (nat, nat))
    ensures r.1 <= 511
    ensures cluster < 0x4000_0000 ==> r.1 == cluster % 128 * 4
    ensures cluster < 0x4000_0000 ==> r.0 == SatAdd(f.fatStart, cluster / 128)
  {
    var fatOffset := SatMul(cluster, 4);
    (SatAdd(f.fatStart, fatOffset / 512), fatOffset % 512)
  }

  /**
   * An entry leaves its sector exactly when the cluster's offset saturates: the original calls its
   * guard against that unreachable.
   */
  lemma {:induction false} OffsetGuard(f: Info, cluster: nat)
    ensures FatSectorFor(f, cluster).1 + 3 >= 512 <==> cluster >= 0x4000_0000
  {
    if cluster >= 0x4000_0000 {
      assert SatMul(cluster, 4) == U32_MAX;
    }
  }

  function ClusterBytes(f: Info): nat {
    f.sectorsPerCluster * 512
  }

  /** First sector of FAT copy `copy`; one past the last copy is where the data region starts. */
  function CopyStart(f: Info, copy: nat): nat {
    f.fatStart + copy * f.fatSize
  }

  /** One more than the highest cluster number the data region holds. */
  function MaxCluster(f: Info): (m: nat)
    requires 0 < f.sectorsPerCluster && f.dataStart <= f.totalSectors
    ensures m >= 2
  {
    2 + (f.totalSectors - f.dataStart) / f.sectorsPerCluster
  }

  /**
   * The geometry of a mounted card of `size` sectors: both FATs lie between the reserved
   * region and the data region, the data region lies on the card, and the FAT has an entry
   * for every cluster, of which there is at least one.
   */
  predicate WellFormed(f: Info, size: nat) {
    && 0 < f.sectorsPerCluster <= 128
    && 1 <= f.numFats <= 2
    && 0 < f.fatSize
    && 0 < f.fatStart
    && f.dataStart == CopyStart(f, f.numFats)
    && f.dataStart <= f.totalSectors <= size
    && f.totalSectors <= U32_MAX
    && 2 < MaxCluster(f) <= 128 * f.fatSize
    && MaxCluster(f) <= EOC_MIN
    && 2 <= f.rootCluster
  }

  /** The cluster has a place in the data region. */
  predicate OnCard(f: Info, cluster: nat) {
    0 < f.sectorsPerCluster && f.dataStart <= f.totalSectors && 2 <= cluster < MaxCluster(f)
  }

  /** Block `k` of `span / size` blocks ends inside the span. */
  lemma {:induction false} BlockFits(k: nat, size: nat, span: nat)
    requires 0 < size && k < span / size
    ensures k * size + size <= span
  {
    var n := span / size;
    assert (k + 1) * size <= n * size;
  }

  /** The data region of a cluster on the card is on the card, after the FATs. */
  lemma {:induction false} ClusterSectors(f: Info, size: nat, cluster: nat)
    requires WellFormed(f, size) && OnCard(f, cluster)
    ensures ClusterToSector(f, cluster) == f.dataStart + (cluster - 2) * f.sectorsPerCluster
    ensures f.dataStart <= ClusterToSector(f, cluster)
    ensures ClusterToSector(f, cluster) + f.sectorsPerCluster <= f.totalSectors
  {
    BlockFits(cluster - 2, f.sectorsPerCluster, f.totalSectors - f.dataStart);
  }

  /** Blocks of one size laid end to end do not overlap. */
  lemma {:induction false} BlocksApart(a: nat, b: nat, size: nat, x: nat, y: nat)
    requires a < b && x < size
    ensures a * size + x < b * size + y
  {
    assert (a + 1) * size <= b * size;
  }

  /** Distinct clusters own distinct sectors. */
  lemma {:induction false} ClustersDisjoint(f: Info, size: nat, c1: nat, c2: nat, s1: nat, s2: nat)
    requires WellFormed(f, size) && OnCard(f, c1) && OnCard(f, c2) && c1 != c2
    requires s1 < f.sectorsPerCluster && s2 < f.sectorsPerCluster
    ensures ClusterToSector(f, c1) + s1 != ClusterToSector(f, c2) + s2
  {
    ClusterSectors(f, size, c1);
    ClusterSectors(f, size, c2);
    hide WellFormed, ClusterToSector;
    if c1 < c2 {
      BlocksApart(c1 - 2, c2 - 2, f.sectorsPerCluster, s1, s2);
    } else {
      BlocksApart(c2 - 2, c1 - 2, f.sectorsPerCluster, s2, s1);
    }
  }

  // ---- FAT entries in a sector ----

  /** The low 28 bits of entry `w` of a FAT sector; the high nibble is reserved. */
  function Low(sec: Sector, w: nat): (v: nat)
    requires w < 128
    ensures v < NIBBLE
  {
    Le32(sec, 4 * w) % NIBBLE
  }

  function High(sec: Sector, w: nat): (v: nat)
    requires w < 128
    ensures v < 16
  {
    Le32(sec, 4 * w) / NIBBLE
  }

  /** `(existing & 0xF000_0000) | (value & 0x0FFF_FFFF)`, stored at byte `offset`. */
  function SetLow(sec: Sector, offset: nat, value: nat): (r: Sector)
    requires offset + 4 <= 512
  {
    KeepNibble(Le32(sec, offset), value % NIBBLE);
    Patch(sec, offset, Le32Bytes(Le32(sec, offset) / NIBBLE * NIBBLE + value % NIBBLE))
  }

  lemma KeepNibble(existing: nat, value: nat)
    requires existing < U32_LIMIT && value < NIBBLE
    ensures
      var merged := existing / NIBBLE * NIBBLE + value % NIBBLE;
      merged < U32_LIMIT && merged % NIBBLE == value && merged / NIBBLE == existing / NIBBLE
  {
  }

  lemma PatchedWord(sec: Sector, w: nat, bytes: seq<byte>, x: nat)
    requires w < 128 && x < 128 && |bytes| == 4
    ensures Le32(Patch(sec, 4 * w, bytes), 4 * x) == if x == w then Le32(bytes, 0) else Le32(sec, 4 * x)
  {
  }

  lemma {:induction false} SetLowWords(sec: Sector, w: nat, value: nat)
    requires w < 128 && value < NIBBLE
    ensures forall x | 0 <= x < 128 :: Low(SetLow(sec, 4 * w, value), x) == if x == w then value else Low(sec, x)
    ensures forall x | 0 <= x < 128 :: High(SetLow(sec, 4 * w, value), x) == High(sec, x)
  {
    var existing := Le32(sec, 4 * w);
    KeepNibble(existing, value);
    forall x | 0 <= x < 128
      ensures Low(SetLow(sec, 4 * w, value), x) == if x == w then value else Low(sec, x)
      ensures High(SetLow(sec, 4 * w, value), x) == High(sec, x)
    {
      PatchedWord(sec, w, Le32Bytes(existing / NIBBLE * NIBBLE + value % NIBBLE), x);
    }
  }

  // ---- one FAT copy as a table ----

  type Table = seq<nat>

  /** The 28-bit entries of FAT copy `copy`, indexed by cluster. */
  function Fat(d: Disk, f: Info, copy: nat): (t: Table)
    requires WellFormed(f, |d|) && copy < f.numFats
    ensures |t| == 128 * f.fatSize
    ensures forall c :: 0 <= c < |t| ==> t[c] < NIBBLE
  {
    CopyOnCard(f, |d|, copy);
    seq(128 * f.fatSize, c requires 0 <= c < 128 * f.fatSize => Low(d[CopyStart(f, copy) + c / 128], c % 128))
  }

  /** The reserved high nibbles of FAT copy `copy`. */
  function Nibbles(d: Disk, f: Info, copy: nat): (t: seq<nat>)
    requires WellFormed(f, |d|) && copy < f.numFats
    ensures |t| == 128 * f.fatSize
  {
    CopyOnCard(f, |d|, copy);
    seq(128 * f.fatSize, c requires 0 <= c < 128 * f.fatSize => High(d[CopyStart(f, copy) + c / 128], c % 128))
  }

  lemma {:induction false} CopyOnCard(f: Info, size: nat, copy: nat)
    requires WellFormed(f, size) && copy < f.numFats
    ensures f.fatStart <= CopyStart(f, copy)
    ensures CopyStart(f, copy) + f.fatSize <= f.dataStart <= size
    ensures copy == 0 ==> CopyStart(f, copy) == f.fatStart
    ensures copy == 1 ==> CopyStart(f, copy) == f.fatStart + f.fatSize
  {
    if copy == 1 {
      assert f.numFats * f.fatSize == 2 * f.fatSize;
    } else {
      assert f.fatSize <= f.numFats * f.fatSize;
    }
  }

  /** Nothing outside the FAT copies differs. */
  predicate SameOutsideFats(d: Disk, e: Disk, f: Info) {
    && |d| == |e|
    && forall s :: 0 <= s < |d| && !(f.fatStart <= s < f.dataStart) ==> d[s] == e[s]
  }

  ghost predicate CopySame(d: Disk, e: Disk, f: Info, copy: nat)
    requires WellFormed(f, |d|) && |d| == |e| && copy < f.numFats
  {
    Fat(e, f, copy) == Fat(d, f, copy) && Nibbles(e, f, copy) == Nibbles(d, f, copy)
  }

  /** A card with a second FAT has the copy other than `copy` as it was. */
  ghost predicate OtherCopySame(d: Disk, e: Disk, f: Info, copy: nat)
    requires WellFormed(f, |d|) && |d| == |e| && copy < f.numFats
  {
    f.numFats == 2 ==> CopySame(d, e, f, 1 - copy)
  }

  /** What writing one sector of one FAT copy does to the tables. */
  lemma {:induction false} FatAfterWrite(d: Disk, f: Info, copy: nat, i: nat, sec: Sector)
    requires WellFormed(f, |d|) && copy < f.numFats && i < f.fatSize
    ensures CopyStart(f, copy) + i < |d|
    ensures
      var e := d[CopyStart(f, copy) + i := sec];
      && SameOutsideFats(d, e, f)
      && (forall c | 0 <= c < 128 * f.fatSize ::
            Fat(e, f, copy)[c] == if c / 128 == i then Low(sec, c % 128) else Fat(d, f, copy)[c])
      && (forall c | 0 <= c < 128 * f.fatSize ::
            Nibbles(e, f, copy)[c] == if c / 128 == i then High(sec, c % 128) else Nibbles(d, f, copy)[c])
      && OtherCopySame(d, e, f, copy)
  {
    hide Low, High;
    CopyOnCard(f, |d|, copy);
    if f.numFats == 2 {
      CopyOnCard(f, |d|, 1 - copy);
    }
  }

  /** Nothing but data-region and reserved sectors changed, so both tables read the same. */
  lemma {:induction false} FatUnchanged(d: Disk, e: Disk, f: Info, copy: nat)
    requires WellFormed(f, |d|) && |d| == |e| && copy < f.numFats
    requires forall s :: f.fatStart <= s < f.dataStart ==> d[s] == e[s]
    ensures Fat(d, f, copy) == Fat(e, f, copy)
    ensures Nibbles(d, f, copy) == Nibbles(e, f, copy)
  {
    CopyOnCard(f, |d|, copy);
  }
}
