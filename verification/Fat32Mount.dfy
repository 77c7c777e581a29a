/** Reading a boot sector and mounting a card. */
module Fat32Mount {
  import opened Bytes
  import opened Fat32Card
  import opened Fat32Layout

  predicate IsPowerOfTwo(n: nat) {
    n in {1, 2, 4, 8, 16, 32, 64, 128}
  }

  /** `Fat32Info::from_boot_sector`. `Trap` stands for the overflow the original traps on. */
  function FromBootSector(s: Sector): (r: Result<Info>)
    ensures r.Ok? ==> IsPowerOfTwo(r.value.sectorsPerCluster) && 1 <= r.value.numFats <= 2 && r.value.rootCluster >= 2
    ensures r.Ok? ==>
              r.value.fatStart == r.value.reservedSectors && r.value.dataStart == CopyStart(r.value, r.value.numFats)
  {
    if s[510] != 0x55 || s[511] != 0xAA then Err(BadSignature)
    else if Le16(s, 11) != 512 then Err(BadSectorSize)
    else if !IsPowerOfTwo(s[13]) then Err(BadClusterSize)
    else if s[16] == 0 || s[16] > 2 then Err(BadFatCount)
    else if Le32(s, 44) < 2 then Err(BadRootCluster)
    else
      var reserved := Le16(s, 14);
      var numFats: nat := s[16];
      var fatSize := Le32(s, 36);
      var total := if Le16(s, 19) != 0 then Le16(s, 19) else Le32(s, 32);
      var dataStart := reserved + numFats * fatSize;
      if dataStart > U32_MAX then Err(Trap)
      else Ok(Info(512, s[13], reserved, numFats, fatSize, Le32(s, 44), total, reserved, dataStart))
  }

  /** The number in `n` bytes from offset `o`, the least significant first. */
  function Number(s: Sector, o: nat, n: nat): nat
    requires o + n <= 512
    decreases n
  {
    if n == 0 then 0 else s[o] as int + 256 * Number(s, o + 1, n - 1)
  }

  lemma {:induction false} Numbers(s: Sector, o: nat)
    ensures o + 2 <= 512 ==> Le16(s, o) == Number(s, o, 2)
    ensures o + 4 <= 512 ==> Le32(s, o) == Number(s, o, 4)
  {
    if o + 2 <= 512 {
      assert Number(s, o + 1, 1) == s[o + 1] as int;
      if o + 4 <= 512 {
        assert Number(s, o + 3, 1) == s[o + 3] as int;
        assert Number(s, o + 2, 2) == s[o + 2] as int + 256 * s[o + 3] as int;
        assert Number(s, o + 1, 3) == s[o + 1] as int + 256 * Number(s, o + 2, 2);
      }
    }
  }

  /** Which sectors are accepted, and where each field is read from. */
  lemma {:induction false} BootFields(s: Sector)
    ensures
      var reserved, total16, fatSize := Number(s, 14, 2), Number(s, 19, 2), Number(s, 36, 4);
      var r := FromBootSector(s);
      && (r.Ok? <==>
            && s[510] == 0x55 && s[511] == 0xAA && Number(s, 11, 2) == 512
            && s[13] in {1, 2, 4, 8, 16, 32, 64, 128} && s[16] in {1, 2} && Number(s, 44, 4) >= 2
            && reserved + s[16] as int * fatSize <= 0xFFFF_FFFF)
      && (r.Ok? ==>
            r.value == Info(512, s[13], reserved, s[16], fatSize, Number(s, 44, 4),
                            if total16 != 0 then total16 else Number(s, 32, 4),
                            reserved, reserved + s[16] as int * fatSize))
  {
    hide Number, Le16, Le32;
    Numbers(s, 11);
    Numbers(s, 14);
    Numbers(s, 19);
    Numbers(s, 32);
    Numbers(s, 36);
    Numbers(s, 44);
  }

  predicate HasJump(s: Sector) {
    (s[0] == 0xEB || s[0] == 0xE9) && s[510] == 0x55 && s[511] == 0xAA
  }

  /** Partition entry `i` of an MBR has one of the two FAT32 types. */
  predicate IsFat32Entry(mbr: Sector, i: nat)
    requires i < 4
  {
    mbr[446 + 16 * i + 4] == 0x0B || mbr[446 + 16 * i + 4] == 0x0C
  }

  function StartLba(mbr: Sector, i: nat): nat
    requires i < 4
  {
    Number(mbr, 454 + 16 * i, 4)
  }

  /** The first FAT32 partition of an MBR; 0 when there is none but sector 0 starts with a jump. */
  method FindFat32Partition(mbr: Sector) returns (r: Result<nat>)
    ensures mbr[510] != 0x55 || mbr[511] != 0xAA ==> r == Err(BadSignature)
    ensures mbr[510] == 0x55 && mbr[511] == 0xAA ==>
              || (exists i: nat ::
                    i < 4 && IsFat32Entry(mbr, i) && (forall j: nat :: j < i ==> !IsFat32Entry(mbr, j))
                    && r == Ok(StartLba(mbr, i)))
              || ((forall j: nat :: j < 4 ==> !IsFat32Entry(mbr, j))
                  && r == if mbr[0] == 0xEB || mbr[0] == 0xE9 then Ok(0) else Err(NoPartition))
  {
    if mbr[510] != 0x55 || mbr[511] != 0xAA {
      return Err(BadSignature);
    }
    for i := 0 to 4
      invariant forall j: nat :: j < i ==> !IsFat32Entry(mbr, j)
    {
      var base := 446 + i * 16;
      var partType := mbr[base + 4];
      if partType == 0x0B || partType == 0x0C {
        assert IsFat32Entry(mbr, i);
        Numbers(mbr, base + 8);
        return Ok(Le32(mbr, base + 8));
      }
      assert !IsFat32Entry(mbr, i);
    }
    if mbr[0] == 0xEB || mbr[0] == 0xE9 {
      return Ok(0);
    }
    return Err(NoPartition);
  }

  /** A partition's geometry counts from the start of the card. */
  function Shifted(info: Result<Info>, lba: nat): Result<Info> {
    if info.Err? then info
    else
      var f := info.value;
      if f.fatStart + lba > U32_MAX || f.dataStart + lba > U32_MAX then Err(Trap)
      else Ok(f.(fatStart := f.fatStart + lba, dataStart := f.dataStart + lba))
  }

  /** The sectors tried last. */
  const PROBES: seq<nat> := [2048, 8192, 32768, 1]

  /** The `k`th of them: a 1 MB, 4 MB or 16 MB offset, or the second sector. */
  function Probe(k: nat): nat {
    if k == 0 then 2048 else if k == 1 then 8192 else if k == 2 then 32768 else 1
  }

  /** Sector `lba` is a boot sector that mounts. */
  predicate Boots(d: Disk, lba: nat) {
    lba < |d| && HasJump(d[lba]) && FromBootSector(d[lba]).Ok?
  }

  /** Partition entry `i` is the first FAT32 partition of sector 0, and starts behind it. */
  predicate Partition(mbr: Sector, i: nat) {
    && i < 4 && mbr[510] == 0x55 && mbr[511] == 0xAA
    && IsFat32Entry(mbr, i) && (forall j: nat :: j < i ==> !IsFat32Entry(mbr, j))
    && StartLba(mbr, i) > 0
  }

  /** Probe `k` is the first that boots, but for those whose read failed. */
  predicate FirstProbe(d: Disk, k: nat, failed: set<nat>) {
    k <= 4 && (forall j: nat :: j < k ==> j in failed || !Boots(d, Probe(j))) && (k < 4 ==> Boots(d, Probe(k)))
  }

  /**
   * Superfloppy, then MBR, then the common partition offsets: a boot sector at sector 0 wins, then
   * the first FAT32 partition, then the first offset that holds a boot sector. `failed` are the
   * offsets whose read failed.
   */
  method MountFat32(card: Card) returns (r: Result<Info>, ghost failed: set<nat>)
    ensures Boots(card.sectors, 0) ==> r == Err(Io) || r == FromBootSector(card.sectors[0])
    ensures |card.sectors| > 0 && !Boots(card.sectors, 0) && r != Err(Io) && r != Err(Trap) ==>
              forall i: nat :: Partition(card.sectors[0], i) ==>
                var lba := StartLba(card.sectors[0], i);
                lba < |card.sectors| && r == Shifted(FromBootSector(card.sectors[lba]), lba)
    ensures |card.sectors| > 0 && !Boots(card.sectors, 0) && r != Err(Io) && r != Err(Trap)
            && (forall i: nat :: !Partition(card.sectors[0], i)) ==>
              exists k: nat :: FirstProbe(card.sectors, k, failed)
                && r == if k == 4 then Err(NoFilesystem) else Shifted(FromBootSector(card.sectors[Probe(k)]), Probe(k))
    ensures r.Ok? ==> |card.sectors| > 0
  {
    failed := {};
    var first := card.ReadBlock(0);
    if first.Err? {
      return Err(Io), failed;
    }
    var sector := first.value;
    if HasJump(sector) {
      var info := FromBootSector(sector);
      if info.Ok? || info == Err(Trap) {
        return info, failed;
      }
    }
    if sector[510] == 0x55 && sector[511] == 0xAA {
      var found := FindFat32Partition(sector);
      if found.Ok? && found.value > 0 {
        ghost var i: nat :| i < 4 && IsFat32Entry(sector, i) && (forall j: nat :: j < i ==> !IsFat32Entry(sector, j))
                            && found == Ok(StartLba(sector, i));
        assert Partition(sector, i);
        var boot := card.ReadBlock(found.value);
        if boot.Err? {
          return Err(Io), failed;
        }
        return Shifted(FromBootSector(boot.value), found.value), failed;
      }
    }
    for i := 0 to 4
      invariant forall j: nat :: j < i ==> j in failed || !Boots(card.sectors, Probe(j))
    {
      assert PROBES[i] == Probe(i);
      var probed := card.ReadBlock(PROBES[i]);
      if probed.Err? {
        failed := failed + {i};
      } else if HasJump(probed.value) {
        var info := FromBootSector(probed.value);
        if info.Ok? || info == Err(Trap) {
          assert info.Ok? ==> FirstProbe(card.sectors, i, failed);
          return Shifted(info, PROBES[i]), failed;
        }
      }
    }
    assert FirstProbe(card.sectors, 4, failed);
    return Err(NoFilesystem), failed;
  }
}
