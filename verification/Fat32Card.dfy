/** The block device under the FAT32 layer: 512-byte sectors that can be read and written one at a time. */
module Fat32Card {
  import opened Bytes

  /** The error strings of the FAT32 layer, and `Io` for any error a transport call returns. */
  datatype Error =
    | Io
    | ZeroClusters
    | AllocationFailed
    | FatOffsetOutOfRange
    | DiskFull
    | BadFatChain
    | CircularFatChain
    | ShortFatChain
    | BufferTooSmall
    | FileNotFound
    | DirectoryTooLarge
    | BadSignature
    | BadSectorSize
    | BadClusterSize
    | BadFatCount
    | BadRootCluster
    | NoPartition
    | NoFilesystem
    | CardTooSmall
    | VerifyFailed
    | Trap

  datatype Result<+T> = Ok(value: T) | Err(error: Error) {
    predicate IsFailure() { Err? }

    function PropagateFailure<U>(): Result<U>
      requires Err?
    {
      Err(error)
    }

    function Extract(): T
      requires Ok?
    {
      value
    }
  }

  datatype Unit = Unit

  type Sector = s: seq<byte> | |s| == 512 witness seq(512, i => 0)

  function ZeroSector(): (r: Sector)
    ensures forall i :: 0 <= i < 512 ==> r[i] == 0
  {
    seq(512, i => 0)
  }

  type Disk = seq<Sector>

  /**
   * A card. Any call may fail, and a failing write may have reached the card or not.
   * `history` records the card at the start and after every write that did reach it: a power
   * loss leaves one of these.
   */
  class Card {
    var sectors: Disk
    ghost var history: seq<Disk>

    ghost predicate Valid()
      reads this
    {
      |history| > 0 && history[|history| - 1] == sectors
    }

    constructor (image: Disk)
      ensures Valid() && sectors == image && history == [image]
    {
      sectors := image;
      history := [image];
    }

    method ReadBlock(block: nat) returns (r: Result<Sector>)
      ensures r.Ok? ==> block < |sectors| && r.value == sectors[block]
      ensures r.Err? ==> r.error == Io
    {
      if * {
        return Err(Io);
      }
      if block >= |sectors| {
        return Err(Io);
      }
      return Ok(sectors[block]);
    }

    method WriteBlock(block: nat, data: Sector) returns (r: Result<Unit>)
      requires Valid()
      modifies this
      ensures Valid() && |sectors| == |old(sectors)|
      ensures r.Ok? ==> block < |sectors|
      ensures r.Err? ==> r.error == Io
      ensures || (block < |sectors| && sectors == old(sectors)[block := data] && history == old(history) + [sectors])
              || (r.Err? && sectors == old(sectors) && history == old(history))
    {
      if block >= |sectors| {
        return Err(Io);
      }
      if * {
        return Err(Io);
      }
      sectors := sectors[block := data];
      history := history + [sectors];
      if * {
        return Err(Io);
      }
      return Ok(Unit);
    }
  }
}
