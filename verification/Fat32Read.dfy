/** Reading a file: what the walk returns on any FAT, and the multi-block and single-block reads that compute it. */
module Fat32Read {
  import opened Bytes
  import opened Fat32Card
  import opened Fat32Layout
  import opened Fat32Tables
  import opened Fat32Alloc
  import opened Fat32Dir

  /** The bytes of `n` consecutive sectors. */
  function SectorBytes(d: Disk, base: nat, n: nat): (r: seq<byte>)
    requires base + n <= |d|
    ensures |r| == 512 * n
  {
    if n == 0 then [] else SectorBytes(d, base, n - 1) + d[base + n - 1]
  }

  /** Sectors of one cluster that `remaining` bytes need. */
  function SectorsNeeded(f: Info, remaining: nat): (n: nat)
    ensures n <= f.sectorsPerCluster
    ensures remaining <= 512 * n || n == f.sectorsPerCluster
    ensures n > 0 ==> 512 * (n - 1) < remaining
    ensures remaining > 0 && 0 < f.sectorsPerCluster ==> n > 0
  {
    var all := (remaining + 511) / 512;
    if all < f.sectorsPerCluster then all else f.sectorsPerCluster
  }

  function Prepend(head: seq<byte>, rest: Result<seq<byte>>): (r: Result<seq<byte>>)
    ensures rest.Ok? ==> r == Ok(head + rest.value)
    ensures rest.Err? ==> r == rest
    ensures head == [] ==> r == rest
  {
    if rest.Ok? then
      assert head == [] ==> head + rest.value == rest.value;
      Ok(head + rest.value)
    else rest
  }

  lemma {:induction false} PrependTwice(a: seq<byte>, b: seq<byte>, rest: Result<seq<byte>>)
    ensures Prepend(a, Prepend(b, rest)) == Prepend(a + b, rest)
  {
    if rest.Ok? {
      assert a + (b + rest.value) == a + b + rest.value;
    }
  }

  /**
   * The next `remaining` bytes of a file whose walk stands at `cluster` and began at `first`,
   * on the card at `d`, whatever its FAT holds.
   */
  function ReadFrom(d: Disk, f: Info, cluster: nat, first: nat, remaining: nat): (r: Result<seq<byte>>)
    requires 0 < f.sectorsPerCluster
    ensures r.Ok? ==> |r.value| == remaining
    decreases remaining
  {
    if remaining == 0 then Ok([])
    else if !IsData(cluster) then Err(ShortFatChain)
    else
      var n := SectorsNeeded(f, remaining);
      var base := ClusterToSector(f, cluster);
      if base + n > |d| then Err(Io)
      else
        var got := SectorBytes(d, base, n);
        if remaining <= |got| then Ok(got[..remaining])
        else
          var next := NextOf(d, f, cluster);
          if next.Err? then Err(next.error)
          else if next.value == cluster || next.value == first then Err(CircularFatChain)
          else Prepend(got, ReadFrom(d, f, next.value, first, remaining - |got|))
  }

  /** The contents `read_file` yields for a directory entry. */
  function Contents(d: Disk, f: Info, entry: DirEntry): Result<seq<byte>>
    requires 0 < f.sectorsPerCluster
  {
    ReadFrom(d, f, entry.FirstCluster(), entry.FirstCluster(), entry.fileSize)
  }

  /** Reading one more sector, or the first `k` bytes of it, after `n` whole ones. */
  lemma {:induction false} OneMoreSector(d: Disk, base: nat, n: nat, k: nat)
    requires base + n < |d| && k <= 512
    ensures SectorBytes(d, base, n + 1)[..512 * n + k] == SectorBytes(d, base, n) + d[base + n][..k]
  {
    assert SectorBytes(d, base, n + 1) == SectorBytes(d, base, n) + d[base + n];
  }

  /** `count` consecutive sectors into `out` at `pos`, in one call. */
  method ReadMulti(card: Card, block: nat, out: array<byte>, pos: nat, count: nat) returns (r: Result<Unit>)
    requires pos + 512 * count <= out.Length
    modifies out
    ensures r.Err? ==> r.error == Io
    ensures out[..pos] == old(out[..pos])
    ensures r.Ok? ==> block + count <= |card.sectors| || count == 0
    ensures r.Ok? && count > 0 ==> out[pos..pos + 512 * count] == SectorBytes(card.sectors, block, count)
  {
    hide SectorBytes;
    NoSectors(card.sectors, block);
    for k := 0 to count
      invariant out[..pos] == old(out[..pos])
      invariant k > 0 ==> block + k <= |card.sectors|
      invariant block <= |card.sectors| ==>
                  block + k <= |card.sectors| && out[pos..pos + 512 * k] == SectorBytes(card.sectors, block, k)
    {
      var at := pos + 512 * k;
      ghost var head := out[..at];
      var _ :- ReadInto(card, block + k, out, at, 512);
      assert out[pos..at + 512] == head[pos..] + out[at..at + 512];
      OneMoreSector(card.sectors, block, k, 512);
    }
    return Ok(Unit);
  }

  lemma NoSectors(d: Disk, base: nat)
    ensures base <= |d| ==> SectorBytes(d, base, 0) == []
  {
  }

  /** The first `n` bytes of one sector into `out` at `at`. */
  method ReadInto(card: Card, block: nat, out: array<byte>, at: nat, n: nat) returns (r: Result<Unit>)
    requires at + n <= out.Length && n <= 512
    modifies out
    ensures r.Err? ==> r.error == Io
    ensures out[..at] == old(out[..at])
    ensures r.Ok? ==> block < |card.sectors| && out[at..at + n] == card.sectors[block][..n]
  {
    var buf :- card.ReadBlock(block);
    CopyIn(out, at, buf, n);
    return Ok(Unit);
  }

  /** `out[at..at + n].copy_from_slice(&src[..n])`. */
  method CopyIn(out: array<byte>, at: nat, src: seq<byte>, n: nat)
    requires at + n <= out.Length && n <= |src|
    modifies out
    ensures out[..at] == old(out[..at])
    ensures out[at..at + n] == src[..n]
    ensures out[at + n..] == old(out[at + n..])
  {
    forall i | 0 <= i < n {
      out[at + i] := src[i];
    }
  }

  /** `got` is what the first `s` sectors at `base` give of `total` bytes. */
  ghost predicate Taken(d: Disk, base: nat, s: nat, total: nat, got: seq<byte>) {
    && |got| == (if total < 512 * s then total else 512 * s)
    && (s > 0 ==> 512 * (s - 1) < total && base + s <= |d| && got == SectorBytes(d, base, s)[..|got|])
  }

  lemma {:induction false} TakeOne(d: Disk, base: nat, s: nat, total: nat, got: seq<byte>, chunk: nat)
    requires Taken(d, base, s, total, got) && |got| < total && base + s < |d|
    requires chunk == if total - |got| >= 512 then 512 else total - |got|
    ensures Taken(d, base, s + 1, total, got + d[base + s][..chunk])
  {
    hide SectorBytes;
    NoSectors(d, base);
    OneMoreSector(d, base, s, chunk);
    WholePrefix(SectorBytes(d, base, s));
  }

  /** The sectors of one cluster one by one: partial cluster or buffer edge. */
  method ReadSingles(card: Card, f: Info, baseSector: nat, out: array<byte>, pos0: nat, remaining0: nat)
    returns (r: Result<nat>)
    requires pos0 + remaining0 <= out.Length && 0 < remaining0
    modifies out
    ensures r.Err? ==> r.error == Io
    ensures out[..pos0] == old(out[..pos0])
    ensures r.Ok? ==>
              && r.value <= remaining0
              && Taken(card.sectors, baseSector, SectorsNeeded(f, remaining0), remaining0, out[pos0..pos0 + r.value])
  {
    hide Taken;
    var pos := pos0;
    var remaining := remaining0;
    var s := 0;
    ghost var d := card.sectors;
    ghost var got: seq<byte> := [];
    TakeNone(d, baseSector, remaining0);
    while s < f.sectorsPerCluster
      invariant s <= f.sectorsPerCluster && card.sectors == d
      invariant pos0 <= pos && 0 <= remaining && pos + remaining == pos0 + remaining0
      invariant out[pos0..pos] == got && Taken(d, baseSector, s, remaining0, got)
      invariant out[..pos0] == old(out[..pos0])
    {
      if remaining == 0 {
        break;
      }
      var chunk := if remaining >= 512 then 512 else remaining;
      ghost var head := out[..pos];
      var _ :- ReadInto(card, baseSector + s, out, pos, chunk);
      assert out[pos0..pos + chunk] == head[pos0..] + out[pos..pos + chunk];
      TakeOne(d, baseSector, s, remaining0, got, chunk);
      got := out[pos0..pos + chunk];
      pos := pos + chunk;
      remaining := remaining - chunk;
      s := s + 1;
    }
    TakenAll(d, f, baseSector, s, remaining0, got);
    return Ok(pos - pos0);
  }

  lemma TakeNone(d: Disk, base: nat, total: nat)
    ensures Taken(d, base, 0, total, [])
  {
  }

  /** The loop stops at the sectors the bytes need. */
  lemma TakenAll(d: Disk, f: Info, base: nat, s: nat, total: nat, got: seq<byte>)
    requires Taken(d, base, s, total, got) && s <= f.sectorsPerCluster && 0 < total
    requires s == f.sectorsPerCluster || |got| == total
    ensures s == SectorsNeeded(f, total)
  {
  }

  lemma WholePrefix(s: seq<byte>)
    ensures s[..|s|] == s
  {
  }

  /** What one cluster contributes: all its needed sectors at once if they fit the buffer, else one by one. */
  method ReadCluster(card: Card, f: Info, cluster: nat, out: array<byte>, pos: nat, remaining: nat)
    returns (r: Result<nat>)
    requires 0 < f.sectorsPerCluster && 0 < remaining && pos + remaining <= out.Length
    modifies out
    ensures r.Err? ==> r.error == Io
    ensures out[..pos] == old(out[..pos])
    ensures r.Ok? ==>
              && r.value <= remaining
              && Taken(card.sectors, ClusterToSector(f, cluster), SectorsNeeded(f, remaining), remaining,
                  out[pos..pos + r.value])
  {
    hide ClusterToSector, SectorBytes;
    var baseSector := ClusterToSector(f, cluster);
    var sectorsNeeded := SectorsNeeded(f, remaining);
    if sectorsNeeded > 1 && pos + sectorsNeeded * 512 <= out.Length {
      var _ :- ReadMulti(card, baseSector, out, pos, sectorsNeeded);
      var actual := if remaining < 512 * sectorsNeeded then remaining else 512 * sectorsNeeded;
      assert out[pos..pos + actual] == out[pos..pos + 512 * sectorsNeeded][..actual];
      return Ok(actual);
    }
    r := ReadSingles(card, f, baseSector, out, pos, remaining);
  }

  /** One cluster of the walk: either it is the last the bytes need, or the FAT says where the walk goes. */
  lemma {:induction false} ReadOne(d: Disk, f: Info, cluster: nat, first: nat, remaining: nat, got: seq<byte>)
    requires 0 < f.sectorsPerCluster && 0 < remaining && IsData(cluster)
    requires Taken(d, ClusterToSector(f, cluster), SectorsNeeded(f, remaining), remaining, got)
    ensures 0 < |got| <= remaining
    ensures ReadFrom(d, f, cluster, first, remaining) ==
            if remaining == |got| then Ok(got)
            else
              var next := NextOf(d, f, cluster);
              if next.Err? then Err(next.error)
              else if next.value == cluster || next.value == first then Err(CircularFatChain)
              else Prepend(got, ReadFrom(d, f, next.value, first, remaining - |got|))
  {
    hide NextOf, ClusterToSector, SectorBytes, Prepend;
    WholePrefix(SectorBytes(d, ClusterToSector(f, cluster), SectorsNeeded(f, remaining)));
  }

  method ReadFile(card: Card, f: Info, entry: DirEntry, out: array<byte>) returns (r: Result<nat>)
    requires 0 < f.sectorsPerCluster
    modifies out
    ensures r == Err(BufferTooSmall) <==> out.Length < entry.fileSize
    ensures r.Err? && r.error != Io && r.error != BufferTooSmall ==> Contents(card.sectors, f, entry) == Err(r.error)
    ensures r.Ok? ==> r.value == entry.fileSize <= out.Length && Contents(card.sectors, f, entry) == Ok(out[..r.value])
  {
    hide NextOf, ClusterToSector, SectorsNeeded, Prepend, Taken, ReadFrom;
    var fileSize := entry.fileSize;
    if out.Length < fileSize {
      return Err(BufferTooSmall);
    }
    var cluster := entry.FirstCluster();
    var firstCluster := cluster;
    var remaining := fileSize;
    var pos := 0;
    ghost var d := card.sectors;
    ghost var whole := Contents(d, f, entry);
    ghost var head: seq<byte> := [];
    assert out[..0] == [];
    while remaining > 0 && 2 <= cluster < 0x0FFF_FFF8
      invariant card.sectors == d
      invariant 0 <= pos && 0 <= remaining && pos + remaining == fileSize
      invariant out[..pos] == head && whole == Prepend(head, ReadFrom(d, f, cluster, firstCluster, remaining))
      decreases remaining
    {
      var got :- ReadCluster(card, f, cluster, out, pos, remaining);
      ghost var now := out[pos..pos + got];
      assert out[..pos + got] == head + now;
      ReadOne(d, f, cluster, firstCluster, remaining, now);
      pos := pos + got;
      remaining := remaining - got;
      if remaining > 0 {
        var next :- ReadFatEntry(card, f, cluster);
        if next == cluster || next == firstCluster {
          return Err(CircularFatChain);
        }
        cluster := next;
        PrependTwice(head, now, ReadFrom(d, f, cluster, firstCluster, remaining));
      } else {
        ReadNothing(d, f, cluster, firstCluster, head, now);
      }
      head := head + now;
    }
    ReadStops(d, f, cluster, firstCluster, remaining, head);
    if pos != fileSize {
      return Err(ShortFatChain);
    }
    return Ok(pos);
  }

  lemma {:induction false} ReadNothing(d: Disk, f: Info, cluster: nat, first: nat, head: seq<byte>, now: seq<byte>)
    requires 0 < f.sectorsPerCluster
    ensures Prepend(head, Ok(now)) == Prepend(head + now, ReadFrom(d, f, cluster, first, 0))
  {
    assert head + now + [] == head + now;
  }

  lemma {:induction false} ReadStops(d: Disk, f: Info, cluster: nat, first: nat, remaining: nat, head: seq<byte>)
    requires 0 < f.sectorsPerCluster && (remaining == 0 || !IsData(cluster))
    ensures Prepend(head, ReadFrom(d, f, cluster, first, remaining)) == if remaining == 0 then Ok(head)
        else Err(ShortFatChain)
  {
    assert head + [] == head;
  }
}
