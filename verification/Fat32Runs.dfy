/** Whole runs: a card that starts formatted stays well formed and remembers exactly the last write of every name. */
module Fat32Runs {
  import opened Bytes
  import opened Fat32Card
  import opened Fat32Layout
  import opened Fat32Dir
  import opened Fat32Fs
  import opened Fat32Ops
  import opened Fat32Format

  /**
   * What an operation did. A create or overwrite in a directory with room ends, wherever a power
   * loss or failure cuts it short, as one of these three; so does a delete.
   */
  datatype Op = Put(name: Name, data: seq<byte>) | Remove(name: Name) | Nothing

  /** One create, overwrite or delete, as `Fat32Ops` specifies them, whole or cut short. */
  ghost predicate Stepped(d: Disk, e: Disk, f: Info, cs: seq<nat>, cs2: seq<nat>, op: Op)
    requires 0 < f.sectorsPerCluster
  {
    match op
    case Put(name, data) => Created(d, e, f, cs2, name, data)
    case Remove(name) => Deleted(d, e, f, cs, name) && cs2 == cs
    case Nothing => Unharmed(d, e, f, cs) && cs2 == cs
  }

  /** The card `disks[k]`, with root directory `roots[k]`, after the first `k` operations. */
  ghost predicate Run(f: Info, disks: seq<Disk>, roots: seq<seq<nat>>, ops: seq<Op>)
    requires 0 < f.sectorsPerCluster
  {
    && |disks| == |roots| == |ops| + 1
    && FsOk(disks[0], f, roots[0])
    && forall k :: 0 <= k < |ops| ==> Stepped(disks[k], disks[k + 1], f, roots[k], roots[k + 1], ops[k])
  }

  /** What a name holds after `ops` if it held `before` at first: its last write. */
  function LastWrite(ops: seq<Op>, name: Name, before: Result<seq<byte>>): Result<seq<byte>> {
    if ops == [] then before
    else
      var op := ops[|ops| - 1];
      if op.Nothing? || !SameName(op.name, name) then LastWrite(ops[..|ops| - 1], name, before)
      else if op.Put? then Ok(op.data)
      else Err(FileNotFound)
  }

  /** A create cut short at any write is one of these steps. */
  lemma {:induction false} CutCreateIsStep(d: Disk, history: seq<Disk>, from: nat, f: Info, cs: seq<nat>, name: Name,
          data: seq<byte>,
          i: nat) returns (op: Op)
    requires 0 < f.sectorsPerCluster && AllOrNothing(d, history, from, f, cs, name, data) && from <= i < |history|
    ensures Stepped(d, history[i], f, cs, cs, op) && op in {Nothing, Put(name, data)}
  {
    hide Created, Unharmed;
    op := if Created(d, history[i], f, cs, name, data) then Put(name, data) else Nothing;
  }

  /** So is an overwrite. */
  lemma {:induction false} CutOverwriteIsStep(d: Disk, history: seq<Disk>, from: nat, f: Info, cs: seq<nat>,
          name: Name, data: seq<byte>,
          i: nat) returns (op: Op)
    requires 0 < f.sectorsPerCluster && GoneOrReplaced(d, history, from, f, cs, name, data) && from <= i < |history|
    ensures Stepped(d, history[i], f, cs, cs, op) && op in {Remove(name), Put(name, data)}
  {
    hide Created, Deleted;
    op := if Created(d, history[i], f, cs, name, data) then Put(name, data) else Remove(name);
  }

  /** Whatever was cut short on the way, a name reads as its last write. */
  lemma {:induction false} RunRemembers(f: Info, disks: seq<Disk>, roots: seq<seq<nat>>, ops: seq<Op>, k: nat,
          name: Name)
    requires 0 < f.sectorsPerCluster && Run(f, disks, roots, ops) && k <= |ops|
    ensures FsOk(disks[k], f, roots[k])
    ensures Lookup(disks[k], f, name) == LastWrite(ops[..k], name, Lookup(disks[0], f, name))
  {
    hide FsOk, Lookup, SameName;
    if k > 0 {
      RunRemembers(f, disks, roots, ops, k - 1, name);
      assert Stepped(disks[k - 1], disks[k - 1 + 1], f, roots[k - 1], roots[k - 1 + 1], ops[k - 1]);
      assert ops[..k][..k - 1] == ops[..k - 1];
    }
  }

  /** From a freshly formatted card: a name reads as its last write, and as missing when there is none. */
  lemma {:induction false} FormattedRun(g: Geometry, total: nat, disks: seq<Disk>, roots: seq<seq<nat>>, ops: seq<Op>,
          name: Name)
    requires Tiles(g, total) && total <= U32_MAX && 0 < g.sectorsPerCluster
    requires Run(InfoOf(g), disks, roots, ops)
    requires g.totalSectors <= |disks[0]| && Formatted(disks[0], g)
    ensures FsOk(disks[|ops|], InfoOf(g), roots[|ops|])
    ensures Lookup(disks[|ops|], InfoOf(g), name) == LastWrite(ops, name, Err(FileNotFound))
  {
    hide FsOk, Lookup, Formatted, Tiles, Stepped, SameName;
    FormatThenMount(disks[0], g, total);
    RunRemembers(InfoOf(g), disks, roots, ops, |ops|, name);
    assert ops[..|ops|] == ops;
  }
}
