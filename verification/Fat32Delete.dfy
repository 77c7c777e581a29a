/** Deleting a file: the directory entry first, then its chain, freed in batches of one FAT sector. */
module Fat32Delete {
  import opened Bytes
  import opened Fat32Card
  import opened Fat32Layout
  import opened Fat32Tables
  import opened Fat32Alloc
  import opened Fat32Dir

  /** The words of the card, read as FAT entries, that are not zero: what the walk uses up. */
  ghost function NonZeroWords(d: Disk): set<(nat, nat)> {
    set s: nat, w: nat | s < |d| && w < 128 && Low(d[s], w) != 0 :: (s, w)
  }

  /** `now` is `was` with some entries zeroed. */
  ghost predicate OnlyZeroed(was: Sector, now: Sector) {
    forall w: nat :: w < 128 ==> Low(now, w) == 0 || Low(now, w) == Low(was, w)
  }

  lemma {:induction false} WordsShrink(d: Disk, s: nat, now: Sector)
    requires s < |d| && OnlyZeroed(d[s], now)
    ensures NonZeroWords(d[s := now]) <= NonZeroWords(d)
    ensures forall w: nat :: w < 128 && Low(d[s], w) != 0 && Low(now, w) == 0 ==>
              NonZeroWords(d[s := now]) < NonZeroWords(d)
  {
    forall w: nat | w < 128 && Low(d[s], w) != 0 && Low(now, w) == 0
      ensures NonZeroWords(d[s := now]) < NonZeroWords(d)
    {
      assert (s, w) in NonZeroWords(d) && (s, w) !in NonZeroWords(d[s := now]);
    }
  }

  /** The replay list holds exactly the byte offsets of the entries `part` of one FAT sector. */
  ghost predicate Replays(offs: seq<nat>, part: seq<nat>) {
    && (forall o :: o in offs ==> exists x :: x in part && o == 4 * (x % 128))
    && (forall x :: x in part ==> 4 * (x % 128) in offs)
  }

  /** A FAT sector has no more than 128 entries: a full replay list already names every one. */
  lemma {:induction false} FullReplayList(words: seq<nat>, w: nat)
    requires |words| == 128 && (forall i, j :: 0 <= i < j < 128 ==> words[i] != words[j])
    requires forall x :: x in words ==> x < 128
    requires w < 128
    ensures w in words
  {
    var have := Elements(words);
    DistinctSize(words);
    AtMost(have + {w}, 128);
    assert w !in have ==> |have + {w}| == |have| + 1;
  }

  ghost function Elements(s: seq<nat>): set<nat> {
    set x | x in s
  }

  lemma {:induction false} DistinctSize(s: seq<nat>)
    requires forall i, j :: 0 <= i < j < |s| ==> s[i] != s[j]
    ensures |Elements(s)| == |s|
  {
    if s != [] {
      var n := |s| - 1;
      DistinctSize(s[..n]);
      var prev := Elements(s[..n]);
      assert s == s[..n] + [s[n]];
      assert s[n] !in prev;
      assert Elements(s) == prev + {s[n]};
    }
  }

  lemma {:induction false} AtMost(a: set<nat>, n: nat)
    requires forall x :: x in a ==> x < n
    ensures |a| <= n
  {
    if n == 0 {
      assert a == {};
    } else {
      AtMost(a - {n - 1}, n - 1);
    }
  }

  lemma LowAt(sec: Sector, w: nat)
    requires w < 128
    ensures Low(sec, w) == Le32(sec, 4 * w) % NIBBLE
  {
  }

  ghost function NonZeroIn(sec: Sector): set<nat> {
    set w: nat | w < 128 && Low(sec, w) != 0
  }

  lemma {:induction false} NonZeroInShrinks(sec: Sector, w: nat)
    requires w < 128
    ensures Low(sec, w) != 0 ==> NonZeroIn(SetLow(sec, 4 * w, 0)) < NonZeroIn(sec)
  {
    hide Low, SetLow;
    SetLowWords(sec, w, 0);
    if Low(sec, w) != 0 {
      assert w in NonZeroIn(sec) && w !in NonZeroIn(SetLow(sec, 4 * w, 0));
    }
  }

  /** The list keeps up with the walk: the offset is added, or was on it. */
  lemma {:induction false} ReplaysGrow(offs: seq<nat>, part: seq<nat>, c: nat, longer: seq<nat>)
    requires Replays(offs, part)
    requires longer == offs + [4 * (c % 128)] || (longer == offs && 4 * (c % 128) in offs)
    ensures Replays(longer, part + [c])
  {
    forall o | o in longer
      ensures exists x :: x in part + [c] && o == 4 * (x % 128)
    {
      if o in offs {
        var x :| x in part && o == 4 * (x % 128);
        assert x in part + [c];
      } else {
        assert c in part + [c];
      }
    }
  }

  /** The replay list names distinct entries, all zeroed by now. */
  ghost predicate ListOk(buf: Sector, offs: seq<nat>) {
    && |offs| <= 128
    && (forall i, j :: 0 <= i < j < |offs| ==> offs[i] != offs[j])
    && (forall o :: o in offs ==> o % 4 == 0 && o < 512 && Low(buf, o / 4) == 0)
  }

  /** An entry that is not yet zero is not on the list, and a full list has every entry on it. */
  lemma {:induction false} FreshOffset(buf: Sector, offs: seq<nat>, w: nat)
    requires w < 128 && ListOk(buf, offs)
    ensures Low(buf, w) != 0 ==> 4 * w !in offs && |offs| < 128
    ensures |offs| == 128 ==> 4 * w in offs
  {
    hide Low;
    assert 4 * w / 4 == w;
    if |offs| == 128 {
      var words := seq(128, k requires 0 <= k < 128 => offs[k] / 4);
      forall i, j | 0 <= i < j < 128
        ensures words[i] != words[j]
      {
        assert offs[i] in offs && offs[j] in offs;
      }
      forall x | x in words
        ensures x < 128
      {
        var k :| 0 <= k < 128 && words[k] == x;
        assert offs[k] in offs;
      }
      FullReplayList(words, w);
      var k :| 0 <= k < 128 && words[k] == w;
      assert offs[k] in offs;
    }
  }

  /** Zeroing entry `w` and noting it, as the loop does. */
  lemma {:induction false} ListGrows(was: Sector, now: Sector, offs: seq<nat>, part: seq<nat>, c: nat, longer: seq<nat>)
    requires ListOk(was, offs) && Replays(offs, part)
    requires longer == if |offs| < 128 then offs + [4 * (c % 128)] else offs
    requires forall x | 0 <= x < 128 :: Low(now, x) == if x == c % 128 then 0 else Low(was, x)
    ensures Replays(longer, part + [c])
    ensures Low(was, c % 128) != 0 ==> ListOk(now, longer)
    ensures forall o :: o in longer ==> o % 4 == 0 && o < 512
  {
    hide Low;
    FreshOffset(was, offs, c % 128);
    ReplaysGrow(offs, part, c, longer);
  }

  /** The table side of the inner loop, on a page of the FAT. */
  ghost predicate PageWalk(t: Table, start: nat, buf: Sector, part: seq<nat>, cluster: nat) {
    var page := start / 128;
    && page * 128 + 128 <= |t|
    && (forall x :: x in part ==> x / 128 == page)
    && (forall w | 0 <= w < 128 :: Low(buf, w) == Clear(t, part)[page * 128 + w])
    && Walk(t, start) == part + Walk(Clear(t, part), cluster)
    && (WalkStays(t, start) ==> WalkStays(Clear(t, part), cluster))
  }

  lemma {:induction false} PageWalkStarts(t: Table, start: nat, was: Sector)
    requires start / 128 * 128 + 128 <= |t|
    requires forall w | 0 <= w < 128 :: Low(was, w) == t[start / 128 * 128 + w]
    ensures PageWalk(t, start, was, [], start)
  {
    hide Low, Walk, WalkStays;
    assert Clear(t, []) == t;
  }

  /** Zeroing one word of a page's buffer is one step of the walk. */
  lemma {:induction false} PageWalkStep(t: Table, start: nat, was: Sector, now: Sector, part: seq<nat>, c: nat)
    requires PageWalk(t, start, was, part, c) && IsData(c) && c / 128 == start / 128
    requires forall w | 0 <= w < 128 :: Low(now, w) == if w == c % 128 then 0 else Low(was, w)
    ensures PageWalk(t, start, now, part + [c], Low(was, c % 128))
  {
    hide Low, Walk, WalkStays;
    var page := start / 128;
    WalkStep(t, part, c);
    assert c == page * 128 + c % 128;
    assert Low(was, c % 128) == Clear(t, part)[c];
    forall w | 0 <= w < 128
      ensures Low(now, w) == Clear(t, part + [c])[page * 128 + w]
    {
      assert c == page * 128 + w <==> w == c % 128;
    }
  }

  /** `was` is the FAT sector of `start` in the table `t`, and clusters in it are told by their page. */
  ghost predicate PageOf(f: Info, t: Table, was: Sector, fsector: nat, start: nat) {
    && start / 128 * 128 + 128 <= |t|
    && (forall w | 0 <= w < 128 :: Low(was, w) == t[start / 128 * 128 + w])
    && (forall c: nat :: IsData(c) ==> (FatSectorFor(f, c).0 == fsector <==> c / 128 == start / 128))
  }

  /** Some entry went from non-zero to zero. */
  ghost predicate Progress(was: Sector, now: Sector) {
    exists w: nat :: w < 128 && Low(was, w) != 0 && Low(now, w) == 0
  }

  /**
   * The inner loop of the delete: from `start`, as long as the chain stays in FAT sector
   * `fsector`, zero each entry passed in its buffer and note its offset.
   */
  method FreePage(f: Info, was: Sector, fsector: nat, start: nat, ghost t: Table)
    returns (buf: Sector, offs: seq<nat>, cluster: nat, ghost part: seq<nat>)
    requires IsData(start) && FatSectorFor(f, start).0 == fsector
    ensures forall w | 0 <= w < 128 :: High(buf, w) == High(was, w)
    ensures OnlyZeroed(was, buf)
    ensures cluster < NIBBLE
    ensures !IsData(cluster) || Progress(was, buf)
    // On a FAT sector the replay list misses no entry of the walk.
    ensures part != [] && Replays(offs, part) && forall o :: o in offs ==> o % 4 == 0 && o < 512
    ensures PageOf(f, t, was, fsector, start) ==> PageWalk(t, start, buf, part, cluster)
  {
    hide Low, High, SetLow, FatSectorFor, PageWalk, ListOk, Replays;
    buf, offs, cluster, part := was, [], start, [];
    if PageOf(f, t, was, fsector, start) {
      PageWalkStarts(t, start, was);
    }
    EmptyList(was);
    while true
      invariant IsData(cluster)
      invariant if part == [] then cluster == start && buf == was else Progress(was, buf)
      invariant forall w | 0 <= w < 128 :: High(buf, w) == High(was, w)
      invariant OnlyZeroed(was, buf)
      invariant Replays(offs, part) && ListOk(buf, offs) && forall o :: o in offs ==> o % 4 == 0 && o < 512
      invariant PageOf(f, t, was, fsector, start) ==> PageWalk(t, start, buf, part, cluster)
      decreases NonZeroIn(buf)
    {
      var (s, foffset) := FatSectorFor(f, cluster);
      if s != fsector {
        break;
      }
      ghost var w := cluster % 128;
      // The original's offset guard cannot fire here: a data cluster's entry never straddles the sector.
      assert foffset + 3 < 512;
      ghost var before, had := buf, offs;
      LowAt(buf, w);
      SetLowWords(buf, w, 0);
      NonZeroInShrinks(buf, w);
      var next := Le32(buf, foffset) % 0x1000_0000;
      buf := SetLow(buf, foffset, 0);
      if |offs| < 128 {
        offs := offs + [foffset];
      }
      ListGrows(before, buf, had, part, cluster, offs);
      if PageOf(f, t, was, fsector, start) {
        PageWalkStep(t, start, before, buf, part, cluster);
      }
      part := part + [cluster];
      cluster := next;
      if cluster < 2 || cluster >= 0x0FFF_FFF8 {
        break;
      }
    }
  }

  lemma EmptyList(buf: Sector)
    ensures ListOk(buf, []) && Replays([], [])
  {
  }

  /** The second copy: zero the same offsets again. */
  method ReplayOffsets(was: Sector, offs: seq<nat>) returns (buf: Sector)
    requires forall o :: o in offs ==> o % 4 == 0 && o < 512
    ensures forall w | 0 <= w < 128 :: Low(buf, w) == if 4 * w in offs then 0 else Low(was, w)
    ensures forall w | 0 <= w < 128 :: High(buf, w) == High(was, w)
  {
    hide Low, High, SetLow;
    buf := was;
    for k := 0 to |offs|
      invariant forall w | 0 <= w < 128 :: Low(buf, w) == if 4 * w in offs[..k] then 0 else Low(was, w)
      invariant forall w | 0 <= w < 128 :: High(buf, w) == High(was, w)
    {
      var o := offs[k];
      assert o in offs;
      SetLowWords(buf, o / 4, 0);
      buf := SetLow(buf, o, 0);
      assert offs[..k + 1] == offs[..k] + [o];
    }
    assert offs[..|offs|] == offs;
  }

  /** Copy `copy` of `e` is copy `copy` of `d` with the entries of `cs` zeroed and the reserved nibbles kept. */
  ghost predicate CopyCleared(d: Disk, e: Disk, f: Info, copy: nat, cs: seq<nat>)
    requires WellFormed(f, |d|) && |d| == |e| && copy < f.numFats
  {
    && Fat(e, f, copy) == Clear(Fat(d, f, copy), cs)
    && Nibbles(e, f, copy) == Nibbles(d, f, copy)
  }

  /** `cs` is freed in FAT1 and `cs2` in FAT2; nothing outside the FATs moved. */
  ghost predicate Freed(d: Disk, e: Disk, f: Info, cs: seq<nat>, cs2: seq<nat>)
    requires WellFormed(f, |d|)
  {
    && SameOutsideFats(d, e, f)
    && CopyCleared(d, e, f, 0, cs)
    && (f.numFats == 2 ==> CopyCleared(d, e, f, 1, cs2))
  }

  /** A power loss while `walk` is freed: some of it is free in FAT1, no more than that in FAT2. */
  ghost predicate CrashedFree(d: Disk, e: Disk, f: Info, walk: seq<nat>)
    requires WellFormed(f, |d|)
  {
    exists cs, cs2 | cs2 <= cs <= walk :: Freed(d, e, f, cs, cs2)
  }

  lemma {:induction false} NothingFreed(d: Disk, f: Info)
    requires WellFormed(f, |d|)
    ensures Freed(d, d, f, [], [])
  {
    assert Clear(Fat(d, f, 0), []) == Fat(d, f, 0);
    if f.numFats == 2 {
      assert Clear(Fat(d, f, 1), []) == Fat(d, f, 1);
    }
  }

  /** Writing the buffer of one page back frees the part of the walk it holds. */
  lemma {:induction false} PageFreed(d0: Disk, d: Disk, f: Info, copy: nat, done: seq<nat>, part: seq<nat>, page: nat,
          was: Sector,
          now: Sector)
    requires WellFormed(f, |d0|) && |d| == |d0| && copy < f.numFats && page < f.fatSize
    requires CopyCleared(d0, d, f, copy, done)
    requires forall x :: x in part ==> x / 128 == page
    requires CopyStart(f, copy) + page < |d| && was == d[CopyStart(f, copy) + page]
    requires forall w | 0 <= w < 128 :: High(now, w) == High(was, w)
    requires forall w | 0 <= w < 128 :: Low(now, w) == if page * 128 + w in part then 0 else Low(was, w)
    ensures
      var e := d[CopyStart(f, copy) + page := now];
      && SameOutsideFats(d, e, f)
      && CopyCleared(d0, e, f, copy, done + part)
      && OtherCopySame(d, e, f, copy)
  {
    hide Low, High;
    FatAfterWrite(d, f, copy, page, now);
    var e := d[CopyStart(f, copy) + page := now];
    var t := Fat(d0, f, copy);
    forall c | 0 <= c < |t|
      ensures Fat(e, f, copy)[c] == Clear(t, done + part)[c]
      ensures Nibbles(e, f, copy)[c] == Nibbles(d, f, copy)[c]
    {
      assert c == c / 128 * 128 + c % 128;
      assert Fat(d, f, copy)[c] == Clear(t, done)[c];
      assert c in part ==> c / 128 == page;
      assert c in done + part <==> c in done || c in part;
    }
    assert Fat(e, f, copy) == Clear(t, done + part);
    assert Nibbles(e, f, copy) == Nibbles(d, f, copy);
  }

  /** Where the walk stands: `done` is freed in both copies and the rest of it starts at `cluster`. */
  ghost predicate WalkDone(d0: Disk, d: Disk, f: Info, first: nat, done: seq<nat>, cluster: nat)
    requires WellFormed(f, |d0|)
  {
    && Freed(d0, d, f, done, done)
    && Walk(Fat(d0, f, 0), first) == done + Walk(Fat(d, f, 0), cluster)
    && WalkStays(Fat(d, f, 0), cluster)
  }

  /** The FAT sector of a cluster that the walk reaches inside the FAT. */
  lemma {:induction false} PageOfFat(d: Disk, f: Info, cluster: nat)
    requires WellFormed(f, |d|) && IsData(cluster) && cluster < 128 * f.fatSize
    ensures
      var s := FatSectorFor(f, cluster).0;
      && s == f.fatStart + cluster / 128 == CopyStart(f, 0) + cluster / 128
      && s < |d| && cluster / 128 < f.fatSize
      && PageOf(f, Fat(d, f, 0), d[s], s, cluster)
  {
    hide Low;
    EntryPlace(f, |d|, cluster);
    CopyOnCard(f, |d|, 0);
    var s := FatSectorFor(f, cluster).0;
    var t := Fat(d, f, 0);
    forall w | 0 <= w < 128
      ensures Low(d[s], w) == t[cluster / 128 * 128 + w]
    {
      var c := cluster / 128 * 128 + w;
      assert c / 128 == cluster / 128 && c % 128 == w;
    }
  }

  /** The FAT1 write of one pass frees its part of the walk there. */
  lemma {:induction false} FirstCopyWritten(d0: Disk, d: Disk, f: Info, done: seq<nat>, start: nat, part: seq<nat>,
          buf: Sector,
          cluster: nat)
    requires WellFormed(f, |d0|) && |d| == |d0| && Freed(d0, d, f, done, done)
    requires IsData(start) && start < 128 * f.fatSize && f.fatStart + start / 128 < |d|
    requires PageWalk(Fat(d, f, 0), start, buf, part, cluster)
    requires var was := d[f.fatStart + start / 128]; forall w | 0 <= w < 128 :: High(buf, w) == High(was, w)
    ensures
      var e := d[f.fatStart + start / 128 := buf];
      && Freed(d0, e, f, done + part, done)
      && Fat(e, f, 0) == Clear(Fat(d, f, 0), part)
  {
    PageOfFat(d, f, start);
    hide Low, High, Walk, WalkStays, Nibbles, MaxCluster, Fat, Clear, FatSectorFor, CopyStart, PageWalk;
    var page := start / 128;
    var was := d[f.fatStart + page];
    PageWalked(Fat(d, f, 0), start, buf, part, cluster);
    PageZeroed(Fat(d, f, 0), start, was, buf, part, cluster);
    PageFreed(d0, d, f, 0, done, part, page, was, buf);
    ClearTwice(Fat(d0, f, 0), done, part);
  }

  /** After the FAT1 write of one pass. */
  lemma {:induction false} FirstCopyFreed(d0: Disk, d: Disk, f: Info, first: nat, done: seq<nat>, start: nat,
          part: seq<nat>,
          buf: Sector, cluster: nat)
    requires WellFormed(f, |d0|) && |d| == |d0| && WalkDone(d0, d, f, first, done, start)
    requires IsData(start) && start < 128 * f.fatSize && f.fatStart + start / 128 < |d|
    requires PageWalk(Fat(d, f, 0), start, buf, part, cluster)
    requires var was := d[f.fatStart + start / 128]; forall w | 0 <= w < 128 :: High(buf, w) == High(was, w)
    ensures
      var e := d[f.fatStart + start / 128 := buf];
      && Freed(d0, e, f, done + part, done)
      && Walk(Fat(d0, f, 0), first) == done + part + Walk(Fat(e, f, 0), cluster)
      && WalkStays(Fat(e, f, 0), cluster)
      && CrashedFree(d0, e, f, Walk(Fat(d0, f, 0), first))
    ensures forall x :: x in part ==> x / 128 == start / 128
  {
    hide Low, High, Walk, WalkStays, Fat, Clear, PageWalk, Freed, MaxCluster;
    var e := d[f.fatStart + start / 128 := buf];
    FirstCopyWritten(d0, d, f, done, start, part, buf, cluster);
    PageWalked(Fat(d, f, 0), start, buf, part, cluster);
    WalkSplit(done, part, Walk(Fat(e, f, 0), cluster));
  }

  lemma WalkSplit(done: seq<nat>, part: seq<nat>, rest: seq<nat>)
    ensures done + (part + rest) == done + part + rest
    ensures done <= done + part <= done + part + rest
  {
  }

  lemma {:induction false} PageWalked(t: Table, start: nat, buf: Sector, part: seq<nat>, cluster: nat)
    requires PageWalk(t, start, buf, part, cluster)
    ensures Walk(t, start) == part + Walk(Clear(t, part), cluster)
    ensures WalkStays(t, start) ==> WalkStays(Clear(t, part), cluster)
    ensures forall x :: x in part ==> x / 128 == start / 128
  {
    hide Low, Walk, WalkStays, Clear;
  }

  lemma {:induction false} PageZeroed(t: Table, start: nat, was: Sector, now: Sector, part: seq<nat>, cluster: nat)
    requires PageWalk(t, start, now, part, cluster)
    requires forall w | 0 <= w < 128 :: Low(was, w) == t[start / 128 * 128 + w]
    ensures forall w | 0 <= w < 128 :: Low(now, w) == if start / 128 * 128 + w in part then 0 else Low(was, w)
  {
    hide Low, Walk, WalkStays;
  }

  /** After the FAT2 write of the same pass. */
  lemma {:induction false} SecondCopyFreed(d0: Disk, d: Disk, f: Info, first: nat, done: seq<nat>, part: seq<nat>,
          page: nat,
          offs: seq<nat>, buf: Sector,
                        cluster: nat)
    requires WellFormed(f, |d0|) && |d| == |d0| && f.numFats == 2 && page < f.fatSize
    requires Freed(d0, d, f, done + part, done)
    requires forall x :: x in part ==> x / 128 == page
    requires Replays(offs, part)
    requires f.fatStart + f.fatSize + page < |d|
    requires var was := d[f.fatStart + f.fatSize + page];
             && (forall w | 0 <= w < 128 :: High(buf, w) == High(was, w))
             && (forall w | 0 <= w < 128 :: Low(buf, w) == if 4 * w in offs then 0 else Low(was, w))
    requires Walk(Fat(d0, f, 0), first) == done + part + Walk(Fat(d, f, 0), cluster)
    requires WalkStays(Fat(d, f, 0), cluster)
    ensures
      var e := d[f.fatStart + f.fatSize + page := buf];
      && WalkDone(d0, e, f, first, done + part, cluster)
      && CrashedFree(d0, e, f, Walk(Fat(d0, f, 0), first))
  {
    hide Low, High, Walk, WalkStays, Fat, Nibbles, Clear, Replays, MaxCluster;
    CopyOnCard(f, |d|, 1);
    var e := d[f.fatStart + f.fatSize + page := buf];
    var was := d[f.fatStart + f.fatSize + page];
    OffsetsOfPart(offs, part, page);
    PageFreed(d0, d, f, 1, done, part, page, was, buf);
    assert done + part <= Walk(Fat(d0, f, 0), first);
  }

  lemma {:induction false} OffsetsOfPart(offs: seq<nat>, part: seq<nat>, page: nat)
    requires Replays(offs, part) && forall x :: x in part ==> x / 128 == page
    ensures forall w | 0 <= w < 128 :: page * 128 + w in part <==> 4 * w in offs
  {
    forall w | 0 <= w < 128
      ensures page * 128 + w in part <==> 4 * w in offs
    {
      var c := page * 128 + w;
      assert c % 128 == w;
      if 4 * w in offs {
        var x :| x in part && 4 * w == 4 * (x % 128);
        assert x == c;
      }
    }
  }

  lemma OneCopyFreed(d0: Disk, d: Disk, f: Info, first: nat, done: seq<nat>, part: seq<nat>, cluster: nat)
    requires WellFormed(f, |d0|) && |d| == |d0| && f.numFats == 1
    requires Freed(d0, d, f, done + part, done)
    requires Walk(Fat(d0, f, 0), first) == done + part + Walk(Fat(d, f, 0), cluster)
    requires WalkStays(Fat(d, f, 0), cluster)
    ensures WalkDone(d0, d, f, first, done + part, cluster)
  {
  }

  lemma {:induction false} WalkOver(d0: Disk, d: Disk, f: Info, first: nat, done: seq<nat>, cluster: nat)
    requires WellFormed(f, |d0|) && WalkDone(d0, d, f, first, done, cluster) && !IsData(cluster)
    ensures done == Walk(Fat(d0, f, 0), first) && Freed(d0, d, f, done, done)
  {
    hide Fat, Nibbles, Clear;
  }

  /** Every card state since the `from`-th is a free cut short. */
  ghost predicate FreeSafe(d: Disk, history: seq<Disk>, from: nat, f: Info, walk: seq<nat>)
    requires WellFormed(f, |d|)
  {
    from <= |history| && forall i | from <= i < |history| :: CrashedFree(d, history[i], f, walk)
  }

  lemma StaysInside(t: Table, c: nat)
    requires WalkStays(t, c) && IsData(c)
    ensures c < |t|
  {
  }

  /** One pass of the outer loop: one FAT sector read, walked and written once per copy. */
  method FreeOnePage(card: Card, f: Info, start: nat, ghost d0: Disk, ghost from: nat, ghost first: nat,
          ghost done: seq<nat>)
    returns (r: Result<nat>, ghost part: seq<nat>)
    requires card.Valid() && WellFormed(f, |d0|) && |card.sectors| == |d0| && IsData(start)
    modifies card
    ensures card.Valid() && |card.sectors| == |d0| && old(card.history) <= card.history
    ensures r.Err? ==> r.error == Io
    ensures r.Ok? ==> !IsData(r.value) || NonZeroWords(card.sectors) < NonZeroWords(old(card.sectors))
    ensures NonZeroWords(card.sectors) <= NonZeroWords(old(card.sectors))
    ensures WalkDone(d0, old(card.sectors), f, first, done, start)
            && FreeSafe(d0, old(card.history), from, f, Walk(Fat(d0, f, 0), first))
            ==> && FreeSafe(d0, card.history, from, f, Walk(Fat(d0, f, 0), first))
                && (r.Ok? ==> WalkDone(d0, card.sectors, f, first, done + part, r.value))
  {
    hide Low, High, Fat, Nibbles, Walk, WalkStays, FatSectorFor, Freed, CrashedFree, Replays, PageWalk, PageOf,
         CopyStart, MaxCluster;
    hide NonZeroWords;
    ghost var d := card.sectors;
    ghost var t := Fat(d, f, 0);
    ghost var onTrack := WalkDone(d0, d, f, first, done, start)
        && FreeSafe(d0, card.history, from, f, Walk(Fat(d0, f, 0), first));
    if onTrack {
      StaysInside(t, start);
      PageOfFat(d, f, start);
    }
    part := [];
    var (fsector, _) := FatSectorFor(f, start);
    var was :- card.ReadBlock(fsector);
    var buf, offs, cluster, p := FreePage(f, was, fsector, start, t);
    part := p;
    WordsShrink(d, fsector, buf);
    if onTrack {
      FirstCopyFreed(d0, d, f, first, done, start, part, buf, cluster);
    }
    var _ :- card.WriteBlock(fsector, buf);
    if f.numFats > 1 {
      ghost var d1 := card.sectors;
      var fat2Sector := fsector + f.fatSize;
      was :- card.ReadBlock(fat2Sector);
      buf := ReplayOffsets(was, offs);
      WordsShrink(d1, fat2Sector, buf);
      if onTrack {
        SecondCopyFreed(d0, d1, f, first, done, part, start / 128, offs, buf, cluster);
      }
      var _ :- card.WriteBlock(fat2Sector, buf);
    } else if onTrack {
      OneCopyFreed(d0, card.sectors, f, first, done, part, cluster);
    }
    return Ok(cluster), part;
  }

  /**
   * Free the chain from `first`. It ends on every FAT; where the chain stays inside the FAT it
   * frees exactly the walk, in both copies.
   */
  method FreeChain(card: Card, f: Info, first: nat) returns (r: Result<Unit>)
    requires card.Valid() && WellFormed(f, |card.sectors|)
    modifies card
    ensures card.Valid() && |card.sectors| == |old(card.sectors)| && old(card.history) <= card.history
    ensures r.Err? ==> r.error == Io
    ensures WalkStays(Fat(old(card.sectors), f, 0), first) ==>
              && FreeSafe(old(card.sectors), card.history, |old(card.history)|, f,
                  Walk(Fat(old(card.sectors), f, 0), first))
              && (r.Ok? ==> Freed(old(card.sectors), card.sectors, f,
                                  Walk(Fat(old(card.sectors), f, 0), first), Walk(Fat(old(card.sectors), f, 0), first)))
  {
    hide Low, High, Fat, Nibbles, Walk, WalkStays, FatSectorFor, Freed, CrashedFree, Replays, PageWalk, PageOf,
         CopyStart, MaxCluster;
    ghost var d0 := card.sectors;
    ghost var from := |card.history|;
    ghost var stays := WalkStays(Fat(d0, f, 0), first);
    ghost var walk := Walk(Fat(d0, f, 0), first);
    ghost var done: seq<nat> := [];
    NothingFreed(d0, f);
    var cluster := first;
    while 2 <= cluster < 0x0FFF_FFF8
      invariant card.Valid() && |card.sectors| == |d0| && old(card.history) <= card.history
      invariant stays ==> WalkDone(d0, card.sectors, f, first, done, cluster)
      invariant stays ==> FreeSafe(d0, card.history, from, f, walk)
      decreases NonZeroWords(card.sectors), if IsData(cluster) then 1 else 0
    {
      var next, part := FreeOnePage(card, f, cluster, d0, from, first, done);
      if next.Err? {
        return Err(next.error);
      }
      cluster, done := next.value, done + part;
    }
    if stays {
      WalkOver(d0, card.sectors, f, first, done, cluster);
    }
    return Ok(Unit);
  }
}
