/**
Safe rebase: giving an overlay image a new backing file without changing what it reads as.

A missing backing file is the empty image: both read as zeroes everywhere.
*/
module Rebase {
  import opened Alignment
  import opened Buffers

  /** The overlay file: per byte its own data and whether it is allocated here or read from the backing. */
  datatype Disk = Disk(data: seq<byte>, alloc: seq<bool>)

  /** Allocation is tracked per unit of `u` bytes. */
  ghost predicate Uniform(alloc: seq<bool>, u: nat)
    requires u > 0
  {
    forall i: nat, j: nat :: i < |alloc| && j < |alloc| && AlignDown(i, u) == AlignDown(j, u) ==> alloc[i] == alloc[j]
  }

  ghost predicate WellFormed(d: Disk, u: nat) {
    u > 0 && |d.data| == |d.alloc| && Uniform(d.alloc, u)
  }

  /** What the guest reads at offset `i`. */
  function ReadAt(d: Disk, backing: seq<byte>, i: nat): byte
    requires |d.data| == |d.alloc| && i < |d.data|
  {
    if d.alloc[i] then d.data[i] else Padded(backing, i)
  }

  function View(d: Disk, backing: seq<byte>): seq<byte>
    requires |d.data| == |d.alloc|
  {
    seq(|d.data|, i requires 0 <= i < |d.data| => ReadAt(d, backing, i))
  }

  /** Offset `i` lies in an allocation unit that a write of `len` bytes at `offset` reaches. */
  predicate Touched(i: nat, offset: nat, len: nat, u: nat)
    requires u > 0
  {
    len > 0 && AlignDown(offset, u) <= i < AlignDown(offset + len - 1, u) + u
  }

  /**
  A write allocates every unit it reaches; what it does not cover of such a unit is copied from
  what the image reads as (copy on write).
  */
  function Written(d: Disk, backing: seq<byte>, u: nat, offset: nat, buf: seq<byte>): (w: Disk)
    requires u > 0 && |d.data| == |d.alloc| && offset + |buf| <= |d.data|
    ensures |w.data| == |w.alloc| == |d.data|
  {
    Disk(seq(|d.data|, i requires 0 <= i < |d.data| =>
           if offset <= i < offset + |buf| then buf[i - offset]
           else if Touched(i, offset, |buf|, u) then ReadAt(d, backing, i)
           else d.data[i]),
         seq(|d.data|, i requires 0 <= i < |d.data| => d.alloc[i] || Touched(i, offset, |buf|, u)))
  }

  /** A write changes what the image reads as in its own range only, and keeps allocation uniform. */
  lemma WrittenReads(d: Disk, backing: seq<byte>, u: nat, offset: nat, buf: seq<byte>)
    requires WellFormed(d, u) && offset + |buf| <= |d.data|
    ensures
      var w := Written(d, backing, u, offset, buf);
      && WellFormed(w, u)
      && (forall i :: 0 <= i < |d.data| ==>
            ReadAt(w, backing, i) ==
            if offset <= i < offset + |buf| then buf[i - offset] else ReadAt(d, backing, i))
  {
    var w := Written(d, backing, u, offset, buf);
    forall i: nat, j: nat | i < |w.alloc| && j < |w.alloc| && AlignDown(i, u) == AlignDown(j, u)
      ensures w.alloc[i] == w.alloc[j]
    {
      if |buf| > 0 {
        SameUnit(i, j, AlignDown(offset, u), u);
        SameUnit(i, j, AlignDown(offset + |buf| - 1, u) + u, u);
      }
    }
  }

  /** Two offsets of one unit are on the same side of a unit boundary. */
  lemma SameUnit(i: nat, j: nat, a: nat, u: nat)
    requires u > 0 && AlignDown(i, u) == AlignDown(j, u)
    ensures a % u == 0 ==> (a <= i <==> a <= j)
    ensures a >= u && (a - u) % u == 0 ==> (a <= i <==> a <= j)
  {
    if a >= u && (a - u) % u == 0 { NextMultiple(a - u, u); }
    if a % u == 0 {
      var b := AlignDown(i, u);
      if b < a { AlignedGap(b, a, u); }
    }
  }

  /** A write of what the image already reads as changes nothing a reader can see. */
  lemma SameWriteSameView(d: Disk, backing: seq<byte>, u: nat, offset: nat, buf: seq<byte>)
    requires WellFormed(d, u) && offset + |buf| <= |d.data|
    requires forall k :: 0 <= k < |buf| ==> buf[k] == ReadAt(d, backing, offset + k)
    ensures View(Written(d, backing, u, offset, buf), backing) == View(d, backing)
  {
  }

  /** The allocation unit of offset `i` reads differently over the two backing files. */
  ghost predicate UnitDiffers(old_: seq<byte>, new_: seq<byte>, u: nat, size: nat, i: nat)
    requires u > 0
  {
    exists j: nat :: j < size && AlignDown(j, u) == AlignDown(i, u) && Padded(old_, j) != Padded(new_, j)
  }

  /** Offset `i` reads the same over both backing files. */
  predicate Settled(d: Disk, old_: seq<byte>, new_: seq<byte>, i: nat)
    requires i < |d.alloc|
  {
    d.alloc[i] || Padded(old_, i) == Padded(new_, i)
  }

  lemma SettledReadsSame(d: Disk, old_: seq<byte>, new_: seq<byte>)
    requires |d.data| == |d.alloc| && forall i: nat :: i < |d.data| ==> Settled(d, old_, new_, i)
    ensures View(d, old_) == View(d, new_)
  {
    forall i: nat | i < |d.data|
      ensures ReadAt(d, old_, i) == ReadAt(d, new_, i)
    {
      assert Settled(d, old_, new_, i);
    }
  }

  /** What a reader of the image file would find if the process stopped at some moment. */
  datatype Snapshot = Snapshot(disk: Disk, backing: seq<byte>)

  class Overlay {
    const unit: nat
    var disk: Disk
    var backing: seq<byte>
    /** The image file after each write. */
    ghost var trace: seq<Snapshot>

    constructor (unit: nat, disk: Disk, backing: seq<byte>)
      requires WellFormed(disk, unit)
      ensures Valid() && this.unit == unit && this.disk == disk && this.backing == backing && trace == []
    {
      this.unit, this.disk, this.backing, trace := unit, disk, backing, [];
    }

    ghost predicate Valid()
      reads this
    {
      WellFormed(disk, unit)
    }

    ghost function Contents(): seq<byte>
      requires Valid()
      reads this
    {
      View(disk, backing)
    }

    /** Every snapshot from number `from` on reads as `contents`. */
    ghost predicate AlwaysRead(from: nat, contents: seq<byte>)
      reads this
    {
      forall k :: from <= k < |trace| ==>
        |trace[k].disk.data| == |trace[k].disk.alloc| && View(trace[k].disk, trace[k].backing) == contents
    }

    /** bdrv_is_allocated, which may answer for any part of the range it is asked about. */
    method IsAllocated(offset: nat, n: nat) returns (ok: bool, present: bool, pnum: nat)
      requires Valid() && n > 0 && offset + n <= |disk.data|
      ensures 0 < pnum <= n
      ensures forall i :: offset <= i < offset + pnum ==> disk.alloc[i] == present
    {
      ok := *;
      present := disk.alloc[offset];
      pnum :| 0 < pnum <= n && forall i :: offset <= i < offset + pnum ==> disk.alloc[i] == present;
    }

    /** blk_pwrite and blk_pwrite_zeroes: a write that fails may have written any prefix. */
    method Pwrite(offset: nat, buf: seq<byte>) returns (ok: bool)
      requires Valid() && offset + |buf| <= |disk.data|
      modifies this
      ensures Valid() && backing == old(backing) && |disk.data| == old(|disk.data|)
      ensures ok ==> disk == Written(old(disk), backing, unit, offset, buf)
      ensures !ok ==> exists k :: 0 <= k <= |buf| && disk == Written(old(disk), backing, unit, offset, buf[..k])
      ensures trace == old(trace) + [Snapshot(disk, backing)]
    {
      var k: nat := |buf|;
      ok := *;
      if !ok {
        k :| k <= |buf|;
      }
      WrittenReads(disk, backing, unit, offset, buf[..k]);
      assert buf[..|buf|] == buf;
      disk := Written(disk, backing, unit, offset, buf[..k]);
      trace := trace + [Snapshot(disk, backing)];
    }

    /** bdrv_change_backing_file */
    method ChangeBackingFile(new_: seq<byte>) returns (ok: bool)
      requires Valid()
      modifies this
      ensures Valid() && disk == old(disk) && backing == if ok then new_ else old(backing)
      ensures trace == old(trace) + [Snapshot(disk, backing)]
    {
      ok := *;
      if ok {
        backing := new_;
      }
      trace := trace + [Snapshot(disk, backing)];
    }
  }

  /** blk_pread of what there is of a backing file, and zeroes past its end. */
  method ReadBacking(image: seq<byte>, offset: nat, n: nat) returns (ok: bool, buf: seq<byte>)
    ensures |buf| == n && forall k :: 0 <= k < n ==> buf[k] == Padded(image, offset + k)
  {
    var len := Min(n, Max(0, |image| - offset));
    buf := seq(n - len, _ => 0);
    ok := true;
    if len > 0 {
      ok := *;
      buf := image[offset..offset + len] + buf;
    }
  }

  /**
  bdrv_is_allocated_above: whether the old chain above the new backing file changed the range.  A
  range it reports unchanged reads the same over both; an answer about no bytes at all is the end of
  the old backing file.
  */
  method IsAllocatedAbove(old_: seq<byte>, new_: seq<byte>, offset: nat, n: nat)
    returns (ok: bool, present: bool, pnum: nat)
    ensures pnum <= n
    ensures !present ==> forall i :: offset <= i < offset + pnum ==> Padded(old_, i) == Padded(new_, i)
  {
    ok := *;
    present := *;
    pnum := 0;
    if * {
      pnum :|
        pnum <= n && (!present ==> forall i :: offset <= i < offset + pnum ==> Padded(old_, i) == Padded(new_, i));
    }
  }

  /** Every unit that a write of differing chunks reaches reads differently over the two backing files. */
  lemma WriteReachesDifferences(
      old_: seq<byte>, new_: seq<byte>, u: nat, size: nat, a: nat, bo: seq<byte>, bn: seq<byte>,
      pnum: nat, k: nat, i: nat)
    requires u > 0 && a % u == 0 && |bo| == |bn| && a + |bo| <= size && IsRun(bo, bn, u, true, pnum)
    requires forall t: nat :: t < |bo| ==> bo[t] == Padded(old_, a + t) && bn[t] == Padded(new_, a + t)
    requires k <= pnum && i < size && Touched(i, a, k, u)
    ensures UnitDiffers(old_, new_, u, size, i)
  {
    var b := AlignDown(i, u);
    AlignDownUnique(a, a, u);
    if b < a { AlignedGap(b, a, u); }
    var last := AlignDown(a + k - 1, u);
    if last < b { AlignedGap(last, b, u); }
    var c := b - a;
    AlignedDifference(a, b, u);
    assert ChunkDiffers(bo, bn, u, c);
    var end := Min(c + u, |bo|);
    var t :| 0 <= t < end - c && bo[c..end][t] != bn[c..end][t];
    assert bo[c + t] != bn[c + t];
    AlignDownUnique(b + t, b, u);
    assert Padded(old_, b + t) != Padded(new_, b + t);
  }

  lemma AlignedDifference(a: nat, b: nat, u: nat)
    requires u > 0 && a % u == 0 && b % u == 0 && a <= b
    ensures (b - a) % u == 0
  {
    AlignedQuotient(a, u);
    AlignedQuotient(b, u);
    var d := b / u - a / u;
    assert b - a == d * u;
    MulBounds(d, u);
    MultipleMod(d, u);
  }

  /** What every write of a rebase from `backing` to `new_` keeps, between the first disk `d0` and the disk `d`. */
  ghost predicate Sound(d0: Disk, d: Disk, u: nat, backing: seq<byte>, new_: seq<byte>) {
    && WellFormed(d0, u) && WellFormed(d, u) && |d.data| == |d0.data|
    && View(d, backing) == View(d0, backing)
    && (forall i: nat :: i < |d0.data| && d0.alloc[i] ==> d.alloc[i])
    && (forall i: nat :: i < |d0.data| && d.alloc[i] && !d0.alloc[i] ==> UnitDiffers(backing, new_, u, |d0.data|, i))
  }

  /** Writing any part of a run of differing chunks, with the data of the old backing file, is sound. */
  lemma WriteKeepsSound(
      d0: Disk, d: Disk, u: nat, backing: seq<byte>, new_: seq<byte>, a: nat, bo: seq<byte>, bn: seq<byte>,
                        pnum: nat, k: nat)
    requires Sound(d0, d, u, backing, new_)
    requires a % u == 0 && |bo| == |bn| && a + |bo| <= |d.data| && IsRun(bo, bn, u, true, pnum) && k <= pnum
    requires forall t: nat :: t < |bo| ==> bo[t] == Padded(backing, a + t) && bn[t] == Padded(new_, a + t)
    requires forall t: nat :: t < pnum ==> bo[t] == ReadAt(d, backing, a + t)
    ensures
      var w := Written(d, backing, u, a, bo[..k]);
      && Sound(d0, w, u, backing, new_)
      && (forall i: nat :: i < |d.data| && d.alloc[i] ==> w.alloc[i])
      && (forall i: nat :: a <= i < a + k ==> w.alloc[i])
      && (forall i: nat :: i < |d.data| && w.alloc[i] && !d.alloc[i] ==> Touched(i, a, k, u))
  {
    WrittenReads(d, backing, u, a, bo[..k]);
    SameWriteSameView(d, backing, u, a, bo[..k]);
    forall i: nat | i < |d.data| && Touched(i, a, k, u)
      ensures UnitDiffers(backing, new_, u, |d.data|, i)
    {
      WriteReachesDifferences(backing, new_, u, |d.data|, a, bo, bn, pnum, k, i);
    }
    AlignDownUnique(a, a, u);
  }

  /**
  Writes the first `pnum` bytes of `bo`, a run of chunks that differ; past the old backing file with
  blk_pwrite_zeroes.
  */
  method WriteRun(ov: Overlay, ghost new_: seq<byte>, a: nat, bo: seq<byte>, ghost bn: seq<byte>, pnum: nat, eof: bool,
                  ghost d0: Disk) returns (ok: bool)
    requires ov.Valid() && Sound(d0, ov.disk, ov.unit, ov.backing, new_)
    requires a % ov.unit == 0 && |bo| == |bn| && a + |bo| <= |d0.data| && IsRun(bo, bn, ov.unit, true, pnum)
    requires forall t: nat :: t < |bo| ==> bo[t] == Padded(ov.backing, a + t) && bn[t] == Padded(new_, a + t)
    requires forall i: nat :: a <= i < a + |bo| ==> !d0.alloc[i]
    requires eof ==> a >= |ov.backing|
    modifies ov
    ensures ov.Valid() && ov.backing == old(ov.backing) && Sound(d0, ov.disk, ov.unit, ov.backing, new_)
    ensures ov.trace == old(ov.trace) + [Snapshot(ov.disk, ov.backing)]
    ensures forall i: nat :: i < |d0.data| && old(ov.disk).alloc[i] ==> ov.disk.alloc[i]
    ensures ok ==> forall i: nat :: a <= i < a + pnum ==> ov.disk.alloc[i]
  {
    var data := if eof then seq(pnum, _ => 0) else bo[..pnum];
    assert data == bo[..pnum];
    OldDataIsRead(d0, ov.disk, ov.unit, ov.backing, new_, a, bo);
    ghost var before, k: nat := ov.disk, pnum;
    ok := ov.Pwrite(a, data);
    if !ok {
      k :| k <= pnum && ov.disk == Written(before, ov.backing, ov.unit, a, data[..k]);
      assert data[..k] == bo[..k];
    }
    WriteKeepsSound(d0, before, ov.unit, ov.backing, new_, a, bo, bn, pnum, k);
  }

  /**
  One iteration of the copy loop: compares the rest of the buffers and writes the first run of chunks if they differ.
  */
  method CopyRun(ov: Overlay, new_: seq<byte>, a: nat, bo: seq<byte>, bn: seq<byte>, eof: bool, ghost d0: Disk)
    returns (ok: bool, pnum: nat)
    requires ov.Valid() && Sound(d0, ov.disk, ov.unit, ov.backing, new_)
    requires a % ov.unit == 0 && |bo| == |bn| > 0 && a + |bo| <= |d0.data|
    requires forall t: nat :: t < |bo| ==> bo[t] == Padded(ov.backing, a + t) && bn[t] == Padded(new_, a + t)
    requires forall i: nat :: a <= i < a + |bo| ==> !d0.alloc[i]
    requires eof ==> a >= |ov.backing|
    modifies ov
    ensures ov.Valid() && ov.backing == old(ov.backing) && Sound(d0, ov.disk, ov.unit, ov.backing, new_)
    ensures ov.trace == old(ov.trace) || ov.trace == old(ov.trace) + [Snapshot(ov.disk, ov.backing)]
    ensures forall i: nat :: i < |d0.data| && old(ov.disk).alloc[i] ==> ov.disk.alloc[i]
    ensures 0 < pnum <= |bo| && (pnum == |bo| || (a + pnum) % ov.unit == 0)
    ensures ok ==> forall i: nat :: a <= i < a + pnum ==> Settled(ov.disk, ov.backing, new_, i)
  {
    var differs;
    differs, pnum := CompareBuffers(bo, bn, ov.unit);
    ok := true;
    if differs {
      ok := WriteRun(ov, new_, a, bo, bn, pnum, eof, d0);
    } else {
      forall i: nat | a <= i < a + pnum
        ensures Settled(ov.disk, ov.backing, new_, i)
      {
        EqualRun(bo, bn, ov.unit, pnum, i - a);
      }
    }
    if pnum < |bo| { AlignedSum(a, pnum, ov.unit); }
  }

  /** The loop that copies the chunks that differ from the old backing file into the overlay. */
  method CopyChunks(
      ov: Overlay, new_: seq<byte>, offset: nat, bufOld: seq<byte>, bufNew: seq<byte>, ghost d0: Disk)
    returns (ok: bool)
    requires ov.Valid() && Sound(d0, ov.disk, ov.unit, ov.backing, new_)
    requires |bufOld| == |bufNew| && offset + |bufOld| <= |d0.data| && offset % ov.unit == 0
    requires forall t: nat :: t < |bufOld| ==>
      bufOld[t] == Padded(ov.backing, offset + t) && bufNew[t] == Padded(new_, offset + t)
    requires forall i: nat :: offset <= i < offset + |bufOld| ==> !d0.alloc[i]
    modifies ov
    ensures ov.Valid() && ov.backing == old(ov.backing) && Sound(d0, ov.disk, ov.unit, ov.backing, new_)
    ensures old(ov.trace) <= ov.trace && ov.AlwaysRead(|old(ov.trace)|, View(d0, ov.backing))
    ensures forall i: nat :: i < |d0.data| && old(ov.disk).alloc[i] ==> ov.disk.alloc[i]
    ensures ok ==> forall i: nat :: offset <= i < offset + |bufOld| ==> Settled(ov.disk, ov.backing, new_, i)
  {
    var n, written, eof := |bufOld|, 0, offset >= |ov.backing|;
    ok := true;
    while written < n
      invariant written <= n && (written == n || (offset + written) % ov.unit == 0)
      invariant ov.Valid() && ov.backing == old(ov.backing) && Sound(d0, ov.disk, ov.unit, ov.backing, new_)
      invariant old(ov.trace) <= ov.trace && ov.AlwaysRead(|old(ov.trace)|, View(d0, ov.backing))
      invariant forall i: nat :: i < |d0.data| && old(ov.disk).alloc[i] ==> ov.disk.alloc[i]
      invariant forall i: nat :: offset <= i < offset + written ==> Settled(ov.disk, ov.backing, new_, i)
      invariant eof ==> offset + written >= |ov.backing|
      invariant ok
    {
      ghost var before := ov.disk;
      var pnum;
      ok, pnum := CopyRun(ov, new_, offset + written, bufOld[written..], bufNew[written..], eof, d0);
      if !ok { return; }
      StaySettled(before, ov.disk, ov.backing, new_, offset, offset + written);
      written := written + pnum;
      if offset + written >= |ov.backing| {
        eof := true;
      }
    }
  }

  lemma StaySettled(d: Disk, d2: Disk, backing: seq<byte>, new_: seq<byte>, from: nat, to: nat)
    requires to <= |d.alloc| == |d2.alloc| && forall i: nat :: i < |d.alloc| && d.alloc[i] ==> d2.alloc[i]
    requires forall i: nat :: from <= i < to ==> Settled(d, backing, new_, i)
    ensures forall i: nat :: from <= i < to ==> Settled(d2, backing, new_, i)
  {
    forall i: nat | from <= i < to ensures Settled(d2, backing, new_, i) { assert Settled(d, backing, new_, i); }
  }

  /** The second half of a loop iteration: reads both backing files and copies what differs in [offset, offset + n). */
  method CopyDifferences(ov: Overlay, new_: seq<byte>, offset: nat, n: nat, ghost d0: Disk) returns (ok: bool)
    requires ov.Valid() && Sound(d0, ov.disk, ov.unit, ov.backing, new_)
    requires 0 < n <= IO_BUF_SIZE && offset + n <= |d0.data| && offset % ov.unit == 0
    requires forall i :: offset <= i < offset + n ==> !ov.disk.alloc[i]
    modifies ov
    ensures ov.Valid() && ov.backing == old(ov.backing) && Sound(d0, ov.disk, ov.unit, ov.backing, new_)
    ensures old(ov.trace) <= ov.trace && ov.AlwaysRead(|old(ov.trace)|, View(d0, ov.backing))
    ensures forall i: nat :: i < |d0.data| && old(ov.disk).alloc[i] ==> ov.disk.alloc[i]
    ensures ok ==> forall i: nat :: offset <= i < offset + n ==> Settled(ov.disk, ov.backing, new_, i)
  {
    var bufOld, bufNew;
    ok, bufOld := ReadBacking(ov.backing, offset, n);
    if !ok { return; }
    ok, bufNew := ReadBacking(new_, offset, n);
    if !ok { return; }
    ok := CopyChunks(ov, new_, offset, bufOld, bufNew, d0);
  }

  /** Where the overlay reads from the old backing file or was given its data, it reads the old data. */
  lemma OldDataIsRead(d0: Disk, d: Disk, u: nat, backing: seq<byte>, new_: seq<byte>, a: nat, bo: seq<byte>)
    requires Sound(d0, d, u, backing, new_) && a + |bo| <= |d.data|
    requires forall i: nat :: a <= i < a + |bo| ==> !d0.alloc[i]
    requires forall t: nat :: t < |bo| ==> bo[t] == Padded(backing, a + t)
    ensures forall t: nat :: t < |bo| ==> bo[t] == ReadAt(d, backing, a + t)
  {
    forall t: nat | t < |bo|
      ensures bo[t] == ReadAt(d, backing, a + t)
    {
      assert View(d, backing)[a + t] == View(d0, backing)[a + t];
    }
  }

  /** What the loop makes of an unallocated range: rounded out to units and cut to the image and the buffer. */
  function Extended(u: nat, size: nat, offset: nat, n: nat): (r: (nat, nat))
    requires u > 0 && offset + n <= size
  {
    var start := AlignDown(offset, u);
    (start, Min(AlignUp(offset + n, u) - start, Min(size - start, IO_BUF_SIZE)))
  }

  /** The extended range is unallocated as well: it reaches no allocated unit. */
  lemma ExtendedIsUnallocated(d: Disk, u: nat, offset: nat, n: nat)
    requires WellFormed(d, u) && 0 < n && offset + n <= |d.data|
    requires forall i :: offset <= i < offset + n ==> !d.alloc[i]
    ensures
      var (start, m) := Extended(u, |d.data|, offset, n);
      start + m <= |d.data| && 0 < m && forall i: nat :: start <= i < start + m ==> !d.alloc[i]
  {
    var (start, m) := Extended(u, |d.data|, offset, n);
    var end := offset + n;
    var last := AlignDown(end - 1, u);
    NextMultiple(last, u);
    if last + u < AlignUp(end, u) { AlignedGap(last + u, AlignUp(end, u), u); }
    forall i: nat | start <= i < start + m
      ensures !d.alloc[i]
    {
      if i < offset {
        AlignDownUnique(i, start, u);
        assert d.alloc[i] == d.alloc[offset];
      } else if i >= end {
        AlignDownUnique(i, last, u);
        assert d.alloc[i] == d.alloc[end - 1];
      }
    }
  }

  /** The extended range goes beyond the offset that led to it. */
  predicate Advances(u: nat, offset: nat)
    requires u > 0
  {
    offset - AlignDown(offset, u) < IO_BUF_SIZE
  }

  /** The extended range ends one buffer into the unit. */
  predicate CutToBuffer(u: nat, size: nat, offset: nat)
    requires u > 0
  {
    u > IO_BUF_SIZE && AlignDown(offset, u) + IO_BUF_SIZE <= size
  }

  /** The arithmetic that extends a range. */
  method ExtendRange(u: nat, size: nat, offset: nat, n: nat) returns (start: nat, m: nat)
    requires u > 0 && 0 < n && offset + n <= size
    ensures (start, m) == Extended(u, size, offset, n)
    ensures start <= offset && start % u == 0 && start + m <= size && 0 < m <= IO_BUF_SIZE
  {
    m := n + (offset - AlignDown(offset, u));
    start := AlignDown(offset, u);
    m := m + (AlignUp(start + m, u) - (start + m));
    m := Min(m, Min(size - start, IO_BUF_SIZE));
  }

  /** When the range goes beyond `offset`, and when it is as long as the buffer whatever the status query said. */
  lemma ExtendedAdvances(u: nat, size: nat, offset: nat, n: nat)
    requires u > 0 && 0 < n && offset + n <= size
    ensures
      var (start, m) := Extended(u, size, offset, n);
      && (offset < start + m <==> Advances(u, offset))
      && (CutToBuffer(u, size, offset) ==> m == IO_BUF_SIZE)
  {
    AlignedGap(AlignDown(offset, u), AlignUp(offset + n, u), u);
  }

  /** The loop makes progress from every offset exactly if units fit the buffer or the whole image does. */
  lemma AdvancesEverywhere(u: nat, size: nat)
    requires u > 0
    ensures (forall offset: nat :: offset < size ==> Advances(u, offset)) <==> u <= IO_BUF_SIZE || size <= IO_BUF_SIZE
  {
    if u > IO_BUF_SIZE && size > IO_BUF_SIZE {
      AlignDownUnique(IO_BUF_SIZE, 0, u);
      assert !Advances(u, IO_BUF_SIZE);
    }
  }

  /**
  The first half of a loop iteration: either [offset, offset + n) needs no copying, or
  [start, start + n) is the unallocated range around `offset` to compare and copy.
  */
  method NextRange(ov: Overlay, new_: seq<byte>, prefixChain: bool, offset: nat)
    returns (ok: bool, skip: bool, start: nat, n: nat)
    requires ov.Valid() && offset < |ov.disk.data|
    ensures ok ==> 0 < n <= IO_BUF_SIZE && start <= offset && start + n <= |ov.disk.data|
    ensures ok && skip ==>
      start == offset && forall i: nat :: offset <= i < offset + n ==> Settled(ov.disk, ov.backing, new_, i)
    ensures ok && !skip ==> start % ov.unit == 0 && forall i: nat :: start <= i < start + n ==> !ov.disk.alloc[i]
    ensures ok && !skip ==> (offset < start + n <==> Advances(ov.unit, offset))
    ensures ok && !skip && CutToBuffer(ov.unit, |ov.disk.data|, offset) ==>
      start + n == AlignDown(offset, ov.unit) + IO_BUF_SIZE
    ensures ok && skip && !prefixChain ==> ov.disk.alloc[offset]
  {
    start, skip := offset, false;
    n := Min(IO_BUF_SIZE, |ov.disk.data| - offset);
    var present;
    ok, present, n := ov.IsAllocated(offset, n);
    if !ok { return; }
    if present {
      skip := true;
      return;
    }
    if prefixChain {
      var bytes := n;
      ok, present, n := IsAllocatedAbove(ov.backing, new_, offset, n);
      if !ok { return; }
      if !present && n > 0 {
        skip := true;
        return;
      }
      if n == 0 {
        n := bytes;
      }
    }
    ExtendedIsUnallocated(ov.disk, ov.unit, offset, n);
    ExtendedAdvances(ov.unit, |ov.disk.data|, offset, n);
    start, n := ExtendRange(ov.unit, |ov.disk.data|, offset, n);
  }

  /** A completed loop leaves exactly the differing units allocated on top of those that were. */
  lemma ExactlyDifferencesCopied(d0: Disk, d: Disk, u: nat, backing: seq<byte>, new_: seq<byte>)
    requires Sound(d0, d, u, backing, new_)
    requires forall i: nat :: i < |d.data| ==> Settled(d, backing, new_, i)
    ensures View(d, new_) == View(d0, backing)
    ensures forall i: nat :: i < |d.data| ==>
      (d.alloc[i] <==> d0.alloc[i] || UnitDiffers(backing, new_, u, |d.data|, i))
  {
    SettledReadsSame(d, backing, new_);
    forall i: nat | i < |d.data| && UnitDiffers(backing, new_, u, |d.data|, i)
      ensures d.alloc[i]
    {
      var j: nat :| j < |d.data| && AlignDown(j, u) == AlignDown(i, u) && Padded(backing, j) != Padded(new_, j);
      assert Settled(d, backing, new_, j);
    }
  }

  /** One iteration of the loop of img_rebase, from `offset` to `next`; `d0` is the disk before the loop. */
  method Iterate(ov: Overlay, new_: seq<byte>, prefixChain: bool, offset: nat, ghost d0: Disk)
    returns (ok: bool, next: nat)
    requires ov.Valid() && Sound(d0, ov.disk, ov.unit, ov.backing, new_) && offset < |d0.data|
    requires forall i: nat :: i < offset ==> Settled(ov.disk, ov.backing, new_, i)
    modifies ov
    ensures ov.Valid() && ov.backing == old(ov.backing) && Sound(d0, ov.disk, ov.unit, ov.backing, new_)
    ensures old(ov.trace) <= ov.trace && ov.AlwaysRead(|old(ov.trace)|, View(d0, ov.backing))
    ensures ok ==> next <= |d0.data| && forall i: nat :: i < next ==> Settled(ov.disk, ov.backing, new_, i)
    ensures ok && Advances(ov.unit, offset) ==> offset < next
    ensures ok && !old(ov.disk).alloc[offset] && !prefixChain && CutToBuffer(ov.unit, |d0.data|, offset) ==>
      next == AlignDown(offset, ov.unit) + IO_BUF_SIZE
  {
    ghost var before := ov.disk;
    var skip, start, n;
    next := offset;
    ok, skip, start, n := NextRange(ov, new_, prefixChain, offset);
    if !ok { return; }
    if !skip {
      ok := CopyDifferences(ov, new_, start, n, d0);
      if !ok { return; }
    }
    StaySettled(before, ov.disk, ov.backing, new_, 0, start);
    next := start + n;
  }

  /**
  img_rebase without -u, for units that fit the buffer or images that do.  Whatever the allocation queries answer and
  wherever an operation fails, the image always reads as before, after every single write as well; and when it
  succeeds, the image has the new backing file and exactly the allocation units that differ between the backing files
  have been added to the overlay.
  */
  method SafeRebase(ov: Overlay, new_: seq<byte>, prefixChain: bool) returns (ok: bool)
    requires ov.Valid() && (ov.unit <= IO_BUF_SIZE || |ov.disk.data| <= IO_BUF_SIZE)
    modifies ov
    ensures ov.Valid() && ov.backing == if ok then new_ else old(ov.backing)
    ensures ov.Contents() == old(ov.Contents())
    ensures old(ov.trace) <= ov.trace && ov.AlwaysRead(|old(ov.trace)|, old(ov.Contents()))
    ensures |ov.disk.data| == |old(ov.disk).data|
    ensures ok ==> forall i: nat :: i < |ov.disk.data| ==>
      (ov.disk.alloc[i] <==>
         old(ov.disk).alloc[i] || UnitDiffers(old(ov.backing), new_, ov.unit, |ov.disk.data|, i))
  {
    ghost var d0 := ov.disk;
    var size := |ov.disk.data|;
    var offset := 0;
    AdvancesEverywhere(ov.unit, size);
    while offset < size
      invariant offset <= size
      invariant ov.Valid() && ov.backing == old(ov.backing) && Sound(d0, ov.disk, ov.unit, ov.backing, new_)
      invariant old(ov.trace) <= ov.trace && ov.AlwaysRead(|old(ov.trace)|, View(d0, ov.backing))
      invariant forall i: nat :: i < offset ==> Settled(ov.disk, ov.backing, new_, i)
    {
      assert Advances(ov.unit, offset);
      ok, offset := Iterate(ov, new_, prefixChain, offset, d0);
      if !ok { return; }
    }
    ExactlyDifferencesCopied(d0, ov.disk, ov.unit, ov.backing, new_);
    ok := ov.ChangeBackingFile(new_);
  }

  /**
  For all other units and sizes there are images on which the loop does not end: with nothing allocated and backing
  files that read the same, it stands at one buffer into the first unit after any number of iterations, having allocated
  nothing.
  */
  method LargeUnitsStall(ov: Overlay, new_: seq<byte>, iterations: nat) returns (ok: bool, offset: nat)
    requires ov.Valid() && ov.unit > IO_BUF_SIZE && |ov.disk.data| > IO_BUF_SIZE
    requires forall i: nat :: i < |ov.disk.data| ==> !ov.disk.alloc[i] && Padded(ov.backing, i) == Padded(new_, i)
    modifies ov
    ensures ov.Valid() && |ov.disk.data| == |old(ov.disk).data| && ov.disk.alloc == old(ov.disk).alloc
    ensures ok ==> offset == (if iterations == 0 then 0 else IO_BUF_SIZE) < |ov.disk.data|
  {
    ghost var d0 := ov.disk;
    ok, offset := true, 0;
    AlignDownUnique(0, 0, ov.unit);
    AlignDownUnique(IO_BUF_SIZE, 0, ov.unit);
    for k := 0 to iterations
      invariant ok && offset == (if k == 0 then 0 else IO_BUF_SIZE)
      invariant ov.Valid() && ov.backing == old(ov.backing) && Sound(d0, ov.disk, ov.unit, ov.backing, new_)
      invariant ov.disk.alloc == d0.alloc
    {
      ok, offset := Iterate(ov, new_, false, offset, d0);
      NothingDiffers(d0, ov.disk, ov.unit, ov.backing, new_);
      if !ok { return; }
    }
  }

  /** A sound disk has nothing more allocated if the backing files read the same. */
  lemma NothingDiffers(d0: Disk, d: Disk, u: nat, backing: seq<byte>, new_: seq<byte>)
    requires Sound(d0, d, u, backing, new_)
    requires forall i: nat :: i < |d0.data| ==> Padded(backing, i) == Padded(new_, i)
    ensures d.alloc == d0.alloc
  {
    forall i: nat | i < |d0.data|
      ensures d.alloc[i] == d0.alloc[i]
    {
      assert !UnitDiffers(backing, new_, u, |d0.data|, i);
    }
  }
}
