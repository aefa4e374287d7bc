/** Converting images: reading the concatenated sources, skipping zeroes and writing the target. */
module Convert {
  import opened Alignment
  import opened Buffers
  import opened Sparse

  const REQUEST_MAX_SECTORS: nat := 4194303

  // ---------------------------------------------------------------------------------------------
  // The sources as one image

  function Concat(src: seq<seq<Sector>>): seq<Sector> {
    if src == [] then [] else src[0] + Concat(src[1..])
  }

  /** The sectors before source `k`. */
  function Before(src: seq<seq<Sector>>, k: nat): nat
    requires k <= |src|
  {
    if k == 0 then 0 else Before(src, k - 1) + |src[k - 1]|
  }

  lemma {:induction false} ConcatIs(src: seq<seq<Sector>>, k: nat)
    requires k <= |src|
    ensures |Concat(src[..k])| == Before(src, k) && Concat(src) == Concat(src[..k]) + Concat(src[k..])
    decreases k
  {
    if k == 0 {
      assert src[..0] == [] && src[0..] == src;
    } else {
      ConcatIs(src, k - 1);
      ConcatAppend(src[..k - 1], src[k - 1]);
      assert src[..k] == src[..k - 1] + [src[k - 1]];
      assert src[k - 1..][0] == src[k - 1] && src[k - 1..][1..] == src[k..];
    }
  }

  lemma {:induction false} ConcatAppend(a: seq<seq<Sector>>, b: seq<Sector>)
    ensures Concat(a + [b]) == Concat(a) + b
    decreases |a|
  {
    if a == [] {
      assert [] + [b] == [b] && [b][1..] == [];
    } else {
      assert (a + [b])[1..] == a[1..] + [b];
      ConcatAppend(a[1..], b);
    }
  }

  lemma Slice(a: seq<Sector>, b: seq<Sector>, c: seq<Sector>, from: nat, n: nat)
    requires from + n <= |b|
    ensures (a + (b + c))[|a| + from..|a| + from + n] == b[from..from + n]
  {
  }

  lemma ConcatFrom(src: seq<seq<Sector>>, k: nat)
    requires k < |src|
    ensures Concat(src[k..]) == src[k] + Concat(src[k + 1..])
  {
  }

  /** A part of one source is the same part of the concatenation. */
  lemma PartOfConcat(src: seq<seq<Sector>>, k: nat, from: nat, n: nat)
    requires k < |src| && from + n <= |src[k]|
    ensures Before(src, k) + from + n <= |Concat(src)|
    ensures Concat(src)[Before(src, k) + from..Before(src, k) + from + n] == src[k][from..from + n]
  {
    ConcatIs(src, k);
    ConcatFrom(src, k);
    Slice(Concat(src[..k]), src[k], Concat(src[k + 1..]), from, n);
  }

  /** Sector `sector` of the concatenation lies in source `k`. */
  predicate IsIn(src: seq<seq<Sector>>, k: nat, sector: nat) {
    k < |src| && Before(src, k) <= sector < Before(src, k) + |src[k]|
  }

  lemma {:induction false} LaterPart(src: seq<seq<Sector>>, j: nat, k: nat)
    requires j < k <= |src|
    ensures Before(src, j) + |src[j]| <= Before(src, k)
    decreases k
  {
    if j < k - 1 { LaterPart(src, j, k - 1); }
  }

  lemma OnePart(src: seq<seq<Sector>>, j: nat, k: nat, sector: nat)
    requires IsIn(src, j, sector) && IsIn(src, k, sector)
    ensures j == k
  {
    if j < k { LaterPart(src, j, k); }
    if k < j { LaterPart(src, k, j); }
  }

  /** convert_select_part */
  method SelectPart(src: seq<seq<Sector>>, sector: nat) returns (cur: nat, offset: nat)
    requires sector < |Concat(src)|
    ensures IsIn(src, cur, sector) && offset == Before(src, cur)
  {
    cur, offset := 0, 0;
    ConcatIs(src, |src|);
    assert src[..|src|] == src && src[|src|..] == [];
    while sector - offset >= |src[cur]|
      invariant cur < |src| && offset == Before(src, cur) && offset <= sector
      decreases |src| - cur
    {
      offset := offset + |src[cur]|;
      cur := cur + 1;
    }
  }

  // ---------------------------------------------------------------------------------------------
  // What a write leaves

  /**
  `after` is `before` with `want` at `start`.  What the target shows from the start, which is `init`, need not be
  written.
  */
  ghost predicate Written(init: seq<Sector>, before: seq<Sector>, after: seq<Sector>, start: nat, want: seq<Sector>)
    requires start + |want| <= |before| == |init|
  {
    && |after| == |before| && after[..start] == before[..start] && after[start + |want|..] == before[start + |want|..]
    && forall k :: 0 <= k < |want| ==>
         after[start + k] == want[k] || (after[start + k] == before[start + k] && want[k] == init[start + k])
  }

  /** `after` is `before` except perhaps for the `n` sectors at `start`. */
  ghost predicate SameOutside(before: seq<Sector>, after: seq<Sector>, start: nat, n: nat)
    requires start + n <= |before|
  {
    |after| == |before| && after[..start] == before[..start] && after[start + n..] == before[start + n..]
  }

  lemma WrittenChain(
      init: seq<Sector>, t0: seq<Sector>, t1: seq<Sector>, t2: seq<Sector>, start: nat, want: seq<Sector>, k: nat,
      n: nat)
    requires start + |want| <= |t0| == |init| && k + n <= |want| && |t1| == |t0|
    requires Written(init, t0, t1, start, want[..k]) && Written(init, t1, t2, start + k, want[k..k + n])
    ensures Written(init, t0, t2, start, want[..k + n])
  {
  }

  lemma NothingWritten(init: seq<Sector>, t: seq<Sector>, start: nat, want: seq<Sector>)
    requires start + |want| <= |t| == |init|
    ensures Written(init, t, t, start, want[..0])
  {
  }

  lemma AllWritten(init: seq<Sector>, before: seq<Sector>, after: seq<Sector>, start: nat, want: seq<Sector>)
    requires start + |want| <= |before| == |init| && Written(init, before, after, start, want[..|want|])
    ensures Written(init, before, after, start, want) && SameOutside(before, after, start, |want|)
  {
    assert want[..|want|] == want;
  }

  lemma MoreWritten(
      init: seq<Sector>, t0: seq<Sector>, t1: seq<Sector>, t2: seq<Sector>, start: nat, want: seq<Sector>, k: nat,
      n: nat)
    requires start + |want| <= |t0| == |init| && k + n <= |want| && |t1| == |t0|
    requires Written(init, t0, t1, start, want[..k]) && Written(init, t1, t2, start + k, want[k..][..n])
    ensures Written(init, t0, t2, start, want[..k + n])
  {
    assert want[k..][..n] == want[k..k + n];
    WrittenChain(init, t0, t1, t2, start, want, k, n);
  }

  lemma ChunkWritten(init: seq<Sector>, before: seq<Sector>, after: seq<Sector>, start: nat, want: seq<Sector>)
    requires start + |want| <= |before| == |init|
    requires (SameOutside(before, after, start, |want|) && after[start..start + |want|] == want) ||
      (init[start..start + |want|] == want && after == before)
    ensures Written(init, before, after, start, want)
  {
    forall k | 0 <= k < |want|
      ensures after[start + k] == want[k] || (after[start + k] == before[start + k] && want[k] == init[start + k])
    {
      assert after[start..start + |want|][k] == after[start + k];
      assert init[start..start + |want|][k] == init[start + k];
    }
  }

  lemma FailedInside(
      init: seq<Sector>, t0: seq<Sector>, t1: seq<Sector>, t2: seq<Sector>, start: nat, want: seq<Sector>, k: nat,
      n: nat)
    requires start + |want| <= |t0| == |init| && k + n <= |want| && |t1| == |t0|
    requires Written(init, t0, t1, start, want[..k]) && SameOutside(t1, t2, start + k, n)
    ensures SameOutside(t0, t2, start, |want|)
  {
  }

  // ---------------------------------------------------------------------------------------------
  // What is lost

  /** Sector `k` of the image is `x`, or it cannot be read and `x` is zero instead. */
  predicate Salvages(image: seq<Sector>, bad: set<nat>, k: nat, x: Sector)
    requires k < |image|
  {
    x == image[k] || (k in bad && IsZero(x))
  }

  /** `part` is what there is to be had of the sectors from `start` on. */
  ghost predicate Salvaged(image: seq<Sector>, bad: set<nat>, start: nat, part: seq<Sector>)
    requires start + |part| <= |image|
  {
    forall k {:trigger part[k]} :: 0 <= k < |part| ==> Salvages(image, bad, start + k, part[k])
  }

  lemma SalvagedAll(image: seq<Sector>, part: seq<Sector>)
    requires |part| == |image| && Salvaged(image, {}, 0, part)
    ensures part == image
  {
    forall k | 0 <= k < |part| ensures part[k] == image[k] { assert Salvages(image, {}, 0 + k, part[k]); }
  }

  lemma SalvagedAppend(image: seq<Sector>, bad: set<nat>, start: nat, part: seq<Sector>, more: seq<Sector>)
    requires start + |part| + |more| <= |image|
    requires Salvaged(image, bad, start, part) && Salvaged(image, bad, start + |part|, more)
    ensures Salvaged(image, bad, start, part + more)
  {
    var all := part + more;
    forall k | 0 <= k < |all|
      ensures Salvages(image, bad, start + k, all[k])
    {
      if k < |part| {
        assert all[k] == part[k];
      } else {
        assert all[k] == more[k - |part|];
        assert Salvages(image, bad, start + |part| + (k - |part|), more[k - |part|]);
      }
    }
  }

  lemma SalvagedPart(image: seq<Sector>, bad: set<nat>, start: nat, part: seq<Sector>)
    requires start + |part| <= |image| && part == image[start..start + |part|]
    ensures Salvaged(image, bad, start, part)
  {
  }

  /** Another part has been written: what comes after it is still as at the start. */
  lemma CopyGrows(
      image: seq<Sector>, bad: set<nat>, init: seq<Sector>, before: seq<Sector>, after: seq<Sector>, sector: nat,
      want: seq<Sector>)
    requires |before| == |init| == |image| && sector + |want| <= |image| && Salvaged(image, bad, sector, want)
    requires Written(init, before, after, sector, want)
    requires Salvaged(image, bad, 0, before[..sector]) && before[sector..] == init[sector..]
    ensures |after| == |image| && Salvaged(image, bad, 0, after[..sector + |want|])
    ensures after[sector + |want|..] == init[sector + |want|..]
  {
    var end := sector + |want|;
    forall k | 0 <= k < |want|
      ensures after[sector + k] == want[k]
    {
      assert before[sector..][k] == init[sector..][k];
    }
    assert after[..end] == after[..sector] + want;
    SalvagedAppend(image, bad, 0, before[..sector], want);
    assert init[end..] == init[sector..][|want|..] && before[end..] == before[sector..][|want|..];
  }

  // ---------------------------------------------------------------------------------------------
  // The conversion's shared state

  datatype Status = Data | Zero | BackingFile

  /** What bdrv_block_status_above says: BDRV_BLOCK_ZERO, BDRV_BLOCK_DATA, or neither. */
  datatype Answer = SaysZero | SaysData | SaysNothing

  /** The length is cut so that the end is aligned, unless that would leave nothing. */
  function WithoutTail(from: nat, n: nat, alignment: nat): (r: nat)
    requires n > 0 && alignment > 0
    ensures 0 < r <= n
  {
    var tail := (from + n) % alignment;
    if n > tail then n - tail else n
  }

  class ImgConvert {
    const src: seq<seq<Sector>>
    const srcAlignment: seq<nat>
    const own: set<nat>          // the sectors that a source does not take from its backing file
    const bad: set<nat>          // the sectors that reads can fail on
    const salvage: bool
    const minSparse: nat
    const alignment: nat
    const compressed: bool
    const clusterSectors: nat
    const bufSectors: nat
    const zeroInit: bool
    const hasBacking: bool       // the target has a backing file
    const backingSectors: int    // its length, or negative
    const init: seq<Sector>      // what the target shows at the start, through its backing file if it has one
    var status: Status
    var sectorNextStatus: nat
    var target: seq<Sector>

    constructor (
        src: seq<seq<Sector>>, srcAlignment: seq<nat>, own: set<nat>, bad: set<nat>, salvage: bool, minSparse: nat,
        alignment: nat, compressed: bool, clusterSectors: nat, bufSectors: nat, zeroInit: bool, hasBacking: bool,
        backingSectors: int, target: seq<Sector>)
      ensures this.src == src && this.srcAlignment == srcAlignment && this.own == own && this.bad == bad
      ensures this.salvage == salvage && this.minSparse == minSparse && this.alignment == alignment
      ensures this.compressed == compressed && this.clusterSectors == clusterSectors && this.bufSectors == bufSectors
      ensures this.zeroInit == zeroInit && this.hasBacking == hasBacking && this.backingSectors == backingSectors
      ensures this.target == this.init == target && sectorNextStatus == 0
    {
      this.src, this.srcAlignment, this.own, this.bad, this.salvage := src, srcAlignment, own, bad, salvage;
      this.minSparse, this.alignment, this.compressed := minSparse, alignment, compressed;
      this.clusterSectors, this.bufSectors, this.zeroInit := clusterSectors, bufSectors, zeroInit;
      this.hasBacking, this.backingSectors, this.init := hasBacking, backingSectors, target;
      this.target, status, sectorNextStatus := target, Data, 0;
    }

    /** The settings make sense, as convert_do_copy and the command line see to. */
    ghost predicate Sane() {
      && |srcAlignment| == |src| && (forall k :: 0 <= k < |src| ==> srcAlignment[k] > 0)
      && alignment > 0 && bufSectors > 0
      && (compressed ==> bufSectors == clusterSectors)
      && |init| == |Concat(src)| && (zeroInit ==> !hasBacking && Zeroes(init)) && BackingFits()
    }

    /**
    The backing file of the target has the contents of the backing file of the source, which is what the user vouches
    for, and a new target shows zeroes behind the end of its backing file.
    */
    ghost predicate BackingFits()
      requires |init| == |Concat(src)|
    {
      && (hasBacking ==> |src| == 1 && forall k {:trigger init[k]} :: 0 <= k < |init| && k !in own ==>
            init[k] == Concat(src)[k])
      && (backingSectors >= 0 ==> hasBacking && forall k :: backingSectors <= k < |init| ==> IsZero(init[k]))
    }

    /** The sectors that salvage may lose. */
    function Lossy(): set<nat> {
      if salvage then bad else {}
    }

    /** From `sector` to `end`, the target shows the source at the start. */
    ghost predicate Shows(sector: nat, end: nat) {
      sector < end ==>
        hasBacking && end <= |init| == |Concat(src)| && forall k :: sector <= k < end ==> init[k] == Concat(src)[k]
    }

    /** The status `part` is right for the sectors from `sector` to `end`. */
    ghost predicate Right(part: Status, sector: nat, end: nat) {
      && end <= |Concat(src)|
      && (part.Zero? ==> forall k :: sector <= k < end ==> IsZero(Concat(src)[k]))
      && (part.BackingFile? ==> Shows(sector, end))
    }

    /** The remembered status is right for all sectors from `sector` on that it is for. */
    ghost predicate Knows(sector: nat)
      reads this
    {
      Right(status, sector, sectorNextStatus)
    }

    /** An answer about `n` sectors at `from` in source `cur`, the first of which is `sector`, is sound. */
    predicate Sound(cur: nat, from: nat, sector: nat, n: nat, answer: Answer)
      requires cur < |src|
    {
      && from + n <= |src[cur]|
      && (answer.SaysZero? ==> Zeroes(src[cur][from..from + n]))
      && (answer.SaysNothing? && hasBacking ==> forall k :: sector <= k < sector + n ==> k !in own)
    }

    /**
    bdrv_block_status_above at `from` in source `cur`, down to the backing file of the source if the target has one,
    and else down to the end: an answer for some length, or a failure.  It may miss zeroes, but what it calls zero is.
    */
    method BlockStatus(cur: nat, from: nat, sector: nat, n: nat) returns (ok: bool, pnum: nat, answer: Answer)
      requires cur < |src| && from < |src[cur]| && n > 0
      ensures ok ==> 0 < pnum <= n && Sound(cur, from, sector, pnum, answer)
    {
      ok, pnum, answer := *, *, *;
      if ok && !(0 < pnum <= n && Sound(cur, from, sector, pnum, answer)) {
        pnum, answer := 1, SaysData;
      }
    }

    /** The loop of convert_iteration_sectors: with salvage, a query that fails is repeated on a shorter range. */
    method SalvageStatus(cur: nat, from: nat, sector: nat, max: nat) returns (ok: bool, pnum: nat, answer: Answer)
      requires cur < |src| && from < |src[cur]| && max > 0
      ensures ok ==> 0 < pnum <= max && Sound(cur, from, sector, pnum, answer)
      ensures salvage ==> ok
    {
      var n := max;
      ok, pnum, answer := BlockStatus(cur, from, sector, n);
      while !ok && salvage
        invariant 0 < n <= max && (ok ==> 0 < pnum <= max && Sound(cur, from, sector, pnum, answer))
        decreases if ok then 0 else n
      {
        if n == 1 {
          ok, pnum, answer := true, 1, SaysData;
        } else {
          n := (n + 3) / 4;
          ok, pnum, answer := BlockStatus(cur, from, sector, n);
        }
      }
    }

    /** What convert_iteration_sectors makes of an answer. */
    function StatusFor(answer: Answer, postBacking: bool): Status {
      match answer
      case SaysZero => if postBacking then BackingFile else Zero
      case SaysData => Data
      case SaysNothing => if hasBacking then BackingFile else Data
    }

    lemma AnswerIsRight(cur: nat, sector: nat, n: nat, answer: Answer, postBacking: bool)
      requires Sane() && IsIn(src, cur, sector) && Sound(cur, sector - Before(src, cur), sector, n, answer)
      requires postBacking ==> 0 <= backingSectors <= sector
      ensures Right(StatusFor(answer, postBacking), sector, sector + n)
    {
      var from := sector - Before(src, cur);
      PartOfConcat(src, cur, from, n);
      if answer.SaysZero? { ZeroFrom(Concat(src), src[cur], sector, from, n); }
    }

    /** The part of convert_iteration_sectors that finds the status of at most `max` sectors from `sector` on. */
    method FindStatus(sector: nat, max: nat, postBacking: bool) returns (ok: bool, n: nat)
      requires Sane() && sector < |Concat(src)| && max > 0
      requires postBacking ==> 0 <= backingSectors <= sector
      modifies this`status, this`sectorNextStatus
      ensures !ok ==> sectorNextStatus == old(sectorNextStatus)
      ensures ok ==> 0 < n <= max && sectorNextStatus == sector + n && Knows(sector)
      ensures salvage ==> ok
    {
      var cur, offset := SelectPart(src, sector);
      var pnum, answer;
      ok, pnum, answer := SalvageStatus(cur, sector - offset, sector, max);
      n := pnum;
      if !ok { return; }
      AnswerIsRight(cur, sector, pnum, answer, postBacking);
      n := WithoutTail(sector - offset, pnum, srcAlignment[cur]);
      status := StatusFor(answer, postBacking);
      sectorNextStatus := sector + n;
    }

    /**
    convert_iteration_sectors: the next part to convert is not empty, stays inside the image, fits the buffer if it
    is data, is zero if it is said to be, and is what the target shows already if it is left to the backing file.
    */
    method IterationSectors(sector: nat) returns (ok: bool, n: nat)
      requires Sane() && Knows(sector) && sector < |Concat(src)|
      modifies this`status, this`sectorNextStatus
      ensures ok ==> 0 < n && sector + n <= |Concat(src)| && Knows(sector + n)
      ensures ok && status.Data? ==> n <= bufSectors
      ensures ok ==> Right(status, sector, sector + n)
      ensures salvage ==> ok
    {
      ok := true;
      var total := |Concat(src)|;
      n := Min(total - sector, REQUEST_MAX_SECTORS);
      var postBacking := false;
      if backingSectors >= 0 {
        if sector >= backingSectors {
          postBacking := true;
        } else if sector + n > backingSectors {
          n := backingSectors - sector;
        }
      }
      if sectorNextStatus <= sector {
        ok, n := FindStatus(sector, n, postBacking);
        if !ok { return; }
      }
      n := Min(n, sectorNextStatus - sector);
      if status.Data? {
        n := Min(n, bufSectors);
      }
      if compressed {
        if n < clusterSectors {
          n := Min(clusterSectors, total - sector);
          status := Data;
        } else {
          n := AlignDown(n, clusterSectors);
        }
      }
    }

    /**
    The first part of convert_do_copy, which counts what there is to copy; the status found last is then forgotten.
    */
    method CountAllocated() returns (ok: bool, toCopy: nat)
      requires Sane() && Knows(0)
      modifies this`status, this`sectorNextStatus
      ensures ok ==> toCopy <= |Concat(src)| && Knows(0)
      ensures salvage ==> ok
    {
      var sector := 0;
      toCopy, ok := 0, true;
      while sector < |Concat(src)|
        invariant toCopy <= sector <= |Concat(src)| && Knows(sector) && ok
        decreases |Concat(src)| - sector
      {
        var n;
        ok, n := IterationSectors(sector);
        if !ok { return; }
        if MustFit(status) {
          toCopy := toCopy + n;
        }
        sector := sector + n;
      }
      sectorNextStatus := 0;
    }

    /** blk_co_pread of `n` sectors at `from` in source `cur`, the first of which is `sector` */
    method Pread(cur: nat, from: nat, sector: nat, n: nat) returns (ok: bool, buf: seq<Sector>)
      requires cur < |src| && from + n <= |src[cur]|
      ensures ok ==> buf == src[cur][from..from + n]
      ensures !ok ==> exists k :: sector <= k < sector + n && k in bad
    {
      ok, buf := *, src[cur][from..from + n];
      if !ok && forall k :: sector <= k < sector + n ==> k !in bad {
        ok := true;
      }
    }

    /**
    convert_co_read: reads a part of the concatenation.  With salvage, a read that fails is repeated sector by sector,
    and a sector that cannot be read is taken to be zero.
    */
    method CoRead(sector: nat, nb: nat) returns (ok: bool, buf: seq<Sector>)
      requires sector + nb <= |Concat(src)| && nb <= bufSectors
      ensures ok ==> |buf| == nb && Salvaged(Concat(src), Lossy(), sector, buf)
      ensures salvage || (forall k :: sector <= k < sector + nb ==> k !in bad) ==> ok
    {
      buf, ok := [], true;
      var done, singleUntil := 0, 0;
      ghost var tried, at := false, 0;
      while done < nb
        invariant done <= nb && |buf| == done && Salvaged(Concat(src), Lossy(), sector, buf) && ok
        invariant tried ==> IsIn(src, at, sector + done) && sector + done < Before(src, at) + singleUntil
        decreases nb - done, if tried then 0 else 1
      {
        var cur, offset := SelectPart(src, sector + done);
        var from := sector + done - offset;
        var n := Min(nb - done, |src[cur]| - from);
        if tried { OnePart(src, at, cur, sector + done); }
        if singleUntil > from {
          n := 1;
        }
        var more;
        ok, more := Pread(cur, from, sector + done, n);
        if !ok {
          if !salvage { return; }
          ok := true;
          if n > 1 {
            singleUntil := from + n;
            tried, at := true, cur;
            continue;
          }
          more := [ZeroSector];
        }
        PartOfConcat(src, cur, from, n);
        SalvagedAppend(Concat(src), Lossy(), sector, buf, more);
        buf, done, tried := buf + more, done + n, false;
      }
    }

    /**
    blk_co_pwrite, and blk_co_pwrite_zeroes with zeroes for a buffer; a failing write leaves anything in its place
    */
    method Pwrite(start: nat, buf: seq<Sector>) returns (ok: bool)
      requires start + |buf| <= |target|
      modifies this`target
      ensures SameOutside(old(target), target, start, |buf|)
      ensures ok ==> target[start..start + |buf|] == buf
    {
      ok := *;
      var left: seq<Sector> := *;
      if ok || |left| != |buf| { left := buf; }
      target := target[..start] + left + target[start + |buf|..];
    }

    /** What the part of the target at `sector` is to hold, and how convert_co_write is told of it. */
    ghost predicate Wanted(sector: nat, buf: seq<Sector>, part: Status, want: seq<Sector>) {
      && sector + |want| <= |init|
      && match part
         case Data => buf == want
         case Zero => Zeroes(want)
         case BackingFile => (want != [] ==> hasBacking) && want == init[sector..sector + |want|]
    }

    lemma WantedRest(sector: nat, buf: seq<Sector>, part: Status, want: seq<Sector>, done: nat)
      requires Wanted(sector, buf, part, want) && done <= |want|
      ensures Wanted(sector + done, if part.Data? then buf[done..] else [], part, want[done..])
    {
      if part.BackingFile? { assert want[done..] == init[sector + done..sector + |want|]; }
    }

    /**
    The body of the loop of convert_co_write: writes the next part of the `left` sectors that are left, or finds that
    it need not.
    */
    method WritePart(sector: nat, left: nat, buf: seq<Sector>, part: Status, ghost want: seq<Sector>)
      returns (ok: bool, n: nat)
      requires Sane() && 0 < left == |want| && sector + left <= |target| == |init| && Wanted(sector, buf, part, want)
      modifies this`target
      ensures 0 < n <= left && SameOutside(old(target), target, sector, n)
      ensures ok ==> Written(init, old(target), target, sector, want[..n])
    {
      n, ok := left, true;
      var write := false;
      if part.Data? {
        if minSparse == 0 {
          write := true;
        } else if !compressed {
          write, n := IsAllocatedSectorsMin(buf, minSparse, sector, alignment);
        } else {
          write := !Zeroes(buf);
        }
      }
      if write {
        ok := Pwrite(sector, buf[..n]);
      } else if !part.BackingFile? && !zeroInit {
        ok := Pwrite(sector, seq(n, _ => ZeroSector));
      }
      if ok {
        assert !write && !part.BackingFile? ==> want[..n] == seq(n, _ => ZeroSector);
        assert part.BackingFile? ==> init[sector..sector + n] == want[..n];
        assert zeroInit ==> init[sector..sector + n] == seq(n, _ => ZeroSector);
        ChunkWritten(init, old(target), target, sector, want[..n]);
      }
    }

    /**
    convert_co_write: on success the part of the target holds what it is to hold, perhaps because it showed that from
    the start.
    */
    method CoWrite(sector: nat, nb: nat, buf: seq<Sector>, part: Status, ghost want: seq<Sector>) returns (ok: bool)
      requires Sane() && nb == |want| && sector + nb <= |target| == |init| && Wanted(sector, buf, part, want)
      modifies this`target
      ensures SameOutside(old(target), target, sector, nb)
      ensures ok ==> Written(init, old(target), target, sector, want)
    {
      var done := 0;
      ok := true;
      NothingWritten(init, target, sector, want);
      while done < nb
        invariant done <= nb && |target| == |old(target)| && ok
        invariant Written(init, old(target), target, sector, want[..done])
        decreases nb - done
      {
        ghost var before := target;
        var n, rest := 0, if part.Data? then buf[done..] else [];
        WantedRest(sector, buf, part, want, done);
        ok, n := WritePart(sector + done, nb - done, rest, part, want[done..]);
        if !ok {
          FailedInside(init, old(target), before, target, sector, want, done, n);
          return;
        }
        MoreWritten(init, old(target), before, target, sector, want, done, n);
        done := done + n;
      }
      AllWritten(init, old(target), target, sector, want);
    }

    /** A part with this status goes through the buffer. */
    predicate MustFit(part: Status) {
      part.Data? || (minSparse == 0 && part.Zero?)
    }

    /**
    What convert_co_do_copy does with a part that it has claimed: reads it if it is data, and writes it; `want` is
    what the part of the target is then to hold.
    */
    method CopyPart(sector: nat, n: nat, found: Status) returns (ok: bool, ghost want: seq<Sector>)
      requires Sane() && |target| == |Concat(src)| && Right(found, sector, sector + n)
      requires MustFit(found) ==> n <= bufSectors
      modifies this`target
      ensures ok ==>
        && |want| == n && Salvaged(Concat(src), Lossy(), sector, want)
        && Written(init, old(target), target, sector, want)
    {
      var part, buf := found, [];
      want := [];
      if found.Data? {
        ok, buf := CoRead(sector, n);
        if !ok { return; }
        want := buf;
      } else {
        want := Concat(src)[sector..sector + n];
        SalvagedPart(Concat(src), Lossy(), sector, want);
        if found.Zero? && minSparse == 0 {
          part, buf := Data, seq(n, _ => ZeroSector);
          assert buf == want;
        }
        assert found.BackingFile? ==> want == init[sector..sector + n];
      }
      ok := CoWrite(sector, n, buf, part, want);
    }

    /**
    convert_do_copy with a single coroutine: unless something fails, the target shows the concatenation of the
    sources, where salvage has lost at most sectors that cannot be read and made them zero.
    */
    method DoCopy() returns (ok: bool)
      requires Sane() && sectorNextStatus == 0 && target == init
      modifies this`status, this`sectorNextStatus, this`target
      ensures ok ==> |target| == |Concat(src)| && Salvaged(Concat(src), Lossy(), 0, target)
      ensures ok && !salvage ==> target == Concat(src)
    {
      var toCopy, total := 0, |Concat(src)|;
      ok, toCopy := CountAllocated();
      if !ok { return; }
      var sector := 0;
      while sector < total
        invariant sector <= total == |target| && Knows(sector) && ok
        invariant Salvaged(Concat(src), Lossy(), 0, target[..sector]) && target[sector..] == init[sector..]
        decreases total - sector
      {
        var n;
        ok, n := IterationSectors(sector);
        if !ok { return; }
        ghost var before, want := target, [];
        if minSparse == 0 && status.Zero? {
          n := Min(n, bufSectors);
        }
        ok, want := CopyPart(sector, n, status);
        if !ok { return; }
        CopyGrows(Concat(src), Lossy(), init, before, target, sector, want);
        sector := sector + n;
      }
      assert target[..total] == target;
      if !salvage { SalvagedAll(Concat(src), target); }
    }
  }

  lemma ZeroFrom(image: seq<Sector>, part: seq<Sector>, sector: nat, from: nat, n: nat)
    requires sector + n <= |image| && from + n <= |part|
    requires image[sector..sector + n] == part[from..from + n] && Zeroes(part[from..from + n])
    ensures forall k :: sector <= k < sector + n ==> IsZero(image[k])
  {
    forall k | sector <= k < sector + n
      ensures IsZero(image[k])
    {
      assert image[k] == image[sector..sector + n][k - sector];
    }
  }
}
