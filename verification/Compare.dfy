/** qemu-img compare: whether two images read the same. */
module Compare {
  import opened Buffers

  /** What bdrv_block_status_above says about a range; `other` stands for the remaining flags. */
  datatype Status = Status(isAllocated: bool, zero: bool, other: int)

  /** The two images read the same at every offset, the shorter one as zeroes past its end. */
  ghost predicate SameContents(a: seq<byte>, b: seq<byte>) {
    forall i: nat :: Padded(a, i) == Padded(b, i)
  }

  ghost predicate SameUpTo(a: seq<byte>, b: seq<byte>, n: nat) {
    forall i: nat :: i < n ==> Padded(a, i) == Padded(b, i)
  }

  /** A status is sound if what it calls zero, or allocated in no layer, reads as zero. */
  predicate Sound(image: seq<byte>, offset: nat, n: nat, s: Status) {
    offset + n <= |image| && (s.zero || !s.isAllocated ==> AllZero(image[offset..offset + n]))
  }

  /** Any sound answer about the first bytes of the range; queries fail only when `faulty`. */
  method BlockStatus(image: seq<byte>, offset: nat, n: nat, faulty: bool) returns (ok: bool, s: Status, pnum: nat)
    requires 0 < n && offset + n <= |image|
    ensures 0 < pnum <= n && Sound(image, offset, pnum, s)
    ensures !faulty ==> ok
  {
    var fails: bool := *;
    ok := !(faulty && fails);
    pnum, s := *, *;
    if !(0 < pnum <= n && Sound(image, offset, pnum, s)) {
      pnum, s := 1, Status(true, false, 0);
    }
  }

  method Pread(image: seq<byte>, offset: nat, n: nat, faulty: bool) returns (ok: bool, buf: seq<byte>)
    requires offset + n <= |image|
    ensures buf == image[offset..offset + n]
    ensures !faulty ==> ok
  {
    var fails: bool := *;
    ok := !(faulty && fails);
    buf := image[offset..offset + n];
  }

  /** check_empty_sectors: 0 if the range is all zero, 1 if not, 4 if it cannot be read. */
  method CheckEmptySectors(image: seq<byte>, offset: nat, n: nat, faulty: bool) returns (ret: int)
    requires offset + n <= |image|
    ensures ret == 4 || ret == if AllZero(image[offset..offset + n]) then 0 else 1
    ensures !faulty ==> ret != 4
  {
    var ok, buf := Pread(image, offset, n, faulty);
    if !ok { return 4; }
    var at := FindNonzero(buf);
    ret := if at >= 0 then 1 else 0;
  }

  lemma ZeroMeansPadded(a: seq<byte>, b: seq<byte>, offset: nat, n: nat)
    requires offset + n <= |a| && AllZero(a[offset..offset + n])
    requires |b| <= offset || (offset + n <= |b| && AllZero(b[offset..offset + n]))
    ensures forall i: nat :: offset <= i < offset + n ==> Padded(a, i) == Padded(b, i) == 0
  {
    forall i: nat | offset <= i < offset + n
      ensures Padded(a, i) == Padded(b, i) == 0
    {
      assert a[offset..offset + n][i - offset] == 0;
      if offset < |b| { assert b[offset..offset + n][i - offset] == 0; }
    }
  }

  lemma NonzeroMeansDifferent(a: seq<byte>, b: seq<byte>, offset: nat, n: nat)
    requires offset + n <= |a| && !AllZero(a[offset..offset + n])
    requires |b| <= offset || (offset + n <= |b| && AllZero(b[offset..offset + n]))
    ensures !SameContents(a, b)
  {
    var k :| 0 <= k < n && a[offset..offset + n][k] != 0;
    if offset < |b| { assert b[offset..offset + n][k] == 0; }
    assert Padded(a, offset + k) != Padded(b, offset + k);
  }

  /** compare_buffers finds a whole range equal, or a difference. */
  lemma CompareDecides(a: seq<byte>, b: seq<byte>, offset: nat, n: nat, differs: bool, pnum: nat)
    requires 0 < n && offset + n <= |a| && offset + n <= |b|
    requires IsRun(a[offset..offset + n], b[offset..offset + n], SECTOR_SIZE, differs, pnum)
    ensures !differs && pnum == n ==> forall i: nat :: offset <= i < offset + n ==> Padded(a, i) == Padded(b, i)
    ensures differs || pnum != n ==> !SameContents(a, b)
  {
    var x, y := a[offset..offset + n], b[offset..offset + n];
    if !differs && pnum == n {
      forall i: nat | offset <= i < offset + n
        ensures Padded(a, i) == Padded(b, i)
      {
        EqualRun(x, y, SECTOR_SIZE, pnum, i - offset);
      }
    } else {
      var c := if differs then 0 else pnum;
      assert ChunkDiffers(x, y, SECTOR_SIZE, c);
      var end := Min(c + SECTOR_SIZE, n);
      var t :| 0 <= t < end - c && x[c..end][t] != y[c..end][t];
      assert x[c + t] != y[c + t];
      assert Padded(a, offset + c + t) != Padded(b, offset + c + t);
    }
  }

  /** The comparison of the next `chunk` bytes, for which both statuses hold. */
  method CompareChunk(a: seq<byte>, b: seq<byte>, offset: nat, n: nat, sa: Status, sb: Status, faulty: bool)
    returns (ret: int, chunk: nat)
    requires 0 < n && Sound(a, offset, n, sa) && Sound(b, offset, n, sb)
    ensures 0 < chunk <= n
    ensures ret == 0 ==> forall i: nat :: offset <= i < offset + chunk ==> Padded(a, i) == Padded(b, i)
    ensures ret == 1 ==> !SameContents(a, b)
    ensures ret == 0 || ret == 1 || (faulty && ret == 4)
  {
    chunk, ret := n, 0;
    if sa.zero && sb.zero {
      ZeroMeansPadded(a, b, offset, n);
    } else if sa.isAllocated == sb.isAllocated {
      if sa.isAllocated {
        chunk := Min(chunk, IO_BUF_SIZE);
        var ok, buf1 := Pread(a, offset, chunk, faulty);
        if !ok { return 4, chunk; }
        var buf2;
        ok, buf2 := Pread(b, offset, chunk, faulty);
        if !ok { return 4, chunk; }
        var differs, pnum := CompareBuffers(buf1, buf2, 0);
        CompareDecides(a, b, offset, chunk, differs, pnum);
        ret := if differs || pnum != chunk then 1 else 0;
      } else {
        ZeroMeansPadded(a, b, offset, n);
      }
    } else {
      chunk := Min(chunk, IO_BUF_SIZE);
      if sa.isAllocated {
        ret := CheckOther(a, b, offset, chunk, n, faulty);
      } else {
        ret := CheckOther(b, a, offset, chunk, n, faulty);
      }
    }
  }

  /** One image reads as zero here: the other has to be empty too. */
  method CheckOther(a: seq<byte>, b: seq<byte>, offset: nat, chunk: nat, ghost n: nat, faulty: bool) returns (ret: int)
    requires 0 < chunk <= n && offset + n <= |a|
    requires |b| <= offset || (offset + n <= |b| && AllZero(b[offset..offset + n]))
    ensures ret == 0 ==> forall i: nat :: offset <= i < offset + chunk ==> Padded(a, i) == Padded(b, i)
    ensures ret == 1 ==> !SameContents(a, b)
    ensures ret == 0 || ret == 1 || (faulty && ret == 4)
  {
    if offset < |b| { ShorterZero(b, offset, n, chunk); }
    ret := CheckEmptySectors(a, offset, chunk, faulty);
    if ret == 0 { ZeroMeansPadded(a, b, offset, chunk); }
    if ret == 1 { NonzeroMeansDifferent(a, b, offset, chunk); }
  }

  /** The tail of the longer image `a`, past the end of `b`. */
  method CompareTail(a: seq<byte>, b: seq<byte>, faulty: bool) returns (ret: int)
    requires |b| <= |a| && SameUpTo(a, b, |b|)
    ensures ret == 0 ==> SameContents(a, b)
    ensures ret == 1 ==> !SameContents(a, b)
    ensures ret == 0 || ret == 1 || (faulty && (ret == 3 || ret == 4))
  {
    var offset := |b|;
    while offset < |a|
      invariant |b| <= offset <= |a| && SameUpTo(a, b, offset)
    {
      var ok, s, chunk := BlockStatus(a, offset, |a| - offset, faulty);
      if !ok { return 3; }
      if s.isAllocated && !s.zero {
        ghost var n := chunk;
        chunk := Min(chunk, IO_BUF_SIZE);
        ret := CheckOther(a, b, offset, chunk, n, faulty);
        if ret != 0 { return; }
      } else {
        ZeroMeansPadded(a, b, offset, chunk);
      }
      offset := offset + chunk;
    }
    ret := 0;
  }

  /**
  img_compare.  Without I/O errors the exit code is 0 if the images read the same, the shorter one
  padded with zeroes, and 1 if they do not, however the status queries cut the images up.  Strict mode
  moreover refuses different sizes and different statuses.
  */
  method CompareImages(a: seq<byte>, b: seq<byte>, strict: bool, faulty: bool)
    returns (ret: int, ghost statusDiffers: bool)
    ensures ret == 0 ==> SameContents(a, b) && (strict ==> |a| == |b| && !statusDiffers)
    ensures ret == 1 ==> !SameContents(a, b) || (strict && (|a| != |b| || statusDiffers))
    ensures ret == 0 || ret == 1 || (faulty && (ret == 3 || ret == 4))
  {
    statusDiffers := false;
    var total := Min(|a|, |b|);
    if strict && |a| != |b| {
      return 1, false;
    }
    var offset := 0;
    while offset < total
      invariant 0 <= offset <= total && SameUpTo(a, b, offset) && !statusDiffers
    {
      var ok, sa, pnum1 := BlockStatus(a, offset, |a| - offset, faulty);
      if !ok { return 3, false; }
      var sb, pnum2;
      ok, sb, pnum2 := BlockStatus(b, offset, |b| - offset, faulty);
      if !ok { return 3, false; }
      var n := Min(pnum1, pnum2);
      if strict && sa != sb {
        return 1, true;
      }
      ShorterSound(a, offset, pnum1, n, sa);
      ShorterSound(b, offset, pnum2, n, sb);
      var chunk;
      ret, chunk := CompareChunk(a, b, offset, n, sa, sb, faulty);
      if ret != 0 { return; }
      offset := offset + chunk;
    }
    if |a| > |b| {
      ret := CompareTail(a, b, faulty);
    } else if |b| > |a| {
      ret := CompareTail(b, a, faulty);
    } else {
      ret := 0;
    }
  }

  lemma ShorterSound(image: seq<byte>, offset: nat, n: nat, m: nat, s: Status)
    requires Sound(image, offset, n, s) && m <= n
    ensures Sound(image, offset, m, s)
  {
    if s.zero || !s.isAllocated { ShorterZero(image, offset, n, m); }
  }

  lemma ShorterZero(image: seq<byte>, offset: nat, n: nat, m: nat)
    requires m <= n && offset + n <= |image| && AllZero(image[offset..offset + n])
    ensures AllZero(image[offset..offset + m])
  {
    assert image[offset..offset + m] == image[offset..offset + n][..m];
  }
}
