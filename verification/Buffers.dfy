/** Byte buffers and the loops of qemu-img that scan them. */
module Buffers {
  import opened Alignment

  type byte = b: int | 0 <= b < 256

  const SECTOR_SIZE: nat := 512
  const IO_BUF_SIZE: nat := 2 * 1024 * 1024

  function Min(a: int, b: int): int { if a < b then a else b }
  function Max(a: int, b: int): int { if a > b then a else b }

  /** Byte `i` of an image, which reads as zero past its end. */
  function Padded(image: seq<byte>, i: nat): byte {
    if i < |image| then image[i] else 0
  }

  predicate AllZero(buf: seq<byte>) {
    forall i :: 0 <= i < |buf| ==> buf[i] == 0
  }

  /** The chunk of `ch` bytes that starts at `i`, cut at the end of the buffers, differs. */
  predicate ChunkDiffers(b1: seq<byte>, b2: seq<byte>, ch: nat, i: nat)
    requires |b1| == |b2| && i < |b1|
  {
    b1[i..Min(i + ch, |b1|)] != b2[i..Min(i + ch, |b1|)]
  }

  /** `pnum` is the longest run of whole chunks with the same outcome as the first. */
  ghost predicate IsRun(b1: seq<byte>, b2: seq<byte>, ch: nat, differs: bool, pnum: nat)
    requires |b1| == |b2| && ch > 0
  {
    && 0 < pnum <= |b1|
    && (pnum % ch == 0 || pnum == |b1|)
    && (forall i: nat :: i < pnum && i % ch == 0 ==> ChunkDiffers(b1, b2, ch, i) == differs)
    && (pnum < |b1| ==> ChunkDiffers(b1, b2, ch, pnum) != differs)
  }

  /** compare_buffers: a chunk size of 0 stands for one sector. */
  method CompareBuffers(b1: seq<byte>, b2: seq<byte>, chsize: nat) returns (differs: bool, pnum: nat)
    requires |b1| == |b2| > 0
    ensures IsRun(b1, b2, if chsize == 0 then SECTOR_SIZE else chsize, differs, pnum)
  {
    var bytes := |b1|;
    var ch := if chsize == 0 then SECTOR_SIZE else chsize;
    var i := Min(bytes, ch);
    differs := b1[..i] != b2[..i];
    OnlyMultipleBelow(ch);
    assert b1[0..i] == b1[..i] && b2[0..i] == b2[..i];
    while i < bytes
      invariant 0 < i <= bytes && (i % ch == 0 || i == bytes)
      invariant forall k: nat :: k < i && k % ch == 0 ==> ChunkDiffers(b1, b2, ch, k) == differs
    {
      var len := Min(bytes - i, ch);
      if (b1[i..i + len] != b2[i..i + len]) != differs {
        break;
      }
      NextMultiple(i, ch);
      i := i + len;
    }
    pnum := i;
  }

  lemma OnlyMultipleBelow(u: nat)
    requires u > 0
    ensures u % u == 0 && 0 % u == 0 && forall k: nat :: k < u && k % u == 0 ==> k == 0
  {
  }

  /** After a multiple of `u` the next one is `u` further on. */
  lemma NextMultiple(a: nat, u: nat)
    requires u > 0 && a % u == 0
    ensures (a + u) % u == 0
    ensures forall k: nat :: a <= k < a + u && k % u == 0 ==> k == a
  {
    AlignedSum(a, u, u);
    forall k: nat | a < k < a + u && k % u == 0
      ensures false
    {
      AlignedGap(a, k, u);
    }
  }

  /** A run of equal chunks is an equal prefix. */
  lemma EqualRun(b1: seq<byte>, b2: seq<byte>, ch: nat, pnum: nat, k: nat)
    requires |b1| == |b2| && ch > 0 && IsRun(b1, b2, ch, false, pnum) && k < pnum
    ensures b1[k] == b2[k]
  {
    var i := AlignDown(k, ch);
    var end := Min(i + ch, |b1|);
    assert !ChunkDiffers(b1, b2, ch, i);
    assert b1[i..end][k - i] == b2[i..end][k - i];
  }

  /** find_nonzero: the start of the first sector with a byte that is not zero, or -1; the last sector may be short. */
  method FindNonzero(buf: seq<byte>) returns (at: int)
    ensures at == -1 <==> AllZero(buf)
    ensures at != -1 ==>
      && 0 <= at < |buf| && at % SECTOR_SIZE == 0 && AllZero(buf[..at])
      && !AllZero(buf[at..Min(at + SECTOR_SIZE, |buf|)])
  {
    var n := |buf|;
    var end := AlignDown(n, SECTOR_SIZE);
    var i := 0;
    while i < end
      invariant 0 <= i <= end && i % SECTOR_SIZE == 0 && end % SECTOR_SIZE == 0
      invariant AllZero(buf[..i])
    {
      AlignedGap(i, end, SECTOR_SIZE);
      if !AllZero(buf[i..i + SECTOR_SIZE]) {
        SubrangeNonzero(buf, i, i + SECTOR_SIZE);
        return i;
      }
      JoinZero(buf, i, i + SECTOR_SIZE);
      i := i + SECTOR_SIZE;
    }
    if i < n && !AllZero(buf[i..i + (n - end)]) {
      SubrangeNonzero(buf, i, n);
      return i;
    }
    if i < n { JoinZero(buf, i, n); }
    assert buf[..n] == buf;
    return -1;
  }

  lemma SubrangeNonzero(buf: seq<byte>, i: nat, j: nat)
    requires i <= j <= |buf| && !AllZero(buf[i..j])
    ensures !AllZero(buf)
  {
  }

  lemma JoinZero(buf: seq<byte>, i: nat, j: nat)
    requires i <= j <= |buf| && AllZero(buf[..i]) && AllZero(buf[i..j])
    ensures AllZero(buf[..j])
  {
  }
}
