/**
Finding runs of zero sectors in a buffer that is about to be written.  The alignment is a power of two, so that
masking with one less is taking the remainder.
*/
module Sparse {
  import opened Alignment
  import opened Buffers

  type NonZero = b: int | 0 < b < 256 witness 1

  /** What a sector holds: only zero bytes; or some zero bytes, one that is not zero, and any others. */
  datatype Sector = ZeroSector | DataSector(zeroes: nat, first: NonZero, rest: seq<byte>)

  /** buffer_is_zero of one sector */
  predicate IsZero(s: Sector) {
    s.ZeroSector?
  }

  predicate Zeroes(buf: seq<Sector>) {
    forall i :: 0 <= i < |buf| ==> IsZero(buf[i])
  }

  /** The length of the run of sectors at the start of the buffer that are zero or not like the first. */
  function FirstRun(buf: seq<Sector>): (n: nat)
    requires |buf| > 0
    ensures 0 < n <= |buf|
    ensures forall k :: 0 <= k < n ==> IsZero(buf[k]) == IsZero(buf[0])
    ensures n < |buf| ==> IsZero(buf[n]) != IsZero(buf[0])
  {
    if |buf| > 1 && IsZero(buf[1]) == IsZero(buf[0]) then 1 + FirstRun(buf[1..]) else 1
  }

  lemma FirstRunIs(buf: seq<Sector>, n: nat)
    requires 0 < n <= |buf| && (forall k :: 0 <= k < n ==> IsZero(buf[k]) == IsZero(buf[0]))
    requires n < |buf| ==> IsZero(buf[n]) != IsZero(buf[0])
    ensures FirstRun(buf) == n
  {
  }

  lemma NextAligned(x: nat, a: nat)
    requires a > 0
    ensures (x + (a - x % a)) % a == 0 && (x - x % a) % a == 0 && x % a <= x
  {
    Euclid(x, a);
    assert x == x / a * a + x % a;
    MultipleMod(x / a, a);
    MultipleMod(x / a + 1, a);
    assert (x / a + 1) * a == x / a * a + a;
  }

  lemma RoundedEnds(sector: nat, i: nat, a: nat)
    requires a > 0
    ensures
      var tail := (sector + i) % a;
      (sector + (i + (a - tail))) % a == 0 && (tail <= i ==> (sector + (i - tail)) % a == 0)
  {
    var tail := (sector + i) % a;
    NextAligned(sector + i, a);
    assert sector + (i + (a - tail)) == (sector + i) + (a - tail);
    assert tail <= i ==> sector + (i - tail) == (sector + i) - tail;
  }

  /** The buffer starts with data, or with a run of zeroes too short to reach an aligned sector. */
  predicate StartsData(buf: seq<Sector>, sector: nat, alignment: nat)
    requires buf != [] && alignment > 0
  {
    !IsZero(buf[0]) || (FirstRun(buf) < |buf| && FirstRun(buf) <= (sector + FirstRun(buf)) % alignment)
  }

  ghost predicate ZeroRun(buf: seq<Sector>, a: nat, b: nat) {
    a <= b <= |buf| && forall k :: a <= k < b ==> IsZero(buf[k])
  }

  /** No run of zeroes in the sectors from `from` to `to` is as long as `limit`. */
  ghost predicate Dense(buf: seq<Sector>, from: nat, to: nat, limit: int) {
    forall a: nat, b: nat {:trigger ZeroRun(buf, a, b)} :: from <= a <= b <= to && ZeroRun(buf, a, b) ==> b - a < limit
  }

  /** The run of zeroes that the first `n` sectors end with is shorter than `limit`. */
  ghost predicate EndsDense(buf: seq<Sector>, n: nat, limit: int) {
    forall a: nat {:trigger ZeroRun(buf, a, n)} :: a <= n && ZeroRun(buf, a, n) ==> n - a < limit
  }

  /** What is left after a run of zeroes that ends at an aligned sector starts with data. */
  lemma RestStartsData(buf: seq<Sector>, i: nat, pnum: nat, sector: nat, alignment: nat)
    requires i < |buf| && ZeroRun(buf, 0, i) && !IsZero(buf[i]) && alignment > 0
    requires pnum <= i && i - pnum == (sector + i) % alignment
    ensures StartsData(buf[pnum..], sector + pnum, alignment)
  {
    if pnum < i {
      FirstRunIs(buf[pnum..], i - pnum);
      assert sector + pnum + (i - pnum) == sector + i;
    }
  }

  /** A run of data, or of a few zeroes with data behind it, followed by a few more sectors. */
  lemma RoundedIsDense(buf: seq<Sector>, i: nat, n: nat, limit: nat)
    requires 0 < i <= n <= |buf| && n - i < limit
    requires (forall k :: 0 <= k < i ==> !IsZero(buf[k])) || (i < limit && i < n && !IsZero(buf[i]))
    ensures Dense(buf, 0, n, limit) && !ZeroRun(buf, 0, n)
  {
    forall a: nat, b: nat | a <= b <= n && ZeroRun(buf, a, b)
      ensures b - a < limit
    {
      assert a < b ==> IsZero(buf[a]);
      assert a <= i < b ==> IsZero(buf[i]);
    }
    assert !IsZero(buf[0]) || (i < n && !IsZero(buf[i]));
  }

  /**
  is_allocated_sectors: sectors reported as unallocated are zero, and what follows them starts with data; in sectors
  reported as data every run of zeroes is shorter than the alignment; there is progress; and a part that ends before
  the buffer does ends at an aligned sector.
  */
  method IsAllocatedSectors(buf: seq<Sector>, sector: nat, alignment: nat) returns (data: bool, pnum: nat)
    requires alignment > 0
    ensures buf == [] ==> !data && pnum == 0
    ensures buf != [] ==> 0 < pnum <= |buf| && (data <==> StartsData(buf, sector, alignment))
    ensures !data ==> Zeroes(buf[..pnum])
    ensures !data && pnum < |buf| ==> StartsData(buf[pnum..], sector + pnum, alignment)
    ensures data ==> Dense(buf, 0, pnum, alignment) && !ZeroRun(buf, 0, pnum)
    ensures pnum < |buf| ==> (sector + pnum) % alignment == 0
  {
    var n := |buf|;
    if n == 0 {
      return false, 0;
    }
    var i := RunLength(buf);
    var isZero := IsZero(buf[0]);
    if i == n {
      if !isZero { RoundedIsDense(buf, i, i, alignment); }
      return !isZero, i;
    }
    isZero, pnum := RoundEnd(isZero, i, n, sector, alignment);
    data := !isZero;
    if isZero { RestStartsData(buf, i, pnum, sector, alignment); } else { RoundedIsDense(buf, i, pnum, alignment); }
  }

  /** The loop of is_allocated_sectors */
  method RunLength(buf: seq<Sector>) returns (i: nat)
    requires buf != []
    ensures i == FirstRun(buf)
  {
    var isZero := IsZero(buf[0]);
    i := 1;
    while i < |buf| && isZero == IsZero(buf[i])
      invariant 0 < i <= |buf| && forall k :: 0 <= k < i ==> IsZero(buf[k]) == isZero
    {
      i := i + 1;
    }
    FirstRunIs(buf, i);
  }

  /**
  The second half of is_allocated_sectors, for a run of `i` sectors that are zero or not as the first is: moves the end
  of the run to an aligned sector, down for zeroes and up for data.
  */
  method RoundEnd(isZero: bool, i: nat, n: nat, sector: nat, alignment: nat) returns (zero: bool, pnum: nat)
    requires 0 < i < n && alignment > 0
    ensures zero <==> isZero && (sector + i) % alignment < i
    ensures zero ==> 0 < pnum <= i && i - pnum == (sector + i) % alignment
    ensures !zero ==> i <= pnum <= n && pnum - i < alignment && (isZero ==> i < alignment && i < pnum)
    ensures pnum < n ==> (sector + pnum) % alignment == 0
  {
    zero, pnum := isZero, i;
    var tail := (sector + i) % alignment;
    RoundedEnds(sector, i, alignment);
    if tail != 0 {
      if zero && i <= tail {
        zero := false;
      }
      if !zero {
        pnum := Min(i + (alignment - tail), n);
      } else {
        pnum := i - tail;
      }
    }
  }

  /** An input for which the first sector is zero and is still reported as data. */
  method ShortRunIsData() returns (buf: seq<Sector>, data: bool, pnum: nat)
    ensures |buf| == 2 && IsZero(buf[0]) && data && pnum == 2
  {
    buf := [ZeroSector, DataSector(0, 1, [])];
    FirstRunIs(buf, 1);
    data, pnum := IsAllocatedSectors(buf, 1, 4);
  }

  lemma DenseShifts(buf: seq<Sector>, from: nat, n: nat, limit: int)
    requires from + n <= |buf| && Dense(buf[from..], 0, n, limit) && !ZeroRun(buf[from..], 0, n)
    ensures Dense(buf, from, from + n, limit) && !ZeroRun(buf, from, from + n)
  {
    forall a: nat, b: nat | from <= a <= b <= from + n && ZeroRun(buf, a, b)
      ensures b - a < limit
    {
      assert ZeroRun(buf[from..], a - from, b - from);
    }
    if ZeroRun(buf, from, from + n) { assert ZeroRun(buf[from..], 0, n); }
  }

  /**
  Data, at most `gap` zeroes and data again: a run of zeroes spans at most the gap and what is on both sides of it.
  */
  lemma DenseJoins(buf: seq<Sector>, used: nat, checked: nat, end: nat, gap: nat, alignment: nat)
    requires used <= checked <= used + gap && checked <= end <= |buf| && alignment > 0
    requires Dense(buf, 0, used, gap + 2 * alignment - 1) && EndsDense(buf, used, alignment)
    requires Dense(buf, checked, end, alignment) && !ZeroRun(buf, checked, end)
    ensures Dense(buf, 0, end, gap + 2 * alignment - 1) && EndsDense(buf, end, alignment)
  {
    forall a: nat, b: nat | a <= b <= end && ZeroRun(buf, a, b)
      ensures b - a < gap + 2 * alignment - 1
    {
      if b > used && a < used { assert ZeroRun(buf, a, used); }
      if b > checked { assert ZeroRun(buf, if a < checked then checked else a, b); }
    }
    forall a: nat | a <= end && ZeroRun(buf, a, end)
      ensures end - a < alignment
    {
      assert a < checked ==> ZeroRun(buf, checked, end);
    }
  }

  /** The first `used` sectors are taken for data; behind them, up to `checked`, there are at most `gap` zeroes. */
  ghost predicate Scanned(buf: seq<Sector>, sector: nat, alignment: nat, gap: nat, used: nat, checked: nat)
    requires alignment > 0
  {
    && 0 < used <= checked <= |buf| && checked <= used + gap && ZeroRun(buf, used, checked)
    && (used < |buf| ==> (sector + used) % alignment == 0)
    && (used < checked < |buf| ==> StartsData(buf[checked..], sector + checked, alignment))
    && Dense(buf, 0, used, gap + 2 * alignment - 1) && EndsDense(buf, used, alignment)
  }

  /** One round of the loop: looks at the next part, and stops if it has at least `least` zeroes. */
  method Scan(buf: seq<Sector>, least: nat, sector: nat, alignment: nat, used: nat, checked: nat)
    returns (stop: bool, used2: nat, checked2: nat)
    requires alignment > 0 && checked < |buf| && Scanned(buf, sector, alignment, Max(0, least - 1), used, checked)
    ensures checked < checked2 <= |buf|
    ensures if stop then used2 == used == checked && ZeroRun(buf, used, checked2) && checked2 >= used + least
            else Scanned(buf, sector, alignment, Max(0, least - 1), used2, checked2)
  {
    var rest := buf[checked..];
    var more, len := IsAllocatedSectors(rest, sector + checked, alignment);
    assert sector + checked + len == sector + (checked + len);
    stop, used2, checked2 := false, used, checked + len;
    if more {
      used2 := checked2;
      DenseShifts(buf, checked, len, alignment);
      DenseJoins(buf, used, checked, checked2, Max(0, least - 1), alignment);
    } else {
      assert used == checked;
      forall k | checked <= k < checked2 ensures IsZero(buf[k]) { assert rest[..len][k - checked] == buf[k]; }
      assert rest[len..] == buf[checked2..];
      stop := len >= least;
    }
  }

  /**
  is_allocated_sectors_min: a part reported as unallocated is zero, and there is progress.  A part reported as data goes
  on over every run of zeroes shorter than `min`, ending only in front of `min` zeroes or of nothing but zeroes; and
  apart from what alignment adds it goes over no longer run.
  */
  method IsAllocatedSectorsMin(buf: seq<Sector>, min: nat, sector: nat, alignment: nat) returns (data: bool, pnum: nat)
    requires alignment > 0
    ensures pnum <= |buf| && (buf != [] ==> 0 < pnum && (data <==> StartsData(buf, sector, alignment)))
    ensures !data ==> Zeroes(buf[..pnum])
    ensures pnum < |buf| ==> (sector + pnum) % alignment == 0
    ensures data ==> ZeroRun(buf, pnum, Min(pnum + min, |buf|))
    ensures data && min > 0 ==> Dense(buf, 0, pnum, min + 2 * (alignment - 1))
  {
    var n := |buf|;
    var least := if n < min then n else min;
    data, pnum := IsAllocatedSectors(buf, sector, alignment);
    if !data {
      return;
    }
    var used: nat, checked: nat, stop := pnum, pnum, false;
    while checked < n && !stop
      invariant checked <= n
      invariant Scanned(buf, sector, alignment, Max(0, least - 1), used, if stop then used else checked)
      invariant stop ==> ZeroRun(buf, used, checked) && checked >= used + least
      decreases !stop, n - checked
    {
      stop, used, checked := Scan(buf, least, sector, alignment, used, checked);
    }
    data, pnum := true, used;
  }
}
