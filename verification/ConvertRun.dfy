/**
The coroutines of a conversion.  Each claims the next part of the image, reads it and writes it chunk by chunk; with
ordered writes it first waits for the part before its own.  Wherever a coroutine can yield, others may take steps:
while it asks for the block status under the lock, while it reads, while it waits and between two chunks that it
writes.  The sources do not change, so that reading a part is one step; with salvage, sectors that cannot be read count
as zero.
*/
module ConvertRun {
  import opened Sparse
  import Convert

  /** The concatenated sources, what the target shows at the start, and whether writes are kept in order. */
  datatype Setup = Setup(source: seq<Sector>, init: seq<Sector>, inOrder: bool)

  /** A part of the image that a coroutine has taken on; it is done when the coroutine has gone on to the next. */
  datatype Claim = Claim(start: nat, n: nat, done: bool)

  /** Where a coroutine is; `c` is the number of its claim. */
  datatype Pc =
    | NotEntered
    | Idle
    | Querying                                        // holds the lock and has seen no failure
    | Failing(error: int)                             // the query has failed, which is not yet known to others
    | Claimed(c: nat)
    | Filled(c: nat, data: seq<Sector>)
    | Waiting(c: nat, data: seq<Sector>)
    | Writing(c: nat, data: seq<Sector>, count: nat)  // `count` sectors have been written
    | Finishing(c: nat)
    | Done

  datatype Ret = InProgress | Failed(error: int) | Succeeded

  datatype State = State(
    sector: nat, ret: Ret, wrOffs: nat, running: int, cos: seq<Pc>, target: seq<Sector>, claims: seq<Claim>)

  datatype Step =
    | Enter(i: nat)
    | Lock(i: nat)
    | Take(i: nat, n: nat)
    | StatusFails(i: nat, error: int)
    | Fail(i: nat)
    | Leave(i: nat)
    | Read(i: nat)
    | ReadFails(i: nat, error: int, junk: seq<Sector>)
    | Order(i: nat)
    | Write(i: nat, n: nat, target: seq<Sector>)
    | WriteFails(i: nat, n: nat, error: int, target: seq<Sector>)
    | Finish(i: nat)

  predicate Active(pc: Pc) {
    pc.Claimed? || pc.Filled? || pc.Waiting? || pc.Writing? || pc.Finishing?
  }

  function End(c: Claim): nat {
    c.start + c.n
  }

  function Part(image: seq<Sector>, c: Claim): seq<Sector>
    requires End(c) <= |image|
  {
    image[c.start..End(c)]
  }

  /** Nobody holds the lock. */
  predicate Free(s: State) {
    forall j :: 0 <= j < |s.cos| ==> !s.cos[j].Querying?
  }

  /** The next `n` sectors can be written: they belong to the part of the coroutine at `pc`. */
  predicate CanWrite(s: State, pc: Pc, n: nat) {
    && pc.Writing? && pc.c < |s.claims| && 0 < n && pc.count + n <= |pc.data|
    && s.claims[pc.c].start + |pc.data| <= |s.target|
  }

  ghost predicate Enabled(u: Setup, s: State, e: Step) {
    && e.i < |s.cos|
    && var pc := s.cos[e.i];
       match e
       case Enter(_) => pc.NotEntered?
       case Lock(_) => pc.Idle? && Free(s) && s.ret.InProgress? && s.sector < |u.source|
       case Leave(_) => pc.Idle? && Free(s) && (!s.ret.InProgress? || s.sector >= |u.source|)
       case Take(_, n) => pc.Querying? && 0 < n && s.sector + n <= |u.source|
       case StatusFails(_, _) => pc.Querying?
       case Fail(_) => pc.Failing?
       case Read(_) => pc.Claimed? && pc.c < |s.claims| && End(s.claims[pc.c]) <= |u.source|
       case ReadFails(_, _, _) => pc.Claimed? && pc.c < |s.claims|
       case Order(_) => pc.Filled? && pc.c < |s.claims|
       case Write(_, n, t) =>
         && CanWrite(s, pc, n) && |s.target| == |u.init|
         && Convert.Written(u.init, s.target, t, s.claims[pc.c].start + pc.count, pc.data[pc.count..pc.count + n])
       case WriteFails(_, n, _, t) =>
         CanWrite(s, pc, n) && Convert.SameOutside(s.target, t, s.claims[pc.c].start + pc.count, n)
       case Finish(_) => pc.Finishing? && pc.c < |s.claims|
  }

  /** The first coroutine from `k` on that waits to write at `offs`. */
  function FirstWaiter(s: State, offs: nat, k: nat): (w: nat)
    requires k <= |s.cos|
    ensures k <= w <= |s.cos|
    ensures w < |s.cos| ==> WaitsAt(s, s.cos[w], offs)
    ensures forall j :: k <= j < w ==> !WaitsAt(s, s.cos[j], offs)
    decreases |s.cos| - k
  {
    if k == |s.cos| || WaitsAt(s, s.cos[k], offs) then k else FirstWaiter(s, offs, k + 1)
  }

  predicate WaitsAt(s: State, pc: Pc, offs: nat) {
    pc.Waiting? && pc.c < |s.claims| && s.claims[pc.c].start == offs
  }

  /** wr_offs moves to `offs`, and the coroutine that waits for it goes on. */
  function Wake(s: State, offs: nat): State {
    var w := FirstWaiter(s, offs, 0);
    s.(wrOffs := offs, cos := if w < |s.cos| then s.cos[w := Filled(s.cos[w].c, s.cos[w].data)] else s.cos)
  }

  ghost function Next(u: Setup, s: State, e: Step): State
    requires Enabled(u, s, e)
  {
    var i, pc := e.i, s.cos[e.i];
    match e
    case Enter(_) => At(s, i, Idle).(running := s.running + 1)
    case Lock(_) => At(s, i, Querying)
    case Leave(_) => Exit(s, i)
    case Take(_, n) =>
      At(s, i, Claimed(|s.claims|)).(claims := s.claims + [Claim(s.sector, n, false)], sector := s.sector + n)
    case StatusFails(_, error) => At(s, i, Failing(error))
    case Fail(_) => Exit(s.(ret := Failed(pc.error)), i)
    case Read(_) => At(s, i, Filled(pc.c, Part(u.source, s.claims[pc.c])))
    case ReadFails(_, error, junk) => At(s, i, Filled(pc.c, junk)).(ret := Failed(error))
    case Order(_) =>
      At(s, i,
         if u.inOrder && s.wrOffs != s.claims[pc.c].start && s.ret.InProgress? then Waiting(pc.c, pc.data)
         else if s.ret.InProgress? then Writing(pc.c, pc.data, 0)
         else Finishing(pc.c))
    case Write(_, n, t) =>
      At(s, i, if pc.count + n < |pc.data| then Writing(pc.c, pc.data, pc.count + n) else Finishing(pc.c)).(target := t)
    case WriteFails(_, _, error, t) => At(s, i, Finishing(pc.c)).(target := t, ret := Failed(error))
    case Finish(_) =>
      var s1 := Finished(s, i);
      if u.inOrder then Wake(s1, End(s.claims[pc.c])) else s1
  }

  function At(s: State, i: nat, pc: Pc): State
    requires i < |s.cos|
  {
    s.(cos := s.cos[i := pc])
  }

  function Finished(s: State, i: nat): State
    requires i < |s.cos| && s.cos[i].Finishing? && s.cos[i].c < |s.claims|
  {
    At(s, i, Idle).(claims := s.claims[s.cos[i].c := s.claims[s.cos[i].c].(done := true)])
  }

  /** The end of a coroutine: the last one to leave a conversion without failure makes it a success. */
  function Exit(s: State, i: nat): State
    requires i < |s.cos|
  {
    At(s, i, Done).(running := s.running - 1, ret := if s.running == 1 && s.ret.InProgress? then Succeeded else s.ret)
  }

  // ---------------------------------------------------------------------------------------------
  // The invariant

  predicate IsRunning(pc: Pc) {
    !pc.NotEntered? && !pc.Done?
  }

  /** The coroutines that have been entered and have not left. */
  function Running(cos: seq<Pc>): nat {
    if cos == [] then 0 else Running(cos[..|cos| - 1]) + (if IsRunning(cos[|cos| - 1]) then 1 else 0)
  }

  /** The claims follow each other from the start of the image to `sector`. */
  ghost predicate Partition(claims: seq<Claim>, sector: nat) {
    && (forall c {:trigger claims[c]} :: 0 <= c < |claims| ==> claims[c].n > 0 && End(claims[c]) <= sector)
    && (forall c, d {:trigger claims[c], claims[d]} ::
          0 <= c < |claims| && d == c + 1 && d < |claims| ==> claims[d].start == End(claims[c]))
    && (claims == [] ==> sector == 0)
    && (claims != [] ==> claims[0].start == 0 && End(claims[|claims| - 1]) == sector)
  }

  /**
  What a coroutine at work holds, when its part of the target is `p`, that of the source is `q`, and that of what the
  target showed at the start is `z`: what it has read is `q`, what it has written is in `p`, and the rest of `p` is as
  at the start.
  */
  predicate Holds(ret: Ret, p: seq<Sector>, q: seq<Sector>, z: seq<Sector>, pc: Pc)
    requires |p| == |q| == |z|
  {
    match pc
    case Claimed(_) => p == z
    case Filled(_, data) => p == z && (ret.InProgress? ==> data == q)
    case Waiting(_, data) => p == z && (ret.InProgress? ==> data == q)
    case Writing(_, data, count) => data == q && count < |q| && p[..count] == q[..count] && p[count..] == z[count..]
    case Finishing(_) => ret.InProgress? ==> p == q
    case _ => true
  }

  /**
  A coroutine at work has a claim that it has not finished; if it waits, the claim before is not finished either; and
  with ordered writes it writes only when it is its turn.
  */
  ghost predicate AtWork(u: Setup, s: State, pc: Pc)
    requires |s.target| == |u.source| == |u.init|
  {
    Active(pc) ==>
      && pc.c < |s.claims| && !s.claims[pc.c].done && End(s.claims[pc.c]) <= |u.source|
      && Holds(
           s.ret, Part(s.target, s.claims[pc.c]), Part(u.source, s.claims[pc.c]), Part(u.init, s.claims[pc.c]), pc)
      && (pc.Waiting? ==> u.inOrder && pc.c > 0 && !s.claims[pc.c - 1].done)
      && (u.inOrder && s.ret.InProgress? && (pc.Writing? || pc.Finishing?) ==> s.wrOffs == s.claims[pc.c].start)
  }

  ghost predicate HasOwner(s: State, c: nat) {
    exists i :: 0 <= i < |s.cos| && Active(s.cos[i]) && s.cos[i].c == c
  }

  /** Every claim that is not finished belongs to one coroutine. */
  ghost predicate Owned(u: Setup, s: State)
    requires |s.target| == |u.source| == |u.init|
  {
    && (forall i {:trigger s.cos[i]} :: 0 <= i < |s.cos| ==> AtWork(u, s, s.cos[i]))
    && (forall i, j {:trigger s.cos[i], s.cos[j]} ::
          0 <= i < j < |s.cos| && Active(s.cos[i]) && Active(s.cos[j]) ==> s.cos[i].c != s.cos[j].c)
    && (forall c {:trigger HasOwner(s, c)} :: 0 <= c < |s.claims| && !s.claims[c].done ==> HasOwner(s, c))
  }

  /** Only one coroutine asks for the block status at a time, and there is something left to ask for. */
  ghost predicate Locked(u: Setup, s: State) {
    && (forall i {:trigger s.cos[i]} :: 0 <= i < |s.cos| && s.cos[i].Querying? ==> s.sector < |u.source|)
    && (forall i, j {:trigger s.cos[i], s.cos[j]} ::
          0 <= i < j < |s.cos| ==> !(s.cos[i].Querying? && s.cos[j].Querying?))
  }

  /** Claim number `c` has been copied. */
  ghost predicate CopiedPart(u: Setup, s: State, c: nat)
    requires |s.target| == |u.source| && c < |s.claims|
  {
    End(s.claims[c]) <= |u.source| ==> Part(s.target, s.claims[c]) == Part(u.source, s.claims[c])
  }

  /**
  As long as nothing fails, finished parts have been copied; what nobody has claimed is as the target started out.
  */
  ghost predicate Copied(u: Setup, s: State)
    requires |s.target| == |u.source| == |u.init|
  {
    && (s.ret.InProgress? ==>
          forall c {:trigger CopiedPart(u, s, c)} :: 0 <= c < |s.claims| && s.claims[c].done ==> CopiedPart(u, s, c))
    && (s.sector <= |s.target| ==> s.target[s.sector..] == u.init[s.sector..])
    && (s.ret.Succeeded? ==>
          s.target == u.source && s.sector == |u.source| && forall c :: 0 <= c < |s.claims| ==> s.claims[c].done)
  }

  /** The claims before number `d` are finished, the others are not, and `wrOffs` is where the first of these starts. */
  ghost predicate FinishedTo(s: State, d: nat) {
    && d <= |s.claims| && (forall c :: 0 <= c < |s.claims| ==> (s.claims[c].done <==> c < d))
    && s.wrOffs == if d == 0 then 0 else End(s.claims[d - 1])
  }

  ghost predicate Ordered(u: Setup, s: State) {
    u.inOrder && s.ret.InProgress? ==> exists d :: FinishedTo(s, d)
  }

  ghost predicate Inv(u: Setup, s: State) {
    && |s.target| == |u.source| == |u.init| && s.sector <= |u.source|
    && Partition(s.claims, s.sector) && s.running == Running(s.cos)
    && Owned(u, s) && Locked(u, s) && Copied(u, s) && Ordered(u, s)
  }

  // ---------------------------------------------------------------------------------------------
  // Basic facts

  lemma {:induction false} RunningUpdate(cos: seq<Pc>, i: nat, pc: Pc)
    requires i < |cos|
    ensures Running(cos[i := pc]) ==
      Running(cos) - (if IsRunning(cos[i]) then 1 else 0) + (if IsRunning(pc) then 1 else 0)
    decreases |cos|
  {
    var n := |cos| - 1;
    if i == n {
      assert cos[i := pc][..n] == cos[..n];
    } else {
      assert cos[i := pc][..n] == cos[..n][i := pc];
      RunningUpdate(cos[..n], i, pc);
    }
  }

  lemma {:induction false} NoneRunning(cos: seq<Pc>, i: nat)
    requires i < |cos| && Running(cos) == 0
    ensures !IsRunning(cos[i])
    decreases |cos|
  {
    if i < |cos| - 1 { NoneRunning(cos[..|cos| - 1], i); }
  }

  /** Later claims lie behind earlier ones. */
  lemma {:induction false} ClaimsInOrder(claims: seq<Claim>, sector: nat, c: nat, d: nat)
    requires Partition(claims, sector) && c < d < |claims|
    ensures End(claims[c]) <= claims[d].start
    decreases d
  {
    assert claims[d - 1].n > 0;
    if c < d - 1 { ClaimsInOrder(claims, sector, c, d - 1); }
    assert claims[d].start == End(claims[d - 1]);
  }

  /** Every sector before `sector` lies in a claim. */
  lemma {:induction false} SectorHasClaim(claims: seq<Claim>, sector: nat, k: nat) returns (c: nat)
    requires Partition(claims, sector) && k < sector
    ensures c < |claims| && claims[c].start <= k < End(claims[c])
    decreases |claims|
  {
    c := |claims| - 1;
    if k < claims[c].start {
      var rest := claims[..c];
      assert c > 0 && claims[c].start == End(claims[c - 1]);
      assert Partition(rest, claims[c].start) by {
        forall x | 0 <= x < |rest|
          ensures rest[x].n > 0 && End(rest[x]) <= claims[c].start
        {
          assert rest[x] == claims[x];
          ClaimsInOrder(claims, sector, x, c);
        }
      }
      c := SectorHasClaim(rest, claims[c].start, k);
    }
  }

  lemma PartAt(u: Setup, s: State, c: nat, k: nat)
    requires |s.target| == |u.source| && c < |s.claims| && CopiedPart(u, s, c)
    requires s.claims[c].start <= k < End(s.claims[c]) <= |u.source|
    ensures s.target[k] == u.source[k]
  {
    var a := s.claims[c].start;
    assert Part(s.target, s.claims[c])[k - a] == Part(u.source, s.claims[c])[k - a];
  }

  /** If all claims have been copied up to the end of the image, the target is the source. */
  lemma AllCopied(u: Setup, s: State)
    requires |s.target| == |u.source| <= s.sector && Partition(s.claims, s.sector) && s.sector <= |u.source|
    requires forall c {:trigger CopiedPart(u, s, c)} :: 0 <= c < |s.claims| ==> CopiedPart(u, s, c)
    ensures s.target == u.source
  {
    forall k | 0 <= k < |u.source|
      ensures s.target[k] == u.source[k]
    {
      var c := SectorHasClaim(s.claims, s.sector, k);
      PartAt(u, s, c, k);
    }
  }

  /** A write inside one claim leaves the others' parts alone. */
  lemma OtherPart(claims: seq<Claim>, sector: nat, c: nat, d: nat, before: seq<Sector>, after: seq<Sector>)
    requires Partition(claims, sector) && c < |claims| && d < |claims| && c != d && sector <= |before|
    requires End(claims[c]) <= |before| && End(claims[d]) <= |before|
    requires Convert.SameOutside(before, after, claims[c].start, claims[c].n)
    ensures Part(after, claims[d]) == Part(before, claims[d])
  {
    if c < d {
      ClaimsInOrder(claims, sector, c, d);
      SliceOfSuffix(before, after, End(claims[c]), claims[d].start, End(claims[d]));
    } else {
      ClaimsInOrder(claims, sector, d, c);
      SliceOfPrefix(before, after, claims[c].start, claims[d].start, End(claims[d]));
    }
  }

  lemma SliceOfSuffix(s: seq<Sector>, t: seq<Sector>, b: nat, x: nat, y: nat)
    requires b <= x <= y <= |s| == |t| && t[b..] == s[b..]
    ensures t[x..y] == s[x..y]
  {
    forall k | x <= k < y ensures t[k] == s[k] { assert t[b..][k - b] == s[b..][k - b]; }
  }

  lemma SliceOfPrefix(s: seq<Sector>, t: seq<Sector>, a: nat, x: nat, y: nat)
    requires x <= y <= a <= |s| == |t| && t[..a] == s[..a]
    ensures t[x..y] == s[x..y]
  {
    forall k | x <= k < y ensures t[k] == s[k] { assert t[..a][k] == s[..a][k]; }
  }

  lemma SameStart(claims: seq<Claim>, sector: nat, c: nat, d: nat)
    requires Partition(claims, sector) && c < |claims| && d < |claims| && claims[c].start == claims[d].start
    ensures c == d
  {
    assert claims[c].n > 0 && claims[d].n > 0;
    if c < d { ClaimsInOrder(claims, sector, c, d); }
    if d < c { ClaimsInOrder(claims, sector, d, c); }
  }

  // ---------------------------------------------------------------------------------------------
  // Steps that leave the claims alone

  /** The target has changed at most in the part of the coroutine at `pc`. */
  ghost predicate WritesOwn(s: State, t: seq<Sector>, pc: Pc) {
    || t == s.target
    || (Active(pc) && pc.c < |s.claims| && End(s.claims[pc.c]) <= |s.target| &&
        Convert.SameOutside(s.target, t, s.claims[pc.c].start, s.claims[pc.c].n))
  }

  /** One coroutine moves on with the claim it has, or without one; the conversion may fail. */
  ghost predicate Moves(u: Setup, s: State, s2: State, i: nat, pc2: Pc)
    requires |s.target| == |u.source| == |u.init|
  {
    && i < |s.cos| && s2.cos == s.cos[i := pc2] && s2.claims == s.claims
    && s2.sector == s.sector && s2.wrOffs == s.wrOffs
    && (s2.ret == s.ret || s2.ret.Failed?) && |s2.target| == |s.target| && WritesOwn(s, s2.target, s.cos[i])
    && (Active(pc2) <==> Active(s.cos[i])) && (Active(pc2) ==> pc2.c == s.cos[i].c)
    && AtWork(u, s2, pc2)
    && (pc2.Querying? ==> Free(s) && s.sector < |u.source|)
    && s2.running == s.running - (if IsRunning(s.cos[i]) then 1 else 0) + (if IsRunning(pc2) then 1 else 0)
  }

  /** The parts of the other claims stay as they are. */
  lemma MoveKeepsPart(u: Setup, s: State, s2: State, i: nat, pc2: Pc, d: nat)
    requires Inv(u, s) && Moves(u, s, s2, i, pc2) && d < |s.claims| && (Active(pc2) ==> d != pc2.c)
    ensures Part(s2.target, s.claims[d]) == Part(s.target, s.claims[d])
  {
    if s2.target != s.target { OtherPart(s.claims, s.sector, s.cos[i].c, d, s.target, s2.target); }
  }

  lemma MoveKeepsAtWork(u: Setup, s: State, s2: State, i: nat, pc2: Pc, j: nat)
    requires Inv(u, s) && Moves(u, s, s2, i, pc2) && j < |s.cos| && j != i
    ensures AtWork(u, s2, s.cos[j])
  {
    var pc := s.cos[j];
    assert AtWork(u, s, pc);
    if Active(pc) {
      assert Active(s.cos[i]) ==> s.cos[i].c != pc.c;
      MoveKeepsPart(u, s, s2, i, pc2, pc.c);
    }
  }

  lemma MoveKeepsOwned(u: Setup, s: State, s2: State, i: nat, pc2: Pc)
    requires Inv(u, s) && Moves(u, s, s2, i, pc2)
    ensures Owned(u, s2)
  {
    forall j | 0 <= j < |s2.cos|
      ensures AtWork(u, s2, s2.cos[j])
    {
      if j != i { MoveKeepsAtWork(u, s, s2, i, pc2, j); }
    }
    forall c | 0 <= c < |s2.claims| && !s2.claims[c].done
      ensures HasOwner(s2, c)
    {
      assert HasOwner(s, c);
      var j :| 0 <= j < |s.cos| && Active(s.cos[j]) && s.cos[j].c == c;
      assert Active(s2.cos[j]) && s2.cos[j].c == c;
    }
  }

  lemma MoveKeepsLocked(u: Setup, s: State, s2: State, i: nat, pc2: Pc)
    requires Inv(u, s) && Moves(u, s, s2, i, pc2)
    ensures Locked(u, s2)
  {
    forall a, b | 0 <= a < b < |s2.cos|
      ensures !(s2.cos[a].Querying? && s2.cos[b].Querying?)
    {
      assert s2.cos[a] == if a == i then pc2 else s.cos[a];
      assert s2.cos[b] == if b == i then pc2 else s.cos[b];
    }
  }

  lemma MoveKeepsCopied(u: Setup, s: State, s2: State, i: nat, pc2: Pc)
    requires Inv(u, s) && Moves(u, s, s2, i, pc2)
    ensures Copied(u, s2)
  {
    assert AtWork(u, s, s.cos[i]);
    if s2.ret.InProgress? {
      forall c | 0 <= c < |s2.claims| && s2.claims[c].done
        ensures CopiedPart(u, s2, c)
      {
        assert CopiedPart(u, s, c);
        MoveKeepsPart(u, s, s2, i, pc2, c);
      }
    }
    if s2.target != s.target {
      var end := End(s.claims[s.cos[i].c]);
      SliceOfSuffix(s.target, s2.target, end, s.sector, |s.target|);
      assert s2.target[s.sector..] == s2.target[s.sector..|s.target|];
      assert s.target[s.sector..] == s.target[s.sector..|s.target|];
    }
  }

  lemma MoveKeepsInv(u: Setup, s: State, s2: State, i: nat, pc2: Pc)
    requires Inv(u, s) && Moves(u, s, s2, i, pc2)
    ensures Inv(u, s2)
  {
    RunningUpdate(s.cos, i, pc2);
    MoveKeepsOwned(u, s, s2, i, pc2);
    MoveKeepsLocked(u, s, s2, i, pc2);
    MoveKeepsCopied(u, s, s2, i, pc2);
    if u.inOrder && s2.ret.InProgress? {
      var d :| FinishedTo(s, d);
      assert FinishedTo(s2, d);
    }
  }

  /** With ordered writes, a coroutine whose turn it is not has a predecessor that is not finished. */
  lemma NotYet(u: Setup, s: State, i: nat)
    requires Inv(u, s) && i < |s.cos| && Active(s.cos[i]) && u.inOrder && s.ret.InProgress? && s.cos[i].c < |s.claims|
    requires s.wrOffs != s.claims[s.cos[i].c].start
    ensures s.cos[i].c > 0 && !s.claims[s.cos[i].c - 1].done
  {
    var c := s.cos[i].c;
    assert AtWork(u, s, s.cos[i]);
    var d: nat :| FinishedTo(s, d);
    assert c > 0 ==> s.claims[c].start == End(s.claims[c - 1]);
  }

  lemma OrderKeepsInv(u: Setup, s: State, e: Step)
    requires Inv(u, s) && e.Order? && Enabled(u, s, e)
    ensures Inv(u, Next(u, s, e))
  {
    var i, pc := e.i, s.cos[e.i];
    assert AtWork(u, s, pc);
    assert s.claims[pc.c].n > 0;
    if u.inOrder && s.wrOffs != s.claims[pc.c].start && s.ret.InProgress? { NotYet(u, s, i); }
    MoveKeepsInv(u, s, Next(u, s, e), i, Next(u, s, e).cos[i]);
  }

  /** A coroutine without a claim moves. */
  lemma IdleMoves(u: Setup, s: State, e: Step)
    requires |s.target| == |u.source| == |u.init| && Enabled(u, s, e)
    requires
      || e.Enter? || e.Lock? || e.StatusFails? || e.Fail?
      || (e.Leave? && !(s.running == 1 && s.ret.InProgress?))
    ensures Moves(u, s, Next(u, s, e), e.i, Next(u, s, e).cos[e.i])
  {
  }

  /** A coroutine reads its part. */
  lemma ReadMoves(u: Setup, s: State, e: Step)
    requires |s.target| == |u.source| == |u.init| && Enabled(u, s, e) && (e.Read? || e.ReadFails?)
    requires AtWork(u, s, s.cos[e.i])
    ensures Moves(u, s, Next(u, s, e), e.i, Next(u, s, e).cos[e.i])
  {
  }

  lemma SmallStepKeepsInv(u: Setup, s: State, e: Step)
    requires Inv(u, s) && Enabled(u, s, e)
    requires
      || e.Enter? || e.Lock? || e.StatusFails? || e.Fail? || e.Read? || e.ReadFails?
      || (e.Leave? && !(s.running == 1 && s.ret.InProgress?))
    ensures Inv(u, Next(u, s, e))
  {
    if e.Read? || e.ReadFails? {
      assert AtWork(u, s, s.cos[e.i]);
      ReadMoves(u, s, e);
    } else {
      IdleMoves(u, s, e);
    }
    MoveKeepsInv(u, s, Next(u, s, e), e.i, Next(u, s, e).cos[e.i]);
  }

  /** When the last coroutine leaves, nobody is at work, and every part has been copied. */
  lemma LastIsAlone(u: Setup, s: State, e: Step)
    requires Inv(u, s) && e.Leave? && Enabled(u, s, e) && s.running == 1 && s.ret.InProgress?
    ensures forall j :: 0 <= j < |s.cos| ==> !Active(s.cos[j])
    ensures forall c :: 0 <= c < |s.claims| ==> s.claims[c].done
    ensures forall c {:trigger CopiedPart(u, s, c)} :: 0 <= c < |s.claims| ==> CopiedPart(u, s, c)
    ensures Running(s.cos[e.i := Done]) == 0
  {
    RunningUpdate(s.cos, e.i, Done);
    forall j | 0 <= j < |s.cos| ensures !Active(s.cos[j]) { NoneRunning(s.cos[e.i := Done], j); }
    forall c | 0 <= c < |s.claims| ensures s.claims[c].done && CopiedPart(u, s, c) { assert !HasOwner(s, c); }
  }

  /** The last coroutine to leave makes it a success, and rightly so. */
  lemma LastLeaves(u: Setup, s: State, e: Step)
    requires Inv(u, s) && e.Leave? && Enabled(u, s, e) && s.running == 1 && s.ret.InProgress?
    ensures Inv(u, Next(u, s, e)) && s.target == u.source
  {
    LastIsAlone(u, s, e);
    AllCopied(u, s);
    var s2 := Next(u, s, e);
    assert s2 == At(s, e.i, Done).(running := 0, ret := Succeeded);
    assert Owned(u, s2) by { forall j | 0 <= j < |s2.cos| ensures !Active(s2.cos[j]) { } }
    assert Locked(u, s2) by { forall j | 0 <= j < |s2.cos| ensures s2.cos[j].Querying? ==> s.cos[j].Querying? { } }
  }

  // ---------------------------------------------------------------------------------------------
  // Taking on a part

  lemma TakeKeepsPartition(claims: seq<Claim>, sector: nat, c: Claim)
    requires Partition(claims, sector) && c.start == sector && c.n > 0
    ensures Partition(claims + [c], sector + c.n)
  {
  }

  lemma TakeKeepsAtWork(u: Setup, s: State, e: Step, j: nat)
    requires Inv(u, s) && e.Take? && Enabled(u, s, e) && j < |s.cos|
    ensures AtWork(u, Next(u, s, e), Next(u, s, e).cos[j])
    ensures j != e.i && Active(s.cos[j]) ==> s.cos[j].c < |s.claims|
  {
    if j == e.i {
      TakenIsBlank(u, s, e);
    } else {
      assert AtWork(u, s, s.cos[j]);
    }
  }

  lemma TakeKeepsOwner(u: Setup, s: State, e: Step, c: nat)
    requires e.Take? && Enabled(u, s, e) && (c == |s.claims| || HasOwner(s, c))
    ensures HasOwner(Next(u, s, e), c)
  {
    var s2 := Next(u, s, e);
    if c == |s.claims| {
      assert Active(s2.cos[e.i]) && s2.cos[e.i].c == c;
    } else {
      var j :| 0 <= j < |s.cos| && Active(s.cos[j]) && s.cos[j].c == c;
      assert Active(s2.cos[j]) && s2.cos[j].c == c;
    }
  }

  lemma TakeKeepsOwned(u: Setup, s: State, e: Step)
    requires Inv(u, s) && e.Take? && Enabled(u, s, e)
    ensures Owned(u, Next(u, s, e))
  {
    var s2 := Next(u, s, e);
    forall j | 0 <= j < |s2.cos|
      ensures AtWork(u, s2, s2.cos[j]) && (j != e.i && Active(s.cos[j]) ==> s.cos[j].c < |s.claims|)
    {
      TakeKeepsAtWork(u, s, e, j);
    }
    forall c | 0 <= c < |s2.claims| && !s2.claims[c].done
      ensures HasOwner(s2, c)
    {
      if c < |s.claims| { assert HasOwner(s, c); }
      TakeKeepsOwner(u, s, e, c);
    }
  }

  lemma TakenIsBlank(u: Setup, s: State, e: Step)
    requires Inv(u, s) && e.Take? && Enabled(u, s, e)
    ensures
      var end := s.sector + e.n;
      s.target[s.sector..end] == u.init[s.sector..end] && s.target[end..] == u.init[end..]
  {
    forall k | s.sector <= k < |s.target|
      ensures s.target[k] == u.init[k]
    {
      assert s.target[s.sector..][k - s.sector] == u.init[s.sector..][k - s.sector];
    }
  }

  lemma TakeKeepsCopied(u: Setup, s: State, e: Step)
    requires Inv(u, s) && e.Take? && Enabled(u, s, e)
    ensures Copied(u, Next(u, s, e))
  {
    var s2 := Next(u, s, e);
    assert s.sector < |u.source|;
    TakenIsBlank(u, s, e);
    if s2.ret.InProgress? {
      forall c | 0 <= c < |s2.claims| && s2.claims[c].done ensures CopiedPart(u, s2, c) { assert CopiedPart(u, s, c); }
    }
  }

  lemma TakeKeepsInv(u: Setup, s: State, e: Step)
    requires Inv(u, s) && e.Take? && Enabled(u, s, e)
    ensures Inv(u, Next(u, s, e))
  {
    var s2, c := Next(u, s, e), Claim(s.sector, e.n, false);
    TakeKeepsPartition(s.claims, s.sector, c);
    RunningUpdate(s.cos, e.i, Claimed(|s.claims|));
    TakeKeepsOwned(u, s, e);
    TakeKeepsCopied(u, s, e);
    TakeKeepsLocked(u, s, e);
    if u.inOrder && s.ret.InProgress? {
      var d: nat :| FinishedTo(s, d);
      assert FinishedTo(s2, d);
    }
  }

  /** The lock is given up, so that nobody asks for what has just been taken. */
  lemma TakeKeepsLocked(u: Setup, s: State, e: Step)
    requires Inv(u, s) && e.Take? && Enabled(u, s, e)
    ensures Locked(u, Next(u, s, e)) && Free(Next(u, s, e))
  {
    var s2 := Next(u, s, e);
    forall j | 0 <= j < |s2.cos|
      ensures !s2.cos[j].Querying?
    {
      if j != e.i { assert s2.cos[j] == s.cos[j] && s.cos[e.i].Querying?; }
    }
  }

  // ---------------------------------------------------------------------------------------------
  // Writing

  /** A chunk that has been written extends what has been copied of the part: what it skips was there from the start. */
  lemma ChunkCopies(
      init: seq<Sector>, before: seq<Sector>, after: seq<Sector>, start: nat, data: seq<Sector>, count: nat, n: nat)
    requires start + |data| <= |before| == |init| && count + n <= |data|
    requires Convert.Written(init, before, after, start + count, data[count..count + n])
    requires before[start..start + |data|][..count] == data[..count]
    requires before[start..start + |data|][count..] == init[start..start + |data|][count..]
    ensures Convert.SameOutside(before, after, start, |data|)
    ensures
      var p, z := after[start..start + |data|], init[start..start + |data|];
      p[..count + n] == data[..count + n] && p[count + n..] == z[count + n..]
  {
    var b, z := before[start..start + |data|], init[start..start + |data|];
    ChunkOutside(before, after, start, |data|, count, n);
    forall x | start + count <= x < start + |data|
      ensures before[x] == init[x]
    {
      assert b[count..][x - start - count] == z[count..][x - start - count];
    }
    var p := after[start..start + |data|];
    forall k | 0 <= k < count + n
      ensures p[k] == data[k]
    {
      if k < count {
        assert b[..count][k] == data[..count][k];
        assert after[start + k] == before[start + k];
      } else {
        assert data[count..count + n][k - count] == data[k];
        assert before[start + k] == init[start + k];
      }
    }
  }

  /** A change inside a chunk of a part leaves the rest of the part and all other sectors alone. */
  lemma ChunkOutside(before: seq<Sector>, after: seq<Sector>, start: nat, len: nat, count: nat, n: nat)
    requires start + len <= |before| && count + n <= len && Convert.SameOutside(before, after, start + count, n)
    ensures Convert.SameOutside(before, after, start, len)
    ensures forall k :: 0 <= k < |before| && (k < start + count || start + count + n <= k) ==> after[k] == before[k]
  {
    var a, b := start + count, start + count + n;
    forall k | 0 <= k < a ensures after[k] == before[k] { assert after[..a][k] == before[..a][k]; }
    forall k | b <= k < |before| ensures after[k] == before[k] { assert after[b..][k - b] == before[b..][k - b]; }
  }

  lemma WriteHolds(u: Setup, s: State, e: Step)
    requires |s.target| == |u.source| == |u.init| && e.Write? && Enabled(u, s, e) && AtWork(u, s, s.cos[e.i])
    ensures AtWork(u, Next(u, s, e), Next(u, s, e).cos[e.i]) && WritesOwn(s, e.target, s.cos[e.i])
  {
    var pc := s.cos[e.i];
    var claim := s.claims[pc.c];
    ChunkCopies(u.init, s.target, e.target, claim.start, pc.data, pc.count, e.n);
    var p, q := Part(e.target, claim), Part(u.source, claim);
    if pc.count + e.n == |q| { assert p[..|q|] == p && q[..|q|] == q; }
  }

  lemma WriteMoves(u: Setup, s: State, e: Step)
    requires |s.target| == |u.source| == |u.init| && e.Write? && Enabled(u, s, e) && AtWork(u, s, s.cos[e.i])
    ensures Moves(u, s, Next(u, s, e), e.i, Next(u, s, e).cos[e.i])
  {
    WriteHolds(u, s, e);
  }

  lemma WriteFailsMoves(u: Setup, s: State, e: Step)
    requires |s.target| == |u.source| == |u.init| && e.WriteFails? && Enabled(u, s, e) && AtWork(u, s, s.cos[e.i])
    ensures Moves(u, s, Next(u, s, e), e.i, Next(u, s, e).cos[e.i])
  {
    var pc, s2 := s.cos[e.i], Next(u, s, e);
    ChunkOutside(s.target, s2.target, s.claims[pc.c].start, |pc.data|, pc.count, e.n);
  }

  lemma WriteKeepsInv(u: Setup, s: State, e: Step)
    requires Inv(u, s) && (e.Write? || e.WriteFails?) && Enabled(u, s, e)
    ensures Inv(u, Next(u, s, e))
  {
    assert AtWork(u, s, s.cos[e.i]);
    if e.Write? { WriteMoves(u, s, e); } else { WriteFailsMoves(u, s, e); }
    MoveKeepsInv(u, s, Next(u, s, e), e.i, Next(u, s, e).cos[e.i]);
  }

  // ---------------------------------------------------------------------------------------------
  // Finishing a part

  lemma SamePlacesKeepPartition(claims: seq<Claim>, claims2: seq<Claim>, sector: nat)
    requires Partition(claims, sector) && |claims2| == |claims|
    requires forall c {:trigger claims2[c]} ::
      0 <= c < |claims| ==> claims2[c].start == claims[c].start && claims2[c].n == claims[c].n
    ensures Partition(claims2, sector)
  {
  }

  /** With ordered writes and without failure, the part that is finished is the first that was not. */
  lemma FinishesFirst(u: Setup, s: State, i: nat)
    requires Inv(u, s) && i < |s.cos| && s.cos[i].Finishing? && u.inOrder && s.ret.InProgress?
    ensures FinishedTo(s, s.cos[i].c) && s.cos[i].c < |s.claims|
  {
    var c := s.cos[i].c;
    assert AtWork(u, s, s.cos[i]);
    var d: nat :| FinishedTo(s, d);
    assert 0 < d < |s.claims| ==> s.claims[d].start == End(s.claims[d - 1]);
    if d < c {
      assert s.claims[d].n > 0;
      ClaimsInOrder(s.claims, s.sector, d, c);
    }
  }

  /** The coroutine waiting for the end of claim `c`, if any, is the one with the next claim. */
  lemma WaiterIsNext(u: Setup, s: State, c: nat, j: nat)
    requires Inv(u, s) && c < |s.claims| && j < |s.cos| && s.cos[j].Waiting?
    ensures s.cos[j].c < |s.claims| && (s.claims[s.cos[j].c].start == End(s.claims[c]) <==> s.cos[j].c == c + 1)
  {
    assert AtWork(u, s, s.cos[j]);
    var d := s.cos[j].c;
    assert s.claims[d].n > 0 && End(s.claims[d]) <= s.sector;
    if s.claims[d].start == End(s.claims[c]) {
      assert s.claims[c + 1].start == End(s.claims[c]);
      SameStart(s.claims, s.sector, d, c + 1);
    }
    assert d == c + 1 ==> s.claims[d].start == End(s.claims[c]);
  }

  /** What finishing a part does to the other coroutines: the one that waits for it goes on. */
  lemma FinishOthers(u: Setup, s: State, e: Step, j: nat)
    requires Inv(u, s) && e.Finish? && Enabled(u, s, e) && j < |s.cos| && j != e.i
    ensures
      var s2 := Next(u, s, e);
      && |s2.cos| == |s.cos|
      && (s2.cos[j] == s.cos[j] || (s.cos[j].Waiting? && s2.cos[j] == Filled(s.cos[j].c, s.cos[j].data)))
      && (s.cos[j].Waiting? && s.cos[j].c == s.cos[e.i].c + 1 ==> s2.cos[j].Filled?)
  {
    var c := s.cos[e.i].c;
    if s.cos[j].Waiting? {
      WaiterIsNext(u, s, c, j);
      assert AtWork(u, s, s.cos[j]);
      var s1 := Finished(s, e.i);
      var w := FirstWaiter(s1, End(s.claims[c]), 0);
      if s.cos[j].c == c + 1 && w != j {
        assert WaitsAt(s1, s1.cos[j], End(s.claims[c]));
        assert w < j;
        WaiterIsNext(u, s, c, w);
      }
    }
  }

  /** The same state, one more part finished and some of the waiting coroutines woken. */
  ghost predicate Finishes(u: Setup, s: State, s2: State, i: nat) {
    && i < |s.cos| && s.cos[i].Finishing? && s.cos[i].c < |s.claims|
    && s2.claims == s.claims[s.cos[i].c := s.claims[s.cos[i].c].(done := true)]
    && s2.target == s.target && s2.sector == s.sector && s2.ret == s.ret
    && |s2.cos| == |s.cos| && s2.cos[i].Idle?
    && forall j {:trigger s2.cos[j]} :: 0 <= j < |s.cos| && j != i ==>
         && (s2.cos[j] == s.cos[j] || (s.cos[j].Waiting? && s2.cos[j] == Filled(s.cos[j].c, s.cos[j].data)))
         && (s.cos[j].Waiting? && s.cos[j].c == s.cos[i].c + 1 ==> s2.cos[j].Filled?)
  }

  lemma FinishFinishes(u: Setup, s: State, e: Step)
    requires Inv(u, s) && e.Finish? && Enabled(u, s, e)
    ensures Finishes(u, s, Next(u, s, e), e.i)
  {
    var s2 := Next(u, s, e);
    assert s2.cos[e.i].Idle? by {
      var s1 := Finished(s, e.i);
      assert s1.cos[e.i].Idle?;
    }
    forall j | 0 <= j < |s.cos| && j != e.i
      ensures s2.cos[j] == s.cos[j] || (s.cos[j].Waiting? && s2.cos[j] == Filled(s.cos[j].c, s.cos[j].data))
      ensures s.cos[j].Waiting? && s.cos[j].c == s.cos[e.i].c + 1 ==> s2.cos[j].Filled?
    {
      FinishOthers(u, s, e, j);
    }
  }

  lemma FinishKeepsAtWork(u: Setup, s: State, s2: State, i: nat, j: nat)
    requires Inv(u, s) && Finishes(u, s, s2, i) && j < |s.cos| && j != i
    ensures AtWork(u, s2, s2.cos[j])
  {
    assert AtWork(u, s, s.cos[j]) && AtWork(u, s, s.cos[i]);
    if Active(s.cos[j]) {
      assert s.cos[j].c != s.cos[i].c;
      SameTurn(u, s, i, j);
    }
  }

  /** It is the turn of only one coroutine. */
  lemma SameTurn(u: Setup, s: State, i: nat, j: nat)
    requires Inv(u, s) && i < |s.cos| && j < |s.cos| && i != j && s.cos[i].Finishing? && Active(s.cos[j])
    ensures u.inOrder && s.ret.InProgress? ==> !s.cos[j].Writing? && !s.cos[j].Finishing?
  {
    assert AtWork(u, s, s.cos[i]) && AtWork(u, s, s.cos[j]);
    if u.inOrder && s.ret.InProgress? && (s.cos[j].Writing? || s.cos[j].Finishing?) {
      SameStart(s.claims, s.sector, s.cos[i].c, s.cos[j].c);
    }
  }

  lemma FinishKeepsOwned(u: Setup, s: State, s2: State, i: nat)
    requires Inv(u, s) && Finishes(u, s, s2, i)
    ensures Owned(u, s2)
  {
    forall j | 0 <= j < |s2.cos| ensures AtWork(u, s2, s2.cos[j]) { if j != i { FinishKeepsAtWork(u, s, s2, i, j); } }
    forall d | 0 <= d < |s2.claims| && !s2.claims[d].done
      ensures HasOwner(s2, d)
    {
      assert HasOwner(s, d);
      var j :| 0 <= j < |s.cos| && Active(s.cos[j]) && s.cos[j].c == d;
      assert Active(s2.cos[j]) && s2.cos[j].c == d;
    }
  }

  lemma FinishKeepsCopied(u: Setup, s: State, s2: State, i: nat)
    requires Inv(u, s) && Finishes(u, s, s2, i)
    ensures Copied(u, s2)
  {
    assert AtWork(u, s, s.cos[i]);
    if s2.ret.InProgress? {
      forall d | 0 <= d < |s2.claims| && s2.claims[d].done
        ensures CopiedPart(u, s2, d)
      {
        if d != s.cos[i].c { assert s2.claims[d] == s.claims[d] && CopiedPart(u, s, d); }
      }
    }
  }

  lemma FinishKeepsOrdered(u: Setup, s: State, e: Step)
    requires Inv(u, s) && e.Finish? && Enabled(u, s, e)
    ensures Ordered(u, Next(u, s, e))
  {
    if u.inOrder && s.ret.InProgress? {
      FinishesFirst(u, s, e.i);
      assert FinishedTo(Next(u, s, e), s.cos[e.i].c + 1);
    }
  }

  lemma FinishKeepsRunning(u: Setup, s: State, e: Step)
    requires Inv(u, s) && e.Finish? && Enabled(u, s, e)
    ensures Next(u, s, e).running == Running(Next(u, s, e).cos)
  {
    var s1 := Finished(s, e.i);
    RunningUpdate(s.cos, e.i, Idle);
    var w := FirstWaiter(s1, End(s.claims[s.cos[e.i].c]), 0);
    if w < |s1.cos| { RunningUpdate(s1.cos, w, Filled(s1.cos[w].c, s1.cos[w].data)); }
  }

  lemma FinishKeepsLocked(u: Setup, s: State, s2: State, i: nat)
    requires Inv(u, s) && Finishes(u, s, s2, i)
    ensures Locked(u, s2)
  {
    forall j | 0 <= j < |s.cos| ensures s2.cos[j].Querying? ==> s.cos[j].Querying? { }
  }

  lemma FinishKeepsInv(u: Setup, s: State, e: Step)
    requires Inv(u, s) && e.Finish? && Enabled(u, s, e)
    ensures Inv(u, Next(u, s, e))
  {
    var s2 := Next(u, s, e);
    FinishFinishes(u, s, e);
    FinishKeepsOwned(u, s, s2, e.i);
    FinishKeepsLocked(u, s, s2, e.i);
    FinishKeepsCopied(u, s, s2, e.i);
    FinishKeepsRunning(u, s, e);
    FinishKeepsOrdered(u, s, e);
    SamePlacesKeepPartition(s.claims, s2.claims, s.sector);
  }

  /** Every step keeps the invariant. */
  lemma StepKeepsInv(u: Setup, s: State, e: Step)
    requires Inv(u, s) && Enabled(u, s, e)
    ensures Inv(u, Next(u, s, e))
  {
    match e
    case Take(_, _) => TakeKeepsInv(u, s, e);
    case Order(_) => OrderKeepsInv(u, s, e);
    case Write(_, _, _) => WriteKeepsInv(u, s, e);
    case WriteFails(_, _, _, _) => WriteKeepsInv(u, s, e);
    case Finish(_) => FinishKeepsInv(u, s, e);
    case Leave(_) =>
      if s.running == 1 && s.ret.InProgress? { LastLeaves(u, s, e); } else { SmallStepKeepsInv(u, s, e); }
    case _ => SmallStepKeepsInv(u, s, e);
  }

  // ---------------------------------------------------------------------------------------------
  // Runs

  /** The state in which convert_do_copy creates its coroutines. */
  ghost predicate Initial(u: Setup, s: State) {
    && s.sector == 0 && s.ret.InProgress? && s.wrOffs == 0 && s.running == 0 && s.claims == []
    && |u.init| == |u.source| && s.target == u.init
    && forall i :: 0 <= i < |s.cos| ==> s.cos[i].NotEntered?
  }

  ghost predicate IsRun(u: Setup, states: seq<State>, steps: seq<Step>) {
    && |states| == |steps| + 1 && Initial(u, states[0])
    && forall i :: 0 <= i < |steps| ==>
         Enabled(u, states[i], steps[i]) && states[i + 1] == Next(u, states[i], steps[i])
  }

  lemma {:induction false} NobodyRunning(cos: seq<Pc>)
    requires forall i :: 0 <= i < |cos| ==> cos[i].NotEntered?
    ensures Running(cos) == 0
    decreases |cos|
  {
    if cos != [] { NobodyRunning(cos[..|cos| - 1]); }
  }

  lemma {:induction false} RunKeepsInv(u: Setup, states: seq<State>, steps: seq<Step>, i: nat)
    requires IsRun(u, states, steps) && i < |states|
    ensures Inv(u, states[i])
    decreases i
  {
    if i == 0 {
      NobodyRunning(states[0].cos);
      assert states[0].target[0..] == states[0].target;
      assert FinishedTo(states[0], 0);
    } else {
      RunKeepsInv(u, states, steps, i - 1);
      StepKeepsInv(u, states[i - 1], steps[i - 1]);
    }
  }

  /** A conversion that reports success has made the target the concatenation of the sources. */
  lemma SuccessIsACopy(u: Setup, states: seq<State>, steps: seq<Step>, i: nat)
    requires IsRun(u, states, steps) && i < |states| && states[i].ret.Succeeded?
    ensures states[i].target == u.source && states[i].sector == |u.source|
    ensures forall c :: 0 <= c < |states[i].claims| ==> states[i].claims[c].done
  {
    RunKeepsInv(u, states, steps, i);
  }

  /** The parts that coroutines take on follow each other from the start of the image, without gap or overlap. */
  lemma ClaimsPartition(u: Setup, states: seq<State>, steps: seq<Step>, i: nat)
    requires IsRun(u, states, steps) && i < |states|
    ensures Partition(states[i].claims, states[i].sector) && states[i].sector <= |u.source|
  {
    RunKeepsInv(u, states, steps, i);
  }

  /** With ordered writes and no failure, a chunk is written only when everything before it has been copied. */
  lemma WritesInOrder(u: Setup, states: seq<State>, steps: seq<Step>, i: nat, j: nat)
    requires IsRun(u, states, steps) && i < |states| && u.inOrder && states[i].ret.InProgress?
    requires j < |states[i].cos| && states[i].cos[j].Writing?
    ensures
      var s, pc := states[i], states[i].cos[j];
      && pc.c < |s.claims|
      && var end := s.claims[pc.c].start + pc.count;
         end <= |u.source| == |s.target| && s.target[..end] == u.source[..end]
  {
    var s, pc := states[i], states[i].cos[j];
    RunKeepsInv(u, states, steps, i);
    assert AtWork(u, s, pc);
    var claim := s.claims[pc.c];
    var d: nat :| FinishedTo(s, d);
    forall k | 0 <= k < claim.start + pc.count
      ensures s.target[k] == u.source[k]
    {
      if k < claim.start {
        var b := SectorHasClaim(s.claims, s.sector, k);
        BelowIsDone(s, d, b, k);
        assert CopiedPart(u, s, b);
        PartAt(u, s, b, k);
      } else {
        var p, q := Part(s.target, claim), Part(u.source, claim);
        assert p[..pc.count][k - claim.start] == q[..pc.count][k - claim.start];
      }
    }
  }

  lemma BelowIsDone(s: State, d: nat, b: nat, k: nat)
    requires Partition(s.claims, s.sector) && FinishedTo(s, d) && b < |s.claims| && s.claims[b].start <= k < s.wrOffs
    ensures s.claims[b].done
  {
    if b >= d {
      assert 0 < d ==> s.claims[d].start == End(s.claims[d - 1]);
      if d < b { assert s.claims[d].n > 0; ClaimsInOrder(s.claims, s.sector, d, b); }
    }
  }

  /** A coroutine that waits has one at work on the part that ends where its own starts, and that will wake it. */
  lemma WaiterHasOwner(u: Setup, states: seq<State>, steps: seq<Step>, i: nat, j: nat) returns (k: nat)
    requires IsRun(u, states, steps) && i < |states| && j < |states[i].cos| && states[i].cos[j].Waiting?
    ensures
      var s := states[i];
      && k < |s.cos| && k != j && Active(s.cos[k]) && s.cos[k].c < |s.claims| && s.cos[j].c < |s.claims|
      && End(s.claims[s.cos[k].c]) == s.claims[s.cos[j].c].start
  {
    var s := states[i];
    RunKeepsInv(u, states, steps, i);
    assert AtWork(u, s, s.cos[j]);
    var c := s.cos[j].c;
    assert HasOwner(s, c - 1);
    k :| 0 <= k < |s.cos| && Active(s.cos[k]) && s.cos[k].c == c - 1;
    assert s.claims[c].start == End(s.claims[c - 1]);
  }

  /** Finishing that part wakes it. */
  lemma FinishWakes(u: Setup, states: seq<State>, steps: seq<Step>, i: nat, j: nat)
    requires IsRun(u, states, steps) && i < |steps| && steps[i].Finish?
    requires j < |states[i].cos| && states[i].cos[j].Waiting?
    requires states[i].cos[j].c == states[i].cos[steps[i].i].c + 1
    ensures j < |states[i + 1].cos| && states[i + 1].cos[j].Filled?
  {
    RunKeepsInv(u, states, steps, i);
    FinishOthers(u, states[i], steps[i], j);
  }

  /** While some coroutine has not left, some coroutine that has not left neither waits nor is kept out by the lock. */
  lemma {:induction false} SomeoneIsFree(u: Setup, s: State, j: nat) returns (k: nat)
    requires Inv(u, s) && j < |s.cos| && !s.cos[j].Done?
    ensures k < |s.cos| && !s.cos[k].Done? && !s.cos[k].Waiting? && (s.cos[k].Idle? ==> Free(s))
    decreases if s.cos[j].Waiting? then s.cos[j].c + 1 else 0
  {
    k := j;
    if s.cos[j].Waiting? {
      assert AtWork(u, s, s.cos[j]);
      var c := s.cos[j].c;
      assert HasOwner(s, c - 1);
      var m :| 0 <= m < |s.cos| && Active(s.cos[m]) && s.cos[m].c == c - 1;
      k := SomeoneIsFree(u, s, m);
    } else if !Free(s) {
      k :| 0 <= k < |s.cos| && s.cos[k].Querying?;
    }
  }

  /** The next sector of a coroutine's part can be written. */
  lemma CanWriteOne(u: Setup, s: State, k: nat) returns (e: Step)
    requires Inv(u, s) && k < |s.cos| && s.cos[k].Writing?
    ensures e.Write? && Enabled(u, s, e)
  {
    var pc := s.cos[k];
    assert AtWork(u, s, pc);
    var a := s.claims[pc.c].start + pc.count;
    e := Write(k, 1, s.target[a := pc.data[pc.count]]);
  }

  /**
  There is no deadlock, also after failures: until all coroutines have left, one of them can take a step, and that
  without a query, a read or a write that fails.
  */
  lemma NoDeadlock(u: Setup, states: seq<State>, steps: seq<Step>, i: nat, j: nat) returns (e: Step)
    requires IsRun(u, states, steps) && i < |states| && j < |states[i].cos| && !states[i].cos[j].Done?
    ensures Enabled(u, states[i], e) && !e.StatusFails? && !e.ReadFails? && !e.WriteFails?
  {
    var s := states[i];
    RunKeepsInv(u, states, steps, i);
    var k := SomeoneIsFree(u, s, j);
    assert AtWork(u, s, s.cos[k]);
    match s.cos[k]
    case NotEntered => e := Enter(k);
    case Idle => e := if s.ret.InProgress? && s.sector < |u.source| then Lock(k) else Leave(k);
    case Querying => e := Take(k, 1);
    case Failing(_) => e := Fail(k);
    case Claimed(_) => e := Read(k);
    case Filled(_, _) => e := Order(k);
    case Writing(_, _, _) => e := CanWriteOne(u, s, k);
    case Finishing(_) => e := Finish(k);
  }
}
