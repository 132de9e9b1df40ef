/** Runs of a download to a stream in which the frontier chunk is held up: worker 0 transfers the chunks before it, takes
    it and pauses, worker 1 transfers chunks behind it, and others pass the eligibility check for a duplicate of it. */
module Frontier {
  import opened Basics
  import opened Chunks
  import opened Scheduling
  import opened WorkerPool
  import opened PoolTheorems
  import opened Streaming
  import opened StreamRuns
  import T = StreamTransfer
  import Median

  /** All workers but worker 0 are at the beginning of their loop. */
  ghost predicate OthersWait(p: Pool) {
    forall v: nat :: 1 <= v < |p.workers| ==> p.workers[v] == p.workers[v].(pc := Head, slot := v, hedge := false)
  }

  // ----- the chunks before the frontier

  /** The first k chunks have been transferred and written. */
  ghost predicate Served(s: T.Stream, cfg: Config, plan: seq<Chunk>, k: nat) {
    && k <= |plan| && ValidConfig(cfg) && Smooth(s, cfg, plan) && Unhedged(s.pool) && AtHead(s.pool, 0) && OthersWait(s.pool)
    && s.pool.sched.nextUndispatched == k && s.pool.sched.completedCount == k && s.pool.sched.activeCount == 0
    && (forall i :: 0 <= i < k ==> s.pool.sched.chunks[i].state == Completed)
    && s.pool.sched.effectiveTarget >= Min(2, InitialTarget(cfg, |plan|)) && Min(k, 4) <= |s.pool.sched.recent| <= Min(k, 32)
    && (k <= 4 ==> s.pool.sched.effectiveTarget == InitialTarget(cfg, |plan|))
    && s.sink.reserved == 0 && s.sink.nextIndex == k && s.sink.completed == map[] && s.writer.Entering?
  }

  lemma StartServed(cfg: Config, plan: seq<Chunk>, src: seq<byte>, now: nat)
    requires T.ValidSetup(cfg, plan, src) && (forall i :: 0 <= i < |plan| ==> !plan[i].hedged)
    requires cfg.connections >= 2 && |plan| >= 2
    ensures Served(T.Init(cfg, plan, now), cfg, plan, 0)
  {
    assert InState(plan, Completed) == {};
  }

  lemma RoomForTwo(cfg: Config, n: nat)
    requires ValidConfig(cfg) && cfg.connections >= 2 && n >= 2 && cfg.bufferSize >= 2 * cfg.splitSize
    ensures InitialTarget(cfg, n) >= 2
  {
    assert cfg.bufferSize / cfg.splitSize >= 2;
  }

  lemma ServedParts(s: T.Stream, cfg: Config, plan: seq<Chunk>, k: nat)
    requires Served(s, cfg, plan, k) && k < |plan|
    ensures Smooth(s, cfg, plan) && AtHead(s.pool, 0) && NotOffered(s)
    ensures s.pool.sched.nextUndispatched == k && s.pool.sched.completedCount == k
    ensures s.pool.sched.activeCount < s.pool.sched.effectiveTarget && s.sink.reserved == 0 && s.sink.bufferSize == cfg.bufferSize
  {
  }

  function Written(s: T.Stream): T.Stream
    requires s.sink.nextIndex in s.sink.completed
  {
    var t := Taken(s);
    t.(writer := T.Entering, out := t.out + t.writer.cd.data, sink := t.sink.(writtenCount := t.sink.writtenCount + 1))
  }

  lemma ServedMore(s: T.Stream, t: T.Stream, u: T.Stream, cfg: Config, plan: seq<Chunk>, src: seq<byte>, k: nat)
    requires Served(s, cfg, plan, k) && k < |plan| && Got(s, t, 0) && Done(t, u, src, 0, k) && Smooth(u, cfg, plan)
    ensures u.writer.Entering? && !u.sink.fatal && !u.sink.closed && u.sink.nextIndex == k
    ensures k in u.sink.completed && k + 1 !in u.sink.completed
    ensures Served(Written(u), cfg, plan, k + 1)
  {
    assert u.sink.completed - {k} == map[];
  }

  lemma ServeOne(s0: T.Stream, s: T.Stream, cfg: Config, plan: seq<Chunk>, src: seq<byte>, k: nat) returns (r: T.Stream)
    requires Layout(plan, |src|) && k < |plan| && Reaches(s0, s, src) && Served(s, cfg, plan, k)
    requires plan[k].length <= cfg.bufferSize
    ensures Reaches(s0, r, src) && Served(r, cfg, plan, k + 1)
  {
    ServedParts(s, cfg, plan, k);
    var t := Get(s0, s, cfg, plan, src, 0);
    GotCarries(s, t, cfg, plan, src, 0);
    GotSink(s, t, 0);
    hide Served, Reaches, Got, Carrying, Layout, Smooth, Done;
    var u := Carry(s0, t, cfg, plan, src, 0, k);
    ServedMore(s, t, u, cfg, plan, src, k);
    DoTake(s0, u, src);
    DoWritten(s0, Taken(u), src);
    r := Written(u);
  }

  lemma {:induction false} Serve(s0: T.Stream, s: T.Stream, cfg: Config, plan: seq<Chunk>, src: seq<byte>, k: nat, m: nat) returns (r: T.Stream)
    requires Layout(plan, |src|) && k <= m < |plan| && Reaches(s0, s, src) && Served(s, cfg, plan, k)
    requires forall i :: 0 <= i < |plan| ==> plan[i].length <= cfg.bufferSize
    ensures Reaches(s0, r, src) && Served(r, cfg, plan, m)
    decreases m - k
  {
    hide *;
    if k == m {
      r := s;
    } else {
      var t := ServeOne(s0, s, cfg, plan, src, k);
      r := Serve(s0, t, cfg, plan, src, k + 1, m);
    }
  }

  // ----- the frontier chunk is held up

  /** Worker 0 stands before Reserve with the frontier chunk f; the next d chunks are complete and buffered. */
  ghost predicate HeldUp(s: T.Stream, cfg: Config, plan: seq<Chunk>, src: seq<byte>, f: nat, d: nat)
    requires f + 1 + d <= |plan|
  {
    && ValidConfig(cfg) && Carrying(s, cfg, plan, src, 0, f) && Unhedged(s.pool) && OthersWait(s.pool)
    && s.pool.sched.nextUndispatched == f + 1 + d && s.pool.sched.completedCount == f + d && s.pool.sched.activeCount == 1
    && (forall i :: 0 <= i < f + 1 + d && i != f ==> s.pool.sched.chunks[i].state == Completed)
    && s.pool.sched.chunks[f].workerSlot == 0 && !s.pool.sched.chunks[f].hedged
    && s.pool.sched.effectiveTarget >= 2 && Min(f + d, 4) <= |s.pool.sched.recent| <= Min(f + d, 32)
    && (f <= 3 && f + d <= 4 ==> s.pool.sched.effectiveTarget == InitialTarget(cfg, |plan|))
    && s.sink.reserved == Boundary(plan, |src|, f + 1 + d) - Boundary(plan, |src|, f + 1) && s.sink.nextIndex == f
    && (forall i :: i in s.sink.completed <==> f < i < f + 1 + d) && s.writer.Entering?
  }

  lemma NowHeldUp(s: T.Stream, t: T.Stream, cfg: Config, plan: seq<Chunk>, src: seq<byte>, f: nat)
    requires Layout(plan, |src|) && Served(s, cfg, plan, f) && f < |plan| && Got(s, t, 0) && Carrying(t, cfg, plan, src, 0, f)
    requires cfg.connections >= 2 && |plan| >= 2 && cfg.bufferSize >= 2 * cfg.splitSize
    ensures HeldUp(t, cfg, plan, src, f, 0)
  {
    RoomForTwo(cfg, |plan|);
    hide Layout, InitialTarget;
  }

  /** With fewer than two chunks behind it complete, or fewer than four in all, the frontier chunk is not offered. */
  lemma HeldUpParts(s: T.Stream, cfg: Config, plan: seq<Chunk>, src: seq<byte>, f: nat, d: nat)
    requires f + 1 + d < |plan| && (d <= 1 || f + d <= 3) && HeldUp(s, cfg, plan, src, f, d) && cfg.connections >= 2
    ensures Smooth(s, cfg, plan) && AtHead(s.pool, 1) && NotOffered(s)
    ensures s.pool.sched.nextUndispatched == f + 1 + d && s.pool.sched.completedCount < |plan|
    ensures s.pool.sched.activeCount < s.pool.sched.effectiveTarget && s.sink.bufferSize == cfg.bufferSize
    ensures s.sink.reserved == Boundary(plan, |src|, f + 1 + d) - Boundary(plan, |src|, f + 1)
  {
    HedgeConditions(s.pool.sched, f, s.sink.reserved, s.sink.bufferSize, s.pool.now);
    OfferedIsFrontier(s.pool.sched, f, s.sink.reserved, s.sink.bufferSize, s.pool.now);
    hide HedgeEligible;
  }

  lemma OfferedIsFrontier(s: Sched, f: nat, reserved: int, bufferSize: int, now: int)
    ensures HedgeEligible(s, f, reserved, bufferSize, now) in {-1, f as int}
  {
    hide LaterDone, Median.MedianOf;
  }

  lemma HeldUpMore(s: T.Stream, u: T.Stream, cfg: Config, plan: seq<Chunk>, src: seq<byte>, f: nat, d: nat)
    requires Layout(plan, |src|) && f + 1 + d < |plan| && HeldUp(s, cfg, plan, src, f, d)
    requires Transferred(s, u, 1, f + 1 + d) && Smooth(u, cfg, plan)
    ensures HeldUp(u, cfg, plan, src, f, d + 1)
  {
    BoundaryStep(plan, |src|, f + 1 + d);
    HolderStays(s, u, cfg, plan, src, f, f + 1 + d);
    SmoothSizes(s, cfg, plan, src, f);
    hide Layout, Carrying, Smooth, Boundary, InitialTarget;
  }

  lemma RecentBounded(s: T.Stream, cfg: Config, plan: seq<Chunk>, src: seq<byte>, f: nat, d: nat)
    requires f + 1 + d <= |plan| && HeldUp(s, cfg, plan, src, f, d)
    ensures |s.pool.sched.recent| <= DURATION_WINDOW
  {
  }

  lemma SmoothSizes(s: T.Stream, cfg: Config, plan: seq<Chunk>, src: seq<byte>, f: nat)
    requires Carrying(s, cfg, plan, src, 0, f)
    ensures |s.pool.sched.chunks| == |plan| && 0 < |s.pool.workers|
    ensures forall i :: 0 <= i < |plan| ==> s.pool.sched.chunks[i].length == plan[i].length
  {
  }

  /** What worker 1 does leaves worker 0 and its chunk alone. */
  lemma HolderStays(s: T.Stream, u: T.Stream, cfg: Config, plan: seq<Chunk>, src: seq<byte>, f: nat, i: nat)
    requires Carrying(s, cfg, plan, src, 0, f) && Transferred(s, u, 1, i) && Smooth(u, cfg, plan)
    ensures Carrying(u, cfg, plan, src, 0, f)
  {
  }

  /** Worker 1 transfers the chunk after those. */
  lemma Pass(s0: T.Stream, s: T.Stream, cfg: Config, plan: seq<Chunk>, src: seq<byte>, f: nat, d: nat) returns (r: T.Stream)
    requires Layout(plan, |src|) && f + 1 + d < |plan| && (d <= 1 || f + d <= 3) && cfg.connections >= 2
    requires Reaches(s0, s, src) && HeldUp(s, cfg, plan, src, f, d)
    requires Boundary(plan, |src|, f + 1 + d + 1) - Boundary(plan, |src|, f + 1) <= cfg.bufferSize
    ensures Reaches(s0, r, src) && HeldUp(r, cfg, plan, src, f, d + 1)
  {
    HeldUpParts(s, cfg, plan, src, f, d);
    RecentBounded(s, cfg, plan, src, f, d);
    BoundaryStep(plan, |src|, f + 1 + d);
    hide HeldUp, Reaches, Layout, Smooth, Transferred, NotOffered;
    r := TransferNext(s0, s, cfg, plan, src, 1);
    HeldUpMore(s, r, cfg, plan, src, f, d);
  }

  lemma {:induction false} PassMany(s0: T.Stream, s: T.Stream, cfg: Config, plan: seq<Chunk>, src: seq<byte>, f: nat, d: nat, m: nat)
    returns (r: T.Stream)
    requires Layout(plan, |src|) && d <= m && f + 1 + m <= |plan| && (m <= 2 || f + m <= 4) && cfg.connections >= 2
    requires Reaches(s0, s, src) && HeldUp(s, cfg, plan, src, f, d)
    requires Boundary(plan, |src|, f + 1 + m) - Boundary(plan, |src|, f + 1) <= cfg.bufferSize
    ensures Reaches(s0, r, src) && HeldUp(r, cfg, plan, src, f, m)
    decreases m - d
  {
    hide *;
    if d == m {
      r := s;
    } else {
      BoundariesGrow(plan, |src|, f + 1 + d + 1, f + 1 + m);
      var t := Pass(s0, s, cfg, plan, src, f, d);
      r := PassMany(s0, t, cfg, plan, src, f, d + 1, m);
    }
  }

  /** From the chunks before it to the held-up frontier chunk f with d chunks behind it complete. */
  lemma HoldUpFrom(s0: T.Stream, s: T.Stream, cfg: Config, plan: seq<Chunk>, src: seq<byte>, f: nat, d: nat) returns (r: T.Stream)
    requires Layout(plan, |src|) && cfg.connections >= 2 && Reaches(s0, s, src) && f < |plan| && Served(s, cfg, plan, f)
    requires cfg.bufferSize >= 2 * cfg.splitSize && |plan| >= 2
    requires f + 1 + d <= |plan| && (d <= 2 || f + d <= 4)
    requires Boundary(plan, |src|, f + 1 + d) - Boundary(plan, |src|, f + 1) <= cfg.bufferSize
    ensures Reaches(s0, r, src) && HeldUp(r, cfg, plan, src, f, d)
  {
    hide Layout, Served, Reaches, HeldUp, Got, Boundary;
    ServedParts(s, cfg, plan, f);
    var t := Get(s0, s, cfg, plan, src, 0);
    GotCarries(s, t, cfg, plan, src, 0);
    NowHeldUp(s, t, cfg, plan, src, f);
    r := PassMany(s0, t, cfg, plan, src, f, 0, d);
  }

  /** From the beginning to the held-up frontier chunk f with d chunks behind it complete. */
  lemma HoldUp(cfg: Config, plan: seq<Chunk>, src: seq<byte>, now: nat, f: nat, d: nat) returns (r: T.Stream)
    requires T.ValidSetup(cfg, plan, src) && (forall i :: 0 <= i < |plan| ==> !plan[i].hedged && plan[i].length <= cfg.splitSize)
    requires cfg.connections >= 2 && cfg.bufferSize >= 2 * cfg.splitSize
    requires 1 <= d && f + 1 + d <= |plan| && (d <= 2 || f + d <= 4)
    requires Boundary(plan, |src|, f + 1 + d) - Boundary(plan, |src|, f + 1) <= cfg.bufferSize
    ensures Reaches(T.Init(cfg, plan, now), r, src) && HeldUp(r, cfg, plan, src, f, d)
  {
    var s0 := T.Init(cfg, plan, now);
    StartServed(cfg, plan, src, now);
    ReachSelf(s0, src);
    hide Layout, Served, Reaches, T.Init, HeldUp, Boundary;
    var s := Serve(s0, s0, cfg, plan, src, 0, f);
    r := HoldUpFrom(s0, s, cfg, plan, src, f, d);
  }

  // ----- others pass the check

  /** The frontier chunk is offered to whoever asks. */
  ghost predicate Offered(s: T.Stream, f: nat) {
    HedgeEligible(s.pool.sched, s.sink.nextIndex, s.sink.reserved, s.sink.bufferSize, s.pool.now) == f
  }

  function Later(s: T.Stream, d: nat): T.Stream {
    s.(pool := s.pool.(now := s.pool.now + d))
  }

  lemma SlowEnough(s: T.Stream, cfg: Config, plan: seq<Chunk>, src: seq<byte>, f: nat, d: nat) returns (k: nat)
    requires Layout(plan, |src|) && d >= 2 && f + d >= 4 && f + 1 + d <= |plan| && HeldUp(s, cfg, plan, src, f, d)
    requires s.sink.reserved + plan[f].length <= cfg.bufferSize
    ensures Offered(Later(s, k), f)
  {
    var m := Median.MedianOf(s.pool.sched.recent);
    k := if m > 0 then 2 * m else 0;
    assert IsDone(s.pool.sched.chunks[f + 1]) && IsDone(s.pool.sched.chunks[f + 2]);
    HedgeConditions(s.pool.sched, f, s.sink.reserved, s.sink.bufferSize, s.pool.now + k);
    hide HedgeEligible, Median.MedianOf;
  }

  /** Workers 1 to j have passed the check and stand before StartHedge. */
  ghost predicate Passed(s: T.Stream, t: T.Stream, f: nat, j: nat) {
    && j < |s.pool.workers| == |t.pool.workers|
    && t == s.(pool := s.pool.(workers := t.pool.workers))
    && (forall v: nat :: v < |s.pool.workers| ==>
          t.pool.workers[v] == if 1 <= v <= j then s.pool.workers[v].(pc := Start, i := f) else s.pool.workers[v])
  }

  /** Worker w passes the check. */
  lemma PassesCheck(s0: T.Stream, s: T.Stream, src: seq<byte>, w: nat, f: nat) returns (r: T.Stream)
    requires Reaches(s0, s, src) && AtHead(s.pool, w) && Offered(s, f) && s.glance.None?
    requires !s.pool.rootDone && s.pool.sched.cfg.streamMode
    ensures Reaches(s0, r, src)
    ensures r == s.(pool := s.pool.(workers := s.pool.workers[w := s.pool.workers[w].(pc := Start, i := f)]))
  {
    DoCheckRoot(s0, s, src, w);
    var a := s.(pool := CheckRootStep(s.pool, w));
    DoLook(s0, a, src, w);
    r := a.(pool := LookStep(a.pool, w, a.sink.nextIndex, a.sink.reserved, a.sink.bufferSize));
    hide HedgeEligible, Reaches;
  }

  lemma {:induction false} AllPass(s0: T.Stream, s: T.Stream, src: seq<byte>, f: nat, j: nat) returns (r: T.Stream)
    requires Reaches(s0, s, src) && OthersWait(s.pool) && Offered(s, f) && s.glance.None? && j < |s.pool.workers|
    requires !s.pool.rootDone && s.pool.sched.cfg.streamMode
    ensures Reaches(s0, r, src) && Passed(s, r, f, j)
    decreases j
  {
    if j == 0 {
      r := s;
    } else {
      var t := AllPass(s0, s, src, f, j - 1);
      StillOffered(s, t, f, j);
      hide Reaches, Offered, Passed, AtHead;
      r := PassesCheck(s0, t, src, j, f);
      PassedOne(s, t, r, f, j);
    }
  }

  lemma StillOffered(s: T.Stream, t: T.Stream, f: nat, j: nat)
    requires OthersWait(s.pool) && Offered(s, f) && 1 <= j < |s.pool.workers| && Passed(s, t, f, j - 1)
    ensures AtHead(t.pool, j) && Offered(t, f) && j < |t.pool.workers|
    ensures t.glance == s.glance && t.pool.rootDone == s.pool.rootDone && t.pool.sched == s.pool.sched
  {
    assert AtHead(s.pool, j);
    hide HedgeEligible;
  }

  lemma PassedOne(s: T.Stream, t: T.Stream, r: T.Stream, f: nat, j: nat)
    requires 1 <= j < |s.pool.workers| && Passed(s, t, f, j - 1)
    requires j < |t.pool.workers| && r == t.(pool := t.pool.(workers := t.pool.workers[j := t.pool.workers[j].(pc := Start, i := f)]))
    ensures Passed(s, r, f, j)
  {
  }

  /** ... while worker 0 still holds the frontier chunk. */
  lemma PassedCarries(s: T.Stream, k: nat, t: T.Stream, cfg: Config, plan: seq<Chunk>, src: seq<byte>, f: nat, j: nat)
    requires Carrying(s, cfg, plan, src, 0, f) && Passed(Later(s, k), t, f, j)
    ensures Carrying(t, cfg, plan, src, 0, f)
  {
  }

  lemma Waiting(s: T.Stream, k: nat, cfg: Config, plan: seq<Chunk>, src: seq<byte>, f: nat, d: nat)
    requires f + 1 + d <= |plan| && HeldUp(s, cfg, plan, src, f, d)
    ensures OthersWait(Later(s, k).pool) && Later(s, k).glance.None?
    ensures !s.pool.rootDone && s.pool.sched.cfg.streamMode && |s.pool.workers| == cfg.connections
    ensures Carrying(s, cfg, plan, src, 0, f) && s.sink.bufferSize == cfg.bufferSize
  {
  }

  /** From the held-up frontier chunk f to the state in which workers 1 to j are about to start duplicates of it. */
  lemma PoiseFrom(s0: T.Stream, s: T.Stream, cfg: Config, plan: seq<Chunk>, src: seq<byte>, f: nat, d: nat, j: nat)
    returns (k: nat, t: T.Stream)
    requires Layout(plan, |src|) && Reaches(s0, s, src) && f + 1 + d <= |plan| && HeldUp(s, cfg, plan, src, f, d)
    requires 2 <= d && 4 <= f + d && j < cfg.connections
    requires Boundary(plan, |src|, f + 1 + d) - Boundary(plan, |src|, f) <= cfg.bufferSize
    ensures Passed(Later(s, k), t, f, j) && Carrying(t, cfg, plan, src, 0, f) && Reaches(s0, t, src)
  {
    BoundaryStep(plan, |src|, f);
    Waiting(s, 0, cfg, plan, src, f, d);
    k := SlowEnough(s, cfg, plan, src, f, d);
    Waiting(s, k, cfg, plan, src, f, d);
    hide Reaches, HeldUp, Offered, Layout, Carrying, Passed, OthersWait;
    DoTick(s0, s, src, k);
    t := AllPass(s0, Later(s, k), src, f, j);
    PassedCarries(s, k, t, cfg, plan, src, f, j);
  }

  /** From the beginning to the state in which worker 0 holds the frontier chunk f and workers 1 to j are about to start
      duplicates of it. */
  lemma Poise(cfg: Config, plan: seq<Chunk>, src: seq<byte>, now: nat, f: nat, d: nat, j: nat)
    returns (s: T.Stream, k: nat, t: T.Stream)
    requires T.ValidSetup(cfg, plan, src) && (forall i :: 0 <= i < |plan| ==> !plan[i].hedged && plan[i].length <= cfg.splitSize)
    requires cfg.connections >= 2 && cfg.bufferSize >= 2 * cfg.splitSize && j < cfg.connections
    requires 2 <= d && 4 <= f + d && f + 1 + d <= |plan| && (d <= 2 || f + d <= 4)
    requires Boundary(plan, |src|, f + 1 + d) - Boundary(plan, |src|, f) <= cfg.bufferSize
    ensures HeldUp(s, cfg, plan, src, f, d) && Passed(Later(s, k), t, f, j) && Carrying(t, cfg, plan, src, 0, f)
    ensures Reaches(T.Init(cfg, plan, now), t, src)
  {
    BoundaryStep(plan, |src|, f);
    s := HoldUp(cfg, plan, src, now, f, d);
    hide Reaches, HeldUp, Layout, T.Init, Carrying, Passed, Boundary;
    k, t := PoiseFrom(T.Init(cfg, plan, now), s, cfg, plan, src, f, d, j);
  }
}
