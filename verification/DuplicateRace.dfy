/** Speculative duplicates started by all workers that passed the eligibility check before any of them started, and runs
    from the beginning with two of them out at once, or with more tickets in use than the effective target allows. */
module DuplicateRace {
  import opened Chunks
  import opened Counting
  import opened Scheduling
  import opened WorkerPool
  import opened Streaming
  import opened StreamRuns
  import opened Frontier
  import T = StreamTransfer

  /** The chunks are the same but for the flags of duplicates. */
  ghost predicate SameButFlags(before: seq<Chunk>, after: seq<Chunk>) {
    && |after| == |before|
    && forall i :: 0 <= i < |before| ==> after[i] == before[i].(hedged := after[i].hedged, attempts := after[i].attempts)
  }

  /** Workers 1 to j have started a duplicate of chunk f and are reading it. */
  ghost predicate Begun(s: T.Stream, t: T.Stream, f: nat, j: nat) {
    && j < |s.pool.workers| == |t.pool.workers|
    && t == s.(pool := s.pool.(sched := t.pool.sched, workers := t.pool.workers, hedges := s.pool.hedges + j))
    && SameButFlags(s.pool.sched.chunks, t.pool.sched.chunks)
    && t.pool.sched == s.pool.sched.(chunks := t.pool.sched.chunks, activeCount := s.pool.sched.activeCount + j,
                                     hedgeActive := t.pool.sched.hedgeActive, hedgedChunk := t.pool.sched.hedgedChunk)
    && (forall v: nat :: v < |s.pool.workers| ==>
          t.pool.workers[v] == if 1 <= v <= j then s.pool.workers[v].(slot := t.pool.workers[v].slot, pc := Reading, hedge := true)
                               else s.pool.workers[v])
  }

  /** Slot k is free for a duplicate of chunk f. */
  ghost predicate Startable(s: T.Stream, src: seq<byte>, f: nat, k: nat) {
    && f < |s.pool.sched.chunks| && s.pool.sched.chunks[f].start + s.pool.sched.chunks[f].length <= |src|
    && k < s.pool.sched.effectiveTarget <= |s.pool.sched.workers| && SlotFree(s.pool.sched, k, s.pool.now)
    && s.glance.None?
  }

  /** Workers 1 to j are about to start one. */
  ghost predicate Poised(s: T.Stream, src: seq<byte>, f: nat, k: nat, j: nat) {
    && Startable(s, src, f, k) && j < |s.pool.workers|
    && forall v: nat :: 1 <= v <= j ==> s.pool.workers[v] == s.pool.workers[v].(pc := Start, i := f)
  }

  lemma SlotStaysFree(s: Sched, t: Sched, k: nat, now: int)
    requires SameButFlags(s.chunks, t.chunks) && t.workers == s.workers && k < |s.workers| && SlotFree(s, k, now)
    ensures SlotFree(t, k, now)
  {
    assert forall j :: 0 <= j < |s.chunks| ==>
      t.chunks[j].state == s.chunks[j].state && t.chunks[j].workerSlot == s.chunks[j].workerSlot;
  }

  lemma StartSucceeds(s: Sched, f: nat, k: nat, now: int)
    requires f < |s.chunks| && k < s.effectiveTarget <= |s.workers| && SlotFree(s, k, now)
    ensures StartHedge(s, f, now).1.Some?
    ensures SameButFlags(s.chunks, StartHedge(s, f, now).0.chunks)
  {
    StartHedgeEffect(s, f, now);
  }

  /** One of them starts. */
  lemma StartOne(s0: T.Stream, s: T.Stream, src: seq<byte>, f: nat, k: nat, w: nat) returns (t: T.Stream)
    requires Reaches(s0, s, src) && Startable(s, src, f, k) && Stands(s.pool, w, Start) && s.pool.workers[w].i == f
    ensures Reaches(s0, t, src)
    ensures |t.pool.workers| == |s.pool.workers|
    ensures t.pool.workers == s.pool.workers[w := s.pool.workers[w].(slot := t.pool.workers[w].slot, pc := Reading, hedge := true)]
    ensures SameButFlags(s.pool.sched.chunks, t.pool.sched.chunks)
    ensures t.pool.sched == s.pool.sched.(chunks := t.pool.sched.chunks, activeCount := s.pool.sched.activeCount + 1,
                                          hedgeActive := t.pool.sched.hedgeActive, hedgedChunk := t.pool.sched.hedgedChunk)
    ensures t == s.(pool := s.pool.(sched := t.pool.sched, workers := t.pool.workers, hedges := s.pool.hedges + 1))
  {
    StartSucceeds(s.pool.sched, f, k, s.pool.now);
    StartHedgeEffect(s.pool.sched, f, s.pool.now);
    hide Reaches, StartHedge, SlotFree;
    var a := s.(pool := StartHedgeStep(s.pool, w));
    DoStartHedge(s0, s, src, w);
    assert a.pool.sched == StartHedge(s.pool.sched, f, s.pool.now).0;
    assert T.HasPiece(a, w, src);
    DoOpen(s0, a, src, w);
    t := a.(pool := OpenStep(a.pool, w, true));
  }

  /** All of them start, one after the other. */
  lemma {:induction false} AllStart(s0: T.Stream, s: T.Stream, src: seq<byte>, f: nat, k: nat, j: nat) returns (t: T.Stream)
    requires Reaches(s0, s, src) && Poised(s, src, f, k, j)
    ensures Reaches(s0, t, src) && Begun(s, t, f, j)
  {
    if j == 0 {
      t := s;
    } else {
      assert Poised(s, src, f, k, j - 1);
      hide Reaches, SlotFree, Startable;
      var r := AllStart(s0, s, src, f, k, j - 1);
      StillPoised(s, r, src, f, k, j);
      t := StartOne(s0, r, src, f, k, j);
      OneMoreBegun(s, r, t, f, j);
    }
  }

  lemma StillPoised(s: T.Stream, r: T.Stream, src: seq<byte>, f: nat, k: nat, j: nat)
    requires 1 <= j && Poised(s, src, f, k, j) && Begun(s, r, f, j - 1)
    ensures j < |r.pool.workers| && r.pool.workers[j].pc == Start && r.pool.workers[j].i == f
    ensures Startable(r, src, f, k)
  {
    SlotStaysFree(s.pool.sched, r.pool.sched, k, s.pool.now);
  }

  lemma OneMoreBegun(s: T.Stream, r: T.Stream, t: T.Stream, f: nat, j: nat)
    requires 1 <= j < |s.pool.workers| && Begun(s, r, f, j - 1) && j < |r.pool.workers| == |t.pool.workers|
    requires t.pool.workers == r.pool.workers[j := r.pool.workers[j].(slot := t.pool.workers[j].slot, pc := Reading, hedge := true)]
    requires SameButFlags(r.pool.sched.chunks, t.pool.sched.chunks)
    requires t.pool.sched == r.pool.sched.(chunks := t.pool.sched.chunks, activeCount := r.pool.sched.activeCount + 1,
                                           hedgeActive := t.pool.sched.hedgeActive, hedgedChunk := t.pool.sched.hedgedChunk)
    requires t == r.(pool := r.pool.(sched := t.pool.sched, workers := t.pool.workers, hedges := r.pool.hedges + 1))
    ensures Begun(s, t, f, j)
  {
  }

  // ----- two duplicates at once

  lemma BegunTickets(s: T.Stream, t: T.Stream, f: nat, j: nat, w: nat, v: nat)
    requires Begun(s, t, f, j) && 1 <= w < v <= j
    ensures |HedgeTickets(t.pool.workers)| >= 2
  {
    assert {w, v} <= HedgeTickets(t.pool.workers);
    SubsetSize({w, v}, HedgeTickets(t.pool.workers));
  }

  /** While worker 0 holds the frontier chunk under its own number, slot 1 is free. */
  lemma PassedPoised(s: T.Stream, e: nat, t: T.Stream, cfg: Config, plan: seq<Chunk>, src: seq<byte>, f: nat, d: nat, j: nat)
    requires f + 1 + d == s.pool.sched.nextUndispatched <= |plan| && HeldUp(s, cfg, plan, src, f, d)
    requires Passed(Later(s, e), t, f, j) && Carrying(t, cfg, plan, src, 0, f) && s.pool.sched.effectiveTarget <= cfg.connections
    ensures Poised(t, src, f, 1, j)
  {
    assert forall i :: 0 <= i < |plan| && t.pool.sched.chunks[i].state == Active ==> i == f;
  }

  /** With three connections, five chunks and a buffer for three, two duplicates of one chunk can be out. */
  lemma TwoDuplicates(cfg: Config, plan: seq<Chunk>, src: seq<byte>, now: nat) returns (r: T.Stream)
    requires T.ValidSetup(cfg, plan, src) && (forall i :: 0 <= i < |plan| ==> !plan[i].hedged)
    requires cfg.connections >= 3 && |plan| >= 5 && cfg.bufferSize >= 2 * cfg.splitSize
    requires forall i :: 0 <= i < |plan| ==> plan[i].length <= cfg.splitSize
    requires plan[|plan| - 3].length + plan[|plan| - 2].length + plan[|plan| - 1].length <= cfg.bufferSize
    ensures Reaches(T.Init(cfg, plan, now), r, src) && |HedgeTickets(r.pool.workers)| >= 2
  {
    var s0, f := T.Init(cfg, plan, now), |plan| - 3;
    LastThree(plan, |src|);
    hide Layout, Reaches, T.Init, HeldUp, Passed, Carrying, Poised, Begun, Boundary;
    var s, e, t := Poise(cfg, plan, src, now, f, 2, 2);
    TargetWithin(cfg, plan, src, now, s, e, t, f, 2);
    PassedPoised(s, e, t, cfg, plan, src, f, 2, 2);
    r := AllStart(s0, t, src, f, 1, 2);
    BegunTickets(t, r, f, 2, 1, 2);
  }

  lemma LastThree(plan: seq<Chunk>, size: nat)
    requires Layout(plan, size) && |plan| >= 3
    ensures Boundary(plan, size, |plan|) - Boundary(plan, size, |plan| - 3) ==
            plan[|plan| - 3].length + plan[|plan| - 2].length + plan[|plan| - 1].length
  {
    BoundaryStep(plan, size, |plan| - 3);
    BoundaryStep(plan, size, |plan| - 2);
    BoundaryStep(plan, size, |plan| - 1);
  }

  lemma TargetWithin(cfg: Config, plan: seq<Chunk>, src: seq<byte>, now: nat, s: T.Stream, e: nat, t: T.Stream, f: nat, j: nat)
    requires T.ValidSetup(cfg, plan, src) && Reaches(T.Init(cfg, plan, now), t, src) && Passed(Later(s, e), t, f, j)
    ensures s.pool.sched.effectiveTarget <= cfg.connections
  {
    var es :| T.Legal(T.Init(cfg, plan, now), es, src) && T.Exec(T.Init(cfg, plan, now), es, src) == t;
    T.Reachable(cfg, plan, src, now, es);
  }
}
