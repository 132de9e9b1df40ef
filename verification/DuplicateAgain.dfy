/** A download to a stream in which a duplicate is started and given up, and a later chunk is then duplicated in turn
    (`StartHedge` and `CancelHedge` in internal/schedule/scheduler.go): a run from its beginning. */
module DuplicateAgain {
  import opened Basics
  import opened Chunks
  import opened Scheduling
  import opened WorkerPool
  import opened Streaming
  import opened StreamRuns
  import opened Frontier
  import opened DuplicateRace
  import T = StreamTransfer

  // ----- a duplicate breaks off

  /** Worker 1 is about to duplicate chunk f, which worker 0 has under slot 0; slot 1 is free. */
  ghost predicate Set(s: T.Stream, src: seq<byte>, f: nat) {
    && Poised(s, src, f, 1, 1) && s.pool.workers[1].slot == 1 && !s.pool.sched.hedgeActive
    && SlotInUse(s.pool.sched.chunks, 0)
  }

  /** Worker 1 is reading its duplicate of chunk f, under its own slot. */
  ghost predicate Duplicating(s: T.Stream, t: T.Stream, f: nat) {
    && |s.pool.workers| > 1 && f < |s.pool.sched.chunks|
    && var c := s.pool.sched.chunks[f];
    && t == s.(pool := s.pool.(sched := t.pool.sched, hedges := s.pool.hedges + 1,
                               workers := s.pool.workers[1 := s.pool.workers[1].(slot := 1, pc := Reading, hedge := true)]))
    && t.pool.sched == s.pool.sched.(chunks := s.pool.sched.chunks[f := c.(hedged := true, attempts := c.attempts + 1)],
                                     activeCount := s.pool.sched.activeCount + 1, hedgeActive := true, hedgedChunk := f)
  }

  lemma SlotOne(s: Sched, now: int)
    requires 1 < s.effectiveTarget <= |s.workers| && SlotInUse(s.chunks, 0) && SlotFree(s, 1, now)
    ensures FirstFreeSlot(s, now, 0) == 1
  {
    assert !SlotFree(s, 0, now);
  }

  lemma StartEffect(s: T.Stream, src: seq<byte>, f: nat)
    requires Set(s, src, f)
    ensures var a := s.(pool := StartHedgeStep(s.pool, 1));
            && Stands(a.pool, 1, Opening) && T.HasPiece(a, 1, src) && a.glance.None?
            && Duplicating(s, a.(pool := OpenStep(a.pool, 1, true)), f)
  {
    SlotOne(s.pool.sched, s.pool.now);
    hide SlotFree, SlotInUse, FirstFreeSlot;
  }

  lemma StartAlone(s0: T.Stream, s: T.Stream, src: seq<byte>, f: nat) returns (t: T.Stream)
    requires Reaches(s0, s, src) && Set(s, src, f)
    ensures Reaches(s0, t, src) && Duplicating(s, t, f)
  {
    StartEffect(s, src, f);
    var a := s.(pool := StartHedgeStep(s.pool, 1));
    hide Reaches, StartHedgeStep, SlotFree, SlotInUse, Duplicating;
    DoStartHedge(s0, s, src, 1);
    DoOpen(s0, a, src, 1);
    t := a.(pool := OpenStep(a.pool, 1, true));
  }

  /** The duplicate is gone: apart from the chunk's flag and attempt count everything is as before. */
  ghost predicate Dropped(s: T.Stream, u: T.Stream, f: nat) {
    && |s.pool.workers| > 1 && f < |s.pool.sched.chunks|
    && var c := s.pool.sched.chunks[f];
    && u == s.(pool := s.pool.(sched := u.pool.sched, hedges := s.pool.hedges + 1,
                               workers := s.pool.workers[1 := s.pool.workers[1].(slot := 1, pc := Head, hedge := false)]))
    && u.pool.sched == s.pool.sched.(chunks := s.pool.sched.chunks[f := c.(hedged := true, attempts := c.attempts + 1)],
                                     hedgeActive := false, hedgedChunk := -1)
  }

  lemma DropEffect(s: T.Stream, t: T.Stream, f: nat)
    requires Duplicating(s, t, f) && s.pool.workers[1].i == f
    ensures Stands(t.pool, 1, Reading) && t.pool.workers[1].hedge && t.glance == s.glance
    ensures var b := t.(pool := ReadStep(t.pool, 1, false));
            Stands(b.pool, 1, Dropping) && b.glance == s.glance && Dropped(s, b.(pool := CancelHedgeStep(b.pool, 1)), f)
  {
  }

  lemma Drop(s0: T.Stream, s: T.Stream, t: T.Stream, src: seq<byte>, f: nat) returns (u: T.Stream)
    requires Reaches(s0, t, src) && Set(s, src, f) && Duplicating(s, t, f)
    ensures Reaches(s0, u, src) && Dropped(s, u, f)
  {
    DropEffect(s, t, f);
    assert T.HasPiece(t, 1, src);
    var b := t.(pool := ReadStep(t.pool, 1, false));
    hide Reaches, ReadStep, CancelHedgeStep, Dropped, Duplicating, Set;
    DoBreak(s0, t, src, 1);
    DoCancelHedge(s0, b, src, 1);
    u := b.(pool := CancelHedgeStep(b.pool, 1));
  }

  // ----- the frontier moves on

  /** What worker 0 holds is its own again; the buffered chunks behind it have their planned lengths. */
  ghost predicate Released(s: T.Stream, cfg: Config, plan: seq<Chunk>, src: seq<byte>, f: nat)
    requires f + 3 <= |plan|
  {
    && ValidConfig(cfg) && Carrying(s, cfg, plan, src, 0, f) && Unhedged(s.pool) && OthersWait(s.pool)
    && s.pool.sched.nextUndispatched == f + 3 && s.pool.sched.completedCount == f + 2 && s.pool.sched.activeCount == 1
    && (forall i :: 0 <= i < f + 3 && i != f ==> s.pool.sched.chunks[i].state == Completed)
    && s.pool.sched.effectiveTarget >= 2 && Min(f + 2, 4) <= |s.pool.sched.recent| <= Min(f + 2, 32)
    && s.sink.reserved == plan[f + 1].length + plan[f + 2].length && s.sink.nextIndex == f
    && (forall i :: i in s.sink.completed <==> f < i < f + 3) && s.writer.Entering?
    && s.sink.completed[f + 1].chunk.length == plan[f + 1].length && s.sink.completed[f + 2].chunk.length == plan[f + 2].length
  }

  /** The chunks behind it, as they lie in the buffer. */
  lemma BehindIt(s: T.Stream, t: T.Stream, cfg: Config, plan: seq<Chunk>, src: seq<byte>, f: nat)
    requires f + 3 <= |plan| && Layout(plan, |src|) && T.BufferOK(t, plan, src) && t.sink == s.sink
    requires HeldUp(s, cfg, plan, src, f, 2)
    ensures s.sink.reserved == plan[f + 1].length + plan[f + 2].length && f + 1 in t.sink.completed && f + 2 in t.sink.completed
    ensures t.sink.completed[f + 1].chunk.length == plan[f + 1].length && t.sink.completed[f + 2].chunk.length == plan[f + 2].length
  {
    BoundaryStep(plan, |src|, f + 1);
    BoundaryStep(plan, |src|, f + 2);
    assert T.Genuine(plan, src, f + 1, t.sink.completed[f + 1]);
    assert T.Genuine(plan, src, f + 2, t.sink.completed[f + 2]);
    hide Layout, Boundary;
  }

  lemma DroppedReleased(s: T.Stream, e: nat, t: T.Stream, u: T.Stream, cfg: Config, plan: seq<Chunk>, src: seq<byte>, f: nat)
    requires f + 3 <= |plan| && Layout(plan, |src|) && T.BufferOK(t, plan, src)
    requires HeldUp(s, cfg, plan, src, f, 2) && Passed(Later(s, e), t, f, 1) && Carrying(t, cfg, plan, src, 0, f) && Dropped(t, u, f)
    ensures Released(u, cfg, plan, src, f)
  {
    BehindIt(s, t, cfg, plan, src, f);
    hide Layout, T.BufferOK, Boundary;
  }

  function Wrote(s: T.Stream): T.Stream
    requires s.writer.Writing?
  {
    s.(out := s.out + s.writer.cd.data, sink := s.sink.(writtenCount := s.sink.writtenCount + 1))
  }

  /** The frontier chunk is there too; k chunks of the three are still buffered. */
  ghost predicate Buffered(s: T.Stream, cfg: Config, plan: seq<Chunk>, k: nat)
    requires 3 <= k <= |plan|
  {
    && ValidConfig(cfg) && Smooth(s, cfg, plan) && Unhedged(s.pool) && AtHead(s.pool, 0) && OthersWait(s.pool)
    && s.pool.sched.nextUndispatched == k && s.pool.sched.completedCount == k && s.pool.sched.activeCount == 0
    && (forall i :: 0 <= i < k ==> s.pool.sched.chunks[i].state == Completed)
    && s.pool.sched.effectiveTarget >= Min(2, InitialTarget(cfg, |plan|)) && Min(k, 4) <= |s.pool.sched.recent| <= Min(k, 32)
    && k - 3 <= s.sink.nextIndex <= k && (forall i :: i in s.sink.completed <==> s.sink.nextIndex <= i < k)
    && (forall i :: i in s.sink.completed ==> s.sink.completed[i].chunk.length == plan[i].length)
    && s.sink.reserved == Rest(plan, s.sink.nextIndex, k)
  }

  /** The lengths of chunks j to k - 1. */
  function Rest(plan: seq<Chunk>, j: nat, k: nat): int
    requires j <= k <= |plan|
    decreases k - j
  {
    if j == k then 0 else plan[j].length + Rest(plan, j + 1, k)
  }

  lemma RestOfThree(plan: seq<Chunk>, j: nat)
    requires j + 3 <= |plan|
    ensures Rest(plan, j, j + 3) == plan[j].length + plan[j + 1].length + plan[j + 2].length
  {
    assert Rest(plan, j + 2, j + 3) == plan[j + 2].length;
    assert Rest(plan, j + 1, j + 3) == plan[j + 1].length + Rest(plan, j + 2, j + 3);
  }

  lemma ArrivedBuffered(s: T.Stream, u: T.Stream, cfg: Config, plan: seq<Chunk>, src: seq<byte>, f: nat)
    requires 2 <= f && f + 3 <= |plan| && Released(s, cfg, plan, src, f) && Done(s, u, src, 0, f) && Smooth(u, cfg, plan)
    ensures Buffered(u, cfg, plan, f + 3) && u.writer.Entering? && u.sink.nextIndex == f
  {
    RestOfThree(plan, f);
  }

  lemma TakenBuffered(s: T.Stream, t: T.Stream, cfg: Config, plan: seq<Chunk>, k: nat)
    requires 3 <= k <= |plan| && Buffered(s, cfg, plan, k) && s.sink.nextIndex < k
    requires t == s.(out := t.out, writer := t.writer, sink := s.sink.(writtenCount := t.sink.writtenCount))
    ensures t.sink.nextIndex in t.sink.completed && !t.sink.fatal
    ensures Buffered(Taken(t), cfg, plan, k) && Taken(t).sink.nextIndex == s.sink.nextIndex + 1 && Taken(t).writer.Writing?
  {
  }

  /** The writer writes all that is buffered. */
  lemma {:induction false} WriteRest(s0: T.Stream, s: T.Stream, cfg: Config, plan: seq<Chunk>, src: seq<byte>, k: nat) returns (r: T.Stream)
    requires 5 <= k <= |plan| && Reaches(s0, s, src) && Buffered(s, cfg, plan, k) && s.writer.Writing?
    ensures Reaches(s0, r, src) && Served(r, cfg, plan, k)
    decreases k - s.sink.nextIndex
  {
    if s.sink.nextIndex < k {
      TakenBuffered(s, Wrote(s), cfg, plan, k);
      hide Reaches, Buffered, Served;
      DoWriteOn(s0, s, src);
      r := WriteRest(s0, Taken(Wrote(s)), cfg, plan, src, k);
    } else {
      r := Wrote(s).(writer := T.Entering);
      AllWritten(s, r, cfg, plan, k);
      hide Reaches, Buffered, Served;
      DoWritten(s0, s, src);
    }
  }

  lemma AllWritten(s: T.Stream, r: T.Stream, cfg: Config, plan: seq<Chunk>, k: nat)
    requires 5 <= k <= |plan| && Buffered(s, cfg, plan, k) && s.sink.nextIndex == k && s.writer.Writing?
    requires r == Wrote(s).(writer := T.Entering)
    ensures !s.sink.closed && s.sink.nextIndex !in s.sink.completed && Served(r, cfg, plan, k)
  {
    assert s.sink.completed == map[];
  }

  lemma ReleasedParts(s: T.Stream, cfg: Config, plan: seq<Chunk>, src: seq<byte>, f: nat)
    requires f + 3 <= |plan| && Released(s, cfg, plan, src, f) && plan[f].length + plan[f + 1].length + plan[f + 2].length <= cfg.bufferSize
    ensures Carrying(s, cfg, plan, src, 0, f) && s.sink.reserved + plan[f].length <= s.sink.bufferSize
  {
  }

  /** Worker 0 finishes the frontier chunk, and the writer writes it and the two behind it. */
  lemma MoveOn(s0: T.Stream, s: T.Stream, cfg: Config, plan: seq<Chunk>, src: seq<byte>, f: nat) returns (r: T.Stream)
    requires 2 <= f && f + 3 <= |plan| && Reaches(s0, s, src) && Released(s, cfg, plan, src, f)
    requires plan[f].length + plan[f + 1].length + plan[f + 2].length <= cfg.bufferSize
    ensures Reaches(s0, r, src) && Served(r, cfg, plan, f + 3)
  {
    hide Reaches, Released, Buffered, Served, Done, Smooth, Carrying;
    ReleasedParts(s, cfg, plan, src, f);
    var u := Carry(s0, s, cfg, plan, src, 0, f);
    ArrivedBuffered(s, u, cfg, plan, src, f);
    TakenBuffered(u, u, cfg, plan, f + 3);
    DoTake(s0, u, src);
    r := WriteRest(s0, Taken(u), cfg, plan, src, f + 3);
  }

  // ----- the whole run

  /** Worker 1 is set to duplicate the held-up chunk. */
  lemma PassedSet(s: T.Stream, e: nat, t: T.Stream, cfg: Config, plan: seq<Chunk>, src: seq<byte>, f: nat)
    requires f + 3 <= |plan| && HeldUp(s, cfg, plan, src, f, 2) && Passed(Later(s, e), t, f, 1) && Carrying(t, cfg, plan, src, 0, f)
    requires s.pool.sched.effectiveTarget <= cfg.connections
    ensures Set(t, src, f)
  {
    PassedPoised(s, e, t, cfg, plan, src, f, 2, 1);
    assert t.pool.sched.chunks[f].state == Active && t.pool.sched.chunks[f].workerSlot == 0;
    hide Poised;
  }

  /** The state in which worker 1 is about to duplicate the frontier chunk f, from one in which the chunks before it have
      been written. */
  lemma SetUp(s0: T.Stream, s: T.Stream, cfg: Config, plan: seq<Chunk>, src: seq<byte>, f: nat) returns (h: T.Stream, e: nat, t: T.Stream)
    requires Layout(plan, |src|) && cfg.connections >= 2 && 2 <= f && f + 3 <= |plan| && Reaches(s0, s, src) && Served(s, cfg, plan, f)
    requires cfg.bufferSize >= 2 * cfg.splitSize
    requires plan[f].length + plan[f + 1].length + plan[f + 2].length <= cfg.bufferSize
    ensures Reaches(s0, h, src) && HeldUp(h, cfg, plan, src, f, 2)
    ensures Reaches(s0, t, src) && Passed(Later(h, e), t, f, 1) && Carrying(t, cfg, plan, src, 0, f)
  {
    BoundaryStep(plan, |src|, f);
    BoundaryStep(plan, |src|, f + 1);
    BoundaryStep(plan, |src|, f + 2);
    LengthsKnown(plan, |src|);
    hide Layout, Served, Reaches, HeldUp, Passed, Carrying, Boundary;
    h := HoldUpFrom(s0, s, cfg, plan, src, f, 2);
    e, t := PoiseFrom(s0, h, cfg, plan, src, f, 2, 1);
  }

  lemma LengthsKnown(plan: seq<Chunk>, size: nat)
    requires Layout(plan, size)
    ensures forall i :: 0 <= i < |plan| ==> plan[i].length >= 0
  {
  }

  /** What every reachable state satisfies. */
  lemma Safe(cfg: Config, plan: seq<Chunk>, src: seq<byte>, now: nat, t: T.Stream)
    requires T.ValidSetup(cfg, plan, src) && Reaches(T.Init(cfg, plan, now), t, src)
    ensures T.BufferOK(t, plan, src) && t.pool.sched.effectiveTarget <= cfg.connections
  {
    var es :| T.Legal(T.Init(cfg, plan, now), es, src) && T.Exec(T.Init(cfg, plan, now), es, src) == t;
    T.Reachable(cfg, plan, src, now, es);
  }

  lemma Together(s: T.Stream, t: T.Stream, u: T.Stream, src: seq<byte>)
    requires Reaches(s, t, src) && Reaches(t, u, src)
    ensures Reaches(s, u, src)
  {
    var es :| T.Legal(s, es, src) && T.Exec(s, es, src) == t && Smoothly(es) && Admitted(es);
    var more :| T.Legal(t, more, src) && T.Exec(t, more, src) == u && Smoothly(more) && Admitted(more);
    Appended(s, es, more, src);
    assert Smoothly(es + more) && Admitted(es + more);
  }

  lemma {:induction false} Appended(s: T.Stream, es: seq<T.Event>, more: seq<T.Event>, src: seq<byte>)
    requires T.Legal(s, es, src) && T.Legal(T.Exec(s, es, src), more, src)
    ensures T.Legal(s, es + more, src) && T.Exec(s, es + more, src) == T.Exec(T.Exec(s, es, src), more, src)
    decreases |es|
  {
    hide T.Enabled, T.Apply;
    if es == [] {
      assert es + more == more;
    } else {
      assert (es + more)[1..] == es[1..] + more;
      Appended(T.Apply(s, es[0], src), es[1..], more, src);
    }
  }

  /** Worker 1 has a duplicate of chunk f under way, the only one. */
  ghost predicate OneOf(p: Pool, f: nat) {
    HedgeTickets(p.workers) == {1} && p.workers[1].i == f && p.sched.hedgeActive && p.sched.hedgedChunk == f
  }

  lemma OneUnderWay(s: T.Stream, e: nat, t: T.Stream, a: T.Stream, cfg: Config, plan: seq<Chunk>, src: seq<byte>, f: nat)
    requires f + 3 <= |plan| && HeldUp(s, cfg, plan, src, f, 2) && Passed(Later(s, e), t, f, 1) && Carrying(t, cfg, plan, src, 0, f)
    requires Duplicating(t, a, f)
    ensures OneOf(a.pool, f)
  {
    assert forall v :: 1 < v < |t.pool.workers| ==> !t.pool.workers[v].hedge;
  }

  lemma NoneUnderWay(u: T.Stream, cfg: Config, plan: seq<Chunk>, src: seq<byte>, f: nat)
    requires f + 3 <= |plan| && Released(u, cfg, plan, src, f)
    ensures HedgeTickets(u.pool.workers) == {} && !u.pool.sched.hedgeActive
  {
  }

  /** With two connections or more, eight chunks and a buffer for three of them: worker 1 duplicates chunk 2, the duplicate
      breaks off, and later it duplicates chunk 5. */
  lemma DuplicatedAgain(cfg: Config, plan: seq<Chunk>, src: seq<byte>, now: nat) returns (a: T.Stream, b: T.Stream, c: T.Stream)
    requires T.ValidSetup(cfg, plan, src) && (forall i :: 0 <= i < |plan| ==> !plan[i].hedged && plan[i].length <= cfg.splitSize)
    requires cfg.connections >= 2 && |plan| >= 8 && cfg.bufferSize >= 3 * cfg.splitSize
    ensures Reaches(T.Init(cfg, plan, now), a, src) && OneOf(a.pool, 2)
    ensures Reaches(a, b, src) && HedgeTickets(b.pool.workers) == {} && !b.pool.sched.hedgeActive
    ensures Reaches(b, c, src) && OneOf(c.pool, 5)
  {
    var s0 := T.Init(cfg, plan, now);
    StartServed(cfg, plan, src, now);
    ReachSelf(s0, src);
    hide Layout, Served, Reaches, HeldUp, Passed, Carrying, Boundary, T.Init, Set, Duplicating, Dropped, Released, OneOf, HedgeTickets, T.BufferOK;
    var s := Serve(s0, s0, cfg, plan, src, 0, 2);
    var h, e, t := SetUp(s0, s, cfg, plan, src, 2);
    Safe(cfg, plan, src, now, h);
    Safe(cfg, plan, src, now, t);
    PassedSet(h, e, t, cfg, plan, src, 2);
    a := StartAlone(s0, t, src, 2);
    OneUnderWay(h, e, t, a, cfg, plan, src, 2);
    ReachSelf(a, src);
    b := Drop(a, t, a, src, 2);
    DroppedReleased(h, e, t, b, cfg, plan, src, 2);
    NoneUnderWay(b, cfg, plan, src, 2);
    c := Second(s0, a, b, cfg, plan, src, now);
  }

  /** The part of the run after the duplicate of chunk 2 broke off. */
  lemma Second(s0: T.Stream, a: T.Stream, b: T.Stream, cfg: Config, plan: seq<Chunk>, src: seq<byte>, now: nat) returns (c: T.Stream)
    requires T.ValidSetup(cfg, plan, src) && (forall i :: 0 <= i < |plan| ==> plan[i].length <= cfg.splitSize)
    requires cfg.connections >= 2 && |plan| >= 8 && cfg.bufferSize >= 3 * cfg.splitSize
    requires s0 == T.Init(cfg, plan, now) && Reaches(s0, a, src) && Reaches(a, b, src) && Released(b, cfg, plan, src, 2)
    ensures Reaches(b, c, src) && OneOf(c.pool, 5)
  {
    ReachSelf(b, src);
    hide Layout, Served, Reaches, HeldUp, Passed, Carrying, Boundary, T.Init, Set, Duplicating, Released, OneOf, T.BufferOK;
    var s := MoveOn(b, b, cfg, plan, src, 2);
    var h, e, t := SetUp(b, s, cfg, plan, src, 5);
    Together(s0, a, b, src);
    Together(s0, b, h, src);
    Safe(cfg, plan, src, now, h);
    PassedSet(h, e, t, cfg, plan, src, 5);
    c := StartAlone(b, t, src, 5);
    OneUnderWay(h, e, t, c, cfg, plan, src, 5);
  }
}
