/** A complete download to a stream that is reported as an error (`writeLoop` and `Close` in internal/sink/stream.go): a
    worker passes the eligibility check, the chunk arrives and everything is written, and only then does that worker
    fetch and submit its duplicate, which nobody takes any more. Exactly which settings can end like this. */
module Leftover {
  import opened Basics
  import opened Chunks
  import opened Scheduling
  import opened Stats
  import opened WorkerPool
  import opened Streaming
  import opened StreamFinish
  import opened StreamRuns
  import opened Frontier
  import opened DuplicateRace
  import opened DuplicateLimit
  import opened MemoryRuns
  import T = StreamTransfer

  // ----- everything is written

  /** All chunks are complete; those from k on are still buffered. */
  ghost predicate Unwritten(s: T.Stream, cfg: Config, plan: seq<Chunk>, f: nat, k: nat) {
    && k <= |plan| && f < |plan| && Smooth(s, cfg, plan) && AllAtHead(s.pool, 2) && AtHead(s.pool, 0)
    && 1 < |s.pool.workers| && s.pool.workers[1].pc == Start && s.pool.workers[1].i == f
    && (forall i :: 0 <= i < |plan| ==> s.pool.sched.chunks[i].state == Completed)
    && s.pool.sched.completedCount == |plan|
    && s.sink.nextIndex == k && (forall i :: i in s.sink.completed <==> k <= i < |plan|)
  }

  /** Workers from w on are at the beginning of their loop. */
  ghost predicate AllAtHead(p: Pool, w: nat) {
    forall v :: w <= v < |p.workers| ==> p.workers[v].pc == Head
  }

  lemma NowUnwritten(s: T.Stream, e: nat, t: T.Stream, u: T.Stream, cfg: Config, plan: seq<Chunk>, src: seq<byte>, f: nat)
    requires f + 3 == |plan| && HeldUp(s, cfg, plan, src, f, 2) && Passed(Later(s, e), t, f, 1)
    requires Done(t, u, src, 0, f) && Smooth(u, cfg, plan)
    ensures Unwritten(u, cfg, plan, f, f) && u.writer.Entering?
  {
  }

  /** The writer takes chunk k. */
  lemma TakeOne(s: T.Stream, t: T.Stream, cfg: Config, plan: seq<Chunk>, f: nat, k: nat)
    requires k < |plan| && Unwritten(s, cfg, plan, f, k)
    requires t == s.(out := t.out, sink := s.sink.(writtenCount := t.sink.writtenCount))
    ensures s.sink.nextIndex in s.sink.completed && t.sink.nextIndex in t.sink.completed
    ensures Unwritten(Taken(t), cfg, plan, f, k + 1) && Taken(t).writer.Writing?
  {
  }

  lemma {:induction false} WriteAll(s0: T.Stream, s: T.Stream, cfg: Config, plan: seq<Chunk>, src: seq<byte>, f: nat, k: nat) returns (r: T.Stream)
    requires Reaches(s0, s, src) && Unwritten(s, cfg, plan, f, k) && s.writer.Writing?
    ensures Reaches(s0, r, src) && Unwritten(r, cfg, plan, f, |plan|) && r.writer.Entering?
    decreases |plan| - k
  {
    var t := s.(out := s.out + s.writer.cd.data, sink := s.sink.(writtenCount := s.sink.writtenCount + 1));
    if k < |plan| {
      TakeOne(s, t, cfg, plan, f, k);
      hide Reaches, Unwritten;
      DoWriteOn(s0, s, src);
      r := WriteAll(s0, Taken(t), cfg, plan, src, f, k + 1);
    } else {
      r := t.(writer := T.Entering);
      hide Reaches;
      DoWritten(s0, s, src);
    }
  }

  // ----- the late duplicate

  lemma LatePoised(s: T.Stream, cfg: Config, plan: seq<Chunk>, src: seq<byte>, f: nat)
    requires Unwritten(s, cfg, plan, f, |plan|) && plan[f].start + plan[f].length <= |src|
    requires s.pool.sched.effectiveTarget <= cfg.connections
    ensures Poised(s, src, f, 0, 1)
  {
  }

  /** All workers are back at the beginning, and the copy of chunk f is left in the buffer. */
  ghost predicate CopyLeft(s: T.Stream) {
    && AllAtHead(s.pool, 0) && s.pool.collected == {} && Quiescent(s) && s.writer.Entering?
  }

  /** Nothing went wrong, the counter is full, and the buffer holds a chunk that is not the next one. */
  predicate Quiescent(s: T.Stream) {
    && s.pool.sched.cfg.streamMode && !s.pool.rootDone && !s.pool.sched.cancelled && !s.pool.sched.fatal
    && !s.pool.firstErr && s.pool.verdict.None? && s.result.None? && s.glance.None?
    && s.pool.sched.completedCount >= |s.pool.sched.chunks| && s.sink.nextIndex >= |s.pool.sched.chunks|
    && !s.sink.closed && !s.sink.fatal && s.sink.completed != map[] && s.sink.nextIndex !in s.sink.completed
  }

  /** Worker 1 has read its duplicate of chunk f while everything else is done. */
  ghost predicate LateCopy(s: T.Stream, src: seq<byte>, f: nat) {
    && 1 < |s.pool.workers| && AllAtHead(s.pool, 2) && s.pool.workers[0].pc == Head
    && s.pool.workers[1].pc == Reading && s.pool.workers[1].hedge && s.pool.workers[1].i == f
    && f < |s.pool.sched.chunks| && s.pool.sched.chunks[f].state == Completed
    && s.pool.sched.chunks[f].index == f && s.pool.sched.chunks[f].start + s.pool.sched.chunks[f].length <= |src|
    && s.pool.sched.cfg.streamMode && !s.pool.rootDone && !s.pool.sched.cancelled && !s.pool.sched.fatal
    && !s.pool.firstErr && s.pool.collected == {} && s.pool.verdict.None? && s.result.None? && s.glance.None?
    && s.pool.sched.completedCount >= |s.pool.sched.chunks| == s.sink.nextIndex
    && !s.sink.closed && !s.sink.fatal && s.writer.Entering?
  }

  lemma BegunLate(s: T.Stream, t: T.Stream, cfg: Config, plan: seq<Chunk>, src: seq<byte>, f: nat)
    requires Unwritten(s, cfg, plan, f, |plan|) && s.writer.Entering? && Begun(s, t, f, 1)
    requires plan[f].index == f && plan[f].start + plan[f].length <= |src|
    ensures LateCopy(t, src, f)
  {
  }

  function Submitted(s: T.Stream, src: seq<byte>): T.Stream
    requires Stands(s.pool, 1, Delivering) && T.HasPiece(s, 1, src)
  {
    var c := T.ChunkAt(s, 1, src);
    s.(pool := DeliverStep(s.pool, 1, true), sink := s.sink.(completed := s.sink.completed[c.index := ChunkData(c, T.Piece(src, c))]))
  }

  lemma SubmitLate(s0: T.Stream, s: T.Stream, src: seq<byte>, f: nat) returns (r: T.Stream)
    requires Reaches(s0, s, src) && LateCopy(s, src, f)
    ensures Reaches(s0, r, src) && r == s.(pool := r.pool, sink := s.sink.(completed := r.sink.completed))
    ensures f in r.sink.completed && r.sink.completed.Keys == s.sink.completed.Keys + {f}
    ensures r.pool == s.pool.(workers := s.pool.workers[1 := s.pool.workers[1].(pc := Won)], delivered := r.pool.delivered)
  {
    DoRead(s0, s, src, 1);
    var a := s.(pool := ReadStep(s.pool, 1, true));
    DoDeliver(s0, a, src, 1);
    r := Submitted(a, src);
    hide Reaches;
  }

  /** The adaptive fields and the tickets may differ. */
  ghost predicate SameChunks(s: Sched, t: Sched) {
    t == s.(workers := t.workers, hedgeActive := t.hedgeActive, hedgedChunk := t.hedgedChunk, activeCount := t.activeCount)
  }

  lemma NothingToComplete(s: Sched, i: nat, now: int)
    requires i < |s.chunks| && s.chunks[i].state == Completed
    ensures MarkComplete(s, i, now) == s
  {
  }

  /** Worker 1 cancels its duplicate and reports its success: no chunk and no counter changes. */
  lemma ReportCalls(p: Pool, f: nat)
    requires Stands(p, 1, Won) && p.workers[1].i == f < |p.sched.chunks|
    ensures var a := CancelHedgeStep(p, 1);
            && Stands(a, 1, Reporting) && a.workers[1].i < |a.sched.chunks|
            && var b := SuccessStep(a, 1);
            && Stands(b, 1, Finishing) && b.workers[1].i == f && b.sched.chunks == p.sched.chunks && SameChunks(p.sched, b.sched)
            && b == p.(sched := b.sched, workers := p.workers[1 := b.workers[1]])
  {
    hide RecordSuccess;
  }

  /** Worker 1's last calls change no chunk and no counter. */
  lemma LastCalls(p: Pool, f: nat)
    requires Stands(p, 1, Won) && p.workers[1].i == f < |p.sched.chunks| && p.sched.chunks[f].state == Completed
    ensures var a := CancelHedgeStep(p, 1);
            && Stands(a, 1, Reporting) && a.workers[1].i < |a.sched.chunks|
            && var b := SuccessStep(a, 1);
            && Stands(b, 1, Finishing)
            && var c := CompleteStep(b, 1);
            && |c.workers| == |p.workers| && c.workers[1].pc == Head && SameChunks(p.sched, c.sched)
            && c == p.(sched := c.sched, workers := p.workers[1 := c.workers[1]], work := p.work + 1)
  {
    ReportCalls(p, f);
    var b := SuccessStep(CancelHedgeStep(p, 1), 1);
    NothingToComplete(b.sched, f, p.now);
    hide MarkComplete, CancelHedgeStep, SuccessStep;
  }

  lemma ReportLate(s0: T.Stream, s: T.Stream, src: seq<byte>, f: nat) returns (r: T.Stream)
    requires Reaches(s0, s, src) && Stands(s.pool, 1, Won) && s.glance.None?
    requires s.pool.workers[1].i == f < |s.pool.sched.chunks| && s.pool.sched.chunks[f].state == Completed
    ensures Reaches(s0, r, src) && r == s.(pool := r.pool)
    ensures |r.pool.workers| == |s.pool.workers| && r.pool.workers[1].pc == Head && SameChunks(s.pool.sched, r.pool.sched)
    ensures r.pool == s.pool.(sched := r.pool.sched, workers := s.pool.workers[1 := r.pool.workers[1]], work := r.pool.work)
  {
    LastCalls(s.pool, f);
    hide Reaches, CancelHedgeStep, SuccessStep, CompleteStep;
    DoCancelHedge(s0, s, src, 1);
    var a := s.(pool := CancelHedgeStep(s.pool, 1));
    DoReport(s0, a, src, 1);
    var b := a.(pool := SuccessStep(a.pool, 1));
    DoComplete(s0, b, src, 1);
    r := b.(pool := CompleteStep(b.pool, 1));
  }

  lemma Late(s0: T.Stream, s: T.Stream, src: seq<byte>, f: nat) returns (r: T.Stream)
    requires Reaches(s0, s, src) && LateCopy(s, src, f) && s.sink.completed == map[]
    ensures Reaches(s0, r, src) && CopyLeft(r)
  {
    hide Reaches;
    var a := SubmitLate(s0, s, src, f);
    r := ReportLate(s0, a, src, f);
    assert |s.pool.sched.chunks| !in r.sink.completed.Keys;
  }

  // ----- everybody returns

  /** The workers before w have returned nil and been collected; the others are at the beginning of their loop. */
  ghost predicate Leaving(s: T.Stream, w: nat) {
    && w <= |s.pool.workers| && Quiescent(s) && s.writer.Entering? && AllAtHead(s.pool, w)
    && (forall v: nat :: v in s.pool.collected <==> v < w)
  }

  lemma NothingOffered(s: Sched, frontier: nat, reserved: int, bufferSize: int, now: int)
    requires frontier >= |s.chunks|
    ensures HedgeEligible(s, frontier, reserved, bufferSize, now) == -1
  {
  }

  lemma AllDoneNow(s: Sched, slot: int, now: int)
    requires !s.cancelled && !s.fatal && s.completedCount >= |s.chunks|
    ensures NextAssignment(s, slot, false, now) == (Cleanup(s, now), AllDone)
  {
  }

  function Checked(s: T.Stream, w: nat): T.Stream
    requires Stands(s.pool, w, Head)
  {
    s.(pool := CheckRootStep(s.pool, w))
  }

  function Looked(s: T.Stream, w: nat): T.Stream
    requires Stands(s.pool, w, Look)
  {
    s.(pool := LookStep(s.pool, w, s.sink.nextIndex, s.sink.reserved, s.sink.bufferSize))
  }

  function Asked(s: T.Stream, w: nat): T.Stream
    requires Stands(s.pool, w, Ask)
  {
    s.(pool := AskStep(s.pool, w))
  }

  lemma LeaveEffect(s: T.Stream, w: nat)
    requires Leaving(s, w) && w < |s.pool.workers|
    ensures Stands(s.pool, w, Head) && Stands(Checked(s, w).pool, w, Look) && Checked(s, w).glance.None?
    ensures Stands(Looked(Checked(s, w), w).pool, w, Ask) && Looked(Checked(s, w), w).glance.None?
    ensures var c := Asked(Looked(Checked(s, w), w), w);
            && Stands(c.pool, w, Exited) && w !in c.pool.collected && c.glance.None?
            && Leaving(c.(pool := CollectStep(c.pool, w)), w + 1) && |CollectStep(c.pool, w).workers| == |s.pool.workers|
  {
    NothingOffered(s.pool.sched, s.sink.nextIndex, s.sink.reserved, s.sink.bufferSize, s.pool.now);
    AllDoneNow(s.pool.sched, s.pool.workers[w].slot, s.pool.now);
    hide HedgeEligible, NextAssignment;
  }

  lemma LeaveOne(s0: T.Stream, s: T.Stream, src: seq<byte>, w: nat) returns (r: T.Stream)
    requires Reaches(s0, s, src) && Leaving(s, w) && w < |s.pool.workers|
    ensures Reaches(s0, r, src) && Leaving(r, w + 1) && |r.pool.workers| == |s.pool.workers|
  {
    LeaveEffect(s, w);
    hide Reaches, Leaving, CheckRootStep, LookStep, AskStep, CollectStep;
    DoCheckRoot(s0, s, src, w);
    var a := Checked(s, w);
    DoLook(s0, a, src, w);
    var b := Looked(a, w);
    DoAsk(s0, b, src, w);
    var c := Asked(b, w);
    DoCollect(s0, c, src, w);
    r := c.(pool := CollectStep(c.pool, w));
  }

  lemma {:induction false} LeaveAll(s0: T.Stream, s: T.Stream, src: seq<byte>, w: nat) returns (r: T.Stream)
    requires Reaches(s0, s, src) && Leaving(s, w)
    ensures Reaches(s0, r, src) && Leaving(r, |r.pool.workers|)
    decreases |s.pool.workers| - w
  {
    if w == |s.pool.workers| {
      r := s;
    } else {
      hide Reaches, Leaving;
      var t := LeaveOne(s0, s, src, w);
      LeavingWithin(t, w + 1);
      r := LeaveAll(s0, t, src, w + 1);
    }
  }

  lemma LeavingWithin(s: T.Stream, w: nat)
    requires Leaving(s, w)
    ensures w <= |s.pool.workers|
  {
  }

  /** The verdict is success, but the writer finds the copy when the sink is closed. */
  lemma CloseFails(s0: T.Stream, s: T.Stream, src: seq<byte>) returns (r: T.Stream)
    requires Reaches(s0, s, src) && Leaving(s, |s.pool.workers|)
    ensures Reaches(s0, r, src) && r.pool.verdict == Some(true) && r.result == Some(false)
  {
    Reach(s0, s, T.OfPool(Verdict), src);
    var a := s.(pool := s.pool.(verdict := Some(true)));
    Reach(s0, a, T.DriverCloses, src);
    var b := a.(sink := Close(a.sink));
    Reach(s0, b, T.WriterEnters, src);
    var c := b.(sink := b.sink.(fatal := true), writer := T.Finished(false));
    Reach(s0, c, T.DriverReturns, src);
    r := c.(result := Some(false));
    hide Reaches;
  }

  /** ... from the state in which worker 1 is about to start its duplicate. */
  lemma LateDuplicate(s0: T.Stream, u: T.Stream, cfg: Config, plan: seq<Chunk>, src: seq<byte>, f: nat) returns (r: T.Stream)
    requires Reaches(s0, u, src) && Unwritten(u, cfg, plan, f, |plan|) && u.writer.Entering?
    requires u.pool.sched.effectiveTarget <= cfg.connections && plan[f].index == f && plan[f].start + plan[f].length <= |src|
    ensures Reaches(s0, r, src) && r.pool.verdict == Some(true) && r.result == Some(false)
  {
    LatePoised(u, cfg, plan, src, f);
    NothingLeftUnwritten(u, cfg, plan, f);
    hide Reaches, Unwritten, Poised, Begun, LateCopy, CopyLeft, Leaving;
    var v := AllStart(s0, u, src, f, 0, 1);
    BegunLate(u, v, cfg, plan, src, f);
    BegunBuffer(u, v, f);
    var w := Late(s0, v, src, f);
    NowLeaving(w);
    var x := LeaveAll(s0, w, src, 0);
    r := CloseFails(s0, x, src);
  }

  lemma NothingLeftUnwritten(u: T.Stream, cfg: Config, plan: seq<Chunk>, f: nat)
    requires Unwritten(u, cfg, plan, f, |plan|)
    ensures u.sink.completed == map[]
  {
  }

  lemma BegunBuffer(s: T.Stream, t: T.Stream, f: nat)
    requires Begun(s, t, f, 1)
    ensures t.sink == s.sink
  {
  }

  lemma NowLeaving(s: T.Stream)
    requires CopyLeft(s)
    ensures Leaving(s, 0)
  {
  }

  /** A run in which every byte is written and every worker succeeds, and which is reported as an error. */
  lemma CompleteButError(cfg: Config, plan: seq<Chunk>, src: seq<byte>, now: nat) returns (r: T.Stream)
    requires T.ValidSetup(cfg, plan, src) && (forall i :: 0 <= i < |plan| ==> !plan[i].hedged && plan[i].length <= cfg.splitSize)
    requires cfg.connections >= 2 && |plan| >= 5 && cfg.bufferSize >= 2 * cfg.splitSize
    requires plan[|plan| - 3].length + plan[|plan| - 2].length + plan[|plan| - 1].length <= cfg.bufferSize
    ensures Reaches(T.Init(cfg, plan, now), r, src)
    ensures r.out == src && r.pool.verdict == Some(true) && r.result == Some(false)
  {
    var s0, f := T.Init(cfg, plan, now), |plan| - 3;
    LastThree(plan, |src|);
    BoundaryStep(plan, |src|, f);
    BoundariesGrow(plan, |src|, f + 1, |plan|);
    assert T.ValidSetup(cfg, plan, src) && plan[f].index == f;
    assert Layout(plan, |src|) && ValidConfig(cfg);
    hide *;
    var s, e, t := Poise(cfg, plan, src, now, f, 2, 1);
    HeldReserved(s, e, t, cfg, plan, src, f);
    var u := Carry(s0, t, cfg, plan, src, 0, f);
    NowUnwritten(s, e, t, u, cfg, plan, src, f);
    TakeFirst(u, cfg, plan, f);
    DoTake(s0, u, src);
    var v := WriteAll(s0, Taken(u), cfg, plan, src, f, f + 1);
    TargetOf(cfg, plan, src, now, v);
    r := LateDuplicate(s0, v, cfg, plan, src, f);
    AllOut(cfg, plan, src, now, r);
  }

  lemma AllOut(cfg: Config, plan: seq<Chunk>, src: seq<byte>, now: nat, r: T.Stream)
    requires T.ValidSetup(cfg, plan, src) && Reaches(T.Init(cfg, plan, now), r, src)
    requires r.pool.verdict == Some(true) && r.result.Some?
    ensures r.out == src
  {
    var es :| T.Legal(T.Init(cfg, plan, now), es, src) && T.Exec(T.Init(cfg, plan, now), es, src) == r && Smoothly(es);
    StreamCompletionReported(cfg, plan, src, now, es);
  }

  lemma HeldReserved(s: T.Stream, e: nat, t: T.Stream, cfg: Config, plan: seq<Chunk>, src: seq<byte>, f: nat)
    requires f + 3 == |plan| && HeldUp(s, cfg, plan, src, f, 2) && Passed(Later(s, e), t, f, 1)
    ensures t.sink.reserved == Boundary(plan, |src|, f + 3) - Boundary(plan, |src|, f + 1) && t.sink.bufferSize == cfg.bufferSize
  {
  }

  lemma TakeFirst(u: T.Stream, cfg: Config, plan: seq<Chunk>, f: nat)
    requires Unwritten(u, cfg, plan, f, f) && u.writer.Entering?
    ensures !u.sink.fatal && u.sink.nextIndex in u.sink.completed
    ensures Unwritten(Taken(u), cfg, plan, f, f + 1) && Taken(u).writer.Writing?
  {
    TakeOne(u, u, cfg, plan, f, f);
  }

  // ----- the theorem

  /** Whenever no write fails, nothing is cancelled and every worker succeeds, the download is reported as a success. */
  ghost predicate AlwaysReported(cfg: Config, plan: seq<Chunk>, src: seq<byte>, now: nat)
    requires ValidConfig(cfg)
  {
    forall es :: T.Legal(T.Init(cfg, plan, now), es, src) && Smoothly(es) ==>
      var s := T.Exec(T.Init(cfg, plan, now), es, src);
      s.result.Some? && s.pool.verdict == Some(true) ==> s.result == Some(true)
  }

  /** A complete stream, exactly. Success is reported for it in every run without failed writes and cancellation if and
      only if the settings start no duplicate. */
  lemma ReportedExactly(cfg: Config, src: seq<byte>, now: nat)
    requires ValidConfig(cfg) && cfg.streamMode
    ensures AlwaysReported(cfg, PlanOf(|src|, cfg.splitSize), src, now) <==> NeverStarts(cfg, |src|)
  {
    var plan := PlanOf(|src|, cfg.splitSize);
    PlanIsLayout(|src|, cfg.splitSize);
    if NeverStarts(cfg, |src|) {
      forall es | T.Legal(T.Init(cfg, plan, now), es, src) && Smoothly(es)
        ensures var s := T.Exec(T.Init(cfg, plan, now), es, src);
                s.result.Some? && s.pool.verdict == Some(true) ==> s.result == Some(true)
      {
        NoneStarted(cfg, src, now, es);
        if T.Exec(T.Init(cfg, plan, now), es, src).result.Some? && T.Exec(T.Init(cfg, plan, now), es, src).pool.verdict == Some(true) {
          StreamCompletionReported(cfg, plan, src, now, es);
        }
      }
    } else {
      var r := CompleteButError(cfg, plan, src, now);
      NotReported(cfg, plan, src, now, r);
    }
  }

  lemma NotReported(cfg: Config, plan: seq<Chunk>, src: seq<byte>, now: nat, r: T.Stream)
    requires ValidConfig(cfg) && Reaches(T.Init(cfg, plan, now), r, src)
    requires r.pool.verdict == Some(true) && r.result == Some(false)
    ensures !AlwaysReported(cfg, plan, src, now)
  {
    hide T.Init;
  }
}
