/** How a download to a stream ends (`writeLoop` in internal/sink/stream.go and `downloadParallelStream` in
    internal/job/runner.go): when a complete output is also reported as a success. */
module StreamFinish {
  import opened Basics
  import opened Chunks
  import opened Scheduling
  import opened WorkerPool
  import opened PoolInvariants
  import opened PoolTheorems
  import opened PoolBudget
  import opened Streaming
  import opened StreamMemory
  import T = StreamTransfer

  // ----- without duplicates nothing stale is buffered

  /** Every buffered chunk is still to be written. */
  ghost predicate NoStale(sink: Sink) {
    forall i :: i in sink.completed ==> sink.nextIndex <= i
  }

  ghost predicate Tidy(s: T.Stream) {
    s.pool.hedges == 0 ==> NoStale(s.sink)
  }

  lemma WriterTidy(s: T.Stream, e: T.Event, src: seq<byte>)
    requires T.Enabled(s, e, src) && !e.OfPool? && NoStale(s.sink)
    ensures NoStale(T.Apply(s, e, src).sink)
  {
  }

  /** What a delivery does to the buffer; every other call of the pool leaves it alone. */
  lemma BufferStep(s: T.Stream, pe: Event, src: seq<byte>)
    requires T.Enabled(s, T.OfPool(pe), src)
    ensures var t := T.PoolStep(s, pe, src);
            && t.sink.nextIndex == s.sink.nextIndex && t.sink.closed == s.sink.closed && t.sink.fatal == s.sink.fatal
            && t.writer == s.writer && t.out == s.out && t.result == s.result
            && (pe.CallDeliver? && pe.ok ==>
                  && T.HasPiece(s, pe.w, src) && t.sink.completed.Keys == s.sink.completed.Keys + {T.ChunkAt(s, pe.w, src).index})
            && (!(pe.CallDeliver? && pe.ok) ==> t.sink.completed == s.sink.completed)
  {
    hide Apply;
  }

  /** A chunk delivered for the first time lies at or after the frontier. */
  lemma DeliveryFresh(s: T.Stream, plan: seq<Chunk>, src: seq<byte>, w: nat)
    requires Solo(s.pool) && Ownership(s.pool) && T.BufferOK(s, plan, src) && s.pool.hedges == 0 && Stands(s.pool, w, Delivering)
    ensures s.sink.nextIndex <= s.pool.workers[w].i
  {
    FirstDelivery(s.pool, w);
  }

  lemma DeliveryTidy(s: T.Stream, plan: seq<Chunk>, src: seq<byte>, w: nat)
    requires Layout(plan, |src|) && Inv(s.pool, plan) && Solo(s.pool) && T.BufferOK(s, plan, src)
    requires s.pool.hedges == 0 && NoStale(s.sink) && T.Enabled(s, T.OfPool(CallDeliver(w, true)), src)
    ensures NoStale(T.PoolStep(s, CallDeliver(w, true), src).sink)
  {
    BufferStep(s, CallDeliver(w, true), src);
    T.DeliverSetup(s, plan, src, w, true);
    DeliveryFresh(s, plan, src, w);
    hide *;
    KeysTidy(s.sink, T.PoolStep(s, CallDeliver(w, true), src).sink, s.pool.workers[w].i);
  }

  lemma KeysTidy(sink: Sink, after: Sink, i: nat)
    requires NoStale(sink) && after.nextIndex == sink.nextIndex <= i && after.completed.Keys == sink.completed.Keys + {i}
    ensures NoStale(after)
  {
    forall j | j in after.completed ensures after.nextIndex <= j { assert j in after.completed.Keys; }
  }

  lemma StepTidy(s: T.Stream, plan: seq<Chunk>, src: seq<byte>, e: T.Event)
    requires Layout(plan, |src|) && ValidPlan(plan) && MInv(s, plan, src) && T.Enabled(s, e, src) && Tidy(s)
    ensures Tidy(T.Apply(s, e, src))
  {
    if T.Apply(s, e, src).pool.hedges == 0 {
      match e
      case OfPool(pe) =>
        PoolPart(s, pe, src);
        Unfold(s.pool, plan);
        DuplicatesOnlyGrow(s.pool, plan, pe);
        hide MInv, T.PoolStep;
        if pe.CallDeliver? && pe.ok {
          DeliveryTidy(s, plan, src, pe.w);
        } else {
          BufferStep(s, pe, src);
        }
      case _ => WriterTidy(s, e, src);
    }
  }

  // ----- the end of an undisturbed run

  /** The writer has failed only because something was left in the buffer when it had written all it could. */
  ghost predicate LeftoverOnly(s: T.Stream, plan: seq<Chunk>, src: seq<byte>)
    requires Layout(plan, |src|) && s.sink.nextIndex <= |plan|
  {
    && !s.pool.rootDone
    && (s.writer == T.Finished(false) ==>
          && s.sink.closed && s.sink.nextIndex !in s.sink.completed && s.sink.completed != map[]
          && s.out == T.Upto(plan, src, s.sink.nextIndex))
    && (s.result.Some? ==>
          && s.writer.Finished? && s.pool.verdict.Some?
          && s.result.value == (s.pool.verdict.value && s.writer.ok))
  }

  lemma NextInPlan(s: T.Stream, plan: seq<Chunk>, src: seq<byte>)
    requires Layout(plan, |src|) && T.SinkInv(s, plan, src)
    ensures s.sink.nextIndex <= |plan|
  {
  }

  lemma DrainLeftover(s: T.Stream, plan: seq<Chunk>, src: seq<byte>)
    requires Layout(plan, |src|) && T.Clean(s, plan, src) && !s.pool.rootDone && s.result.None?
    ensures T.WriterStep(s, Drain(s.sink)).sink.nextIndex <= |plan|
    ensures LeftoverOnly(T.WriterStep(s, Drain(s.sink)), plan, src)
  {
    if s.sink.nextIndex in s.sink.completed {
      assert T.Genuine(plan, src, s.sink.nextIndex, s.sink.completed[s.sink.nextIndex]);
    }
  }

  lemma WriterLeftover(s: T.Stream, plan: seq<Chunk>, src: seq<byte>, e: T.Event)
    requires Layout(plan, |src|) && T.SinkInv(s, plan, src) && T.Enabled(s, e, src) && T.Undisturbing(e)
    requires e.WriterEnters? || e.WriterWakes? || e.WriteSucceeds?
    requires s.sink.nextIndex <= |plan| && LeftoverOnly(s, plan, src)
    ensures T.Apply(s, e, src).sink.nextIndex <= |plan| && LeftoverOnly(T.Apply(s, e, src), plan, src)
  {
    hide Drain, T.Upto, T.BufferOK, T.GrossOK, Layout;
    if e.WriteSucceeds? {
      T.NextPiece(plan, src, s.sink.nextIndex - 1);
      var t := s.(out := s.out + s.writer.cd.data, sink := s.sink.(writtenCount := s.sink.writtenCount + 1));
      assert T.Clean(t, plan, src) by { WrittenClean(s, t, plan, src); }
      DrainLeftover(t, plan, src);
    } else {
      T.Rested(s, plan, src);
      DrainLeftover(s, plan, src);
    }
  }

  lemma WrittenClean(s: T.Stream, t: T.Stream, plan: seq<Chunk>, src: seq<byte>)
    requires Layout(plan, |src|) && T.SinkInv(s, plan, src) && s.writer.Writing?
    requires t == s.(out := s.out + s.writer.cd.data, sink := s.sink.(writtenCount := s.sink.writtenCount + 1))
    ensures T.Clean(t, plan, src)
  {
    T.NextPiece(plan, src, s.sink.nextIndex - 1);
  }

  lemma PoolLeftover(s: T.Stream, plan: seq<Chunk>, src: seq<byte>, pe: Event)
    requires Layout(plan, |src|) && Inv(s.pool, plan) && T.DriverOK(s) && T.Enabled(s, T.OfPool(pe), src)
    requires pe != RootCancel && s.sink.nextIndex <= |plan| && LeftoverOnly(s, plan, src)
    ensures var t := T.PoolStep(s, pe, src); t.sink.nextIndex <= |plan| && LeftoverOnly(t, plan, src)
  {
    BufferStep(s, pe, src);
    PoolPart(s, pe, src);
    RootStays(s.pool, pe);
    EventEffects(s.pool, pe);
    if pe.CallDeliver? { T.NoVerdictYet(s.pool, plan, pe.w); }
    hide Inv, Layout, T.PoolStep, T.Upto, Apply;
  }

  lemma RootStays(p: Pool, pe: Event)
    requires Enabled(p, pe) && pe != RootCancel
    ensures Apply(p, pe).rootDone == p.rootDone
  {
    hide HedgeEligible, StartHedge, NextAssignment, MarkComplete, MarkFailed, OnAdmissionFailure, OnWorkerSuccess, CancelHedge;
  }

  lemma DriverLeftover(s: T.Stream, plan: seq<Chunk>, src: seq<byte>, e: T.Event)
    requires Layout(plan, |src|) && T.DriverOK(s) && T.Enabled(s, e, src) && (e.DriverCloses? || e.DriverReturns? || e.ReadFrontier?)
    requires s.sink.nextIndex <= |plan| && LeftoverOnly(s, plan, src)
    ensures T.Apply(s, e, src).sink.nextIndex <= |plan| && LeftoverOnly(T.Apply(s, e, src), plan, src)
  {
    hide T.Upto, Layout;
  }

  lemma StepLeftover(s: T.Stream, plan: seq<Chunk>, src: seq<byte>, e: T.Event)
    requires Layout(plan, |src|) && ValidPlan(plan) && Inv(s.pool, plan) && T.SinkInv(s, plan, src)
    requires T.Enabled(s, e, src) && T.Undisturbing(e) && s.sink.nextIndex <= |plan| && LeftoverOnly(s, plan, src)
    ensures T.Apply(s, e, src).sink.nextIndex <= |plan| && LeftoverOnly(T.Apply(s, e, src), plan, src)
  {
    hide LeftoverOnly, Inv, Layout, ValidPlan, T.BufferOK, T.OutputOK, T.GrossOK, T.PoolStep;
    match e
    case OfPool(pe) => PoolLeftover(s, plan, src, pe);
    case WriterEnters => WriterLeftover(s, plan, src, e);
    case WriterWakes => WriterLeftover(s, plan, src, e);
    case WriteSucceeds => WriterLeftover(s, plan, src, e);
    case WriteFails(_) =>
    case _ => DriverLeftover(s, plan, src, e);
  }

  lemma {:induction false} RunEnding(s: T.Stream, plan: seq<Chunk>, src: seq<byte>, es: seq<T.Event>)
    requires Layout(plan, |src|) && ValidPlan(plan) && MInv(s, plan, src) && Tidy(s) && T.Legal(s, es, src)
    ensures MInv(T.Exec(s, es, src), plan, src) && Tidy(T.Exec(s, es, src))
    ensures (forall e :: e in es ==> T.Undisturbing(e)) && s.sink.nextIndex <= |plan| && LeftoverOnly(s, plan, src) ==>
              T.Exec(s, es, src).sink.nextIndex <= |plan| && LeftoverOnly(T.Exec(s, es, src), plan, src)
    decreases |es|
  {
    MemoryParts(s, plan, src);
    hide T.Apply, T.Enabled, MInv, Tidy, LeftoverOnly, Layout, ValidPlan, Inv, T.SinkInv, T.Undisturbing;
    if es != [] {
      StepKeepsMemory(s, plan, src, es[0]);
      StepTidy(s, plan, src, es[0]);
      RunEnding(T.Apply(s, es[0], src), plan, src, es[1..]);
      if (forall e :: e in es ==> T.Undisturbing(e)) && s.sink.nextIndex <= |plan| && LeftoverOnly(s, plan, src) {
        assert es[0] in es && forall e :: e in es[1..] ==> e in es;
        StepLeftover(s, plan, src, es[0]);
      }
    }
  }

  lemma MemoryParts(s: T.Stream, plan: seq<Chunk>, src: seq<byte>)
    requires Layout(plan, |src|) && MInv(s, plan, src)
    ensures Inv(s.pool, plan) && T.SinkInv(s, plan, src)
  {
  }

  lemma Ended(cfg: Config, plan: seq<Chunk>, src: seq<byte>, now: nat, es: seq<T.Event>)
    requires T.ValidSetup(cfg, plan, src) && T.Legal(T.Init(cfg, plan, now), es, src)
    ensures var s := T.Exec(T.Init(cfg, plan, now), es, src);
            && MInv(s, plan, src) && Tidy(s) && s.sink.nextIndex <= |plan|
            && ((forall e :: e in es ==> T.Undisturbing(e)) ==> LeftoverOnly(s, plan, src))
  {
    var s0 := T.Init(cfg, plan, now);
    InitMemory(cfg, plan, src, now);
    assert Tidy(s0) && LeftoverOnly(s0, plan, src);
    hide T.Init, T.Exec, T.Legal, MInv, Tidy, LeftoverOnly;
    RunEnding(s0, plan, src, es);
    MemoryParts(T.Exec(s0, es, src), plan, src);
    NextInPlan(T.Exec(s0, es, src), plan, src);
  }

  /** The converse of stream success. In a run without failed writes and cancellation, once every worker has succeeded
      and the download returns, the output is the whole object; and this is reported as a success exactly when nothing
      is left in the buffer. What is left are second copies of chunks already written. Without duplicates there are
      none, so that success is always reported. */
  lemma StreamCompletionReported(cfg: Config, plan: seq<Chunk>, src: seq<byte>, now: nat, es: seq<T.Event>)
    requires T.ValidSetup(cfg, plan, src) && T.Legal(T.Init(cfg, plan, now), es, src)
    requires forall e :: e in es ==> T.Undisturbing(e)
    requires var s := T.Exec(T.Init(cfg, plan, now), es, src); s.result.Some? && s.pool.verdict == Some(true)
    ensures var s := T.Exec(T.Init(cfg, plan, now), es, src);
            && s.out == src
            && (s.result == Some(true) <==> s.sink.completed == map[])
            && (forall i :: i in s.sink.completed ==> i < s.sink.nextIndex)
            && (s.pool.hedges == 0 ==> s.result == Some(true))
  {
    var s := T.Exec(T.Init(cfg, plan, now), es, src);
    Ended(cfg, plan, src, now, es);
    hide T.Init, T.Exec, T.Legal, T.Undisturbing;
    EndState(s, plan, src);
  }

  lemma EndState(s: T.Stream, plan: seq<Chunk>, src: seq<byte>)
    requires Layout(plan, |src|) && MInv(s, plan, src) && Tidy(s) && s.sink.nextIndex <= |plan| && LeftoverOnly(s, plan, src)
    requires forall i :: 0 <= i < |plan| ==> plan[i].state == Pending
    requires s.result.Some? && s.pool.verdict == Some(true)
    ensures s.out == src && (s.result == Some(true) <==> s.sink.completed == map[])
    ensures forall i :: i in s.sink.completed ==> i < s.sink.nextIndex
    ensures s.pool.hedges == 0 ==> s.result == Some(true)
  {
    AllDelivered(s, plan, src);
    hide Inv, Solo, Budget, Balanced;
    if s.result != Some(true) {
      var i :| i in s.sink.completed;
    }
  }

  lemma AllDelivered(s: T.Stream, plan: seq<Chunk>, src: seq<byte>)
    requires Layout(plan, |src|) && Inv(s.pool, plan) && T.BufferOK(s, plan, src) && s.pool.verdict == Some(true)
    requires forall i :: 0 <= i < |plan| ==> plan[i].state == Pending
    ensures s.sink.nextIndex == |plan| || s.sink.nextIndex in s.sink.completed
    ensures forall i :: i in s.sink.completed ==> i < |plan|
  {
    CounterMeansDone(s.pool, plan);
    assert s.sink.nextIndex < |plan| ==> s.sink.nextIndex in s.pool.delivered;
  }

  lemma SameLimit(s: T.Stream, e: T.Event, src: seq<byte>)
    requires T.Enabled(s, e, src)
    ensures T.Apply(s, e, src).sink.bufferSize == s.sink.bufferSize
  {
    hide Apply;
  }
}
