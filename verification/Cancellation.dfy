/** What a cancellation does to the worker pool (`NextAssignment`, `Cancel` in internal/schedule/scheduler.go; `workerLoop`
    and `runWorkers` in internal/job/runner.go): nothing new is begun, and the download fails. */
module Cancellation {
  import opened Basics
  import opened Chunks
  import opened Stats
  import opened Backoff
  import opened Scheduling
  import opened WorkerPool
  import opened PoolInvariants
  import opened PoolTheorems
  import opened Assignment
  import opened Streaming
  import A = Adaptation
  import T = StreamTransfer

  /** The root context or the scheduler's own is cancelled. */
  predicate Stopping(p: Pool) {
    p.rootDone || p.sched.cancelled
  }

  /** Nothing is dispatched and nothing becomes active. */
  ghost predicate NothingBegun(s: Sched, t: Sched) {
    && t.nextUndispatched == s.nextUndispatched && |t.chunks| == |s.chunks|
    && forall i :: 0 <= i < |s.chunks| && t.chunks[i].state == Active ==> s.chunks[i].state == Active
  }

  lemma OpStops(s: Sched, op: A.Op)
    requires A.Fits(s) && (op.Ask? ==> op.parentDone || s.cancelled)
    ensures NothingBegun(s, A.Step(s, op)) && (s.cancelled ==> A.Step(s, op).cancelled)
  {
    if op.Hedge? && 0 <= op.i < |s.chunks| { StartHedgeEffect(s, op.i, op.now); }
    hide FirstFreeSlot, TryAssign, RetryBackoff, RecordSuccess, RecordAdmissionFailure;
  }

  lemma AsksOf(p: Pool, e: Event)
    requires Enabled(p, e)
    ensures forall op :: op in CallOf(p, e) && op.Ask? ==> op.parentDone == p.rootDone
    ensures p.rootDone ==> Apply(p, e).rootDone
  {
    hide NextAssignment, StartHedge, HedgeEligible, MarkComplete, MarkFailed, OnAdmissionFailure, OnWorkerSuccess, CancelHedge;
  }

  lemma StepStops(p: Pool, e: Event)
    requires Enabled(p, e) && A.Fits(p.sched) && Stopping(p)
    ensures A.Fits(Apply(p, e).sched) && Stopping(Apply(p, e)) && NothingBegun(p.sched, Apply(p, e).sched)
  {
    hide Apply, Enabled, CallOf, A.Fits, A.Step, NothingBegun;
    CallStep(p, e);
    AsksOf(p, e);
    if CallOf(p, e) != [] {
      var op := CallOf(p, e)[0];
      assert CallOf(p, e) == [op] && op in CallOf(p, e);
      RunOne(p.sched, op);
      OpStops(p.sched, op);
    } else {
      SelfNothing(p.sched);
    }
  }

  lemma SelfNothing(s: Sched)
    ensures NothingBegun(s, s)
  {
  }

  lemma NothingTwice(s: Sched, t: Sched, u: Sched)
    requires NothingBegun(s, t) && NothingBegun(t, u)
    ensures NothingBegun(s, u)
  {
  }

  lemma {:induction false} RunStops(p: Pool, es: seq<Event>)
    requires Legal(p, es) && A.Fits(p.sched) && Stopping(p)
    ensures Stopping(Exec(p, es)) && NothingBegun(p.sched, Exec(p, es).sched)
    decreases |es|
  {
    hide Apply, Enabled, A.Fits, NothingBegun, Stopping;
    SelfNothing(p.sched);
    if es != [] {
      var q := Apply(p, es[0]);
      StepStops(p, es[0]);
      RunStops(q, es[1..]);
      NothingTwice(p.sched, q.sched, Exec(q, es[1..]).sched);
    }
  }

  lemma AskRefused(p: Pool, w: nat)
    requires Stopping(p) && Stands(p, w, Ask)
    ensures AskStep(p, w).workers == p.workers[w := p.workers[w].(pc := Exited, ok := false)]
    ensures NothingBegun(p.sched, AskStep(p, w).sched)
  {
    hide TryAssign;
  }

  /** Cancellation is final. From any reachable state in which the root context or the scheduler is cancelled, no
      continuation makes a chunk active or dispatches another, and every worker that asks for one exits with an error, as
      does every worker that reaches the top of its loop after the root context was cancelled. */
  lemma StopIsFinal(cfg: Config, plan: seq<Chunk>, now: nat, es: seq<Event>, more: seq<Event>)
    requires ValidConfig(cfg) && ValidPlan(plan) && Legal(Init(cfg, plan, now), es)
    requires var p := Exec(Init(cfg, plan, now), es); Legal(p, more) && (p.rootDone || p.sched.cancelled)
    ensures var p := Exec(Init(cfg, plan, now), es);
            var q := Exec(p, more);
            && q.sched.nextUndispatched == p.sched.nextUndispatched && |q.sched.chunks| == |p.sched.chunks|
            && (forall i :: 0 <= i < |q.sched.chunks| && q.sched.chunks[i].state == Active ==> p.sched.chunks[i].state == Active)
            && (forall w: nat :: Stands(q, w, Ask) ==>
                  var v := Apply(q, CallNextAssignment(w)).workers[w]; v.pc == Exited && !v.ok)
            && (p.rootDone ==> forall w: nat :: Stands(q, w, Head) ==>
                  var v := Apply(q, CheckRoot(w)).workers[w]; v.pc == Exited && !v.ok)
  {
    var p := Exec(Init(cfg, plan, now), es);
    var q := Exec(p, more);
    RunFitting(cfg, plan, now, es);
    RunStops(p, more);
    if p.rootDone { RootStays(p, more); }
    hide Exec, Legal, Init, AskStep;
    forall w: nat | Stands(q, w, Ask)
      ensures var v := Apply(q, CallNextAssignment(w)).workers[w]; v.pc == Exited && !v.ok
    {
      AskRefused(q, w);
    }
  }

  lemma {:induction false} RootStays(p: Pool, es: seq<Event>)
    requires Legal(p, es) && p.rootDone
    ensures Exec(p, es).rootDone
    decreases |es|
  {
    hide Apply, Enabled, CallOf;
    if es != [] {
      AsksOf(p, es[0]);
      RootStays(Apply(p, es[0]), es[1..]);
    }
  }

  lemma RunFitting(cfg: Config, plan: seq<Chunk>, now: nat, es: seq<Event>)
    requires ValidConfig(cfg) && ValidPlan(plan) && Legal(Init(cfg, plan, now), es)
    ensures A.Fits(Exec(Init(cfg, plan, now), es).sched)
  {
    InitFits(cfg, plan, now);
    CallsRun(Init(cfg, plan, now), es);
  }

  // ----- the result of a cancelled download

  /** The worker has not returned, or has returned an error. */
  predicate Unlucky(v: Worker) {
    v.pc == Exited ==> !v.ok
  }

  lemma StaysUnlucky(p: Pool, e: Event, w: nat)
    requires Enabled(p, e) && Stopping(p) && w < |p.workers| && Unlucky(p.workers[w])
    ensures w < |Apply(p, e).workers| && Unlucky(Apply(p, e).workers[w])
  {
    hide Apply, Enabled, Unlucky, Settles, Chooses;
    SameWorkers(p, e);
    if Settles(e) { SettlingUnlucky(p, e, w); } else if Chooses(e) { ChoosingUnlucky(p, e, w); } else { OtherUnlucky(p, e, w); }
  }

  lemma SettlingUnlucky(p: Pool, e: Event, w: nat)
    requires Enabled(p, e) && Settles(e) && w < |p.workers| == |Apply(p, e).workers| && Unlucky(p.workers[w])
    ensures Unlucky(Apply(p, e).workers[w])
  {
    hide MarkComplete, MarkFailed, OnAdmissionFailure, OnWorkerSuccess;
  }

  lemma ChoosingUnlucky(p: Pool, e: Event, w: nat)
    requires Enabled(p, e) && Chooses(e) && w < |p.workers| == |Apply(p, e).workers| && Stopping(p) && Unlucky(p.workers[w])
    ensures Unlucky(Apply(p, e).workers[w])
  {
    if e.CallNextAssignment? {
      AskRefused(p, e.w);
      hide AskStep;
    } else {
      hide StartHedge, CancelHedge;
    }
  }

  lemma OtherUnlucky(p: Pool, e: Event, w: nat)
    requires Enabled(p, e) && !Settles(e) && !Chooses(e) && w < |p.workers| == |Apply(p, e).workers| && Unlucky(p.workers[w])
    ensures Unlucky(Apply(p, e).workers[w])
  {
    hide HedgeEligible;
  }

  lemma {:induction false} RunUnlucky(p: Pool, es: seq<Event>, w: nat)
    requires Legal(p, es) && A.Fits(p.sched) && Stopping(p) && w < |p.workers| && Unlucky(p.workers[w])
    ensures w < |Exec(p, es).workers| && Unlucky(Exec(p, es).workers[w])
    decreases |es|
  {
    hide Apply, Enabled, A.Fits, Stopping, Unlucky;
    if es != [] {
      StepStops(p, es[0]);
      StaysUnlucky(p, es[0], w);
      RunUnlucky(Apply(p, es[0]), es[1..], w);
    }
  }

  lemma VerdictOf(p: Pool, plan: seq<Chunk>, w: nat)
    requires Inv(p, plan) && w < |p.workers| && Unlucky(p.workers[w])
    ensures p.verdict != Some(true)
  {
  }

  /** A download cancelled before all workers have returned never succeeds, not even if every chunk is complete. */
  lemma StopMeansFailure(cfg: Config, plan: seq<Chunk>, now: nat, es: seq<Event>, w: nat, more: seq<Event>)
    requires ValidConfig(cfg) && ValidPlan(plan) && Legal(Init(cfg, plan, now), es)
    requires var p := Exec(Init(cfg, plan, now), es);
             Legal(p, more) && (p.rootDone || p.sched.cancelled) && w < |p.workers| && p.workers[w].pc != Exited
    ensures Exec(Exec(Init(cfg, plan, now), es), more).verdict != Some(true)
  {
    var p := Exec(Init(cfg, plan, now), es);
    RunFitting(cfg, plan, now, es);
    RunInvariant(cfg, plan, now, es);
    RunUnlucky(p, more, w);
    RunKeeps(p, plan, more);
    hide Exec, Legal, Init, Inv;
    VerdictOf(Exec(p, more), plan, w);
  }

  // ----- a cancelled download to a stream

  /** An event of the stream is a call of the pool or leaves the pool alone. */
  lemma PoolPart(s: T.Stream, e: T.Event, src: seq<byte>)
    requires T.Enabled(s, e, src)
    ensures e.OfPool? ==> Enabled(s.pool, e.e) && T.Apply(s, e, src).pool == Apply(s.pool, e.e)
    ensures !e.OfPool? ==> T.Apply(s, e, src).pool == s.pool
  {
    hide Apply, Enabled;
  }

  lemma {:induction false} StreamUnlucky(s: T.Stream, es: seq<T.Event>, src: seq<byte>, w: nat)
    requires T.Legal(s, es, src) && A.Fits(s.pool.sched) && Stopping(s.pool) && w < |s.pool.workers| && Unlucky(s.pool.workers[w])
    ensures w < |T.Exec(s, es, src).pool.workers| && Unlucky(T.Exec(s, es, src).pool.workers[w])
    decreases |es|
  {
    hide T.Apply, T.Enabled, Apply, Enabled, A.Fits, Stopping, Unlucky;
    if es != [] {
      PoolPart(s, es[0], src);
      if es[0].OfPool? {
        StepStops(s.pool, es[0].e);
        StaysUnlucky(s.pool, es[0].e, w);
      }
      StreamUnlucky(T.Apply(s, es[0], src), es[1..], src, w);
    }
  }

  lemma StaysAwake(s: T.Stream, e: T.Event, src: seq<byte>)
    requires T.Enabled(s, e, src) && s.pool.rootDone
    ensures T.Apply(s, e, src).pool.rootDone
    ensures !s.writer.Waiting? ==> !T.Apply(s, e, src).writer.Waiting?
  {
    PoolPart(s, e, src);
    if e.OfPool? {
      AsksOf(s.pool, e.e);
      WriterAside(s, e, src);
    }
    hide Apply, Enabled;
  }

  lemma WriterAside(s: T.Stream, e: T.Event, src: seq<byte>)
    requires T.Enabled(s, e, src) && e.OfPool?
    ensures T.Apply(s, e, src).writer == s.writer
  {
    hide Apply, Enabled;
  }

  lemma {:induction false} RunAwake(s: T.Stream, es: seq<T.Event>, src: seq<byte>)
    requires T.Legal(s, es, src) && s.pool.rootDone
    ensures T.Exec(s, es, src).pool.rootDone
    ensures !s.writer.Waiting? ==> !T.Exec(s, es, src).writer.Waiting?
    decreases |es|
  {
    hide T.Apply, T.Enabled;
    if es != [] {
      StaysAwake(s, es[0], src);
      RunAwake(T.Apply(s, es[0], src), es[1..], src);
    }
  }

  /** Once the root context is cancelled, the writer of a stream never again waits for a chunk: one that is not waiting
      never does, and one that is returns an error when it wakes. If a worker had not returned, the download fails. */
  lemma CancelledStream(cfg: Config, plan: seq<Chunk>, src: seq<byte>, now: nat, es: seq<T.Event>, w: nat, more: seq<T.Event>)
    requires T.ValidSetup(cfg, plan, src) && T.Legal(T.Init(cfg, plan, now), es, src)
    requires var s := T.Exec(T.Init(cfg, plan, now), es, src); s.pool.rootDone && T.Legal(s, more, src)
    ensures var s := T.Exec(T.Init(cfg, plan, now), es, src);
            var q := T.Exec(s, more, src);
            && (!s.writer.Waiting? ==> !q.writer.Waiting?)
            && (T.Enabled(q, T.WriterWakes, src) ==> T.Apply(q, T.WriterWakes, src).writer == T.Finished(false))
            && (w < |s.pool.workers| && s.pool.workers[w].pc != Exited ==> q.result != Some(true))
  {
    var s := T.Exec(T.Init(cfg, plan, now), es, src);
    var q := T.Exec(s, more, src);
    T.Reachable(cfg, plan, src, now, es);
    T.RunKeepsSink(s, plan, src, more);
    RunAwake(s, more, src);
    if T.Enabled(q, T.WriterWakes, src) { WakesFailing(q, src); }
    FittingPool(s.pool, plan);
    hide T.Exec, T.Legal, T.Init, T.Apply, T.Enabled, Inv, T.SinkInv, A.Fits;
    if w < |s.pool.workers| && s.pool.workers[w].pc != Exited {
      StreamUnlucky(s, more, src, w);
      VerdictOf(q.pool, plan, w);
      ResultOf(q, plan, src);
    }
  }

  lemma WakesFailing(q: T.Stream, src: seq<byte>)
    requires q.pool.rootDone && T.Enabled(q, T.WriterWakes, src)
    ensures T.Apply(q, T.WriterWakes, src).writer == T.Finished(false)
  {
  }

  lemma ResultOf(q: T.Stream, plan: seq<Chunk>, src: seq<byte>)
    requires Layout(plan, |src|) && T.SinkInv(q, plan, src) && q.pool.verdict != Some(true)
    ensures q.result != Some(true)
  {
  }

  lemma FittingPool(p: Pool, plan: seq<Chunk>)
    requires Inv(p, plan)
    ensures A.Fits(p.sched)
  {
  }

  // ----- errors

  /** The first error stops the others. */
  predicate FirstErrorStops(p: Pool) {
    p.firstErr ==> p.sched.cancelled
  }

  lemma StepStopsAll(p: Pool, e: Event)
    requires Enabled(p, e) && A.Fits(p.sched) && FirstErrorStops(p)
    ensures A.Fits(Apply(p, e).sched) && FirstErrorStops(Apply(p, e))
  {
    CallStep(p, e);
    if p.firstErr {
      StepCancelled(p, e);
    } else {
      FirstError(p, e);
    }
  }

  lemma StepCancelled(p: Pool, e: Event)
    requires Enabled(p, e) && A.Fits(p.sched) && p.sched.cancelled
    ensures Apply(p, e).sched.cancelled
  {
    hide Apply, Enabled, CallOf, A.Fits, A.Step;
    CallStep(p, e);
    if CallOf(p, e) != [] {
      var op := CallOf(p, e)[0];
      assert CallOf(p, e) == [op];
      RunOne(p.sched, op);
      OpStops(p.sched, op);
    }
  }

  lemma FirstError(p: Pool, e: Event)
    requires Enabled(p, e) && !p.firstErr
    ensures Apply(p, e).firstErr ==> Apply(p, e).sched.cancelled
  {
    hide NextAssignment, StartHedge, HedgeEligible, MarkComplete, MarkFailed, OnAdmissionFailure, OnWorkerSuccess, CancelHedge;
  }

  lemma {:induction false} RunStopsAll(p: Pool, es: seq<Event>)
    requires Legal(p, es) && A.Fits(p.sched) && FirstErrorStops(p)
    ensures FirstErrorStops(Exec(p, es))
    decreases |es|
  {
    hide Apply, Enabled, A.Fits, FirstErrorStops;
    if es != [] {
      StepStopsAll(p, es[0]);
      RunStopsAll(Apply(p, es[0]), es[1..]);
    }
  }

  /** Worker w has had a delivery refused. */
  predicate Doomed(v: Worker) {
    v.pc == Losing || (v.pc == Exited && !v.ok)
  }

  lemma StaysDoomed(p: Pool, e: Event, w: nat)
    requires Enabled(p, e) && w < |p.workers| && Doomed(p.workers[w])
    ensures w < |Apply(p, e).workers| && Doomed(Apply(p, e).workers[w])
  {
    hide Apply, Enabled, Doomed, Settles, Chooses;
    SameWorkers(p, e);
    if Settles(e) { SettlingDoomed(p, e, w); } else if Chooses(e) { ChoosingDoomed(p, e, w); } else { OtherDoomed(p, e, w); }
  }

  lemma SettlingDoomed(p: Pool, e: Event, w: nat)
    requires Enabled(p, e) && Settles(e) && w < |p.workers| == |Apply(p, e).workers| && Doomed(p.workers[w])
    ensures Doomed(Apply(p, e).workers[w])
  {
    hide MarkComplete, MarkFailed, OnAdmissionFailure, OnWorkerSuccess;
  }

  lemma ChoosingDoomed(p: Pool, e: Event, w: nat)
    requires Enabled(p, e) && Chooses(e) && w < |p.workers| == |Apply(p, e).workers| && Doomed(p.workers[w])
    ensures Doomed(Apply(p, e).workers[w])
  {
    hide NextAssignment, StartHedge, CancelHedge;
  }

  lemma OtherDoomed(p: Pool, e: Event, w: nat)
    requires Enabled(p, e) && !Settles(e) && !Chooses(e) && w < |p.workers| == |Apply(p, e).workers| && Doomed(p.workers[w])
    ensures Doomed(Apply(p, e).workers[w])
  {
    hide HedgeEligible;
  }

  lemma {:induction false} RunDoomed(p: Pool, es: seq<Event>, w: nat)
    requires Legal(p, es) && w < |p.workers| && Doomed(p.workers[w])
    ensures w < |Exec(p, es).workers| && Doomed(Exec(p, es).workers[w])
    decreases |es|
  {
    hide Apply, Enabled, Doomed;
    if es != [] {
      StaysDoomed(p, es[0], w);
      RunDoomed(Apply(p, es[0]), es[1..], w);
    }
  }

  lemma DoomedVerdict(p: Pool, plan: seq<Chunk>, w: nat)
    requires Inv(p, plan) && w < |p.workers| && Doomed(p.workers[w])
    ensures p.verdict != Some(true)
  {
  }

  /** Errors are final. In every reachable state the first error that was collected has cancelled the scheduler; and once a
      sink has refused a worker's delivery, or a worker has returned an error, no continuation ends in success. */
  lemma ErrorsAreFinal(cfg: Config, plan: seq<Chunk>, now: nat, es: seq<Event>, e: Event, more: seq<Event>)
    requires ValidConfig(cfg) && ValidPlan(plan) && Legal(Init(cfg, plan, now), es)
    requires Enabled(Exec(Init(cfg, plan, now), es), e) && Legal(Apply(Exec(Init(cfg, plan, now), es), e), more)
    ensures var p := Exec(Init(cfg, plan, now), es);
            var q := Exec(Apply(p, e), more);
            && (p.firstErr ==> p.sched.cancelled)
            && (e.CallDeliver? && !e.ok ==> q.verdict != Some(true))
            && ((exists w :: 0 <= w < |p.workers| && p.workers[w].pc == Exited && !p.workers[w].ok) ==> q.verdict != Some(true))
  {
    var p0, p := Init(cfg, plan, now), Exec(Init(cfg, plan, now), es);
    InitFits(cfg, plan, now);
    assert FirstErrorStops(p0);
    RunInvariant(cfg, plan, now, es);
    hide *;
    RunStopsAll(p0, es);
    LaterInvariant(p, plan, e, more);
    FirstErrorOf(p);
    if e.CallDeliver? && !e.ok {
      RefusedDoomed(p, e);
      DoomedFrom(Apply(p, e), plan, e.w, more);
    }
    if w :| 0 <= w < |p.workers| && p.workers[w].pc == Exited && !p.workers[w].ok {
      ReturnedDoomed(p.workers[w]);
      StaysDoomed(p, e, w);
      DoomedFrom(Apply(p, e), plan, w, more);
    }
  }

  lemma FirstErrorOf(p: Pool)
    requires FirstErrorStops(p)
    ensures p.firstErr ==> p.sched.cancelled
  {
  }

  lemma ReturnedDoomed(v: Worker)
    requires v.pc == Exited && !v.ok
    ensures Doomed(v)
  {
  }

  lemma RefusedDoomed(p: Pool, e: Event)
    requires Enabled(p, e) && e.CallDeliver? && !e.ok
    ensures e.w < |Apply(p, e).workers| && Doomed(Apply(p, e).workers[e.w])
  {
  }

  lemma LaterInvariant(p: Pool, plan: seq<Chunk>, e: Event, more: seq<Event>)
    requires ValidPlan(plan) && Inv(p, plan) && Enabled(p, e) && Legal(Apply(p, e), more)
    ensures Inv(Exec(Apply(p, e), more), plan)
  {
    hide *;
    StepKeeps(p, plan, e);
    RunKeeps(Apply(p, e), plan, more);
  }

  lemma DoomedFrom(p: Pool, plan: seq<Chunk>, w: nat, more: seq<Event>)
    requires Legal(p, more) && Inv(Exec(p, more), plan) && w < |p.workers| && Doomed(p.workers[w])
    ensures Exec(p, more).verdict != Some(true)
  {
    RunDoomed(p, more, w);
    DoomedVerdict(Exec(p, more), plan, w);
  }
}
