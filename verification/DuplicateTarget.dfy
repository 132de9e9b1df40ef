/** "A speculative duplicate never exceeds effective connection concurrency" (section 24 of ARCHITECTURE.md): the ticket is
    checked by HedgeEligible and taken by StartHedge, with anything in between. */
module DuplicateTarget {
  import opened Chunks
  import opened Scheduling
  import opened WorkerPool
  import opened PoolInvariants
  import opened PoolTheorems
  import opened HedgeRace
  import opened Streaming
  import opened StreamRuns
  import opened Frontier
  import opened DuplicateRace
  import opened DuplicateLimit
  import T = StreamTransfer
  import Backoff
  import Median
  import Stats

  /** Worker w can now start a duplicate, and that takes more tickets than the target allows. */
  ghost predicate StartsAbove(s: T.Stream, w: nat, src: seq<byte>) {
    && T.Enabled(s, T.OfPool(CallStartHedge(w)), src)
    && var q := StartHedgeStep(s.pool, w); InFlight(q, w) && q.sched.activeCount > q.sched.effectiveTarget
  }

  /** No start exceeds the target in any run in which no connection is turned away. */
  ghost predicate TargetRespected(cfg: Config, plan: seq<Chunk>, src: seq<byte>, now: nat)
    requires ValidConfig(cfg)
  {
    forall es, w :: T.Legal(T.Init(cfg, plan, now), es, src) && Admitted(es) ==>
      !StartsAbove(T.Exec(T.Init(cfg, plan, now), es, src), w, src)
  }

  // ----- a target that is never below the connections

  ghost predicate FullTarget(p: Pool) {
    p.sched.effectiveTarget == p.sched.cfg.connections
  }

  lemma AskKeepsFull(s: Sched, slot: int, done: bool, now: int)
    requires s.effectiveTarget == s.cfg.connections
    ensures var t := NextAssignment(s, slot, done, now).0; t.effectiveTarget == s.effectiveTarget && t.cfg == s.cfg
  {
    hide FirstRetryable;
  }

  ghost predicate SameTarget(s: Sched, t: Sched) {
    t.effectiveTarget == s.effectiveTarget && t.cfg == s.cfg
  }

  lemma SettlingKeepsTarget(s: Sched, i: int, retryable: bool, slot: int, bytes: int, d: int, now: int)
    ensures SameTarget(s, MarkComplete(s, i, now)) && SameTarget(s, MarkFailed(s, i, retryable, now))
    ensures SameTarget(s, OnWorkerSuccess(s, slot, bytes, d, now)) && SameTarget(s, CancelHedge(s, i))
    ensures 0 <= s.effectiveTarget <= |s.workers| ==> SameTarget(s, StartHedge(s, i, now).0)
  {
    hide Backoff.RetryBackoff, Stats.RecordSuccess, FirstFreeSlot, Median.Push;
  }

  predicate Settles(e: Event) {
    e.CallOnWorkerSuccess? || e.CallMarkFailed? || e.CallMarkComplete? || e.CallStartHedge? || e.CallCancelHedge?
  }

  lemma ReportKeepsFull(p: Pool, w: nat)
    requires FullTarget(p) && Stands(p, w, Reporting) && p.workers[w].i < |p.sched.chunks|
    ensures FullTarget(SuccessStep(p, w))
  {
    var c := p.sched.chunks[p.workers[w].i];
    SettlingKeepsTarget(p.sched, 0, true, p.workers[w].slot, c.length, p.now - c.startTime, p.now);
    hide OnWorkerSuccess;
  }

  lemma FailKeepsFull(p: Pool, w: nat)
    requires FullTarget(p) && (Stands(p, w, Failing) || Stands(p, w, Losing))
    ensures FullTarget(FailStep(p, w))
  {
    SettlingKeepsTarget(p.sched, p.workers[w].i, p.workers[w].pc == Failing, 0, 0, 0, p.now);
    hide MarkFailed;
  }

  lemma CompleteKeepsFull(p: Pool, w: nat)
    requires FullTarget(p) && Stands(p, w, Finishing)
    ensures FullTarget(CompleteStep(p, w))
  {
    SettlingKeepsTarget(p.sched, p.workers[w].i, true, 0, 0, 0, p.now);
    hide MarkComplete;
  }

  lemma HedgeKeepsFull(p: Pool, w: nat)
    requires FullTarget(p) && w < |p.workers|
    ensures Enabled(p, CallStartHedge(w)) ==> FullTarget(StartHedgeStep(p, w))
    ensures Enabled(p, CallCancelHedge(w)) ==> FullTarget(CancelHedgeStep(p, w))
  {
    SettlingKeepsTarget(p.sched, p.workers[w].i, true, 0, 0, 0, p.now);
    hide StartHedge;
  }

  lemma SettleKeepsFull(p: Pool, e: Event)
    requires FullTarget(p) && Enabled(p, e) && Settles(e)
    ensures FullTarget(Apply(p, e))
  {
    hide SuccessStep, FailStep, CompleteStep, StartHedgeStep, CancelHedgeStep, FullTarget;
    match e
    case CallOnWorkerSuccess(w) => ReportKeepsFull(p, w);
    case CallMarkFailed(w) => FailKeepsFull(p, w);
    case CallMarkComplete(w) => CompleteKeepsFull(p, w);
    case CallStartHedge(w) => HedgeKeepsFull(p, w);
    case CallCancelHedge(w) => HedgeKeepsFull(p, w);
  }

  lemma OtherKeepsFull(p: Pool, e: Event)
    requires FullTarget(p) && Enabled(p, e) && !Settles(e) && !e.CallOnAdmissionFailure? && !e.CallNextAssignment?
    ensures FullTarget(Apply(p, e))
  {
    hide HedgeEligible;
  }

  lemma StepKeepsFull(p: Pool, e: Event)
    requires FullTarget(p) && Enabled(p, e) && !e.CallOnAdmissionFailure?
    ensures FullTarget(Apply(p, e))
  {
    if Settles(e) {
      SettleKeepsFull(p, e);
    } else if e.CallNextAssignment? {
      AskKeepsFull(p.sched, p.workers[e.w].slot, p.rootDone, p.now);
    } else {
      OtherKeepsFull(p, e);
    }
    hide NextAssignment;
  }

  lemma {:induction false} RunKeepsFull(s: T.Stream, es: seq<T.Event>, src: seq<byte>)
    requires FullTarget(s.pool) && T.Legal(s, es, src) && Admitted(es)
    ensures FullTarget(T.Exec(s, es, src).pool)
    decreases |es|
  {
    if es != [] {
      assert es[0] in es && forall e :: e in es[1..] ==> e in es;
      PoolOrNot(s, es[0], src);
      if es[0].OfPool? { StepKeepsFull(s.pool, es[0].e); }
      hide T.Apply, T.Enabled, Apply, Enabled, TurnedAway;
      RunKeepsFull(T.Apply(s, es[0], src), es[1..], src);
    }
  }

  /** There are never more tickets out than workers. */
  lemma FullNotAbove(s: T.Stream, plan: seq<Chunk>, w: nat, src: seq<byte>)
    requires ValidPlan(plan) && Inv(s.pool, plan) && FullTarget(s.pool)
    ensures !StartsAbove(s, w, src)
  {
    if T.Enabled(s, T.OfPool(CallStartHedge(w)), src) {
      var q := StartHedgeStep(s.pool, w);
      StepKeeps(s.pool, plan, CallStartHedge(w));
      StepKeepsFull(s.pool, CallStartHedge(w));
      hide StartHedgeStep;
      TicketsFit(q);
    }
  }

  /** Where no duplicate is ever started, none exceeds anything. */
  lemma NoneAbove(cfg: Config, src: seq<byte>, now: nat, es: seq<T.Event>, w: nat)
    requires ValidConfig(cfg) && cfg.streamMode && NeverStarts(cfg, |src|)
    requires T.Legal(T.Init(cfg, PlanOf(|src|, cfg.splitSize), now), es, src)
    ensures !StartsAbove(T.Exec(T.Init(cfg, PlanOf(|src|, cfg.splitSize), now), es, src), w, src)
  {
    var s0 := T.Init(cfg, PlanOf(|src|, cfg.splitSize), now);
    var s, e := T.Exec(s0, es, src), T.OfPool(CallStartHedge(w));
    hide T.Exec, T.Legal, T.Init, PlanOf;
    if T.Enabled(s, e, src) {
      OneMore(s0, es, e, src);
      NoneStarted(cfg, src, now, es + [e]);
      StartCounts(s.pool, w);
    }
  }

  lemma StartCounts(p: Pool, w: nat)
    requires Enabled(p, CallStartHedge(w)) && StartHedgeStep(p, w).hedges == 0
    ensures !InFlight(StartHedgeStep(p, w), w)
  {
  }

  lemma Respected(cfg: Config, src: seq<byte>, now: nat)
    requires ValidConfig(cfg) && cfg.streamMode
    requires NeverStarts(cfg, |src|) || InitialTarget(cfg, |PlanOf(|src|, cfg.splitSize)|) == cfg.connections
    ensures TargetRespected(cfg, PlanOf(|src|, cfg.splitSize), src, now)
  {
    var plan := PlanOf(|src|, cfg.splitSize);
    var s0 := T.Init(cfg, plan, now);
    PlanIsLayout(|src|, cfg.splitSize);
    forall es, w | T.Legal(s0, es, src) && Admitted(es)
      ensures !StartsAbove(T.Exec(s0, es, src), w, src)
    {
      if NeverStarts(cfg, |src|) {
        NoneAbove(cfg, src, now, es, w);
      } else {
        RunKeepsFull(s0, es, src);
        T.Reachable(cfg, plan, src, now, es);
        FullNotAbove(T.Exec(s0, es, src), plan, w, src);
      }
    }
  }

  // ----- a target below the connections

  /** As many workers as the target allows have passed the check, while worker 0 holds the frontier chunk; all but one
      have started. */
  lemma OneTooMany(cfg: Config, plan: seq<Chunk>, src: seq<byte>, now: nat) returns (r: T.Stream, w: nat)
    requires T.ValidSetup(cfg, plan, src) && (forall i :: 0 <= i < |plan| ==> !plan[i].hedged && plan[i].length <= cfg.splitSize)
    requires |plan| >= 5 && InitialTarget(cfg, |plan|) < cfg.connections && cfg.bufferSize >= 2 * cfg.splitSize
    requires plan[2].length + plan[3].length + plan[4].length <= cfg.bufferSize
    ensures Reaches(T.Init(cfg, plan, now), r, src) && StartsAbove(r, w, src)
  {
    var j := InitialTarget(cfg, |plan|);
    BoundaryStep(plan, |src|, 2);
    BoundaryStep(plan, |src|, 3);
    BoundaryStep(plan, |src|, 4);
    w := j;
    assert ValidConfig(cfg) && 1 <= j < cfg.connections;
    hide *;
    var s, e, t := Poise(cfg, plan, src, now, 2, 2, j);
    PassedPoised(s, e, t, cfg, plan, src, 2, 2, j);
    r := AllStart(T.Init(cfg, plan, now), t, src, 2, 1, j - 1);
    LastIsAbove(s, e, t, r, cfg, plan, src, j);
  }

  lemma LastIsAbove(s: T.Stream, e: nat, t: T.Stream, r: T.Stream, cfg: Config, plan: seq<Chunk>, src: seq<byte>, j: nat)
    requires |plan| >= 5 && HeldUp(s, cfg, plan, src, 2, 2) && Passed(Later(s, e), t, 2, j) && j == InitialTarget(cfg, |plan|) >= 1
    requires Poised(t, src, 2, 1, j) && Begun(t, r, 2, j - 1)
    ensures StartsAbove(r, j, src)
  {
    StillPoised(t, r, src, 2, 1, j);
    StartSucceeds(r.pool.sched, 2, 1, r.pool.now);
    StartHedgeEffect(r.pool.sched, 2, r.pool.now);
    hide StartHedge, SlotFree;
  }

  /** The ticket limit. In runs in which no connection is turned away, no duplicate exceeds the target if none is ever
      started, or if the target begins at the number of connections; with a buffer of three chunks, or an object of at
      most five, only then. */
  lemma TargetExactly(cfg: Config, src: seq<byte>, now: nat)
    requires ValidConfig(cfg) && cfg.streamMode
    ensures var plan := PlanOf(|src|, cfg.splitSize);
            var respected, safe := TargetRespected(cfg, plan, src, now),
                                   NeverStarts(cfg, |src|) || InitialTarget(cfg, |plan|) == cfg.connections;
            && (safe ==> respected)
            && (3 * cfg.splitSize <= cfg.bufferSize || |plan| <= 5 ==> (respected <==> safe))
  {
    var plan := PlanOf(|src|, cfg.splitSize);
    if NeverStarts(cfg, |src|) || InitialTarget(cfg, |plan|) == cfg.connections {
      Respected(cfg, src, now);
    } else if 3 * cfg.splitSize <= cfg.bufferSize || |plan| <= 5 {
      PlanIsLayout(|src|, cfg.splitSize);
      var r, w := OneTooMany(cfg, plan, src, now);
      var es :| T.Legal(T.Init(cfg, plan, now), es, src) && T.Exec(T.Init(cfg, plan, now), es, src) == r && Admitted(es);
    }
  }
}
