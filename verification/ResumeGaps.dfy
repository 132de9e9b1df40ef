/** Resuming from a bitmap with gaps (`tryAssign` and `New` in internal/schedule/scheduler.go skip completed chunks only
    at the front). Exactly when does a download that reports success have every chunk? */
module ResumeGaps {
  import opened Basics
  import opened Counting
  import opened Chunks
  import opened Backoff
  import opened Scheduling
  import opened WorkerPool
  import opened PoolInvariants
  import opened PoolTheorems
  import opened PoolBudget

  /** Every chunk was complete at the start or has been delivered. */
  ghost predicate AllThere(plan: seq<Chunk>, delivered: set<nat>) {
    forall i: nat :: i < |plan| ==> plan[i].state == Completed || i in delivered
  }

  /** A download that reports success always has every chunk. */
  ghost predicate SuccessIsWhole(cfg: Config, plan: seq<Chunk>, now: nat)
    requires ValidConfig(cfg)
  {
    forall es :: Legal(Init(cfg, plan, now), es) && Exec(Init(cfg, plan, now), es).verdict == Some(true) ==>
      AllThere(plan, Exec(Init(cfg, plan, now), es).delivered)
  }

  /** How many chunks are dispatched before the completion counter reaches the total, if none fails. */
  function Dispatched(plan: seq<Chunk>): int {
    Prefix(plan) + |plan| - |InState(plan, Completed)|
  }

  /** What a caller can check on the bitmap: it has no gap; or no chunk is ever retried, and all gaps lie among the
      chunks dispatched before the counter reaches the total. */
  ghost predicate GapsHarmless(cfg: Config, plan: seq<Chunk>) {
    IsPrefix(plan) ||
    (cfg.maxTries == 1 && forall i :: 0 <= i < |plan| && Dispatched(plan) <= i ==> plan[i].state == Completed)
  }

  // ----- runs as reachability

  ghost predicate Reaches(p: Pool, q: Pool) {
    exists es :: Legal(p, es) && Exec(p, es) == q
  }

  lemma ReachSelf(p: Pool)
    ensures Reaches(p, p)
  {
    assert Legal(p, []) && Exec(p, []) == p;
  }

  lemma {:induction false} OneMore(p: Pool, es: seq<Event>, e: Event)
    requires Legal(p, es) && Enabled(Exec(p, es), e)
    ensures Legal(p, es + [e]) && Exec(p, es + [e]) == Apply(Exec(p, es), e)
    decreases |es|
  {
    hide Enabled, Apply;
    if es == [] {
      assert (es + [e])[1..] == [];
    } else {
      assert (es + [e])[1..] == es[1..] + [e];
      OneMore(Apply(p, es[0]), es[1..], e);
    }
  }

  lemma Reach(p: Pool, q: Pool, e: Event)
    requires Reaches(p, q) && Enabled(q, e)
    ensures Reaches(p, Apply(q, e))
  {
    var es :| Legal(p, es) && Exec(p, es) == q;
    OneMore(p, es, e);
  }

  lemma RunTo(p: Pool, q: Pool) returns (es: seq<Event>)
    requires Reaches(p, q)
    ensures Legal(p, es) && Exec(p, es) == q
  {
    es :| Legal(p, es) && Exec(p, es) == q;
  }

  // ----- one worker at work while the others have not begun

  /** Nothing is under way; worker 0 asks next; nothing waiting may be retried yet. */
  ghost predicate Ready(p: Pool, cfg: Config, plan: seq<Chunk>, next: nat, count: int) {
    && p.sched.cfg == cfg && |p.sched.chunks| == |plan|
    && |p.workers| == |p.sched.workers| == cfg.connections
    && (forall w :: 0 <= w < |p.workers| ==> p.workers[w].pc == Head && !p.workers[w].hedge)
    && |p.workers| > 0 && p.workers[0].slot == 0 && p.sched.workers[0].suppressedUntil <= p.now
    && Undisturbed(p) && p.collected == {}
    && (forall i :: 0 <= i < |p.sched.chunks| && p.sched.chunks[i].state == RetryWait ==> p.now < p.sched.chunks[i].retryAfter)
    && (forall i :: next <= i < |p.sched.chunks| ==> p.sched.chunks[i].attempts == 0)
    && p.sched.activeCount == 0 && p.sched.effectiveTarget >= 1
    && p.sched.nextUndispatched == next && p.sched.completedCount == count
  }

  predicate Undisturbed(p: Pool) {
    !p.rootDone && !p.sched.cancelled && !p.sched.fatal && !p.firstErr && p.verdict == None
  }

  lemma InitReady(cfg: Config, plan: seq<Chunk>, now: nat)
    requires ValidConfig(cfg) && ValidPlan(plan)
    ensures Ready(Init(cfg, plan, now), cfg, plan, Prefix(plan), |InState(plan, Completed)|)
  {
  }

  lemma NoneRetryable(chunks: seq<Chunk>, now: int)
    requires forall i :: 0 <= i < |chunks| && chunks[i].state == RetryWait ==> now < chunks[i].retryAfter
    ensures FirstRetryable(chunks, now, 0) == |chunks|
  {
  }

  /** The target is the number of connections, so that there is nothing to restore. */
  predicate FullTarget(p: Pool) { p.sched.effectiveTarget == p.sched.cfg.connections }

  /** ... no slot was ever given up, and slot 0 has not been turned away since its last success. */
  predicate Unreduced(p: Pool) {
    FullTarget(p) && p.sched.cooldownUntil == 0 && |p.sched.workers| > 0 && p.sched.workers[0].admissionFailures == 0
  }

  /** Worker 0 has been given chunk `next`. */
  ghost predicate Took(p: Pool, q: Pool, next: nat) {
    && next < |p.sched.chunks| && |p.workers| > 0 && |q.workers| == |p.workers|
    && q.workers == p.workers[0 := q.workers[0]]
    && q.workers[0] == p.workers[0].(pc := Opening, i := next)
    && q.sched == p.sched.(chunks := q.sched.chunks, activeCount := 1, nextUndispatched := next + 1,
                           effectiveTarget := q.sched.effectiveTarget, restoreBackoff := q.sched.restoreBackoff,
                           cooldownUntil := q.sched.cooldownUntil)
    && q.sched.effectiveTarget >= 1
    && (FullTarget(p) ==> q.sched.effectiveTarget == p.sched.effectiveTarget && q.sched.cooldownUntil == p.sched.cooldownUntil)
    && q.sched.chunks == Assign(p.sched, next, 0, p.now).chunks
    && q == p.(sched := q.sched, workers := q.workers, work := q.work)
  }

  lemma TakeEffect(p: Pool, cfg: Config, plan: seq<Chunk>, next: nat, count: int)
    requires Ready(p, cfg, plan, next, count) && !cfg.streamMode && next < |plan| && count < |plan|
    ensures Stands(p, 0, Head) && Stands(CheckRootStep(p, 0), 0, Ask)
    ensures Took(p, AskStep(CheckRootStep(p, 0), 0), next)
  {
    NoneRetryable(p.sched.chunks, p.now);
  }

  lemma Take(p0: Pool, p: Pool, cfg: Config, plan: seq<Chunk>, next: nat, count: int) returns (q: Pool)
    requires Reaches(p0, p) && Ready(p, cfg, plan, next, count) && !cfg.streamMode
    requires next < |plan| && count < |plan|
    ensures Reaches(p0, q) && Took(p, q, next)
  {
    TakeEffect(p, cfg, plan, next, count);
    hide Ready, Took, CheckRootStep, AskStep, Reaches;
    Reach(p0, p, CheckRoot(0));
    Reach(p0, CheckRootStep(p, 0), CallNextAssignment(0));
    q := AskStep(CheckRootStep(p, 0), 0);
  }

  /** The chunk arrives, is delivered and marked complete. */
  lemma FinishEffect(p: Pool, q: Pool, cfg: Config, plan: seq<Chunk>, next: nat, count: int)
    requires Ready(p, cfg, plan, next, count) && Took(p, q, next) && !cfg.streamMode
    ensures Stands(q, 0, Opening) && Stands(OpenStep(q, 0, true), 0, Reading)
    ensures var r := ReadStep(OpenStep(q, 0, true), 0, true);
            && Stands(r, 0, Delivering) && Stands(DeliverStep(r, 0, true), 0, Reporting)
            && DeliverStep(r, 0, true).workers[0].i < |DeliverStep(r, 0, true).sched.chunks|
            && var s := SuccessStep(DeliverStep(r, 0, true), 0);
            && Stands(s, 0, Finishing)
            && Ready(CompleteStep(s, 0), cfg, plan, next + 1, count + 1)
            && CompleteStep(s, 0).delivered == p.delivered + {next}
            && CompleteStep(s, 0).now == p.now && (Unreduced(p) ==> Unreduced(CompleteStep(s, 0)))
  {
  }

  lemma Finish(p0: Pool, p: Pool, q: Pool, cfg: Config, plan: seq<Chunk>, next: nat, count: int) returns (r: Pool)
    requires Reaches(p0, q) && Ready(p, cfg, plan, next, count) && Took(p, q, next) && !cfg.streamMode
    ensures Reaches(p0, r) && Ready(r, cfg, plan, next + 1, count + 1) && r.delivered == p.delivered + {next}
    ensures r.now == p.now && (Unreduced(p) ==> Unreduced(r))
  {
    FinishEffect(p, q, cfg, plan, next, count);
    hide Ready, Took, OpenStep, ReadStep, DeliverStep, SuccessStep, CompleteStep, Reaches;
    Reach(p0, q, CallOpenRange(0, true));
    var a := OpenStep(q, 0, true);
    Reach(p0, a, CallReadFull(0, true));
    var b := ReadStep(a, 0, true);
    Reach(p0, b, CallDeliver(0, true));
    var c := DeliverStep(b, 0, true);
    Reach(p0, c, CallOnWorkerSuccess(0));
    var d := SuccessStep(c, 0);
    Reach(p0, d, CallMarkComplete(0));
    r := CompleteStep(d, 0);
  }

  /** The transfer breaks off and the chunk is sent back to wait. */
  lemma BreakEffect(p: Pool, q: Pool, cfg: Config, plan: seq<Chunk>, next: nat, count: int)
    requires Ready(p, cfg, plan, next, count) && Took(p, q, next) && !cfg.streamMode && cfg.maxTries >= 2
    ensures Stands(q, 0, Opening) && Stands(OpenStep(q, 0, true), 0, Reading)
    ensures var r := ReadStep(OpenStep(q, 0, true), 0, false);
            && Stands(r, 0, Failing)
            && Ready(FailStep(r, 0), cfg, plan, next + 1, count)
            && FailStep(r, 0).delivered == p.delivered
  {
    assert RetryBackoff(1) == SECOND by { EarlyBackoff(1); }
  }

  lemma Break(p0: Pool, p: Pool, q: Pool, cfg: Config, plan: seq<Chunk>, next: nat, count: int) returns (r: Pool)
    requires Reaches(p0, q) && Ready(p, cfg, plan, next, count) && Took(p, q, next) && !cfg.streamMode && cfg.maxTries >= 2
    ensures Reaches(p0, r) && Ready(r, cfg, plan, next + 1, count) && r.delivered == p.delivered
  {
    BreakEffect(p, q, cfg, plan, next, count);
    hide Ready, Took, OpenStep, ReadStep, FailStep, Reaches;
    Reach(p0, q, CallOpenRange(0, true));
    var a := OpenStep(q, 0, true);
    Reach(p0, a, CallReadFull(0, false));
    var b := ReadStep(a, 0, false);
    Reach(p0, b, CallMarkFailed(0));
    r := FailStep(b, 0);
  }

  /** Worker 0 transfers the next k chunks. */
  lemma {:induction false} Feed(p0: Pool, p: Pool, cfg: Config, plan: seq<Chunk>, next: nat, count: int, k: nat) returns (r: Pool)
    requires Reaches(p0, p) && Ready(p, cfg, plan, next, count) && !cfg.streamMode
    requires next + k <= |plan| && count + k <= |plan|
    ensures Reaches(p0, r) && Ready(r, cfg, plan, next + k, count + k)
    ensures forall i :: i in r.delivered ==> i in p.delivered || next <= i < next + k
    ensures r.now == p.now && (Unreduced(p) ==> Unreduced(r))
    decreases k
  {
    hide Ready, Took, Reaches, Unreduced;
    if k == 0 {
      r := p;
    } else {
      var q := Take(p0, p, cfg, plan, next, count);
      var s := Finish(p0, p, q, cfg, plan, next, count);
      r := Feed(p0, s, cfg, plan, next + 1, count + 1, k - 1);
    }
  }

  /** The counter has reached the total; the workers before w have returned nil and been collected. */
  ghost predicate Leaving(p: Pool, w: nat, delivered: set<nat>) {
    && w <= |p.workers| && !p.sched.cfg.streamMode
    && (forall v :: 0 <= v < |p.workers| ==> if v < w then v in p.collected else p.workers[v].pc == Head)
    && (forall v :: v in p.collected ==> v < w)
    && Undisturbed(p) && p.sched.completedCount >= |p.sched.chunks| && p.delivered == delivered
  }

  lemma LeaveEffect(p: Pool, w: nat, delivered: set<nat>)
    requires Leaving(p, w, delivered) && w < |p.workers|
    ensures Stands(p, w, Head) && Stands(CheckRootStep(p, w), w, Ask)
    ensures var q := AskStep(CheckRootStep(p, w), w);
            Stands(q, w, Exited) && w !in q.collected && Leaving(CollectStep(q, w), w + 1, delivered)
  {
  }

  lemma {:induction false} Leave(p0: Pool, p: Pool, w: nat, delivered: set<nat>) returns (r: Pool)
    requires Reaches(p0, p) && Leaving(p, w, delivered)
    ensures Reaches(p0, r) && Leaving(r, |r.workers|, delivered)
    decreases |p.workers| - w
  {
    if w == |p.workers| {
      r := p;
    } else {
      LeaveEffect(p, w, delivered);
      assert |CollectStep(AskStep(CheckRootStep(p, w), w), w).workers| == |p.workers|;
      hide Leaving, CheckRootStep, AskStep, CollectStep, Reaches;
      Reach(p0, p, CheckRoot(w));
      var a := CheckRootStep(p, w);
      Reach(p0, a, CallNextAssignment(w));
      var b := AskStep(a, w);
      Reach(p0, b, Collect(w));
      r := Leave(p0, CollectStep(b, w), w + 1, delivered);
    }
  }

  lemma Succeed(p0: Pool, p: Pool, cfg: Config, plan: seq<Chunk>, next: nat, count: int) returns (r: Pool)
    requires Reaches(p0, p) && Ready(p, cfg, plan, next, count) && !cfg.streamMode && count >= |plan|
    ensures Reaches(p0, r) && r.verdict == Some(true) && r.delivered == p.delivered
  {
    assert Leaving(p, 0, p.delivered);
    hide Reaches, Ready;
    var q := Leave(p0, p, 0, p.delivered);
    Reach(p0, q, Verdict);
    r := Apply(q, Verdict);
  }

  lemma CompletedCountBound(plan: seq<Chunk>)
    ensures Prefix(plan) <= |InState(plan, Completed)| <= |plan|
    ensures !IsPrefix(plan) ==> Prefix(plan) < |InState(plan, Completed)| < |plan|
  {
    InStateBounded(plan, Completed);
    var front := Below(Prefix(plan));
    SubsetSize(front, InState(plan, Completed));
    if !IsPrefix(plan) {
      var i :| Prefix(plan) <= i < |plan| && plan[i].state == Completed;
      assert i in InState(plan, Completed) && i !in front;
    }
  }

  /** A missing chunk that some successful run never delivers: with a gap and retries every one, without retries
      those dispatched too late. */
  ghost predicate Losable(cfg: Config, plan: seq<Chunk>, v: nat) {
    && v < |plan| && plan[v].state != Completed && !IsPrefix(plan)
    && (cfg.maxTries >= 2 || Dispatched(plan) <= v)
  }

  /** Chunk v breaks off once and is left waiting; all others the counter needs arrive. */
  lemma RetryLosesChunk(cfg: Config, plan: seq<Chunk>, now: nat, v: nat) returns (t: Pool)
    requires ValidConfig(cfg) && ValidPlan(plan) && !cfg.streamMode && cfg.maxTries >= 2
    requires Losable(cfg, plan, v) && v < Dispatched(plan)
    ensures Reaches(Init(cfg, plan, now), t) && t.verdict == Some(true) && v !in t.delivered
  {
    var p0, n, p, done := Init(cfg, plan, now), |plan|, Prefix(plan), |InState(plan, Completed)|;
    CompletedCountBound(plan);
    InitReady(cfg, plan, now);
    ReachSelf(p0);
    assert p0.delivered == {} && p <= v;
    hide Ready, Took, Reaches, Init;
    var a := Feed(p0, p0, cfg, plan, p, done, v - p);
    var q := Take(p0, a, cfg, plan, v, done + (v - p));
    var r := Break(p0, a, q, cfg, plan, v, done + (v - p));
    var s := Feed(p0, r, cfg, plan, v + 1, done + (v - p), n - done - (v - p));
    t := Succeed(p0, s, cfg, plan, v + 1 + (n - done - (v - p)), n);
  }

  /** The counter reaches the total before chunk v is dispatched. */
  lemma EarlyEndLosesChunk(cfg: Config, plan: seq<Chunk>, now: nat, v: nat) returns (t: Pool)
    requires ValidConfig(cfg) && ValidPlan(plan) && !cfg.streamMode && v < |plan| && Dispatched(plan) <= v
    ensures Reaches(Init(cfg, plan, now), t) && t.verdict == Some(true) && v !in t.delivered
  {
    var p0, n, p, done := Init(cfg, plan, now), |plan|, Prefix(plan), |InState(plan, Completed)|;
    CompletedCountBound(plan);
    InitReady(cfg, plan, now);
    ReachSelf(p0);
    assert p0.delivered == {};
    hide Ready, Took, Reaches, Init;
    var s := Feed(p0, p0, cfg, plan, p, done, n - done);
    t := Succeed(p0, s, cfg, plan, p + (n - done), n);
  }

  lemma LosingRun(cfg: Config, plan: seq<Chunk>, now: nat, v: nat) returns (t: Pool)
    requires ValidConfig(cfg) && ValidPlan(plan) && !cfg.streamMode && Losable(cfg, plan, v)
    ensures Reaches(Init(cfg, plan, now), t) && t.verdict == Some(true) && v !in t.delivered
  {
    if v < Dispatched(plan) {
      t := RetryLosesChunk(cfg, plan, now, v);
    } else {
      t := EarlyEndLosesChunk(cfg, plan, now, v);
    }
  }

  lemma Counterexample(cfg: Config, plan: seq<Chunk>, now: nat, t: Pool, i: nat)
    requires ValidConfig(cfg) && Reaches(Init(cfg, plan, now), t) && t.verdict == Some(true)
    requires i < |plan| && plan[i].state != Completed && i !in t.delivered
    ensures !SuccessIsWhole(cfg, plan, now)
  {
    hide Init;
    assert !AllThere(plan, t.delivered);
  }

  /** Gaps that are not harmless make some chunk losable. */
  lemma SomeLosable(cfg: Config, plan: seq<Chunk>) returns (v: nat)
    requires ValidConfig(cfg) && !GapsHarmless(cfg, plan)
    ensures Losable(cfg, plan, v)
  {
    if cfg.maxTries >= 2 {
      v := Prefix(plan);
    } else {
      var i :| 0 <= i < |plan| && Dispatched(plan) <= i && plan[i].state != Completed;
      v := i;
    }
  }

  // ----- without retries

  /** A dispatched chunk has been attempted; after a fatal error not every worker returns nil. */
  ghost predicate Tried(p: Pool) {
    && p.hedges == 0
    && forall i :: 0 <= i < |p.sched.chunks| && p.sched.chunks[i].state in {Active, RetryWait} ==> p.sched.chunks[i].attempts >= 1
  }

  ghost predicate FatalShows(p: Pool) {
    p.sched.fatal ==> exists w: nat :: NotFine(p, w)
  }

  ghost predicate NotFine(p: Pool, w: nat) {
    w < |p.workers| && !(p.workers[w].pc == Exited && p.workers[w].ok)
  }

  lemma TriedMove(p: Pool, q: Pool, plan: seq<Chunk>, w: nat, i: nat)
    requires Tried(p) && Moves(p, q, plan, w, i) && SomeMove(p, q, w, i) && q.hedges == 0
    ensures Tried(q)
  {
  }

  lemma NoDuplicates(p: Pool, plan: seq<Chunk>, e: Event)
    requires Shape(p, plan) && !p.sched.cfg.streamMode && Enabled(p, e)
    ensures Apply(p, e).hedges == p.hedges
  {
    hide HedgeEligible, StartHedge, NextAssignment, MarkComplete, MarkFailed, OnAdmissionFailure, OnWorkerSuccess, CancelHedge;
  }

  lemma TriedStep(p: Pool, plan: seq<Chunk>, e: Event)
    requires ValidPlan(plan) && Inv(p, plan) && !p.sched.cfg.streamMode && Tried(p) && Enabled(p, e)
    ensures Tried(Apply(p, e))
  {
    NoDuplicates(p, plan, e);
    hide Apply, Enabled, Subject, Moves, Calm, Takes, Releases, Stale, ValidPlan;
    hide Shape, Order, Ownership, Tickets, Counter, FatalIsFinal, Delivery, Timing, Collected;
    if IsAmbient(e) {
      AmbientUntouched(p, e);
    } else {
      CallMoves(p, plan, e);
      TriedMove(p, Apply(p, e), plan, e.w, Subject(p, e));
    }
  }

  /** Only the answer AllDone lets a worker return nil, and it is not given after a fatal error. */
  lemma NotFineStays(p: Pool, e: Event, w: nat)
    requires NotFine(p, w) && p.sched.fatal && Enabled(p, e)
    ensures NotFine(Apply(p, e), w)
  {
    hide HedgeEligible, StartHedge, TryAssign, MarkComplete, MarkFailed, OnAdmissionFailure, OnWorkerSuccess, CancelHedge;
  }

  lemma StartHedgeNotFatal(s: Sched, i: int, now: int)
    requires 0 <= s.effectiveTarget <= |s.workers|
    ensures StartHedge(s, i, now).0.fatal == s.fatal
  {
    hide FirstFreeSlot;
  }

  lemma FatalFromFailure(p: Pool, e: Event)
    requires Enabled(p, e) && !p.sched.fatal && Apply(p, e).sched.fatal
    ensures e.CallMarkFailed? && NotFine(Apply(p, e), e.w)
  {
    hide HedgeEligible, StartHedge, NextAssignment;
    if e.CallStartHedge? { StartHedgeNotFatal(p.sched, p.workers[e.w].i, p.now); }
    if e.CallNextAssignment? { NextAssignmentEffect(p.sched, p.workers[e.w].slot, p.rootDone, p.now); }
  }

  lemma FatalShowsStep(p: Pool, e: Event)
    requires FatalShows(p) && Enabled(p, e)
    ensures FatalShows(Apply(p, e))
  {
    var q := Apply(p, e);
    if p.sched.fatal {
      var w: nat :| NotFine(p, w);
      NotFineStays(p, e, w);
    } else if q.sched.fatal {
      FatalFromFailure(p, e);
    }
  }

  /** Without retries every dispatched chunk of a successful download is complete. */
  lemma NothingWaits(p: Pool, plan: seq<Chunk>, i: nat)
    requires Inv(p, plan) && Budget(p) && Tried(p) && p.sched.cfg.maxTries == 1 && !p.sched.fatal
    requires forall w :: 0 <= w < |p.workers| ==> p.workers[w].pc == Exited
    requires i < p.sched.nextUndispatched
    ensures i < |plan| && p.sched.chunks[i].state == Completed
  {
  }

  function LaterCompleted(plan: seq<Chunk>, next: nat): set<nat> {
    set i: nat | i < |plan| && next <= i && plan[i].state == Completed
  }

  lemma CompletedInThree(plan: seq<Chunk>, next: nat)
    requires Prefix(plan) <= next <= |plan|
    ensures |InState(plan, Completed)| == Prefix(plan) + |Redispatched(plan, next)| + |LaterCompleted(plan, next)|
  {
    var front, redone, later := Below(Prefix(plan)), Redispatched(plan, next), LaterCompleted(plan, next);
    assert InState(plan, Completed) == (front + redone) + later;
    assert front * redone == {} && (front + redone) * later == {};
  }

  lemma CompletedSoFar(p: Pool, plan: seq<Chunk>)
    requires |p.sched.chunks| == |plan| && Order(p, plan) && p.sched.nextUndispatched <= |plan|
    ensures |InState(p.sched.chunks, Completed)| <= p.sched.nextUndispatched + |LaterCompleted(plan, p.sched.nextUndispatched)|
  {
    var upto, later := Below(p.sched.nextUndispatched), LaterCompleted(plan, p.sched.nextUndispatched);
    SubsetSize(InState(p.sched.chunks, Completed), upto + later);
    assert upto * later == {};
  }

  /** The counter reaches the total only when at least Dispatched(plan) chunks have been dispatched. */
  lemma DispatchedEnough(p: Pool, plan: seq<Chunk>)
    requires Shape(p, plan) && Order(p, plan) && Counter(p, plan) && p.sched.completedCount >= |plan|
    ensures Dispatched(plan) <= p.sched.nextUndispatched
  {
    hide Order, InState, Redispatched, LaterCompleted;
    CompletedInThree(plan, p.sched.nextUndispatched);
    CompletedSoFar(p, plan);
  }

  /** What is known of runs without duplicates. */
  ghost predicate Unrepeated(p: Pool, cfg: Config) {
    p.sched.cfg == cfg && Solo(p) && Budget(p) && Tried(p) && FatalShows(p)
  }

  lemma InitUnrepeated(cfg: Config, plan: seq<Chunk>, now: nat)
    requires ValidConfig(cfg) && ValidPlan(plan)
    ensures Unrepeated(Init(cfg, plan, now), cfg)
  {
    InitBudget(cfg, plan, now);
  }

  lemma StepUnrepeated(p: Pool, plan: seq<Chunk>, cfg: Config, e: Event)
    requires ValidConfig(cfg) && !cfg.streamMode && ValidPlan(plan) && Inv(p, plan) && Unrepeated(p, cfg) && Enabled(p, e)
    ensures Unrepeated(Apply(p, e), cfg)
  {
    hide Apply, Enabled, Inv, Solo, Budget, Tried, FatalShows, ValidPlan;
    StepKeeps(p, plan, e);
    StepBudget(p, plan, e);
    TriedStep(p, plan, e);
    FatalShowsStep(p, e);
  }

  lemma {:induction false} RunUnrepeated(p: Pool, plan: seq<Chunk>, cfg: Config, es: seq<Event>)
    requires ValidConfig(cfg) && !cfg.streamMode && ValidPlan(plan) && Inv(p, plan) && Unrepeated(p, cfg) && Legal(p, es)
    ensures Inv(Exec(p, es), plan) && Unrepeated(Exec(p, es), cfg)
    decreases |es|
  {
    hide Apply, Enabled, Inv, Unrepeated, ValidPlan;
    if es != [] {
      StepKeeps(p, plan, es[0]);
      StepUnrepeated(p, plan, cfg, es[0]);
      RunUnrepeated(Apply(p, es[0]), plan, cfg, es[1..]);
    }
  }

  /** Success means that every chunk is there, unless it could be lost. */
  lemma SuccessHasAll(p: Pool, cfg: Config, plan: seq<Chunk>)
    requires Inv(p, plan) && Unrepeated(p, cfg) && p.verdict == Some(true) && ValidConfig(cfg) && GapsHarmless(cfg, plan)
    ensures AllThere(plan, p.delivered)
  {
    if IsPrefix(plan) {
      CounterMeansDone(p, plan);
    } else {
      AllReturned(p);
      LateGapsFilled(p, cfg, plan);
    }
  }

  lemma AllReturned(p: Pool)
    requires Collected(p) && p.verdict == Some(true)
    ensures forall w :: 0 <= w < |p.workers| ==> p.workers[w].pc == Exited && p.workers[w].ok
  {
  }

  lemma HarmlessIsWhole(cfg: Config, plan: seq<Chunk>, now: nat, es: seq<Event>)
    requires ValidConfig(cfg) && ValidPlan(plan) && !cfg.streamMode && GapsHarmless(cfg, plan)
    requires Legal(Init(cfg, plan, now), es) && Exec(Init(cfg, plan, now), es).verdict == Some(true)
    ensures AllThere(plan, Exec(Init(cfg, plan, now), es).delivered)
  {
    InitInv(cfg, plan, now);
    InitUnrepeated(cfg, plan, now);
    RunUnrepeated(Init(cfg, plan, now), plan, cfg, es);
    hide Init, Exec, Legal, Inv;
    SuccessHasAll(Exec(Init(cfg, plan, now), es), cfg, plan);
  }

  lemma LateGapsFilled(p: Pool, cfg: Config, plan: seq<Chunk>)
    requires Inv(p, plan) && Budget(p) && Tried(p) && FatalShows(p) && p.verdict == Some(true)
    requires p.sched.cfg == cfg && cfg.maxTries == 1
    requires forall w :: 0 <= w < |p.workers| ==> p.workers[w].pc == Exited && p.workers[w].ok
    requires forall i :: 0 <= i < |plan| && Dispatched(plan) <= i ==> plan[i].state == Completed
    ensures AllThere(plan, p.delivered)
  {
    hide Budget, Tried, Dispatched;
    DispatchedEnough(p, plan);
    forall i: nat | i < |plan| ensures plan[i].state == Completed || i in p.delivered {
      if i < p.sched.nextUndispatched { NothingWaits(p, plan, i); }
    }
  }

  /** Exactly when a resumed download can be believed. Starting from any plan, every run that reports success has
      all chunks if and only if the gaps are harmless. */
  lemma ResumeExactly(cfg: Config, plan: seq<Chunk>, now: nat)
    requires ValidConfig(cfg) && ValidPlan(plan) && !cfg.streamMode
    ensures SuccessIsWhole(cfg, plan, now) <==> GapsHarmless(cfg, plan)
  {
    if GapsHarmless(cfg, plan) {
      forall es | Legal(Init(cfg, plan, now), es) && Exec(Init(cfg, plan, now), es).verdict == Some(true)
        ensures AllThere(plan, Exec(Init(cfg, plan, now), es).delivered)
      {
        HarmlessIsWhole(cfg, plan, now, es);
      }
    } else {
      var v := SomeLosable(cfg, plan);
      var t := LosingRun(cfg, plan, now, v);
      Counterexample(cfg, plan, now, t, v);
    }
  }
}
