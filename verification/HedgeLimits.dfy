/** Settings under which the scheduler never has two speculative duplicates, whatever the sink reports: at most two
    connections, or at most four chunks (`HedgeEligible`, `StartHedge` in internal/schedule/scheduler.go). */
module HedgeLimits {
  import opened Counting
  import opened Chunks
  import opened Scheduling
  import opened WorkerPool
  import opened PoolInvariants
  import opened PoolTheorems
  import opened HedgeRace
  import Backoff
  import Stats

  // ----- two workers

  ghost predicate Busy(p: Pool, w: nat) {
    AtStart(p, w) || InFlight(p, w)
  }

  /** At most one worker is concerned with a duplicate, and the scheduler knows of the one that is out. */
  ghost predicate Pair(p: Pool) {
    && (forall w: nat :: InFlight(p, w) ==> p.sched.hedgeActive && p.sched.hedgedChunk == p.workers[w].i)
    && (forall w: nat, v: nat :: Busy(p, w) && Busy(p, v) ==> w == v)
  }

  lemma IndifferentKeepsPair(p: Pool, q: Pool)
    requires Pair(p) && Indifferent(p, q)
    ensures Pair(q)
  {
    forall w: nat | Busy(q, w) ensures Busy(p, w) {}
  }

  /** The worker that passes the check is not the one that holds the frontier chunk; with two workers, that one is the
      only other. */
  lemma LookKeepsPair(p: Pool, w: nat, frontier: nat, reserved: int, bufferSize: int)
    requires Stands(p, w, Look) && Pair(p) && Ownership(p) && |p.workers| <= 2
    ensures Pair(LookStep(p, w, frontier, reserved, bufferSize))
  {
    var q := LookStep(p, w, frontier, reserved, bufferSize);
    hide HedgeEligible;
    forall v: nat | v != w ensures InFlight(q, v) == InFlight(p, v) && AtStart(q, v) == AtStart(p, v) {}
    if AtStart(q, w) {
      var h: nat :| Holds(p, h, frontier);
      assert !Busy(p, h) && h != w;
      forall v: nat ensures Busy(q, v) ==> v == w { assert v < |p.workers| ==> v == w || v == h; }
    } else {
      forall v: nat | Busy(q, v) ensures Busy(p, v) {}
    }
  }

  lemma StartKeepsPair(p: Pool, plan: seq<Chunk>, w: nat)
    requires Stands(p, w, Start) && Pair(p) && Shape(p, plan)
    ensures Pair(StartHedgeStep(p, w))
  {
    var q := StartHedgeStep(p, w);
    hide FirstFreeSlot;
    assert Busy(p, w);
    forall v: nat | Busy(q, v) ensures v == w { assert v != w ==> Busy(p, v); }
    forall v: nat | InFlight(q, v) ensures v == w { assert Busy(q, v); }
  }

  lemma CancelKeepsPair(p: Pool, w: nat)
    requires (Stands(p, w, Dropping) || Stands(p, w, Won)) && FlagsFit(p.workers[w]) && Pair(p)
    ensures Pair(CancelHedgeStep(p, w))
  {
    var q := CancelHedgeStep(p, w);
    assert Busy(p, w);
    forall v: nat ensures !Busy(q, v) { assert Busy(q, v) ==> Busy(p, v) && v != w; }
    forall v: nat ensures !InFlight(q, v) { assert InFlight(q, v) ==> Busy(q, v); }
  }

  lemma StepKeepsPair(p: Pool, plan: seq<Chunk>, e: Event)
    requires Shape(p, plan) && Ownership(p) && Pair(p) && |p.workers| <= 2 && Enabled(p, e)
    ensures Pair(Apply(p, e))
  {
    FlagsOf(p, plan);
    hide Pair, Ownership, LookStep, CancelHedgeStep, StartHedgeStep;
    if e.CallStartHedge? {
      StartKeepsPair(p, plan, e.w);
    } else if e.CallHedgeEligible? {
      LookKeepsPair(p, e.w, e.frontier, e.reserved, e.bufferSize);
    } else if e.CallCancelHedge? {
      CancelKeepsPair(p, e.w);
    } else {
      OtherIndifferent(p, e);
      IndifferentKeepsPair(p, Apply(p, e));
    }
  }

  lemma {:induction false} RunKeepsPair(p: Pool, plan: seq<Chunk>, es: seq<Event>)
    requires ValidPlan(plan) && Inv(p, plan) && Pair(p) && p.sched.cfg.connections <= 2 && Legal(p, es)
    ensures Pair(Exec(p, es))
    decreases |es|
  {
    InvParts(p, plan);
    hide Inv, Shape, Ownership, Apply, Enabled, ValidPlan, Pair;
    if es != [] {
      StepKeeps(p, plan, es[0]);
      StepKeepsPair(p, plan, es[0]);
      RunKeepsPair(Apply(p, es[0]), plan, es[1..]);
    }
  }

  lemma InvParts(p: Pool, plan: seq<Chunk>)
    requires Inv(p, plan)
    ensures Shape(p, plan) && Ownership(p) && Order(p, plan) && Counter(p, plan)
    ensures |p.workers| == p.sched.cfg.connections && |p.sched.chunks| == |plan|
  {
  }

  lemma PairIsOne(p: Pool)
    requires Pair(p)
    ensures |HedgeTickets(p.workers)| <= 1
  {
    var tickets := HedgeTickets(p.workers);
    if tickets != {} {
      var w :| w in tickets;
      assert Busy(p, w) && forall v :: v in tickets ==> Busy(p, v);
      SubsetSize(tickets, {w});
    }
  }

  /** With two connections at most one duplicate is ever out. */
  lemma TwoWorkers(cfg: Config, plan: seq<Chunk>, now: nat, es: seq<Event>)
    requires ValidConfig(cfg) && ValidPlan(plan) && cfg.connections <= 2 && Legal(Init(cfg, plan, now), es)
    ensures |HedgeTickets(Exec(Init(cfg, plan, now), es).workers)| <= 1
  {
    InitInv(cfg, plan, now);
    assert Pair(Init(cfg, plan, now));
    RunKeepsPair(Init(cfg, plan, now), plan, es);
    PairIsOne(Exec(Init(cfg, plan, now), es));
  }

  // ----- one worker

  ghost predicate NoneYet(p: Pool) {
    p.hedges == 0 && forall w: nat :: !AtStart(p, w)
  }

  /** An active frontier chunk has a holder, who is not asking. */
  lemma AloneNotOffered(p: Pool, w: nat, frontier: nat, reserved: int, bufferSize: int)
    requires Stands(p, w, Look) && Ownership(p) && |p.workers| <= 1
    ensures HedgeEligible(p.sched, frontier, reserved, bufferSize, p.now) == -1
  {
    NobodyHolds(p, w, frontier);
    hide HedgeEligible;
  }

  lemma NobodyHolds(p: Pool, w: nat, i: nat)
    requires Stands(p, w, Look) && |p.workers| <= 1
    ensures forall h: nat :: !Holds(p, h, i)
  {
    forall h: nat ensures !Holds(p, h, i) { assert h < |p.workers| ==> h == w; }
  }

  lemma StepKeepsNoneYet(p: Pool, plan: seq<Chunk>, e: Event)
    requires Inv(p, plan) && NoneYet(p) && Enabled(p, e)
    requires e.CallHedgeEligible? ==> HedgeEligible(p.sched, e.frontier, e.reserved, e.bufferSize, p.now) == -1
    ensures NoneYet(Apply(p, e))
  {
    if e.CallStartHedge? {
      StarterStands(p, e);
    } else {
      InvParts(p, plan);
      CallRecords(p, e);
      hide Inv, Shape, Apply, AtStart, LookStep, HedgeEligible;
      if e.CallHedgeEligible? {
        LookAway(p, e.w, e.frontier, e.reserved, e.bufferSize);
        LookIs(p, e);
      } else {
        StartFromLook(p, plan, e);
      }
    }
  }

  lemma {:induction false} RunAlone(p: Pool, plan: seq<Chunk>, es: seq<Event>)
    requires ValidPlan(plan) && Inv(p, plan) && p.sched.cfg.connections <= 1 && NoneYet(p) && Legal(p, es)
    ensures NoneYet(Exec(p, es))
    decreases |es|
  {
    InvParts(p, plan);
    if es != [] {
      if es[0].CallHedgeEligible? {
        LookIs(p, es[0]);
        AloneNotOffered(p, es[0].w, es[0].frontier, es[0].reserved, es[0].bufferSize);
      }
      StepKeeps(p, plan, es[0]);
      hide Inv, Shape, Ownership, Apply, Enabled, ValidPlan, NoneYet, HedgeEligible;
      StepKeepsNoneYet(p, plan, es[0]);
      RunAlone(Apply(p, es[0]), plan, es[1..]);
    }
  }

  /** With one connection no duplicate is ever started. */
  lemma OneWorker(cfg: Config, plan: seq<Chunk>, now: nat, es: seq<Event>)
    requires ValidConfig(cfg) && ValidPlan(plan) && cfg.connections <= 1 && Legal(Init(cfg, plan, now), es)
    ensures Exec(Init(cfg, plan, now), es).hedges == 0
  {
    InitInv(cfg, plan, now);
    assert NoneYet(Init(cfg, plan, now));
    RunAlone(Init(cfg, plan, now), plan, es);
  }

  // ----- four chunks

  /** Every recorded duration belongs to a completed chunk; no duplicate has been started or is about to be. */
  ghost predicate NoneBegun(p: Pool) {
    |p.sched.recent| <= p.sched.completedCount && p.hedges == 0 && forall w: nat :: !AtStart(p, w)
  }

  lemma FewNotOffered(p: Pool, plan: seq<Chunk>, frontier: nat, reserved: int, bufferSize: int)
    requires |p.sched.chunks| == |plan| <= 4 && IsPrefix(plan) && Counter(p, plan) && |p.sched.recent| <= p.sched.completedCount
    ensures HedgeEligible(p.sched, frontier, reserved, bufferSize, p.now) == -1
  {
    assert Redispatched(plan, p.sched.nextUndispatched) == {};
    InStateBounded(p.sched.chunks, Completed);
    if frontier < |p.sched.chunks| && p.sched.chunks[frontier].state == Active {
      assert |InState(p.sched.chunks, Completed)| < |p.sched.chunks|;
    }
  }

  /** Without a start the number of duplicates stays, and only a completion records a duration. */
  lemma SettlingRecords(s: Sched, i: int, retryable: bool, now: int)
    ensures |MarkComplete(s, i, now).recent| - MarkComplete(s, i, now).completedCount <= |s.recent| - s.completedCount
    ensures MarkFailed(s, i, retryable, now).recent == s.recent && MarkFailed(s, i, retryable, now).completedCount == s.completedCount
  {
    hide Backoff.RetryBackoff;
  }

  lemma OtherRecords(s: Sched, slot: int, bytes: int, d: int, done: bool, now: int)
    ensures OnAdmissionFailure(s, slot, now).recent == s.recent && OnWorkerSuccess(s, slot, bytes, d, now).recent == s.recent
    ensures OnAdmissionFailure(s, slot, now).completedCount == s.completedCount
    ensures OnWorkerSuccess(s, slot, bytes, d, now).completedCount == s.completedCount
    ensures NextAssignment(s, slot, done, now).0.recent == s.recent
    ensures NextAssignment(s, slot, done, now).0.completedCount == s.completedCount
  {
    hide Stats.RecordSuccess, Stats.RecordAdmissionFailure, FirstRetryable;
  }

  lemma CallRecords(p: Pool, e: Event)
    requires Enabled(p, e) && !e.CallStartHedge?
    ensures var q := Apply(p, e);
            q.hedges == p.hedges && |q.sched.recent| - q.sched.completedCount <= |p.sched.recent| - p.sched.completedCount
  {
    hide HedgeEligible, NextAssignment, MarkComplete, MarkFailed, OnAdmissionFailure, OnWorkerSuccess;
    match e
    case CallMarkComplete(w) => SettlingRecords(p.sched, p.workers[w].i, true, p.now);
    case CallMarkFailed(w) => SettlingRecords(p.sched, p.workers[w].i, p.workers[w].pc == Failing, p.now);
    case CallOnAdmissionFailure(w) => OtherRecords(p.sched, p.workers[w].slot, 0, 0, true, p.now);
    case CallNextAssignment(w) => OtherRecords(p.sched, p.workers[w].slot, 0, 0, p.rootDone, p.now);
    case CallOnWorkerSuccess(w) =>
      var c := p.sched.chunks[p.workers[w].i];
      OtherRecords(p.sched, p.workers[w].slot, c.length, p.now - c.startTime, true, p.now);
    case _ =>
  }

  /** A worker comes to start a duplicate only from the check. */
  lemma StartFromLook(p: Pool, plan: seq<Chunk>, e: Event)
    requires Shape(p, plan) && Enabled(p, e) && !e.CallHedgeEligible? && !e.CallStartHedge?
    requires forall w: nat :: !AtStart(p, w)
    ensures forall w: nat :: !AtStart(Apply(p, e), w)
  {
    FlagsOf(p, plan);
    if e.CallCancelHedge? {
      forall v: nat ensures !AtStart(Apply(p, e), v) { assert AtStart(Apply(p, e), v) ==> AtStart(p, v); }
    } else {
      OtherIndifferent(p, e);
      hide AtStart;
      forall v: nat ensures !AtStart(Apply(p, e), v) { NotBeyond(Apply(p, e), v); assert v < |p.workers| ==> !AtStart(Apply(p, e), v); }
    }
  }

  lemma NotBeyond(p: Pool, v: nat)
    ensures v >= |p.workers| ==> !AtStart(p, v)
  {
  }

  lemma LookAway(p: Pool, w: nat, frontier: nat, reserved: int, bufferSize: int)
    requires Stands(p, w, Look) && HedgeEligible(p.sched, frontier, reserved, bufferSize, p.now) == -1
    requires forall v: nat :: !AtStart(p, v)
    ensures forall v: nat :: !AtStart(LookStep(p, w, frontier, reserved, bufferSize), v)
  {
    hide HedgeEligible;
    var q := LookStep(p, w, frontier, reserved, bufferSize);
    forall v: nat ensures !AtStart(q, v) { assert AtStart(q, v) ==> AtStart(p, v); }
  }

  lemma StarterStands(p: Pool, e: Event)
    requires Enabled(p, e) && e.CallStartHedge?
    ensures AtStart(p, e.w)
  {
  }

  lemma StepKeepsNone(p: Pool, plan: seq<Chunk>, e: Event)
    requires Inv(p, plan) && IsPrefix(plan) && |plan| <= 4 && NoneBegun(p) && Enabled(p, e)
    ensures NoneBegun(Apply(p, e))
  {
    InvParts(p, plan);
    if e.CallHedgeEligible? { FewNotOffered(p, plan, e.frontier, e.reserved, e.bufferSize); }
    hide Inv, Apply, AtStart, HedgeEligible, Enabled;
    if !e.CallStartHedge? { CallRecords(p, e); }
    StepKeepsNoneYet(p, plan, e);
    if e.CallStartHedge? { StarterStands(p, e); }
  }

  lemma LookIs(p: Pool, e: Event)
    requires e.CallHedgeEligible? && Enabled(p, e)
    ensures Stands(p, e.w, Look) && Apply(p, e) == LookStep(p, e.w, e.frontier, e.reserved, e.bufferSize)
  {
  }

  lemma {:induction false} RunKeepsNone(p: Pool, plan: seq<Chunk>, es: seq<Event>)
    requires ValidPlan(plan) && Inv(p, plan) && IsPrefix(plan) && |plan| <= 4 && NoneBegun(p) && Legal(p, es)
    ensures NoneBegun(Exec(p, es))
    decreases |es|
  {
    hide Inv, Apply, Enabled, ValidPlan, NoneBegun;
    if es != [] {
      StepKeeps(p, plan, es[0]);
      StepKeepsNone(p, plan, es[0]);
      RunKeepsNone(Apply(p, es[0]), plan, es[1..]);
    }
  }

  /** With at most four chunks no duplicate is ever started. */
  lemma FourChunks(cfg: Config, plan: seq<Chunk>, now: nat, es: seq<Event>)
    requires ValidConfig(cfg) && ValidPlan(plan) && IsPrefix(plan) && |plan| <= 4 && Legal(Init(cfg, plan, now), es)
    ensures Exec(Init(cfg, plan, now), es).hedges == 0
  {
    InitInv(cfg, plan, now);
    assert NoneBegun(Init(cfg, plan, now));
    RunKeepsNone(Init(cfg, plan, now), plan, es);
  }
}
