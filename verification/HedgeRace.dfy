/** Speculative duplicates (`HedgeEligible`, `StartHedge`, `CancelHedge` in internal/schedule/scheduler.go, called in
    turn by `workerLoop`): the gap between the check and the start is the one thing that lets two of them exist. */
module HedgeRace {
  import opened Counting
  import opened Backoff
  import opened Chunks
  import opened Stats
  import opened Scheduling
  import opened WorkerPool
  import opened PoolInvariants
  import Median

  ghost predicate AtStart(p: Pool, w: nat) {
    Stands(p, w, Start)
  }

  ghost predicate InFlight(p: Pool, w: nat) {
    w < |p.workers| && Hedging(p.workers[w])
  }

  /** While a worker is about to start a duplicate, nothing else happens. */
  ghost predicate Undivided(p: Pool, e: Event) {
    forall w: nat :: AtStart(p, w) ==> e == CallStartHedge(w)
  }

  ghost predicate UndividedRun(p: Pool, es: seq<Event>)
    requires Legal(p, es)
    decreases |es|
  {
    es == [] || (Undivided(p, es[0]) && UndividedRun(Apply(p, es[0]), es[1..]))
  }

  /** Outstanding duplicates are the one the scheduler knows of, and there is one if it knows of one; a worker about to start one has been told that there
      is none and that a ticket is free. */
  ghost predicate Single(p: Pool) {
    && (forall w: nat :: InFlight(p, w) ==> p.sched.hedgeActive && p.sched.hedgedChunk == p.workers[w].i)
    && (forall w: nat, v: nat :: InFlight(p, w) && InFlight(p, v) ==> w == v)
    && (p.sched.hedgeActive ==> exists w: nat :: InFlight(p, w))
    && (forall w: nat :: AtStart(p, w) ==> !p.sched.hedgeActive && p.sched.activeCount < p.sched.effectiveTarget)
    && (forall w: nat, v: nat :: AtStart(p, w) && AtStart(p, v) ==> w == v)
  }

  /** What a call other than the three about duplicates does to them: nothing. */
  ghost predicate Indifferent(p: Pool, q: Pool) {
    && |q.workers| == |p.workers|
    && q.sched.hedgeActive == p.sched.hedgeActive && q.sched.hedgedChunk == p.sched.hedgedChunk
    && forall w: nat :: w < |p.workers| ==>
         && (InFlight(q, w) <==> InFlight(p, w)) && (InFlight(p, w) ==> q.workers[w].i == p.workers[w].i)
         && (AtStart(q, w) ==> AtStart(p, w))
  }

  lemma AskIndifferent(p: Pool, w: nat)
    requires Stands(p, w, Ask) && FlagsFit(p.workers[w])
    ensures Indifferent(p, AskStep(p, w)) && AskStep(p, w).hedges == p.hedges
  {
    hide FirstRetryable;
  }

  ghost predicate ConcernsHedges(e: Event) {
    e.CallHedgeEligible? || e.CallStartHedge? || e.CallCancelHedge?
  }

  ghost predicate SameHedge(s: Sched, t: Sched) {
    t.hedgeActive == s.hedgeActive && t.hedgedChunk == s.hedgedChunk
  }

  lemma SettlingKeepsHedge(s: Sched, i: int, retryable: bool, now: int)
    ensures SameHedge(s, MarkComplete(s, i, now)) && SameHedge(s, MarkFailed(s, i, retryable, now))
  {
    hide RetryBackoff;
  }

  lemma ReportingKeepsHedge(s: Sched, slot: int, bytes: int, d: int, now: int)
    ensures SameHedge(s, OnAdmissionFailure(s, slot, now)) && SameHedge(s, OnWorkerSuccess(s, slot, bytes, d, now))
  {
    hide RecordSuccess, RecordAdmissionFailure;
  }

  lemma OtherSched(p: Pool, e: Event)
    requires Enabled(p, e) && !ConcernsHedges(e) && !e.CallNextAssignment?
    ensures SameHedge(p.sched, Apply(p, e).sched)
  {
    hide MarkComplete, MarkFailed, OnAdmissionFailure, OnWorkerSuccess;
    match e
    case CallMarkComplete(w) => SettlingKeepsHedge(p.sched, p.workers[w].i, true, p.now);
    case CallMarkFailed(w) => SettlingKeepsHedge(p.sched, p.workers[w].i, p.workers[w].pc == Failing, p.now);
    case CallOnAdmissionFailure(w) => ReportingKeepsHedge(p.sched, p.workers[w].slot, 0, 0, p.now);
    case CallOnWorkerSuccess(w) =>
      var c := p.sched.chunks[p.workers[w].i];
      ReportingKeepsHedge(p.sched, p.workers[w].slot, c.length, p.now - c.startTime, p.now);
    case _ =>
  }

  ghost predicate WorkerSame(p: Pool, q: Pool, v: nat)
    requires v < |p.workers| == |q.workers|
  {
    && (InFlight(q, v) <==> InFlight(p, v)) && (InFlight(p, v) ==> q.workers[v].i == p.workers[v].i)
    && (AtStart(q, v) ==> AtStart(p, v))
  }

  predicate Transfers(e: Event) {
    e.CheckRoot? || e.CallReserve? || e.CallOpenRange? || e.CallReadFull? || e.CallDeliver?
  }

  lemma TransferWorker(p: Pool, e: Event, v: nat)
    requires Enabled(p, e) && Transfers(e) && v < |p.workers| && FlagsFit(p.workers[v])
    ensures |Apply(p, e).workers| == |p.workers| && WorkerSame(p, Apply(p, e), v)
  {
  }

  lemma SettleWorker(p: Pool, e: Event, v: nat)
    requires Enabled(p, e) && !ConcernsHedges(e) && !e.CallNextAssignment? && !Transfers(e)
    requires v < |p.workers| && FlagsFit(p.workers[v])
    ensures |Apply(p, e).workers| == |p.workers| && WorkerSame(p, Apply(p, e), v)
  {
    if IsAmbient(e) {
      AmbientUntouched(p, e);
    } else {
      ReportingWorker(p, e, v);
    }
  }

  /** One of the four calls that report on a chunk. */
  lemma ReportingWorker(p: Pool, e: Event, v: nat)
    requires Enabled(p, e) && (e.CallOnAdmissionFailure? || e.CallMarkFailed? || e.CallOnWorkerSuccess? || e.CallMarkComplete?)
    requires v < |p.workers| && FlagsFit(p.workers[v])
    ensures |Apply(p, e).workers| == |p.workers| && WorkerSame(p, Apply(p, e), v)
  {
    hide MarkComplete, MarkFailed, OnAdmissionFailure, OnWorkerSuccess;
  }

  lemma OtherIndifferent(p: Pool, e: Event)
    requires Enabled(p, e) && !ConcernsHedges(e)
    requires forall v :: 0 <= v < |p.workers| ==> FlagsFit(p.workers[v])
    ensures Indifferent(p, Apply(p, e))
  {
    var q := Apply(p, e);
    hide Apply, AskStep, AtStart, InFlight, FlagsFit;
    if e.CallNextAssignment? {
      AskIndifferent(p, e.w);
    } else {
      SameWorkers(p, e);
      OtherSched(p, e);
      forall v: nat | v < |p.workers|
        ensures (InFlight(q, v) <==> InFlight(p, v)) && (InFlight(p, v) ==> q.workers[v].i == p.workers[v].i) && (AtStart(q, v) ==> AtStart(p, v))
      {
        if Transfers(e) { TransferWorker(p, e, v); } else { SettleWorker(p, e, v); }
      }
    }
  }

  lemma IndifferentKeeps(p: Pool, q: Pool)
    requires Single(p) && Indifferent(p, q) && forall w: nat :: !AtStart(p, w)
    ensures Single(q)
  {
    forall w: nat ensures !AtStart(q, w) {}
  }

  lemma LookKeeps(p: Pool, w: nat, frontier: nat, reserved: int, bufferSize: int)
    requires Stands(p, w, Look) && Single(p) && forall v: nat :: !AtStart(p, v)
    ensures Single(LookStep(p, w, frontier, reserved, bufferSize))
  {
    var q := LookStep(p, w, frontier, reserved, bufferSize);
    hide LaterDone, Median.MedianOf;
    assert forall v: nat :: (InFlight(q, v) <==> InFlight(p, v)) && (InFlight(q, v) ==> v != w);
    forall v: nat ensures AtStart(q, v) ==> v == w { assert AtStart(q, v) && v != w ==> AtStart(p, v); }
  }

  lemma StartKeeps(p: Pool, plan: seq<Chunk>, w: nat)
    requires Stands(p, w, Start) && Single(p) && Shape(p, plan)
    ensures var q := StartHedgeStep(p, w);
            && Single(q) && (forall v: nat :: !AtStart(q, v))
            && (InFlight(q, w) ==> q.sched.activeCount <= q.sched.effectiveTarget)
  {
    var q := StartHedgeStep(p, w);
    hide FirstFreeSlot;
    assert AtStart(p, w);
    assert q.sched.hedgeActive ==> InFlight(q, w);
    forall v: nat ensures !AtStart(q, v) { assert AtStart(q, v) ==> AtStart(p, v) && v != w; }
    forall v: nat ensures InFlight(q, v) ==> v == w { assert InFlight(q, v) && v != w ==> InFlight(p, v); }
  }

  lemma CancelKeeps(p: Pool, w: nat)
    requires (Stands(p, w, Dropping) || Stands(p, w, Won)) && FlagsFit(p.workers[w]) && Single(p)
    requires forall v: nat :: !AtStart(p, v)
    ensures Single(CancelHedgeStep(p, w))
  {
    var q := CancelHedgeStep(p, w);
    assert InFlight(p, w);
    forall v: nat ensures !InFlight(q, v) { assert InFlight(q, v) ==> InFlight(p, v) && v != w; }
    forall v: nat ensures !AtStart(q, v) { assert AtStart(q, v) ==> AtStart(p, v) && v != w; }
  }

  lemma OtherKeeps(p: Pool, e: Event)
    requires Enabled(p, e) && !ConcernsHedges(e) && Single(p) && forall v: nat :: !AtStart(p, v)
    requires forall v :: 0 <= v < |p.workers| ==> FlagsFit(p.workers[v])
    ensures Single(Apply(p, e))
  {
    OtherIndifferent(p, e);
    hide *;
    IndifferentKeeps(p, Apply(p, e));
  }

  lemma StepKeepsSingle(p: Pool, plan: seq<Chunk>, e: Event)
    requires Shape(p, plan) && Single(p) && Enabled(p, e) && Undivided(p, e)
    ensures Single(Apply(p, e))
  {
    if e.CallStartHedge? {
      StartKeeps(p, plan, e.w);
    } else {
      FlagsOf(p, plan);
      NobodyElseAtStart(p, e);
      hide Single, Shape, LookStep, CancelHedgeStep;
      if e.CallHedgeEligible? {
        LookKeeps(p, e.w, e.frontier, e.reserved, e.bufferSize);
      } else if e.CallCancelHedge? {
        CancelKeeps(p, e.w);
      } else {
        OtherKeeps(p, e);
      }
    }
  }

  lemma FlagsOf(p: Pool, plan: seq<Chunk>)
    requires Shape(p, plan)
    ensures forall v :: 0 <= v < |p.workers| ==> FlagsFit(p.workers[v])
  {
  }

  lemma NobodyElseAtStart(p: Pool, e: Event)
    requires Undivided(p, e) && !e.CallStartHedge?
    ensures forall v: nat :: !AtStart(p, v)
  {
  }

  lemma {:induction false} RunKeepsSingle(p: Pool, plan: seq<Chunk>, es: seq<Event>)
    requires ValidPlan(plan) && Inv(p, plan) && Single(p) && Legal(p, es) && UndividedRun(p, es)
    ensures Single(Exec(p, es))
    decreases |es|
  {
    ShapeOf(p, plan);
    hide Inv, Shape, Apply, Enabled, ValidPlan, Single, Undivided;
    if es != [] {
      StepKeeps(p, plan, es[0]);
      StepKeepsSingle(p, plan, es[0]);
      RunKeepsSingle(Apply(p, es[0]), plan, es[1..]);
    }
  }

  lemma ShapeOf(p: Pool, plan: seq<Chunk>)
    requires Inv(p, plan)
    ensures Shape(p, plan)
  {
  }

  /** If the check and the start were one critical section, at most one duplicate would exist in every reachable state,
      the scheduler would believe in one exactly while there is one, and it would be started only on a free ticket of the
      effective target. */
  lemma UndividedMeansSingle(cfg: Config, plan: seq<Chunk>, now: nat, es: seq<Event>)
    requires ValidConfig(cfg) && ValidPlan(plan)
    requires Legal(Init(cfg, plan, now), es) && UndividedRun(Init(cfg, plan, now), es)
    ensures var p := Exec(Init(cfg, plan, now), es);
            && |HedgeTickets(p.workers)| <= 1
            && (p.sched.hedgeActive <==> HedgeTickets(p.workers) != {})
            && (forall w: nat :: Enabled(p, CallStartHedge(w)) && InFlight(StartHedgeStep(p, w), w) ==>
                  StartHedgeStep(p, w).sched.activeCount <= StartHedgeStep(p, w).sched.effectiveTarget)
  {
    var p0, p := Init(cfg, plan, now), Exec(Init(cfg, plan, now), es);
    InitInv(cfg, plan, now);
    assert Single(p0);
    RunKeepsSingle(p0, plan, es);
    RunKeeps(p0, plan, es);
    hide Init, Exec, Legal;
    forall w: nat | Enabled(p, CallStartHedge(w)) && InFlight(StartHedgeStep(p, w), w)
      ensures StartHedgeStep(p, w).sched.activeCount <= StartHedgeStep(p, w).sched.effectiveTarget
    {
      StartKeeps(p, plan, w);
    }
    OneTicket(p);
  }

  lemma OneTicket(p: Pool)
    requires Single(p)
    ensures |HedgeTickets(p.workers)| <= 1
    ensures p.sched.hedgeActive <==> HedgeTickets(p.workers) != {}
  {
    var tickets := HedgeTickets(p.workers);
    if p.sched.hedgeActive {
      var w: nat :| InFlight(p, w);
      assert w in tickets;
    }
    if tickets != {} {
      var w :| w in tickets;
      assert InFlight(p, w) && forall v :: v in tickets ==> InFlight(p, v);
      SubsetSize(tickets, {w});
    }
  }

  // ----- any run

  /** The duplicate the scheduler believes in exists. */
  ghost predicate Backed(p: Pool) {
    p.sched.hedgeActive ==> exists w: nat :: InFlight(p, w) && p.workers[w].i == p.sched.hedgedChunk
  }

  lemma IndifferentBacked(p: Pool, q: Pool)
    requires Backed(p) && Indifferent(p, q)
    ensures Backed(q)
  {
    if q.sched.hedgeActive {
      var w: nat :| InFlight(p, w) && p.workers[w].i == p.sched.hedgedChunk;
      assert InFlight(q, w) && q.workers[w].i == q.sched.hedgedChunk;
    }
  }

  lemma LookBacked(p: Pool, w: nat, frontier: nat, reserved: int, bufferSize: int)
    requires Stands(p, w, Look) && Backed(p)
    ensures Backed(LookStep(p, w, frontier, reserved, bufferSize))
  {
    var q := LookStep(p, w, frontier, reserved, bufferSize);
    hide HedgeEligible;
    if q.sched.hedgeActive {
      var v: nat :| InFlight(p, v) && p.workers[v].i == p.sched.hedgedChunk;
      assert v != w && InFlight(q, v);
    }
  }

  lemma StartBacked(p: Pool, plan: seq<Chunk>, w: nat)
    requires Stands(p, w, Start) && Shape(p, plan)
    ensures Backed(StartHedgeStep(p, w))
  {
    var q := StartHedgeStep(p, w);
    hide FirstFreeSlot;
    assert q.sched.hedgeActive ==> InFlight(q, w);
  }

  lemma CancelBacked(p: Pool, w: nat)
    requires (Stands(p, w, Dropping) || Stands(p, w, Won)) && FlagsFit(p.workers[w]) && Backed(p)
    ensures Backed(CancelHedgeStep(p, w))
  {
    var q := CancelHedgeStep(p, w);
    if q.sched.hedgeActive {
      var v: nat :| InFlight(p, v) && p.workers[v].i == p.sched.hedgedChunk;
      assert v != w && InFlight(q, v);
    }
  }

  lemma StepKeepsBacked(p: Pool, plan: seq<Chunk>, e: Event)
    requires Shape(p, plan) && Backed(p) && Enabled(p, e)
    ensures Backed(Apply(p, e))
  {
    FlagsOf(p, plan);
    if e.CallHedgeEligible? {
      LookBacked(p, e.w, e.frontier, e.reserved, e.bufferSize);
    } else if e.CallStartHedge? {
      StartBacked(p, plan, e.w);
    } else if e.CallCancelHedge? {
      CancelBacked(p, e.w);
    } else {
      OtherIndifferent(p, e);
      hide *;
      IndifferentBacked(p, Apply(p, e));
    }
  }

  lemma {:induction false} RunKeepsBacked(p: Pool, plan: seq<Chunk>, es: seq<Event>)
    requires ValidPlan(plan) && Inv(p, plan) && Backed(p) && Legal(p, es)
    ensures Backed(Exec(p, es))
    decreases |es|
  {
    ShapeOf(p, plan);
    hide Inv, Shape, Apply, Enabled, ValidPlan, Backed;
    if es != [] {
      StepKeeps(p, plan, es[0]);
      StepKeepsBacked(p, plan, es[0]);
      RunKeepsBacked(Apply(p, es[0]), plan, es[1..]);
    }
  }

  /** The permission to start a duplicate is always given back: in every reachable state, however the checks and starts
      interleave, the scheduler believes in a duplicate only while a worker has one of that very chunk under way. */
  lemma FlagBacked(cfg: Config, plan: seq<Chunk>, now: nat, es: seq<Event>)
    requires ValidConfig(cfg) && ValidPlan(plan) && Legal(Init(cfg, plan, now), es)
    ensures var p := Exec(Init(cfg, plan, now), es);
            && (p.sched.hedgeActive ==> exists w: nat :: w in HedgeTickets(p.workers) && p.workers[w].i == p.sched.hedgedChunk)
            && (HedgeTickets(p.workers) == {} ==> !p.sched.hedgeActive)
  {
    var p := Exec(Init(cfg, plan, now), es);
    InitInv(cfg, plan, now);
    assert Backed(Init(cfg, plan, now));
    RunKeepsBacked(Init(cfg, plan, now), plan, es);
    hide Init, Exec, Legal;
    if p.sched.hedgeActive {
      var w: nat :| InFlight(p, w) && p.workers[w].i == p.sched.hedgedChunk;
      assert w in HedgeTickets(p.workers);
    }
  }
}
