/** What the invariants mean for a caller of `runWorkers`. */
module PoolTheorems {
  import opened Basics
  import opened Counting
  import opened Chunks
  import opened Scheduling
  import opened WorkerPool
  import opened PoolInvariants
  import Median

  lemma RunInvariant(cfg: Config, plan: seq<Chunk>, now: nat, es: seq<Event>)
    requires ValidConfig(cfg) && ValidPlan(plan) && Legal(Init(cfg, plan, now), es)
    ensures Inv(Exec(Init(cfg, plan, now), es), plan) && Exec(Init(cfg, plan, now), es).sched.cfg == cfg
  {
    InitInv(cfg, plan, now);
    RunKeeps(Init(cfg, plan, now), plan, es);
  }

  /** The conditions under which a call is defined always hold when a worker is about to make it. */
  lemma CallsDefined(cfg: Config, plan: seq<Chunk>, now: nat, es: seq<Event>, w: nat)
    requires ValidConfig(cfg) && ValidPlan(plan) && Legal(Init(cfg, plan, now), es)
    ensures var p := Exec(Init(cfg, plan, now), es);
            && (Stands(p, w, Start) ==> Enabled(p, CallStartHedge(w)))
            && (Stands(p, w, Reporting) ==> Enabled(p, CallOnWorkerSuccess(w)))
  {
    RunInvariant(cfg, plan, now, es);
  }

  // ----- tickets

  ghost function Holder(p: Pool, i: nat): (w: nat)
    requires Ownership(p) && i in InState(p.sched.chunks, Active)
    ensures Holds(p, w, i)
  {
    var w: nat :| Holds(p, w, i); w
  }

  lemma TicketsFit(p: Pool)
    requires Ownership(p)
    ensures |InState(p.sched.chunks, Active)| + |HedgeTickets(p.workers)| <= |p.workers|
  {
    var active, hedging, all := InState(p.sched.chunks, Active), HedgeTickets(p.workers), Below(|p.workers|);
    var holder := map i | i in active :: Holder(p, i);
    assert forall i :: i in active ==> Holds(p, holder[i], i);
    InjectionSize(active, all - hedging, holder);
    assert (all - hedging) + hedging == all;
  }

  lemma SoleHolder(p: Pool, i: nat)
    requires Ownership(p) && i in InState(p.sched.chunks, Active)
    ensures exists w: nat :: Holds(p, w, i) && forall v: nat :: Holds(p, v, i) ==> v == w
  {
    assert Holds(p, Holder(p, i), i);
  }

  /** In every reachable state activeCount is the number of active chunks plus the duplicates not yet cancelled;
      each belongs to a different worker, so it lies between 0 and the number of connections. */
  lemma TicketsBounded(cfg: Config, plan: seq<Chunk>, now: nat, es: seq<Event>)
    requires ValidConfig(cfg) && ValidPlan(plan) && Legal(Init(cfg, plan, now), es)
    ensures var p := Exec(Init(cfg, plan, now), es);
            && p.sched.activeCount == |InState(p.sched.chunks, Active)| + |HedgeTickets(p.workers)|
            && 0 <= p.sched.activeCount <= cfg.connections
            && (forall i: nat :: i in InState(p.sched.chunks, Active) ==>
                  exists w: nat :: Holds(p, w, i) && forall v: nat :: Holds(p, v, i) ==> v == w)
  {
    var p := Exec(Init(cfg, plan, now), es);
    RunInvariant(cfg, plan, now, es);
    hide Exec, Legal, Init, Ownership;
    TicketsFit(p);
    forall i: nat | i in InState(p.sched.chunks, Active)
      ensures exists w: nat :: Holds(p, w, i) && forall v: nat :: Holds(p, v, i) ==> v == w
    {
      SoleHolder(p, i);
    }
  }

  // ----- completion

  /** The chunks complete at the start form a prefix: there is no gap before any of them. */
  ghost predicate IsPrefix(plan: seq<Chunk>) {
    forall i :: Prefix(plan) <= i < |plan| ==> plan[i].state != Completed
  }

  /** The counter is exact when the initially complete chunks form a prefix; otherwise it runs ahead by the number
      of chunks dispatched a second time. Success therefore leaves at most that many chunks untransferred. */
  lemma CompletionCounter(cfg: Config, plan: seq<Chunk>, now: nat, es: seq<Event>)
    requires ValidConfig(cfg) && ValidPlan(plan) && Legal(Init(cfg, plan, now), es)
    ensures var p := Exec(Init(cfg, plan, now), es);
            && p.sched.completedCount ==
                 |InState(p.sched.chunks, Completed)| + |Redispatched(plan, p.sched.nextUndispatched)|
            && (IsPrefix(plan) ==> p.sched.completedCount == |InState(p.sched.chunks, Completed)| <= |plan|)
            && (p.sched.completedCount >= |plan| ==>
                  |InState(p.sched.chunks, Completed)| + |Redispatched(plan, |plan|)| >= |plan|)
  {
    var p := Exec(Init(cfg, plan, now), es);
    RunInvariant(cfg, plan, now, es);
    InStateBounded(p.sched.chunks, Completed);
    SubsetSize(Redispatched(plan, p.sched.nextUndispatched), Redispatched(plan, |plan|));
    if IsPrefix(plan) {
      assert Redispatched(plan, p.sched.nextUndispatched) == {};
    }
  }

  /** With a completed prefix (in particular on a fresh start), a state in which the counter has reached the number
      of chunks has every chunk complete, and each was complete at the start or accepted by the sink. */
  lemma CounterMeansDone(p: Pool, plan: seq<Chunk>)
    requires Inv(p, plan) && IsPrefix(plan) && p.sched.completedCount >= |plan|
    ensures forall i :: 0 <= i < |plan| ==> p.sched.chunks[i].state == Completed
    ensures forall i: nat :: i < |plan| ==> plan[i].state == Completed || i in p.delivered
  {
    assert Redispatched(plan, p.sched.nextUndispatched) == {};
    InStateBounded(p.sched.chunks, Completed);
    forall i: nat | i < |plan| ensures plan[i].state == Completed || i in p.delivered {
      assert p.sched.chunks[i].state == Completed;
    }
  }

  /** Completed is absorbing when the initially complete chunks form a prefix. */
  lemma CompletedStays(p: Pool, plan: seq<Chunk>, e: Event, i: nat)
    requires ValidPlan(plan) && IsPrefix(plan) && Inv(p, plan) && Enabled(p, e)
    requires i < |plan| && p.sched.chunks[i].state == Completed
    ensures |Apply(p, e).sched.chunks| == |plan| && Apply(p, e).sched.chunks[i].state == Completed
  {
    if IsAmbient(e) {
      AmbientUntouched(p, e);
    } else {
      CallMoves(p, plan, e);
      MovedState(p, Apply(p, e), plan, e.w, Subject(p, e), i);
    }
  }

  lemma MovedState(p: Pool, q: Pool, plan: seq<Chunk>, w: nat, j: nat, i: nat)
    requires ValidPlan(plan) && IsPrefix(plan) && Shape(p, plan) && Order(p, plan)
    requires SomeMove(p, q, w, j) && i < |plan| && p.sched.chunks[i].state == Completed
    ensures |q.sched.chunks| == |plan| && q.sched.chunks[i].state == Completed
  {
  }

  /** If `runWorkers` reports success, every worker returned nil; and from a completed prefix every chunk was
      complete at the start or accepted by the sink. */
  lemma SuccessMeansDelivered(cfg: Config, plan: seq<Chunk>, now: nat, es: seq<Event>)
    requires ValidConfig(cfg) && ValidPlan(plan) && Legal(Init(cfg, plan, now), es)
    requires Exec(Init(cfg, plan, now), es).verdict == Some(true)
    ensures var p := Exec(Init(cfg, plan, now), es);
            && (forall w :: 0 <= w < |p.workers| ==> p.workers[w].pc == Exited && p.workers[w].ok)
            && (IsPrefix(plan) ==> forall i: nat :: i < |plan| ==> plan[i].state == Completed || i in p.delivered)
  {
    var p := Exec(Init(cfg, plan, now), es);
    RunInvariant(cfg, plan, now, es);
    if IsPrefix(plan) { CounterMeansDone(p, plan); }
  }

  // ----- progress

  /** No stall. Whenever nothing is under way, nothing was fatal and chunks are missing, then from 30 s after the
      last failure every worker that asks is given a chunk. */
  lemma NoStall(cfg: Config, plan: seq<Chunk>, now: nat, es: seq<Event>, slot: int)
    requires ValidConfig(cfg) && ValidPlan(plan) && Legal(Init(cfg, plan, now), es)
    requires var p := Exec(Init(cfg, plan, now), es);
             && !p.sched.fatal && !p.sched.cancelled && !p.rootDone
             && p.sched.completedCount < |plan| && p.sched.activeCount == 0
             && p.lastFailure + COOLDOWN <= p.now
    ensures var p := Exec(Init(cfg, plan, now), es);
            && TryAssign(p.sched, slot, p.now).1.Some?
            && NextAssignment(p.sched, slot, p.rootDone, p.now).1.Assigned?
  {
    var p := Exec(Init(cfg, plan, now), es);
    RunInvariant(cfg, plan, now, es);
    SomethingLeft(p, plan);
    SomethingIsGiven(p, slot);
  }

  lemma AllCompleted(chunks: seq<Chunk>)
    requires forall i :: 0 <= i < |chunks| ==> chunks[i].state == Completed
    ensures |InState(chunks, Completed)| == |chunks|
  {
    assert InState(chunks, Completed) == Below(|chunks|);
  }

  /** A chunk is missing and none is active, so one waits for its retry or was never dispatched. */
  lemma SomethingLeft(p: Pool, plan: seq<Chunk>)
    requires Inv(p, plan) && !p.sched.fatal && p.sched.completedCount < |plan| && p.sched.activeCount == 0
    ensures p.sched.nextUndispatched < |plan| || exists i :: 0 <= i < |plan| && p.sched.chunks[i].state == RetryWait
  {
    if forall i :: 0 <= i < |p.sched.chunks| ==> p.sched.chunks[i].state == Completed {
      AllCompleted(p.sched.chunks);
    } else {
      var i :| 0 <= i < |plan| && p.sched.chunks[i].state != Completed;
      assert InState(p.sched.chunks, Active) == {};
      assert i !in InState(p.sched.chunks, Active);
      assert i < p.sched.nextUndispatched ==> p.sched.chunks[i].state == RetryWait;
    }
  }

  lemma SomethingIsGiven(p: Pool, slot: int)
    requires Timing(p) && !p.sched.fatal && !p.sched.cancelled && !p.rootDone
    requires p.sched.effectiveTarget >= 1 && p.sched.activeCount == 0
    requires p.sched.completedCount < |p.sched.chunks| && p.lastFailure + COOLDOWN <= p.now
    requires p.sched.nextUndispatched < |p.sched.chunks| ||
             exists i :: 0 <= i < |p.sched.chunks| && p.sched.chunks[i].state == RetryWait
    ensures TryAssign(p.sched, slot, p.now).1.Some?
    ensures NextAssignment(p.sched, slot, p.rootDone, p.now).1.Assigned?
  {
    if p.sched.nextUndispatched >= |p.sched.chunks| {
      var i :| 0 <= i < |p.sched.chunks| && p.sched.chunks[i].state == RetryWait;
      assert Retryable(p.sched.chunks[i], p.now);
    }
  }

  // ----- duplicates

  lemma TwoLaterDone(chunks: seq<Chunk>, frontier: nat)
    ensures |LaterDone(chunks, frontier)| >= 2 <==>
            exists j, k :: frontier < j < k < |chunks| && IsDone(chunks[j]) && IsDone(chunks[k])
  {
    var done := LaterDone(chunks, frontier);
    if |done| >= 2 {
      var j :| j in done;
      assert |done - {j}| >= 1;
      var k :| k in done - {j};
      var lo, hi := Min(j, k), Max(j, k);
      assert frontier < lo < hi < |chunks| && IsDone(chunks[lo]) && IsDone(chunks[hi]);
    }
    if j, k :| frontier < j < k < |chunks| && IsDone(chunks[j]) && IsDone(chunks[k]) {
      assert {j, k} <= done;
      SubsetSize({j, k}, done);
    }
  }

  predicate IsDone(c: Chunk) { c.state == Completed || c.state == Written }

  /** The eligibility check in full, both ways. */
  lemma HedgeConditions(s: Sched, frontier: nat, reserved: int, bufferSize: int, now: int)
    ensures HedgeEligible(s, frontier, reserved, bufferSize, now) == frontier <==>
            && s.cfg.streamMode && !s.hedgeActive && frontier < |s.chunks|
            && s.chunks[frontier].state == Active && !s.chunks[frontier].hedged
            && |s.recent| >= 4
            && (exists j, k :: frontier < j < k < |s.chunks| && IsDone(s.chunks[j]) && IsDone(s.chunks[k]))
            && now - s.chunks[frontier].startTime >= 2 * Median.MedianOf(s.recent)
            && s.activeCount < s.effectiveTarget
            && reserved + s.chunks[frontier].length <= bufferSize
  {
    TwoLaterDone(s.chunks, frontier);
  }
}
