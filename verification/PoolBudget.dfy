/** Runs in which no duplicate is ever started: the retry budget is exact and no work is repeated. File transfers
    are always of this kind. */
module PoolBudget {
  import opened Chunks
  import opened Scheduling
  import opened WorkerPool
  import opened PoolInvariants

  function TotalAttempts(chunks: seq<Chunk>): nat {
    if chunks == [] then 0 else chunks[0].attempts + TotalAttempts(chunks[1..])
  }

  lemma {:induction false} AttemptsUpdate(chunks: seq<Chunk>, i: nat, c: Chunk)
    requires i < |chunks|
    ensures TotalAttempts(chunks[i := c]) == TotalAttempts(chunks) - chunks[i].attempts + c.attempts
  {
    if i == 0 {
      assert chunks[0 := c][1..] == chunks[1..];
    } else {
      assert chunks[i := c][1..] == chunks[1..][i - 1 := c];
      AttemptsUpdate(chunks[1..], i - 1, c);
    }
  }

  lemma {:induction false} AttemptsBounded(chunks: seq<Chunk>, maxTries: nat)
    requires forall i :: 0 <= i < |chunks| ==> chunks[i].attempts <= maxTries
    ensures TotalAttempts(chunks) <= maxTries * |chunks|
  {
    if chunks != [] {
      AttemptsBounded(chunks[1..], maxTries);
      assert maxTries * |chunks| == maxTries + maxTries * (|chunks| - 1);
    }
  }

  /** What is left of the retry budget: two steps per unused attempt, one per chunk under way. */
  function Measure(p: Pool): int {
    2 * (p.sched.cfg.maxTries * |p.sched.chunks| - TotalAttempts(p.sched.chunks)) + |InState(p.sched.chunks, Active)|
  }

  /** Without duplicates a held chunk is active, and a delivered chunk is complete or about to be. */
  ghost predicate Solo(p: Pool) {
    p.hedges == 0 ==>
      && (forall w :: 0 <= w < |p.workers| ==> !p.workers[w].hedge)
      && (forall w: nat, i: nat :: Holds(p, w, i) ==> InStateAt(p, i, Active))
      && (forall i: nat :: i in p.delivered ==> InStateAt(p, i, Completed) || BeingReported(p, i))
  }

  ghost predicate BeingReported(p: Pool, i: nat) {
    exists w: nat :: Holds(p, w, i) && PastDelivery(p.workers[w])
  }

  /** No chunk is attempted more often than allowed, and every assignment, completion and failure uses up exactly
      one unit of the measure. */
  ghost predicate Budget(p: Pool) {
    p.hedges == 0 ==>
      && (forall i :: 0 <= i < |p.sched.chunks| ==> p.sched.chunks[i].attempts <= p.sched.cfg.maxTries)
      && (forall i :: 0 <= i < |p.sched.chunks| && p.sched.chunks[i].state == RetryWait ==>
            p.sched.chunks[i].attempts < p.sched.cfg.maxTries)
      && p.work + Measure(p) == 2 * (p.sched.cfg.maxTries * |p.sched.chunks|)
  }

  lemma {:induction false} NoAttempts(chunks: seq<Chunk>)
    requires forall i :: 0 <= i < |chunks| ==> chunks[i].attempts == 0
    ensures TotalAttempts(chunks) == 0
  {
    if chunks != [] { NoAttempts(chunks[1..]); }
  }

  lemma InitBudget(cfg: Config, plan: seq<Chunk>, now: nat)
    requires ValidConfig(cfg) && ValidPlan(plan)
    ensures Solo(Init(cfg, plan, now)) && Budget(Init(cfg, plan, now))
  {
    NoAttempts(plan);
    assert InState(plan, Active) == {};
  }

  lemma SoloMove(p: Pool, q: Pool, plan: seq<Chunk>, w: nat, i: nat)
    requires Ownership(p) && Moves(p, q, plan, w, i) && SomeMove(p, q, w, i) && Solo(p)
    requires |p.sched.chunks| == |plan| && Delivery(p, plan)
    ensures Solo(q)
  {
    if q.hedges == 0 {
      forall v: nat, j: nat | Holds(q, v, j)
        ensures InStateAt(q, j, Active)
      {
        if v != w { assert Holds(p, v, j); }
        if Holding(p.workers[w]) { assert Holds(p, w, p.workers[w].i); }
      }
      forall j: nat | j in q.delivered
        ensures InStateAt(q, j, Completed) || BeingReported(q, j)
      {
        SoloDelivered(p, q, plan, w, i, j);
      }
    }
  }

  lemma SoloDelivered(p: Pool, q: Pool, plan: seq<Chunk>, w: nat, i: nat, j: nat)
    requires Ownership(p) && Moves(p, q, plan, w, i) && SomeMove(p, q, w, i) && Solo(p)
    requires |p.sched.chunks| == |plan| && Delivery(p, plan) && q.hedges == 0 && j in q.delivered
    ensures InStateAt(q, j, Completed) || BeingReported(q, j)
  {
    if j !in p.delivered {
      assert Holds(q, w, j);
    } else if InStateAt(p, j, Completed) {
    } else {
      var v: nat :| Holds(p, v, j) && PastDelivery(p.workers[v]);
      if v != w || PastDelivery(q.workers[w]) {
        assert Holds(q, v, j);
      }
    }
  }

  lemma BudgetMove(p: Pool, q: Pool, plan: seq<Chunk>, w: nat, i: nat)
    requires Shape(p, plan) && Order(p, plan) && p.sched.cfg.maxTries >= 1
    requires Moves(p, q, plan, w, i) && SomeMove(p, q, w, i) && Solo(p) && Budget(p)
    requires Stale(p, q, w, i) ==> p.hedges > 0
    ensures Budget(q)
  {
    StateCount(p, q, w, i, Active);
    if i < |p.sched.chunks| {
      assert q.sched.chunks == p.sched.chunks[i := q.sched.chunks[i]];
      AttemptsUpdate(p.sched.chunks, i, q.sched.chunks[i]);
    } else {
      assert q.sched.chunks == p.sched.chunks;
    }
  }

  /** Without duplicates no worker ever settles a chunk twice. */
  lemma NothingStale(p: Pool, q: Pool, w: nat, i: nat)
    requires Solo(p) && Stale(p, q, w, i)
    ensures p.hedges > 0
  {
    if p.hedges == 0 {
      assert Holds(p, w, p.workers[w].i);
    }
  }

  lemma AmbientBudget(p: Pool, e: Event)
    requires Solo(p) && Budget(p) && IsAmbient(e) && Enabled(p, e)
    ensures Solo(Apply(p, e)) && Budget(Apply(p, e))
  {
    var q := Apply(p, e);
    AmbientUntouched(p, e);
    hide Apply, Enabled;
    assert forall w: nat, i: nat :: Holds(p, w, i) <==> Holds(q, w, i);
    forall i: nat | BeingReported(p, i) ensures BeingReported(q, i) {
      var w: nat :| Holds(p, w, i) && PastDelivery(p.workers[w]);
      assert Holds(q, w, i);
    }
  }

  lemma StepBudget(p: Pool, plan: seq<Chunk>, e: Event)
    requires ValidPlan(plan) && Inv(p, plan) && p.sched.cfg.maxTries >= 1
    requires Solo(p) && Budget(p) && Enabled(p, e)
    ensures Solo(Apply(p, e)) && Budget(Apply(p, e))
  {
    hide Apply, Enabled, Subject, Moves, Calm, Takes, Releases, Stale, ValidPlan, Solo, Budget;
    hide Shape, Order, Ownership, Tickets, Counter, FatalIsFinal, Delivery, Timing, Collected;
    if IsAmbient(e) {
      AmbientBudget(p, e);
    } else {
      var q, i := Apply(p, e), Subject(p, e);
      CallMoves(p, plan, e);
      SizesAgree(p, plan);
      SoloMove(p, q, plan, e.w, i);
      if Stale(p, q, e.w, i) { NothingStale(p, q, e.w, i); }
      BudgetMove(p, q, plan, e.w, i);
    }
  }

  lemma SizesAgree(p: Pool, plan: seq<Chunk>)
    requires Shape(p, plan)
    ensures |p.sched.chunks| == |plan|
  {
  }

  lemma {:induction false} RunBudgetFrom(p: Pool, plan: seq<Chunk>, es: seq<Event>)
    requires ValidPlan(plan) && Inv(p, plan) && p.sched.cfg.maxTries >= 1
    requires Solo(p) && Budget(p) && Legal(p, es)
    ensures Solo(Exec(p, es)) && Budget(Exec(p, es))
    decreases |es|
  {
    hide Inv, Apply, Enabled, ValidPlan, Solo, Budget;
    if es != [] {
      StepKeeps(p, plan, es[0]);
      StepBudget(p, plan, es[0]);
      RunBudgetFrom(Apply(p, es[0]), plan, es[1..]);
    }
  }

  /** Bounded work. In any run that starts no duplicate, the calls that assign, complete or fail a chunk number
      exactly the drop of the measure; so there are at most maxTries assignments per chunk. */
  lemma BoundedWork(cfg: Config, plan: seq<Chunk>, now: nat, es: seq<Event>)
    requires ValidConfig(cfg) && ValidPlan(plan) && Legal(Init(cfg, plan, now), es)
    requires Exec(Init(cfg, plan, now), es).hedges == 0
    ensures var p := Exec(Init(cfg, plan, now), es);
            && p.work + Measure(p) == 2 * (cfg.maxTries * |plan|)
            && (forall i :: 0 <= i < |plan| ==> i < |p.sched.chunks| && p.sched.chunks[i].attempts <= cfg.maxTries)
            && TotalAttempts(p.sched.chunks) <= cfg.maxTries * |plan|
            && p.work == 2 * TotalAttempts(p.sched.chunks) - |InState(p.sched.chunks, Active)|
  {
    var p := Exec(Init(cfg, plan, now), es);
    InitInv(cfg, plan, now);
    InitBudget(cfg, plan, now);
    RunKeeps(Init(cfg, plan, now), plan, es);
    RunBudgetFrom(Init(cfg, plan, now), plan, es);
    SizesAgree(p, plan);
    AttemptsBounded(p.sched.chunks, cfg.maxTries);
  }
}
