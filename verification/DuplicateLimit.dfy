/** "At most one speculative duplicate" (section 24 of ARCHITECTURE.md), decided for downloads to a stream: exactly
    which settings keep it. */
module DuplicateLimit {
  import opened Basics
  import opened Chunks
  import opened Scheduling
  import opened WorkerPool
  import opened PoolInvariants
  import opened PoolTheorems
  import opened PoolBudget
  import opened HedgeRace
  import opened HedgeLimits
  import opened Streaming
  import opened StreamMemory
  import opened StreamFinish
  import opened Frontier
  import opened DuplicateRace
  import T = StreamTransfer

  ghost predicate AtMostOneDuplicate(cfg: Config, plan: seq<Chunk>, src: seq<byte>, now: nat)
    requires ValidConfig(cfg)
  {
    forall es :: T.Legal(T.Init(cfg, plan, now), es, src) ==>
      |HedgeTickets(T.Exec(T.Init(cfg, plan, now), es, src).pool.workers)| <= 1
  }

  // ----- every run of the stream machine is a run of the pool

  lemma {:induction false} PoolRun(s: T.Stream, es: seq<T.Event>, src: seq<byte>) returns (pes: seq<Event>)
    requires T.Legal(s, es, src)
    ensures Legal(s.pool, pes) && Exec(s.pool, pes) == T.Exec(s, es, src).pool
    decreases |es|
  {
    if es == [] {
      pes := [];
    } else {
      var t := T.Apply(s, es[0], src);
      var rest := PoolRun(t, es[1..], src);
      PoolOrNot(s, es[0], src);
      hide T.Apply, T.Enabled, Apply, Enabled;
      if es[0].OfPool? {
        pes := [es[0].e] + rest;
        assert pes[1..] == rest;
      } else {
        pes := rest;
      }
    }
  }

  lemma PoolOrNot(s: T.Stream, e: T.Event, src: seq<byte>)
    requires T.Enabled(s, e, src)
    ensures if e.OfPool? then Enabled(s.pool, e.e) && T.Apply(s, e, src).pool == Apply(s.pool, e.e)
            else T.Apply(s, e, src).pool == s.pool
  {
    if e.OfPool? { PoolPart(s, e.e, src); }
    hide Apply, Enabled, T.PoolStep;
  }

  // ----- a buffer too small for three chunks

  ghost predicate ThreeFit(plan: seq<Chunk>, limit: int, f: nat, j: nat, k: nat)
    requires f < |plan| && j < |plan| && k < |plan|
  {
    plan[f].length + plan[j].length + plan[k].length <= limit
  }

  /** While a worker is inside HedgeEligible: two complete chunks behind an active frontier chunk are still buffered,
      or the three have been reserved at the same time. */
  ghost predicate GlanceOK(s: T.Stream, plan: seq<Chunk>)
    requires |s.pool.sched.chunks| == |plan|
  {
    s.glance.Some? ==>
      var f := s.glance.value.frontier;
      forall j: nat, k: nat ::
        (f < j < k < |plan| && Behind(s.pool.sched.chunks, f, j, k)) ==>
          || (s.sink.nextIndex == f && j in s.sink.completed && k in s.sink.completed)
          || ThreeFit(plan, s.sink.bufferSize, f, j, k)
  }

  ghost predicate Behind(chunks: seq<Chunk>, f: nat, j: nat, k: nat)
    requires f < j < k < |chunks|
  {
    chunks[f].state == Active && chunks[j].state == Completed && chunks[k].state == Completed
  }

  lemma {:induction false} BufferedTwo(completed: map<nat, ChunkData>, plan: seq<Chunk>, n: nat, j: nat, k: nat)
    requires n <= |plan| && j < k < n && j in completed && k in completed
    ensures plan[j].length + plan[k].length <= BufferedBytes(completed, plan, n)
  {
    if k < n - 1 {
      BufferedTwo(completed, plan, n - 1, j, k);
    } else {
      BufferedAtLeast(completed, plan, n - 1, j);
    }
  }

  lemma {:induction false} BufferedThree(completed: map<nat, ChunkData>, plan: seq<Chunk>, n: nat, f: nat, j: nat, k: nat)
    requires n <= |plan| && f < j < k < n && f in completed && j in completed && k in completed
    ensures plan[f].length + plan[j].length + plan[k].length <= BufferedBytes(completed, plan, n)
  {
    if k < n - 1 {
      BufferedThree(completed, plan, n - 1, f, j, k);
    } else {
      BufferedTwo(completed, plan, n - 1, f, j);
    }
  }

  /** The first look at the sink. */
  lemma GlanceBegins(s: T.Stream, plan: seq<Chunk>, src: seq<byte>, w: nat)
    requires |s.pool.sched.chunks| == |plan| && T.BufferOK(s, plan, src) && Order(s.pool, plan) && Delivery(s.pool, plan)
    requires forall i :: 0 <= i < |plan| ==> plan[i].state == Pending
    ensures GlanceOK(s.(glance := Some(T.Glance(w, s.sink.nextIndex))), plan)
  {
  }

  /** The writer moves on meanwhile. */
  lemma WriterGlance(s: T.Stream, plan: seq<Chunk>, src: seq<byte>, e: T.Event)
    requires |s.pool.sched.chunks| == |plan| && Balanced(s, plan) && s.pool.hedges == 0 && GlanceOK(s, plan)
    requires T.Enabled(s, e, src) && !e.OfPool? && !e.ReadFrontier?
    ensures T.Apply(s, e, src).pool == s.pool && GlanceOK(T.Apply(s, e, src), plan)
  {
    var t := T.Apply(s, e, src);
    if s.glance.Some? {
      var f := s.glance.value.frontier;
      forall j: nat, k: nat | f < j < k < |plan| && s.sink.nextIndex == f && f in s.sink.completed && j in s.sink.completed && k in s.sink.completed
        ensures ThreeFit(plan, s.sink.bufferSize, f, j, k)
      {
        BufferedThree(s.sink.completed, plan, |plan|, f, j, k);
      }
    }
    WriterMoves(s, e, src);
    hide T.Apply, T.Enabled, Balanced;
  }

  /** The writer takes the frontier chunk or leaves the buffer alone. */
  lemma WriterMoves(s: T.Stream, e: T.Event, src: seq<byte>)
    requires T.Enabled(s, e, src) && !e.OfPool? && !e.ReadFrontier?
    ensures var t := T.Apply(s, e, src);
            && t.pool == s.pool && t.glance == s.glance && t.sink.bufferSize == s.sink.bufferSize
            && ((t.sink.nextIndex == s.sink.nextIndex && t.sink.completed == s.sink.completed)
                || (s.sink.nextIndex in s.sink.completed && t.sink.nextIndex == s.sink.nextIndex + 1))
  {
  }

  /** So do the workers, without the scheduler. */
  lemma QuietCall(s: T.Stream, pe: Event, src: seq<byte>)
    requires T.Enabled(s, T.OfPool(pe), src) && s.glance.Some? && !pe.CallHedgeEligible?
    ensures var t := T.PoolStep(s, pe, src);
            && t.pool.sched.chunks == s.pool.sched.chunks && t.glance == s.glance
            && t.sink.bufferSize == s.sink.bufferSize
            && t.sink.nextIndex == s.sink.nextIndex && s.sink.completed.Keys <= t.sink.completed.Keys
  {
    hide HedgeEligible, StartHedge, NextAssignment;
  }

  lemma CallGlance(s: T.Stream, plan: seq<Chunk>, pe: Event, src: seq<byte>)
    requires |s.pool.sched.chunks| == |plan| && GlanceOK(s, plan) && T.Enabled(s, T.OfPool(pe), src)
    requires |T.PoolStep(s, pe, src).pool.sched.chunks| == |plan|
    ensures GlanceOK(T.PoolStep(s, pe, src), plan)
  {
    var t := T.PoolStep(s, pe, src);
    if s.glance.Some? && !pe.CallHedgeEligible? {
      QuietCall(s, pe, src);
      hide T.PoolStep, T.Enabled;
      forall j | j in s.sink.completed ensures j in t.sink.completed { assert j in t.sink.completed.Keys; }
    } else {
      GlanceEnds(s, pe, src);
    }
  }

  lemma GlanceEnds(s: T.Stream, pe: Event, src: seq<byte>)
    requires T.Enabled(s, T.OfPool(pe), src) && (s.glance.None? || pe.CallHedgeEligible?)
    ensures T.PoolStep(s, pe, src).glance.None?
  {
    hide Apply;
  }

  /** The second look: what is offered was once reserved together with two later chunks. */
  lemma OfferedFits(s: T.Stream, plan: seq<Chunk>, f: nat) returns (j: nat, k: nat)
    requires |s.pool.sched.chunks| == |plan| && Balanced(s, plan) && s.pool.hedges == 0 && GlanceOK(s, plan)
    requires forall i :: 0 <= i < |plan| ==>
               s.pool.sched.chunks[i].length == plan[i].length && s.pool.sched.chunks[i].state != Written
    requires s.glance.Some? && s.glance.value.frontier == f
    requires HedgeEligible(s.pool.sched, f, s.sink.reserved, s.sink.bufferSize, s.pool.now) == f
    ensures f < j < k < |plan| && ThreeFit(plan, s.sink.bufferSize, f, j, k)
  {
    HedgeConditions(s.pool.sched, f, s.sink.reserved, s.sink.bufferSize, s.pool.now);
    hide HedgeEligible;
    j, k :| f < j < k < |plan| && IsDone(s.pool.sched.chunks[j]) && IsDone(s.pool.sched.chunks[k]);
    if j in s.sink.completed && k in s.sink.completed {
      BufferedTwo(s.sink.completed, plan, |plan|, j, k);
    }
  }

  lemma SmallNotOffered(s: T.Stream, plan: seq<Chunk>, f: nat)
    requires |s.pool.sched.chunks| == |plan| && Balanced(s, plan) && s.pool.hedges == 0 && GlanceOK(s, plan)
    requires forall i :: 0 <= i < |plan| ==>
               s.pool.sched.chunks[i].length == plan[i].length && s.pool.sched.chunks[i].state != Written
    requires s.glance.Some? && s.glance.value.frontier == f
    requires forall j: nat, k: nat :: f < j < k < |plan| ==> !ThreeFit(plan, s.sink.bufferSize, f, j, k)
    ensures HedgeEligible(s.pool.sched, f, s.sink.reserved, s.sink.bufferSize, s.pool.now) == -1
  {
    hide GlanceOK, ThreeFit, Balanced, HedgeEligible;
    OfferedIsFrontier(s.pool.sched, f, s.sink.reserved, s.sink.bufferSize, s.pool.now);
    if HedgeEligible(s.pool.sched, f, s.sink.reserved, s.sink.bufferSize, s.pool.now) == f {
      var j, k := OfferedFits(s, plan, f);
    }
  }

  ghost predicate Quiet(s: T.Stream, plan: seq<Chunk>) {
    && |s.pool.sched.chunks| == |plan| && s.pool.hedges == 0 && (forall w: nat :: !AtStart(s.pool, w)) && GlanceOK(s, plan)
  }

  ghost predicate NoThreeFit(plan: seq<Chunk>, limit: int) {
    forall f: nat, j: nat, k: nat :: f < j < k < |plan| ==> !ThreeFit(plan, limit, f, j, k)
  }

  lemma ChunksAsPlanned(p: Pool, plan: seq<Chunk>)
    requires Shape(p, plan) && Order(p, plan) && forall i :: 0 <= i < |plan| ==> plan[i].state == Pending
    ensures |p.sched.chunks| == |plan|
    ensures forall i :: 0 <= i < |plan| ==> p.sched.chunks[i].length == plan[i].length && p.sched.chunks[i].state != Written
  {
  }

  lemma PoolQuiet(s: T.Stream, plan: seq<Chunk>, src: seq<byte>, pe: Event)
    requires Layout(plan, |src|) && MInv(s, plan, src) && Quiet(s, plan) && T.Enabled(s, T.OfPool(pe), src)
    requires NoThreeFit(plan, s.sink.bufferSize) && forall i :: 0 <= i < |plan| ==> plan[i].state == Pending
    ensures var q := Apply(s.pool, pe); q.hedges == 0 && forall w: nat :: !AtStart(q, w)
  {
    PoolPart(s, pe, src);
    InvParts(s.pool, plan);
    if pe.CallStartHedge? {
      StarterStands(s.pool, pe);
    } else {
      CallRecords(s.pool, pe);
      if pe.CallHedgeEligible? {
        ChunksAsPlanned(s.pool, plan);
        LookIs(s.pool, pe);
        hide Inv, Solo, Budget, Balanced, T.SinkInv, AtStart, ThreeFit, GlanceOK, LookStep, Apply, Enabled, HedgeEligible, Shape, Order;
        SmallNotOffered(s, plan, pe.frontier);
        LookAway(s.pool, pe.w, pe.frontier, pe.reserved, pe.bufferSize);
      } else {
        hide MInv, AtStart, GlanceOK, Apply, NoThreeFit;
        StartFromLook(s.pool, plan, pe);
      }
    }
  }

  lemma StepQuiet(s: T.Stream, plan: seq<Chunk>, src: seq<byte>, e: T.Event)
    requires Layout(plan, |src|) && ValidPlan(plan) && MInv(s, plan, src) && Quiet(s, plan) && T.Enabled(s, e, src)
    requires NoThreeFit(plan, s.sink.bufferSize) && forall i :: 0 <= i < |plan| ==> plan[i].state == Pending
    requires |T.Apply(s, e, src).pool.sched.chunks| == |plan|
    ensures Quiet(T.Apply(s, e, src), plan)
  {
    PoolOrNot(s, e, src);
    match e
    case OfPool(pe) =>
      PoolQuiet(s, plan, src, pe);
      hide MInv, GlanceOK, T.PoolStep, AtStart, Apply;
      CallGlance(s, plan, pe, src);
    case ReadFrontier(w) =>
      DeliveryOf(s.pool, plan);
      hide Inv, Solo, Budget, Balanced, GlanceOK, AtStart, Order, Delivery;
      GlanceBegins(s, plan, src, w);
    case _ =>
      hide Inv, Solo, Budget, GlanceOK, T.SinkInv, AtStart;
      WriterGlance(s, plan, src, e);
  }

  lemma DeliveryOf(p: Pool, plan: seq<Chunk>)
    requires Inv(p, plan)
    ensures |p.sched.chunks| == |plan| && Order(p, plan) && Delivery(p, plan)
  {
  }

  lemma {:induction false} RunQuiet(s: T.Stream, plan: seq<Chunk>, src: seq<byte>, es: seq<T.Event>)
    requires Layout(plan, |src|) && ValidPlan(plan) && MInv(s, plan, src) && Quiet(s, plan) && T.Legal(s, es, src)
    requires NoThreeFit(plan, s.sink.bufferSize) && forall i :: 0 <= i < |plan| ==> plan[i].state == Pending
    ensures T.Exec(s, es, src).pool.hedges == 0
    decreases |es|
  {
    if es != [] {
      var t := T.Apply(s, es[0], src);
      StepKeepsMemory(s, plan, src, es[0]);
      SameSizes(t, plan, src);
      StepQuiet(s, plan, src, es[0]);
      SameLimit(s, es[0], src);
      hide T.Apply, T.Enabled, MInv, Quiet, Layout, ValidPlan;
      RunQuiet(t, plan, src, es[1..]);
    }
  }

  lemma SameSizes(s: T.Stream, plan: seq<Chunk>, src: seq<byte>)
    requires Layout(plan, |src|) && MInv(s, plan, src)
    ensures |s.pool.sched.chunks| == |plan|
  {
  }

  /** In a buffer that cannot hold three chunks no duplicate is ever started. */
  lemma SmallBuffer(cfg: Config, plan: seq<Chunk>, src: seq<byte>, now: nat, es: seq<T.Event>)
    requires T.ValidSetup(cfg, plan, src) && T.Legal(T.Init(cfg, plan, now), es, src) && NoThreeFit(plan, cfg.bufferSize)
    ensures T.Exec(T.Init(cfg, plan, now), es, src).pool.hedges == 0
  {
    InitMemory(cfg, plan, src, now);
    assert Quiet(T.Init(cfg, plan, now), plan);
    RunQuiet(T.Init(cfg, plan, now), plan, src, es);
  }

  // ----- settings without duplicates

  /** What a caller can check: one connection, at most four chunks, or a buffer too small for two whole chunks and the
      last one. */
  predicate NeverStarts(cfg: Config, size: nat)
    requires cfg.splitSize >= 1
  {
    var plan := PlanOf(size, cfg.splitSize);
    cfg.connections <= 1 || |plan| <= 4 || cfg.bufferSize < 2 * cfg.splitSize + plan[|plan| - 1].length
  }

  lemma Alone(cfg: Config, plan: seq<Chunk>, src: seq<byte>, now: nat, es: seq<T.Event>)
    requires T.ValidSetup(cfg, plan, src) && cfg.connections <= 1 && T.Legal(T.Init(cfg, plan, now), es, src)
    ensures T.Exec(T.Init(cfg, plan, now), es, src).pool.hedges == 0
  {
    var pes := PoolRun(T.Init(cfg, plan, now), es, src);
    hide T.Exec, T.Legal, Exec, Legal, Layout;
    OneWorker(cfg, plan, now, pes);
  }

  /** With such settings no run starts a duplicate. */
  lemma NoneStarted(cfg: Config, src: seq<byte>, now: nat, es: seq<T.Event>)
    requires ValidConfig(cfg) && cfg.streamMode && NeverStarts(cfg, |src|)
    requires T.Legal(T.Init(cfg, PlanOf(|src|, cfg.splitSize), now), es, src)
    ensures T.Exec(T.Init(cfg, PlanOf(|src|, cfg.splitSize), now), es, src).pool.hedges == 0
  {
    var plan := PlanOf(|src|, cfg.splitSize);
    PlanIsLayout(|src|, cfg.splitSize);
    assert T.ValidSetup(cfg, plan, src);
    assert cfg.connections <= 1 || |plan| <= 4 || cfg.bufferSize < 2 * cfg.splitSize + plan[|plan| - 1].length;
    hide *;
    if cfg.connections <= 1 {
      Alone(cfg, plan, src, now, es);
    } else if |plan| <= 4 {
      FewChunks(cfg, plan, src, now, es);
    } else {
      LargestIsMissing(|src|, cfg.splitSize, cfg.bufferSize);
      SmallBuffer(cfg, plan, src, now, es);
    }
  }

  // ----- the theorem

  lemma NoneOut(s: T.Stream, plan: seq<Chunk>, src: seq<byte>)
    requires Layout(plan, |src|) && MInv(s, plan, src) && s.pool.hedges == 0
    ensures HedgeTickets(s.pool.workers) == {}
  {
  }

  lemma LargestIsMissing(size: nat, splitSize: int, limit: int)
    requires splitSize >= 1 && |PlanOf(size, splitSize)| > 0
    requires var plan := PlanOf(size, splitSize); limit < 2 * splitSize + plan[|plan| - 1].length
    ensures NoThreeFit(PlanOf(size, splitSize), limit)
  {
    PlanIsLayout(size, splitSize);
  }

  lemma TwoConnections(cfg: Config, plan: seq<Chunk>, src: seq<byte>, now: nat, es: seq<T.Event>)
    requires T.ValidSetup(cfg, plan, src) && cfg.connections <= 2 && T.Legal(T.Init(cfg, plan, now), es, src)
    ensures |HedgeTickets(T.Exec(T.Init(cfg, plan, now), es, src).pool.workers)| <= 1
  {
    var pes := PoolRun(T.Init(cfg, plan, now), es, src);
    hide T.Exec, T.Legal, Exec, Legal, Layout;
    TwoWorkers(cfg, plan, now, pes);
  }

  lemma FewChunks(cfg: Config, plan: seq<Chunk>, src: seq<byte>, now: nat, es: seq<T.Event>)
    requires T.ValidSetup(cfg, plan, src) && |plan| <= 4 && T.Legal(T.Init(cfg, plan, now), es, src)
    ensures T.Exec(T.Init(cfg, plan, now), es, src).pool.hedges == 0
  {
    var pes := PoolRun(T.Init(cfg, plan, now), es, src);
    hide T.Exec, T.Legal, Exec, Legal, Layout;
    FourChunks(cfg, plan, now, pes);
  }

  lemma NoneOutEver(cfg: Config, plan: seq<Chunk>, src: seq<byte>, now: nat, es: seq<T.Event>)
    requires T.ValidSetup(cfg, plan, src) && T.Legal(T.Init(cfg, plan, now), es, src)
    requires T.Exec(T.Init(cfg, plan, now), es, src).pool.hedges == 0
    ensures HedgeTickets(T.Exec(T.Init(cfg, plan, now), es, src).pool.workers) == {}
  {
    Ended(cfg, plan, src, now, es);
    hide T.Exec, T.Legal, T.Init, MInv;
    NoneOut(T.Exec(T.Init(cfg, plan, now), es, src), plan, src);
  }

  lemma LimitHolds(cfg: Config, plan: seq<Chunk>, src: seq<byte>, now: nat, es: seq<T.Event>)
    requires T.ValidSetup(cfg, plan, src) && T.Legal(T.Init(cfg, plan, now), es, src)
    requires cfg.connections <= 2 || |plan| <= 4 || NoThreeFit(plan, cfg.bufferSize)
    ensures |HedgeTickets(T.Exec(T.Init(cfg, plan, now), es, src).pool.workers)| <= 1
  {
    hide T.Exec, T.Legal, T.Init, Layout, NoThreeFit;
    if cfg.connections <= 2 {
      TwoConnections(cfg, plan, src, now, es);
    } else {
      if |plan| <= 4 { FewChunks(cfg, plan, src, now, es); } else { SmallBuffer(cfg, plan, src, now, es); }
      NoneOutEver(cfg, plan, src, now, es);
    }
  }

  lemma LimitBroken(cfg: Config, src: seq<byte>, now: nat)
    requires ValidConfig(cfg) && cfg.streamMode
    requires var plan := PlanOf(|src|, cfg.splitSize);
             cfg.connections >= 3 && |plan| >= 5 && 2 * cfg.splitSize + plan[|plan| - 1].length <= cfg.bufferSize
    ensures !AtMostOneDuplicate(cfg, PlanOf(|src|, cfg.splitSize), src, now)
  {
    var plan := PlanOf(|src|, cfg.splitSize);
    PlanIsLayout(|src|, cfg.splitSize);
    var r := TwoDuplicates(cfg, plan, src, now);
    var es :| T.Legal(T.Init(cfg, plan, now), es, src) && T.Exec(T.Init(cfg, plan, now), es, src) == r;
  }

  /** "At most one duplicate", exactly. It holds in every run of a download to a stream if and only if there are at most
      two connections, at most four chunks, or a buffer too small for two whole chunks and the last one. */
  lemma DuplicateLimitExactly(cfg: Config, src: seq<byte>, now: nat)
    requires ValidConfig(cfg) && cfg.streamMode
    ensures var plan := PlanOf(|src|, cfg.splitSize);
            AtMostOneDuplicate(cfg, plan, src, now) <==>
              cfg.connections <= 2 || |plan| <= 4 || cfg.bufferSize < 2 * cfg.splitSize + plan[|plan| - 1].length
  {
    var plan := PlanOf(|src|, cfg.splitSize);
    if cfg.connections <= 2 || |plan| <= 4 || cfg.bufferSize < 2 * cfg.splitSize + plan[|plan| - 1].length {
      PlanIsLayout(|src|, cfg.splitSize);
      if |plan| > 4 && cfg.connections > 2 { LargestIsMissing(|src|, cfg.splitSize, cfg.bufferSize); }
      forall es | T.Legal(T.Init(cfg, plan, now), es, src)
        ensures |HedgeTickets(T.Exec(T.Init(cfg, plan, now), es, src).pool.workers)| <= 1
      {
        LimitHolds(cfg, plan, src, now, es);
      }
    } else {
      LimitBroken(cfg, src, now);
    }
  }
}
