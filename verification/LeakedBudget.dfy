/** Reservations that failed attempts never return (`Reserve` in internal/sink/stream.go; `workerLoop` in
    internal/job/runner.go releases nothing on failure). Once too little is left for a chunk that is still to be reserved,
    the download is lost, however many tries remain. */
module LeakedBudget {
  import opened Basics
  import opened Chunks
  import opened Scheduling
  import opened WorkerPool
  import opened PoolInvariants
  import opened PoolTheorems
  import opened HedgeRace
  import opened HedgeLimits
  import opened Streaming
  import opened StreamMemory
  import opened StreamFinish
  import opened StreamRuns
  import opened Frontier
  import opened DuplicateLimit
  import T = StreamTransfer
  import Median

  /** The worker has reserved memory for chunk i. */
  predicate HasReserved(v: Worker, i: nat) {
    v.i == i && v.pc in {Opening, Reading, Delivering}
  }

  /** Chunk i is neither delivered nor reserved, and what failed attempts have lost leaves no room for it. */
  ghost predicate Starved(s: T.Stream, plan: seq<Chunk>, i: nat) {
    && i < |plan| && s.lost + plan[i].length > s.sink.bufferSize
    && i !in s.pool.delivered && (forall w :: 0 <= w < |s.pool.workers| ==> !HasReserved(s.pool.workers[w], i))
  }

  /** What is reserved is at least what was lost. */
  lemma LostIsReserved(s: T.Stream, plan: seq<Chunk>)
    requires Balanced(s, plan) && s.pool.hedges == 0
    ensures s.lost <= s.sink.reserved
  {
  }

  /** No chunk but the last is shorter, and the last is never duplicated. */
  ghost predicate LastIsShortest(plan: seq<Chunk>) {
    forall i, j :: 0 <= i < |plan| && 0 <= j < |plan| - 1 ==> plan[i].length <= plan[j].length
  }

  lemma StarvedNotOffered(s: T.Stream, plan: seq<Chunk>, i: nat, f: nat)
    requires |s.pool.sched.chunks| == |plan| && forall k :: 0 <= k < |plan| ==> s.pool.sched.chunks[k].length == plan[k].length
    requires Starved(s, plan, i) && Balanced(s, plan) && s.pool.hedges == 0 && LastIsShortest(plan)
    ensures HedgeEligible(s.pool.sched, f, s.sink.reserved, s.sink.bufferSize, s.pool.now) == -1
  {
    LostIsReserved(s, plan);
    HedgeConditions(s.pool.sched, f, s.sink.reserved, s.sink.bufferSize, s.pool.now);
    OfferedIsFrontier(s.pool.sched, f, s.sink.reserved, s.sink.bufferSize, s.pool.now);
    hide HedgeEligible, Median.MedianOf, Balanced;
  }

  lemma StarvedRefused(s: T.Stream, plan: seq<Chunk>, src: seq<byte>, i: nat, w: nat, ok: bool)
    requires |s.pool.sched.chunks| == |plan| && forall k :: 0 <= k < |plan| ==> s.pool.sched.chunks[k].length == plan[k].length
    requires Starved(s, plan, i) && Balanced(s, plan) && s.pool.hedges == 0
    requires T.Enabled(s, T.OfPool(CallReserve(w, ok)), src) && s.pool.workers[w].i == i
    ensures !ok
  {
    LostIsReserved(s, plan);
  }

  lemma NothingReservedOnTheWay(p: Pool, e: Event, i: nat, v: nat)
    requires Enabled(p, e) && Transfers(e) && v < |p.workers| && !HasReserved(p.workers[v], i)
    requires e.CallReserve? ==> p.workers[e.w].i != i || !e.ok
    ensures |Apply(p, e).workers| == |p.workers| && !HasReserved(Apply(p, e).workers[v], i)
  {
  }

  lemma NothingReservedByAsking(p: Pool, w: nat, i: nat, v: nat)
    requires Stands(p, w, Ask) && p.sched.cfg.streamMode && v < |p.workers| && !HasReserved(p.workers[v], i)
    ensures |AskStep(p, w).workers| == |p.workers| && !HasReserved(AskStep(p, w).workers[v], i)
  {
    NextAssignmentEffect(p.sched, p.workers[w].slot, p.rootDone, p.now);
    hide NextAssignment;
  }

  lemma NothingReservedElsewhere(p: Pool, e: Event, i: nat, v: nat)
    requires Enabled(p, e) && !Transfers(e) && !e.CallStartHedge? && !e.CallNextAssignment?
    requires v < |p.workers| && !HasReserved(p.workers[v], i)
    ensures |Apply(p, e).workers| == |p.workers| && !HasReserved(Apply(p, e).workers[v], i)
  {
    if IsAmbient(e) {
      AmbientUntouched(p, e);
    } else {
      NothingReservedBySettling(p, e, i, v);
    }
  }

  lemma NothingReservedBySettling(p: Pool, e: Event, i: nat, v: nat)
    requires Enabled(p, e) && !Transfers(e) && !e.CallStartHedge? && !e.CallNextAssignment? && !IsAmbient(e)
    requires v < |p.workers| && !HasReserved(p.workers[v], i)
    ensures |Apply(p, e).workers| == |p.workers| && !HasReserved(Apply(p, e).workers[v], i)
  {
    hide HedgeEligible, MarkComplete, MarkFailed, OnAdmissionFailure, OnWorkerSuccess, CancelHedge, Enabled;
    assert Enabled(p, e);
    EnabledSettling(p, e);
  }

  lemma EnabledSettling(p: Pool, e: Event)
    requires Enabled(p, e) && !Transfers(e) && !e.CallStartHedge? && !e.CallNextAssignment? && !IsAmbient(e)
    ensures e.w < |p.workers|
  {
  }

  /** Only Reserve and StartHedge lead to the calls that need memory. */
  lemma NothingReserved(p: Pool, e: Event, i: nat)
    requires Enabled(p, e) && !e.CallStartHedge? && p.sched.cfg.streamMode
    requires e.CallReserve? ==> p.workers[e.w].i != i || !e.ok
    requires forall v :: 0 <= v < |p.workers| ==> !HasReserved(p.workers[v], i)
    ensures forall v :: 0 <= v < |Apply(p, e).workers| ==> !HasReserved(Apply(p, e).workers[v], i)
  {
    SameWorkers(p, e);
    hide Apply, AskStep, HasReserved;
    forall v: nat | v < |p.workers| ensures !HasReserved(Apply(p, e).workers[v], i) {
      if Transfers(e) {
        NothingReservedOnTheWay(p, e, i, v);
      } else if e.CallNextAssignment? {
        NothingReservedByAsking(p, e.w, i, v);
        AskIs(p, e);
      } else {
        NothingReservedElsewhere(p, e, i, v);
      }
    }
  }

  lemma AskIs(p: Pool, e: Event)
    requires e.CallNextAssignment? && Enabled(p, e)
    ensures Stands(p, e.w, Ask) && Apply(p, e) == AskStep(p, e.w)
  {
  }

  // ----- every continuation

  /** ... and no duplicate was started or is about to be. */
  ghost predicate Lost(s: T.Stream, plan: seq<Chunk>, src: seq<byte>, i: nat)
    requires Layout(plan, |src|)
  {
    MInv(s, plan, src) && NoneYet(s.pool) && Starved(s, plan, i)
  }

  lemma LostParts(s: T.Stream, plan: seq<Chunk>, src: seq<byte>, i: nat)
    requires Layout(plan, |src|) && Lost(s, plan, src, i)
    ensures Inv(s.pool, plan) && Balanced(s, plan) && s.pool.hedges == 0 && s.pool.sched.cfg.streamMode
    ensures |s.pool.sched.chunks| == |plan| && forall k :: 0 <= k < |plan| ==> s.pool.sched.chunks[k].length == plan[k].length
    ensures forall w: nat :: !AtStart(s.pool, w)
  {
  }

  lemma CallLeavesStarved(s: T.Stream, plan: seq<Chunk>, src: seq<byte>, i: nat, pe: Event)
    requires Layout(plan, |src|) && Lost(s, plan, src, i) && LastIsShortest(plan)
    requires T.Enabled(s, T.OfPool(pe), src)
    ensures NoneYet(Apply(s.pool, pe)) && i !in Apply(s.pool, pe).delivered
    ensures forall v :: 0 <= v < |Apply(s.pool, pe).workers| ==> !HasReserved(Apply(s.pool, pe).workers[v], i)
  {
    LostParts(s, plan, src, i);
    PoolPart(s, pe, src);
    if pe.CallHedgeEligible? { StarvedNotOffered(s, plan, i, pe.frontier); }
    if pe.CallReserve? && s.pool.workers[pe.w].i == i { StarvedRefused(s, plan, src, i, pe.w, pe.ok); }
    if pe.CallStartHedge? { StarterStands(s.pool, pe); }
    DeliversReserved(s.pool, pe);
    EventEffects(s.pool, pe);
    hide Inv, Balanced, MInv, Apply, HedgeEligible;
    StepKeepsNoneYet(s.pool, plan, pe);
    NothingReserved(s.pool, pe, i);
  }

  lemma DeliversReserved(p: Pool, e: Event)
    requires Enabled(p, e)
    ensures e.CallDeliver? ==> e.w < |p.workers| && HasReserved(p.workers[e.w], p.workers[e.w].i)
    ensures e.CallReserve? ==> e.w < |p.workers|
  {
  }

  lemma LossGrows(s: T.Stream, e: T.Event, src: seq<byte>)
    requires T.Enabled(s, e, src)
    ensures T.Apply(s, e, src).lost >= s.lost && T.Apply(s, e, src).sink.bufferSize == s.sink.bufferSize
  {
    hide Apply;
  }

  lemma StillStarved(s: T.Stream, plan: seq<Chunk>, src: seq<byte>, i: nat, e: T.Event)
    requires Layout(plan, |src|) && Lost(s, plan, src, i) && LastIsShortest(plan) && T.Enabled(s, e, src)
    ensures NoneYet(T.Apply(s, e, src).pool) && Starved(T.Apply(s, e, src), plan, i)
  {
    LossGrows(s, e, src);
    PoolOrNot(s, e, src);
    hide MInv, T.Apply, T.Enabled, Apply, HasReserved, Layout;
    if e.OfPool? { CallLeavesStarved(s, plan, src, i, e.e); }
  }

  lemma StepStaysLost(s: T.Stream, plan: seq<Chunk>, src: seq<byte>, i: nat, e: T.Event)
    requires Layout(plan, |src|) && ValidPlan(plan) && Lost(s, plan, src, i) && LastIsShortest(plan) && T.Enabled(s, e, src)
    ensures Lost(T.Apply(s, e, src), plan, src, i)
  {
    hide MInv, T.Apply, T.Enabled, Starved, NoneYet, Layout, ValidPlan, LastIsShortest;
    StepKeepsMemory(s, plan, src, e);
    StillStarved(s, plan, src, i, e);
  }

  lemma {:induction false} RunStaysLost(s: T.Stream, plan: seq<Chunk>, src: seq<byte>, i: nat, es: seq<T.Event>)
    requires Layout(plan, |src|) && ValidPlan(plan) && Lost(s, plan, src, i) && LastIsShortest(plan) && T.Legal(s, es, src)
    ensures Lost(T.Exec(s, es, src), plan, src, i)
    decreases |es|
  {
    hide Lost, T.Apply, T.Enabled, Layout, LastIsShortest, ValidPlan;
    if es != [] {
      StepStaysLost(s, plan, src, i, es[0]);
      RunStaysLost(T.Apply(s, es[0], src), plan, src, i, es[1..]);
    }
  }

  lemma LostIsNoSuccess(s: T.Stream, plan: seq<Chunk>, src: seq<byte>, i: nat)
    requires Layout(plan, |src|) && Lost(s, plan, src, i) && forall k :: 0 <= k < |plan| ==> plan[k].state == Pending
    ensures s.pool.verdict != Some(true) && s.result != Some(true)
  {
    if s.pool.verdict == Some(true) { CounterMeansDone(s.pool, plan); }
  }

  lemma PlanShortest(size: nat, splitSize: int)
    requires splitSize >= 1
    ensures LastIsShortest(PlanOf(size, splitSize))
  {
    PlanIsLayout(size, splitSize);
  }

  /** No way out. In a reachable state in which no duplicate was ever started or is about to be, and failed attempts have
      lost more than the buffer less the length of a chunk still to be reserved: that chunk is never delivered, and the
      download never succeeds, in any continuation and with any number of tries left. */
  lemma NeverRecovers(cfg: Config, src: seq<byte>, now: nat, es: seq<T.Event>, i: nat, more: seq<T.Event>)
    requires ValidConfig(cfg) && cfg.streamMode && T.Legal(T.Init(cfg, PlanOf(|src|, cfg.splitSize), now), es, src)
    requires var s := T.Exec(T.Init(cfg, PlanOf(|src|, cfg.splitSize), now), es, src);
             && Starved(s, PlanOf(|src|, cfg.splitSize), i) && s.pool.hedges == 0 && (forall w: nat :: !AtStart(s.pool, w))
             && T.Legal(s, more, src)
    ensures var s := T.Exec(T.Init(cfg, PlanOf(|src|, cfg.splitSize), now), es, src);
            var t := T.Exec(s, more, src);
            t.result != Some(true) && t.pool.verdict != Some(true) && i !in t.pool.delivered
  {
    var plan := PlanOf(|src|, cfg.splitSize);
    var s := T.Exec(T.Init(cfg, plan, now), es, src);
    PlanIsLayout(|src|, cfg.splitSize);
    PlanShortest(|src|, cfg.splitSize);
    Ended(cfg, plan, src, now, es);
    hide T.Init, T.Exec, T.Legal, PlanOf, AtStart;
    RunStaysLost(s, plan, src, i, more);
    LostIsNoSuccess(T.Exec(s, more, src), plan, src, i);
  }

  /** One broken transfer is enough when the buffer does not hold two chunks. */
  lemma OneFailureIsFinal(cfg: Config, src: seq<byte>, now: nat) returns (es: seq<T.Event>)
    requires ValidConfig(cfg) && cfg.streamMode && src != [] && cfg.splitSize <= cfg.bufferSize
    requires cfg.bufferSize < 2 * PlanOf(|src|, cfg.splitSize)[0].length
    ensures var plan := PlanOf(|src|, cfg.splitSize);
            && T.Legal(T.Init(cfg, plan, now), es, src)
            && var s := T.Exec(T.Init(cfg, plan, now), es, src);
            Starved(s, plan, 0) && s.pool.hedges == 0 && (forall w: nat :: !AtStart(s.pool, w)) && !s.pool.sched.fatal
  {
    var plan := PlanOf(|src|, cfg.splitSize);
    var s0 := T.Init(cfg, plan, now);
    PlanIsLayout(|src|, cfg.splitSize);
    StartOffers(cfg, plan, src, now);
    ReachSelf(s0, src);
    hide Reaches, T.Init, Layout, PlanOf, Smooth, Carrying, Got;
    var t := Get(s0, s0, cfg, plan, src, 0);
    GotCarries(s0, t, cfg, plan, src, 0);
    GotSink(s0, t, 0);
    var u := ReserveAndOpen(s0, t, cfg, plan, src, 0, 0);
    var v := BreakOff(s0, s0, t, u, cfg, plan, src);
    es := RunTo(s0, v, src);
  }

  lemma RunTo(s: T.Stream, t: T.Stream, src: seq<byte>) returns (es: seq<T.Event>)
    requires Reaches(s, t, src)
    ensures T.Legal(s, es, src) && T.Exec(s, es, src) == t
  {
    es :| T.Legal(s, es, src) && T.Exec(s, es, src) == t;
  }

  lemma StartOffers(cfg: Config, plan: seq<Chunk>, src: seq<byte>, now: nat)
    requires T.ValidSetup(cfg, plan, src) && (forall i :: 0 <= i < |plan| ==> !plan[i].hedged) && plan != []
    ensures var s := T.Init(cfg, plan, now);
            && Smooth(s, cfg, plan) && AtHead(s.pool, 0) && NotOffered(s) && s.pool.hedges == 0 && s.pool.delivered == {}
            && s.pool.sched.nextUndispatched == 0 && s.pool.sched.completedCount == 0
            && s.pool.sched.activeCount < s.pool.sched.effectiveTarget
            && s.sink.reserved == 0 && s.sink.bufferSize == cfg.bufferSize && s.lost == 0
            && forall w :: 0 <= w < |s.pool.workers| ==> s.pool.workers[w].pc == Head
  {
    assert InState(plan, Completed) == {};
  }

  lemma BreakOff(s0: T.Stream, s: T.Stream, t: T.Stream, u: T.Stream, cfg: Config, plan: seq<Chunk>, src: seq<byte>) returns (v: T.Stream)
    requires Reaches(s0, u, src) && Got(s, t, 0) && Carrying(t, cfg, plan, src, 0, 0) && UnderWay(t, u, 0, 0)
    requires forall w :: 0 <= w < |s.pool.workers| ==> s.pool.workers[w].pc == Head
    requires s.pool.hedges == 0 && s.pool.delivered == {} && s.lost == 0 && s.sink.bufferSize == cfg.bufferSize < 2 * plan[0].length
    ensures Reaches(s0, v, src) && Starved(v, plan, 0) && v.pool.hedges == 0 && (forall w: nat :: !AtStart(v.pool, w))
    ensures !v.pool.sched.fatal
  {
    Reach(s0, u, T.OfPool(CallReadFull(0, false)), src);
    v := u.(pool := ReadStep(u.pool, 0, false), lost := plan[0].length);
    hide Reaches;
  }
}
