/** "Mode-specific memory capacity permits another worker" (section 12.4 of ARCHITECTURE.md) before a connection slot is
    restored: `cleanup` in internal/schedule/scheduler.go does not look at the buffer. Exactly which settings keep the
    target within it, over every run of a download to a stream. */
module MemoryCapacity {
  import opened Basics
  import opened Chunks
  import opened Scheduling
  import opened WorkerPool
  import opened PoolInvariants
  import opened PoolTheorems
  import opened Assignment
  import opened Cancellation
  import opened Streaming
  import opened StreamRuns
  import opened Frontier
  import A = Adaptation
  import H = CallHistory
  import R = Restoration
  import T = StreamTransfer

  /** As many full chunks as the target has workers fit in the buffer. */
  predicate Permitted(p: Pool) {
    p.sched.effectiveTarget * p.sched.cfg.splitSize <= p.sched.cfg.bufferSize
  }

  ghost predicate AlwaysPermitted(cfg: Config, plan: seq<Chunk>, src: seq<byte>, now: nat)
    requires ValidConfig(cfg)
  {
    forall es :: T.Legal(T.Init(cfg, plan, now), es, src) ==> Permitted(T.Exec(T.Init(cfg, plan, now), es, src).pool)
  }

  // ----- settings that keep it

  /** The target is at most what it was at the beginning, unless four chunks are complete. */
  predicate Capped(s: Sched, first: int) {
    s.effectiveTarget <= first || s.completedCount >= 4
  }

  lemma OpCapped(s: Sched, op: A.Op, first: int)
    requires A.Fits(s) && Capped(s, first)
    ensures Capped(A.Step(s, op), first)
  {
    A.OneStep(s, op);
    R.StepCounter(s, op);
    hide A.Step;
  }

  lemma EventCapped(s: T.Stream, e: T.Event, src: seq<byte>, first: int)
    requires T.Enabled(s, e, src) && A.Fits(s.pool.sched) && Capped(s.pool.sched, first)
    ensures A.Fits(T.Apply(s, e, src).pool.sched) && Capped(T.Apply(s, e, src).pool.sched, first)
  {
    hide T.Enabled, T.Apply, Enabled, Apply, CallOf, A.Fits, A.Step, Capped;
    PoolPart(s, e, src);
    if e.OfPool? {
      CallStep(s.pool, e.e);
      if CallOf(s.pool, e.e) != [] {
        var op := CallOf(s.pool, e.e)[0];
        assert CallOf(s.pool, e.e) == [op];
        RunOne(s.pool.sched, op);
        OpCapped(s.pool.sched, op, first);
      }
    }
  }

  lemma {:induction false} RunCapped(s: T.Stream, es: seq<T.Event>, src: seq<byte>, first: int)
    requires T.Legal(s, es, src) && A.Fits(s.pool.sched) && Capped(s.pool.sched, first)
    ensures Capped(T.Exec(s, es, src).pool.sched, first)
    decreases |es|
  {
    hide T.Enabled, T.Apply, A.Fits, Capped;
    if es != [] {
      EventCapped(s, es[0], src, first);
      RunCapped(T.Apply(s, es[0], src), es[1..], src, first);
    }
  }

  lemma Fewer(k: int, m: int, split: int, buffer: int)
    requires k <= m && split >= 1 && m * split <= buffer
    ensures k * split <= buffer
  {
    assert (m - k) * split >= 0;
  }

  lemma PlanPending(size: nat, split: nat)
    requires split >= 1
    ensures IsPrefix(PlanOf(size, split)) && Prefix(PlanOf(size, split)) == 0
  {
    PlanIsLayout(size, split);
  }

  lemma AtMostAll(p: Pool, plan: seq<Chunk>)
    requires Inv(p, plan) && IsPrefix(plan)
    ensures p.sched.completedCount <= |plan| && A.Fits(p.sched)
  {
    assert Redispatched(plan, p.sched.nextUndispatched) == {};
    InStateBounded(p.sched.chunks, Completed);
  }

  /** What every reachable state satisfies. */
  lemma TargetAndCount(cfg: Config, src: seq<byte>, now: nat, es: seq<T.Event>)
    requires ValidConfig(cfg) && cfg.streamMode
    requires T.Legal(T.Init(cfg, PlanOf(|src|, cfg.splitSize), now), es, src)
    ensures var s0 := T.Init(cfg, PlanOf(|src|, cfg.splitSize), now);
            var t, first := T.Exec(s0, es, src).pool.sched, NewSched(cfg, PlanOf(|src|, cfg.splitSize)).effectiveTarget;
            && t.cfg == cfg && t.effectiveTarget <= cfg.connections && t.completedCount <= |PlanOf(|src|, cfg.splitSize)|
            && Capped(t, first)
  {
    var plan := PlanOf(|src|, cfg.splitSize);
    PlanIsLayout(|src|, cfg.splitSize);
    PlanPending(|src|, cfg.splitSize);
    InitFits(cfg, plan, now);
    hide T.Exec, T.Legal, Layout, Inv, T.SinkInv, Init, IsPrefix, PlanOf, NewSched;
    T.Reachable(cfg, plan, src, now, es);
    AtMostAll(T.Exec(T.Init(cfg, plan, now), es, src).pool, plan);
    RunCapped(T.Init(cfg, plan, now), es, src, NewSched(cfg, plan).effectiveTarget);
    hide A.Fits;
  }

  lemma KeptBy(cfg: Config, src: seq<byte>, now: nat, es: seq<T.Event>)
    requires ValidConfig(cfg) && cfg.streamMode
    requires cfg.connections * cfg.splitSize <= cfg.bufferSize ||
             (cfg.splitSize <= cfg.bufferSize && |PlanOf(|src|, cfg.splitSize)| <= 3)
    requires T.Legal(T.Init(cfg, PlanOf(|src|, cfg.splitSize), now), es, src)
    ensures Permitted(T.Exec(T.Init(cfg, PlanOf(|src|, cfg.splitSize), now), es, src).pool)
  {
    var plan := PlanOf(|src|, cfg.splitSize);
    TargetAndCount(cfg, src, now, es);
    var t := T.Exec(T.Init(cfg, plan, now), es, src).pool.sched;
    hide T.Exec, T.Legal, T.Init, PlanOf;
    H.InitialTargetExactly(cfg, plan);
    hide NewSched;
    if cfg.connections * cfg.splitSize <= cfg.bufferSize {
      Fewer(t.effectiveTarget, cfg.connections, cfg.splitSize, cfg.bufferSize);
    } else {
      Fewer(t.effectiveTarget, NewSched(cfg, plan).effectiveTarget, cfg.splitSize, cfg.bufferSize);
    }
  }

  // ----- settings that do not

  /** All chunks are written; workers from v on are still to ask, and v of them have. */
  ghost predicate AllServed(s: T.Stream, cfg: Config, v: nat) {
    && s.pool.sched.cfg == cfg && cfg.streamMode && s.glance.None?
    && !s.pool.rootDone && !s.pool.sched.cancelled && !s.pool.sched.fatal
    && s.pool.sched.completedCount >= |s.pool.sched.chunks| && s.pool.sched.completedCount >= 4
    && s.sink.nextIndex >= |s.pool.sched.chunks|
    && v <= |s.pool.workers| == cfg.connections && (forall w :: v <= w < |s.pool.workers| ==> s.pool.workers[w].pc == Head)
    && Min(cfg.connections, v + 1) <= s.pool.sched.effectiveTarget <= cfg.connections
  }

  function Asking(s: T.Stream, v: nat): T.Stream
    requires Stands(s.pool, v, Head) && Stands(CheckRootStep(s.pool, v), v, Look)
  {
    var a := s.(pool := CheckRootStep(s.pool, v));
    a.(pool := LookStep(a.pool, v, a.sink.nextIndex, a.sink.reserved, a.sink.bufferSize))
  }

  lemma AskRaises(s: T.Stream, cfg: Config, v: nat)
    requires AllServed(s, cfg, v) && v < cfg.connections && s.pool.sched.cooldownUntil < s.pool.now
    ensures Stands(s.pool, v, Head) && Stands(CheckRootStep(s.pool, v), v, Look)
    ensures var b := Asking(s, v);
            Stands(b.pool, v, Ask) && b.glance.None? && AllServed(b.(pool := AskStep(b.pool, v)), cfg, v + 1)
  {
    hide FirstRetryable;
  }

  /** The workers ask one after the other, each after the cooldown, and each question raises the target. */
  lemma {:induction false} AllAsk(s0: T.Stream, s: T.Stream, cfg: Config, src: seq<byte>, v: nat) returns (r: T.Stream)
    requires Reaches(s0, s, src) && AllServed(s, cfg, v)
    ensures Reaches(s0, r, src) && r.pool.sched.effectiveTarget >= cfg.connections && r.pool.sched.cfg == cfg
    decreases cfg.connections - v
  {
    if v == cfg.connections {
      r := s;
    } else {
      var k: nat := Max(0, s.pool.sched.cooldownUntil - s.pool.now + 1);
      var t := Later(s, k);
      assert AllServed(t, cfg, v);
      AskRaises(t, cfg, v);
      hide Reaches, AllServed, CheckRootStep, LookStep, AskStep;
      DoTick(s0, s, src, k);
      DoCheckRoot(s0, t, src, v);
      DoLook(s0, t.(pool := CheckRootStep(t.pool, v)), src, v);
      DoAsk(s0, Asking(t, v), src, v);
      r := AllAsk(s0, Asking(t, v).(pool := AskStep(Asking(t, v).pool, v)), cfg, src, v + 1);
    }
  }

  lemma ServedAll(s: T.Stream, cfg: Config, plan: seq<Chunk>)
    requires Served(s, cfg, plan, |plan|) && |plan| >= 4 && s.pool.sched.effectiveTarget <= cfg.connections
    ensures AllServed(s, cfg, 0)
  {
    assert AtHead(s.pool, 0);
  }

  lemma TargetOf(cfg: Config, plan: seq<Chunk>, src: seq<byte>, now: nat, s: T.Stream)
    requires T.ValidSetup(cfg, plan, src) && Reaches(T.Init(cfg, plan, now), s, src)
    ensures s.pool.sched.effectiveTarget <= cfg.connections
  {
    var es :| T.Legal(T.Init(cfg, plan, now), es, src) && T.Exec(T.Init(cfg, plan, now), es, src) == s;
    T.Reachable(cfg, plan, src, now, es);
  }

  /** With four chunks or more the target reaches the number of connections, whatever the buffer. */
  lemma ReachesConnections(cfg: Config, src: seq<byte>, now: nat) returns (r: T.Stream)
    requires ValidConfig(cfg) && cfg.streamMode && cfg.connections >= 2 && cfg.splitSize <= cfg.bufferSize
    requires |PlanOf(|src|, cfg.splitSize)| >= 4
    ensures Reaches(T.Init(cfg, PlanOf(|src|, cfg.splitSize), now), r, src)
    ensures r.pool.sched.effectiveTarget >= cfg.connections && r.pool.sched.cfg == cfg
  {
    var plan := PlanOf(|src|, cfg.splitSize);
    var s0 := T.Init(cfg, plan, now);
    PlanIsLayout(|src|, cfg.splitSize);
    StartServed(cfg, plan, src, now);
    ReachSelf(s0, src);
    hide Layout, Served, Reaches, T.Init;
    var s := Serve(s0, s0, cfg, plan, src, 0, |plan| - 1);
    var t := ServeOne(s0, s, cfg, plan, src, |plan| - 1);
    TargetOf(cfg, plan, src, now, t);
    ServedAll(t, cfg, plan);
    r := AllAsk(s0, t, cfg, src, 0);
  }

  lemma BrokenAt(cfg: Config, plan: seq<Chunk>, src: seq<byte>, now: nat, r: T.Stream)
    requires ValidConfig(cfg) && Reaches(T.Init(cfg, plan, now), r, src) && !Permitted(r.pool)
    ensures !AlwaysPermitted(cfg, plan, src, now)
  {
    var es :| T.Legal(T.Init(cfg, plan, now), es, src) && T.Exec(T.Init(cfg, plan, now), es, src) == r;
  }

  lemma NoRoomForOne(cfg: Config, plan: seq<Chunk>, src: seq<byte>, now: nat)
    requires ValidConfig(cfg) && cfg.splitSize > cfg.bufferSize
    ensures !AlwaysPermitted(cfg, plan, src, now)
  {
    var s := T.Init(cfg, plan, now);
    InitFits(cfg, plan, now);
    ReachSelf(s, src);
    OneTooLarge(s.pool);
    hide T.Init, Reaches, AlwaysPermitted, Permitted;
    BrokenAt(cfg, plan, src, now, s);
  }

  lemma OneTooLarge(p: Pool)
    requires A.Fits(p.sched) && p.sched.cfg.splitSize > p.sched.cfg.bufferSize >= 0
    ensures !Permitted(p)
  {
    if Permitted(p) { Fewer(1, p.sched.effectiveTarget, p.sched.cfg.splitSize, p.sched.cfg.bufferSize); }
  }

  lemma AllTooMany(p: Pool, cfg: Config)
    requires ValidConfig(cfg) && p.sched.cfg == cfg && p.sched.effectiveTarget >= cfg.connections
    requires cfg.connections * cfg.splitSize > cfg.bufferSize
    ensures !Permitted(p)
  {
    if Permitted(p) { Fewer(cfg.connections, p.sched.effectiveTarget, cfg.splitSize, cfg.bufferSize); }
  }

  lemma NotKeptBy(cfg: Config, src: seq<byte>, now: nat)
    requires ValidConfig(cfg) && cfg.streamMode && cfg.connections * cfg.splitSize > cfg.bufferSize
    requires cfg.splitSize > cfg.bufferSize || |PlanOf(|src|, cfg.splitSize)| >= 4
    ensures !AlwaysPermitted(cfg, PlanOf(|src|, cfg.splitSize), src, now)
  {
    var plan := PlanOf(|src|, cfg.splitSize);
    hide T.Init, Reaches, AlwaysPermitted, Permitted, PlanOf;
    if cfg.splitSize > cfg.bufferSize {
      NoRoomForOne(cfg, plan, src, now);
    } else {
      var r := ReachesConnections(cfg, src, now);
      AllTooMany(r.pool, cfg);
      BrokenAt(cfg, plan, src, now, r);
    }
  }

  /** The memory capacity, exactly. In every run of a download to a stream the buffer holds a full chunk for each worker of
      the target, if and only if it holds one for each connection, or holds one and the object has at most three chunks. */
  lemma CapacityExactly(cfg: Config, src: seq<byte>, now: nat)
    requires ValidConfig(cfg) && cfg.streamMode
    ensures AlwaysPermitted(cfg, PlanOf(|src|, cfg.splitSize), src, now) <==>
            cfg.connections * cfg.splitSize <= cfg.bufferSize ||
            (cfg.splitSize <= cfg.bufferSize && |PlanOf(|src|, cfg.splitSize)| <= 3)
  {
    var plan := PlanOf(|src|, cfg.splitSize);
    hide T.Init, PlanOf, T.Exec, T.Legal, Permitted;
    if cfg.connections * cfg.splitSize <= cfg.bufferSize || (cfg.splitSize <= cfg.bufferSize && |plan| <= 3) {
      forall es | T.Legal(T.Init(cfg, plan, now), es, src) ensures Permitted(T.Exec(T.Init(cfg, plan, now), es, src).pool) {
        KeptBy(cfg, src, now, es);
      }
    } else {
      NotKeptBy(cfg, src, now);
    }
  }

  // ----- while chunks are still to be given out

  /** The fifth chunk is given out under a target that no longer fits the buffer. */
  lemma FifthAsk(s: T.Stream, cfg: Config, plan: seq<Chunk>)
    requires Served(s, cfg, plan, 4) && |plan| >= 5 && s.pool.sched.effectiveTarget < cfg.connections
    requires s.pool.sched.cooldownUntil < s.pool.now && NotOffered(s)
    ensures Stands(s.pool, 0, Head) && Stands(CheckRootStep(s.pool, 0), 0, Look)
    ensures var b := Asking(s, 0);
            && Stands(b.pool, 0, Ask)
            && AskStep(b.pool, 0).workers[0].pc == Reserving && AskStep(b.pool, 0).workers[0].i == 4
            && AskStep(b.pool, 0).sched.effectiveTarget == s.pool.sched.effectiveTarget + 1 && AskStep(b.pool, 0).sched.cfg == cfg
  {
    hide HedgeEligible;
    NoneDue(s.pool.sched.chunks, s.pool.now);
    hide FirstRetryable;
  }

  lemma LaterServed(s: T.Stream, cfg: Config, plan: seq<Chunk>, k: nat)
    requires Served(s, cfg, plan, 4) && |plan| >= 5
    ensures Served(Later(s, k), cfg, plan, 4) && NotOffered(Later(s, k))
    ensures s.pool.sched.effectiveTarget == InitialTarget(cfg, |plan|)
  {
  }

  /** An object that does not fit in the buffer, in five chunks or more, and more connections than full chunks fit: four
      chunks are transferred, and with the fifth a worker is given more company than the buffer has room for. */
  lemma GivenPastCapacity(cfg: Config, plan: seq<Chunk>, src: seq<byte>, now: nat) returns (s: T.Stream)
    requires T.ValidSetup(cfg, plan, src) && (forall i :: 0 <= i < |plan| ==> !plan[i].hedged && plan[i].length <= cfg.splitSize)
    requires cfg.splitSize <= cfg.bufferSize < cfg.connections * cfg.splitSize && cfg.bufferSize < |plan| * cfg.splitSize && |plan| >= 5
    ensures Reaches(T.Init(cfg, plan, now), s, src) && Stands(s.pool, 0, Ask)
    ensures AskStep(s.pool, 0).workers[0].pc == Reserving && !Permitted(AskStep(s.pool, 0))
  {
    var s0 := T.Init(cfg, plan, now);
    var first := InitialTarget(cfg, |plan|);
    FirstIs(cfg, plan, first);
    FullFirst(cfg, |plan|, first);
    StartServed(cfg, plan, src, now);
    ReachSelf(s0, src);
    hide Layout, Served, Reaches, T.Init, NotOffered, InitialTarget, CheckRootStep, LookStep, AskStep, Asking, NewSched;
    var a := Serve(s0, s0, cfg, plan, src, 0, 4);
    var k: nat := Max(0, a.pool.sched.cooldownUntil - a.pool.now + 1);
    var t := Later(a, k);
    LaterServed(a, cfg, plan, k);
    FifthAsk(t, cfg, plan);
    GlanceOf(t, cfg, plan);
    DoTick(s0, a, src, k);
    DoCheckRoot(s0, t, src, 0);
    s := AsksAfterLook(s0, t, src);
  }

  lemma AsksAfterLook(s0: T.Stream, t: T.Stream, src: seq<byte>) returns (s: T.Stream)
    requires Stands(t.pool, 0, Head) && Stands(CheckRootStep(t.pool, 0), 0, Look) && t.glance.None?
    requires Reaches(s0, t.(pool := CheckRootStep(t.pool, 0)), src)
    ensures s == Asking(t, 0) && Reaches(s0, s, src)
  {
    hide Reaches, CheckRootStep, LookStep;
    DoLook(s0, t.(pool := CheckRootStep(t.pool, 0)), src, 0);
    s := Asking(t, 0);
  }

  lemma FirstIs(cfg: Config, plan: seq<Chunk>, first: int)
    requires ValidConfig(cfg) && first == InitialTarget(cfg, |plan|)
    ensures 1 <= first <= cfg.connections
  {
    H.InitialTargetExactly(cfg, plan);
  }

  lemma GlanceOf(s: T.Stream, cfg: Config, plan: seq<Chunk>)
    requires Served(s, cfg, plan, 4)
    ensures s.glance.None?
  {
  }

  /** The first target already takes the whole buffer. */
  lemma FullFirst(cfg: Config, n: nat, first: int)
    requires ValidConfig(cfg) && cfg.streamMode && first == InitialTarget(cfg, n)
    requires cfg.splitSize <= cfg.bufferSize < cfg.connections * cfg.splitSize && cfg.bufferSize < n * cfg.splitSize
    ensures first < cfg.connections && (first + 1) * cfg.splitSize > cfg.bufferSize
  {
    H.Quotient(cfg.bufferSize, cfg.splitSize);
    var m := cfg.bufferSize / cfg.splitSize;
    assert 1 * cfg.splitSize <= cfg.bufferSize;
    assert m < cfg.connections && m < n && 1 <= m;
  }
}
