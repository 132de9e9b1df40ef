/** Downloads to a file lose nothing to failed attempts: as long as nothing is cancelled, no failure was final and none is
    about to be, every reachable state of the worker pool has a continuation that succeeds. */
module Recovery {
  import opened Basics
  import opened Chunks
  import opened Backoff
  import opened Scheduling
  import opened WorkerPool
  import opened PoolInvariants
  import opened PoolTheorems
  import opened PoolBudget
  import opened ResumeGaps

  // ----- a worker returns nil only when the counter is full

  ghost predicate OkMeansDone(p: Pool) {
    forall w :: 0 <= w < |p.workers| && p.workers[w].pc == Exited && p.workers[w].ok ==>
      p.sched.completedCount >= |p.sched.chunks|
  }

  lemma CounterGrows(p: Pool, plan: seq<Chunk>, e: Event)
    requires ValidPlan(plan) && Inv(p, plan) && Enabled(p, e)
    ensures Apply(p, e).sched.completedCount >= p.sched.completedCount
    ensures |Apply(p, e).sched.chunks| == |p.sched.chunks|
    ensures |Apply(p, e).workers| == |p.workers| && (!IsAmbient(e) ==> e.w < |p.workers|)
    ensures forall v :: 0 <= v < |p.workers| && (IsAmbient(e) || v != e.w) ==> Apply(p, e).workers[v] == p.workers[v]
  {
    if IsAmbient(e) {
      AmbientUntouched(p, e);
    } else {
      CallMoves(p, plan, e);
      hide Apply, Enabled, Subject;
    }
  }

  /** Only the answer AllDone lets a worker return nil. */
  lemma ReturnsWhenDone(p: Pool, e: Event)
    requires Enabled(p, e) && !IsAmbient(e) && e.w < |p.workers| == |Apply(p, e).workers|
    requires Apply(p, e).workers[e.w].pc == Exited && Apply(p, e).workers[e.w].ok
    ensures Apply(p, e).sched.completedCount >= |Apply(p, e).sched.chunks|
  {
    if e.CallNextAssignment? {
      AskReturns(p, e.w);
    } else {
      hide HedgeEligible, StartHedge, NextAssignment, MarkComplete, MarkFailed, OnAdmissionFailure, OnWorkerSuccess, CancelHedge;
    }
  }

  lemma AskReturns(p: Pool, w: nat)
    requires Stands(p, w, Ask) && w < |AskStep(p, w).workers| && AskStep(p, w).workers[w].pc == Exited && AskStep(p, w).workers[w].ok
    ensures AskStep(p, w).sched.completedCount >= |AskStep(p, w).sched.chunks|
  {
    hide TryAssign;
  }

  lemma StepOkMeansDone(p: Pool, plan: seq<Chunk>, e: Event)
    requires ValidPlan(plan) && Inv(p, plan) && Enabled(p, e) && OkMeansDone(p)
    ensures OkMeansDone(Apply(p, e))
  {
    var q := Apply(p, e);
    CounterGrows(p, plan, e);
    if !IsAmbient(e) && q.workers[e.w].pc == Exited && q.workers[e.w].ok { ReturnsWhenDone(p, e); }
    hide Apply, Enabled, Inv;
  }

  /** What is known of every reachable state of a download to a file. */
  ghost predicate Sound(p: Pool, plan: seq<Chunk>, cfg: Config) {
    Inv(p, plan) && Unrepeated(p, cfg) && OkMeansDone(p)
  }

  lemma {:induction false} RunSound(p: Pool, plan: seq<Chunk>, cfg: Config, es: seq<Event>)
    requires ValidConfig(cfg) && !cfg.streamMode && ValidPlan(plan) && Sound(p, plan, cfg) && Legal(p, es)
    ensures Sound(Exec(p, es), plan, cfg)
    decreases |es|
  {
    hide Apply, Enabled, Inv, Unrepeated, ValidPlan, OkMeansDone;
    if es != [] {
      StepKeeps(p, plan, es[0]);
      StepUnrepeated(p, plan, cfg, es[0]);
      StepOkMeansDone(p, plan, es[0]);
      RunSound(Apply(p, es[0]), plan, cfg, es[1..]);
    }
  }

  lemma InitSound(cfg: Config, plan: seq<Chunk>, now: nat)
    requires ValidConfig(cfg) && ValidPlan(plan)
    ensures Sound(Init(cfg, plan, now), plan, cfg)
  {
    InitInv(cfg, plan, now);
    InitUnrepeated(cfg, plan, now);
  }

  // ----- live states

  /** The worker has not failed for good and is not about to. */
  predicate Hopeful(p: Pool, v: Worker) {
    && (v.pc == Exited ==> v.ok) && v.pc != Losing
    && (v.pc in {Turned, Failing} ==> v.i < |p.sched.chunks| && p.sched.chunks[v.i].attempts < p.sched.cfg.maxTries)
  }

  ghost predicate Live(p: Pool) {
    && Undisturbed(p) && !p.sched.cfg.streamMode
    && forall w :: 0 <= w < |p.workers| ==> Hopeful(p, p.workers[w])
  }

  /** The calls the worker still makes before it is back at the beginning of its loop. */
  function Ahead(pc: PC): nat {
    match pc
    case Reserving => 7
    case Opening => 6
    case Reading => 5
    case Delivering => 4
    case Reporting => 3
    case Turned => 2
    case Finishing => 1
    case Failing => 1
    case _ => 0
  }

  /** The next call of a worker for which all goes well from now on. */
  function Onward(p: Pool, w: nat): Event
    requires w < |p.workers|
  {
    match p.workers[w].pc
    case Reserving => CallReserve(w, true)
    case Opening => CallOpenRange(w, true)
    case Reading => CallReadFull(w, true)
    case Delivering => CallDeliver(w, true)
    case Reporting => CallOnWorkerSuccess(w)
    case Turned => CallOnAdmissionFailure(w)
    case Finishing => CallMarkComplete(w)
    case _ => CallMarkFailed(w)
  }

  /** Attempts are counted when a chunk is given out, and only then. */
  ghost predicate SameAttempts(s: Sched, t: Sched) {
    && |t.chunks| == |s.chunks| && t.cfg == s.cfg && t.cancelled == s.cancelled && t.fatal == s.fatal
    && forall i :: 0 <= i < |s.chunks| ==> t.chunks[i].attempts == s.chunks[i].attempts
  }

  lemma SettlingAttempts(s: Sched, i: nat, now: int)
    requires i < |s.chunks|
    ensures SameAttempts(s, MarkComplete(s, i, now))
    ensures s.chunks[i].attempts < s.cfg.maxTries ==> SameAttempts(s, MarkFailed(s, i, true, now))
  {
    hide RetryBackoff;
  }

  lemma ReportingAttempts(s: Sched, slot: int, bytes: int, d: int, now: int)
    ensures SameAttempts(s, OnAdmissionFailure(s, slot, now)) && SameAttempts(s, OnWorkerSuccess(s, slot, bytes, d, now))
  {
  }

  /** One such call. */
  ghost predicate MovedOn(p: Pool, q: Pool, w: nat) {
    && w < |p.workers| == |q.workers| && Ahead(q.workers[w].pc) < Ahead(p.workers[w].pc)
    && (forall v :: 0 <= v < |p.workers| && v != w ==> q.workers[v] == p.workers[v])
    && SameAttempts(p.sched, q.sched) && q.work >= p.work && q.now == p.now
    && q.rootDone == p.rootDone && q.firstErr == p.firstErr && q.verdict == p.verdict
    && (q.workers[w].pc in {Turned, Failing} ==> p.workers[w].pc in {Turned, Failing} && q.workers[w].i == p.workers[w].i)
    && q.workers[w].pc !in {Exited, Losing}
  }

  lemma TransferOn(p: Pool, w: nat)
    requires w < |p.workers| && p.workers[w].pc in {Reserving, Opening, Reading, Delivering} && !p.workers[w].hedge
    ensures Enabled(p, Onward(p, w)) && MovedOn(p, Apply(p, Onward(p, w)), w)
  {
  }

  lemma SettleOn(p: Pool, w: nat)
    requires w < |p.workers| && p.workers[w].pc in {Reporting, Turned, Finishing, Failing} && p.workers[w].i < |p.sched.chunks|
    requires Hopeful(p, p.workers[w])
    ensures Enabled(p, Onward(p, w)) && MovedOn(p, Apply(p, Onward(p, w)), w)
  {
    var v := p.workers[w];
    var c := p.sched.chunks[v.i];
    SettlingAttempts(p.sched, v.i, p.now);
    ReportingAttempts(p.sched, v.slot, c.length, p.now - c.startTime, p.now);
    hide MarkComplete, MarkFailed, OnAdmissionFailure, OnWorkerSuccess, SameAttempts;
  }

  lemma StaysLive(p: Pool, q: Pool, w: nat)
    requires Live(p) && MovedOn(p, q, w)
    ensures Live(q)
  {
  }

  lemma OneCall(p0: Pool, p: Pool, plan: seq<Chunk>, cfg: Config, w: nat) returns (q: Pool)
    requires Reaches(p0, p) && Sound(p, plan, cfg) && Live(p) && w < |p.workers| && Ahead(p.workers[w].pc) > 0
    ensures Reaches(p0, q) && Live(q) && MovedOn(p, q, w)
  {
    InRange(p, plan, cfg, w);
    if p.workers[w].pc in {Reserving, Opening, Reading, Delivering} { TransferOn(p, w); } else { SettleOn(p, w); }
    hide Reaches, Live, MovedOn, Apply, Enabled;
    q := Apply(p, Onward(p, w));
    Reach(p0, p, Onward(p, w));
    StaysLive(p, q, w);
  }

  lemma InRange(p: Pool, plan: seq<Chunk>, cfg: Config, w: nat)
    requires Sound(p, plan, cfg) && w < |p.workers|
    ensures !p.workers[w].hedge && |p.sched.chunks| == |plan|
    ensures HasChunk(p.workers[w]) ==> p.workers[w].i < |p.sched.chunks|
    ensures p.workers[w].pc !in {Dropping, Won} && (!cfg.streamMode ==> p.workers[w].pc !in {Look, Start})
  {
  }

  /** The worker holds nothing. */
  predicate AtRest(v: Worker) { Ahead(v.pc) == 0 }

  /** What settling leaves alone. */
  ghost predicate Onwards(p: Pool, q: Pool) {
    |q.workers| == |p.workers| && q.work >= p.work && forall v :: 0 <= v < |p.workers| && AtRest(p.workers[v]) ==> AtRest(q.workers[v])
  }

  ghost predicate AllSound(p0: Pool, plan: seq<Chunk>, cfg: Config) {
    forall k :: Reaches(p0, k) ==> Sound(k, plan, cfg)
  }

  lemma {:induction false} Settle(p0: Pool, p: Pool, plan: seq<Chunk>, cfg: Config, w: nat) returns (q: Pool)
    requires Reaches(p0, p) && AllSound(p0, plan, cfg) && Live(p) && w < |p.workers|
    ensures Reaches(p0, q) && Live(q) && Onwards(p, q) && AtRest(q.workers[w])
    decreases Ahead(p.workers[w].pc)
  {
    if AtRest(p.workers[w]) {
      q := p;
    } else {
      assert Sound(p, plan, cfg);
      hide Sound, Reaches, Live, AllSound;
      var r := OneCall(p0, p, plan, cfg, w);
      q := Settle(p0, r, plan, cfg, w);
      OnwardsTwice(p, r, q, w);
    }
  }

  lemma OnwardsTwice(p: Pool, r: Pool, q: Pool, w: nat)
    requires MovedOn(p, r, w) && Onwards(r, q) && !AtRest(p.workers[w])
    ensures Onwards(p, q)
  {
    forall v | 0 <= v < |p.workers| && AtRest(p.workers[v]) ensures AtRest(q.workers[v]) {
      assert r.workers[v] == p.workers[v];
    }
  }

  ghost predicate AtRestBefore(p: Pool, w: nat) {
    w <= |p.workers| && forall v :: 0 <= v < w ==> AtRest(p.workers[v])
  }

  lemma OneMoreAtRest(p: Pool, q: Pool, w: nat)
    requires AtRestBefore(p, w) && w < |p.workers| && Onwards(p, q) && AtRest(q.workers[w])
    ensures AtRestBefore(q, w + 1) && |q.workers| == |p.workers| && q.work >= p.work
  {
  }

  /** All workers from w on come to rest. */
  lemma {:induction false} SettleAll(p0: Pool, p: Pool, plan: seq<Chunk>, cfg: Config, w: nat) returns (q: Pool)
    requires Reaches(p0, p) && AllSound(p0, plan, cfg) && Live(p) && AtRestBefore(p, w)
    ensures Reaches(p0, q) && Live(q) && q.work >= p.work && AtRestBefore(q, |q.workers|)
    decreases |p.workers| - w
  {
    if w == |p.workers| {
      q := p;
    } else {
      AtRestWithin(p, w);
      hide *;
      var r := Settle(p0, p, plan, cfg, w);
      OneMoreAtRest(p, r, w);
      q := SettleAll(p0, r, plan, cfg, w + 1);
    }
  }

  lemma AtRestWithin(p: Pool, w: nat)
    requires AtRestBefore(p, w)
    ensures w <= |p.workers|
  {
  }

  // ----- the next chunk

  lemma SoundParts(p: Pool, plan: seq<Chunk>, cfg: Config)
    requires Sound(p, plan, cfg)
    ensures Inv(p, plan) && Ownership(p) && Tickets(p) && Timing(p) && Budget(p) && p.hedges == 0 && OkMeansDone(p)
    ensures |p.sched.chunks| == |plan| && p.sched.effectiveTarget >= 1 && |p.workers| == cfg.connections && p.sched.cfg == cfg
    ensures forall w :: 0 <= w < |p.workers| ==> !p.workers[w].hedge
  {
  }

  lemma HoldsNothing(p: Pool, w: nat, i: nat)
    requires Live(p) && AtRestBefore(p, |p.workers|)
    ensures !Holds(p, w, i)
  {
    assert w < |p.workers| ==> AtRest(p.workers[w]) && Hopeful(p, p.workers[w]);
  }

  /** Nothing is under way, so no ticket is out. */
  lemma NothingActive(p: Pool)
    requires Ownership(p) && Tickets(p) && (forall w :: 0 <= w < |p.workers| ==> !p.workers[w].hedge)
    requires Live(p) && AtRestBefore(p, |p.workers|)
    ensures p.sched.activeCount == 0
  {
    forall i: nat, w: nat ensures !Holds(p, w, i) { HoldsNothing(p, w, i); }
    assert InState(p.sched.chunks, Active) == {};
    assert HedgeTickets(p.workers) == {};
  }

  function Later(p: Pool): Pool { p.(now := p.now + COOLDOWN) }

  lemma AskLive(p: Pool, w: nat)
    requires Live(p) && Stands(p, w, Ask) && NextAssignment(p.sched, p.workers[w].slot, p.rootDone, p.now).1.Assigned?
    requires AtRestBefore(p, |p.workers|)
    ensures var q := AskStep(p, w); Live(q) && q.work == p.work + 1 && |q.workers| == |p.workers|
  {
    NextAssignmentEffect(p.sched, p.workers[w].slot, p.rootDone, p.now);
    assert forall v :: 0 <= v < |p.workers| ==> AtRest(p.workers[v]);
    hide NextAssignment;
  }

  /** 30 s later worker w, about to ask, is given a chunk. */
  lemma Given(p: Pool, plan: seq<Chunk>, w: nat)
    requires Inv(p, plan) && Timing(p) && Live(p) && Stands(p, w, Ask) && p.sched.activeCount == 0
    requires p.sched.completedCount < |p.sched.chunks| == |plan| && p.sched.effectiveTarget >= 1 && AtRestBefore(p, |p.workers|)
    ensures var q := AskStep(Later(p), w); Live(q) && q.work == p.work + 1
  {
    SomethingLeft(p, plan);
    hide Inv;
    SomethingIsGiven(Later(p), p.workers[w].slot);
    LaterLive(p);
    AskLive(Later(p), w);
  }

  lemma LaterLive(p: Pool)
    requires Live(p)
    ensures Live(Later(p)) && (AtRestBefore(p, |p.workers|) ==> AtRestBefore(Later(p), |p.workers|))
  {
  }

  /** Worker 0, at rest with chunks missing, is about to ask or comes to ask. */
  lemma ComesToAsk(p0: Pool, p: Pool, plan: seq<Chunk>, cfg: Config) returns (q: Pool)
    requires ValidConfig(cfg) && !cfg.streamMode && Reaches(p0, p) && Sound(p, plan, cfg) && Live(p)
    requires AtRestBefore(p, |p.workers|) && p.sched.completedCount < |plan|
    ensures Reaches(p0, q) && Live(q) && AtRestBefore(q, |q.workers|) && Stands(q, 0, Ask) && q.sched == p.sched && q.work == p.work
  {
    NotReturned(p, plan, cfg);
    if p.workers[0].pc == Ask {
      q := p;
    } else {
      CheckKeepsLive(p);
      hide *;
      q := CheckRootStep(p, 0);
      Reach(p0, p, CheckRoot(0));
    }
  }

  lemma NotReturned(p: Pool, plan: seq<Chunk>, cfg: Config)
    requires ValidConfig(cfg) && !cfg.streamMode && Sound(p, plan, cfg) && Live(p)
    requires AtRestBefore(p, |p.workers|) && p.sched.completedCount < |plan|
    ensures Stands(p, 0, Head) || Stands(p, 0, Ask)
  {
    SoundParts(p, plan, cfg);
    InRange(p, plan, cfg, 0);
    hide Sound, Inv, Ownership, Tickets, Timing, Budget;
    assert AtRest(p.workers[0]);
  }

  lemma CheckKeepsLive(p: Pool)
    requires Live(p) && AtRestBefore(p, |p.workers|) && Stands(p, 0, Head)
    ensures Enabled(p, CheckRoot(0)) && Apply(p, CheckRoot(0)) == CheckRootStep(p, 0)
    ensures var q := CheckRootStep(p, 0);
            Live(q) && AtRestBefore(q, |q.workers|) && Stands(q, 0, Ask) && q.sched == p.sched && q.work == p.work
  {
  }

  /** With chunks missing, one more is given out. */
  lemma Advance(p0: Pool, p: Pool, plan: seq<Chunk>, cfg: Config) returns (q: Pool)
    requires ValidConfig(cfg) && !cfg.streamMode && Reaches(p0, p) && AllSound(p0, plan, cfg) && Live(p)
    requires AtRestBefore(p, |p.workers|) && p.sched.completedCount < |plan|
    ensures Reaches(p0, q) && Live(q) && q.work == p.work + 1
  {
    assert Sound(p, plan, cfg);
    hide Sound, Reaches, AllSound, Live, AtRestBefore;
    var r := ComesToAsk(p0, p, plan, cfg);
    SoundAt(p0, r, plan, cfg);
    SoundParts(r, plan, cfg);
    NothingActive(r);
    Given(r, plan, 0);
    Reach(p0, r, Tick(COOLDOWN));
    Reach(p0, Later(r), CallNextAssignment(0));
    q := AskStep(Later(r), 0);
  }

  lemma SoundAt(p0: Pool, p: Pool, plan: seq<Chunk>, cfg: Config)
    requires AllSound(p0, plan, cfg) && Reaches(p0, p)
    ensures Sound(p, plan, cfg)
  {
  }

  // ----- everybody returns

  /** The counter is full and everybody is at rest; the workers before w have been collected. */
  ghost predicate Departing(p: Pool, w: nat) {
    && Live(p) && AtRestBefore(p, |p.workers|) && w <= |p.workers| && p.sched.completedCount >= |p.sched.chunks|
    && forall v :: 0 <= v < w ==> v in p.collected
  }

  lemma AskLeaves(p: Pool, w: nat)
    requires Departing(p, w) && Stands(p, w, Ask)
    ensures Departing(AskStep(p, w), w) && Stands(AskStep(p, w), w, Exited)
    ensures |AskStep(p, w).workers| == |p.workers|
  {
  }

  lemma CheckLeaves(p: Pool, w: nat)
    requires Departing(p, w) && Stands(p, w, Head)
    ensures Departing(CheckRootStep(p, w), w) && Stands(CheckRootStep(p, w), w, Ask)
    ensures |CheckRootStep(p, w).workers| == |p.workers|
  {
  }

  lemma CollectLeaves(p: Pool, w: nat)
    requires Departing(p, w) && Stands(p, w, Exited)
    ensures Departing(CollectStep(p, w), w + 1) && |CollectStep(p, w).workers| == |p.workers|
  {
  }

  /** Worker w returns nil and is collected. */
  lemma DepartOne(p0: Pool, p: Pool, w: nat) returns (q: Pool)
    requires Reaches(p0, p) && Departing(p, w) && w < |p.workers| && p.workers[w].pc in {Head, Ask, Exited}
    ensures Reaches(p0, q) && Departing(q, w + 1) && |q.workers| == |p.workers|
  {
    var a := p;
    if p.workers[w].pc == Head {
      CheckLeaves(p, w);
      Reach(p0, p, CheckRoot(w));
      a := CheckRootStep(p, w);
    }
    var b := a;
    if Stands(a, w, Ask) {
      AskLeaves(a, w);
      Reach(p0, a, CallNextAssignment(w));
      b := AskStep(a, w);
    }
    hide Reaches, Departing, AskStep, CheckRootStep;
    if w in b.collected {
      q := b;
      CollectedAlready(b, w);
    } else {
      CollectLeaves(b, w);
      Reach(p0, b, Collect(w));
      q := CollectStep(b, w);
    }
  }

  lemma CollectedAlready(p: Pool, w: nat)
    requires Departing(p, w) && w in p.collected && w < |p.workers|
    ensures Departing(p, w + 1)
  {
  }

  lemma RestingPlaces(p: Pool, plan: seq<Chunk>, cfg: Config, w: nat)
    requires Sound(p, plan, cfg) && !cfg.streamMode && Departing(p, w) && w < |p.workers|
    ensures p.workers[w].pc in {Head, Ask, Exited}
  {
    InRange(p, plan, cfg, w);
    assert AtRest(p.workers[w]);
  }

  lemma {:induction false} DepartAll(p0: Pool, p: Pool, plan: seq<Chunk>, cfg: Config, w: nat) returns (q: Pool)
    requires Reaches(p0, p) && AllSound(p0, plan, cfg) && !cfg.streamMode && Departing(p, w)
    ensures Reaches(p0, q) && Departing(q, |q.workers|)
    decreases |p.workers| - w
  {
    DepartWithin(p, w);
    SoundAt(p0, p, plan, cfg);
    if w == |p.workers| {
      q := p;
    } else {
      RestingPlaces(p, plan, cfg, w);
      hide *;
      var r := DepartOne(p0, p, w);
      q := DepartAll(p0, r, plan, cfg, w + 1);
    }
  }

  lemma DepartWithin(p: Pool, w: nat)
    requires Departing(p, w)
    ensures w <= |p.workers|
  {
  }

  lemma Succeeds(p0: Pool, p: Pool) returns (q: Pool)
    requires Reaches(p0, p) && Departing(p, |p.workers|)
    ensures Reaches(p0, q) && q.verdict == Some(true)
  {
    Reach(p0, p, Verdict);
    q := Apply(p, Verdict);
  }

  // ----- the theorem

  lemma WorkBounded(p: Pool, plan: seq<Chunk>, cfg: Config)
    requires Sound(p, plan, cfg) && cfg.maxTries >= 1
    ensures p.work <= 2 * (cfg.maxTries * |plan|)
  {
    AttemptsBounded(p.sched.chunks, cfg.maxTries);
  }

  /** Settle, then leave or give out another chunk; there are only so many attempts. */
  lemma {:induction false} Recover(p0: Pool, p: Pool, plan: seq<Chunk>, cfg: Config) returns (q: Pool)
    requires ValidConfig(cfg) && !cfg.streamMode && Reaches(p0, p) && AllSound(p0, plan, cfg) && Live(p)
    ensures Reaches(p0, q) && q.verdict == Some(true)
    decreases 2 * (cfg.maxTries * |plan|) - p.work
  {
    SoundAt(p0, p, plan, cfg);
    WorkBounded(p, plan, cfg);
    assert AtRestBefore(p, 0);
    hide Sound, Reaches, AllSound, Live, AtRestBefore;
    var r := SettleAll(p0, p, plan, cfg, 0);
    SoundAt(p0, r, plan, cfg);
    SoundParts(r, plan, cfg);
    WorkBounded(r, plan, cfg);
    if r.sched.completedCount >= |plan| {
      NowDeparting(r);
      var s := DepartAll(p0, r, plan, cfg, 0);
      q := Succeeds(p0, s);
    } else {
      var s := Advance(p0, r, plan, cfg);
      q := Recover(p0, s, plan, cfg);
    }
  }

  lemma NowDeparting(p: Pool)
    requires Live(p) && AtRestBefore(p, |p.workers|) && p.sched.completedCount >= |p.sched.chunks|
    ensures Departing(p, 0)
  {
  }

  lemma AlwaysSound(cfg: Config, plan: seq<Chunk>, now: nat, es: seq<Event>)
    requires ValidConfig(cfg) && ValidPlan(plan) && !cfg.streamMode && Legal(Init(cfg, plan, now), es)
    ensures AllSound(Exec(Init(cfg, plan, now), es), plan, cfg)
  {
    var p := Exec(Init(cfg, plan, now), es);
    InitSound(cfg, plan, now);
    hide Init, Sound;
    RunSound(Init(cfg, plan, now), plan, cfg, es);
    forall k | Reaches(p, k) ensures Sound(k, plan, cfg) {
      var more := RunTo(p, k);
      RunSound(p, plan, cfg, more);
    }
  }

  /** No dead end. Every reachable state of a download to a file in which nothing was cancelled, nothing has failed for
      good, and no worker is about to report a failure of the last try, has a continuation that reports success. */
  lemma CanStillSucceed(cfg: Config, plan: seq<Chunk>, now: nat, es: seq<Event>) returns (more: seq<Event>)
    requires ValidConfig(cfg) && ValidPlan(plan) && !cfg.streamMode && Legal(Init(cfg, plan, now), es)
    requires Live(Exec(Init(cfg, plan, now), es))
    ensures Legal(Exec(Init(cfg, plan, now), es), more)
    ensures Exec(Exec(Init(cfg, plan, now), es), more).verdict == Some(true)
  {
    var p := Exec(Init(cfg, plan, now), es);
    AlwaysSound(cfg, plan, now, es);
    ReachSelf(p);
    hide Init, Exec, Legal, Live;
    var q := Recover(p, p, plan, cfg);
    more := RunTo(p, q);
  }
}
