/** When a worker of `workerLoop` is given a chunk (`NextAssignment` and `tryAssignLocked` in
    internal/schedule/scheduler.go), in every state a run of the worker pool can reach. */
module Assignment {
  import opened Chunks
  import opened Stats
  import opened Backoff
  import opened Scheduling
  import opened WorkerPool
  import opened PoolInvariants
  import opened PoolTheorems
  import A = Adaptation
  import H = CallHistory
  import R = Restoration

  // ----- the calls a run makes

  /** The call of the scheduler an event makes, if any. */
  function CallOf(p: Pool, e: Event): (ops: seq<A.Op>)
    requires Enabled(p, e)
    ensures |ops| <= 1
  {
    match e
    case Propagate => [A.Stop]
    case CallStartHedge(w) => [A.Hedge(p.workers[w].i, p.now)]
    case CallNextAssignment(w) => [A.Ask(p.workers[w].slot, p.rootDone, p.now)]
    case CallOnAdmissionFailure(w) => [A.Rejected(p.workers[w].slot, p.now)]
    case CallMarkFailed(w) => [A.Fail(p.workers[w].i, p.workers[w].pc == Failing, p.now)]
    case CallCancelHedge(w) => [A.Unhedge(p.workers[w].i)]
    case CallOnWorkerSuccess(w) =>
      var c := p.sched.chunks[p.workers[w].i];
      [A.Success(p.workers[w].slot, c.length, p.now - c.startTime, p.now)]
    case CallMarkComplete(w) => [A.Complete(p.workers[w].i, p.now)]
    case Collect(w) => if !p.workers[w].ok && !p.firstErr then [A.Stop] else []
    case _ => []
  }

  function Calls(p: Pool, es: seq<Event>): seq<A.Op>
    requires Legal(p, es)
    decreases |es|
  {
    if es == [] then [] else CallOf(p, es[0]) + Calls(Apply(p, es[0]), es[1..])
  }

  lemma RunOne(s: Sched, op: A.Op)
    requires A.Fits(s)
    ensures A.Run(s, [op]) == A.Step(s, op)
  {
    hide A.Step, A.Fits;
  }

  lemma CallTimes(p: Pool, e: Event)
    requires Enabled(p, e)
    ensures p.now <= Apply(p, e).now
    ensures R.Timely(p.now, CallOf(p, e)) && forall op :: op in CallOf(p, e) ==> R.Clock(op, p.now) == p.now
  {
    hide NextAssignment, StartHedge, HedgeEligible, MarkComplete, MarkFailed, OnAdmissionFailure, OnWorkerSuccess, CancelHedge;
  }

  predicate Settles(e: Event) {
    e.CallMarkFailed? || e.CallMarkComplete? || e.CallOnWorkerSuccess? || e.CallOnAdmissionFailure?
  }

  predicate Chooses(e: Event) {
    e.CallStartHedge? || e.CallNextAssignment? || e.CallCancelHedge?
  }

  lemma SettleStep(p: Pool, e: Event)
    requires Enabled(p, e) && A.Fits(p.sched) && Settles(e)
    ensures |CallOf(p, e)| == 1 && Apply(p, e).sched == A.Step(p.sched, CallOf(p, e)[0])
  {
    hide MarkComplete, MarkFailed, OnAdmissionFailure, OnWorkerSuccess, A.Fits;
  }

  lemma ChoiceStep(p: Pool, e: Event)
    requires Enabled(p, e) && A.Fits(p.sched) && Chooses(e)
    ensures |CallOf(p, e)| == 1 && Apply(p, e).sched == A.Step(p.sched, CallOf(p, e)[0])
  {
    hide NextAssignment, StartHedge, CancelHedge, A.Fits;
  }

  lemma OtherStep(p: Pool, e: Event)
    requires Enabled(p, e) && A.Fits(p.sched) && !Settles(e) && !Chooses(e)
    ensures if CallOf(p, e) == [] then Apply(p, e).sched == p.sched
            else |CallOf(p, e)| == 1 && Apply(p, e).sched == A.Step(p.sched, CallOf(p, e)[0])
  {
    hide HedgeEligible, A.Fits;
  }

  lemma CallStep(p: Pool, e: Event)
    requires Enabled(p, e) && A.Fits(p.sched)
    ensures Apply(p, e).sched == A.Run(p.sched, CallOf(p, e)) && A.Fits(Apply(p, e).sched)
  {
    hide Apply, Enabled, CallOf, A.Fits, A.Step, Settles, Chooses;
    if Settles(e) { SettleStep(p, e); } else if Chooses(e) { ChoiceStep(p, e); } else { OtherStep(p, e); }
    if CallOf(p, e) != [] { RunOne(p.sched, CallOf(p, e)[0]); assert CallOf(p, e) == [CallOf(p, e)[0]]; }
  }

  lemma {:induction false} RunAppend(s: Sched, a: seq<A.Op>, b: seq<A.Op>)
    requires A.Fits(s)
    ensures A.Run(s, a + b) == A.Run(A.Run(s, a), b)
    decreases |a|
  {
    hide A.Step, A.Fits;
    if a == [] {
      assert a + b == b;
    } else {
      assert (a + b)[1..] == a[1..] + b;
      RunAppend(A.Step(s, a[0]), a[1..], b);
    }
  }

  lemma TimelyEarlier(before: int, now: int, ops: seq<A.Op>)
    requires before <= now && R.Timely(now, ops)
    ensures R.Timely(before, ops)
    decreases |ops|
  {
    if ops != [] && (ops[0].Unhedge? || ops[0].Stop?) { TimelyEarlier(before, now, ops[1..]); }
  }

  lemma TimelyCons(before: int, a: seq<A.Op>, now: int, b: seq<A.Op>)
    requires |a| <= 1 && R.Timely(before, a) && (forall op :: op in a ==> R.Clock(op, before) == before)
    requires before <= now && R.Timely(now, b)
    ensures R.Timely(before, a + b)
  {
    TimelyEarlier(before, now, b);
    if a == [] {
      assert a + b == b;
    } else {
      assert (a + b)[1..] == b && a[0] in a;
    }
  }

  /** The scheduler's state is what these calls make of the first one, and their clocks never go back. */
  lemma {:induction false} CallsRun(p: Pool, es: seq<Event>)
    requires Legal(p, es) && A.Fits(p.sched)
    ensures Exec(p, es).sched == A.Run(p.sched, Calls(p, es)) && R.Timely(p.now, Calls(p, es)) && p.now <= Exec(p, es).now
    decreases |es|
  {
    hide A.Fits, Apply, CallOf, Enabled, R.Clock;
    if es != [] {
      CallStep(p, es[0]);
      CallTimes(p, es[0]);
      var q, ops := Apply(p, es[0]), CallOf(p, es[0]);
      CallsRun(q, es[1..]);
      RunAppend(p.sched, ops, Calls(q, es[1..]));
      TimelyCons(p.now, ops, q.now, Calls(q, es[1..]));
    }
  }

  lemma {:induction false} TimelyClocked(before: int, ops: seq<A.Op>)
    requires 0 <= before && R.Timely(before, ops)
    ensures A.Clocked(ops) && forall j :: 0 <= j < |ops| && ops[j].Rejected? ==> before <= ops[j].now
    decreases |ops|
  {
    if ops != [] {
      TimelyClocked(R.Clock(ops[0], before), ops[1..]);
      assert forall j :: 1 <= j < |ops| ==> ops[j] == ops[1..][j - 1];
    }
  }

  lemma InitFits(cfg: Config, plan: seq<Chunk>, now: nat)
    requires ValidConfig(cfg)
    ensures A.Fits(Init(cfg, plan, now).sched) && Init(cfg, plan, now).sched == NewSched(cfg, plan) && Init(cfg, plan, now).now == now
    ensures SlotsFit(Init(cfg, plan, now))
  {
  }

  // ----- the workers' slots

  ghost predicate SlotsFit(p: Pool) {
    forall w :: 0 <= w < |p.workers| ==> 0 <= p.workers[w].slot < p.sched.cfg.connections
  }

  lemma StepSlots(p: Pool, e: Event)
    requires Enabled(p, e) && A.Fits(p.sched) && SlotsFit(p)
    ensures A.Fits(Apply(p, e).sched) && SlotsFit(Apply(p, e))
  {
    CallStep(p, e);
    A.ConfigKept(p.sched, CallOf(p, e));
    if e.CallStartHedge? { SlotBorrowed(p, e.w); }
    SlotsAfter(p, e);
    hide *;
    SlotsStillFit(p, Apply(p, e), e);
  }

  /** Only StartHedge lends a worker another slot. */
  lemma SlotsAfter(p: Pool, e: Event)
    requires Enabled(p, e)
    ensures |Apply(p, e).workers| == |p.workers|
    ensures forall w :: 0 <= w < |p.workers| && (e.CallStartHedge? ==> w != e.w) ==> Apply(p, e).workers[w].slot == p.workers[w].slot
  {
    hide Apply, Enabled;
    SameWorkers(p, e);
    forall w: nat | w < |p.workers| && (e.CallStartHedge? ==> w != e.w) ensures Apply(p, e).workers[w].slot == p.workers[w].slot {
      if Settles(e) { SettlingSlot(p, e, w); } else if Chooses(e) { ChoosingSlot(p, e, w); } else { OtherSlot(p, e, w); }
    }
  }

  lemma SettlingSlot(p: Pool, e: Event, w: nat)
    requires Enabled(p, e) && Settles(e) && w < |p.workers| == |Apply(p, e).workers|
    ensures Apply(p, e).workers[w].slot == p.workers[w].slot
  {
    hide MarkComplete, MarkFailed, OnAdmissionFailure, OnWorkerSuccess;
  }

  lemma ChoosingSlot(p: Pool, e: Event, w: nat)
    requires Enabled(p, e) && Chooses(e) && w < |p.workers| == |Apply(p, e).workers| && (e.CallStartHedge? ==> w != e.w)
    ensures Apply(p, e).workers[w].slot == p.workers[w].slot
  {
    hide NextAssignment, StartHedge, CancelHedge;
  }

  lemma OtherSlot(p: Pool, e: Event, w: nat)
    requires Enabled(p, e) && !Settles(e) && !Chooses(e) && w < |p.workers| == |Apply(p, e).workers|
    ensures Apply(p, e).workers[w].slot == p.workers[w].slot
  {
    hide HedgeEligible;
  }

  lemma SlotsStillFit(p: Pool, q: Pool, e: Event)
    requires SlotsFit(p) && |q.workers| == |p.workers| && q.sched.cfg == p.sched.cfg
    requires forall w :: 0 <= w < |p.workers| && (e.CallStartHedge? ==> w != e.w) ==> q.workers[w].slot == p.workers[w].slot
    requires e.CallStartHedge? && e.w < |q.workers| ==> 0 <= q.workers[e.w].slot < q.sched.cfg.connections
    ensures SlotsFit(q)
  {
  }

  lemma SlotBorrowed(p: Pool, w: nat)
    requires Enabled(p, CallStartHedge(w)) && A.Fits(p.sched) && SlotsFit(p)
    ensures |StartHedgeStep(p, w).workers| == |p.workers| && 0 <= StartHedgeStep(p, w).workers[w].slot < p.sched.cfg.connections
  {
  }

  lemma {:induction false} RunSlots(p: Pool, es: seq<Event>)
    requires Legal(p, es) && A.Fits(p.sched) && SlotsFit(p)
    ensures SlotsFit(Exec(p, es))
    decreases |es|
  {
    hide A.Fits, SlotsFit, Apply, Enabled;
    if es != [] {
      StepSlots(p, es[0]);
      RunSlots(Apply(p, es[0]), es[1..]);
    }
  }

  // ----- assignments

  /** In the last 30 s the slot was rejected, and not for the first time in a row. */
  ghost predicate RejectedLately(calls: seq<A.Op>, slot: nat, now: int) {
    exists j: nat :: A.Suppresses(calls, slot, j) && now < calls[j].now + 30 * SECOND
  }

  /** The transfer goes on, a ticket of the target is free, and the slot was not rejected lately. */
  ghost predicate MayBeGiven(p: Pool, calls: seq<A.Op>, slot: nat, target: int) {
    && !p.rootDone && !p.sched.cancelled && p.sched.completedCount < |p.sched.chunks|
    && |InState(p.sched.chunks, Active)| + |HedgeTickets(p.workers)| < target
    && !RejectedLately(calls, slot, p.now)
  }

  ghost predicate Due(p: Pool, i: nat) {
    i < |p.sched.chunks| && p.sched.chunks[i].state == RetryWait && p.sched.chunks[i].retryAfter <= p.now
  }

  /** Worker w has been given chunk i, and nobody anything else. */
  ghost predicate Given(p: Pool, q: Pool, w: nat, i: nat) {
    && w < |p.workers| && i < |p.sched.chunks|
    && q.workers == p.workers[w := p.workers[w].(pc := if p.sched.cfg.streamMode then Reserving else Opening, i := i)]
    && var c := p.sched.chunks[i];
    q.sched.chunks == p.sched.chunks[i := c.(state := Active, workerSlot := p.workers[w].slot, startTime := p.now, attempts := c.attempts + 1)]
  }

  /** Worker w has been given nothing: it exits with an error, exits, or keeps waiting. */
  ghost predicate NotGiven(p: Pool, q: Pool, w: nat) {
    && w < |p.workers| && q.sched.chunks == p.sched.chunks && q.sched.nextUndispatched == p.sched.nextUndispatched
    && q.workers == p.workers[w := if p.rootDone || p.sched.cancelled then p.workers[w].(pc := Exited, ok := false)
                                   else if p.sched.completedCount >= |p.sched.chunks| then p.workers[w].(pc := Exited, ok := true)
                                   else p.workers[w]]
  }

  /** What the call of a worker that asks comes to. */
  ghost predicate Answered(p: Pool, calls: seq<A.Op>, q: Pool, w: nat, slot: nat) {
    var target := q.sched.effectiveTarget;
    if MayBeGiven(p, calls, slot, target) && exists i: nat :: Due(p, i) then
      exists i: nat :: Due(p, i) && (forall j: nat :: j < i ==> !Due(p, j)) && Given(p, q, w, i) && q.sched.nextUndispatched == p.sched.nextUndispatched
    else if MayBeGiven(p, calls, slot, target) && p.sched.nextUndispatched < |p.sched.chunks| then
      Given(p, q, w, p.sched.nextUndispatched) && q.sched.nextUndispatched == p.sched.nextUndispatched + 1
    else NotGiven(p, q, w)
  }

  /** One call in the scheduler's own terms; k is the first retry that is due. */
  lemma Outcome(s: Sched, slot: nat, parentDone: bool, now: int, k: nat)
    requires slot < |s.workers| && (s.fatal ==> s.cancelled) && k == FirstRetryable(s.chunks, now, 0)
    ensures var (t, a) := NextAssignment(s, slot, parentDone, now);
            if parentDone || s.cancelled then a == Refused
            else if s.completedCount >= |s.chunks| then a == AllDone
            else if IsSuppressed(s.workers[slot], now) || s.activeCount >= t.effectiveTarget then a == Blocked
            else if k < |s.chunks| then a == Assigned(k) && t.nextUndispatched == s.nextUndispatched
            else if s.nextUndispatched < |s.chunks| then a == Assigned(s.nextUndispatched) && t.nextUndispatched == s.nextUndispatched + 1
            else a == Blocked
  {
    hide FirstRetryable, IsSuppressed;
  }

  lemma FirstDue(p: Pool, k: nat)
    requires k == FirstRetryable(p.sched.chunks, p.now, 0)
    ensures (exists i: nat :: Due(p, i)) <==> k < |p.sched.chunks|
    ensures k < |p.sched.chunks| ==> Due(p, k)
    ensures forall j: nat :: j < k ==> !Due(p, j)
  {
    forall j: nat | Due(p, j) ensures k <= j {
      assert Retryable(p.sched.chunks[j], p.now);
    }
    if k < |p.sched.chunks| {
      assert Retryable(p.sched.chunks[k], p.now) && Due(p, k);
    }
  }

  lemma StepFrom(p: Pool, w: nat)
    requires Stands(p, w, Ask)
    ensures var (t, a) := NextAssignment(p.sched, p.workers[w].slot, p.rootDone, p.now);
            && AskStep(p, w).sched == t
            && (a.Assigned? ==> Given(p, AskStep(p, w), w, a.i))
            && (!a.Assigned? ==> t.chunks == p.sched.chunks && t.nextUndispatched == p.sched.nextUndispatched)
            && AskStep(p, w).workers == match a
               case Assigned(i) => p.workers[w := p.workers[w].(pc := if p.sched.cfg.streamMode then Reserving else Opening, i := i)]
               case Blocked => p.workers
               case AllDone => p.workers[w := p.workers[w].(pc := Exited, ok := true)]
               case Refused => p.workers[w := p.workers[w].(pc := Exited, ok := false)]
  {
    NextAssignmentEffect(p.sched, p.workers[w].slot, p.rootDone, p.now);
    hide NextAssignment;
  }

  lemma AskExactly(p: Pool, calls: seq<A.Op>, w: nat, slot: nat)
    requires Stands(p, w, Ask) && slot == p.workers[w].slot && slot < |p.sched.workers| && (p.sched.fatal ==> p.sched.cancelled)
    requires p.sched.activeCount == |InState(p.sched.chunks, Active)| + |HedgeTickets(p.workers)|
    requires IsSuppressed(p.sched.workers[slot], p.now) <==> RejectedLately(calls, slot, p.now)
    ensures Answered(p, calls, AskStep(p, w), w, slot)
  {
    var k := FirstRetryable(p.sched.chunks, p.now, 0);
    FirstDue(p, k);
    Outcome(p.sched, slot, p.rootDone, p.now, k);
    StepFrom(p, w);
    hide AskStep, NextAssignment, FirstRetryable, RejectedLately, IsSuppressed, Given, Due, InState, HedgeTickets;
  }

  /** What the run so far says about the scheduler's slot records and tickets. */
  lemma HistoryOf(cfg: Config, plan: seq<Chunk>, now: nat, es: seq<Event>, w: nat)
    requires ValidConfig(cfg) && ValidPlan(plan) && Legal(Init(cfg, plan, now), es) && w < |Exec(Init(cfg, plan, now), es).workers|
    ensures var p, calls := Exec(Init(cfg, plan, now), es), Calls(Init(cfg, plan, now), es);
            && 0 <= p.workers[w].slot < cfg.connections == |p.sched.workers| && (p.sched.fatal ==> p.sched.cancelled)
            && p.sched.activeCount == |InState(p.sched.chunks, Active)| + |HedgeTickets(p.workers)|
            && (IsSuppressed(p.sched.workers[p.workers[w].slot], p.now) <==> RejectedLately(calls, p.workers[w].slot, p.now))
  {
    var p0, p, calls := Init(cfg, plan, now), Exec(Init(cfg, plan, now), es), Calls(Init(cfg, plan, now), es);
    InitFits(cfg, plan, now);
    hide Legal, Init, Exec, Calls, A.Fits, NewSched, A.Run, A.Clocked, IsSuppressed, HedgeTickets, InState, ValidPlan, A.Suppresses;
    RunInvariant(cfg, plan, now, es);
    InvFacts(p, plan);
    hide Inv;
    RunSlots(p0, es);
    CallsRun(p0, es);
    TimelyClocked(now, calls);
    A.SuppressedExactly(cfg, plan, calls, p.workers[w].slot, p.now);
  }

  lemma InvFacts(p: Pool, plan: seq<Chunk>)
    requires Inv(p, plan)
    ensures (p.sched.fatal ==> p.sched.cancelled) && 0 <= p.now && |p.sched.workers| == p.sched.cfg.connections
    ensures p.sched.activeCount == |InState(p.sched.chunks, Active)| + |HedgeTickets(p.workers)|
  {
  }

  /** Who is given a chunk. In every reachable state a worker that asks is given one if and only if the transfer is not
      cancelled and not complete, the active chunks and outstanding duplicates together are fewer than the target in
      force, its slot was not rejected repeatedly within the last 30 s, and a retry is due or a chunk was never given
      out; it gets the first retry that is due, else the next chunk. */
  lemma AssignedExactly(cfg: Config, plan: seq<Chunk>, now: nat, es: seq<Event>, w: nat)
    requires ValidConfig(cfg) && ValidPlan(plan) && Legal(Init(cfg, plan, now), es)
    requires Stands(Exec(Init(cfg, plan, now), es), w, Ask)
    ensures var p, calls := Exec(Init(cfg, plan, now), es), Calls(Init(cfg, plan, now), es);
            && 0 <= p.workers[w].slot < cfg.connections
            && Answered(p, calls, Apply(p, CallNextAssignment(w)), w, p.workers[w].slot)
  {
    var p, calls := Exec(Init(cfg, plan, now), es), Calls(Init(cfg, plan, now), es);
    HistoryOf(cfg, plan, now, es, w);
    hide Init, Exec, Legal, Calls, AskStep, Answered, IsSuppressed, HedgeTickets, InState, RejectedLately;
    AskExactly(p, calls, w, p.workers[w].slot);
  }

  // ----- duplicates

  /** Slot k may be borrowed: no active chunk was given to it, and it was not rejected lately. */
  ghost predicate Borrowable(p: Pool, calls: seq<A.Op>, k: nat) {
    && k < p.sched.effectiveTarget && !RejectedLately(calls, k, p.now)
    && forall i :: 0 <= i < |p.sched.chunks| && p.sched.chunks[i].state == Active ==> p.sched.chunks[i].workerSlot != k
  }

  /** Worker w has started a duplicate of its chunk under slot k. */
  ghost predicate Started(p: Pool, q: Pool, w: nat, k: nat) {
    && w < |p.workers| && p.workers[w].i < |p.sched.chunks|
    && var i, c := p.workers[w].i, p.sched.chunks[p.workers[w].i];
    && q.workers == p.workers[w := p.workers[w].(slot := k, pc := Opening, hedge := true)]
    && q.sched.chunks == p.sched.chunks[i := c.(hedged := true, attempts := c.attempts + 1)]
    && q.sched.hedgeActive && q.sched.hedgedChunk == i && q.sched.activeCount == p.sched.activeCount + 1
  }

  /** It could not, and goes on to ask for a chunk. */
  ghost predicate Declined(p: Pool, q: Pool, w: nat) {
    && w < |p.workers| && p.workers[w].i < |p.sched.chunks|
    && var i, c := p.workers[w].i, p.sched.chunks[p.workers[w].i];
    && q.workers == p.workers[w := p.workers[w].(pc := Ask)]
    && q.sched.chunks == p.sched.chunks[i := c.(hedged := false)]
    && !q.sched.hedgeActive && q.sched.activeCount == p.sched.activeCount
  }

  lemma StartOutcome(p: Pool, w: nat, k: nat)
    requires Enabled(p, CallStartHedge(w)) && p.workers[w].i < |p.sched.chunks| && k == FirstFreeSlot(p.sched, p.now, 0)
    ensures if k < p.sched.effectiveTarget then Started(p, StartHedgeStep(p, w), w, k) else Declined(p, StartHedgeStep(p, w), w)
  {
    hide FirstFreeSlot;
  }

  lemma FreeMeansBorrowable(p: Pool, calls: seq<A.Op>, k: nat)
    requires k < p.sched.effectiveTarget && k < |p.sched.workers|
    requires IsSuppressed(p.sched.workers[k], p.now) <==> RejectedLately(calls, k, p.now)
    ensures SlotFree(p.sched, k, p.now) <==> Borrowable(p, calls, k)
  {
  }

  lemma SuppressedByHistory(cfg: Config, plan: seq<Chunk>, now: nat, es: seq<Event>, k: nat)
    requires ValidConfig(cfg) && ValidPlan(plan) && Legal(Init(cfg, plan, now), es) && k < cfg.connections
    ensures var p, calls := Exec(Init(cfg, plan, now), es), Calls(Init(cfg, plan, now), es);
            && k < |p.sched.workers| && (IsSuppressed(p.sched.workers[k], p.now) <==> RejectedLately(calls, k, p.now))
  {
    var p0, p, calls := Init(cfg, plan, now), Exec(Init(cfg, plan, now), es), Calls(Init(cfg, plan, now), es);
    InitFits(cfg, plan, now);
    hide Legal, Init, Exec, Calls, A.Fits, NewSched, A.Run, A.Clocked, IsSuppressed, ValidPlan, A.Suppresses;
    CallsRun(p0, es);
    TimelyClocked(now, calls);
    A.SuppressedExactly(cfg, plan, calls, k, p.now);
  }

  /** What the start of a duplicate comes to. */
  ghost predicate Decided(p: Pool, calls: seq<A.Op>, q: Pool, w: nat) {
    if exists k: nat :: Borrowable(p, calls, k) then
      exists k: nat :: Borrowable(p, calls, k) && (forall j: nat :: j < k ==> !Borrowable(p, calls, j)) && Started(p, q, w, k)
    else Declined(p, q, w)
  }

  lemma StartDecided(p: Pool, calls: seq<A.Op>, w: nat)
    requires Enabled(p, CallStartHedge(w)) && p.workers[w].i < |p.sched.chunks|
    requires forall k: nat :: k < p.sched.effectiveTarget ==> (SlotFree(p.sched, k, p.now) <==> Borrowable(p, calls, k))
    ensures Decided(p, calls, StartHedgeStep(p, w), w)
  {
    var k := FirstFreeSlot(p.sched, p.now, 0);
    StartOutcome(p, w, k);
    hide SlotFree, RejectedLately, Started, Declined, StartHedgeStep;
    if k == p.sched.effectiveTarget {
      NoneBorrowable(p, calls);
    } else {
      assert Borrowable(p, calls, k) && forall j: nat :: j < k ==> !Borrowable(p, calls, j);
    }
  }

  lemma AllSlots(cfg: Config, plan: seq<Chunk>, now: nat, es: seq<Event>)
    requires ValidConfig(cfg) && ValidPlan(plan) && Legal(Init(cfg, plan, now), es)
    requires Exec(Init(cfg, plan, now), es).sched.effectiveTarget <= cfg.connections == |Exec(Init(cfg, plan, now), es).sched.workers|
    ensures var p, calls := Exec(Init(cfg, plan, now), es), Calls(Init(cfg, plan, now), es);
            forall k: nat :: k < p.sched.effectiveTarget ==> (SlotFree(p.sched, k, p.now) <==> Borrowable(p, calls, k))
  {
    var p, calls := Exec(Init(cfg, plan, now), es), Calls(Init(cfg, plan, now), es);
    hide Init, Exec, Legal, Calls, RejectedLately, SlotFree, Borrowable;
    forall k: nat | k < p.sched.effectiveTarget ensures SlotFree(p.sched, k, p.now) <==> Borrowable(p, calls, k) {
      SuppressedByHistory(cfg, plan, now, es, k);
      FreeMeansBorrowable(p, calls, k);
    }
  }

  /** Who starts a duplicate. In every reachable state a worker that has been offered one starts it if and only if some
      slot below the target is neither in use nor rejected lately; it borrows the first such slot. */
  lemma StartedExactly(cfg: Config, plan: seq<Chunk>, now: nat, es: seq<Event>, w: nat)
    requires ValidConfig(cfg) && ValidPlan(plan) && Legal(Init(cfg, plan, now), es)
    requires Stands(Exec(Init(cfg, plan, now), es), w, Start)
    ensures var p, calls := Exec(Init(cfg, plan, now), es), Calls(Init(cfg, plan, now), es);
            Enabled(p, CallStartHedge(w)) && Decided(p, calls, Apply(p, CallStartHedge(w)), w)
  {
    var p, calls := Exec(Init(cfg, plan, now), es), Calls(Init(cfg, plan, now), es);
    RunInvariant(cfg, plan, now, es);
    StartBounds(p, plan, w);
    hide Init, Exec, Legal, Calls, SlotFree, Borrowable, Inv, Decided, StartHedgeStep;
    AllSlots(cfg, plan, now, es);
    StartDecided(p, calls, w);
  }

  lemma NoneBorrowable(p: Pool, calls: seq<A.Op>)
    requires forall k: nat :: k < p.sched.effectiveTarget ==> !Borrowable(p, calls, k)
    ensures !exists k: nat :: Borrowable(p, calls, k)
  {
  }

  lemma StartBounds(p: Pool, plan: seq<Chunk>, w: nat)
    requires Inv(p, plan) && Stands(p, w, Start)
    ensures 0 <= p.sched.effectiveTarget <= |p.sched.workers| == p.sched.cfg.connections && p.workers[w].i < |p.sched.chunks|
    ensures Enabled(p, CallStartHedge(w))
  {
  }

  // ----- retries

  /** After a failure at time t, the k-th time chunk i had been given out or duplicated, f is the state reached at once and
      q a later one. */
  ghost predicate Scheduled(cfg: Config, f: Pool, q: Pool, i: nat, t: int, k: nat) {
    && k >= 1
    && (k < cfg.maxTries && Survives(k) ==> (Due(q, i) <==> q.now >= t + Documented(k)))
    && (k < cfg.maxTries && !Survives(k) ==> Due(q, i))
    && (k >= cfg.maxTries ==> InStateAt(f, i, Failed) && f.sched.cancelled)
  }

  lemma ScheduledFrom(cfg: Config, plan: seq<Chunk>, calls: seq<A.Op>, i: nat, t: int, f: Pool, more: seq<A.Op>, q: Pool)
    requires ValidConfig(cfg) && H.Fresh(cfg, plan) && A.Fits(NewSched(cfg, plan)) && i < |plan| && t <= q.now
    requires var s := A.Run(NewSched(cfg, plan), calls);
             && i < |s.chunks| && s.chunks[i].state == Active && f.sched == A.Step(s, A.Fail(i, true, t))
    requires H.LeftWaiting(f.sched, more, i) && q.sched == A.Run(f.sched, more)
    ensures Scheduled(cfg, f, q, i, t, H.Tries(NewSched(cfg, plan), calls, i))
  {
    H.RetryExactly(cfg, plan, calls, i, t, more, q.now);
    hide H.Fresh, A.Fits, A.Run, A.Step, NewSched, H.LeftWaiting, H.Tries, Survives, Documented, ValidConfig;
  }

  /** The retry schedule in a run. From its failure on, a chunk that is not given out meanwhile is due exactly when the
      documented delay for its number of attempts is over (at once for the counts at which the shift overflows); a
      failure at the limit of attempts cancels the transfer. */
  lemma RetriedExactly(cfg: Config, plan: seq<Chunk>, now: nat, es: seq<Event>, w: nat, more: seq<Event>)
    requires ValidConfig(cfg) && ValidPlan(plan) && Legal(Init(cfg, plan, now), es)
    requires var p := Exec(Init(cfg, plan, now), es);
             && Stands(p, w, Failing) && InStateAt(p, p.workers[w].i, Active)
             && Legal(FailStep(p, w), more) && A.Fits(FailStep(p, w).sched)
             && H.LeftWaiting(FailStep(p, w).sched, Calls(FailStep(p, w), more), p.workers[w].i)
    ensures var p, calls := Exec(Init(cfg, plan, now), es), Calls(Init(cfg, plan, now), es);
            && A.Fits(NewSched(cfg, plan))
            && Scheduled(cfg, FailStep(p, w), Exec(FailStep(p, w), more), p.workers[w].i, p.now,
                         H.Tries(NewSched(cfg, plan), calls, p.workers[w].i))
  {
    var p0, p, calls := Init(cfg, plan, now), Exec(Init(cfg, plan, now), es), Calls(Init(cfg, plan, now), es);
    var f, i := FailStep(p, w), p.workers[w].i;
    InitFits(cfg, plan, now);
    SizeAfter(cfg, plan, calls);
    FreshPlan(cfg, plan);
    CallsRun(p0, es);
    FailCall(p, w);
    CallsRun(f, more);
    var ops, q := Calls(f, more), Exec(f, more);
    hide *;
    ScheduledFrom(cfg, plan, calls, i, p.now, f, ops, q);
  }

  lemma FreshPlan(cfg: Config, plan: seq<Chunk>)
    requires ValidConfig(cfg) && ValidPlan(plan)
    ensures H.Fresh(cfg, plan)
  {
  }

  lemma SizeAfter(cfg: Config, plan: seq<Chunk>, calls: seq<A.Op>)
    requires ValidConfig(cfg)
    ensures A.Fits(NewSched(cfg, plan)) && |A.Run(NewSched(cfg, plan), calls).chunks| == |plan|
  {
    H.SizeKept(NewSched(cfg, plan), calls);
  }

  lemma FailCall(p: Pool, w: nat)
    requires Stands(p, w, Failing) && A.Fits(p.sched)
    ensures FailStep(p, w).sched == A.Step(p.sched, A.Fail(p.workers[w].i, true, p.now)) && FailStep(p, w).now == p.now
  {
    hide MarkFailed;
  }
}
