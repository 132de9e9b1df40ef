/** "At least four chunks completed since the last reduction" (section 12.4 of ARCHITECTURE.md) before a connection slot
    is restored: when `cleanup` in internal/schedule/scheduler.go, which counts all completed chunks, keeps it. */
module Restoration {
  import opened Basics
  import opened Counting
  import opened Chunks
  import opened Stats
  import opened Backoff
  import opened Scheduling
  import opened Adaptation

  /** Chunks before nextUndispatched have been handed out or were complete, the others are untouched, and the counter
      counts the completed ones. */
  ghost predicate Counted(s: Sched) {
    && Fits(s) && s.nextUndispatched <= |s.chunks|
    && (forall i :: s.nextUndispatched <= i < |s.chunks| ==> s.chunks[i].state == Pending)
    && s.completedCount == |InState(s.chunks, Completed)|
  }

  /** No duplicate, no cancellation, no fatal failure: every chunk not complete can still be completed. */
  ghost predicate Live(s: Sched) {
    && Counted(s) && !s.fatal && !s.cancelled && s.activeCount == |InState(s.chunks, Active)|
    && forall i :: 0 <= i < s.nextUndispatched && i < |s.chunks| ==> s.chunks[i].state in {Active, RetryWait, Completed}
  }

  /** From a plan without gaps the scheduler begins live. */
  lemma NewLive(cfg: Config, chunks: seq<Chunk>)
    requires cfg.connections >= 1 && cfg.splitSize >= 1 && cfg.bufferSize >= 0
    requires forall i :: 0 <= i < |chunks| ==>
               chunks[i].state == if i < SkipCompleted(chunks, 0) then Completed else Pending
    ensures Live(NewSched(cfg, chunks))
  {
    NoneActive(chunks);
    NewCounted(cfg, chunks);
    hide Counted, InState, InitialTarget;
  }

  lemma NewCounted(cfg: Config, chunks: seq<Chunk>)
    requires cfg.connections >= 1 && cfg.splitSize >= 1 && cfg.bufferSize >= 0
    requires forall i :: SkipCompleted(chunks, 0) <= i < |chunks| ==> chunks[i].state == Pending
    ensures Counted(NewSched(cfg, chunks))
  {
    hide InState;
    var s := NewSched(cfg, chunks);
    assert Fits(s);
    assert forall i :: s.nextUndispatched <= i < |s.chunks| ==> s.chunks[i].state == Pending;
  }

  lemma NoneActive(chunks: seq<Chunk>)
    requires forall i :: 0 <= i < |chunks| ==> chunks[i].state != Active
    ensures |InState(chunks, Active)| == 0
  {
    assert InState(chunks, Active) == {};
  }

  // ----- what calls do to the counts

  predicate Completes(s: Sched, op: Op) {
    op.Complete? && 0 <= op.i < |s.chunks| && s.chunks[op.i].state == Active
  }

  /** How many chunks the calls complete. */
  function Completions(s: Sched, ops: seq<Op>): nat
    requires Fits(s)
    decreases |ops|
  {
    if ops == [] then 0 else (if Completes(s, ops[0]) then 1 else 0) + Completions(Step(s, ops[0]), ops[1..])
  }

  lemma StepCounter(s: Sched, op: Op)
    requires Fits(s)
    ensures Step(s, op).completedCount == s.completedCount + if Completes(s, op) then 1 else 0
  {
    hide FirstFreeSlot, FirstRetryable, RetryBackoff, RecordSuccess, RecordAdmissionFailure;
  }

  lemma {:induction false} CounterAfter(s: Sched, ops: seq<Op>)
    requires Fits(s)
    ensures Run(s, ops).completedCount == s.completedCount + Completions(s, ops)
    decreases |ops|
  {
    if ops != [] {
      StepCounter(s, ops[0]);
      hide Step, Fits, Completes;
      CounterAfter(Step(s, ops[0]), ops[1..]);
    }
  }

  /** One chunk may change, and a completed one does not. */
  ghost predicate OneChunk(s: Sched, t: Sched, i: nat) {
    && |t.chunks| == |s.chunks| && i < |s.chunks| && t.chunks == s.chunks[i := t.chunks[i]]
    && (s.chunks[i].state == Completed ==> t.chunks[i].state == Completed)
  }

  lemma CountsOf(s: Sched, t: Sched, i: nat, st: State)
    requires OneChunk(s, t, i)
    ensures |InState(t.chunks, st)| == |InState(s.chunks, st)|
              + (if t.chunks[i].state == st then 1 else 0) - (if s.chunks[i].state == st then 1 else 0)
  {
    InStateUpdate(s.chunks, i, t.chunks[i], st);
    assert i in InState(s.chunks, st) <==> s.chunks[i].state == st;
  }

  lemma AskCounted(s: Sched, slot: int, parentDone: bool, now: int)
    requires Counted(s)
    ensures Counted(NextAssignment(s, slot, parentDone, now).0)
    ensures Live(s) ==> Live(NextAssignment(s, slot, parentDone, now).0)
  {
    var (t, a) := NextAssignment(s, slot, parentDone, now);
    NextAssignmentEffect(s, slot, parentDone, now);
    AskFits(s, slot, parentDone, now);
    hide NextAssignment;
    if a.Assigned? {
      CountsOf(s, t, a.i, Completed);
      CountsOf(s, t, a.i, Active);
    }
  }

  lemma AskFits(s: Sched, slot: int, parentDone: bool, now: int)
    requires Fits(s)
    ensures Fits(NextAssignment(s, slot, parentDone, now).0)
  {
    assert Fits(Step(s, Ask(slot, parentDone, now)));
  }

  lemma CompleteCounted(s: Sched, i: int, now: int)
    requires Counted(s)
    ensures Counted(MarkComplete(s, i, now)) && (Live(s) ==> Live(MarkComplete(s, i, now)))
  {
    if 0 <= i < |s.chunks| && s.chunks[i].state == Active {
      CountsOf(s, MarkComplete(s, i, now), i, Completed);
      CountsOf(s, MarkComplete(s, i, now), i, Active);
    }
  }

  lemma FailCounted(s: Sched, i: int, retryable: bool, now: int)
    requires Counted(s)
    ensures var t := MarkFailed(s, i, retryable, now); Counted(t) && (Live(s) && !t.fatal ==> Live(t))
  {
    hide RetryBackoff;
    if 0 <= i < |s.chunks| && s.chunks[i].state == Active {
      CountsOf(s, MarkFailed(s, i, retryable, now), i, Completed);
      CountsOf(s, MarkFailed(s, i, retryable, now), i, Active);
    }
  }

  lemma HedgeCounted(s: Sched, i: int, now: int)
    requires Counted(s)
    ensures Counted(StartHedge(s, i, now).0)
  {
    var t := StartHedge(s, i, now).0;
    if 0 <= i < |s.chunks| {
      StartHedgeEffect(s, i, now);
      hide StartHedge;
      CountsOf(s, t, i, Completed);
    }
  }

  /** The counter is exact whatever is called. */
  lemma StepCounted(s: Sched, op: Op)
    requires Counted(s)
    ensures Counted(Step(s, op))
  {
    match op
    case Ask(slot, parentDone, now) => AskCounted(s, slot, parentDone, now);
    case Complete(i, now) => CompleteCounted(s, i, now);
    case Fail(i, retryable, now) => FailCounted(s, i, retryable, now);
    case Hedge(i, now) => HedgeCounted(s, i, now);
    case _ => hide RecordSuccess, RecordAdmissionFailure;
  }

  lemma {:induction false} RunCounted(s: Sched, ops: seq<Op>)
    requires Counted(s)
    ensures Counted(Run(s, ops)) && |Run(s, ops).chunks| == |s.chunks|
    decreases |ops|
  {
    if ops != [] {
      StepCounted(s, ops[0]);
      StepSize(s, ops[0]);
      hide Step, Counted;
      RunCounted(Step(s, ops[0]), ops[1..]);
    }
  }

  lemma StepSize(s: Sched, op: Op)
    requires Fits(s)
    ensures |Step(s, op).chunks| == |s.chunks|
  {
    hide FirstFreeSlot, FirstRetryable, RetryBackoff, RecordSuccess, RecordAdmissionFailure;
  }

  /** The clock after a call; a few calls do not look at it. */
  function Clock(op: Op, before: int): int {
    if op.Unhedge? || op.Stop? then before else op.now
  }

  /** The clock of the calls never goes back. */
  ghost predicate Timely(before: int, ops: seq<Op>)
    decreases |ops|
  {
    ops == [] || (before <= Clock(ops[0], before) && Timely(Clock(ops[0], before), ops[1..]))
  }

  /** No duplicate, no cancellation, no fatal failure. */
  ghost predicate Ordinary(s: Sched, ops: seq<Op>)
    requires Fits(s)
    decreases |ops|
  {
    ops == [] ||
    (!ops[0].Hedge? && !ops[0].Unhedge? && !ops[0].Stop? && !Step(s, ops[0]).fatal && Ordinary(Step(s, ops[0]), ops[1..]))
  }

  lemma StepLive(s: Sched, op: Op)
    requires Live(s) && !op.Hedge? && !op.Unhedge? && !op.Stop? && !Step(s, op).fatal
    ensures Live(Step(s, op))
  {
    match op
    case Ask(slot, parentDone, now) => AskCounted(s, slot, parentDone, now);
    case Complete(i, now) => CompleteCounted(s, i, now);
    case Fail(i, retryable, now) => FailCounted(s, i, retryable, now);
    case _ => hide RecordSuccess, RecordAdmissionFailure;
  }

  /** Any such calls keep the scheduler live. */
  lemma {:induction false} RunLive(s: Sched, ops: seq<Op>)
    requires Live(s) && Ordinary(s, ops)
    ensures Live(Run(s, ops))
    decreases |ops|
  {
    if ops != [] {
      StepLive(s, ops[0]);
      hide Step, Live;
      RunLive(Step(s, ops[0]), ops[1..]);
    }
  }

  // ----- the promise

  /** After t, reached at `now`, no slot is restored before four more chunks are complete. */
  ghost predicate Promise(t: Sched, now: int)
    requires Fits(t)
  {
    forall ops, op :: Timely(now, ops + [op]) && Restorations(t, ops) == [] && Restores(Run(t, ops), op) ==>
      Completions(t, ops) >= 4
  }

  lemma PromiseKept(t: Sched, now: int)
    requires Counted(t) && (t.completedCount == 0 || |t.chunks| < 4)
    ensures Promise(t, now)
  {
    forall ops, op | Timely(now, ops + [op]) && Restorations(t, ops) == [] && Restores(Run(t, ops), op) ensures Completions(t, ops) >= 4 {
      CounterAfter(t, ops);
      RunCounted(t, ops);
      OneStep(Run(t, ops), op);
      hide Step, Restores, Run, Restorations, Completions;
      InStateBounded(Run(t, ops).chunks, Completed);
    }
  }

  // ----- a run that breaks it

  function RetriesOver(chunks: seq<Chunk>): (now: int)
    ensures forall i :: 0 <= i < |chunks| ==> chunks[i].retryAfter <= now
  {
    if chunks == [] then 0 else Max(RetriesOver(chunks[..|chunks| - 1]), chunks[|chunks| - 1].retryAfter)
  }

  /** By this time every retry delay, the suppression of slot 0 and the cooldown are over. */
  ghost predicate LateEnough(s: Sched, now: int)
    requires Fits(s)
  {
    && (forall i :: 0 <= i < |s.chunks| ==> s.chunks[i].retryAfter <= now)
    && s.workers[0].suppressedUntil <= now && s.cooldownUntil < now
  }

  /** Some chunk is active, or else the next call of NextAssignment activates one. */
  lemma AskActivates(s: Sched, now: int)
    requires Live(s) && s.completedCount < 4 <= |s.chunks| && InState(s.chunks, Active) == {} && LateEnough(s, now)
    ensures var op := Ask(0, false, now);
            && InState(Step(s, op).chunks, Active) != {} && !Restores(s, op) && LateEnough(Step(s, op), now)
            && Step(s, op).effectiveTarget == s.effectiveTarget
  {
    SomeIncomplete(s.chunks);
    var i :| 0 <= i < |s.chunks| && s.chunks[i].state != Completed;
    assert i !in InState(s.chunks, Active);
    assert i < s.nextUndispatched ==> Retryable(s.chunks[i], now);
    var (t, a) := NextAssignment(s, 0, false, now);
    assert a.Assigned?;
    assert a.i in InState(t.chunks, Active);
  }

  lemma SomeIncomplete(chunks: seq<Chunk>)
    requires |InState(chunks, Completed)| < |chunks|
    ensures exists i :: 0 <= i < |chunks| && chunks[i].state != Completed
  {
    if forall i :: 0 <= i < |chunks| ==> chunks[i].state == Completed {
      AllIn(chunks);
    }
  }

  lemma AllIn(chunks: seq<Chunk>)
    requires forall i :: 0 <= i < |chunks| ==> chunks[i].state == Completed
    ensures |InState(chunks, Completed)| == |chunks|
  {
    assert InState(chunks, Completed) == Below(|chunks|);
  }

  lemma CompleteActive(s: Sched, i: nat, now: int)
    requires Live(s) && i in InState(s.chunks, Active) && LateEnough(s, now)
    ensures var op := Complete(i, now);
            && Completes(s, op) && !Restores(s, op) && LateEnough(Step(s, op), now) && Step(s, op).effectiveTarget == s.effectiveTarget
  {
  }

  /** What one call adds to a run. */
  lemma RunCons(s: Sched, op: Op, rest: seq<Op>)
    requires Fits(s) && !Restores(s, op)
    ensures Run(s, [op] + rest) == Run(Step(s, op), rest)
    ensures Completions(s, [op] + rest) == (if Completes(s, op) then 1 else 0) + Completions(Step(s, op), rest)
    ensures Restorations(s, [op] + rest) == Restorations(Step(s, op), rest)
  {
    assert ([op] + rest)[1..] == rest;
    hide Step, Fits, Completes, Restores;
    assert RestoredNow(s, op) == [];
    assert [] + Restorations(Step(s, op), rest) == Restorations(Step(s, op), rest);
  }

  /** All calls happen at this time. */
  ghost predicate AllAt(ops: seq<Op>, now: int) {
    forall op :: op in ops ==> (op.Ask? || op.Complete?) && op.now == now
  }

  lemma {:induction false} AllAtTimely(ops: seq<Op>, now: int, before: int)
    requires AllAt(ops, now) && before <= now
    ensures Timely(before, ops)
    decreases |ops|
  {
    if ops != [] {
      assert ops[0] in ops && forall op :: op in ops[1..] ==> op in ops;
      AllAtTimely(ops[1..], now, now);
    }
  }

  /** Calls that complete chunks one by one until the counter shows four. */
  lemma {:induction false} Drive(s: Sched, k: nat, now: int) returns (ops: seq<Op>)
    requires Live(s) && s.completedCount + k == 4 <= |s.chunks| && LateEnough(s, now)
    ensures Completions(s, ops) == k && Restorations(s, ops) == [] && AllAt(ops, now)
    ensures Live(Run(s, ops)) && Run(s, ops).effectiveTarget == s.effectiveTarget && Run(s, ops).cfg == s.cfg
    ensures LateEnough(Run(s, ops), now)
    decreases k, InState(s.chunks, Active) == {}
  {
    if k == 0 {
      ops := [];
    } else if InState(s.chunks, Active) == {} {
      var op := Ask(0, false, now);
      AskActivates(s, now);
      AskCounted(s, 0, false, now);
      StepCounter(s, op);
      StepSize(s, op);
      StepConfig(s, op);
      hide Step, Live, InState, Restores, Run, Completions, Restorations, LateEnough;
      var rest := Drive(Step(s, op), k, now);
      RunCons(s, op, rest);
      ops := [op] + rest;
    } else {
      var i :| i in InState(s.chunks, Active);
      var op := Complete(i, now);
      CompleteActive(s, i, now);
      CompleteCounted(s, i, now);
      StepCounter(s, op);
      StepSize(s, op);
      StepConfig(s, op);
      hide Step, Live, InState, Restores, Run, Completions, Restorations, LateEnough;
      var rest := Drive(Step(s, op), k - 1, now);
      RunCons(s, op, rest);
      ops := [op] + rest;
    }
  }

  lemma RestoresAtOnce(s: Sched, now: int)
    requires Fits(s) && s.completedCount >= 4 && s.effectiveTarget < s.cfg.connections && LateEnough(s, now)
    ensures Restores(s, Ask(0, false, now))
  {
    hide FirstRetryable;
  }

  lemma SomeTime(s: Sched, before: int) returns (now: int)
    requires Fits(s)
    ensures before <= now && LateEnough(s, now)
  {
    now := Max(Max(before, RetriesOver(s.chunks)), Max(s.workers[0].suppressedUntil, s.cooldownUntil + 1));
  }

  lemma PromiseBroken(t: Sched, before: int)
    requires Live(t) && t.completedCount > 0 && |t.chunks| >= 4 && t.effectiveTarget < t.cfg.connections
    ensures !Promise(t, before)
  {
    var now := SomeTime(t, before);
    var ops := [];
    if t.completedCount < 4 {
      ops := Drive(t, 4 - t.completedCount, now);
    }
    CounterAfter(t, ops);
    var u := Run(t, ops);
    hide Run, Restorations, Completions, Live, LateEnough;
    RestoresAtOnce(u, now);
    AllAtTimely(ops + [Ask(0, false, now)], now, before);
  }

  /** A call that lowers the target: pressure, or a slot's repeated admission failure. */
  predicate Reduces(s: Sched, op: Op)
    requires Fits(s)
  {
    Step(s, op).effectiveTarget < s.effectiveTarget
  }

  lemma ReductionLive(s: Sched, op: Op)
    requires Live(s) && Reduces(s, op)
    ensures var t := Step(s, op);
            && Live(t) && t.completedCount == s.completedCount && t.chunks == s.chunks
            && t.effectiveTarget < t.cfg.connections
  {
    hide FirstFreeSlot, FirstRetryable, RetryBackoff, RecordSuccess, RecordAdmissionFailure;
  }

  lemma PromiseAfter(s: Sched, op: Op, now: int)
    requires Live(s) && Reduces(s, op)
    ensures Promise(Step(s, op), now) <==> s.completedCount == 0 || |s.chunks| < 4
  {
    ReductionLive(s, op);
    hide Step, Live, Reduces;
    LiveCounted(Step(s, op));
    if s.completedCount == 0 || |s.chunks| < 4 {
      PromiseKept(Step(s, op), now);
    } else {
      PromiseBroken(Step(s, op), now);
    }
  }

  /** The promise, exactly. From a plan without gaps, after any calls in the order of their clocks and without duplicates,
      cancellation and fatal failure: when a call lowers the target, four more chunks are completed before any slot is
      restored if and only if no chunk was complete at that moment, or the object has fewer than four chunks (and no slot
      is ever restored). */
  lemma RestorationPromiseExactly(cfg: Config, chunks: seq<Chunk>, start: int, ops: seq<Op>, op: Op)
    requires cfg.connections >= 1 && cfg.splitSize >= 1 && cfg.bufferSize >= 0
    requires forall i :: 0 <= i < |chunks| ==>
               chunks[i].state == if i < SkipCompleted(chunks, 0) then Completed else Pending
    requires Timely(start, ops + [op])
    requires Ordinary(NewSched(cfg, chunks), ops) && Reduces(Run(NewSched(cfg, chunks), ops), op)
    ensures var s := Run(NewSched(cfg, chunks), ops);
            Promise(Step(s, op), op.now) <==> s.completedCount == 0 || |chunks| < 4
  {
    NewLive(cfg, chunks);
    RunLive(NewSched(cfg, chunks), ops);
    LiveCounted(NewSched(cfg, chunks));
    RunCounted(NewSched(cfg, chunks), ops);
    hide Step, Live, Reduces, Run, Ordinary;
    PromiseAfter(Run(NewSched(cfg, chunks), ops), op, op.now);
  }

  lemma LiveCounted(s: Sched)
    requires Live(s)
    ensures Counted(s) && Fits(s) && s.completedCount >= 0
  {
  }
}
