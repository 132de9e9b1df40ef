/** What the scheduler's records mean in terms of the calls made so far (internal/schedule/scheduler.go): attempts, the
    last hand-out, the retry time, the target, the cooldown and the cancellation, over any calls from a new scheduler. */
module CallHistory {
  import opened Basics
  import opened Chunks
  import opened Stats
  import opened Backoff
  import opened Scheduling
  import opened Adaptation
  import R = Restoration
  import Median

  // ----- chunks given out

  /** The chunk that a call of NextAssignment returns. */
  function GivenBy(s: Sched, op: Op): Option<nat> {
    if !op.Ask? then None
    else
      match NextAssignment(s, op.slot, op.parentDone, op.now).1
      case Assigned(i) => Some(i)
      case _ => None
  }

  /** The chunk of which a call of StartHedge starts a duplicate. */
  function DuplicatedBy(s: Sched, op: Op): Option<nat>
    requires Fits(s)
  {
    if op.Hedge? && 0 <= op.i && StartHedge(s, op.i, op.now).1.Some? then Some(op.i) else None
  }

  /** How often chunk i was given out or duplicated. */
  function Tries(s: Sched, ops: seq<Op>, i: nat): nat
    requires Fits(s)
  {
    if ops == [] then 0
    else
      var before, last := Run(s, ops[..|ops| - 1]), ops[|ops| - 1];
      Tries(s, ops[..|ops| - 1], i) + (if GivenBy(before, last) == Some(i) || DuplicatedBy(before, last) == Some(i) then 1 else 0)
  }

  /** The call that gave chunk i out last. */
  function LastTurn(s: Sched, ops: seq<Op>, i: nat): Option<Op>
    requires Fits(s)
  {
    if ops == [] then None
    else if GivenBy(Run(s, ops[..|ops| - 1]), ops[|ops| - 1]) == Some(i) then Some(ops[|ops| - 1])
    else LastTurn(s, ops[..|ops| - 1], i)
  }

  /** What a call does to the record of chunk i, apart from its state and retry time. */
  ghost predicate RecordStep(s: Sched, op: Op, t: Sched, i: nat)
    requires Fits(s) && i < |s.chunks| == |t.chunks|
  {
    var b, a := s.chunks[i], t.chunks[i];
    if GivenBy(s, op) == Some(i) then
      a == b.(state := Active, workerSlot := op.slot, startTime := op.now, attempts := b.attempts + 1)
    else
      && a == b.(state := a.state, retryAfter := a.retryAfter, attempts := a.attempts, hedged := a.hedged)
      && a.attempts == b.attempts + (if DuplicatedBy(s, op) == Some(i) then 1 else 0)
      && (a.state != b.state ==> b.state == Active)
  }

  lemma AskRecord(s: Sched, op: Op, i: nat)
    requires Fits(s) && op.Ask? && i < |s.chunks|
    ensures |Step(s, op).chunks| == |s.chunks| && RecordStep(s, op, Step(s, op), i)
  {
    NextAssignmentEffect(s, op.slot, op.parentDone, op.now);
    hide NextAssignment;
  }

  lemma HedgeRecord(s: Sched, op: Op, i: nat)
    requires Fits(s) && op.Hedge? && i < |s.chunks|
    ensures |Step(s, op).chunks| == |s.chunks| && RecordStep(s, op, Step(s, op), i)
  {
    if 0 <= op.i < |s.chunks| { StartHedgeEffect(s, op.i, op.now); }
    hide FirstFreeSlot;
  }

  lemma StepRecord(s: Sched, op: Op, i: nat)
    requires Fits(s) && i < |s.chunks|
    ensures |Step(s, op).chunks| == |s.chunks| && RecordStep(s, op, Step(s, op), i)
  {
    if op.Ask? {
      AskRecord(s, op, i);
    } else if op.Hedge? {
      HedgeRecord(s, op, i);
    } else {
      hide RetryBackoff, RecordSuccess, RecordAdmissionFailure;
    }
  }

  /** A scheduler over a plan in which nothing was attempted. */
  ghost predicate Fresh(cfg: Config, chunks: seq<Chunk>) {
    && cfg.connections >= 1 && cfg.splitSize >= 1 && cfg.bufferSize >= 0
    && forall i :: 0 <= i < |chunks| ==> chunks[i].attempts == 0 && chunks[i].state in {Pending, Completed}
  }

  lemma RunFront(s: Sched, ops: seq<Op>)
    requires Fits(s) && ops != []
    ensures Run(s, ops) == Step(Run(s, ops[..|ops| - 1]), ops[|ops| - 1])
  {
    hide Step, Fits, Run;
    assert ops == ops[..|ops| - 1] + [ops[|ops| - 1]];
    RunSnoc(s, ops[..|ops| - 1], ops[|ops| - 1]);
  }

  /** The record of chunk i after any calls. */
  ghost predicate RecordOf(s0: Sched, ops: seq<Op>, i: nat)
    requires Fits(s0) && i < |s0.chunks|
  {
    var s, turn := Run(s0, ops), LastTurn(s0, ops, i);
    && |s.chunks| == |s0.chunks|
    && var c := s.chunks[i];
    && c.index == s0.chunks[i].index && c.start == s0.chunks[i].start && c.length == s0.chunks[i].length
    && c.attempts == Tries(s0, ops, i)
    && (c.state in {Active, RetryWait} ==> c.attempts >= 1 && turn.Some?)
    && (turn.Some? ==> turn.value.Ask? && c.workerSlot == turn.value.slot && c.startTime == turn.value.now)
  }

  /** Attempts count the hand-outs and duplicates of a chunk; its slot and start time are those of the last hand-out. */
  lemma {:induction false} RecordAfter(cfg: Config, chunks: seq<Chunk>, ops: seq<Op>, i: nat)
    requires Fresh(cfg, chunks) && i < |chunks|
    ensures Fits(NewSched(cfg, chunks)) && RecordOf(NewSched(cfg, chunks), ops, i)
    decreases |ops|
  {
    var s0 := NewSched(cfg, chunks);
    if ops != [] {
      var front, last := ops[..|ops| - 1], ops[|ops| - 1];
      RecordAfter(cfg, chunks, front, i);
      RunFront(s0, ops);
      StepRecord(Run(s0, front), last, i);
      hide Step, Run, NewSched, Fits, GivenBy, DuplicatedBy;
    }
  }

  // ----- when a failed chunk is due again

  /** No call gives chunk i out. */
  ghost predicate LeftWaiting(s: Sched, ops: seq<Op>, i: nat)
    requires Fits(s)
    decreases |ops|
  {
    ops == [] || (GivenBy(s, ops[0]) != Some(i) && LeftWaiting(Step(s, ops[0]), ops[1..], i))
  }

  ghost predicate WaitsUntil(s: Sched, i: nat, due: int) {
    i < |s.chunks| && s.chunks[i].state == RetryWait && s.chunks[i].retryAfter == due
  }

  lemma WaitStep(s: Sched, op: Op, i: nat, due: int)
    requires Fits(s) && WaitsUntil(s, i, due) && GivenBy(s, op) != Some(i)
    ensures WaitsUntil(Step(s, op), i, due)
  {
    if op.Ask? {
      NextAssignmentEffect(s, op.slot, op.parentDone, op.now);
      hide NextAssignment;
    } else if op.Hedge? && 0 <= op.i < |s.chunks| {
      StartHedgeEffect(s, op.i, op.now);
      hide StartHedge;
    } else {
      hide FirstFreeSlot, RetryBackoff, RecordSuccess, RecordAdmissionFailure;
    }
  }

  lemma {:induction false} WaitsOn(s: Sched, ops: seq<Op>, i: nat, due: int)
    requires Fits(s) && WaitsUntil(s, i, due) && LeftWaiting(s, ops, i)
    ensures WaitsUntil(Run(s, ops), i, due)
    decreases |ops|
  {
    if ops != [] {
      WaitStep(s, ops[0], i, due);
      hide Step, Fits, WaitsUntil, GivenBy;
      WaitsOn(Step(s, ops[0]), ops[1..], i, due);
    }
  }

  lemma FailEffect(s: Sched, i: nat, t: int)
    requires Fits(s) && i < |s.chunks| && s.chunks[i].state == Active
    ensures var f := Step(s, Fail(i, true, t));
            if s.chunks[i].attempts < s.cfg.maxTries then WaitsUntil(f, i, t + RetryBackoff(s.chunks[i].attempts))
            else i < |f.chunks| && f.chunks[i].state == Failed && f.fatal && f.cancelled
  {
    hide RetryBackoff;
  }

  lemma DueExactly(s: Sched, i: nat, t: int, k: nat, v: int)
    requires k >= 1 && WaitsUntil(s, i, t + RetryBackoff(k))
    ensures Survives(k) ==> (Retryable(s.chunks[i], v) <==> v >= t + Documented(k))
    ensures !Survives(k) && v >= t ==> Retryable(s.chunks[i], v)
  {
    BackoffAsDocumented(k);
    hide RetryBackoff, Documented, Survives;
  }

  lemma {:induction false} SizeKept(s: Sched, ops: seq<Op>)
    requires Fits(s)
    ensures |Run(s, ops).chunks| == |s.chunks|
    decreases |ops|
  {
    if ops != [] {
      R.StepSize(s, ops[0]);
      hide Step, Fits;
      SizeKept(Step(s, ops[0]), ops[1..]);
    }
  }

  /** The retry schedule. When a transfer of chunk i fails retryably at time t, after the chunk was given out or duplicated
      k times: with k below the limit, it is due again at time v exactly when the documented delay has passed (for the
      attempt counts at which the shift overflows, at once), whatever else is called meanwhile; at the limit the
      transfer as a whole has failed. */
  lemma RetryExactly(cfg: Config, chunks: seq<Chunk>, ops: seq<Op>, i: nat, t: int, more: seq<Op>, v: int)
    requires Fresh(cfg, chunks) && i < |chunks|
    requires var s := Run(NewSched(cfg, chunks), ops);
             && i < |s.chunks| && s.chunks[i].state == Active
             && LeftWaiting(Step(s, Fail(i, true, t)), more, i)
    ensures var s, k := Run(NewSched(cfg, chunks), ops), Tries(NewSched(cfg, chunks), ops, i);
            var f := Step(s, Fail(i, true, t));
            var u := Run(f, more);
            && k >= 1 && i < |u.chunks| && i < |f.chunks|
            && (k < cfg.maxTries ==>
                  && (Survives(k) ==> (Retryable(u.chunks[i], v) <==> v >= t + Documented(k)))
                  && (!Survives(k) && v >= t ==> Retryable(u.chunks[i], v)))
            && (k >= cfg.maxTries ==> f.chunks[i].state == Failed && f.fatal && f.cancelled)
  {
    var s0 := NewSched(cfg, chunks);
    var s, k := Run(s0, ops), Tries(s0, ops, i);
    var f := Step(s, Fail(i, true, t));
    RecordAfter(cfg, chunks, ops, i);
    ConfigKept(s0, ops);
    FailEffect(s, i, t);
    hide Step, NewSched, Run, Tries, LastTurn, Fits, LeftWaiting;
    SizeKept(f, more);
    if k < cfg.maxTries {
      WaitsOn(f, more, i, t + RetryBackoff(k));
      DueExactly(Run(f, more), i, t, k, v);
    }
  }

  // ----- the target and the cooldown

  /** The first target: the most workers, at least one and at most as many as requested, that have a chunk each and, with a
      stream, whose full chunks fit in the buffer together. */
  lemma InitialTargetExactly(cfg: Config, chunks: seq<Chunk>)
    requires cfg.connections >= 1 && cfg.splitSize >= 1 && cfg.bufferSize >= 0
    ensures var t, fits := NewSched(cfg, chunks).effectiveTarget, (k: int) => !cfg.streamMode || k * cfg.splitSize <= cfg.bufferSize;
            && 1 <= t <= cfg.connections
            && (t > 1 ==> t <= |chunks| && fits(t))
            && (t < cfg.connections ==> t >= |chunks| || !fits(t + 1))
  {
    if cfg.streamMode { Quotient(cfg.bufferSize, cfg.splitSize); }
  }

  lemma Quotient(a: int, b: int)
    requires b >= 1
    ensures forall k: int :: k <= a / b <==> k * b <= a
  {
    forall k: int ensures k <= a / b <==> k * b <= a { Multiple(a, b, k); }
  }

  lemma ScaledLess(x: int, y: int, b: int)
    requires x <= y && b >= 0
    ensures x * b <= y * b
  {
    assert (y - x) * b >= 0;
    assert (y - x) * b == y * b - x * b;
  }

  lemma Multiple(a: int, b: int, k: int)
    requires b >= 1
    ensures k <= a / b <==> k * b <= a
  {
    var q, r := a / b, a % b;
    assert a == q * b + r && 0 <= r < b;
    if k <= q {
      ScaledLess(k, q, b);
    } else {
      ScaledLess(q + 1, k, b);
      assert (q + 1) * b == q * b + b;
    }
  }

  lemma {:induction false} FailuresCounted(s: Sched, ops: seq<Op>, slot: nat)
    requires Fits(s) && slot < |s.workers| && s.workers[slot].admissionFailures == 0
    ensures slot < |Run(s, ops).workers| && Run(s, ops).workers[slot].admissionFailures == RejectedInARow(ops, slot)
    decreases |ops|
  {
    if ops != [] {
      var front, last := ops[..|ops| - 1], ops[|ops| - 1];
      FailuresCounted(s, front, slot);
      RunFront(s, ops);
      StepSlot(Run(s, front), last, slot);
      hide Step, Fits, Run;
    }
  }

  /** A call by which a slot has been rejected at least twice in a row. */
  ghost predicate Repeated(cfg: Config, ops: seq<Op>, op: Op) {
    op.Rejected? && 0 <= op.slot < cfg.connections && RejectedInARow(ops + [op], op.slot) >= 2
  }

  /** How one call moves the target and the cooldown, given the calls before it: pressure halves the target, rounding up,
      and if that lowers it starts the cooldown asked for; a slot's repeated rejection lowers it by one, not below one;
      once the cooldown is over and four chunks are complete, a worker's question raises it by one and starts a cooldown
      that doubles each time. */
  ghost predicate Moved(cfg: Config, s: Sched, t: Sched, ops: seq<Op>, op: Op, completed: int, restored: nat) {
    && t.pressureEvents == s.pressureEvents + (if op.Pressure? && t.effectiveTarget < s.effectiveTarget then 1 else 0)
    && if op.Pressure? then
      && s.effectiveTarget <= 2 * t.effectiveTarget <= s.effectiveTarget + 1
      && t.cooldownUntil == if t.effectiveTarget == s.effectiveTarget then s.cooldownUntil
                            else op.now + if op.retryAfter > 0 then op.retryAfter else 30 * SECOND
    else if Repeated(cfg, ops, op) then
      t.effectiveTarget == Max(1, s.effectiveTarget - 1) && t.cooldownUntil == s.cooldownUntil
    else if op.Ask? && s.effectiveTarget < cfg.connections && s.cooldownUntil < op.now && completed >= 4 then
      t.effectiveTarget == s.effectiveTarget + 1 && t.cooldownUntil == op.now + Patience(restored + 1)
    else
      t.effectiveTarget == s.effectiveTarget && t.cooldownUntil == s.cooldownUntil
  }

  lemma OneMove(s: Sched, ops: seq<Op>, op: Op, restored: nat)
    requires Fits(s) && s.restoreBackoff == Patience(restored)
    requires op.Rejected? && 0 <= op.slot < |s.workers| ==> s.workers[op.slot].admissionFailures == RejectedInARow(ops, op.slot)
    ensures Moved(s.cfg, s, Step(s, op), ops, op, s.completedCount, restored)
  {
    PatienceDoubles(restored);
    hide FirstFreeSlot, FirstRetryable, RetryBackoff, RecordSuccess, Patience, RejectedInARow, CeilHalf;
    if op.Ask? {
      AskMove(s, ops, op, restored);
    } else if op.Rejected? {
      if 0 <= op.slot < |s.workers| { RowSnoc(ops, op, op.slot); }
    } else {
      hide Cleanup, TryAssign, RecordAdmissionFailure;
    }
  }

  lemma AskMove(s: Sched, ops: seq<Op>, op: Op, restored: nat)
    requires Fits(s) && s.restoreBackoff == Patience(restored) && op.Ask?
    ensures Moved(s.cfg, s, Step(s, op), ops, op, s.completedCount, restored)
  {
    PatienceDoubles(restored);
    hide FirstRetryable, SlotSuppressed, Patience;
  }

  /** The target and the cooldown after any calls from a new scheduler and one more. */
  lemma TargetMoves(cfg: Config, chunks: seq<Chunk>, ops: seq<Op>, op: Op)
    requires cfg.connections >= 1 && cfg.splitSize >= 1 && cfg.bufferSize >= 0
    ensures var s0 := NewSched(cfg, chunks);
            var s := Run(s0, ops);
            && s0.cooldownUntil == 0
            && Moved(cfg, s, Step(s, op), ops, op, |InState(chunks, Completed)| + R.Completions(s0, ops), |Restorations(s0, ops)|)
  {
    var s0 := NewSched(cfg, chunks);
    NewPatience(cfg, chunks);
    NewCounts(cfg, chunks);
    hide NewSched, Step, Run, Restorations, Patience, Moved, R.Completions, InState;
    BackoffCounts(s0, ops, 0);
    ConfigKept(s0, ops);
    R.CounterAfter(s0, ops);
    if op.Rejected? && 0 <= op.slot < cfg.connections { FailuresCounted(s0, ops, op.slot); }
    OneMove(Run(s0, ops), ops, op, |Restorations(s0, ops)|);
  }

  lemma NewCounts(cfg: Config, chunks: seq<Chunk>)
    requires cfg.connections >= 1 && cfg.splitSize >= 1 && cfg.bufferSize >= 0
    ensures var s := NewSched(cfg, chunks);
            && s.completedCount == |InState(chunks, Completed)| && s.cooldownUntil == 0 && |s.workers| == cfg.connections
            && forall w :: 0 <= w < |s.workers| ==> s.workers[w].admissionFailures == 0
  {
  }

  // ----- a slot's statistics

  /** The transfers a slot has reported. */
  function Reports(ops: seq<Op>, slot: nat): seq<Op> {
    if ops == [] then []
    else Reports(ops[..|ops| - 1], slot) + if ops[|ops| - 1].Success? && ops[|ops| - 1].slot == slot then [ops[|ops| - 1]] else []
  }

  function TotalBytes(reports: seq<Op>): int
    requires forall op :: op in reports ==> op.Success?
  {
    if reports == [] then 0 else TotalBytes(reports[..|reports| - 1]) + reports[|reports| - 1].bytes
  }

  function Times(reports: seq<Op>): (ds: seq<int>)
    requires forall op :: op in reports ==> op.Success?
    ensures |ds| == |reports| && forall i :: 0 <= i < |ds| ==> ds[i] == reports[i].d
  {
    seq(|reports|, i requires 0 <= i < |reports| => reports[i].d)
  }

  lemma {:induction false} OnlyReports(ops: seq<Op>, slot: nat)
    ensures forall op :: op in Reports(ops, slot) ==> op.Success?
  {
    if ops != [] { OnlyReports(ops[..|ops| - 1], slot); }
  }

  /** A slot's record: its successful chunks, their bytes, the time of the last, and the durations of the last sixteen. */
  ghost predicate Tallied(w: Slot, reports: seq<Op>)
    requires forall op :: op in reports ==> op.Success?
  {
    && w.successfulChunks == |reports| && w.usefulBytes == TotalBytes(reports)
    && w.lastSuccess == (if reports == [] then 0 else reports[|reports| - 1].now)
    && w.recent == Median.PushAll(Times(reports), SLOT_WINDOW)
  }

  lemma TallyOne(w: Slot, w': Slot, reports: seq<Op>, op: Op)
    requires (forall r :: r in reports ==> r.Success?) && Tallied(w, reports) && op.Success?
    requires w' == RecordSuccess(w, op.bytes, op.d, op.now)
    ensures Tallied(w', reports + [op])
  {
    var all := reports + [op];
    assert all[..|all| - 1] == reports;
    assert Times(all) == Times(reports) + [op.d];
    assert Times(all)[..|reports|] == Times(reports);
  }

  lemma SlotAfter(s: Sched, op: Op, slot: nat)
    requires Fits(s) && slot < |s.workers|
    ensures slot < |Step(s, op).workers|
    ensures var w, w' := s.workers[slot], Step(s, op).workers[slot];
            if op.Success? && op.slot == slot then w' == RecordSuccess(w, op.bytes, op.d, op.now)
            else w' == w.(admissionFailures := w'.admissionFailures, suppressedUntil := w'.suppressedUntil)
  {
    hide FirstFreeSlot, NextAssignment, RetryBackoff, RecordSuccess;
    if op.Ask? { NextAssignmentEffect(s, op.slot, op.parentDone, op.now); }
  }

  lemma {:induction false} TalliedAfter(s: Sched, ops: seq<Op>, slot: nat)
    requires Fits(s) && slot < |s.workers| && s.workers[slot] == FRESH_SLOT
    ensures slot < |Run(s, ops).workers| && forall op :: op in Reports(ops, slot) ==> op.Success?
    ensures Tallied(Run(s, ops).workers[slot], Reports(ops, slot))
    decreases |ops|
  {
    OnlyReports(ops, slot);
    if ops != [] {
      var front, last := ops[..|ops| - 1], ops[|ops| - 1];
      TalliedAfter(s, front, slot);
      RunFront(s, ops);
      SlotAfter(Run(s, front), last, slot);
      hide Step, Fits, Run, RecordSuccess, Median.PushAll, TotalBytes;
      if last.Success? && last.slot == slot {
        TallyOne(Run(s, front).workers[slot], Run(s, ops).workers[slot], Reports(front, slot), last);
      } else {
        assert Reports(ops, slot) == Reports(front, slot);
      }
    }
  }

  /** The statistics of a slot after any calls: its successes since the beginning, and the last 16 durations in order. */
  lemma SlotStatistics(cfg: Config, chunks: seq<Chunk>, ops: seq<Op>, slot: nat)
    requires cfg.connections >= 1 && cfg.splitSize >= 1 && cfg.bufferSize >= 0 && slot < cfg.connections
    ensures var s := Run(NewSched(cfg, chunks), ops);
            && slot < |s.workers| && (forall op :: op in Reports(ops, slot) ==> op.Success?)
            && var reports, w := Reports(ops, slot), s.workers[slot];
            && w.successfulChunks == |reports| && w.usefulBytes == TotalBytes(reports)
            && (reports != [] ==> w.lastSuccess == reports[|reports| - 1].now)
            && w.recent == if |reports| <= 16 then Times(reports) else Times(reports)[|reports| - 16..]
  {
    TalliedAfter(NewSched(cfg, chunks), ops, slot);
    Median.WindowIsSuffix(Times(Reports(ops, slot)), SLOT_WINDOW);
  }

  // ----- the permission to start a duplicate

  /** A call that decides about duplicates: the start of one, or the attempt. */
  predicate Decides(s: Sched, op: Op) {
    op.Hedge? && 0 <= op.i < |s.chunks|
  }

  /** The last call that decided about duplicates started one of chunk i, and it has not been cancelled since. */
  ghost predicate LastStarted(s0: Sched, ops: seq<Op>, i: nat)
    requires Fits(s0)
    decreases |ops|
  {
    ops != [] &&
    var front, last := ops[..|ops| - 1], ops[|ops| - 1];
    if Decides(s0, last) then DuplicatedBy(Run(s0, front), last) == Some(i)
    else last != Unhedge(i) && LastStarted(s0, front, i)
  }

  lemma StepFlag(s: Sched, op: Op, i: nat)
    requires Fits(s)
    ensures var before, t := s.hedgeActive && s.hedgedChunk == i, Step(s, op);
            (t.hedgeActive && t.hedgedChunk == i) <==>
              if Decides(s, op) then DuplicatedBy(s, op) == Some(i) else op != Unhedge(i) && before
  {
    if op.Ask? { NextAssignmentEffect(s, op.slot, op.parentDone, op.now); AskFlag(s, op); }
    hide NextAssignment, FirstFreeSlot, RetryBackoff, RecordSuccess, RecordAdmissionFailure;
  }

  lemma AskFlag(s: Sched, op: Op)
    requires Fits(s) && op.Ask?
    ensures var t := Step(s, op); t.hedgeActive == s.hedgeActive && t.hedgedChunk == s.hedgedChunk
  {
    hide FirstRetryable;
  }

  /** The scheduler believes that a duplicate of chunk i is under way exactly in this case. */
  lemma {:induction false} FlagExactly(cfg: Config, chunks: seq<Chunk>, ops: seq<Op>, i: nat)
    requires cfg.connections >= 1 && cfg.splitSize >= 1 && cfg.bufferSize >= 0
    ensures var s := Run(NewSched(cfg, chunks), ops);
            (s.hedgeActive && s.hedgedChunk == i) <==> LastStarted(NewSched(cfg, chunks), ops, i)
    decreases |ops|
  {
    var s0 := NewSched(cfg, chunks);
    if ops != [] {
      var front, last := ops[..|ops| - 1], ops[|ops| - 1];
      FlagExactly(cfg, chunks, front, i);
      RunFront(s0, ops);
      SizeKept(s0, front);
      StepFlag(Run(s0, front), last, i);
      hide Step, Run, NewSched, Fits, DuplicatedBy;
    }
  }

  // ----- cancellation

  /** The call reports a chunk's failure that is final, or comes at the limit of attempts. */
  ghost predicate GivesUp(s0: Sched, ops: seq<Op>, op: Op)
    requires Fits(s0)
  {
    && op.Fail? && 0 <= op.i < |Run(s0, ops).chunks| && Run(s0, ops).chunks[op.i].state == Active
    && (!op.retryable || Tries(s0, ops, op.i) >= s0.cfg.maxTries)
  }

  ghost predicate GaveUp(s0: Sched, ops: seq<Op>)
    requires Fits(s0)
  {
    exists j :: 0 <= j < |ops| && GivesUp(s0, ops[..j], ops[j])
  }

  ghost predicate Stopped(ops: seq<Op>) {
    exists j :: 0 <= j < |ops| && ops[j].Stop?
  }

  lemma GaveUpSnoc(s0: Sched, ops: seq<Op>)
    requires Fits(s0) && ops != []
    ensures var front, last := ops[..|ops| - 1], ops[|ops| - 1];
            && (GaveUp(s0, ops) <==> GaveUp(s0, front) || GivesUp(s0, front, last))
            && (Stopped(ops) <==> Stopped(front) || last.Stop?)
  {
    hide GivesUp, Fits;
    var front, last := ops[..|ops| - 1], ops[|ops| - 1];
    assert forall j :: 0 <= j < |front| ==> front[..j] == ops[..j] && front[j] == ops[j];
    if GaveUp(s0, front) {
      var j :| 0 <= j < |front| && GivesUp(s0, front[..j], front[j]);
      assert GivesUp(s0, ops[..j], ops[j]);
    }
    if Stopped(front) {
      var j :| 0 <= j < |front| && front[j].Stop?;
      assert ops[j].Stop?;
    }
  }

  lemma StepFlags(s: Sched, op: Op)
    requires Fits(s)
    ensures var lost := op.Fail? && 0 <= op.i < |s.chunks| && s.chunks[op.i].state == Active &&
                        (!op.retryable || s.chunks[op.i].attempts >= s.cfg.maxTries);
            && Step(s, op).fatal == (s.fatal || lost)
            && Step(s, op).cancelled == (s.cancelled || lost || op.Stop?)
  {
    hide FirstFreeSlot, FirstRetryable, RetryBackoff, RecordSuccess, RecordAdmissionFailure;
  }

  /** A transfer is fatal exactly when a chunk was given up, and cancelled exactly when that happened or it was stopped. */
  lemma {:induction false} CancelledExactly(cfg: Config, chunks: seq<Chunk>, ops: seq<Op>)
    requires Fresh(cfg, chunks)
    ensures var s0 := NewSched(cfg, chunks);
            && (Run(s0, ops).fatal <==> GaveUp(s0, ops))
            && (Run(s0, ops).cancelled <==> GaveUp(s0, ops) || Stopped(ops))
    decreases |ops|
  {
    var s0 := NewSched(cfg, chunks);
    if ops != [] {
      var front, last := ops[..|ops| - 1], ops[|ops| - 1];
      CancelledExactly(cfg, chunks, front);
      GaveUpSnoc(s0, ops);
      RunFront(s0, ops);
      StepFlags(Run(s0, front), last);
      ConfigKept(s0, front);
      SizeKept(s0, front);
      if last.Fail? && 0 <= last.i < |chunks| { RecordAfter(cfg, chunks, front, last.i); }
      hide Step, Run, NewSched, Fits, Tries, LastTurn, GaveUp, Stopped;
    }
  }
}
