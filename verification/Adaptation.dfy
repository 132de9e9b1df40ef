/** The adaptive connection target over any sequence of scheduler calls, pressure events included (`OnPressure`,
    `OnAdmissionFailure` and `cleanup` in internal/schedule/scheduler.go). */
module Adaptation {
  import opened Basics
  import opened Chunks
  import opened Stats
  import opened Backoff
  import opened Median
  import opened Scheduling

  datatype Op =
    | Ask(slot: int, parentDone: bool, now: int)
    | Complete(i: int, now: int)
    | Fail(i: int, retryable: bool, now: int)
    | Pressure(retryAfter: int, now: int)
    | Rejected(slot: int, now: int)
    | Success(slot: int, bytes: int, d: int, now: int)
    | Hedge(i: int, now: int)
    | Unhedge(i: int)
    | Stop

  /** The target lies between one and the number of connections, which is also the number of worker slots. */
  predicate Fits(s: Sched) {
    1 <= s.effectiveTarget <= s.cfg.connections == |s.workers|
  }

  /** One call. The result fits again, so that the slot scan of StartHedge is always in bounds. */
  function Step(s: Sched, op: Op): (t: Sched)
    requires Fits(s)
    ensures Fits(t)
  {
    match op
    case Ask(slot, parentDone, now) => NextAssignment(s, slot, parentDone, now).0
    case Complete(i, now) => MarkComplete(s, i, now)
    case Fail(i, retryable, now) => MarkFailed(s, i, retryable, now)
    case Pressure(retryAfter, now) => OnPressure(s, retryAfter, now)
    case Rejected(slot, now) => OnAdmissionFailure(s, slot, now)
    case Success(slot, bytes, d, now) => OnWorkerSuccess(s, slot, bytes, d, now)
    case Hedge(i, now) => StartHedge(s, i, now).0
    case Unhedge(i) => CancelHedge(s, i)
    case Stop => Cancel(s)
  }

  function Run(s: Sched, ops: seq<Op>): (t: Sched)
    requires Fits(s)
    ensures Fits(t)
    decreases |ops|
  {
    if ops == [] then s else Run(Step(s, ops[0]), ops[1..])
  }

  // ----- pressure

  datatype Press = Press(retryAfter: int, now: int)

  function Pressed(s: Sched, presses: seq<Press>): Sched
    decreases |presses|
  {
    if presses == [] then s else Pressed(OnPressure(s, presses[0].retryAfter, presses[0].now), presses[1..])
  }

  lemma Halves(s: Sched, retryAfter: int, now: int)
    requires s.effectiveTarget >= 1
    ensures var h := OnPressure(s, retryAfter, now).effectiveTarget; s.effectiveTarget <= 2 * h <= s.effectiveTarget + 1
  {
  }

  /** m is ceil(t / 2^k). */
  ghost predicate CeilOfShift(m: int, t: int, k: nat) {
    (m - 1) * Pow2(k) < t <= m * Pow2(k)
  }

  lemma HalfThenShift(m: int, h: int, t: int, k: nat)
    requires CeilOfShift(m, h, k) && t <= 2 * h <= t + 1
    ensures CeilOfShift(m, t, k + 1)
  {
    var p := Pow2(k);
    assert Pow2(k + 1) == 2 * p;
    assert m * (2 * p) == 2 * (m * p);
    assert (m - 1) * (2 * p) == 2 * ((m - 1) * p);
  }

  /** k pressure events and nothing else take a target t to exactly ceil(t / 2^k). */
  lemma {:induction false} PressureHalves(s: Sched, presses: seq<Press>)
    requires s.effectiveTarget >= 1
    ensures CeilOfShift(Pressed(s, presses).effectiveTarget, s.effectiveTarget, |presses|)
    decreases |presses|
  {
    hide CeilHalf;
    if presses == [] {
      assert Pow2(0) == 1;
    } else {
      var t := OnPressure(s, presses[0].retryAfter, presses[0].now);
      Halves(s, presses[0].retryAfter, presses[0].now);
      PressureHalves(t, presses[1..]);
      HalfThenShift(Pressed(s, presses).effectiveTarget, t.effectiveTarget, s.effectiveTarget, |presses| - 1);
    }
  }

  // ----- restoration

  /** The waiting time after the k-th restoration: min(30 * 2^k, 300) seconds. */
  function Patience(k: nat): int {
    Min(30 * Pow2(k), 300) * SECOND
  }

  lemma PatienceDoubles(k: nat)
    ensures Patience(k + 1) == Min(2 * Patience(k), MAX_RESTORE_BACKOFF)
    ensures Patience(k + 1) >= 60 * SECOND
  {
    assert Pow2(k) >= 1;
  }

  lemma NewPatience(cfg: Config, chunks: seq<Chunk>)
    requires cfg.connections >= 1 && cfg.splitSize >= 1 && cfg.bufferSize >= 0
    ensures NewSched(cfg, chunks).restoreBackoff == Patience(0) && NewSched(cfg, chunks).cfg == cfg
  {
  }

  predicate Restores(s: Sched, op: Op)
    requires Fits(s)
  {
    Step(s, op).effectiveTarget > s.effectiveTarget
  }

  function RestoredNow(s: Sched, op: Op): seq<int>
    requires Fits(s)
  {
    if Restores(s, op) && op.Ask? then [op.now] else []
  }

  /** When connection slots are restored. */
  function Restorations(s: Sched, ops: seq<Op>): seq<int>
    requires Fits(s)
    decreases |ops|
  {
    if ops == [] then [] else RestoredNow(s, ops[0]) + Restorations(Step(s, ops[0]), ops[1..])
  }

  /** Only NextAssignment restores a slot, and only after the cooldown; it then doubles the cooldown. */
  lemma OneStep(s: Sched, op: Op)
    requires Fits(s)
    ensures var t := Step(s, op);
            if Restores(s, op) then
              && op.Ask? && s.cooldownUntil < op.now && s.completedCount >= 4
              && t.effectiveTarget == s.effectiveTarget + 1
              && t.restoreBackoff == Min(2 * s.restoreBackoff, MAX_RESTORE_BACKOFF)
              && t.cooldownUntil == op.now + t.restoreBackoff
            else
              && t.restoreBackoff == s.restoreBackoff
              && (t.cooldownUntil == s.cooldownUntil || (op.Pressure? && t.effectiveTarget < s.effectiveTarget))
  {
    hide FirstFreeSlot, FirstRetryable, RetryBackoff, RecordSuccess, RecordAdmissionFailure;
  }

  lemma StepPatience(s: Sched, op: Op, k: nat)
    requires Fits(s) && s.restoreBackoff == Patience(k)
    ensures Step(s, op).restoreBackoff == Patience(k + |RestoredNow(s, op)|)
  {
    OneStep(s, op);
    PatienceDoubles(k);
    hide Step, Patience;
  }

  lemma RestorationsUnfolded(s: Sched, ops: seq<Op>)
    requires Fits(s) && ops != []
    ensures Run(s, ops) == Run(Step(s, ops[0]), ops[1..])
    ensures |Restorations(s, ops)| == |RestoredNow(s, ops[0])| + |Restorations(Step(s, ops[0]), ops[1..])|
  {
    hide Step, Fits, RestoredNow;
  }

  /** After any calls whatever the backoff counts the restorations so far: it is min(30 * 2^k, 300) s. */
  lemma {:induction false} BackoffCounts(s: Sched, ops: seq<Op>, k: nat)
    requires Fits(s) && s.restoreBackoff == Patience(k)
    ensures Run(s, ops).restoreBackoff == Patience(k + |Restorations(s, ops)|)
    decreases |ops|
  {
    hide Step, Patience, Fits, RestoredNow;
    if ops != [] {
      StepPatience(s, ops[0], k);
      RestorationsUnfolded(s, ops);
      hide *;
      BackoffCounts(Step(s, ops[0]), ops[1..], k + |RestoredNow(s, ops[0])|);
    }
  }

  /** No pressure event among the calls lowers the target. */
  ghost predicate NoPressure(s: Sched, ops: seq<Op>)
    requires Fits(s)
    decreases |ops|
  {
    ops == [] ||
    ((ops[0].Pressure? ==> Step(s, ops[0]).effectiveTarget >= s.effectiveTarget) && NoPressure(Step(s, ops[0]), ops[1..]))
  }

  /** The first restoration waits for the cooldown in force, and each later one for the backoff of the one before. */
  ghost predicate Paced(times: seq<int>, cooldownUntil: int, k: nat) {
    && (times != [] ==> cooldownUntil < times[0])
    && forall i, j :: 0 <= i && j == i + 1 < |times| ==> times[i] + Patience(k + 1 + i) < times[j]
  }

  lemma PacedCons(now: int, times: seq<int>, cooldownUntil: int, k: nat)
    requires cooldownUntil < now && Paced(times, now + Patience(k + 1), k + 1)
    ensures Paced([now] + times, cooldownUntil, k)
  {
    var all := [now] + times;
    forall i, j | 0 <= i && j == i + 1 < |all| ensures all[i] + Patience(k + 1 + i) < all[j] {
      if i > 0 { assert times[i - 1] + Patience(k + 1 + 1 + (i - 1)) < times[j - 1]; }
    }
  }

  lemma {:induction false} RestorationsPaced(s: Sched, ops: seq<Op>, k: nat)
    requires Fits(s) && s.restoreBackoff == Patience(k) && NoPressure(s, ops)
    ensures Paced(Restorations(s, ops), s.cooldownUntil, k)
    decreases |ops|
  {
    if ops != [] {
      hide Step, Restores, Patience, Fits;
      OneStep(s, ops[0]);
      PatienceDoubles(k);
      var t, rest := Step(s, ops[0]), ops[1..];
      if Restores(s, ops[0]) {
        RestorationsPaced(t, rest, k + 1);
        PacedCons(ops[0].now, Restorations(t, rest), s.cooldownUntil, k);
      } else {
        RestorationsPaced(t, rest, k);
        assert [] + Restorations(t, rest) == Restorations(t, rest);
      }
    }
  }

  function PatienceSum(k: nat, n: nat): int {
    if n == 0 then 0 else PatienceSum(k, n - 1) + Patience(k + n)
  }

  lemma {:induction false} SpanOf(times: seq<int>, cooldownUntil: int, k: nat, first: nat, last: nat)
    requires Paced(times, cooldownUntil, k) && first <= last < |times|
    ensures times[first] + PatienceSum(k + first, last - first) <= times[last]
    ensures 60 * SECOND * (last - first) <= times[last] - times[first]
    decreases last
  {
    if first < last {
      SpanOf(times, cooldownUntil, k, first, last - 1);
      assert times[last - 1] + Patience(k + 1 + (last - 1)) < times[last];
      assert k + 1 + (last - 1) == k + first + (last - first);
      PatienceDoubles(k + last - 1);
    }
  }

  /** Restoration pacing. From a new scheduler, over any calls among which no pressure event lowers the target: a
      later restoration comes no earlier than an earlier one plus all the backoffs in between, so that a window of
      length T holds at most T / 60 s + 1 of them. */
  lemma RestorationPacing(cfg: Config, chunks: seq<Chunk>, ops: seq<Op>, first: nat, last: nat)
    requires cfg.connections >= 1 && cfg.splitSize >= 1 && cfg.bufferSize >= 0
    requires NoPressure(NewSched(cfg, chunks), ops)
    requires first <= last < |Restorations(NewSched(cfg, chunks), ops)|
    ensures var times := Restorations(NewSched(cfg, chunks), ops);
            && times[first] + PatienceSum(first, last - first) <= times[last]
            && last - first <= (times[last] - times[first]) / (60 * SECOND)
  {
    var s := NewSched(cfg, chunks);
    var times := Restorations(s, ops);
    NewPatience(cfg, chunks);
    hide NewSched, Restorations, NoPressure, Patience, PatienceSum, Paced;
    RestorationsPaced(s, ops, 0);
    SpanOf(times, s.cooldownUntil, 0, first, last);
    AtMostPerMinute(times[last] - times[first], last - first);
  }

  lemma AtMostPerMinute(span: int, n: int)
    requires 60 * SECOND * n <= span
    ensures n <= span / (60 * SECOND)
  {
  }

  lemma RunFits(s: Sched, ops: seq<Op>)
    requires Fits(s)
    ensures 1 <= Run(s, ops).effectiveTarget <= Run(s, ops).cfg.connections == |Run(s, ops).workers|
  {
    hide Run;
  }

  /** The target over any calls, from a new scheduler. */
  lemma TargetBounded(cfg: Config, chunks: seq<Chunk>, ops: seq<Op>)
    requires cfg.connections >= 1 && cfg.splitSize >= 1 && cfg.bufferSize >= 0
    ensures var s := Run(NewSched(cfg, chunks), ops);
            && 1 <= s.effectiveTarget <= cfg.connections == |s.workers|
            && s.restoreBackoff == Patience(|Restorations(NewSched(cfg, chunks), ops)|)
  {
    var s := NewSched(cfg, chunks);
    NewPatience(cfg, chunks);
    hide NewSched, Run, Restorations, Patience;
    BackoffCounts(s, ops, 0);
    ConfigKept(s, ops);
    RunFits(s, ops);
    hide *;
  }

  lemma StepConfig(s: Sched, op: Op)
    requires Fits(s)
    ensures Step(s, op).cfg == s.cfg
  {
    hide FirstFreeSlot, FirstRetryable, RetryBackoff, RecordSuccess, RecordAdmissionFailure;
  }

  lemma {:induction false} ConfigKept(s: Sched, ops: seq<Op>)
    requires Fits(s)
    ensures Run(s, ops).cfg == s.cfg
    decreases |ops|
  {
    if ops != [] {
      StepConfig(s, ops[0]);
      hide Step, Fits;
      ConfigKept(Step(s, ops[0]), ops[1..]);
    }
  }

  // ----- suppressed slots

  lemma {:induction false} RunSnoc(s: Sched, ops: seq<Op>, op: Op)
    requires Fits(s)
    ensures Run(s, ops + [op]) == Step(Run(s, ops), op)
    decreases |ops|
  {
    hide Step, Fits;
    if ops == [] {
      assert ([] + [op])[1..] == [];
    } else {
      assert (ops + [op])[1..] == ops[1..] + [op];
      RunSnoc(Step(s, ops[0]), ops[1..], op);
    }
  }

  /** How often in a row the slot has been rejected, up to now. */
  function RejectedInARow(ops: seq<Op>, slot: nat): nat {
    if ops == [] then 0
    else
      var before, last := RejectedInARow(ops[..|ops| - 1], slot), ops[|ops| - 1];
      if last.Success? && last.slot == slot then 0
      else if last.Rejected? && last.slot == slot then before + 1
      else before
  }

  /** Call j is at least the second rejection of the slot in a row. */
  ghost predicate Suppresses(ops: seq<Op>, slot: nat, j: nat) {
    j < |ops| && ops[j].Rejected? && ops[j].slot == slot && RejectedInARow(ops[..j + 1], slot) >= 2
  }

  /** Rejections carry increasing clock readings, beginning after 0. */
  ghost predicate Clocked(ops: seq<Op>) {
    forall i, j :: 0 <= i <= j < |ops| && ops[i].Rejected? && ops[j].Rejected? ==> 0 <= ops[i].now <= ops[j].now
  }

  /** The record of one slot after any calls: its failure count, and whether it is suppressed at a given time. */
  ghost predicate SlotRecord(w: Slot, ops: seq<Op>, slot: nat) {
    && w.admissionFailures == RejectedInARow(ops, slot)
    && (forall j: nat :: Suppresses(ops, slot, j) ==> ops[j].now + COOLDOWN <= w.suppressedUntil)
    && (w.suppressedUntil == 0 || exists j: nat :: Suppresses(ops, slot, j) && ops[j].now + COOLDOWN == w.suppressedUntil)
  }

  /** What one call does to the slot's record. */
  ghost predicate SlotStep(w: Slot, w': Slot, op: Op, slot: nat) {
    if op.Success? && op.slot == slot then w'.admissionFailures == 0 && w'.suppressedUntil == w.suppressedUntil
    else if op.Rejected? && op.slot == slot then
      && w'.admissionFailures == w.admissionFailures + 1
      && w'.suppressedUntil == if w'.admissionFailures >= 2 then op.now + COOLDOWN else w.suppressedUntil
    else w' == w
  }

  lemma StepSlot(s: Sched, op: Op, slot: nat)
    requires Fits(s) && slot < |s.workers|
    ensures slot < |Step(s, op).workers| && SlotStep(s.workers[slot], Step(s, op).workers[slot], op, slot)
  {
    hide FirstFreeSlot, NextAssignment, RetryBackoff;
    if op.Ask? { NextAssignmentEffect(s, op.slot, op.parentDone, op.now); }
  }

  lemma RowSnoc(ops: seq<Op>, op: Op, slot: nat)
    ensures RejectedInARow(ops + [op], slot) ==
            if op.Success? && op.slot == slot then 0
            else if op.Rejected? && op.slot == slot then RejectedInARow(ops, slot) + 1
            else RejectedInARow(ops, slot)
  {
    assert (ops + [op])[..|ops|] == ops;
  }

  lemma SuppressesSnoc(ops: seq<Op>, op: Op, slot: nat, j: nat)
    ensures Suppresses(ops + [op], slot, j) <==>
            if j == |ops| then op.Rejected? && op.slot == slot && RejectedInARow(ops, slot) >= 1 else Suppresses(ops, slot, j)
    ensures Suppresses(ops + [op], slot, j) && j < |ops| ==> (ops + [op])[j] == ops[j]
  {
    if j < |ops| {
      assert (ops + [op])[..j + 1] == ops[..j + 1];
    } else if j == |ops| {
      assert (ops + [op])[..j + 1] == ops + [op];
      RowSnoc(ops, op, slot);
    }
  }

  lemma RecordSnoc(w: Slot, w': Slot, ops: seq<Op>, op: Op, slot: nat)
    requires SlotRecord(w, ops, slot) && Clocked(ops + [op]) && SlotStep(w, w', op, slot)
    ensures SlotRecord(w', ops + [op], slot)
  {
    var all, n := ops + [op], |ops|;
    RowSnoc(ops, op, slot);
    forall j: nat | Suppresses(all, slot, j) ensures all[j].now + COOLDOWN <= w'.suppressedUntil {
      SuppressesSnoc(ops, op, slot, j);
      EarlierRejection(ops, op, slot, j);
    }
    SuppressesSnoc(ops, op, slot, n);
    if !Suppresses(all, slot, n) && w.suppressedUntil != 0 {
      var j: nat :| Suppresses(ops, slot, j) && ops[j].now + COOLDOWN == w.suppressedUntil;
      SuppressesSnoc(ops, op, slot, j);
      assert Suppresses(all, slot, j);
    }
  }

  lemma EarlierRejection(ops: seq<Op>, op: Op, slot: nat, j: nat)
    requires Clocked(ops + [op]) && Suppresses(ops + [op], slot, j)
    ensures op.Rejected? ==> (ops + [op])[j].now <= op.now
  {
    assert (ops + [op])[|ops|] == op;
  }

  lemma {:induction false} RecordAfter(s: Sched, ops: seq<Op>, slot: nat)
    requires Fits(s) && slot < |s.workers| && SlotRecord(s.workers[slot], [], slot) && Clocked(ops)
    ensures slot < |Run(s, ops).workers| && SlotRecord(Run(s, ops).workers[slot], ops, slot)
    decreases |ops|
  {
    if ops != [] {
      var front, last := ops[..|ops| - 1], ops[|ops| - 1];
      assert ops == front + [last];
      hide Step, Fits, SlotRecord, RejectedInARow;
      RecordAfter(s, front, slot);
      RunSnoc(s, front, last);
      StepSlot(Run(s, front), last, slot);
      RecordSnoc(Run(s, front).workers[slot], Run(s, ops).workers[slot], front, last, slot);
    }
  }

  /** A slot is suppressed exactly for 30 s after each rejection that is at least its second in a row; a success
      begins the row anew. */
  lemma SuppressedExactly(cfg: Config, chunks: seq<Chunk>, ops: seq<Op>, slot: nat, now: nat)
    requires cfg.connections >= 1 && cfg.splitSize >= 1 && cfg.bufferSize >= 0 && slot < cfg.connections && Clocked(ops)
    ensures var s := Run(NewSched(cfg, chunks), ops);
            && slot < |s.workers|
            && (IsSuppressed(s.workers[slot], now) <==>
                  exists j: nat :: Suppresses(ops, slot, j) && now < ops[j].now + COOLDOWN)
  {
    RecordAfter(NewSched(cfg, chunks), ops, slot);
  }

  // ----- recorded durations

  /** The duration a call records: that of a chunk it completes, if positive. */
  function Recorded(s: Sched, op: Op): seq<int> {
    if op.Complete? && 0 <= op.i < |s.chunks| && s.chunks[op.i].state == Active && s.chunks[op.i].startTime < op.now
    then [op.now - s.chunks[op.i].startTime] else []
  }

  function Durations(s: Sched, ops: seq<Op>): seq<int>
    requires Fits(s)
    decreases |ops|
  {
    if ops == [] then [] else Recorded(s, ops[0]) + Durations(Step(s, ops[0]), ops[1..])
  }

  lemma StepRecent(s: Sched, op: Op)
    requires Fits(s)
    ensures Step(s, op).recent ==
            if Recorded(s, op) == [] then s.recent else Push(s.recent, Recorded(s, op)[0], DURATION_WINDOW)
  {
    hide FirstFreeSlot, FirstRetryable, RetryBackoff, RecordSuccess, RecordAdmissionFailure, Push;
  }

  lemma PushedOne(before: seq<int>, ds: seq<int>)
    requires |ds| <= 1
    ensures PushAll(before + ds, DURATION_WINDOW) ==
            if ds == [] then PushAll(before, DURATION_WINDOW) else Push(PushAll(before, DURATION_WINDOW), ds[0], DURATION_WINDOW)
  {
    assert ds == [] ==> before + ds == before;
    assert ds != [] ==> (before + ds)[..|before|] == before;
  }

  lemma StepWindow(s: Sched, op: Op, before: seq<int>)
    requires Fits(s) && s.recent == PushAll(before, DURATION_WINDOW)
    ensures Step(s, op).recent == PushAll(before + Recorded(s, op), DURATION_WINDOW)
  {
    StepRecent(s, op);
    PushedOne(before, Recorded(s, op));
  }

  lemma Unfolded(s: Sched, ops: seq<Op>, before: seq<int>)
    requires Fits(s) && ops != []
    ensures Run(s, ops) == Run(Step(s, ops[0]), ops[1..])
    ensures before + Durations(s, ops) == (before + Recorded(s, ops[0])) + Durations(Step(s, ops[0]), ops[1..])
  {
    hide Step, Fits, Recorded;
  }

  lemma {:induction false} RecentAfter(s: Sched, ops: seq<Op>, before: seq<int>)
    requires Fits(s) && s.recent == PushAll(before, DURATION_WINDOW)
    ensures Run(s, ops).recent == PushAll(before + Durations(s, ops), DURATION_WINDOW)
    decreases |ops|
  {
    hide Step, Fits, Recorded, PushAll;
    if ops == [] {
      assert before + Durations(s, ops) == before;
    } else {
      StepWindow(s, ops[0], before);
      Unfolded(s, ops, before);
      hide *;
      RecentAfter(Step(s, ops[0]), ops[1..], before + Recorded(s, ops[0]));
    }
  }

  /** The window behind the rolling median holds the last 32 positive durations of completed chunks, in order. */
  lemma WindowOfDurations(cfg: Config, chunks: seq<Chunk>, ops: seq<Op>)
    requires cfg.connections >= 1 && cfg.splitSize >= 1 && cfg.bufferSize >= 0
    ensures var ds := Durations(NewSched(cfg, chunks), ops);
            Run(NewSched(cfg, chunks), ops).recent == if |ds| <= 32 then ds else ds[|ds| - 32..]
  {
    var ds := Durations(NewSched(cfg, chunks), ops);
    RecentAfter(NewSched(cfg, chunks), ops, []);
    assert [] + ds == ds;
    WindowIsSuffix(ds, DURATION_WINDOW);
  }
}
