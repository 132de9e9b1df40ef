/** The scheduler's atomic steps on values (internal/schedule/scheduler.go). Each function is one critical
    section of the scheduler's mutex; `now` is the reading of the clock inside it. */
module Scheduling {
  import opened Basics
  import opened Chunks
  import opened Stats
  import opened Median
  import opened Backoff

  const COOLDOWN := 30 * SECOND
  const MAX_RESTORE_BACKOFF := 300 * SECOND
  const DURATION_WINDOW: nat := 32

  datatype Config = Config(
    connections: nat,
    bufferSize: int,
    splitSize: int,
    maxTries: int,
    streamMode: bool)   // a stream sink is attached exactly in stream mode

  datatype Sched = Sched(
    cfg: Config,
    chunks: seq<Chunk>,
    workers: seq<Slot>,
    nextUndispatched: nat,
    activeCount: int,
    completedCount: int,
    effectiveTarget: int,
    fatal: bool,             // fatalErr != nil
    cancelled: bool,         // the scheduler's own context is cancelled
    hedgedChunk: int,        // -1 if no hedge is active
    hedgeActive: bool,
    cooldownUntil: int,
    restoreBackoff: int,
    recent: seq<int>,
    pressureEvents: nat)

  /** The length of the completed prefix. */
  function SkipCompleted(chunks: seq<Chunk>, i: nat): (next: nat)
    requires i <= |chunks|
    ensures i <= next <= |chunks|
    ensures forall k :: i <= k < next ==> chunks[k].state == Completed
    ensures next < |chunks| ==> chunks[next].state != Completed
    decreases |chunks| - i
  {
    if i < |chunks| && chunks[i].state == Completed then SkipCompleted(chunks, i + 1) else i
  }

  function InitialTarget(cfg: Config, n: nat): (t: int)
    requires cfg.streamMode ==> cfg.splitSize >= 1 && cfg.bufferSize >= 0
  {
    var limited := if cfg.streamMode then Max(1, Min(cfg.connections, cfg.bufferSize / cfg.splitSize))
                   else cfg.connections;
    Max(1, Min(limited, n))
  }

  function NewSched(cfg: Config, chunks: seq<Chunk>): Sched
    requires cfg.streamMode ==> cfg.splitSize >= 1 && cfg.bufferSize >= 0
  {
    Sched(cfg, chunks, seq(cfg.connections, _ => FRESH_SLOT),
          SkipCompleted(chunks, 0), 0, |InState(chunks, Completed)|,
          InitialTarget(cfg, |chunks|), false, false, -1, false, 0, COOLDOWN, [], 0)
  }

  function Cancel(s: Sched): Sched {
    s.(cancelled := true)
  }

  /** Restore one connection slot once the cooldown is over and four chunks are complete. */
  function Cleanup(s: Sched, now: int): Sched {
    if s.effectiveTarget < s.cfg.connections && s.cooldownUntil < now && s.completedCount > 0 && s.completedCount >= 4 then
      var backoff := Min(2 * s.restoreBackoff, MAX_RESTORE_BACKOFF);
      s.(effectiveTarget := s.effectiveTarget + 1, restoreBackoff := backoff, cooldownUntil := now + backoff)
    else s
  }

  predicate Retryable(c: Chunk, now: int) {
    c.state == RetryWait && c.retryAfter <= now
  }

  /** The first chunk at or after i whose retry delay is over; |chunks| if there is none. */
  function FirstRetryable(chunks: seq<Chunk>, now: int, i: nat): (k: nat)
    requires i <= |chunks|
    ensures i <= k <= |chunks|
    ensures k < |chunks| ==> Retryable(chunks[k], now)
    ensures forall j :: i <= j < k ==> !Retryable(chunks[j], now)
    decreases |chunks| - i
  {
    if i == |chunks| || Retryable(chunks[i], now) then i else FirstRetryable(chunks, now, i + 1)
  }

  function Assign(s: Sched, i: nat, slot: int, now: int): Sched
    requires i < |s.chunks|
  {
    var c := s.chunks[i];
    s.(chunks := s.chunks[i := c.(state := Active, workerSlot := slot, startTime := now, attempts := c.attempts + 1)],
       activeCount := s.activeCount + 1)
  }

  predicate SlotSuppressed(s: Sched, slot: int, now: int) {
    0 <= slot < |s.workers| && IsSuppressed(s.workers[slot], now)
  }

  function TryAssign(s: Sched, slot: int, now: int): (r: (Sched, Option<nat>))
    ensures r.1.None? ==> r.0 == s
    ensures r.1.Some? ==> r.1.value < |s.chunks|
  {
    if SlotSuppressed(s, slot, now) || s.activeCount >= s.effectiveTarget then (s, None)
    else
      var k := FirstRetryable(s.chunks, now, 0);
      if k < |s.chunks| then (Assign(s, k, slot, now), Some(k))
      else if s.nextUndispatched < |s.chunks| then
        (Assign(s.(nextUndispatched := s.nextUndispatched + 1), s.nextUndispatched, slot, now), Some(s.nextUndispatched))
      else (s, None)
  }

  datatype Answer =
    | Blocked            // wait on the condition variable
    | Assigned(i: nat)
    | AllDone            // (nil, nil)
    | Refused            // (nil, err): context cancelled or fatal error

  /** One pass of the loop in NextAssignment, up to the wait. */
  function NextAssignment(s: Sched, slot: int, parentDone: bool, now: int): (r: (Sched, Answer))
    ensures r.1.Assigned? ==> r.1.i < |s.chunks|
  {
    var t := Cleanup(s, now);
    if parentDone || t.cancelled || t.fatal then (t, Refused)
    else if t.completedCount >= |t.chunks| then (t, AllDone)
    else
      var (u, c) := TryAssign(t, slot, now);
      match c
      case Some(i) => (u, Assigned(i))
      case None => (u, Blocked)
  }

  /** Apart from a restored connection slot, NextAssignment changes the scheduler only by activating one chunk:
      a retry that is due, else the next chunk never dispatched. */
  lemma NextAssignmentEffect(s: Sched, slot: int, parentDone: bool, now: int)
    ensures var (t, a) := NextAssignment(s, slot, parentDone, now);
            && t.cfg == s.cfg && t.workers == s.workers && t.completedCount == s.completedCount
            && t.fatal == s.fatal && t.cancelled == s.cancelled
            && (t.effectiveTarget == s.effectiveTarget || t.effectiveTarget == s.effectiveTarget + 1 <= s.cfg.connections)
            && (a.Assigned? ==>
                  && t.chunks == Assign(s, a.i, slot, now).chunks
                  && t.activeCount == s.activeCount + 1
                  && (if t.nextUndispatched == s.nextUndispatched then Retryable(s.chunks[a.i], now)
                      else t.nextUndispatched == s.nextUndispatched + 1 && a.i == s.nextUndispatched))
            && (!a.Assigned? ==>
                  t.chunks == s.chunks && t.activeCount == s.activeCount && t.nextUndispatched == s.nextUndispatched)
  {
  }

  function MarkComplete(s: Sched, i: int, now: int): Sched {
    if i < 0 || i >= |s.chunks| || s.chunks[i].state != Active then s
    else
      var c := s.chunks[i];
      var d := now - c.startTime;
      s.(chunks := s.chunks[i := c.(state := Completed)],
         activeCount := s.activeCount - 1,
         completedCount := s.completedCount + 1,
         recent := if d > 0 then Push(s.recent, d, DURATION_WINDOW) else s.recent)
  }

  function MarkFailed(s: Sched, i: int, retryable: bool, now: int): Sched {
    if i < 0 || i >= |s.chunks| || s.chunks[i].state != Active then s
    else
      var c := s.chunks[i];
      if retryable && c.attempts < s.cfg.maxTries then
        s.(chunks := s.chunks[i := c.(state := RetryWait, retryAfter := now + RetryBackoff(c.attempts))],
           activeCount := s.activeCount - 1)
      else
        s.(chunks := s.chunks[i := c.(state := Failed)],
           activeCount := s.activeCount - 1,
           fatal := true, cancelled := true)
  }

  /** A failed chunk waits at most 30 s for its next attempt, or is lost together with the whole transfer. */
  lemma MarkFailedEffect(s: Sched, i: nat, retryable: bool, now: int)
    requires i < |s.chunks|
    ensures var t := MarkFailed(s, i, retryable, now);
            if s.chunks[i].state != Active then t == s
            else
              && t == s.(chunks := t.chunks, activeCount := s.activeCount - 1, fatal := t.fatal, cancelled := t.cancelled)
              && t.chunks == s.chunks[i := s.chunks[i].(state := t.chunks[i].state, retryAfter := t.chunks[i].retryAfter)]
              && (t.chunks[i].state == RetryWait <==> retryable && s.chunks[i].attempts < s.cfg.maxTries)
              && (t.chunks[i].state == RetryWait ==>
                    t.chunks[i].retryAfter <= now + COOLDOWN && t.fatal == s.fatal && t.cancelled == s.cancelled)
              && (t.chunks[i].state != RetryWait ==> t.chunks[i].state == Failed && t.fatal && t.cancelled)
  {
  }

  /** ceil(t / 2) as the source computes it, in exact arithmetic. */
  function CeilHalf(t: int): (h: int)
    ensures h == -((-t) / 2)
  {
    -((-(t as real) / 2.0).Floor)
  }

  function OnPressure(s: Sched, retryAfter: int, now: int): Sched {
    var target := Max(1, CeilHalf(s.effectiveTarget));
    if target < s.effectiveTarget then
      s.(effectiveTarget := target, pressureEvents := s.pressureEvents + 1,
         cooldownUntil := now + (if retryAfter <= 0 then COOLDOWN else retryAfter))
    else s
  }

  function OnAdmissionFailure(s: Sched, slot: int, now: int): Sched {
    if slot < 0 || slot >= |s.workers| then s
    else
      var w := RecordAdmissionFailure(s.workers[slot]);
      if w.admissionFailures >= 2 then
        s.(workers := s.workers[slot := w.(suppressedUntil := now + COOLDOWN)],
           effectiveTarget := if s.effectiveTarget > 1 then s.effectiveTarget - 1 else s.effectiveTarget)
      else s.(workers := s.workers[slot := w])
  }

  /** A slot's second consecutive failure suppresses it for 30 s and lowers the target, never below one. */
  lemma OnAdmissionFailureEffect(s: Sched, slot: int, now: int)
    requires 1 <= s.effectiveTarget
    ensures var t := OnAdmissionFailure(s, slot, now);
            && t == s.(workers := t.workers, effectiveTarget := t.effectiveTarget)
            && |t.workers| == |s.workers|
            && 1 <= t.effectiveTarget <= s.effectiveTarget
            && forall v :: 0 <= v < |s.workers| ==>
                 t.workers[v].suppressedUntil in {s.workers[v].suppressedUntil, now + COOLDOWN}
  {
  }

  function OnWorkerSuccess(s: Sched, slot: int, bytes: int, d: int, now: int): Sched {
    if 0 <= slot < |s.workers| then s.(workers := s.workers[slot := RecordSuccess(s.workers[slot], bytes, d, now)])
    else s
  }

  /** Chunks after the frontier that are already complete. */
  function LaterDone(chunks: seq<Chunk>, frontier: nat): set<nat> {
    set i: nat | i < |chunks| && frontier < i && (chunks[i].state == Completed || chunks[i].state == Written)
  }

  /** The chunk a speculative duplicate may be started for, or -1. `frontier` and `reserved` are what the stream
      sink reported while the scheduler's mutex was held. */
  function HedgeEligible(s: Sched, frontier: nat, reserved: int, bufferSize: int, now: int): (r: int)
    ensures r == -1 || (r == frontier < |s.chunks| && s.chunks[r].state == Active && !s.hedgeActive)
  {
    if !s.cfg.streamMode || s.hedgeActive || frontier >= |s.chunks| then -1
    else
      var fc := s.chunks[frontier];
      if fc.state != Active || fc.hedged || |s.recent| < 4 then -1
      else if |LaterDone(s.chunks, frontier)| < 2 then -1
      else if now - fc.startTime < 2 * MedianOf(s.recent) then -1
      else if s.activeCount >= s.effectiveTarget then -1
      else if reserved + fc.length > bufferSize then -1
      else frontier
  }

  predicate SlotInUse(chunks: seq<Chunk>, slot: int) {
    exists j :: 0 <= j < |chunks| && chunks[j].state == Active && chunks[j].workerSlot == slot
  }

  predicate SlotFree(s: Sched, slot: nat, now: int)
    requires slot < |s.workers|
  {
    !SlotInUse(s.chunks, slot) && !IsSuppressed(s.workers[slot], now)
  }

  /** The first free slot below the effective target at or after i; the target itself if there is none. */
  function FirstFreeSlot(s: Sched, now: int, i: nat): (k: nat)
    requires i <= s.effectiveTarget <= |s.workers|
    ensures i <= k <= s.effectiveTarget
    ensures k < s.effectiveTarget ==> SlotFree(s, k, now)
    ensures forall j :: i <= j < k ==> !SlotFree(s, j, now)
    decreases s.effectiveTarget - i
  {
    if i == s.effectiveTarget || SlotFree(s, i, now) then i else FirstFreeSlot(s, now, i + 1)
  }

  /** Start a duplicate of chunk i; the result is the borrowed worker slot. */
  function StartHedge(s: Sched, i: int, now: int): (r: (Sched, Option<nat>))
    requires 0 <= s.effectiveTarget <= |s.workers|
    ensures r.1.Some? ==> 0 <= i < |s.chunks| && r.1.value < s.effectiveTarget && SlotFree(s, r.1.value, now)
  {
    if i < 0 || i >= |s.chunks| then (s, None)
    else
      var slot := FirstFreeSlot(s, now, 0);
      var c := s.chunks[i];
      if slot == s.effectiveTarget then
        (s.(chunks := s.chunks[i := c.(hedged := false)], hedgeActive := false, hedgedChunk := -1), None)
      else
        (s.(chunks := s.chunks[i := c.(hedged := true, attempts := c.attempts + 1)],
            hedgeActive := true, hedgedChunk := i, activeCount := s.activeCount + 1),
         Some(slot))
  }

  /** Starting a duplicate touches the chunk's flag and attempt count only; it takes a ticket exactly on success. */
  lemma StartHedgeEffect(s: Sched, i: nat, now: int)
    requires 0 <= s.effectiveTarget <= |s.workers| && i < |s.chunks|
    ensures var (t, r) := StartHedge(s, i, now);
            && t == s.(chunks := t.chunks, activeCount := t.activeCount, hedgeActive := t.hedgeActive, hedgedChunk := t.hedgedChunk)
            && t.activeCount == s.activeCount + (if r.Some? then 1 else 0)
            && t.chunks == s.chunks[i := s.chunks[i].(hedged := r.Some?, attempts := t.chunks[i].attempts)]
            && t.chunks[i].attempts == s.chunks[i].attempts + (if r.Some? then 1 else 0)
  {
  }

  function CancelHedge(s: Sched, i: int): Sched {
    s.(hedgeActive := if s.hedgedChunk == i then false else s.hedgeActive,
       hedgedChunk := if s.hedgedChunk == i then -1 else s.hedgedChunk,
       activeCount := s.activeCount - 1)
  }
}
