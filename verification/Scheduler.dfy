/** The scheduler object. Every method is one critical section and does to the object what the function of the
    same name in `Scheduling` does to its value. */
module SchedulerObject {
  import opened Basics
  import opened Chunks
  import opened Stats
  import opened Median
  import opened Backoff
  import S = Scheduling

  class Scheduler {
    const cfg: S.Config
    const chunks: array<Chunk>
    const workers: seq<WorkerStats>
    var nextUndispatched: nat
    var activeCount: int
    var completedCount: int
    var effectiveTarget: int
    var fatal: bool
    var cancelled: bool
    var hedgedChunk: int
    var hedgeActive: bool
    var cooldownUntil: int
    var restoreBackoff: int
    var recent: seq<int>
    var pressureEvents: nat

    ghost predicate Valid() {
      forall i, j :: 0 <= i < j < |workers| ==> workers[i] != workers[j]
    }

    ghost function Slots(): (s: seq<Slot>)
      reads workers
      ensures |s| == |workers|
      ensures forall i :: 0 <= i < |s| ==> s[i] == workers[i].View()
    {
      seq(|workers|, i requires 0 <= i < |workers| reads workers => workers[i].View())
    }

    ghost function View(): S.Sched
      reads this, chunks, workers
    {
      S.Sched(cfg, chunks[..], Slots(), nextUndispatched, activeCount, completedCount, effectiveTarget,
              fatal, cancelled, hedgedChunk, hedgeActive, cooldownUntil, restoreBackoff, recent, pressureEvents)
    }

    constructor (cfg: S.Config, chunks: array<Chunk>)
      requires cfg.streamMode ==> cfg.splitSize >= 1 && cfg.bufferSize >= 0
      ensures Valid() && View() == S.NewSched(cfg, chunks[..]) && this.chunks == chunks
      ensures forall w :: w in workers ==> fresh(w)
    {
      var slots := NewWorkers(cfg.connections);
      var effective := cfg.connections;
      if cfg.streamMode {
        var memLimit := cfg.bufferSize / cfg.splitSize;
        if memLimit < effective { effective := memLimit; }
        if effective < 1 { effective := 1; }
      }
      if effective > chunks.Length { effective := chunks.Length; }
      if effective < 1 { effective := 1; }

      var preCompleted := CountCompleted(chunks);
      var next := 0;
      while next < chunks.Length && chunks[next].state == Completed
        invariant 0 <= next <= chunks.Length
        invariant S.SkipCompleted(chunks[..], next) == S.SkipCompleted(chunks[..], 0)
        modifies {}
      {
        next := next + 1;
      }

      this.cfg, this.chunks, this.workers := cfg, chunks, slots;
      effectiveTarget, nextUndispatched, completedCount := effective, next, preCompleted;
      activeCount, fatal, cancelled := 0, false, false;
      hedgedChunk, hedgeActive := -1, false;
      cooldownUntil, restoreBackoff, recent, pressureEvents := 0, 30 * SECOND, [], 0;
      new;
      assert Slots() == seq(cfg.connections, _ => FRESH_SLOT);
    }

    method Cancel()
      modifies this
      ensures View() == S.Cancel(old(View()))
    {
      cancelled := true;
    }

    method Cleanup(now: int)
      modifies this
      ensures View() == S.Cleanup(old(View()), now)
    {
      if effectiveTarget < cfg.connections && cooldownUntil < now && completedCount > 0 {
        if completedCount >= 4 {
          effectiveTarget := effectiveTarget + 1;
          restoreBackoff := restoreBackoff * 2;
          if restoreBackoff > 5 * 60 * SECOND {
            restoreBackoff := 5 * 60 * SECOND;
          }
          cooldownUntil := now + restoreBackoff;
        }
      }
    }

    method FindRetryable(now: int) returns (k: nat)
      ensures k == S.FirstRetryable(chunks[..], now, 0)
    {
      k := 0;
      while k < chunks.Length && !(chunks[k].state == RetryWait && chunks[k].retryAfter <= now)
        invariant 0 <= k <= chunks.Length
        invariant S.FirstRetryable(chunks[..], now, k) == S.FirstRetryable(chunks[..], now, 0)
      {
        k := k + 1;
      }
    }

    method Assign(i: nat, slot: int, now: int)
      requires i < chunks.Length
      modifies this, chunks
      ensures View() == S.Assign(old(View()), i, slot, now)
    {
      chunks[i] := chunks[i].(state := Active, workerSlot := slot, startTime := now, attempts := chunks[i].attempts + 1);
      activeCount := activeCount + 1;
      assert chunks[..] == old(chunks[..])[i := chunks[i]];
    }

    method TryAssign(slot: int, now: int) returns (r: Option<nat>)
      modifies this, chunks
      ensures (View(), r) == S.TryAssign(old(View()), slot, now)
    {
      if 0 <= slot < |workers| {
        var suppressed := workers[slot].IsSuppressedNow(now);
        if suppressed { return None; }
      }
      if activeCount >= effectiveTarget { return None; }
      var k := FindRetryable(now);
      if k < chunks.Length {
        Assign(k, slot, now);
        return Some(k);
      }
      if nextUndispatched < chunks.Length {
        k := nextUndispatched;
        nextUndispatched := nextUndispatched + 1;
        Assign(k, slot, now);
        return Some(k);
      }
      return None;
    }

    /** One pass of the waiting loop; `Blocked` is the wait. */
    method NextAssignment(slot: int, parentDone: bool, now: int) returns (r: S.Answer)
      modifies this, chunks
      ensures (View(), r) == S.NextAssignment(old(View()), slot, parentDone, now)
    {
      Cleanup(now);
      if parentDone || cancelled { return S.Refused; }
      if fatal { return S.Refused; }
      if completedCount >= chunks.Length { return S.AllDone; }
      var c := TryAssign(slot, now);
      match c
      case Some(i) => return S.Assigned(i);
      case None => return S.Blocked;
    }

    method MarkComplete(i: int, now: int)
      modifies this, chunks
      ensures View() == S.MarkComplete(old(View()), i, now)
    {
      if i < 0 || i >= chunks.Length { return; }
      if chunks[i].state == Active {
        var d := now - chunks[i].startTime;
        chunks[i] := chunks[i].(state := Completed);
        activeCount := activeCount - 1;
        completedCount := completedCount + 1;
        if d > 0 {
          recent := recent + [d];
          if |recent| > 32 {
            recent := recent[1..];
          }
        }
        assert chunks[..] == old(chunks[..])[i := chunks[i]];
      }
    }

    method MarkFailed(i: int, retryable: bool, now: int)
      modifies this, chunks
      ensures View() == S.MarkFailed(old(View()), i, retryable, now)
    {
      if i < 0 || i >= chunks.Length { return; }
      if chunks[i].state != Active { return; }
      activeCount := activeCount - 1;
      if retryable && chunks[i].attempts < cfg.maxTries {
        chunks[i] := chunks[i].(state := RetryWait, retryAfter := now + RetryBackoff(chunks[i].attempts));
      } else {
        chunks[i] := chunks[i].(state := Failed);
        fatal := true;
        cancelled := true;
      }
      assert chunks[..] == old(chunks[..])[i := chunks[i]];
    }

    method OnPressure(retryAfter: int, now: int)
      modifies this
      ensures View() == S.OnPressure(old(View()), retryAfter, now)
    {
      var half := -((-(effectiveTarget as real) / 2.0).Floor);
      var target := if half > 1 then half else 1;
      if target < effectiveTarget {
        effectiveTarget := target;
        pressureEvents := pressureEvents + 1;
        var cooldown := retryAfter;
        if cooldown <= 0 {
          cooldown := 30 * SECOND;
        }
        cooldownUntil := now + cooldown;
      }
    }

    method OnAdmissionFailure(slot: int, now: int)
      requires Valid()
      modifies this, workers
      ensures View() == S.OnAdmissionFailure(old(View()), slot, now)
    {
      if slot < 0 || slot >= |workers| { return; }
      var w := workers[slot];
      w.AdmissionFailure();
      if w.admissionFailures >= 2 {
        w.suppressedUntil := now + 30 * SECOND;
        if effectiveTarget > 1 {
          effectiveTarget := effectiveTarget - 1;
        }
      }
      assert Slots() == old(Slots())[slot := w.View()];
    }

    method OnWorkerSuccess(slot: int, bytes: int, d: int, now: int)
      requires Valid()
      modifies workers
      ensures View() == S.OnWorkerSuccess(old(View()), slot, bytes, d, now)
    {
      if 0 <= slot < |workers| {
        workers[slot].Success(bytes, d, now);
        assert Slots() == old(Slots())[slot := workers[slot].View()];
      }
    }

    method RollingMedianDuration() returns (median: int)
      ensures median == MedianOf(recent)
    {
      if |recent| == 0 { return 0; }
      var sorted := Sort(recent);
      return sorted[|sorted| / 2];
    }

    method HedgeEligible(frontier: nat, reserved: int, bufferSize: int, now: int) returns (r: int)
      ensures r == S.HedgeEligible(View(), frontier, reserved, bufferSize, now)
    {
      if !cfg.streamMode || hedgeActive || frontier >= chunks.Length { return -1; }
      if chunks[frontier].state != Active || chunks[frontier].hedged || |recent| < 4 { return -1; }
      var median := RollingMedianDuration();
      var laterDone := 0;
      var i := frontier + 1;
      while i < chunks.Length
        invariant frontier < i <= chunks.Length
        invariant laterDone == |S.LaterDone(chunks[..i], frontier)|
      {
        LaterPrefix(chunks[..], frontier, i);
        assert chunks[..][..i] == chunks[..i] && chunks[..][..i + 1] == chunks[..i + 1];
        if chunks[i].state == Completed || chunks[i].state == Written {
          laterDone := laterDone + 1;
        }
        i := i + 1;
      }
      assert chunks[..chunks.Length] == chunks[..];
      if laterDone < 2 || now - chunks[frontier].startTime < 2 * median { return -1; }
      if activeCount >= effectiveTarget || reserved + chunks[frontier].length > bufferSize { return -1; }
      return frontier;
    }

    method SlotInUse(slot: int) returns (inUse: bool)
      ensures inUse <==> S.SlotInUse(chunks[..], slot)
    {
      var j := 0;
      inUse := false;
      while j < chunks.Length
        invariant 0 <= j <= chunks.Length
        invariant !inUse && !S.SlotInUse(chunks[..j], slot)
      {
        if chunks[j].state == Active && chunks[j].workerSlot == slot {
          assert chunks[..][j] == chunks[j];
          return true;
        }
        j := j + 1;
      }
      assert chunks[..chunks.Length] == chunks[..];
    }

    method StartHedge(i: int, now: int) returns (r: Option<nat>)
      requires 0 <= effectiveTarget <= |workers|
      modifies this, chunks
      ensures (View(), r) == S.StartHedge(old(View()), i, now)
    {
      if i < 0 || i >= chunks.Length { return None; }
      var slot := 0;
      while slot < effectiveTarget
        invariant 0 <= slot <= effectiveTarget
        invariant S.FirstFreeSlot(View(), now, slot) == S.FirstFreeSlot(View(), now, 0)
        modifies {}
      {
        var inUse := SlotInUse(slot);
        var suppressed := workers[slot].IsSuppressedNow(now);
        if !inUse && !suppressed { break; }
        slot := slot + 1;
      }
      if slot == effectiveTarget {
        chunks[i] := chunks[i].(hedged := false);
        hedgeActive := false;
        hedgedChunk := -1;
        r := None;
      } else {
        chunks[i] := chunks[i].(hedged := true, attempts := chunks[i].attempts + 1);
        hedgeActive := true;
        hedgedChunk := i;
        activeCount := activeCount + 1;
        r := Some(slot);
      }
      assert chunks[..] == old(chunks[..])[i := chunks[i]];
    }

    method CancelHedge(i: int)
      modifies this
      ensures View() == S.CancelHedge(old(View()), i)
    {
      if hedgedChunk == i {
        hedgeActive := false;
        hedgedChunk := -1;
      }
      activeCount := activeCount - 1;
    }
  }

  method NewWorkers(n: nat) returns (slots: seq<WorkerStats>)
    ensures |slots| == n
    ensures forall j :: 0 <= j < n ==> fresh(slots[j]) && slots[j].View() == FRESH_SLOT
    ensures forall j, k :: 0 <= j < k < n ==> slots[j] != slots[k]
  {
    slots := [];
    var i := 0;
    while i < n
      invariant 0 <= i <= n && |slots| == i
      invariant forall j :: 0 <= j < i ==> fresh(slots[j]) && slots[j].View() == FRESH_SLOT
      invariant forall j, k :: 0 <= j < k < i ==> slots[j] != slots[k]
    {
      var w := new WorkerStats(i);
      slots := slots + [w];
      i := i + 1;
    }
  }

  method CountCompleted(chunks: array<Chunk>) returns (n: nat)
    ensures n == |InState(chunks[..], Completed)|
  {
    n := 0;
    var i := 0;
    while i < chunks.Length
      invariant 0 <= i <= chunks.Length
      invariant n == |InState(chunks[..i], Completed)|
    {
      CompletedPrefix(chunks[..], i);
      assert chunks[..][..i] == chunks[..i] && chunks[..][..i + 1] == chunks[..i + 1];
      if chunks[i].state == Completed {
        n := n + 1;
      }
      i := i + 1;
    }
    assert chunks[..chunks.Length] == chunks[..];
  }

  lemma CompletedPrefix(chunks: seq<Chunk>, i: nat)
    requires i < |chunks|
    ensures InState(chunks[..i + 1], Completed) ==
            InState(chunks[..i], Completed) + if chunks[i].state == Completed then {i} else {}
  {
  }

  lemma LaterPrefix(chunks: seq<Chunk>, frontier: nat, i: nat)
    requires frontier < i < |chunks|
    ensures S.LaterDone(chunks[..i + 1], frontier) ==
            S.LaterDone(chunks[..i], frontier) +
            if chunks[i].state == Completed || chunks[i].state == Written then {i} else {}
  {
  }
}
