/** Per-worker-slot statistics (internal/schedule/stats.go). */
module Stats {
  import opened Median

  const SLOT_WINDOW: nat := 16

  /** The value of a WorkerStats object. */
  datatype Slot = Slot(
    usefulBytes: int,
    successfulChunks: nat,
    admissionFailures: nat,
    recent: seq<int>,
    suppressedUntil: int,
    lastSuccess: int)

  const FRESH_SLOT := Slot(0, 0, 0, [], 0, 0)

  predicate IsSuppressed(w: Slot, now: int) {
    now < w.suppressedUntil
  }

  function RecordSuccess(w: Slot, bytes: int, d: int, now: int): Slot {
    w.(successfulChunks := w.successfulChunks + 1, usefulBytes := w.usefulBytes + bytes,
       admissionFailures := 0, lastSuccess := now, recent := Push(w.recent, d, SLOT_WINDOW))
  }

  function RecordAdmissionFailure(w: Slot): Slot {
    w.(admissionFailures := w.admissionFailures + 1)
  }

  class WorkerStats {
    const slotID: nat
    var usefulBytes: int
    var successfulChunks: nat
    var admissionFailures: nat
    var recent: seq<int>
    var suppressedUntil: int
    var lastSuccess: int

    ghost function View(): Slot
      reads this
    {
      Slot(usefulBytes, successfulChunks, admissionFailures, recent, suppressedUntil, lastSuccess)
    }

    constructor (slotID: nat)
      ensures this.slotID == slotID && View() == FRESH_SLOT
    {
      this.slotID := slotID;
      usefulBytes, successfulChunks, admissionFailures := 0, 0, 0;
      recent, suppressedUntil, lastSuccess := [], 0, 0;
    }

    method IsSuppressedNow(now: int) returns (suppressed: bool)
      ensures suppressed <==> IsSuppressed(View(), now)
    {
      suppressed := now < suppressedUntil;
    }

    method Success(bytes: int, d: int, now: int)
      modifies this
      ensures View() == RecordSuccess(old(View()), bytes, d, now)
    {
      successfulChunks := successfulChunks + 1;
      usefulBytes := usefulBytes + bytes;
      admissionFailures := 0;
      lastSuccess := now;
      recent := recent + [d];
      if |recent| > 16 {
        recent := recent[1..];
      }
    }

    method AdmissionFailure()
      modifies this
      ensures View() == RecordAdmissionFailure(old(View()))
    {
      admissionFailures := admissionFailures + 1;
    }
  }
}
