/** What every step of the worker pool keeps, whatever the network and the sinks answer. */
module PoolInvariants {
  import opened Basics
  import opened Chunks
  import opened Scheduling
  import opened WorkerPool

  /** The completed prefix the scheduler skips when it is created. */
  function Prefix(plan: seq<Chunk>): nat { SkipCompleted(plan, 0) }

  /** `isHedge` is set only while a duplicate is under way or being reported. */
  ghost predicate FlagsFit(v: Worker) {
    && (v.hedge ==> v.pc in {Opening, Reading, Delivering, Losing, Dropping, Won, Reporting, Finishing, Exited})
    && (v.pc in {Dropping, Won} ==> v.hedge)
  }

  /** Sizes, ranges and the adaptive target never leave their bounds. */
  ghost predicate Shape(p: Pool, plan: seq<Chunk>) {
    && |p.sched.chunks| == |plan|
    && (forall i :: 0 <= i < |plan| ==>
          && p.sched.chunks[i].index == plan[i].index
          && p.sched.chunks[i].start == plan[i].start
          && p.sched.chunks[i].length == plan[i].length)
    && |p.workers| == |p.sched.workers| == p.sched.cfg.connections
    && 1 <= p.sched.effectiveTarget <= p.sched.cfg.connections
    && Prefix(plan) <= p.sched.nextUndispatched <= |plan|
    && (forall w :: 0 <= w < |p.workers| && HasChunk(p.workers[w]) ==>
          Prefix(plan) <= p.workers[w].i < p.sched.nextUndispatched)
    && (forall w :: 0 <= w < |p.workers| ==> FlagsFit(p.workers[w]))
    && (!p.sched.cfg.streamMode ==>
          forall w :: 0 <= w < |p.workers| ==> p.workers[w].pc != Look && p.workers[w].pc != Start)
  }

  /** Chunks are dispatched in index order: what lies at or after nextUndispatched is untouched. */
  ghost predicate Order(p: Pool, plan: seq<Chunk>)
    requires |p.sched.chunks| == |plan|
  {
    && (forall i :: p.sched.nextUndispatched <= i < |plan| ==>
          p.sched.chunks[i].state == plan[i].state && p.sched.chunks[i].attempts == 0)
    && (forall i :: 0 <= i < |plan| && i < p.sched.nextUndispatched ==>
          p.sched.chunks[i].state != Pending && p.sched.chunks[i].state != Written)
    && (forall i :: 0 <= i < Prefix(plan) ==> p.sched.chunks[i].state == Completed)
  }

  ghost predicate Holds(p: Pool, w: nat, i: nat) {
    w < |p.workers| && Holding(p.workers[w]) && p.workers[w].i == i
  }

  /** Every active chunk is held by exactly one worker; a held chunk is active or already settled. */
  ghost predicate Ownership(p: Pool) {
    && (forall w: nat, i: nat :: Holds(p, w, i) ==>
          i < |p.sched.chunks| && p.sched.chunks[i].state in {Active, Completed, Failed})
    && (forall w: nat, v: nat, i: nat :: Holds(p, w, i) && Holds(p, v, i) ==> w == v)
    && (forall i: nat :: i < |p.sched.chunks| && p.sched.chunks[i].state == Active ==> exists w: nat :: Holds(p, w, i))
  }

  /** activeCount counts the active chunks and the duplicates not yet cancelled. */
  ghost predicate Tickets(p: Pool) {
    p.sched.activeCount == |InState(p.sched.chunks, Active)| + |HedgeTickets(p.workers)|
  }

  /** Chunks that were complete from the start but lay behind a gap and have been dispatched again. */
  function Redispatched(plan: seq<Chunk>, next: nat): set<nat> {
    set i: nat | i < |plan| && Prefix(plan) <= i < next && plan[i].state == Completed
  }

  /** The completion counter, with its exact drift. */
  ghost predicate Counter(p: Pool, plan: seq<Chunk>) {
    p.sched.completedCount == |InState(p.sched.chunks, Completed)| + |Redispatched(plan, p.sched.nextUndispatched)|
  }

  ghost predicate FatalIsFinal(p: Pool) {
    && (forall i :: 0 <= i < |p.sched.chunks| && p.sched.chunks[i].state == Failed ==> p.sched.fatal)
    && (p.sched.fatal ==> p.sched.cancelled)
  }

  /** A chunk completed in this run was accepted by the sink first. */
  ghost predicate Delivery(p: Pool, plan: seq<Chunk>)
    requires |p.sched.chunks| == |plan|
  {
    && (forall i :: 0 <= i < |plan| && Prefix(plan) <= i < p.sched.nextUndispatched && p.sched.chunks[i].state == Completed ==>
          i in p.delivered)
    && (forall w :: 0 <= w < |p.workers| && PastDelivery(p.workers[w]) ==> p.workers[w].i in p.delivered)
    && (forall i :: i in p.delivered ==> i < p.sched.nextUndispatched)
  }

  /** No retry delay and no suppression reaches further than 30 s past the last failure. */
  ghost predicate Timing(p: Pool) {
    && 0 <= p.lastFailure <= p.now
    && (forall i :: 0 <= i < |p.sched.chunks| && p.sched.chunks[i].state == RetryWait ==>
          p.sched.chunks[i].retryAfter <= p.lastFailure + COOLDOWN)
    && (forall w :: 0 <= w < |p.sched.workers| ==> p.sched.workers[w].suppressedUntil <= p.lastFailure + COOLDOWN)
  }

  /** What the collecting loop has seen, and what its verdict rests on. */
  ghost predicate Collected(p: Pool) {
    && (forall w :: w in p.collected ==> w < |p.workers| && p.workers[w].pc == Exited)
    && (forall w :: w in p.collected && !p.workers[w].ok ==> p.firstErr)
    && (p.verdict.Some? ==> forall w :: 0 <= w < |p.workers| ==> w in p.collected)
    && (p.verdict == Some(true) ==> !p.firstErr && p.sched.completedCount >= |p.sched.chunks|)
  }

  ghost predicate Inv(p: Pool, plan: seq<Chunk>) {
    && Shape(p, plan) && Order(p, plan) && Ownership(p) && Tickets(p) && Counter(p, plan)
    && FatalIsFinal(p) && Delivery(p, plan) && Timing(p) && Collected(p)
  }

  lemma InitInv(cfg: Config, plan: seq<Chunk>, now: nat)
    requires ValidConfig(cfg) && ValidPlan(plan)
    ensures Inv(Init(cfg, plan, now), plan)
  {
    var p := Init(cfg, plan, now);
    assert InState(plan, Active) == {};
    assert HedgeTickets(p.workers) == {};
    assert Redispatched(plan, Prefix(plan)) == {};
  }

  // ----- one step at a time

  /** Only worker w and only chunk i may differ. */
  ghost predicate Local(p: Pool, q: Pool, w: nat, i: nat) {
    && w < |p.workers| == |q.workers|
    && (forall v :: 0 <= v < |p.workers| && v != w ==> q.workers[v] == p.workers[v])
    && |q.sched.chunks| == |p.sched.chunks|
    && (forall j :: 0 <= j < |p.sched.chunks| && j != i ==> q.sched.chunks[j] == p.sched.chunks[j])
  }

  ghost predicate InStateAt(p: Pool, i: nat, st: State) {
    i < |p.sched.chunks| && p.sched.chunks[i].state == st
  }

  ghost predicate SameHold(a: Worker, b: Worker) {
    Holding(a) == Holding(b) && (Holding(a) ==> a.i == b.i)
  }

  ghost predicate HoldsActive(p: Pool, w: nat)
    requires w < |p.workers|
  {
    Holding(p.workers[w]) && p.workers[w].i < |p.sched.chunks| && p.sched.chunks[p.workers[w].i].state == Active
  }

  /** Worker w drops what it holds, if that is not active, or keeps it; no chunk changes state. */
  lemma OwnershipStays(p: Pool, q: Pool, w: nat, i: nat)
    requires Ownership(p) && Local(p, q, w, i)
    requires i < |p.sched.chunks| ==> q.sched.chunks[i].state == p.sched.chunks[i].state
    requires SameHold(p.workers[w], q.workers[w]) || (!Holding(q.workers[w]) && !HoldsActive(p, w))
    ensures Ownership(q)
  {
    forall j: nat | j < |q.sched.chunks| && q.sched.chunks[j].state == Active
      ensures exists v: nat :: Holds(q, v, j)
    {
      var v: nat :| Holds(p, v, j);
      assert Holds(q, v, j);
    }
    assert forall v: nat, j: nat :: Holds(q, v, j) ==> Holds(p, v, j);
  }

  /** Worker w takes chunk i, which nobody held. */
  lemma OwnershipTaken(p: Pool, q: Pool, w: nat, i: nat)
    requires Ownership(p) && Local(p, q, w, i) && i < |p.sched.chunks|
    requires forall v: nat :: !Holds(p, v, i)
    requires !Holding(p.workers[w]) && Holding(q.workers[w]) && q.workers[w].i == i
    requires q.sched.chunks[i].state == Active
    ensures Ownership(q)
  {
    forall j: nat | j < |q.sched.chunks| && q.sched.chunks[j].state == Active
      ensures exists v: nat :: Holds(q, v, j)
    {
      if j == i {
        assert Holds(q, w, i);
      } else {
        var v: nat :| Holds(p, v, j);
        assert Holds(q, v, j);
      }
    }
    assert forall v: nat, j: nat :: Holds(q, v, j) ==> Holds(p, v, j) || (v == w && j == i);
  }

  /** Chunk i stops being active; if it may be retried, its holder w lets go of it. */
  lemma OwnershipReleased(p: Pool, q: Pool, w: nat, i: nat)
    requires Ownership(p) && Local(p, q, w, i) && i < |p.sched.chunks|
    requires !Holding(q.workers[w]) && (Holding(p.workers[w]) ==> p.workers[w].i == i)
    requires q.sched.chunks[i].state in {Completed, Failed} ||
             (q.sched.chunks[i].state == RetryWait && Holding(p.workers[w]))
    ensures Ownership(q)
  {
    forall j: nat | j < |q.sched.chunks| && q.sched.chunks[j].state == Active
      ensures exists v: nat :: Holds(q, v, j)
    {
      var v: nat :| Holds(p, v, j);
      assert Holds(q, v, j);
    }
    assert forall v: nat, j: nat :: Holds(q, v, j) ==> Holds(p, v, j) && v != w;
    forall v: nat, j: nat | Holds(q, v, j)
      ensures j < |q.sched.chunks| && q.sched.chunks[j].state in {Active, Completed, Failed}
    {
      if j == i && q.sched.chunks[i].state == RetryWait {
        assert Holds(p, w, i) && Holds(p, v, i);
      }
    }
  }

  /** What one call of worker w may do to the pool, seen from outside: to its own variables, to chunk i, and to the
      scheduler's fields. */
  ghost predicate Moves(p: Pool, q: Pool, plan: seq<Chunk>, w: nat, i: nat) {
    && Local(p, q, w, i)
    && q.sched.cfg == p.sched.cfg && |q.sched.workers| == |p.sched.workers|
    && q.collected == p.collected && q.firstErr == p.firstErr && q.verdict == p.verdict
    && q.now == p.now && p.lastFailure <= q.lastFailure <= q.now
    && 1 <= q.sched.effectiveTarget <= q.sched.cfg.connections
    && (forall v :: 0 <= v < |q.sched.workers| ==> q.sched.workers[v].suppressedUntil <= q.lastFailure + COOLDOWN)
    && p.delivered <= q.delivered
    && (p.sched.fatal ==> q.sched.fatal) && (q.sched.fatal ==> q.sched.cancelled)
    && MovesWorker(p.workers[w], q.workers[w], q, plan)
    && (i < |p.sched.chunks| && q.sched.chunks[i] != p.sched.chunks[i] ==> MovesChunk(p, q, plan, i))
    && (q.sched.nextUndispatched == p.sched.nextUndispatched ||
        (q.sched.nextUndispatched == p.sched.nextUndispatched + 1 && i == p.sched.nextUndispatched < |p.sched.chunks| &&
         q.sched.chunks[i] != p.sched.chunks[i]))
    && (forall j :: j in q.delivered ==> j < q.sched.nextUndispatched)
    && Books(p, q, w)
  }

  /** How duplicates, deliveries and the work counter move with the worker. */
  ghost predicate Books(p: Pool, q: Pool, w: nat)
    requires w < |p.workers| == |q.workers|
  {
    var b, a := p.workers[w], q.workers[w];
    && p.hedges <= q.hedges
    && (a.hedge ==> b.hedge || p.hedges < q.hedges)
    && (forall j :: j in q.delivered ==> j in p.delivered || (PastDelivery(a) && a.i == j))
    && (PastDelivery(b) ==> (PastDelivery(a) && a.i == b.i) || (InStateAt(p, b.i, Active) ==> InStateAt(q, b.i, Completed)))
  }

  ghost predicate MovesWorker(before: Worker, after: Worker, q: Pool, plan: seq<Chunk>) {
    && before.pc != Exited
    && (HasChunk(after) ==> Prefix(plan) <= after.i < q.sched.nextUndispatched)
    && (!q.sched.cfg.streamMode ==> after.pc != Look && after.pc != Start)
    && (PastDelivery(after) ==> after.i in q.delivered)
    && FlagsFit(after)
  }

  ghost predicate MovesChunk(p: Pool, q: Pool, plan: seq<Chunk>, i: nat)
    requires i < |p.sched.chunks| == |q.sched.chunks|
  {
    var b, a := p.sched.chunks[i], q.sched.chunks[i];
    && a.index == b.index && a.start == b.start && a.length == b.length
    && Prefix(plan) <= i < q.sched.nextUndispatched
    && a.state != Pending && a.state != Written
    && (a.state == Completed ==> i in q.delivered)
    && (a.state == Failed ==> q.sched.fatal)
    && (a.state == RetryWait ==> a.retryAfter <= q.lastFailure + COOLDOWN)
  }

  lemma MovesKeepShape(p: Pool, q: Pool, plan: seq<Chunk>, w: nat, i: nat)
    requires Shape(p, plan) && Moves(p, q, plan, w, i)
    ensures Shape(q, plan)
  {
  }

  lemma MovesKeepOrder(p: Pool, q: Pool, plan: seq<Chunk>, w: nat, i: nat)
    requires Shape(p, plan) && Order(p, plan) && FatalIsFinal(p) && Timing(p) && Moves(p, q, plan, w, i)
    ensures Order(q, plan) && FatalIsFinal(q) && Timing(q)
  {
  }

  lemma MovesKeepDelivery(p: Pool, q: Pool, plan: seq<Chunk>, w: nat, i: nat)
    requires Shape(p, plan) && Delivery(p, plan) && Collected(p) && Moves(p, q, plan, w, i)
    ensures Delivery(q, plan) && Collected(q)
  {
  }

  // ----- the four kinds of move

  /** No chunk changes state, and a hedge ticket is taken or returned only together with activeCount. */
  ghost predicate Calm(p: Pool, q: Pool, w: nat, i: nat) {
    && Local(p, q, w, i)
    && (i < |p.sched.chunks| ==> q.sched.chunks[i].state == p.sched.chunks[i].state)
    && (i < |p.sched.chunks| && q.hedges == p.hedges ==> q.sched.chunks[i].attempts == p.sched.chunks[i].attempts)
    && q.work == p.work
    && q.sched.nextUndispatched == p.sched.nextUndispatched
    && q.sched.completedCount == p.sched.completedCount
    && SameHold(p.workers[w], q.workers[w])
    && q.sched.activeCount - p.sched.activeCount == Weight(q.workers[w]) - Weight(p.workers[w])
  }

  function Weight(v: Worker): int { if Hedging(v) then 1 else 0 }

  /** Worker w is given chunk i, either a retry that is due or the next one never dispatched. */
  ghost predicate Takes(p: Pool, q: Pool, w: nat, i: nat) {
    && Local(p, q, w, i) && i < |p.sched.chunks|
    && !Holding(p.workers[w]) && Holding(q.workers[w]) && q.workers[w].i == i
    && Weight(p.workers[w]) == Weight(q.workers[w])
    && p.sched.chunks[i].state != Active && q.sched.chunks[i].state == Active
    && q.sched.chunks[i].attempts == p.sched.chunks[i].attempts + 1 && q.work == p.work + 1
    && (if q.sched.nextUndispatched == p.sched.nextUndispatched then p.sched.chunks[i].state == RetryWait
        else i == p.sched.nextUndispatched && q.sched.nextUndispatched == i + 1)
    && q.sched.activeCount == p.sched.activeCount + 1 && q.sched.completedCount == p.sched.completedCount
  }

  /** Chunk i stops being active: completed, sent back to wait, or failed for good. */
  ghost predicate Releases(p: Pool, q: Pool, w: nat, i: nat) {
    && Local(p, q, w, i) && i < |p.sched.chunks|
    && p.sched.chunks[i].state == Active
    && q.sched.chunks[i].attempts == p.sched.chunks[i].attempts && q.work == p.work + 1
    && (q.sched.chunks[i].state == RetryWait ==> q.sched.chunks[i].attempts < q.sched.cfg.maxTries)
    && q.sched.nextUndispatched == p.sched.nextUndispatched
    && !Holding(q.workers[w]) && p.workers[w].i == i && (Holding(p.workers[w]) || p.workers[w].hedge)
    && Weight(p.workers[w]) == Weight(q.workers[w])
    && (q.sched.chunks[i].state in {Completed, Failed} ||
        (q.sched.chunks[i].state == RetryWait && Holding(p.workers[w])))
    && q.sched.activeCount == p.sched.activeCount - 1
    && q.sched.completedCount == p.sched.completedCount + if q.sched.chunks[i].state == Completed then 1 else 0
  }

  /** Worker w settles a chunk that somebody else has settled already: nothing happens to it. */
  ghost predicate Stale(p: Pool, q: Pool, w: nat, i: nat) {
    && Local(p, q, w, i) && q.sched.chunks == p.sched.chunks
    && q.sched.nextUndispatched == p.sched.nextUndispatched
    && q.sched.activeCount == p.sched.activeCount && q.sched.completedCount == p.sched.completedCount
    && !Holding(q.workers[w]) && !HoldsActive(p, w) && (Holding(p.workers[w]) || p.workers[w].hedge)
    && Weight(p.workers[w]) == Weight(q.workers[w])
  }

  lemma OwnershipKept(p: Pool, q: Pool, plan: seq<Chunk>, w: nat, i: nat)
    requires Shape(p, plan) && Ownership(p)
    requires Order(p, plan) && ValidPlan(plan)
    requires Calm(p, q, w, i) || Takes(p, q, w, i) || Releases(p, q, w, i) || Stale(p, q, w, i)
    ensures Ownership(q)
  {
    if Takes(p, q, w, i) {
      forall v: nat ensures !Holds(p, v, i) {}
      OwnershipTaken(p, q, w, i);
    } else if Releases(p, q, w, i) {
      OwnershipReleased(p, q, w, i);
    } else {
      OwnershipStays(p, q, w, i);
    }
  }

  function One(b: bool): int { if b then 1 else 0 }

  lemma StateCount(p: Pool, q: Pool, w: nat, i: nat, st: State)
    requires Local(p, q, w, i)
    ensures |InState(q.sched.chunks, st)| - |InState(p.sched.chunks, st)| == One(InStateAt(q, i, st)) - One(InStateAt(p, i, st))
  {
    if i < |p.sched.chunks| {
      assert q.sched.chunks == p.sched.chunks[i := q.sched.chunks[i]];
      InStateUpdate(p.sched.chunks, i, q.sched.chunks[i], st);
      assert i in InState(p.sched.chunks, st) <==> InStateAt(p, i, st);
    } else {
      assert q.sched.chunks == p.sched.chunks;
    }
  }

  lemma HedgeCount(p: Pool, q: Pool, w: nat, i: nat)
    requires Local(p, q, w, i)
    ensures |HedgeTickets(q.workers)| - |HedgeTickets(p.workers)| == Weight(q.workers[w]) - Weight(p.workers[w])
  {
    assert q.workers == p.workers[w := q.workers[w]];
    HedgeTicketsUpdate(p.workers, w, q.workers[w]);
    assert w in HedgeTickets(p.workers) <==> Hedging(p.workers[w]);
  }

  lemma TicketsKept(p: Pool, q: Pool, w: nat, i: nat)
    requires Tickets(p)
    requires Calm(p, q, w, i) || Takes(p, q, w, i) || Releases(p, q, w, i) || Stale(p, q, w, i)
    ensures Tickets(q)
  {
    StateCount(p, q, w, i, Active);
    HedgeCount(p, q, w, i);
  }

  lemma RedispatchCount(plan: seq<Chunk>, next: nat)
    requires Prefix(plan) <= next < |plan|
    ensures |Redispatched(plan, next + 1)| == |Redispatched(plan, next)| + One(plan[next].state == Completed)
  {
    if plan[next].state == Completed {
      assert Redispatched(plan, next + 1) == Redispatched(plan, next) + {next};
    } else {
      assert Redispatched(plan, next + 1) == Redispatched(plan, next);
    }
  }

  lemma CounterKept(p: Pool, q: Pool, plan: seq<Chunk>, w: nat, i: nat)
    requires Shape(p, plan) && Order(p, plan) && Counter(p, plan)
    requires Calm(p, q, w, i) || Takes(p, q, w, i) || Releases(p, q, w, i) || Stale(p, q, w, i)
    ensures Counter(q, plan)
  {
    StateCount(p, q, w, i, Completed);
    if q.sched.nextUndispatched != p.sched.nextUndispatched {
      RedispatchCount(plan, i);
    }
  }

  /** Any of these moves keeps the whole invariant. */
  lemma MoveKeeps(p: Pool, q: Pool, plan: seq<Chunk>, w: nat, i: nat)
    requires ValidPlan(plan) && Inv(p, plan) && Moves(p, q, plan, w, i)
    requires Calm(p, q, w, i) || Takes(p, q, w, i) || Releases(p, q, w, i) || Stale(p, q, w, i)
    ensures Inv(q, plan)
  {
    hide Shape, Order, FatalIsFinal, Delivery, Timing, Collected, Moves;
    hide Ownership, Tickets, Counter, Calm, Takes, Releases, Stale, ValidPlan;
    MovesKeepShape(p, q, plan, w, i);
    MovesKeepOrder(p, q, plan, w, i);
    MovesKeepDelivery(p, q, plan, w, i);
    OwnershipKept(p, q, plan, w, i);
    TicketsKept(p, q, w, i);
    CounterKept(p, q, plan, w, i);
  }

  // ----- each call is one of these moves

  /** The part of the invariant that the calls rely on. */
  ghost predicate Settled(p: Pool, plan: seq<Chunk>) {
    Shape(p, plan) && Timing(p) && Delivery(p, plan) && FatalIsFinal(p)
  }

  lemma CheckRootMoves(p: Pool, plan: seq<Chunk>, w: nat)
    requires Settled(p, plan) && Stands(p, w, Head)
    ensures var q, i := CheckRootStep(p, w), |p.sched.chunks|;
            Moves(p, q, plan, w, i) && Calm(p, q, w, i)
  {
  }

  lemma ActiveInRange(p: Pool, plan: seq<Chunk>, i: nat)
    requires Shape(p, plan) && Order(p, plan) && ValidPlan(plan)
    requires i < |p.sched.chunks| && p.sched.chunks[i].state in {Active, RetryWait}
    ensures Prefix(plan) <= i < p.sched.nextUndispatched
  {
  }

  lemma LookMoves(p: Pool, plan: seq<Chunk>, w: nat, frontier: nat, reserved: int, bufferSize: int)
    requires Settled(p, plan) && Order(p, plan) && ValidPlan(plan) && Stands(p, w, Look)
    ensures var q, i := LookStep(p, w, frontier, reserved, bufferSize), |p.sched.chunks|;
            Moves(p, q, plan, w, i) && Calm(p, q, w, i)
  {
    hide HedgeEligible, Order, ValidPlan;
    var r := HedgeEligible(p.sched, frontier, reserved, bufferSize, p.now);
    if r >= 0 { ActiveInRange(p, plan, r); }
  }

  lemma StartHedgeMoves(p: Pool, plan: seq<Chunk>, w: nat)
    requires Settled(p, plan) && Order(p, plan) && ValidPlan(plan) && Stands(p, w, Start)
    ensures var q, i := StartHedgeStep(p, w), p.workers[w].i;
            Moves(p, q, plan, w, i) && Calm(p, q, w, i)
  {
    hide StartHedge;
    StartHedgeEffect(p.sched, p.workers[w].i, p.now);
  }

  lemma ReserveMoves(p: Pool, plan: seq<Chunk>, w: nat, ok: bool)
    requires Settled(p, plan) && Stands(p, w, Reserving)
    ensures var q, i := ReserveStep(p, w, ok), |p.sched.chunks|;
            Moves(p, q, plan, w, i) && Calm(p, q, w, i)
  {
  }

  lemma OpenMoves(p: Pool, plan: seq<Chunk>, w: nat, ok: bool)
    requires Settled(p, plan) && Stands(p, w, Opening)
    ensures var q, i := OpenStep(p, w, ok), |p.sched.chunks|;
            Moves(p, q, plan, w, i) && Calm(p, q, w, i)
  {
  }

  lemma ReadMoves(p: Pool, plan: seq<Chunk>, w: nat, ok: bool)
    requires Settled(p, plan) && Stands(p, w, Reading)
    ensures var q, i := ReadStep(p, w, ok), |p.sched.chunks|;
            Moves(p, q, plan, w, i) && Calm(p, q, w, i)
  {
  }

  lemma AdmissionMoves(p: Pool, plan: seq<Chunk>, w: nat)
    requires Settled(p, plan) && Stands(p, w, Turned)
    ensures var q, i := AdmissionStep(p, w), |p.sched.chunks|;
            Moves(p, q, plan, w, i) && Calm(p, q, w, i)
  {
    hide OnAdmissionFailure;
    OnAdmissionFailureEffect(p.sched, p.workers[w].slot, p.now);
  }

  lemma DeliverMoves(p: Pool, plan: seq<Chunk>, w: nat, ok: bool)
    requires Settled(p, plan) && Stands(p, w, Delivering)
    ensures var q, i := DeliverStep(p, w, ok), |p.sched.chunks|;
            Moves(p, q, plan, w, i) && Calm(p, q, w, i)
  {
  }

  lemma CancelHedgeMoves(p: Pool, plan: seq<Chunk>, w: nat)
    requires Settled(p, plan) && (Stands(p, w, Dropping) || Stands(p, w, Won))
    ensures var q, i := CancelHedgeStep(p, w), |p.sched.chunks|;
            Moves(p, q, plan, w, i) && Calm(p, q, w, i)
  {
  }

  lemma SuccessMoves(p: Pool, plan: seq<Chunk>, w: nat)
    requires Settled(p, plan) && Stands(p, w, Reporting)
    ensures var q, i := SuccessStep(p, w), |p.sched.chunks|;
            Moves(p, q, plan, w, i) && Calm(p, q, w, i)
  {
  }

  lemma CompleteMoves(p: Pool, plan: seq<Chunk>, w: nat)
    requires Settled(p, plan) && Stands(p, w, Finishing)
    ensures var q, i := CompleteStep(p, w), p.workers[w].i;
            Moves(p, q, plan, w, i) && (Releases(p, q, w, i) || Stale(p, q, w, i))
  {
  }

  lemma FailMoves(p: Pool, plan: seq<Chunk>, w: nat)
    requires Settled(p, plan) && (Stands(p, w, Failing) || Stands(p, w, Losing))
    ensures Moves(p, FailStep(p, w), plan, w, p.workers[w].i)
  {
    hide MarkFailed;
    var i, retryable := p.workers[w].i, p.workers[w].pc == Failing;
    MarkFailedEffect(p.sched, i, retryable, p.now);
    LosesMoves(p, FailStep(p, w), plan, w, MarkFailed(p.sched, i, retryable, p.now));
  }

  lemma LosesMoves(p: Pool, q: Pool, plan: seq<Chunk>, w: nat, s: Sched)
    requires Settled(p, plan) && (Stands(p, w, Failing) || Stands(p, w, Losing))
    requires |q.workers| == |p.workers| && q.workers == p.workers[w := q.workers[w]]
    requires q.workers[w].pc in {Head, Exited}
    requires q.workers[w].hedge ==> q.workers[w].pc == Exited && p.workers[w].hedge
    requires q == p.(sched := s, lastFailure := p.now, work := p.work + 1, workers := q.workers)
    requires |s.chunks| == |p.sched.chunks| && p.workers[w].i < |s.chunks|
    requires var i := p.workers[w].i;
             && s == p.sched.(chunks := s.chunks, activeCount := s.activeCount, fatal := s.fatal, cancelled := s.cancelled)
             && s.chunks == p.sched.chunks[i := p.sched.chunks[i].(state := s.chunks[i].state, retryAfter := s.chunks[i].retryAfter)]
             && (s.chunks == p.sched.chunks || s.chunks[i].state in {RetryWait, Failed})
             && (s.chunks[i].state == RetryWait && s.chunks != p.sched.chunks ==> s.chunks[i].retryAfter <= p.now + COOLDOWN)
             && (p.sched.fatal ==> s.fatal) && (s.fatal ==> s.cancelled)
             && (s.chunks[i].state == Failed ==> s.fatal)
    ensures Moves(p, q, plan, w, p.workers[w].i)
  {
  }

  lemma FailReleases(p: Pool, plan: seq<Chunk>, w: nat)
    requires Settled(p, plan) && (Stands(p, w, Failing) || Stands(p, w, Losing))
    ensures var q, i := FailStep(p, w), p.workers[w].i; Releases(p, q, w, i) || Stale(p, q, w, i)
  {
    hide MarkFailed;
    MarkFailedEffect(p.sched, p.workers[w].i, p.workers[w].pc == Failing, p.now);
  }

  /** The chunk an assignment concerns; none if the worker is not given one. */
  function AskedChunk(p: Pool, w: nat): nat
    requires w < |p.workers|
  {
    var a := NextAssignment(p.sched, p.workers[w].slot, p.rootDone, p.now).1;
    if a.Assigned? then a.i else |p.sched.chunks|
  }

  lemma AskMoves(p: Pool, plan: seq<Chunk>, w: nat)
    requires Settled(p, plan) && Order(p, plan) && ValidPlan(plan) && Stands(p, w, Ask)
    ensures Moves(p, AskStep(p, w), plan, w, AskedChunk(p, w))
  {
    hide NextAssignment, Order, ValidPlan;
    NextAssignmentEffect(p.sched, p.workers[w].slot, p.rootDone, p.now);
    var (s, a) := NextAssignment(p.sched, p.workers[w].slot, p.rootDone, p.now);
    if a.Assigned? {
      if Retryable(p.sched.chunks[a.i], p.now) { ActiveInRange(p, plan, a.i); }
      GivenMoves(p, AskStep(p, w), plan, w, a.i, s);
    } else {
      NotGivenMoves(p, AskStep(p, w), plan, w, s);
    }
  }

  lemma GivenMoves(p: Pool, q: Pool, plan: seq<Chunk>, w: nat, i: nat, s: Sched)
    requires Settled(p, plan) && Stands(p, w, Ask) && Prefix(plan) <= i < |p.sched.chunks|
    requires q == Put(p.(sched := s, work := p.work + 1), w,
                      p.workers[w].(pc := if s.cfg.streamMode then Reserving else Opening, i := i))
    requires s.cfg == p.sched.cfg && s.workers == p.sched.workers && s.fatal == p.sched.fatal && s.cancelled == p.sched.cancelled
    requires 1 <= s.effectiveTarget <= s.cfg.connections
    requires s.chunks == Assign(p.sched, i, p.workers[w].slot, p.now).chunks
    requires if s.nextUndispatched == p.sched.nextUndispatched then i < s.nextUndispatched
             else i == p.sched.nextUndispatched && s.nextUndispatched == i + 1
    ensures Moves(p, q, plan, w, i)
  {
  }

  lemma NotGivenMoves(p: Pool, q: Pool, plan: seq<Chunk>, w: nat, s: Sched)
    requires Settled(p, plan) && Stands(p, w, Ask)
    requires q == p.(sched := s) || exists ok :: q == Put(p.(sched := s), w, p.workers[w].(pc := Exited, ok := ok))
    requires s.cfg == p.sched.cfg && s.workers == p.sched.workers && s.fatal == p.sched.fatal && s.cancelled == p.sched.cancelled
    requires 1 <= s.effectiveTarget <= s.cfg.connections
    requires s.chunks == p.sched.chunks && s.nextUndispatched == p.sched.nextUndispatched
    ensures Moves(p, q, plan, w, |p.sched.chunks|)
  {
  }

  /** The chunk given is a retry that is due or the next one never dispatched; neither is active. */
  lemma GivenChunk(p: Pool, plan: seq<Chunk>, w: nat)
    requires Shape(p, plan) && Order(p, plan) && ValidPlan(plan) && Stands(p, w, Ask)
    ensures var (s, a) := NextAssignment(p.sched, p.workers[w].slot, p.rootDone, p.now);
            a.Assigned? ==>
              && p.sched.chunks[a.i].state != Active
              && (if s.nextUndispatched == p.sched.nextUndispatched then p.sched.chunks[a.i].state == RetryWait
                  else a.i == p.sched.nextUndispatched && s.nextUndispatched == a.i + 1)
  {
    hide NextAssignment;
    NextAssignmentEffect(p.sched, p.workers[w].slot, p.rootDone, p.now);
  }

  lemma AskTakesOrNot(p: Pool, plan: seq<Chunk>, w: nat)
    requires Settled(p, plan) && Order(p, plan) && ValidPlan(plan) && Stands(p, w, Ask)
    ensures var q, i := AskStep(p, w), AskedChunk(p, w); Calm(p, q, w, i) || Takes(p, q, w, i)
  {
    GivenChunk(p, plan, w);
    NextAssignmentEffect(p.sched, p.workers[w].slot, p.rootDone, p.now);
    hide NextAssignment, Shape, Order, ValidPlan, Timing, Delivery, FatalIsFinal, Settled, Retryable;
  }

  // ----- the invariant over whole runs

  predicate IsAmbient(e: Event) {
    e.Tick? || e.RootCancel? || e.Propagate? || e.Collect? || e.Verdict?
  }

  /** The surroundings touch only the clock, the cancellation flags and the driver's variables. */
  ghost predicate Untouched(p: Pool, q: Pool) {
    && q.workers == p.workers && q.delivered == p.delivered && q.lastFailure == p.lastFailure && q.now >= p.now
    && q.hedges == p.hedges && q.work == p.work
    && q.sched == p.sched.(cancelled := q.sched.cancelled)
    && (p.sched.cancelled ==> q.sched.cancelled)
  }

  lemma AmbientEventKeeps(p: Pool, plan: seq<Chunk>, e: Event)
    requires Inv(p, plan) && IsAmbient(e) && Enabled(p, e)
    ensures Inv(Apply(p, e), plan)
  {
    hide Enabled, Apply, Untouched, Collected;
    hide Shape, Order, Ownership, Tickets, Counter, FatalIsFinal, Delivery, Timing;
    AmbientCollected(p, e);
    AmbientUntouched(p, e);
    UntouchedKeeps(p, Apply(p, e), plan);
    UntouchedOwnership(p, Apply(p, e));
  }

  lemma UntouchedKeeps(p: Pool, q: Pool, plan: seq<Chunk>)
    requires Untouched(p, q) && Shape(p, plan) && Order(p, plan) && FatalIsFinal(p) && Delivery(p, plan) && Timing(p)
    requires Tickets(p) && Counter(p, plan)
    ensures Shape(q, plan) && Order(q, plan) && FatalIsFinal(q) && Delivery(q, plan) && Timing(q)
    ensures Tickets(q) && Counter(q, plan)
  {
  }

  lemma UntouchedOwnership(p: Pool, q: Pool)
    requires Untouched(p, q) && Ownership(p)
    ensures Ownership(q)
  {
    assert forall w: nat, i: nat :: Holds(p, w, i) <==> Holds(q, w, i);
  }

  lemma AmbientCollected(p: Pool, e: Event)
    requires Collected(p) && IsAmbient(e) && Enabled(p, e)
    ensures Collected(Apply(p, e))
  {
  }

  lemma AmbientUntouched(p: Pool, e: Event)
    requires IsAmbient(e) && Enabled(p, e)
    ensures Untouched(p, Apply(p, e))
  {
  }

  /** The chunk a call concerns; none if it cannot change one. */
  function Subject(p: Pool, e: Event): nat
    requires Enabled(p, e)
  {
    match e
    case CallStartHedge(w) => p.workers[w].i
    case CallNextAssignment(w) => AskedChunk(p, w)
    case CallMarkFailed(w) => p.workers[w].i
    case CallMarkComplete(w) => p.workers[w].i
    case _ => |p.sched.chunks|
  }

  ghost predicate SomeMove(p: Pool, q: Pool, w: nat, i: nat) {
    Calm(p, q, w, i) || Takes(p, q, w, i) || Releases(p, q, w, i) || Stale(p, q, w, i)
  }

  /** Every call of a worker is one of the four kinds of move. */
  lemma CallMoves(p: Pool, plan: seq<Chunk>, e: Event)
    requires ValidPlan(plan) && Settled(p, plan) && Order(p, plan) && !IsAmbient(e) && Enabled(p, e)
    ensures Moves(p, Apply(p, e), plan, e.w, Subject(p, e)) && SomeMove(p, Apply(p, e), e.w, Subject(p, e))
  {
    hide Order, Settled, Moves, Calm, Takes, Releases, Stale, ValidPlan;
    hide CheckRootStep, LookStep, StartHedgeStep, AskStep, ReserveStep, OpenStep, ReadStep;
    hide AdmissionStep, FailStep, DeliverStep, CancelHedgeStep, SuccessStep, CompleteStep, AskedChunk;
    match e
    case CheckRoot(w) => CheckRootMoves(p, plan, w);
    case CallHedgeEligible(w, frontier, reserved, bufferSize) => LookMoves(p, plan, w, frontier, reserved, bufferSize);
    case CallStartHedge(w) => StartHedgeMoves(p, plan, w);
    case CallNextAssignment(w) => AskMoves(p, plan, w); AskTakesOrNot(p, plan, w);
    case CallReserve(w, ok) => ReserveMoves(p, plan, w, ok);
    case CallOpenRange(w, ok) => OpenMoves(p, plan, w, ok);
    case CallReadFull(w, ok) => ReadMoves(p, plan, w, ok);
    case CallOnAdmissionFailure(w) => AdmissionMoves(p, plan, w);
    case CallMarkFailed(w) => FailMoves(p, plan, w); FailReleases(p, plan, w);
    case CallDeliver(w, ok) => DeliverMoves(p, plan, w, ok);
    case CallCancelHedge(w) => CancelHedgeMoves(p, plan, w);
    case CallOnWorkerSuccess(w) => SuccessMoves(p, plan, w);
    case CallMarkComplete(w) => CompleteMoves(p, plan, w);
  }

  lemma CallKeeps(p: Pool, plan: seq<Chunk>, e: Event)
    requires ValidPlan(plan) && Inv(p, plan) && !IsAmbient(e) && Enabled(p, e)
    ensures Inv(Apply(p, e), plan) && Apply(p, e).sched.cfg == p.sched.cfg
  {
    hide Apply, Enabled, Subject, Moves, Calm, Takes, Releases, Stale, ValidPlan;
    hide Shape, Order, Ownership, Tickets, Counter, FatalIsFinal, Delivery, Timing, Collected;
    CallMoves(p, plan, e);
    MoveKeeps(p, Apply(p, e), plan, e.w, Subject(p, e));
    MovesConfig(p, Apply(p, e), plan, e.w, Subject(p, e));
  }

  lemma MovesConfig(p: Pool, q: Pool, plan: seq<Chunk>, w: nat, i: nat)
    requires Moves(p, q, plan, w, i)
    ensures q.sched.cfg == p.sched.cfg
  {
  }

  /** The invariant of the pool is kept by every event. */
  lemma StepKeeps(p: Pool, plan: seq<Chunk>, e: Event)
    requires ValidPlan(plan) && Inv(p, plan) && Enabled(p, e)
    ensures Inv(Apply(p, e), plan) && Apply(p, e).sched.cfg == p.sched.cfg
  {
    hide Inv, Apply, ValidPlan;
    if IsAmbient(e) {
      AmbientUntouched(p, e);
      AmbientEventKeeps(p, plan, e);
    } else {
      CallKeeps(p, plan, e);
    }
  }

  lemma {:induction false} RunKeeps(p: Pool, plan: seq<Chunk>, es: seq<Event>)
    requires ValidPlan(plan) && Inv(p, plan) && Legal(p, es)
    ensures Inv(Exec(p, es), plan) && Exec(p, es).sched.cfg == p.sched.cfg
    decreases |es|
  {
    hide Inv, Apply, Enabled, ValidPlan;
    if es != [] {
      StepKeeps(p, plan, es[0]);
      RunKeeps(Apply(p, es[0]), plan, es[1..]);
    }
  }

  // ----- facts about single events

  /** Only a successful delivery adds to the delivered chunks, and only the verdict sets the verdict. */
  lemma EventEffects(p: Pool, e: Event)
    requires Enabled(p, e)
    ensures Apply(p, e).delivered ==
            if e.CallDeliver? && e.ok then p.delivered + {p.workers[e.w].i} else p.delivered
    ensures !e.Verdict? ==> Apply(p, e).verdict == p.verdict
    ensures e.Verdict? ==> p.verdict.None? && Apply(p, e).verdict.Some?
  {
  }

  lemma SameWorkers(p: Pool, e: Event)
    requires Enabled(p, e)
    ensures |Apply(p, e).workers| == |p.workers|
  {
    hide HedgeEligible, StartHedge, NextAssignment, MarkComplete, MarkFailed, OnAdmissionFailure, OnWorkerSuccess, CancelHedge;
  }
}
