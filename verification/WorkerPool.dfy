/** The scheduler together with the goroutines of `workerLoop` and the collecting loop of `runWorkers`
    (internal/job/runner.go). One event is one call a goroutine makes, or one step of its surroundings; what the
    network and the sinks answer is part of the event. A run is any sequence of enabled events. */
module WorkerPool {
  import opened Basics
  import opened Chunks
  import opened Scheduling

  /** Where a worker stands in the body of its loop: the call it makes next. */
  datatype PC =
    | Head         // the loop's cancellation check
    | Look         // HedgeEligible
    | Start        // StartHedge
    | Ask          // NextAssignment
    | Reserving    // Reserve
    | Opening      // OpenRange
    | Reading      // ReadFull
    | Turned       // OnAdmissionFailure
    | Failing      // MarkFailed, retryable
    | Dropping     // CancelHedge, the duplicate failed
    | Delivering   // Submit or WriteChunk
    | Losing       // MarkFailed, final, then return the error
    | Won          // CancelHedge, the duplicate was delivered
    | Reporting    // OnWorkerSuccess
    | Finishing    // MarkComplete
    | Exited       // the goroutine has returned

  /** The goroutine's local variables: its slot, the chunk at hand, `isHedge`, and whether it returned nil. */
  datatype Worker = Worker(slot: int, pc: PC, i: nat, hedge: bool, ok: bool)

  datatype Pool = Pool(
    sched: Sched,
    workers: seq<Worker>,
    now: int,
    rootDone: bool,              // the root context is cancelled
    collected: set<nat>,         // results received from errCh
    firstErr: bool,
    verdict: Option<bool>,       // runWorkers returned: success or not
    // history
    delivered: set<nat>,         // chunks a sink has accepted
    hedges: nat,                 // duplicates ever started
    work: nat,                   // assignments, completions and failures so far
    lastFailure: int)

  datatype Event =
    | Tick(d: nat)
    | RootCancel
    | Propagate                                        // <-ctx.Done(); sched.Cancel()
    | CheckRoot(w: nat)
    | CallHedgeEligible(w: nat, frontier: nat, reserved: int, bufferSize: int)
    | CallStartHedge(w: nat)
    | CallNextAssignment(w: nat)
    | CallReserve(w: nat, ok: bool)
    | CallOpenRange(w: nat, ok: bool)
    | CallReadFull(w: nat, ok: bool)
    | CallOnAdmissionFailure(w: nat)
    | CallMarkFailed(w: nat)
    | CallDeliver(w: nat, ok: bool)
    | CallCancelHedge(w: nat)
    | CallOnWorkerSuccess(w: nat)
    | CallMarkComplete(w: nat)
    | Collect(w: nat)
    | Verdict

  /** The chunks handed to the scheduler: a plan in which some chunks may already be complete. */
  ghost predicate ValidPlan(plan: seq<Chunk>) {
    forall i :: 0 <= i < |plan| ==> (plan[i].state == Pending || plan[i].state == Completed) && plan[i].attempts == 0
  }

  predicate ValidConfig(cfg: Config) {
    cfg.connections >= 1 && cfg.maxTries >= 1 && cfg.splitSize >= 1 && cfg.bufferSize >= 0
  }

  function Init(cfg: Config, plan: seq<Chunk>, now: nat): Pool
    requires ValidConfig(cfg)
  {
    Pool(NewSched(cfg, plan), seq(cfg.connections, w => Worker(w, Head, 0, false, false)), now,
         false, {}, false, None, {}, 0, 0, 0)
  }

  predicate Stands(p: Pool, w: nat, pc: PC) {
    w < |p.workers| && p.workers[w].pc == pc
  }

  predicate Enabled(p: Pool, e: Event) {
    match e
    case Tick(_) => true
    case RootCancel => true
    case Propagate => p.rootDone
    case CheckRoot(w) => Stands(p, w, Head)
    case CallHedgeEligible(w, _, _, _) => Stands(p, w, Look)
    case CallStartHedge(w) => Stands(p, w, Start) && 0 <= p.sched.effectiveTarget <= |p.sched.workers|
    case CallNextAssignment(w) => Stands(p, w, Ask)
    case CallReserve(w, _) => Stands(p, w, Reserving)
    case CallOpenRange(w, _) => Stands(p, w, Opening)
    case CallReadFull(w, _) => Stands(p, w, Reading)
    case CallOnAdmissionFailure(w) => Stands(p, w, Turned)
    case CallMarkFailed(w) => Stands(p, w, Failing) || Stands(p, w, Losing)
    case CallDeliver(w, _) => Stands(p, w, Delivering)
    case CallCancelHedge(w) => Stands(p, w, Dropping) || Stands(p, w, Won)
    case CallOnWorkerSuccess(w) => Stands(p, w, Reporting) && p.workers[w].i < |p.sched.chunks|
    case CallMarkComplete(w) => Stands(p, w, Finishing)
    case Collect(w) => Stands(p, w, Exited) && w !in p.collected
    case Verdict => p.verdict.None? && forall w :: 0 <= w < |p.workers| ==> w in p.collected
  }

  function Put(p: Pool, w: nat, v: Worker): Pool
    requires w < |p.workers|
  {
    p.(workers := p.workers[w := v])
  }

  function Move(p: Pool, w: nat, pc: PC): Pool
    requires w < |p.workers|
  {
    Put(p, w, p.workers[w].(pc := pc))
  }

  /** Back to the top of the loop, where `isHedge` is declared afresh. */
  function Again(p: Pool, w: nat): Pool
    requires w < |p.workers|
  {
    Put(p, w, p.workers[w].(pc := Head, hedge := false))
  }

  function CheckRootStep(p: Pool, w: nat): Pool
    requires Stands(p, w, Head)
  {
    if p.rootDone then Put(p, w, p.workers[w].(pc := Exited, ok := false))
    else Move(p, w, if p.sched.cfg.streamMode then Look else Ask)
  }

  function LookStep(p: Pool, w: nat, frontier: nat, reserved: int, bufferSize: int): Pool
    requires Stands(p, w, Look)
  {
    var r := HedgeEligible(p.sched, frontier, reserved, bufferSize, p.now);
    if r >= 0 then Put(p, w, p.workers[w].(pc := Start, i := r)) else Move(p, w, Ask)
  }

  function StartHedgeStep(p: Pool, w: nat): Pool
    requires Stands(p, w, Start) && 0 <= p.sched.effectiveTarget <= |p.sched.workers|
  {
    var (s, r) := StartHedge(p.sched, p.workers[w].i, p.now);
    match r
    case None => Move(p.(sched := s), w, Ask)
    case Some(slot) =>
      // the goroutine keeps the borrowed slot number from here on
      Put(p.(sched := s, hedges := p.hedges + 1), w, p.workers[w].(slot := slot, pc := Opening, hedge := true))
  }

  function AskStep(p: Pool, w: nat): Pool
    requires Stands(p, w, Ask)
  {
    var (s, a) := NextAssignment(p.sched, p.workers[w].slot, p.rootDone, p.now);
    var q := p.(sched := s);
    match a
    case Blocked => q
    case AllDone => Put(q, w, p.workers[w].(pc := Exited, ok := true))
    case Refused => Put(q, w, p.workers[w].(pc := Exited, ok := false))
    case Assigned(i) =>
      Put(q.(work := p.work + 1), w, p.workers[w].(pc := if s.cfg.streamMode then Reserving else Opening, i := i))
  }

  function ReserveStep(p: Pool, w: nat, ok: bool): Pool
    requires Stands(p, w, Reserving)
  {
    Move(p, w, if ok then Opening else Failing)
  }

  function OpenStep(p: Pool, w: nat, ok: bool): Pool
    requires Stands(p, w, Opening)
  {
    Move(p, w, if ok then Reading else if p.workers[w].hedge then Dropping else Turned)
  }

  function ReadStep(p: Pool, w: nat, ok: bool): Pool
    requires Stands(p, w, Reading)
  {
    Move(p, w, if ok then Delivering else if p.workers[w].hedge then Dropping else Failing)
  }

  function AdmissionStep(p: Pool, w: nat): Pool
    requires Stands(p, w, Turned)
  {
    Move(p.(sched := OnAdmissionFailure(p.sched, p.workers[w].slot, p.now), lastFailure := p.now), w, Failing)
  }

  function FailStep(p: Pool, w: nat): Pool
    requires Stands(p, w, Failing) || Stands(p, w, Losing)
  {
    var retryable := p.workers[w].pc == Failing;
    var q := p.(sched := MarkFailed(p.sched, p.workers[w].i, retryable, p.now), lastFailure := p.now, work := p.work + 1);
    if retryable then Again(q, w) else Put(q, w, p.workers[w].(pc := Exited, ok := false))
  }

  function DeliverStep(p: Pool, w: nat, ok: bool): Pool
    requires Stands(p, w, Delivering)
  {
    if ok then
      Move(p.(delivered := p.delivered + {p.workers[w].i}), w, if p.workers[w].hedge then Won else Reporting)
    else Move(p, w, Losing)
  }

  function CancelHedgeStep(p: Pool, w: nat): Pool
    requires Stands(p, w, Dropping) || Stands(p, w, Won)
  {
    var q := p.(sched := CancelHedge(p.sched, p.workers[w].i));
    if p.workers[w].pc == Won then Move(q, w, Reporting) else Again(q, w)
  }

  function SuccessStep(p: Pool, w: nat): Pool
    requires Stands(p, w, Reporting) && p.workers[w].i < |p.sched.chunks|
  {
    var c := p.sched.chunks[p.workers[w].i];
    Move(p.(sched := OnWorkerSuccess(p.sched, p.workers[w].slot, c.length, p.now - c.startTime, p.now)), w, Finishing)
  }

  function CompleteStep(p: Pool, w: nat): Pool
    requires Stands(p, w, Finishing)
  {
    Again(p.(sched := MarkComplete(p.sched, p.workers[w].i, p.now), work := p.work + 1), w)
  }

  /** The driver receives one result; the first error cancels the scheduler. */
  function CollectStep(p: Pool, w: nat): Pool
    requires Stands(p, w, Exited)
  {
    var q := p.(collected := p.collected + {w});
    if !p.workers[w].ok && !p.firstErr then q.(firstErr := true, sched := Cancel(p.sched)) else q
  }

  function Apply(p: Pool, e: Event): Pool
    requires Enabled(p, e)
  {
    match e
    case Tick(d) => p.(now := p.now + d)
    case RootCancel => p.(rootDone := true)
    case Propagate => p.(sched := Cancel(p.sched))
    case CheckRoot(w) => CheckRootStep(p, w)
    case CallHedgeEligible(w, frontier, reserved, bufferSize) => LookStep(p, w, frontier, reserved, bufferSize)
    case CallStartHedge(w) => StartHedgeStep(p, w)
    case CallNextAssignment(w) => AskStep(p, w)
    case CallReserve(w, ok) => ReserveStep(p, w, ok)
    case CallOpenRange(w, ok) => OpenStep(p, w, ok)
    case CallReadFull(w, ok) => ReadStep(p, w, ok)
    case CallOnAdmissionFailure(w) => AdmissionStep(p, w)
    case CallMarkFailed(w) => FailStep(p, w)
    case CallDeliver(w, ok) => DeliverStep(p, w, ok)
    case CallCancelHedge(w) => CancelHedgeStep(p, w)
    case CallOnWorkerSuccess(w) => SuccessStep(p, w)
    case CallMarkComplete(w) => CompleteStep(p, w)
    case Collect(w) => CollectStep(p, w)
    case Verdict => p.(verdict := Some(!p.firstErr && p.sched.completedCount >= |p.sched.chunks|))
  }

  /** A run: every event is enabled when it happens. */
  predicate Legal(p: Pool, es: seq<Event>)
    decreases |es|
  {
    es == [] || (Enabled(p, es[0]) && Legal(Apply(p, es[0]), es[1..]))
  }

  function Exec(p: Pool, es: seq<Event>): Pool
    requires Legal(p, es)
    decreases |es|
  {
    if es == [] then p else Exec(Apply(p, es[0]), es[1..])
  }

  /** The worker holds chunk i as its own assignment, not as a duplicate. */
  predicate Holding(v: Worker) {
    !v.hedge && v.pc in {Reserving, Opening, Reading, Turned, Failing, Delivering, Losing, Reporting, Finishing}
  }

  /** The worker's duplicate was started and has not been cancelled. */
  predicate Hedging(v: Worker) {
    v.hedge && v.pc in {Opening, Reading, Delivering, Losing, Dropping, Won, Exited}
  }

  /** The worker has delivered chunk i and is still to mark it complete. */
  predicate PastDelivery(v: Worker) {
    v.pc in {Won, Reporting, Finishing}
  }

  predicate HasChunk(v: Worker) {
    v.pc !in {Head, Look, Ask, Exited}
  }

  function HedgeTickets(workers: seq<Worker>): set<nat> {
    set w: nat | w < |workers| && Hedging(workers[w])
  }

  lemma HedgeTicketsUpdate(workers: seq<Worker>, w: nat, v: Worker)
    requires w < |workers|
    ensures HedgeTickets(workers[w := v]) ==
            if Hedging(v) then HedgeTickets(workers) + {w} else HedgeTickets(workers) - {w}
  {
  }
}
