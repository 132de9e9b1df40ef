/** The books of one worker of `workerLoop` (internal/job/runner.go): how its reports to the scheduler balance with what
    happened to its transfers, over any run of the pool. */
module WorkerLedger {
  import opened Chunks
  import opened Scheduling
  import opened WorkerPool
  import opened PoolInvariants
  import opened Assignment

  /** What has happened to a worker, and what it has reported; "own" is a chunk it was given, "copy" a duplicate. */
  datatype Counts = Counts(
    given: nat,            // chunks given
    started: nat,          // duplicates started
    unreserved: nat,       // reservations refused
    openFailedOwn: nat,
    openFailedCopy: nat,
    readFailedOwn: nat,
    readFailedCopy: nat,
    deliveredOwn: nat,
    deliveredCopy: nat,
    refusedOwn: nat,       // deliveries the sink refused
    refusedCopy: nat,
    admissions: nat,       // calls of OnAdmissionFailure
    retries: nat,          // calls of MarkFailed after which the worker goes on
    finals: nat,           // ... after which it returns an error
    cancels: nat,          // calls of CancelHedge
    successes: nat,        // calls of OnWorkerSuccess
    completions: nat)      // calls of MarkComplete

  const NOTHING := Counts(0, 0, 0, 0, 0, 0, 0, 0, 0, 0, 0, 0, 0, 0, 0, 0, 0)

  /** The entry that an event makes. */
  function Entered(n: Counts, p: Pool, e: Event, w: nat): Counts
    requires Enabled(p, e)
  {
    if IsAmbient(e) || e.w != w then n
    else
      var copy, after := p.workers[w].hedge, if w < |Apply(p, e).workers| then Apply(p, e).workers[w].pc else Head;
      match e
      case CallNextAssignment(_) => if after == Reserving || after == Opening then n.(given := n.given + 1) else n
      case CallStartHedge(_) => if after == Opening then n.(started := n.started + 1) else n
      case CallReserve(_, ok) => if ok then n else n.(unreserved := n.unreserved + 1)
      case CallOpenRange(_, ok) =>
        if ok then n
        else if copy then n.(openFailedCopy := n.openFailedCopy + 1) else n.(openFailedOwn := n.openFailedOwn + 1)
      case CallReadFull(_, ok) =>
        if ok then n
        else if copy then n.(readFailedCopy := n.readFailedCopy + 1) else n.(readFailedOwn := n.readFailedOwn + 1)
      case CallDeliver(_, ok) =>
        if ok then (if copy then n.(deliveredCopy := n.deliveredCopy + 1) else n.(deliveredOwn := n.deliveredOwn + 1))
        else if copy then n.(refusedCopy := n.refusedCopy + 1) else n.(refusedOwn := n.refusedOwn + 1)
      case CallOnAdmissionFailure(_) => n.(admissions := n.admissions + 1)
      case CallMarkFailed(_) => if after == Exited then n.(finals := n.finals + 1) else n.(retries := n.retries + 1)
      case CallCancelHedge(_) => n.(cancels := n.cancels + 1)
      case CallOnWorkerSuccess(_) => n.(successes := n.successes + 1)
      case CallMarkComplete(_) => n.(completions := n.completions + 1)
      case _ => n
  }

  function Book(n: Counts, p: Pool, es: seq<Event>, w: nat): Counts
    requires Legal(p, es)
    decreases |es|
  {
    if es == [] then n else Book(Entered(n, p, es[0], w), Apply(p, es[0]), es[1..], w)
  }

  /** Each failed transfer is reported once, in the way its kind demands, and each delivery once to each of the two. */
  ghost predicate Balanced(n: Counts, v: Worker) {
    && n.given == n.unreserved + n.openFailedOwn + n.readFailedOwn + n.deliveredOwn + n.refusedOwn
                  + (if v.hedge then 0 else One(v.pc == Reserving || v.pc == Opening || v.pc == Reading || v.pc == Delivering))
    && n.started == n.openFailedCopy + n.readFailedCopy + n.deliveredCopy + n.refusedCopy
                    + (if v.hedge then One(v.pc == Opening || v.pc == Reading || v.pc == Delivering) else 0)
    && n.admissions == n.openFailedOwn - One(v.pc == Turned)
    && n.retries == n.unreserved + n.openFailedOwn + n.readFailedOwn - One(v.pc == Turned || v.pc == Failing)
    && n.finals == n.refusedOwn + n.refusedCopy - One(v.pc == Losing)
    && n.cancels == n.openFailedCopy + n.readFailedCopy + n.deliveredCopy - One(v.pc == Dropping || v.pc == Won)
    && n.successes == n.deliveredOwn + n.deliveredCopy - One(v.pc == Won || v.pc == Reporting)
    && n.completions == n.deliveredOwn + n.deliveredCopy - One(v.pc == Won || v.pc == Reporting || v.pc == Finishing)
  }

  /** An event of another worker, or of the surroundings. */
  predicate Elsewhere(e: Event, w: nat) {
    IsAmbient(e) || e.w != w
  }

  lemma SettlingElsewhere(p: Pool, e: Event, w: nat)
    requires Enabled(p, e) && Settles(e) && w < |p.workers| == |Apply(p, e).workers| && Elsewhere(e, w)
    ensures Apply(p, e).workers[w] == p.workers[w]
  {
    hide MarkComplete, MarkFailed, OnAdmissionFailure, OnWorkerSuccess;
  }

  lemma ChoosingElsewhere(p: Pool, e: Event, w: nat)
    requires Enabled(p, e) && Chooses(e) && w < |p.workers| == |Apply(p, e).workers| && Elsewhere(e, w)
    ensures Apply(p, e).workers[w] == p.workers[w]
  {
    hide NextAssignment, StartHedge, CancelHedge;
  }

  lemma OtherElsewhere(p: Pool, e: Event, w: nat)
    requires Enabled(p, e) && !Settles(e) && !Chooses(e) && w < |p.workers| == |Apply(p, e).workers| && Elsewhere(e, w)
    ensures Apply(p, e).workers[w] == p.workers[w]
  {
    hide HedgeEligible;
  }

  /** It leaves the worker and its books alone. */
  lemma Undisturbed(n: Counts, p: Pool, e: Event, w: nat)
    requires Enabled(p, e) && w < |p.workers| == |Apply(p, e).workers| && Elsewhere(e, w)
    ensures Apply(p, e).workers[w] == p.workers[w] && Entered(n, p, e, w) == n
  {
    hide Apply, Enabled, Settles, Chooses;
    if Settles(e) { SettlingElsewhere(p, e, w); } else if Chooses(e) { ChoosingElsewhere(p, e, w); } else { OtherElsewhere(p, e, w); }
  }

  lemma CheckBalanced(n: Counts, p: Pool, w: nat)
    requires Enabled(p, CheckRoot(w)) && FlagsFit(p.workers[w]) && Balanced(n, p.workers[w])
    ensures var e := CheckRoot(w); w < |Apply(p, e).workers| && Balanced(Entered(n, p, e, w), Apply(p, e).workers[w])
  {
  }

  lemma LookBalanced(n: Counts, p: Pool, w: nat, frontier: nat, reserved: int, bufferSize: int)
    requires Enabled(p, CallHedgeEligible(w, frontier, reserved, bufferSize)) && FlagsFit(p.workers[w]) && Balanced(n, p.workers[w])
    ensures var e := CallHedgeEligible(w, frontier, reserved, bufferSize); w < |Apply(p, e).workers| && Balanced(Entered(n, p, e, w), Apply(p, e).workers[w])
  {
    hide HedgeEligible;
  }

  lemma StartBalanced(n: Counts, p: Pool, w: nat)
    requires Enabled(p, CallStartHedge(w)) && FlagsFit(p.workers[w]) && Balanced(n, p.workers[w])
    ensures var e := CallStartHedge(w); w < |Apply(p, e).workers| && Balanced(Entered(n, p, e, w), Apply(p, e).workers[w])
  {
    hide StartHedge;
  }

  lemma AskBalanced(n: Counts, p: Pool, w: nat)
    requires Enabled(p, CallNextAssignment(w)) && FlagsFit(p.workers[w]) && Balanced(n, p.workers[w])
    ensures var e := CallNextAssignment(w); w < |Apply(p, e).workers| && Balanced(Entered(n, p, e, w), Apply(p, e).workers[w])
  {
    hide NextAssignment;
  }

  lemma ReserveBalanced(n: Counts, p: Pool, w: nat, ok: bool)
    requires Enabled(p, CallReserve(w, ok)) && FlagsFit(p.workers[w]) && Balanced(n, p.workers[w])
    ensures var e := CallReserve(w, ok); w < |Apply(p, e).workers| && Balanced(Entered(n, p, e, w), Apply(p, e).workers[w])
  {
  }

  lemma OpenBalanced(n: Counts, p: Pool, w: nat, ok: bool)
    requires Enabled(p, CallOpenRange(w, ok)) && FlagsFit(p.workers[w]) && Balanced(n, p.workers[w])
    ensures var e := CallOpenRange(w, ok); w < |Apply(p, e).workers| && Balanced(Entered(n, p, e, w), Apply(p, e).workers[w])
  {
  }

  lemma ReadBalanced(n: Counts, p: Pool, w: nat, ok: bool)
    requires Enabled(p, CallReadFull(w, ok)) && FlagsFit(p.workers[w]) && Balanced(n, p.workers[w])
    ensures var e := CallReadFull(w, ok); w < |Apply(p, e).workers| && Balanced(Entered(n, p, e, w), Apply(p, e).workers[w])
  {
  }

  lemma AdmissionBalanced(n: Counts, p: Pool, w: nat)
    requires Enabled(p, CallOnAdmissionFailure(w)) && FlagsFit(p.workers[w]) && Balanced(n, p.workers[w])
    ensures var e := CallOnAdmissionFailure(w); w < |Apply(p, e).workers| && Balanced(Entered(n, p, e, w), Apply(p, e).workers[w])
  {
    hide OnAdmissionFailure;
  }

  lemma FailWorker(p: Pool, w: nat)
    requires Enabled(p, CallMarkFailed(w)) && FlagsFit(p.workers[w])
    ensures |Apply(p, CallMarkFailed(w)).workers| == |p.workers|
    ensures var v, v' := p.workers[w], Apply(p, CallMarkFailed(w)).workers[w];
            v' == if v.pc == Failing then v.(pc := Head, hedge := false) else v.(pc := Exited, ok := false)
  {
    hide MarkFailed;
  }

  lemma FailBalanced(n: Counts, p: Pool, w: nat)
    requires Enabled(p, CallMarkFailed(w)) && FlagsFit(p.workers[w]) && Balanced(n, p.workers[w])
    ensures var e := CallMarkFailed(w); w < |Apply(p, e).workers| && Balanced(Entered(n, p, e, w), Apply(p, e).workers[w])
  {
    FailWorker(p, w);
    FailEntry(n, p, w);
    hide *;
    if p.workers[w].pc == Failing { RetryBalanced(n, p.workers[w]); } else { FinalBalanced(n, p.workers[w]); }
  }

  lemma FailEntry(n: Counts, p: Pool, w: nat)
    requires Enabled(p, CallMarkFailed(w)) && FlagsFit(p.workers[w])
    requires w < |Apply(p, CallMarkFailed(w)).workers|
    ensures Entered(n, p, CallMarkFailed(w), w) ==
            if Apply(p, CallMarkFailed(w)).workers[w].pc == Exited then n.(finals := n.finals + 1) else n.(retries := n.retries + 1)
    ensures p.workers[w].pc == Failing || p.workers[w].pc == Losing
    ensures p.workers[w].pc == Failing ==> !p.workers[w].hedge
  {
    hide Apply;
  }

  lemma RetryBalanced(n: Counts, v: Worker)
    requires v.pc == Failing && !v.hedge && Balanced(n, v)
    ensures Balanced(n.(retries := n.retries + 1), v.(pc := Head, hedge := false))
  {
  }

  lemma FinalBalanced(n: Counts, v: Worker)
    requires v.pc == Losing && Balanced(n, v)
    ensures Balanced(n.(finals := n.finals + 1), v.(pc := Exited, ok := false))
  {
  }

  lemma DeliverBalanced(n: Counts, p: Pool, w: nat, ok: bool)
    requires Enabled(p, CallDeliver(w, ok)) && FlagsFit(p.workers[w]) && Balanced(n, p.workers[w])
    ensures var e := CallDeliver(w, ok); w < |Apply(p, e).workers| && Balanced(Entered(n, p, e, w), Apply(p, e).workers[w])
  {
  }

  lemma CancelBalanced(n: Counts, p: Pool, w: nat)
    requires Enabled(p, CallCancelHedge(w)) && FlagsFit(p.workers[w]) && Balanced(n, p.workers[w])
    ensures var e := CallCancelHedge(w); w < |Apply(p, e).workers| && Balanced(Entered(n, p, e, w), Apply(p, e).workers[w])
  {
    hide CancelHedge;
  }

  lemma SuccessBalanced(n: Counts, p: Pool, w: nat)
    requires Enabled(p, CallOnWorkerSuccess(w)) && FlagsFit(p.workers[w]) && Balanced(n, p.workers[w])
    ensures var e := CallOnWorkerSuccess(w); w < |Apply(p, e).workers| && Balanced(Entered(n, p, e, w), Apply(p, e).workers[w])
  {
    hide OnWorkerSuccess;
  }

  lemma CompleteBalanced(n: Counts, p: Pool, w: nat)
    requires Enabled(p, CallMarkComplete(w)) && FlagsFit(p.workers[w]) && Balanced(n, p.workers[w])
    ensures var e := CallMarkComplete(w); w < |Apply(p, e).workers| && Balanced(Entered(n, p, e, w), Apply(p, e).workers[w])
  {
    hide MarkComplete;
  }

  lemma StepBalanced(n: Counts, p: Pool, plan: seq<Chunk>, e: Event, w: nat)
    requires Enabled(p, e) && Shape(p, plan) && w < |p.workers| && Balanced(n, p.workers[w])
    ensures w < |Apply(p, e).workers| && Balanced(Entered(n, p, e, w), Apply(p, e).workers[w])
  {
    FlagOf(p, plan, w);
    hide Apply, Enabled, Balanced, Entered, Shape;
    SameWorkers(p, e);
    if Elsewhere(e, w) {
      Undisturbed(n, p, e, w);
    } else {
      match e
      case CheckRoot(_) => CheckBalanced(n, p, w);
      case CallHedgeEligible(_, frontier, reserved, bufferSize) => LookBalanced(n, p, w, frontier, reserved, bufferSize);
      case CallStartHedge(_) => StartBalanced(n, p, w);
      case CallNextAssignment(_) => AskBalanced(n, p, w);
      case CallReserve(_, ok) => ReserveBalanced(n, p, w, ok);
      case CallOpenRange(_, ok) => OpenBalanced(n, p, w, ok);
      case CallReadFull(_, ok) => ReadBalanced(n, p, w, ok);
      case CallOnAdmissionFailure(_) => AdmissionBalanced(n, p, w);
      case CallMarkFailed(_) => FailBalanced(n, p, w);
      case CallDeliver(_, ok) => DeliverBalanced(n, p, w, ok);
      case CallCancelHedge(_) => CancelBalanced(n, p, w);
      case CallOnWorkerSuccess(_) => SuccessBalanced(n, p, w);
      case CallMarkComplete(_) => CompleteBalanced(n, p, w);
    }
  }

  lemma FlagOf(p: Pool, plan: seq<Chunk>, w: nat)
    requires Shape(p, plan) && w < |p.workers|
    ensures FlagsFit(p.workers[w])
  {
  }

  lemma ShapeFrom(p: Pool, plan: seq<Chunk>)
    requires Inv(p, plan)
    ensures Shape(p, plan)
  {
  }

  lemma {:induction false} RunBalanced(n: Counts, p: Pool, plan: seq<Chunk>, es: seq<Event>, w: nat)
    requires ValidPlan(plan) && Inv(p, plan) && Legal(p, es) && w < |p.workers| && Balanced(n, p.workers[w])
    ensures w < |Exec(p, es).workers| && Balanced(Book(n, p, es, w), Exec(p, es).workers[w])
    decreases |es|
  {
    ShapeFrom(p, plan);
    hide Inv, Shape, Apply, Enabled, ValidPlan, Balanced, Entered;
    if es != [] {
      StepKeeps(p, plan, es[0]);
      StepBalanced(n, p, plan, es[0], w);
      RunBalanced(Entered(n, p, es[0], w), Apply(p, es[0]), plan, es[1..], w);
    }
  }

  /** The books balance. In every reachable state, for every worker: each chunk it was given and each duplicate it started
      is still under way or has ended in exactly one way; a refused connection was reported as an admission failure unless
      it was for a duplicate, and nothing else was; each failed transfer of its own as a retryable failure, each refused
      delivery as a final one; each ended duplicate that was not refused was cancelled; and each delivery was reported as a
      success and completed: all exactly once, but for the report it is about to make. */
  lemma LedgerBalances(cfg: Config, plan: seq<Chunk>, now: nat, es: seq<Event>, w: nat)
    requires ValidConfig(cfg) && ValidPlan(plan) && Legal(Init(cfg, plan, now), es) && w < cfg.connections
    ensures w < |Exec(Init(cfg, plan, now), es).workers|
    ensures Balanced(Book(NOTHING, Init(cfg, plan, now), es, w), Exec(Init(cfg, plan, now), es).workers[w])
  {
    InitInv(cfg, plan, now);
    assert Balanced(NOTHING, Init(cfg, plan, now).workers[w]);
    hide Init, Inv, Legal, Balanced;
    RunBalanced(NOTHING, Init(cfg, plan, now), plan, es, w);
  }
}
