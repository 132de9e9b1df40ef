/** Particular runs of the stream machine, built one call at a time: a worker that transfers one chunk after another
    while nothing goes wrong. */
module StreamRuns {
  import opened Basics
  import opened Chunks
  import opened Median
  import opened Scheduling
  import opened WorkerPool
  import opened Streaming
  import T = StreamTransfer

  /** No write has failed, nothing was cancelled, and no connection was turned away on the way. */
  ghost predicate Reaches(s: T.Stream, t: T.Stream, src: seq<byte>) {
    exists es :: T.Legal(s, es, src) && T.Exec(s, es, src) == t && Smoothly(es) && Admitted(es)
  }

  ghost predicate Smoothly(es: seq<T.Event>) {
    forall e :: e in es ==> T.Undisturbing(e)
  }

  ghost predicate Admitted(es: seq<T.Event>) {
    forall e :: e in es ==> !TurnedAway(e)
  }

  predicate TurnedAway(e: T.Event) {
    e.OfPool? && e.e.CallOnAdmissionFailure?
  }

  lemma ReachSelf(s: T.Stream, src: seq<byte>)
    ensures Reaches(s, s, src)
  {
    assert T.Legal(s, [], src) && T.Exec(s, [], src) == s && Smoothly([]) && Admitted([]);
  }

  lemma {:induction false} OneMore(s: T.Stream, es: seq<T.Event>, e: T.Event, src: seq<byte>)
    requires T.Legal(s, es, src) && T.Enabled(T.Exec(s, es, src), e, src)
    ensures T.Legal(s, es + [e], src) && T.Exec(s, es + [e], src) == T.Apply(T.Exec(s, es, src), e, src)
    decreases |es|
  {
    hide T.Enabled, T.Apply;
    if es == [] {
      assert (es + [e])[1..] == [];
    } else {
      assert (es + [e])[1..] == es[1..] + [e];
      OneMore(T.Apply(s, es[0], src), es[1..], e, src);
    }
  }

  lemma Reach(s0: T.Stream, s: T.Stream, e: T.Event, src: seq<byte>)
    requires Reaches(s0, s, src) && T.Enabled(s, e, src) && T.Undisturbing(e) && !TurnedAway(e)
    ensures Reaches(s0, T.Apply(s, e, src), src)
  {
    hide T.Enabled, T.Apply, T.Undisturbing, TurnedAway;
    var es :| T.Legal(s0, es, src) && T.Exec(s0, es, src) == s && Smoothly(es) && Admitted(es);
    OneMore(s0, es, e, src);
    assert Smoothly(es + [e]) && Admitted(es + [e]);
  }

  // ----- single calls

  lemma DoTick(s0: T.Stream, s: T.Stream, src: seq<byte>, d: nat)
    requires Reaches(s0, s, src)
    ensures Reaches(s0, s.(pool := s.pool.(now := s.pool.now + d)), src)
  {
    hide Reaches;
    Reach(s0, s, T.OfPool(Tick(d)), src);
  }

  lemma DoCheckRoot(s0: T.Stream, s: T.Stream, src: seq<byte>, w: nat)
    requires Reaches(s0, s, src) && Stands(s.pool, w, Head)
    ensures Reaches(s0, s.(pool := CheckRootStep(s.pool, w)), src)
  {
    hide Reaches, CheckRootStep;
    Reach(s0, s, T.OfPool(CheckRoot(w)), src);
  }

  /** The eligibility check, its two looks at the sink one right after the other. */
  lemma DoLook(s0: T.Stream, s: T.Stream, src: seq<byte>, w: nat)
    requires Reaches(s0, s, src) && Stands(s.pool, w, Look) && s.glance.None?
    ensures Reaches(s0, s.(pool := LookStep(s.pool, w, s.sink.nextIndex, s.sink.reserved, s.sink.bufferSize)), src)
  {
    hide Reaches, LookStep;
    Reach(s0, s, T.ReadFrontier(w), src);
    var t := s.(glance := Some(T.Glance(w, s.sink.nextIndex)));
    Reach(s0, t, T.OfPool(CallHedgeEligible(w, s.sink.nextIndex, s.sink.reserved, s.sink.bufferSize)), src);
  }

  lemma DoAsk(s0: T.Stream, s: T.Stream, src: seq<byte>, w: nat)
    requires Reaches(s0, s, src) && Stands(s.pool, w, Ask) && s.glance.None?
    ensures Reaches(s0, s.(pool := AskStep(s.pool, w)), src)
  {
    hide Reaches, AskStep;
    Reach(s0, s, T.OfPool(CallNextAssignment(w)), src);
  }

  lemma DoStartHedge(s0: T.Stream, s: T.Stream, src: seq<byte>, w: nat)
    requires Reaches(s0, s, src) && Enabled(s.pool, CallStartHedge(w)) && s.glance.None?
    ensures Reaches(s0, s.(pool := StartHedgeStep(s.pool, w)), src)
  {
    hide Reaches, StartHedgeStep;
    Reach(s0, s, T.OfPool(CallStartHedge(w)), src);
  }

  lemma DoReserve(s0: T.Stream, s: T.Stream, src: seq<byte>, w: nat)
    requires Reaches(s0, s, src) && Stands(s.pool, w, Reserving) && s.glance.None? && T.HasPiece(s, w, src)
    requires s.sink.reserved + T.ChunkAt(s, w, src).length <= s.sink.bufferSize
    ensures var k := T.ChunkAt(s, w, src).length;
            Reaches(s0, s.(pool := ReserveStep(s.pool, w, true), sink := s.sink.(reserved := s.sink.reserved + k), gross := s.gross + k), src)
  {
    hide Reaches, ReserveStep;
    Reach(s0, s, T.OfPool(CallReserve(w, true)), src);
  }

  lemma DoOpen(s0: T.Stream, s: T.Stream, src: seq<byte>, w: nat)
    requires Reaches(s0, s, src) && Stands(s.pool, w, Opening) && s.glance.None? && T.HasPiece(s, w, src)
    ensures Reaches(s0, s.(pool := OpenStep(s.pool, w, true)), src)
  {
    hide Reaches, OpenStep;
    Reach(s0, s, T.OfPool(CallOpenRange(w, true)), src);
    assert s.(pool := OpenStep(s.pool, w, true), lost := s.lost + 0) == s.(pool := OpenStep(s.pool, w, true));
  }

  lemma DoRead(s0: T.Stream, s: T.Stream, src: seq<byte>, w: nat)
    requires Reaches(s0, s, src) && Stands(s.pool, w, Reading) && s.glance.None? && T.HasPiece(s, w, src)
    ensures Reaches(s0, s.(pool := ReadStep(s.pool, w, true)), src)
  {
    hide Reaches, ReadStep;
    Reach(s0, s, T.OfPool(CallReadFull(w, true)), src);
    assert s.(pool := ReadStep(s.pool, w, true), lost := s.lost + 0) == s.(pool := ReadStep(s.pool, w, true));
  }

  /** The body of a duplicate breaks off. */
  lemma DoBreak(s0: T.Stream, s: T.Stream, src: seq<byte>, w: nat)
    requires Reaches(s0, s, src) && Stands(s.pool, w, Reading) && s.pool.workers[w].hedge && s.glance.None? && T.HasPiece(s, w, src)
    ensures Reaches(s0, s.(pool := ReadStep(s.pool, w, false)), src)
  {
    hide Reaches, ReadStep;
    Reach(s0, s, T.OfPool(CallReadFull(w, false)), src);
    assert s.(pool := ReadStep(s.pool, w, false), lost := s.lost + 0) == s.(pool := ReadStep(s.pool, w, false));
  }

  lemma DoDeliver(s0: T.Stream, s: T.Stream, src: seq<byte>, w: nat)
    requires Reaches(s0, s, src) && Stands(s.pool, w, Delivering) && s.glance.None? && T.HasPiece(s, w, src) && !s.sink.fatal
    ensures var c := T.ChunkAt(s, w, src);
            Reaches(s0, s.(pool := DeliverStep(s.pool, w, true),
                           sink := s.sink.(completed := s.sink.completed[c.index := ChunkData(c, T.Piece(src, c))])), src)
  {
    hide Reaches, DeliverStep;
    Reach(s0, s, T.OfPool(CallDeliver(w, true)), src);
    assert s.lost + 0 == s.lost;
  }

  lemma DoReport(s0: T.Stream, s: T.Stream, src: seq<byte>, w: nat)
    requires Reaches(s0, s, src) && Stands(s.pool, w, Reporting) && s.pool.workers[w].i < |s.pool.sched.chunks| && s.glance.None?
    ensures Reaches(s0, s.(pool := SuccessStep(s.pool, w)), src)
  {
    hide Reaches, SuccessStep;
    Reach(s0, s, T.OfPool(CallOnWorkerSuccess(w)), src);
  }

  lemma DoCancelHedge(s0: T.Stream, s: T.Stream, src: seq<byte>, w: nat)
    requires Reaches(s0, s, src) && (Stands(s.pool, w, Won) || Stands(s.pool, w, Dropping)) && s.glance.None?
    ensures Reaches(s0, s.(pool := CancelHedgeStep(s.pool, w)), src)
  {
    hide Reaches, CancelHedgeStep;
    Reach(s0, s, T.OfPool(CallCancelHedge(w)), src);
  }

  lemma DoCollect(s0: T.Stream, s: T.Stream, src: seq<byte>, w: nat)
    requires Reaches(s0, s, src) && Stands(s.pool, w, Exited) && w !in s.pool.collected && s.glance.None?
    ensures Reaches(s0, s.(pool := CollectStep(s.pool, w)), src)
  {
    hide Reaches, CollectStep;
    Reach(s0, s, T.OfPool(Collect(w)), src);
  }

  lemma DoComplete(s0: T.Stream, s: T.Stream, src: seq<byte>, w: nat)
    requires Reaches(s0, s, src) && Stands(s.pool, w, Finishing) && s.glance.None?
    ensures Reaches(s0, s.(pool := CompleteStep(s.pool, w)), src)
  {
    hide Reaches, CompleteStep;
    Reach(s0, s, T.OfPool(CallMarkComplete(w)), src);
  }

  /** The writer's state with the next chunk in its hands. */
  function Taken(s: T.Stream): T.Stream
    requires s.sink.nextIndex in s.sink.completed
  {
    var cd := s.sink.completed[s.sink.nextIndex];
    s.(writer := T.Writing(cd),
       sink := s.sink.(completed := s.sink.completed - {s.sink.nextIndex},
                       reserved := s.sink.reserved - cd.chunk.length, nextIndex := s.sink.nextIndex + 1))
  }

  /** The writer takes the next chunk. */
  lemma DoTake(s0: T.Stream, s: T.Stream, src: seq<byte>)
    requires Reaches(s0, s, src) && s.writer.Entering? && !s.sink.fatal && s.sink.nextIndex in s.sink.completed
    ensures Reaches(s0, Taken(s), src)
  {
    hide Reaches;
    Reach(s0, s, T.WriterEnters, src);
  }

  /** The write succeeds and the writer goes on with the next chunk. */
  lemma DoWriteOn(s0: T.Stream, s: T.Stream, src: seq<byte>)
    requires Reaches(s0, s, src) && s.writer.Writing? && s.sink.nextIndex in s.sink.completed
    ensures Reaches(s0, Taken(s.(out := s.out + s.writer.cd.data, sink := s.sink.(writtenCount := s.sink.writtenCount + 1))), src)
  {
    hide Reaches;
    Reach(s0, s, T.WriteSucceeds, src);
  }

  /** The write succeeds and nothing more is buffered. */
  lemma DoWritten(s0: T.Stream, s: T.Stream, src: seq<byte>)
    requires Reaches(s0, s, src) && s.writer.Writing? && !s.sink.closed && s.sink.nextIndex !in s.sink.completed
    ensures Reaches(s0, s.(writer := T.Entering, out := s.out + s.writer.cd.data,
                           sink := s.sink.(writtenCount := s.sink.writtenCount + 1)), src)
  {
    hide Reaches;
    Reach(s0, s, T.WriteSucceeds, src);
  }

  // ----- one worker transfers one chunk

  /** Nothing has gone wrong, and the chunks not yet dispatched are untouched. */
  ghost predicate Smooth(s: T.Stream, cfg: Config, plan: seq<Chunk>) {
    && s.pool.sched.cfg == cfg && cfg.streamMode
    && |s.pool.sched.chunks| == |plan|
    && (forall i :: 0 <= i < |plan| ==> SameRange(s.pool.sched.chunks[i], plan[i]) && s.pool.sched.chunks[i].state != RetryWait)
    && (forall i :: s.pool.sched.nextUndispatched <= i < |plan| ==>
          s.pool.sched.chunks[i].state == Pending && !s.pool.sched.chunks[i].hedged)
    && |s.pool.workers| == |s.pool.sched.workers| == cfg.connections
    && (forall v :: 0 <= v < |s.pool.sched.workers| ==> s.pool.sched.workers[v].suppressedUntil == 0)
    && s.pool.now >= 0 && 1 <= s.pool.sched.effectiveTarget
    && !s.pool.rootDone && !s.pool.sched.cancelled && !s.pool.sched.fatal && s.pool.verdict.None?
    && !s.pool.firstErr && s.pool.collected == {} && s.glance.None? && s.result.None?
    && !s.sink.fatal && !s.sink.closed && s.sink.bufferSize == cfg.bufferSize && s.lost == 0
  }

  /** No duplicate is under way, as far as the scheduler knows. */
  predicate Unhedged(p: Pool) {
    !p.sched.hedgeActive
  }

  predicate SameRange(c: Chunk, d: Chunk) {
    c.index == d.index && c.start == d.start && c.length == d.length
  }

  ghost predicate AtHead(p: Pool, w: nat) {
    w < |p.workers| && p.workers[w].pc == Head && !p.workers[w].hedge && p.workers[w].slot == w
  }

  predicate NotOffered(s: T.Stream) {
    HedgeEligible(s.pool.sched, s.sink.nextIndex, s.sink.reserved, s.sink.bufferSize, s.pool.now) == -1
  }

  /** The scheduler's state after chunk `next` went to slot w, whatever the adaptive fields are. */
  ghost predicate GaveNext(s: Sched, t: Sched, w: nat, now: int) {
    && s.nextUndispatched < |s.chunks|
    && t == s.(chunks := Assign(s, s.nextUndispatched, w, now).chunks, nextUndispatched := s.nextUndispatched + 1,
               activeCount := s.activeCount + 1, effectiveTarget := t.effectiveTarget,
               restoreBackoff := t.restoreBackoff, cooldownUntil := t.cooldownUntil)
    && t.effectiveTarget >= s.effectiveTarget && (s.completedCount < 4 ==> t.effectiveTarget == s.effectiveTarget)
  }

  /** Worker w now holds chunk `next` and is about to reserve. */
  ghost predicate Got(s: T.Stream, t: T.Stream, w: nat) {
    && w < |s.pool.workers|
    && GaveNext(s.pool.sched, t.pool.sched, w, s.pool.now)
    && t == s.(pool := s.pool.(sched := t.pool.sched, work := s.pool.work + 1,
                               workers := s.pool.workers[w := s.pool.workers[w].(pc := Reserving, i := s.pool.sched.nextUndispatched)]))
  }

  lemma NoneDue(chunks: seq<Chunk>, now: int)
    requires forall i :: 0 <= i < |chunks| ==> chunks[i].state != RetryWait
    ensures FirstRetryable(chunks, now, 0) == |chunks|
  {
  }

  lemma AskGives(s: Sched, w: nat, now: int)
    requires forall i :: 0 <= i < |s.chunks| ==> s.chunks[i].state != RetryWait
    requires w < |s.workers| && s.workers[w].suppressedUntil == 0 && now >= 0
    requires !s.cancelled && !s.fatal && s.completedCount < |s.chunks| && s.nextUndispatched < |s.chunks|
    requires s.activeCount < s.effectiveTarget
    ensures var (t, a) := NextAssignment(s, w, false, now);
            a == Assigned(s.nextUndispatched) && GaveNext(s, t, w, now)
  {
    NoneDue(s.chunks, now);
  }

  lemma Get(s0: T.Stream, s: T.Stream, cfg: Config, plan: seq<Chunk>, src: seq<byte>, w: nat) returns (t: T.Stream)
    requires Reaches(s0, s, src) && Smooth(s, cfg, plan) && AtHead(s.pool, w) && NotOffered(s)
    requires s.pool.sched.nextUndispatched < |plan| && s.pool.sched.completedCount < |plan|
    requires s.pool.sched.activeCount < s.pool.sched.effectiveTarget
    ensures Reaches(s0, t, src) && Got(s, t, w)
  {
    AskGives(s.pool.sched, w, s.pool.now);
    var a := s.(pool := CheckRootStep(s.pool, w));
    assert Stands(a.pool, w, Look) && a.glance.None? && a.pool.sched == s.pool.sched;
    var b := a.(pool := LookStep(a.pool, w, a.sink.nextIndex, a.sink.reserved, a.sink.bufferSize));
    assert Stands(b.pool, w, Ask) && b.glance.None? && b.pool.sched == s.pool.sched;
    t := b.(pool := AskStep(b.pool, w));
    assert Got(s, t, w) by { hide NextAssignment, HedgeEligible, Assign; }
    hide *;
    DoCheckRoot(s0, s, src, w);
    DoLook(s0, a, src, w);
    DoAsk(s0, b, src, w);
  }

  /** Worker w stands before Reserve with chunk i. */
  ghost predicate Carrying(s: T.Stream, cfg: Config, plan: seq<Chunk>, src: seq<byte>, w: nat, i: nat) {
    && Smooth(s, cfg, plan) && w < |s.pool.workers|
    && s.pool.workers[w] == s.pool.workers[w].(pc := Reserving, slot := w, i := i, hedge := false)
    && i < |plan| && s.pool.sched.chunks[i].state == Active && s.pool.sched.chunks[i].startTime <= s.pool.now
    && i < s.pool.sched.nextUndispatched && plan[i].index == i && plan[i].start + plan[i].length <= |src|
  }

  lemma GotCarries(s: T.Stream, t: T.Stream, cfg: Config, plan: seq<Chunk>, src: seq<byte>, w: nat)
    requires Smooth(s, cfg, plan) && AtHead(s.pool, w) && Got(s, t, w) && Layout(plan, |src|)
    ensures Carrying(t, cfg, plan, src, w, s.pool.sched.nextUndispatched)
  {
    var i := s.pool.sched.nextUndispatched;
    BoundaryStep(plan, |src|, i);
    BoundariesGrow(plan, |src|, i + 1, |plan|);
  }

  /** Worker w has carried chunk i to the end: delivered, reported and completed. */
  ghost predicate Done(s: T.Stream, t: T.Stream, src: seq<byte>, w: nat, i: nat) {
    && w < |s.pool.workers| && i < |s.pool.sched.chunks|
    && var c, d := s.pool.sched.chunks[i], t.pool.sched;
    && c.start + c.length <= |src|
    && t == s.(pool := t.pool, gross := s.gross + c.length,
               sink := s.sink.(reserved := s.sink.reserved + c.length,
                               completed := s.sink.completed[i := ChunkData(c, T.Piece(src, c))]))
    && t.pool == s.pool.(sched := d, workers := s.pool.workers[w := s.pool.workers[w].(pc := Head, hedge := false)],
                         now := s.pool.now + 1, delivered := s.pool.delivered + {i}, work := s.pool.work + 1)
    && |d.workers| == |s.pool.sched.workers|
    && (forall v :: 0 <= v < |d.workers| ==> d.workers[v].suppressedUntil == s.pool.sched.workers[v].suppressedUntil)
    && d == s.pool.sched.(chunks := s.pool.sched.chunks[i := c.(state := Completed)], workers := d.workers,
                          activeCount := s.pool.sched.activeCount - 1, completedCount := s.pool.sched.completedCount + 1,
                          recent := Push(s.pool.sched.recent, s.pool.now + 1 - c.startTime, DURATION_WINDOW))
  }

  /** ... delivered and about to report. */
  ghost predicate Handed(s: T.Stream, t: T.Stream, src: seq<byte>, w: nat, i: nat) {
    && w < |s.pool.workers| && i < |s.pool.sched.chunks|
    && var c := s.pool.sched.chunks[i];
    && c.start + c.length <= |src|
    && t == s.(pool := s.pool.(workers := s.pool.workers[w := s.pool.workers[w].(pc := Reporting)],
                               delivered := s.pool.delivered + {i}),
               gross := s.gross + c.length,
               sink := s.sink.(reserved := s.sink.reserved + c.length,
                               completed := s.sink.completed[i := ChunkData(c, T.Piece(src, c))]))
  }

  function Ticked(s: T.Stream): T.Stream {
    s.(pool := s.pool.(now := s.pool.now + 1))
  }

  function Reported(s: T.Stream, w: nat): T.Stream
    requires Stands(s.pool, w, Reporting) && s.pool.workers[w].i < |s.pool.sched.chunks|
  {
    s.(pool := SuccessStep(s.pool, w))
  }

  function Completion(s: T.Stream, w: nat): T.Stream
    requires Stands(s.pool, w, Finishing)
  {
    s.(pool := CompleteStep(s.pool, w))
  }

  /** ... reserved and opened. */
  ghost predicate UnderWay(s: T.Stream, t: T.Stream, w: nat, i: nat) {
    && w < |s.pool.workers| && i < |s.pool.sched.chunks|
    && t == s.(pool := s.pool.(workers := s.pool.workers[w := s.pool.workers[w].(pc := Reading)]),
               gross := s.gross + s.pool.sched.chunks[i].length,
               sink := s.sink.(reserved := s.sink.reserved + s.pool.sched.chunks[i].length))
  }

  lemma ReserveAndOpen(s0: T.Stream, s: T.Stream, cfg: Config, plan: seq<Chunk>, src: seq<byte>, w: nat, i: nat) returns (t: T.Stream)
    requires Reaches(s0, s, src) && Carrying(s, cfg, plan, src, w, i)
    requires s.sink.reserved + plan[i].length <= s.sink.bufferSize
    ensures Reaches(s0, t, src) && UnderWay(s, t, w, i)
  {
    var k := s.pool.sched.chunks[i].length;
    DoReserve(s0, s, src, w);
    var a := s.(pool := ReserveStep(s.pool, w, true), sink := s.sink.(reserved := s.sink.reserved + k), gross := s.gross + k);
    DoOpen(s0, a, src, w);
    t := a.(pool := OpenStep(a.pool, w, true));
  }

  /** The worker's own steps, up to delivery. */
  lemma CarryOver(s0: T.Stream, s: T.Stream, cfg: Config, plan: seq<Chunk>, src: seq<byte>, w: nat, i: nat) returns (t: T.Stream)
    requires Reaches(s0, s, src) && Carrying(s, cfg, plan, src, w, i)
    requires s.sink.reserved + plan[i].length <= s.sink.bufferSize
    ensures Reaches(s0, t, src) && Handed(s, t, src, w, i)
  {
    var b := ReserveAndOpen(s0, s, cfg, plan, src, w, i);
    hide Reaches;
    DoRead(s0, b, src, w);
    var d := b.(pool := ReadStep(b.pool, w, true));
    DoDeliver(s0, d, src, w);
    var c := s.pool.sched.chunks[i];
    t := d.(pool := DeliverStep(d.pool, w, true), sink := d.sink.(completed := d.sink.completed[i := ChunkData(c, T.Piece(src, c))]));
  }

  lemma ReportEffect(s: T.Stream, a: T.Stream, src: seq<byte>, w: nat, i: nat)
    requires Holder(s, w, i) && Handed(s, a, src, w, i)
    ensures Stands(Ticked(a).pool, w, Reporting) && Ticked(a).pool.workers[w].i == i < |Ticked(a).pool.sched.chunks|
    ensures a.glance.None?
    ensures ReportMade(Ticked(a), Reported(Ticked(a), w), w, i)
    ensures Done(s, Completion(Reported(Ticked(a), w), w), src, w, i)
  {
    ReportStep(Ticked(a), w, i);
    CompletionEffect(s, a, Reported(Ticked(a), w), src, w, i);
  }

  /** The report changes the slot's record only. */
  ghost predicate ReportMade(b: T.Stream, d: T.Stream, w: nat, i: nat) {
    && w < |b.pool.workers| && i < |b.pool.sched.chunks|
    && |d.pool.sched.workers| == |b.pool.sched.workers|
    && (forall v :: 0 <= v < |d.pool.sched.workers| ==>
          d.pool.sched.workers[v].suppressedUntil == b.pool.sched.workers[v].suppressedUntil)
    && d == b.(pool := b.pool.(sched := b.pool.sched.(workers := d.pool.sched.workers),
                               workers := b.pool.workers[w := b.pool.workers[w].(pc := Finishing)]))
  }

  lemma ReportStep(b: T.Stream, w: nat, i: nat)
    requires Stands(b.pool, w, Reporting) && b.pool.workers[w].i == i < |b.pool.sched.chunks|
    ensures ReportMade(b, Reported(b, w), w, i)
  {
  }

  lemma CompletionEffect(s: T.Stream, a: T.Stream, d: T.Stream, src: seq<byte>, w: nat, i: nat)
    requires Holder(s, w, i) && Handed(s, a, src, w, i) && ReportMade(Ticked(a), d, w, i)
    ensures Stands(d.pool, w, Finishing) && d.glance.None?
    ensures Done(s, Completion(d, w), src, w, i)
  {
  }

  /** What reporting and completing rest on. */
  ghost predicate Holder(s: T.Stream, w: nat, i: nat) {
    && w < |s.pool.workers| == |s.pool.sched.workers| && i < |s.pool.sched.chunks|
    && s.pool.workers[w] == s.pool.workers[w].(pc := Reserving, slot := w, i := i, hedge := false)
    && s.pool.sched.chunks[i].state == Active && s.pool.sched.chunks[i].startTime <= s.pool.now && s.glance.None?
  }

  lemma DoneSmooth(s: T.Stream, t: T.Stream, cfg: Config, plan: seq<Chunk>, src: seq<byte>, w: nat, i: nat)
    requires Carrying(s, cfg, plan, src, w, i) && Done(s, t, src, w, i)
    ensures Smooth(t, cfg, plan)
  {
  }

  lemma Carry(s0: T.Stream, s: T.Stream, cfg: Config, plan: seq<Chunk>, src: seq<byte>, w: nat, i: nat) returns (t: T.Stream)
    requires Reaches(s0, s, src) && Carrying(s, cfg, plan, src, w, i)
    requires s.sink.reserved + plan[i].length <= s.sink.bufferSize
    ensures Reaches(s0, t, src) && Done(s, t, src, w, i) && Smooth(t, cfg, plan)
  {
    var a := CarryOver(s0, s, cfg, plan, src, w, i);
    ReportEffect(s, a, src, w, i);
    hide Reaches, Holder, Carrying, Handed, Done, Smooth, SuccessStep, CompleteStep;
    DoTick(s0, a, src, 1);
    DoReport(s0, Ticked(a), src, w);
    t := Completion(Reported(Ticked(a), w), w);
    DoneSmooth(s, t, cfg, plan, src, w, i);
    DoComplete(s0, Reported(Ticked(a), w), src, w);
  }

  lemma GotSink(s: T.Stream, t: T.Stream, w: nat)
    requires Got(s, t, w)
    ensures t.sink == s.sink
  {
  }

  /** Worker w has transferred chunk i, the next one, in all. */
  ghost predicate Transferred(s: T.Stream, u: T.Stream, w: nat, i: nat) {
    && w < |s.pool.workers| && i == s.pool.sched.nextUndispatched < |s.pool.sched.chunks| == |u.pool.sched.chunks|
    && u.pool.sched.chunks == s.pool.sched.chunks[i := u.pool.sched.chunks[i]]
    && u.pool.sched.chunks[i].state == Completed
    && u.pool.sched.nextUndispatched == i + 1
    && u.pool.sched.completedCount == s.pool.sched.completedCount + 1 && u.pool.sched.activeCount == s.pool.sched.activeCount
    && |u.pool.sched.recent| == Min(|s.pool.sched.recent| + 1, DURATION_WINDOW)
    && u.pool.sched.effectiveTarget >= s.pool.sched.effectiveTarget
    && (s.pool.sched.completedCount < 4 ==> u.pool.sched.effectiveTarget == s.pool.sched.effectiveTarget)
    && u.pool.sched.hedgeActive == s.pool.sched.hedgeActive && u.pool.hedges == s.pool.hedges
    && u.pool.workers == s.pool.workers[w := s.pool.workers[w].(pc := Head, i := i, hedge := false)]
    && u.pool.now == s.pool.now + 1 && u.writer == s.writer
    && BufferGains(s, u, i)
  }

  ghost predicate BufferGains(s: T.Stream, u: T.Stream, i: nat)
    requires i < |s.pool.sched.chunks|
  {
    && u.sink.reserved == s.sink.reserved + s.pool.sched.chunks[i].length && u.sink.nextIndex == s.sink.nextIndex
    && i in u.sink.completed && u.sink.completed == s.sink.completed[i := u.sink.completed[i]]
    && u.sink.completed[i].chunk.length == s.pool.sched.chunks[i].length == |u.sink.completed[i].data|
  }

  lemma TransferEffect(s: T.Stream, t: T.Stream, u: T.Stream, src: seq<byte>, w: nat, i: nat)
    requires Got(s, t, w) && i == s.pool.sched.nextUndispatched && Done(t, u, src, w, i) && |s.pool.sched.recent| <= DURATION_WINDOW
    ensures Transferred(s, u, w, i)
  {
  }

  lemma TransferNext(s0: T.Stream, s: T.Stream, cfg: Config, plan: seq<Chunk>, src: seq<byte>, w: nat) returns (u: T.Stream)
    requires Layout(plan, |src|) && Reaches(s0, s, src) && Smooth(s, cfg, plan) && AtHead(s.pool, w) && NotOffered(s)
    requires s.pool.sched.nextUndispatched < |plan| && s.pool.sched.completedCount < |plan|
    requires s.pool.sched.activeCount < s.pool.sched.effectiveTarget && |s.pool.sched.recent| <= DURATION_WINDOW
    requires s.sink.reserved + plan[s.pool.sched.nextUndispatched].length <= s.sink.bufferSize
    ensures Reaches(s0, u, src) && Smooth(u, cfg, plan) && Transferred(s, u, w, s.pool.sched.nextUndispatched)
  {
    var i := s.pool.sched.nextUndispatched;
    var t := Get(s0, s, cfg, plan, src, w);
    GotCarries(s, t, cfg, plan, src, w);
    GotSink(s, t, w);
    hide Reaches, Got, Carrying, Layout, Smooth, Done, Transferred, AtHead, NotOffered;
    u := Carry(s0, t, cfg, plan, src, w, i);
    TransferEffect(s, t, u, src, w, i);
  }
}
