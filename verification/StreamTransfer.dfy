/** A parallel download to an ordered stream (`downloadParallelStream` in internal/job/runner.go): the worker pool,
    the stream sink, its writer and the driver, interleaved at every unlock. */
module StreamTransfer {
  import opened Basics
  import opened Chunks
  import opened Scheduling
  import opened WorkerPool
  import opened PoolInvariants
  import opened PoolTheorems
  import opened Streaming

  datatype Writer =
    | Entering                 // about to lock and look at the buffer
    | Waiting                  // on the condition variable
    | Writing(cd: ChunkData)   // inside w.Write, lock released
    | Finished(ok: bool)       // writeLoop returned

  /** A worker inside HedgeEligible, between its two looks at the sink. */
  datatype Glance = Glance(w: nat, frontier: nat)

  datatype Stream = Stream(
    pool: Pool,
    sink: Sink,
    writer: Writer,
    out: seq<byte>,            // what w has received
    glance: Option<Glance>,
    result: Option<bool>,      // downloadParallelStream returned: ExitSuccess or not
    // history
    gross: nat,                // bytes ever reserved
    lost: nat)                 // of those, reserved for attempts that failed

  datatype Event =
    | OfPool(e: WorkerPool.Event)
    | ReadFrontier(w: nat)     // HedgeEligible calls FrontierIndex
    | WriterEnters
    | WriterWakes
    | WriteSucceeds
    | WriteFails(k: nat)       // after k bytes of the chunk
    | DriverCloses             // streamSink.Close()
    | DriverReturns            // after <-writeErr

  /** The bytes of chunk i. A transfer either fails or returns exactly these. */
  function Piece(src: seq<byte>, c: Chunk): seq<byte>
    requires c.start + c.length <= |src|
  {
    src[c.start..c.start + c.length]
  }

  ghost predicate ValidSetup(cfg: Config, plan: seq<Chunk>, src: seq<byte>) {
    && ValidConfig(cfg) && cfg.streamMode
    && Layout(plan, |src|)
    && forall i :: 0 <= i < |plan| ==> plan[i].state == Pending && plan[i].attempts == 0
  }

  function Init(cfg: Config, plan: seq<Chunk>, now: nat): Stream
    requires ValidConfig(cfg)
  {
    Stream(WorkerPool.Init(cfg, plan, now), NewSink(cfg.bufferSize), Entering, [], None, None, 0, 0)
  }

  /** Worker w has a chunk whose bytes exist. */
  predicate HasPiece(s: Stream, w: nat, src: seq<byte>) {
    && w < |s.pool.workers| && s.pool.workers[w].i < |s.pool.sched.chunks|
    && var c := s.pool.sched.chunks[s.pool.workers[w].i]; c.start + c.length <= |src|
  }

  function ChunkAt(s: Stream, w: nat, src: seq<byte>): Chunk
    requires HasPiece(s, w, src)
  {
    s.pool.sched.chunks[s.pool.workers[w].i]
  }

  /** Calls that lock the scheduler. The collecting loop does so only to cancel. */
  predicate LocksScheduler(p: Pool, pe: WorkerPool.Event) {
    match pe
    case Tick(_) => false
    case RootCancel => false
    case CheckRoot(_) => false
    case CallReserve(_, _) => false
    case CallOpenRange(_, _) => false
    case CallReadFull(_, _) => false
    case CallDeliver(_, _) => false
    case Collect(w) => w < |p.workers| && !p.workers[w].ok && !p.firstErr
    case _ => true
  }

  /** HedgeEligible holds the scheduler's mutex from its look at the frontier to its look at the reserved bytes, while
      the sink moves on; it ends with the values it has seen. */
  predicate Permitted(s: Stream, pe: WorkerPool.Event) {
    match pe
    case CallHedgeEligible(w, frontier, reserved, bufferSize) =>
      s.glance == Some(Glance(w, frontier)) && reserved == s.sink.reserved && bufferSize == s.sink.bufferSize
    case _ => s.glance.Some? ==> !LocksScheduler(s.pool, pe)
  }

  /** The answers a worker gets from the sink are the sink's. */
  predicate Enabled(s: Stream, e: Event, src: seq<byte>) {
    match e
    case OfPool(pe) =>
      && WorkerPool.Enabled(s.pool, pe) && Permitted(s, pe)
      && (match pe
          case CallReserve(w, ok) => HasPiece(s, w, src) && ok == Reserve(s.sink, ChunkAt(s, w, src).length).1
          case CallOpenRange(w, _) => HasPiece(s, w, src)
          case CallReadFull(w, _) => HasPiece(s, w, src)
          case CallDeliver(w, ok) =>
            HasPiece(s, w, src) && ok == Submit(s.sink, ChunkAt(s, w, src), Piece(src, ChunkAt(s, w, src))).1
          case _ => true)
    case ReadFrontier(w) => Stands(s.pool, w, Look) && s.glance.None?
    case WriterEnters => s.writer.Entering?
    case WriterWakes => s.writer.Waiting?
    case WriteSucceeds => s.writer.Writing?
    case WriteFails(k) => s.writer.Writing? && k <= |s.writer.cd.data|
    case DriverCloses => s.pool.verdict.Some? && !s.sink.closed
    case DriverReturns => s.sink.closed && s.writer.Finished? && s.pool.verdict.Some? && s.result.None?
  }

  function AfterMove(m: WriterMove): Writer {
    match m
    case Wait => Waiting
    case Reenter => Entering
    case Write(cd) => Writing(cd)
    case Return(ok) => Finished(ok)
  }

  function WriterStep(s: Stream, r: (Sink, WriterMove)): Stream {
    s.(sink := r.0, writer := AfterMove(r.1))
  }

  function PoolStep(s: Stream, pe: WorkerPool.Event, src: seq<byte>): Stream
    requires Enabled(s, OfPool(pe), src)
  {
    var t := s.(pool := WorkerPool.Apply(s.pool, pe));
    match pe
    case CallReserve(w, ok) =>
      var c := ChunkAt(s, w, src);
      t.(sink := Reserve(s.sink, c.length).0, gross := s.gross + if ok then c.length else 0)
    case CallOpenRange(w, ok) =>
      t.(lost := s.lost + if ok || s.pool.workers[w].hedge then 0 else ChunkAt(s, w, src).length)
    case CallReadFull(w, ok) =>
      t.(lost := s.lost + if ok || s.pool.workers[w].hedge then 0 else ChunkAt(s, w, src).length)
    case CallDeliver(w, ok) =>
      var c := ChunkAt(s, w, src);
      t.(sink := Submit(s.sink, c, Piece(src, c)).0,
         lost := s.lost + if ok || s.pool.workers[w].hedge then 0 else c.length)
    case CallHedgeEligible(_, _, _, _) => t.(glance := None)
    case _ => t
  }

  function Apply(s: Stream, e: Event, src: seq<byte>): Stream
    requires Enabled(s, e, src)
  {
    match e
    case OfPool(pe) => PoolStep(s, pe, src)
    case ReadFrontier(w) => s.(glance := Some(Glance(w, s.sink.nextIndex)))
    case WriterEnters => WriterStep(s, Enter(s.sink, s.pool.rootDone))
    case WriterWakes => WriterStep(s, Wake(s.sink, s.pool.rootDone))
    case WriteSucceeds => WriterStep(s.(out := s.out + s.writer.cd.data), WriteDone(s.sink))
    case WriteFails(k) => WriterStep(s.(out := s.out + s.writer.cd.data[..k]), WriteFailed(s.sink))
    case DriverCloses => s.(sink := Close(s.sink))
    case DriverReturns => s.(result := Some(s.pool.verdict.value && s.writer.ok))
  }

  predicate Legal(s: Stream, es: seq<Event>, src: seq<byte>)
    decreases |es|
  {
    es == [] || (Enabled(s, es[0], src) && Legal(Apply(s, es[0], src), es[1..], src))
  }

  function Exec(s: Stream, es: seq<Event>, src: seq<byte>): Stream
    requires Legal(s, es, src)
    decreases |es|
  {
    if es == [] then s else Exec(Apply(s, es[0], src), es[1..], src)
  }

  /** Not a failed write and not a cancellation. */
  predicate Undisturbing(e: Event) {
    !e.WriteFails? && e != OfPool(RootCancel)
  }

  // ----- what every step keeps

  /** What the sink holds for chunk i is chunk i. */
  ghost predicate Genuine(plan: seq<Chunk>, src: seq<byte>, i: nat, cd: ChunkData) {
    && i < |plan| && plan[i].start + plan[i].length <= |src|
    && cd.data == Piece(src, plan[i]) && cd.chunk.length == plan[i].length
  }

  /** Buffered data is genuine, and what was delivered is buffered or has been taken by the writer. */
  ghost predicate BufferOK(s: Stream, plan: seq<Chunk>, src: seq<byte>) {
    && (forall i :: i in s.sink.completed ==> Genuine(plan, src, i, s.sink.completed[i]))
    && (forall i :: i in s.pool.delivered ==> i < s.sink.nextIndex || i in s.sink.completed)
    && s.sink.nextIndex <= |plan|
    && (forall i: nat :: i < s.sink.nextIndex || i in s.sink.completed ==> i in s.pool.delivered)
    && s.sink.bufferSize == s.pool.sched.cfg.bufferSize
  }

  /** The source up to the start of chunk k. */
  function Upto(plan: seq<Chunk>, src: seq<byte>, k: nat): seq<byte>
    requires Layout(plan, |src|) && k <= |plan|
  {
    BoundariesGrow(plan, |src|, k, |plan|);
    src[..Boundary(plan, |src|, k)]
  }

  /** The output is the source up to the chunk in the writer's hands; after a failed write, a prefix of it. */
  ghost predicate OutputOK(s: Stream, plan: seq<Chunk>, src: seq<byte>)
    requires Layout(plan, |src|) && s.sink.nextIndex <= |plan|
  {
    match s.writer
    case Writing(cd) =>
      && 0 < s.sink.nextIndex && !s.sink.fatal
      && Genuine(plan, src, s.sink.nextIndex - 1, cd)
      && s.out == Upto(plan, src, s.sink.nextIndex - 1)
    case Finished(ok) =>
      if ok then s.out == Upto(plan, src, s.sink.nextIndex) && s.sink.closed && s.sink.completed == map[]
      else s.out <= Upto(plan, src, s.sink.nextIndex)
    case _ => s.out == Upto(plan, src, s.sink.nextIndex) && !s.sink.fatal
  }

  ghost predicate DriverOK(s: Stream) {
    && (s.sink.closed ==> s.pool.verdict.Some?)
    && (s.result == Some(true) ==> s.pool.verdict == Some(true) && s.writer == Finished(true))
  }

  /** Everything ever reserved is still reserved or belonged to a chunk the writer took. */
  ghost predicate GrossOK(s: Stream, plan: seq<Chunk>, src: seq<byte>)
    requires s.sink.nextIndex <= |plan|
  {
    s.sink.reserved == s.gross - Boundary(plan, |src|, s.sink.nextIndex)
  }

  /** The part of the invariant about the sink, the writer and the driver. */
  ghost predicate SinkInv(s: Stream, plan: seq<Chunk>, src: seq<byte>)
    requires Layout(plan, |src|)
  {
    BufferOK(s, plan, src) && OutputOK(s, plan, src) && DriverOK(s) && GrossOK(s, plan, src)
  }

  lemma InitSinkInv(cfg: Config, plan: seq<Chunk>, src: seq<byte>, now: nat)
    requires ValidSetup(cfg, plan, src)
    ensures SinkInv(Init(cfg, plan, now), plan, src)
  {
  }

  /** Appending chunk k to the source up to k gives the source up to k + 1. */
  lemma NextPiece(plan: seq<Chunk>, src: seq<byte>, k: nat)
    requires Layout(plan, |src|) && k < |plan| && plan[k].start + plan[k].length <= |src|
    ensures Boundary(plan, |src|, k + 1) == plan[k].start + plan[k].length
    ensures Upto(plan, src, k) + Piece(src, plan[k]) == Upto(plan, src, k + 1)
  {
    BoundaryStep(plan, |src|, k);
  }

  /** Between two chunks: everything taken from the buffer is in the output. */
  ghost predicate Clean(s: Stream, plan: seq<Chunk>, src: seq<byte>)
    requires Layout(plan, |src|)
  {
    && BufferOK(s, plan, src) && GrossOK(s, plan, src)
    && s.out == Upto(plan, src, s.sink.nextIndex) && !s.sink.fatal
    && (s.sink.closed ==> s.pool.verdict.Some?) && s.result != Some(true)
  }

  lemma DrainKeeps(s: Stream, plan: seq<Chunk>, src: seq<byte>)
    requires Layout(plan, |src|) && Clean(s, plan, src)
    ensures SinkInv(WriterStep(s, Drain(s.sink)), plan, src)
  {
    if s.sink.nextIndex in s.sink.completed {
      TakeKeeps(s, WriterStep(s, Drain(s.sink)), plan, src);
    } else {
      hide Layout, BufferOK;
      assert BufferOK(WriterStep(s, Drain(s.sink)), plan, src) by { SameBufferOK(s, WriterStep(s, Drain(s.sink)), plan, src); }
    }
  }

  lemma SameBufferOK(s: Stream, t: Stream, plan: seq<Chunk>, src: seq<byte>)
    requires BufferOK(s, plan, src) && t.pool == s.pool
    requires t.sink.completed == s.sink.completed && t.sink.nextIndex == s.sink.nextIndex && t.sink.bufferSize == s.sink.bufferSize
    ensures BufferOK(t, plan, src)
  {
  }

  lemma TakeKeeps(s: Stream, t: Stream, plan: seq<Chunk>, src: seq<byte>)
    requires Layout(plan, |src|) && Clean(s, plan, src) && s.sink.nextIndex in s.sink.completed
    requires var cd := s.sink.completed[s.sink.nextIndex];
             t == s.(writer := Writing(cd), sink := s.sink.(completed := s.sink.completed - {s.sink.nextIndex},
                     reserved := s.sink.reserved - cd.chunk.length, nextIndex := s.sink.nextIndex + 1))
    ensures SinkInv(t, plan, src)
  {
    var k := s.sink.nextIndex;
    assert Genuine(plan, src, k, s.sink.completed[k]);
    BoundaryStep(plan, |src|, k);
  }

  lemma EnterKeeps(s: Stream, plan: seq<Chunk>, src: seq<byte>, ctxDone: bool)
    requires Layout(plan, |src|) && Clean(s, plan, src)
    ensures SinkInv(WriterStep(s, Enter(s.sink, ctxDone)), plan, src)
  {
    if !(s.sink.nextIndex !in s.sink.completed && !s.sink.fatal && !s.sink.closed) {
      DrainKeeps(s, plan, src);
    }
  }

  lemma WakeKeeps(s: Stream, plan: seq<Chunk>, src: seq<byte>, ctxDone: bool)
    requires Layout(plan, |src|) && Clean(s, plan, src)
    ensures SinkInv(WriterStep(s, Wake(s.sink, ctxDone)), plan, src)
  {
    if !ctxDone { EnterKeeps(s, plan, src, ctxDone); }
  }

  lemma Rested(s: Stream, plan: seq<Chunk>, src: seq<byte>)
    requires Layout(plan, |src|) && SinkInv(s, plan, src) && (s.writer.Entering? || s.writer.Waiting?)
    ensures Clean(s, plan, src)
  {
  }

  lemma WriteSucceedsKeeps(s: Stream, plan: seq<Chunk>, src: seq<byte>)
    requires Layout(plan, |src|) && SinkInv(s, plan, src) && s.writer.Writing?
    ensures SinkInv(WriterStep(s.(out := s.out + s.writer.cd.data), WriteDone(s.sink)), plan, src)
  {
    NextPiece(plan, src, s.sink.nextIndex - 1);
    var t := s.(out := s.out + s.writer.cd.data, sink := s.sink.(writtenCount := s.sink.writtenCount + 1));
    assert Clean(t, plan, src);
    hide SinkInv, Clean, Drain, Layout;
    DrainKeeps(t, plan, src);
    assert WriterStep(t, Drain(t.sink)) == WriterStep(s.(out := s.out + s.writer.cd.data), WriteDone(s.sink));
  }

  lemma WriteFailsKeeps(s: Stream, plan: seq<Chunk>, src: seq<byte>, k: nat)
    requires Layout(plan, |src|) && SinkInv(s, plan, src) && s.writer.Writing? && k <= |s.writer.cd.data|
    ensures SinkInv(WriterStep(s.(out := s.out + s.writer.cd.data[..k]), WriteFailed(s.sink)), plan, src)
  {
    NextPiece(plan, src, s.sink.nextIndex - 1);
    assert s.out + s.writer.cd.data[..k] <= s.out + s.writer.cd.data;
  }

  lemma WriterKeeps(s: Stream, plan: seq<Chunk>, src: seq<byte>, e: Event)
    requires Layout(plan, |src|) && SinkInv(s, plan, src) && Enabled(s, e, src)
    requires e.WriterEnters? || e.WriterWakes? || e.WriteSucceeds? || e.WriteFails?
    ensures SinkInv(Apply(s, e, src), plan, src)
  {
    hide SinkInv, Clean, WriteDone, WriteFailed, Enter, Wake, Layout;
    match e
    case WriterEnters => Rested(s, plan, src); EnterKeeps(s, plan, src, s.pool.rootDone);
    case WriterWakes => Rested(s, plan, src); WakeKeeps(s, plan, src, s.pool.rootDone);
    case WriteSucceeds => WriteSucceedsKeeps(s, plan, src);
    case WriteFails(k) => WriteFailsKeeps(s, plan, src, k);
  }

  lemma DriverKeeps(s: Stream, plan: seq<Chunk>, src: seq<byte>, e: Event)
    requires Layout(plan, |src|) && SinkInv(s, plan, src) && Enabled(s, e, src)
    requires e.DriverCloses? || e.DriverReturns?
    ensures SinkInv(Apply(s, e, src), plan, src)
  {
  }

  /** An event of the pool that does not reach the sink. */
  lemma ElsewhereKeeps(s: Stream, t: Stream, plan: seq<Chunk>, src: seq<byte>)
    requires Layout(plan, |src|) && SinkInv(s, plan, src)
    requires t == s.(pool := t.pool, lost := t.lost, glance := t.glance)
    requires t.pool.delivered == s.pool.delivered && t.pool.sched.cfg == s.pool.sched.cfg
    requires s.pool.verdict.Some? ==> t.pool.verdict == s.pool.verdict
    ensures SinkInv(t, plan, src)
  {
  }

  lemma ReserveKeeps(s: Stream, t: Stream, plan: seq<Chunk>, src: seq<byte>, length: nat)
    requires Layout(plan, |src|) && SinkInv(s, plan, src)
    requires t == s.(pool := t.pool, sink := Reserve(s.sink, length).0,
                     gross := s.gross + if Reserve(s.sink, length).1 then length else 0)
    requires t.pool.delivered == s.pool.delivered && t.pool.sched.cfg == s.pool.sched.cfg
    requires t.pool.verdict == s.pool.verdict
    ensures SinkInv(t, plan, src)
  {
  }

  lemma DeliverKeeps(s: Stream, t: Stream, plan: seq<Chunk>, src: seq<byte>, c: Chunk)
    requires Layout(plan, |src|) && SinkInv(s, plan, src) && s.pool.verdict.None?
    requires c.index < |plan| && c.start == plan[c.index].start && c.length == plan[c.index].length
    requires c.start + c.length <= |src|
    requires t == s.(pool := t.pool, sink := Submit(s.sink, c, Piece(src, c)).0, lost := t.lost)
    requires t.pool.delivered == if Submit(s.sink, c, Piece(src, c)).1 then s.pool.delivered + {c.index} else s.pool.delivered
    requires t.pool.sched.cfg == s.pool.sched.cfg && t.pool.verdict == s.pool.verdict
    ensures SinkInv(t, plan, src)
  {
  }

  /** A worker that is about to deliver has not returned, so the driver has not reached its verdict. */
  lemma NoVerdictYet(p: Pool, plan: seq<Chunk>, w: nat)
    requires Shape(p, plan) && Collected(p) && w < |p.workers| && p.workers[w].pc != Exited
    ensures p.verdict.None?
  {
  }

  lemma PoolEventKeeps(s: Stream, plan: seq<Chunk>, src: seq<byte>, pe: WorkerPool.Event)
    requires Layout(plan, |src|) && ValidPlan(plan) && SinkInv(s, plan, src) && Enabled(s, OfPool(pe), src)
    requires Inv(s.pool, plan)
    ensures SinkInv(PoolStep(s, pe, src), plan, src)
  {
    hide WorkerPool.Apply, WorkerPool.Enabled, Reserve, Submit, SinkInv, Inv, ValidPlan;
    var t := PoolStep(s, pe, src);
    EventEffects(s.pool, pe);
    StepKeeps(s.pool, plan, pe);
    match pe
    case CallReserve(w, ok) => ReserveKeeps(s, t, plan, src, ChunkAt(s, w, src).length);
    case CallDeliver(w, ok) =>
      DeliverSetup(s, plan, src, w, ok);
      DeliverKeeps(s, t, plan, src, ChunkAt(s, w, src));
    case _ => ElsewhereKeeps(s, t, plan, src);
  }

  lemma DeliverSetup(s: Stream, plan: seq<Chunk>, src: seq<byte>, w: nat, ok: bool)
    requires Layout(plan, |src|) && Inv(s.pool, plan) && Enabled(s, OfPool(CallDeliver(w, ok)), src)
    ensures s.pool.verdict.None?
    ensures var c := ChunkAt(s, w, src);
            c.index == s.pool.workers[w].i < |plan| && c.start == plan[c.index].start && c.length == plan[c.index].length
  {
    NoVerdictYet(s.pool, plan, w);
  }

  lemma StepKeepsSink(s: Stream, plan: seq<Chunk>, src: seq<byte>, e: Event)
    requires Layout(plan, |src|) && ValidPlan(plan) && Inv(s.pool, plan) && SinkInv(s, plan, src) && Enabled(s, e, src)
    ensures Inv(Apply(s, e, src).pool, plan) && SinkInv(Apply(s, e, src), plan, src)
    ensures Apply(s, e, src).pool.sched.cfg == s.pool.sched.cfg
  {
    hide WorkerPool.Apply, WorkerPool.Enabled, SinkInv, Inv, ValidPlan;
    match e
    case OfPool(pe) =>
      StepKeeps(s.pool, plan, pe);
      PoolEventKeeps(s, plan, src, pe);
    case ReadFrontier(w) =>
      hide *;
      ElsewhereKeeps(s, s.(glance := Some(Glance(w, s.sink.nextIndex))), plan, src);
    case DriverCloses => DriverKeeps(s, plan, src, e);
    case DriverReturns => DriverKeeps(s, plan, src, e);
    case _ => WriterKeeps(s, plan, src, e);
  }

  lemma {:induction false} RunKeepsSink(s: Stream, plan: seq<Chunk>, src: seq<byte>, es: seq<Event>)
    requires Layout(plan, |src|) && ValidPlan(plan) && Inv(s.pool, plan) && SinkInv(s, plan, src) && Legal(s, es, src)
    ensures Inv(Exec(s, es, src).pool, plan) && SinkInv(Exec(s, es, src), plan, src)
    ensures Exec(s, es, src).pool.sched.cfg == s.pool.sched.cfg
    decreases |es|
  {
    hide Apply, Enabled, SinkInv, Inv, ValidPlan;
    if es != [] {
      StepKeepsSink(s, plan, src, es[0]);
      RunKeepsSink(Apply(s, es[0], src), plan, src, es[1..]);
    }
  }

  // ----- main results

  lemma Reachable(cfg: Config, plan: seq<Chunk>, src: seq<byte>, now: nat, es: seq<Event>)
    requires ValidSetup(cfg, plan, src) && Legal(Init(cfg, plan, now), es, src)
    ensures var s := Exec(Init(cfg, plan, now), es, src);
            Inv(s.pool, plan) && SinkInv(s, plan, src) && s.pool.sched.cfg == cfg
  {
    InitInv(cfg, plan, now);
    InitSinkInv(cfg, plan, src, now);
    hide Apply, Enabled, SinkInv, Inv;
    RunKeepsSink(Init(cfg, plan, now), plan, src, es);
  }

  /** Whenever a worker has a chunk, the bytes of that chunk exist, so that its calls are defined. */
  lemma PiecesExist(cfg: Config, plan: seq<Chunk>, src: seq<byte>, now: nat, es: seq<Event>, w: nat)
    requires ValidSetup(cfg, plan, src) && Legal(Init(cfg, plan, now), es, src)
    ensures var s := Exec(Init(cfg, plan, now), es, src);
            w < |s.pool.workers| && HasChunk(s.pool.workers[w]) ==> HasPiece(s, w, src)
  {
    var s := Exec(Init(cfg, plan, now), es, src);
    Reachable(cfg, plan, src, now, es);
    hide Exec, Legal, Init, SinkInv;
    if w < |s.pool.workers| && HasChunk(s.pool.workers[w]) {
      var i := s.pool.workers[w].i;
      BoundaryStep(plan, |src|, i);
      BoundariesGrow(plan, |src|, i + 1, |plan|);
    }
  }

  /** Stream order. In every reachable state the output is a prefix of the source, whatever was submitted, in
      whatever order and how often; unless a write failed or the writer was stopped, the output and the chunk in the
      writer's hands are exactly the chunks before nextIndex. */
  lemma StreamOrder(cfg: Config, plan: seq<Chunk>, src: seq<byte>, now: nat, es: seq<Event>)
    requires ValidSetup(cfg, plan, src) && Legal(Init(cfg, plan, now), es, src)
    ensures InOrder(Exec(Init(cfg, plan, now), es, src), plan, src)
  {
    hide Inv, SinkInv, InOrder;
    Reachable(cfg, plan, src, now, es);
    SinkInOrder(Exec(Init(cfg, plan, now), es, src), plan, src);
  }

  ghost predicate InOrder(s: Stream, plan: seq<Chunk>, src: seq<byte>)
    requires Layout(plan, |src|)
  {
    && s.out <= src
    && s.sink.nextIndex <= |plan|
    && (s.writer.Writing? ==> s.out + s.writer.cd.data == Upto(plan, src, s.sink.nextIndex))
    && (s.writer.Entering? || s.writer.Waiting? ==> s.out == Upto(plan, src, s.sink.nextIndex))
  }

  lemma UptoPrefix(plan: seq<Chunk>, src: seq<byte>, k: nat)
    requires Layout(plan, |src|) && k <= |plan|
    ensures Upto(plan, src, k) <= src
  {
    BoundariesGrow(plan, |src|, k, |plan|);
    assert src == src[..Boundary(plan, |src|, k)] + src[Boundary(plan, |src|, k)..];
  }

  lemma SinkInOrder(s: Stream, plan: seq<Chunk>, src: seq<byte>)
    requires Layout(plan, |src|) && SinkInv(s, plan, src)
    ensures InOrder(s, plan, src)
  {
    UptoPrefix(plan, src, s.sink.nextIndex);
    if s.writer.Writing? {
      NextPiece(plan, src, s.sink.nextIndex - 1);
      assert s.out + s.writer.cd.data == Upto(plan, src, s.sink.nextIndex);
    }
  }

  lemma NothingAtReturn(s: Stream, src: seq<byte>, e: Event)
    requires Enabled(s, e, src) && s.writer.Finished?
    ensures Apply(s, e, src).writer == s.writer && Apply(s, e, src).out == s.out
  {
  }

  /** Once the writer has returned, after a failed write in particular, nothing more is written in the rest of any
      run. */
  lemma {:induction false} NothingAfterReturn(s: Stream, src: seq<byte>, es: seq<Event>)
    requires Legal(s, es, src) && s.writer.Finished?
    ensures Exec(s, es, src).writer == s.writer && Exec(s, es, src).out == s.out
    decreases |es|
  {
    hide Apply, Enabled;
    if es != [] {
      NothingAtReturn(s, src, es[0]);
      NothingAfterReturn(Apply(s, es[0], src), src, es[1..]);
    }
  }

  /** Stream success is exact: for every interleaving of workers, retries, duplicates, writer, driver and
      cancellation, ExitSuccess means that the output is the whole object. */
  lemma StreamSuccessIsExact(cfg: Config, plan: seq<Chunk>, src: seq<byte>, now: nat, es: seq<Event>)
    requires ValidSetup(cfg, plan, src) && Legal(Init(cfg, plan, now), es, src)
    requires Exec(Init(cfg, plan, now), es, src).result == Some(true)
    ensures Exec(Init(cfg, plan, now), es, src).out == src
  {
    var s := Exec(Init(cfg, plan, now), es, src);
    hide Inv, SinkInv;
    Reachable(cfg, plan, src, now, es);
    AllTaken(s, plan, src);
  }

  lemma AllTaken(s: Stream, plan: seq<Chunk>, src: seq<byte>)
    requires Layout(plan, |src|) && Inv(s.pool, plan) && SinkInv(s, plan, src) && s.result == Some(true)
    requires forall i :: 0 <= i < |plan| ==> plan[i].state == Pending
    ensures s.out == src
  {
    CounterMeansDone(s.pool, plan);
    assert s.sink.nextIndex < |plan| ==> s.sink.nextIndex in s.pool.delivered;
  }
}
