/** The stream sink's memory accounting over whole runs (internal/sink/stream.go, internal/job/runner.go). */
module StreamMemory {
  import opened Basics
  import opened Chunks
  import opened Scheduling
  import opened WorkerPool
  import opened PoolInvariants
  import opened PoolBudget
  import opened Streaming
  import T = StreamTransfer

  /** The bytes worker v has reserved and not yet submitted. */
  function Part(v: Worker, plan: seq<Chunk>): nat {
    if v.pc in {Opening, Reading, Delivering} && !v.hedge && v.i < |plan| then plan[v.i].length else 0
  }

  function HeldBytes(workers: seq<Worker>, plan: seq<Chunk>): nat {
    if workers == [] then 0 else Part(workers[0], plan) + HeldBytes(workers[1..], plan)
  }

  lemma {:induction false} HeldUpdate(workers: seq<Worker>, plan: seq<Chunk>, w: nat, v: Worker)
    requires w < |workers|
    ensures HeldBytes(workers[w := v], plan) == HeldBytes(workers, plan) - Part(workers[w], plan) + Part(v, plan)
  {
    if w == 0 {
      assert workers[0 := v][1..] == workers[1..];
    } else {
      assert workers[w := v][1..] == workers[1..][w - 1 := v];
      HeldUpdate(workers[1..], plan, w - 1, v);
    }
  }

  /** The bytes a worker holds for a duplicate, which are never reserved. */
  function CopyPart(v: Worker, plan: seq<Chunk>): nat {
    if v.pc in {Reading, Delivering} && v.hedge && v.i < |plan| then plan[v.i].length else 0
  }

  function CopyBytes(workers: seq<Worker>, plan: seq<Chunk>): nat {
    if workers == [] then 0 else CopyPart(workers[0], plan) + CopyBytes(workers[1..], plan)
  }

  /** The bytes waiting in the reorder buffer, over the first k chunks. */
  function BufferedBytes(completed: map<nat, ChunkData>, plan: seq<Chunk>, k: nat): nat
    requires k <= |plan|
  {
    if k == 0 then 0
    else BufferedBytes(completed, plan, k - 1) + if k - 1 in completed then plan[k - 1].length else 0
  }

  lemma {:induction false} BufferedAdd(completed: map<nat, ChunkData>, plan: seq<Chunk>, k: nat, i: nat, cd: ChunkData)
    requires k <= |plan| && i !in completed && i < |plan|
    ensures BufferedBytes(completed[i := cd], plan, k) == BufferedBytes(completed, plan, k) + if i < k then plan[i].length else 0
  {
    if k > 0 { BufferedAdd(completed, plan, k - 1, i, cd); }
  }

  lemma {:induction false} BufferedAtLeast(completed: map<nat, ChunkData>, plan: seq<Chunk>, k: nat, i: nat)
    requires k <= |plan| && i < k && i in completed
    ensures plan[i].length <= BufferedBytes(completed, plan, k)
  {
    if i < k - 1 { BufferedAtLeast(completed, plan, k - 1, i); }
  }

  lemma BufferedTake(completed: map<nat, ChunkData>, plan: seq<Chunk>, k: nat, i: nat)
    requires k <= |plan| && i in completed && i < k
    ensures BufferedBytes(completed - {i}, plan, k) == BufferedBytes(completed, plan, k) - plan[i].length
  {
    BufferedAdd(completed - {i}, plan, k, i, completed[i]);
    assert (completed - {i})[i := completed[i]] == completed;
  }

  lemma {:induction false} NothingBuffered(plan: seq<Chunk>, k: nat)
    requires k <= |plan|
    ensures BufferedBytes(map[], plan, k) == 0
  {
    if k > 0 { NothingBuffered(plan, k - 1); }
  }

  /** Conservation of reservations: what is reserved is held by a worker, buffered, or lost to a failed attempt. */
  ghost predicate Balanced(s: T.Stream, plan: seq<Chunk>) {
    && (s.pool.hedges == 0 ==>
          s.sink.reserved == HeldBytes(s.pool.workers, plan) + BufferedBytes(s.sink.completed, plan, |plan|) + s.lost)
    && s.sink.reserved <= s.sink.bufferSize
  }

  /** How an event of the pool changes the reserved bytes in a worker's hands. */
  function PartChange(p: Pool, plan: seq<Chunk>, e: Event): int
    requires Enabled(p, e)
  {
    match e
    case CallReserve(w, ok) => if ok then Length(p, plan, w) else 0
    case CallOpenRange(w, ok) => if ok || p.workers[w].hedge then 0 else 0 - (Length(p, plan, w) as int)
    case CallReadFull(w, ok) => if ok || p.workers[w].hedge then 0 else 0 - (Length(p, plan, w) as int)
    case CallDeliver(w, ok) => if p.workers[w].hedge then 0 else 0 - (Length(p, plan, w) as int)
    case _ => 0
  }

  function Length(p: Pool, plan: seq<Chunk>, w: nat): nat
    requires w < |p.workers|
  {
    if p.workers[w].i < |plan| then plan[p.workers[w].i].length else 0
  }

  lemma AskPart(p: Pool, plan: seq<Chunk>, w: nat)
    requires Stands(p, w, Ask) && p.sched.cfg.streamMode && FlagsFit(p.workers[w])
    ensures |AskStep(p, w).workers| == |p.workers| && Part(AskStep(p, w).workers[w], plan) == Part(p.workers[w], plan)
  {
    hide NextAssignment;
    NextAssignmentEffect(p.sched, p.workers[w].slot, p.rootDone, p.now);
  }

  lemma PartChanges(p: Pool, plan: seq<Chunk>, e: Event)
    requires !IsAmbient(e) && Enabled(p, e) && p.sched.cfg.streamMode
    requires FlagsFit(p.workers[e.w])
    ensures e.w < |p.workers| == |Apply(p, e).workers|
    ensures Part(Apply(p, e).workers[e.w], plan) == Part(p.workers[e.w], plan) + PartChange(p, plan, e)
  {
    hide HedgeEligible, StartHedge, AskStep, OnAdmissionFailure, MarkFailed, CancelHedge, OnWorkerSuccess, MarkComplete;
    if e.CallNextAssignment? { AskPart(p, plan, e.w); }
  }

  lemma HeldChanges(p: Pool, plan: seq<Chunk>, e: Event)
    requires ValidPlan(plan) && Settled(p, plan) && Order(p, plan) && Enabled(p, e) && p.sched.cfg.streamMode
    ensures HeldBytes(Apply(p, e).workers, plan) == HeldBytes(p.workers, plan) + PartChange(p, plan, e)
  {
    var q := Apply(p, e);
    if IsAmbient(e) {
      AmbientUntouched(p, e);
    } else {
      CallMoves(p, plan, e);
      hide Apply, ValidPlan, Order, Moves, SomeMove, Subject;
      PartChanges(p, plan, e);
      HeldUpdate(p.workers, plan, e.w, q.workers[e.w]);
      MovedAlone(p, q, plan, e.w, Subject(p, e));
    }
  }

  lemma MovedAlone(p: Pool, q: Pool, plan: seq<Chunk>, w: nat, i: nat)
    requires Moves(p, q, plan, w, i)
    ensures w < |p.workers| == |q.workers| && q.workers == p.workers[w := q.workers[w]]
  {
  }

  // ----- each event keeps the balance

  lemma DrainBalance(s: T.Stream, plan: seq<Chunk>, src: seq<byte>)
    requires Layout(plan, |src|) && T.BufferOK(s, plan, src) && Balanced(s, plan)
    ensures Balanced(T.WriterStep(s, Drain(s.sink)), plan)
  {
    if s.sink.nextIndex in s.sink.completed {
      assert T.Genuine(plan, src, s.sink.nextIndex, s.sink.completed[s.sink.nextIndex]);
      BufferedTake(s.sink.completed, plan, |plan|, s.sink.nextIndex);
    }
  }

  lemma WriterBalance(s: T.Stream, plan: seq<Chunk>, src: seq<byte>, e: T.Event)
    requires Layout(plan, |src|) && T.BufferOK(s, plan, src) && Balanced(s, plan) && T.Enabled(s, e, src) && !e.OfPool?
    ensures Balanced(T.Apply(s, e, src), plan)
  {
    hide Drain, T.BufferOK, Layout, T.DriverOK;
    match e
    case WriterEnters => DrainBalance(s, plan, src);
    case WriterWakes => DrainBalance(s, plan, src);
    case WriteSucceeds =>
      var t := s.(out := s.out + s.writer.cd.data, sink := s.sink.(writtenCount := s.sink.writtenCount + 1));
      SameBuffer(s, t, plan, src);
      DrainBalance(t, plan, src);
    case _ =>
  }

  lemma SameBuffer(s: T.Stream, t: T.Stream, plan: seq<Chunk>, src: seq<byte>)
    requires T.BufferOK(s, plan, src)
    requires t == s.(out := t.out, sink := s.sink.(writtenCount := t.sink.writtenCount))
    ensures T.BufferOK(t, plan, src)
  {
  }

  /** A worker about to deliver its own chunk is the first to do so. */
  lemma FirstDelivery(p: Pool, w: nat)
    requires Solo(p) && Ownership(p) && p.hedges == 0 && Stands(p, w, Delivering)
    ensures !p.workers[w].hedge && p.workers[w].i !in p.delivered
  {
    assert Holds(p, w, p.workers[w].i);
  }

  lemma DuplicatesOnlyGrow(p: Pool, plan: seq<Chunk>, e: Event)
    requires ValidPlan(plan) && Settled(p, plan) && Order(p, plan) && Enabled(p, e)
    ensures p.hedges <= Apply(p, e).hedges
  {
    if IsAmbient(e) {
      AmbientUntouched(p, e);
    } else {
      CallMoves(p, plan, e);
    }
  }

  lemma ReserveBalance(s: T.Stream, t: T.Stream, plan: seq<Chunk>, length: nat)
    requires Balanced(s, plan) && s.pool.hedges == 0
    requires t == s.(pool := t.pool, sink := Reserve(s.sink, length).0, gross := t.gross)
    requires HeldBytes(t.pool.workers, plan) ==
             HeldBytes(s.pool.workers, plan) + if Reserve(s.sink, length).1 then length else 0
    ensures Balanced(t, plan)
  {
  }

  lemma LossBalance(s: T.Stream, t: T.Stream, plan: seq<Chunk>, length: nat)
    requires Balanced(s, plan) && s.pool.hedges == 0
    requires t == s.(pool := t.pool, lost := s.lost + length, glance := t.glance)
    requires HeldBytes(t.pool.workers, plan) == HeldBytes(s.pool.workers, plan) - length
    ensures Balanced(t, plan)
  {
  }

  lemma SubmitBalance(s: T.Stream, t: T.Stream, plan: seq<Chunk>, c: Chunk, data: seq<byte>)
    requires Balanced(s, plan) && s.pool.hedges == 0
    requires c.index < |plan| && c.length == plan[c.index].length && c.index !in s.sink.completed
    requires t == s.(pool := t.pool, sink := Submit(s.sink, c, data).0, lost := s.lost + if Submit(s.sink, c, data).1 then 0 else c.length)
    requires HeldBytes(t.pool.workers, plan) == HeldBytes(s.pool.workers, plan) - c.length
    ensures Balanced(t, plan)
  {
    if Submit(s.sink, c, data).1 {
      BufferedAdd(s.sink.completed, plan, |plan|, c.index, ChunkData(c, data));
    }
  }

  lemma ReserveCase(s: T.Stream, t: T.Stream, plan: seq<Chunk>, src: seq<byte>, w: nat, ok: bool)
    requires Inv(s.pool, plan) && Balanced(s, plan) && s.pool.hedges == 0
    requires T.Enabled(s, T.OfPool(CallReserve(w, ok)), src) && t == T.PoolStep(s, CallReserve(w, ok), src)
    requires HeldBytes(t.pool.workers, plan) == HeldBytes(s.pool.workers, plan) + PartChange(s.pool, plan, CallReserve(w, ok))
    ensures Balanced(t, plan)
  {
    SizesMatch(s, plan);
    hide Inv, Apply, Balanced, T.BufferOK, Solo, Reserve, Submit;
    ReserveBalance(s, t, plan, T.ChunkAt(s, w, src).length);
  }

  lemma OpenCase(s: T.Stream, t: T.Stream, plan: seq<Chunk>, src: seq<byte>, w: nat, ok: bool)
    requires Inv(s.pool, plan) && Balanced(s, plan) && s.pool.hedges == 0
    requires T.Enabled(s, T.OfPool(CallOpenRange(w, ok)), src) && t == T.PoolStep(s, CallOpenRange(w, ok), src)
    requires HeldBytes(t.pool.workers, plan) == HeldBytes(s.pool.workers, plan) + PartChange(s.pool, plan, CallOpenRange(w, ok))
    ensures Balanced(t, plan)
  {
    SizesMatch(s, plan);
    hide Inv, Apply, Balanced, T.BufferOK, Solo, Reserve, Submit;
    LossBalance(s, t, plan, 0 - PartChange(s.pool, plan, CallOpenRange(w, ok)));
  }

  lemma ReadCase(s: T.Stream, t: T.Stream, plan: seq<Chunk>, src: seq<byte>, w: nat, ok: bool)
    requires Inv(s.pool, plan) && Balanced(s, plan) && s.pool.hedges == 0
    requires T.Enabled(s, T.OfPool(CallReadFull(w, ok)), src) && t == T.PoolStep(s, CallReadFull(w, ok), src)
    requires HeldBytes(t.pool.workers, plan) == HeldBytes(s.pool.workers, plan) + PartChange(s.pool, plan, CallReadFull(w, ok))
    ensures Balanced(t, plan)
  {
    SizesMatch(s, plan);
    hide Inv, Apply, Balanced, T.BufferOK, Solo, Reserve, Submit;
    LossBalance(s, t, plan, 0 - PartChange(s.pool, plan, CallReadFull(w, ok)));
  }

  lemma DeliverCase(s: T.Stream, t: T.Stream, plan: seq<Chunk>, src: seq<byte>, w: nat, ok: bool)
    requires Layout(plan, |src|) && Inv(s.pool, plan) && Balanced(s, plan) && s.pool.hedges == 0
    requires Solo(s.pool) && T.BufferOK(s, plan, src)
    requires T.Enabled(s, T.OfPool(CallDeliver(w, ok)), src) && t == T.PoolStep(s, CallDeliver(w, ok), src)
    requires HeldBytes(t.pool.workers, plan) == HeldBytes(s.pool.workers, plan) + PartChange(s.pool, plan, CallDeliver(w, ok))
    ensures Balanced(t, plan)
  {
    var c := T.ChunkAt(s, w, src);
    AboutToDeliver(s, plan, src, w, ok);
    hide *;
    T.DeliverSetup(s, plan, src, w, ok);
    Unfold(s.pool, plan);
    FirstDelivery(s.pool, w);
    NotBuffered(s, plan, src, s.pool.workers[w].i);
    SubmitBalance(s, t, plan, c, T.Piece(src, c));
  }

  lemma AboutToDeliver(s: T.Stream, plan: seq<Chunk>, src: seq<byte>, w: nat, ok: bool)
    requires T.Enabled(s, T.OfPool(CallDeliver(w, ok)), src)
    ensures Stands(s.pool, w, Delivering) && PartChange(s.pool, plan, CallDeliver(w, ok)) <= 0
    ensures var t, c := T.PoolStep(s, CallDeliver(w, ok), src), T.ChunkAt(s, w, src);
            !s.pool.workers[w].hedge && s.pool.workers[w].i < |plan| && c.length == plan[s.pool.workers[w].i].length ==>
              && PartChange(s.pool, plan, CallDeliver(w, ok)) == 0 - (c.length as int)
              && t == s.(pool := t.pool, sink := Submit(s.sink, c, T.Piece(src, c)).0,
                         lost := s.lost + if Submit(s.sink, c, T.Piece(src, c)).1 then 0 else c.length)
  {
    hide Apply, Submit;
  }

  lemma OtherCase(s: T.Stream, t: T.Stream, plan: seq<Chunk>, src: seq<byte>, pe: Event)
    requires Balanced(s, plan) && s.pool.hedges == 0
    requires !(pe.CallReserve? || pe.CallOpenRange? || pe.CallReadFull? || pe.CallDeliver?)
    requires T.Enabled(s, T.OfPool(pe), src) && t == T.PoolStep(s, pe, src)
    requires HeldBytes(t.pool.workers, plan) == HeldBytes(s.pool.workers, plan) + PartChange(s.pool, plan, pe)
    ensures Balanced(t, plan)
  {
    hide Apply, Balanced;
    LossBalance(s, t, plan, 0);
  }

  lemma PoolBalance(s: T.Stream, plan: seq<Chunk>, src: seq<byte>, pe: Event)
    requires Layout(plan, |src|) && ValidPlan(plan) && Inv(s.pool, plan) && s.pool.sched.cfg.streamMode
    requires Solo(s.pool) && T.BufferOK(s, plan, src) && Balanced(s, plan) && T.Enabled(s, T.OfPool(pe), src)
    ensures Balanced(T.PoolStep(s, pe, src), plan)
  {
    var t := T.PoolStep(s, pe, src);
    LimitOf(s, plan);
    PoolPart(s, pe, src);
    Unfold(s.pool, plan);
    hide *;
    HeldChanges(s.pool, plan, pe);
    DuplicatesOnlyGrow(s.pool, plan, pe);
    if s.pool.hedges > 0 {
      Unclaimed(s, t, plan);
    } else {
      match pe
      case CallReserve(w, ok) => ReserveCase(s, t, plan, src, w, ok);
      case CallOpenRange(w, ok) => OpenCase(s, t, plan, src, w, ok);
      case CallReadFull(w, ok) => ReadCase(s, t, plan, src, w, ok);
      case CallDeliver(w, ok) => DeliverCase(s, t, plan, src, w, ok);
      case _ => OtherCase(s, t, plan, src, pe);
    }
  }

  lemma PoolPart(s: T.Stream, pe: Event, src: seq<byte>)
    requires T.Enabled(s, T.OfPool(pe), src)
    ensures Enabled(s.pool, pe) && T.PoolStep(s, pe, src).pool == Apply(s.pool, pe)
    ensures WithinLimit(s.sink) ==> WithinLimit(T.PoolStep(s, pe, src).sink)
  {
    hide Apply;
  }

  /** Reserve refuses what would not fit, duplicates or not. */
  predicate WithinLimit(sink: Sink) { sink.reserved <= sink.bufferSize }

  lemma LimitOf(s: T.Stream, plan: seq<Chunk>)
    requires Balanced(s, plan)
    ensures WithinLimit(s.sink)
  {
  }

  lemma Unfold(p: Pool, plan: seq<Chunk>)
    requires Inv(p, plan)
    ensures Settled(p, plan) && Order(p, plan) && Ownership(p)
  {
  }

  lemma Unclaimed(s: T.Stream, t: T.Stream, plan: seq<Chunk>)
    requires 0 < s.pool.hedges <= t.pool.hedges && WithinLimit(t.sink)
    ensures Balanced(t, plan)
  {
  }

  lemma NotBuffered(s: T.Stream, plan: seq<Chunk>, src: seq<byte>, i: nat)
    requires T.BufferOK(s, plan, src) && i !in s.pool.delivered
    ensures i !in s.sink.completed
  {
  }

  lemma SizesMatch(s: T.Stream, plan: seq<Chunk>)
    requires Shape(s.pool, plan)
    ensures |s.pool.sched.chunks| == |plan|
    ensures forall i :: 0 <= i < |plan| ==> s.pool.sched.chunks[i].length == plan[i].length && s.pool.sched.chunks[i].index == plan[i].index
  {
  }

  // ----- main results

  ghost predicate MInv(s: T.Stream, plan: seq<Chunk>, src: seq<byte>)
    requires Layout(plan, |src|)
  {
    && Inv(s.pool, plan) && T.SinkInv(s, plan, src) && s.pool.sched.cfg.streamMode && s.pool.sched.cfg.maxTries >= 1
    && Solo(s.pool) && Budget(s.pool) && Balanced(s, plan)
  }

  lemma StepKeepsMemory(s: T.Stream, plan: seq<Chunk>, src: seq<byte>, e: T.Event)
    requires Layout(plan, |src|) && ValidPlan(plan) && MInv(s, plan, src) && T.Enabled(s, e, src)
    ensures MInv(T.Apply(s, e, src), plan, src)
  {
    T.StepKeepsSink(s, plan, src, e);
    hide T.Enabled, T.PoolStep, Inv, Solo, Budget, Balanced, Apply, Enabled, ValidPlan;
    match e
    case OfPool(pe) =>
      PoolPart(s, pe, src);
      StepBudget(s.pool, plan, pe);
      PoolBalance(s, plan, src, pe);
    case _ => WriterBalance(s, plan, src, e);
  }

  lemma {:induction false} RunKeepsMemory(s: T.Stream, plan: seq<Chunk>, src: seq<byte>, es: seq<T.Event>)
    requires Layout(plan, |src|) && ValidPlan(plan) && MInv(s, plan, src) && T.Legal(s, es, src)
    ensures MInv(T.Exec(s, es, src), plan, src)
    decreases |es|
  {
    hide MInv, T.Apply, T.Enabled, ValidPlan;
    if es != [] {
      StepKeepsMemory(s, plan, src, es[0]);
      RunKeepsMemory(T.Apply(s, es[0], src), plan, src, es[1..]);
    }
  }

  lemma {:induction false} NoneHeld(workers: seq<Worker>, plan: seq<Chunk>)
    requires forall w :: 0 <= w < |workers| ==> workers[w].pc in {Head, Exited}
    ensures HeldBytes(workers, plan) == 0
  {
    if workers != [] { NoneHeld(workers[1..], plan); }
  }

  lemma InitMemory(cfg: Config, plan: seq<Chunk>, src: seq<byte>, now: nat)
    requires T.ValidSetup(cfg, plan, src)
    ensures MInv(T.Init(cfg, plan, now), plan, src)
  {
    InitInv(cfg, plan, now);
    InitBudget(cfg, plan, now);
    T.InitSinkInv(cfg, plan, src, now);
    NoneHeld(T.Init(cfg, plan, now).pool.workers, plan);
    NothingBuffered(plan, |plan|);
  }

  /** Reservation conservation. In every reachable state, `reserved` is what was ever reserved less the chunks the
      writer has taken, and at most bufferSize. As long as no duplicate was started it is also, exactly, the bytes in
      workers' hands plus the buffered bytes plus the reservations of failed attempts; so payload never exceeds the
      limit, except by the one chunk in the writer's hands, which is no longer counted. */
  lemma ReservationLaw(cfg: Config, plan: seq<Chunk>, src: seq<byte>, now: nat, es: seq<T.Event>)
    requires T.ValidSetup(cfg, plan, src) && T.Legal(T.Init(cfg, plan, now), es, src)
    ensures Accounted(T.Exec(T.Init(cfg, plan, now), es, src), cfg, plan, src)
  {
    var s := T.Exec(T.Init(cfg, plan, now), es, src);
    InitMemory(cfg, plan, src, now);
    hide T.Apply, T.Enabled, MInv, Accounted;
    RunKeepsMemory(T.Init(cfg, plan, now), plan, src, es);
    T.Reachable(cfg, plan, src, now, es);
    MemoryAccounted(s, cfg, plan, src);
  }

  /** When a reservation is granted, as long as no duplicate was started: exactly when the chunk fits beside the bytes in
      workers' hands, the buffered bytes and the reservations lost to failed attempts. */
  lemma GrantedExactly(cfg: Config, plan: seq<Chunk>, src: seq<byte>, now: nat, es: seq<T.Event>, w: nat, ok: bool)
    requires T.ValidSetup(cfg, plan, src) && T.Legal(T.Init(cfg, plan, now), es, src)
    requires var s := T.Exec(T.Init(cfg, plan, now), es, src);
             s.pool.hedges == 0 && T.Enabled(s, T.OfPool(CallReserve(w, ok)), src)
    ensures var s := T.Exec(T.Init(cfg, plan, now), es, src);
            && w < |s.pool.workers| && s.pool.workers[w].i < |plan|
            && var held, buffered := HeldBytes(s.pool.workers, plan), BufferedBytes(s.sink.completed, plan, |plan|);
            ok <==> held + buffered + s.lost + plan[s.pool.workers[w].i].length <= cfg.bufferSize
  {
    var s := T.Exec(T.Init(cfg, plan, now), es, src);
    hide T.Exec, T.Legal, T.Init, Inv, T.SinkInv, HeldBytes, BufferedBytes, Boundary, Layout;
    ReservationLaw(cfg, plan, src, now, es);
    T.Reachable(cfg, plan, src, now, es);
    SinkLedger(s, plan, src);
    PlannedLength(s.pool, plan);
  }

  lemma PlannedLength(p: Pool, plan: seq<Chunk>)
    requires Inv(p, plan)
    ensures |p.sched.chunks| == |plan| && forall i :: 0 <= i < |plan| ==> p.sched.chunks[i].length == plan[i].length
  {
  }

  ghost predicate Accounted(s: T.Stream, cfg: Config, plan: seq<Chunk>, src: seq<byte>)
    requires Layout(plan, |src|)
  {
    var held, buffered := HeldBytes(s.pool.workers, plan), BufferedBytes(s.sink.completed, plan, |plan|);
    && s.sink.nextIndex <= |plan|
    && s.sink.reserved == s.gross - Boundary(plan, |src|, s.sink.nextIndex)
    && (s.pool.hedges == 0 ==>
          && s.sink.reserved == held + buffered + s.lost
          && 0 <= s.sink.reserved
          && held + buffered <= cfg.bufferSize)
    && s.sink.reserved <= cfg.bufferSize
    && (s.writer.Writing? ==> 0 < s.sink.nextIndex && |s.writer.cd.data| == plan[s.sink.nextIndex - 1].length)
    && (s.pool.hedges == 0 && s.result == Some(true) ==> s.sink.reserved == s.lost)
  }

  /** After a successful return no worker holds anything and nothing is buffered. */
  lemma NothingLeft(s: T.Stream, plan: seq<Chunk>, src: seq<byte>)
    requires Layout(plan, |src|) && Collected(s.pool) && T.SinkInv(s, plan, src) && s.result == Some(true)
    ensures HeldBytes(s.pool.workers, plan) == 0 && BufferedBytes(s.sink.completed, plan, |plan|) == 0
  {
    NoneHeld(s.pool.workers, plan);
    NothingBuffered(plan, |plan|);
  }

  lemma SinkLedger(s: T.Stream, plan: seq<Chunk>, src: seq<byte>)
    requires Layout(plan, |src|) && T.SinkInv(s, plan, src)
    ensures s.sink.nextIndex <= |plan| && s.sink.reserved == s.gross - Boundary(plan, |src|, s.sink.nextIndex)
    ensures s.sink.bufferSize == s.pool.sched.cfg.bufferSize
    ensures s.writer.Writing? ==> 0 < s.sink.nextIndex && |s.writer.cd.data| == plan[s.sink.nextIndex - 1].length
  {
  }

  lemma MemoryAccounted(s: T.Stream, cfg: Config, plan: seq<Chunk>, src: seq<byte>)
    requires Layout(plan, |src|) && MInv(s, plan, src) && s.pool.sched.cfg == cfg
    ensures Accounted(s, cfg, plan, src)
  {
    if s.result == Some(true) { NothingLeft(s, plan, src); }
    SinkLedger(s, plan, src);
    hide Inv, Solo, Budget, T.SinkInv, HeldBytes, BufferedBytes, Boundary, Layout;
  }
}
