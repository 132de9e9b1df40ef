/** The documented memory limit (section 11.1 of ARCHITECTURE.md): chunk payload in memory, the chunk being written and
    the buffers of duplicates included, within the buffer size. When does a download to a stream keep it? */
module MemoryLimit {
  import opened Chunks
  import opened Scheduling
  import opened WorkerPool
  import opened PoolInvariants
  import opened PoolBudget
  import opened Streaming
  import opened StreamMemory
  import opened StreamFinish
  import opened StreamRuns
  import opened DuplicateLimit
  import opened MemoryRuns
  import T = StreamTransfer

  /** The documented limit, over all runs. */
  ghost predicate WithinBuffer(cfg: Config, plan: seq<Chunk>, src: seq<byte>, now: nat)
    requires ValidConfig(cfg)
  {
    forall es :: T.Legal(T.Init(cfg, plan, now), es, src) ==>
      Payload(T.Exec(T.Init(cfg, plan, now), es, src), plan) <= cfg.bufferSize
  }

  // ----- the parts of the payload are different chunks

  lemma {:induction false} BufferedInObject(completed: map<nat, ChunkData>, plan: seq<Chunk>, size: nat, k: nat)
    requires Layout(plan, size) && k <= |plan|
    ensures BufferedBytes(completed, plan, k) <= Boundary(plan, size, k)
  {
    if k > 0 {
      BufferedInObject(completed, plan, size, k - 1);
      BoundaryStep(plan, size, k - 1);
    }
  }

  /** Workers from k on hold different chunks, none of them among `taken`. */
  ghost predicate Apart(workers: seq<Worker>, plan: seq<Chunk>, taken: map<nat, ChunkData>) {
    && (forall w :: 0 <= w < |workers| && Part(workers[w], plan) > 0 ==> workers[w].i !in taken)
    && (forall w, v :: 0 <= w < v < |workers| && Part(workers[w], plan) > 0 && Part(workers[v], plan) > 0 ==>
          workers[w].i != workers[v].i)
  }

  lemma {:induction false} HeldInObject(workers: seq<Worker>, plan: seq<Chunk>, size: nat, taken: map<nat, ChunkData>, cd: ChunkData)
    requires Layout(plan, size) && Apart(workers, plan, taken)
    ensures HeldBytes(workers, plan) + BufferedBytes(taken, plan, |plan|) <= size
    decreases |workers|
  {
    if workers == [] {
      BufferedInObject(taken, plan, size, |plan|);
    } else {
      var v := workers[0];
      var rest := workers[1..];
      assert forall w :: 0 <= w < |rest| ==> rest[w] == workers[w + 1];
      if Part(v, plan) > 0 {
        BufferedAdd(taken, plan, |plan|, v.i, cd);
        HeldInObject(rest, plan, size, taken[v.i := cd], cd);
      } else {
        HeldInObject(rest, plan, size, taken, cd);
      }
    }
  }

  /** Without duplicates a chunk under way has not been delivered. */
  lemma UnderWay(p: Pool, w: nat, plan: seq<Chunk>)
    requires Solo(p) && Ownership(p) && p.hedges == 0 && w < |p.workers| && Part(p.workers[w], plan) > 0
    ensures Holds(p, w, p.workers[w].i) && p.workers[w].i !in p.delivered
  {
    assert Holds(p, w, p.workers[w].i);
  }

  lemma PartsApart(s: T.Stream, plan: seq<Chunk>, src: seq<byte>, taken: map<nat, ChunkData>)
    requires Solo(s.pool) && Ownership(s.pool) && s.pool.hedges == 0
    requires forall i :: i in taken ==> i in s.pool.delivered
    ensures Apart(s.pool.workers, plan, taken)
  {
    forall w | 0 <= w < |s.pool.workers| && Part(s.pool.workers[w], plan) > 0 ensures s.pool.workers[w].i !in taken {
      UnderWay(s.pool, w, plan);
    }
    forall w, v | 0 <= w < v < |s.pool.workers| && Part(s.pool.workers[w], plan) > 0 && Part(s.pool.workers[v], plan) > 0
      ensures s.pool.workers[w].i != s.pool.workers[v].i
    {
      UnderWay(s.pool, w, plan);
      UnderWay(s.pool, v, plan);
    }
  }

  /** Without duplicates nobody holds a copy. */
  lemma {:induction false} NoCopies(workers: seq<Worker>, plan: seq<Chunk>)
    requires forall w :: 0 <= w < |workers| ==> !workers[w].hedge
    ensures CopyBytes(workers, plan) == 0
  {
    if workers != [] { NoCopies(workers[1..], plan); }
  }

  /** The payload is then never more than the object. */
  lemma PayloadInObject(s: T.Stream, plan: seq<Chunk>, src: seq<byte>)
    requires Layout(plan, |src|) && T.BufferOK(s, plan, src) && Solo(s.pool) && Ownership(s.pool) && NoStale(s.sink)
    requires s.pool.hedges == 0
    requires s.writer.Writing? ==> 0 < s.sink.nextIndex && |s.writer.cd.data| == plan[s.sink.nextIndex - 1].length
    ensures Payload(s, plan) <= |src|
  {
    var cd := ChunkData(Chunk(0, 0, 0, Pending, 0, 0, 0, 0, false), []);
    var taken := s.sink.completed;
    if s.writer.Writing? {
      var k := s.sink.nextIndex - 1;
      BufferedAdd(s.sink.completed, plan, |plan|, k, cd);
      taken := taken[k := cd];
    }
    PartsApart(s, plan, src, taken);
    NoCopies(s.pool.workers, plan);
    hide T.BufferOK, Solo, Ownership;
    HeldInObject(s.pool.workers, plan, |src|, taken, cd);
  }

  // ----- a first chunk that does not fit

  lemma FirstNotBuffered(s: T.Stream, plan: seq<Chunk>)
    requires Balanced(s, plan) && s.pool.hedges == 0 && plan != [] && s.sink.bufferSize < plan[0].length
    ensures 0 !in s.sink.completed
  {
    if 0 in s.sink.completed { BufferedAtLeast(s.sink.completed, plan, |plan|, 0); }
  }

  lemma NothingTaken(s: T.Stream, e: T.Event, src: seq<byte>)
    requires T.Enabled(s, e, src) && !e.OfPool? && s.sink.nextIndex == 0 && 0 !in s.sink.completed
    ensures T.Apply(s, e, src).sink.nextIndex == 0
  {
  }

  /** Without duplicates the writer never takes anything. */
  lemma {:induction false} NeverTaken(s: T.Stream, plan: seq<Chunk>, src: seq<byte>, es: seq<T.Event>)
    requires Layout(plan, |src|) && ValidPlan(plan) && MInv(s, plan, src) && T.Legal(s, es, src)
    requires plan != [] && s.sink.bufferSize < plan[0].length
    requires s.pool.hedges == 0 ==> s.sink.nextIndex == 0
    ensures T.Exec(s, es, src).pool.hedges == 0 ==> T.Exec(s, es, src).sink.nextIndex == 0
    decreases |es|
  {
    if es != [] {
      StepKeepsMemory(s, plan, src, es[0]);
      NotTakenNow(s, plan, src, es[0]);
      hide T.Apply, T.Enabled, MInv, Layout, ValidPlan;
      NeverTaken(T.Apply(s, es[0], src), plan, src, es[1..]);
    }
  }

  lemma NotTakenNow(s: T.Stream, plan: seq<Chunk>, src: seq<byte>, e: T.Event)
    requires Layout(plan, |src|) && ValidPlan(plan) && MInv(s, plan, src) && T.Enabled(s, e, src)
    requires plan != [] && s.sink.bufferSize < plan[0].length
    requires s.pool.hedges == 0 ==> s.sink.nextIndex == 0
    ensures var t := T.Apply(s, e, src);
            t.sink.bufferSize == s.sink.bufferSize && (t.pool.hedges == 0 ==> t.sink.nextIndex == 0)
  {
    SameLimit(s, e, src);
    if T.Apply(s, e, src).pool.hedges == 0 {
      match e
      case OfPool(pe) =>
        PoolPart(s, pe, src);
        Unfold(s.pool, plan);
        DuplicatesOnlyGrow(s.pool, plan, pe);
        BufferStep(s, pe, src);
      case _ =>
        FirstNotBuffered(s, plan);
        hide MInv;
        NothingTaken(s, e, src);
    }
  }

  // ----- whatever happens

  lemma {:induction false} PerWorker(workers: seq<Worker>, plan: seq<Chunk>, splitSize: nat)
    requires forall i :: 0 <= i < |plan| ==> plan[i].length <= splitSize
    ensures HeldBytes(workers, plan) + CopyBytes(workers, plan) <= |workers| * splitSize
  {
    if workers != [] {
      PerWorker(workers[1..], plan, splitSize);
      assert |workers| * splitSize == splitSize + (|workers| - 1) * splitSize;
    }
  }

  /** In every reachable state, duplicates or not, the payload is at most the object, one chunk being written and one
      buffer per worker. */
  lemma PayloadBounded(cfg: Config, src: seq<byte>, now: nat, es: seq<T.Event>)
    requires ValidConfig(cfg) && cfg.streamMode && T.Legal(T.Init(cfg, PlanOf(|src|, cfg.splitSize), now), es, src)
    ensures var plan := PlanOf(|src|, cfg.splitSize);
            Payload(T.Exec(T.Init(cfg, plan, now), es, src), plan) <= |src| + (cfg.connections + 1) * cfg.splitSize
  {
    var plan := PlanOf(|src|, cfg.splitSize);
    var s := T.Exec(T.Init(cfg, plan, now), es, src);
    PlanIsLayout(|src|, cfg.splitSize);
    T.Reachable(cfg, plan, src, now, es);
    hide T.Exec, T.Legal, T.Init, PlanOf;
    AtMostAll(s, plan, src, cfg);
  }

  lemma AtMostAll(s: T.Stream, plan: seq<Chunk>, src: seq<byte>, cfg: Config)
    requires Layout(plan, |src|) && T.SinkInv(s, plan, src) && |s.pool.workers| == cfg.connections && cfg.splitSize >= 1
    requires forall i :: 0 <= i < |plan| ==> plan[i].length <= cfg.splitSize
    ensures Payload(s, plan) <= |src| + (cfg.connections + 1) * cfg.splitSize
  {
    SinkLedger(s, plan, src);
    BufferedInObject(s.sink.completed, plan, |src|, |plan|);
    hide T.SinkInv;
    PerWorker(s.pool.workers, plan, cfg.splitSize);
    assert (cfg.connections + 1) * cfg.splitSize == cfg.connections * cfg.splitSize + cfg.splitSize;
  }

  // ----- runs that exceed the limit

  /** How many chunks fit. */
  lemma {:induction false} Fitting(plan: seq<Chunk>, size: nat, limit: nat, k: nat) returns (m: nat)
    requires Layout(plan, size) && k <= |plan| && Boundary(plan, size, k) <= limit < size
    ensures k <= m < |plan| && Boundary(plan, size, m) <= limit < Boundary(plan, size, m + 1)
    decreases |plan| - k
  {
    if limit < Boundary(plan, size, k + 1) { m := k; } else { m := Fitting(plan, size, limit, k + 1); }
  }

  lemma OverfullPayload(s: T.Stream, plan: seq<Chunk>, src: seq<byte>, m: nat)
    requires m < |plan| && Balanced(s, plan) && Overfull(s, plan, src, m)
    ensures Payload(s, plan) >= Boundary(plan, |src|, m + 1)
  {
  }

  /** With room for one chunk but not for the object, some run without duplicates exceeds the limit: the buffer is
      filled, the writer takes the first chunk, and the first one that did not fit is reserved. */
  lemma LimitExceeded(cfg: Config, src: seq<byte>, now: nat) returns (r: T.Stream)
    requires ValidConfig(cfg) && cfg.streamMode && cfg.splitSize <= cfg.bufferSize < |src|
    ensures var plan := PlanOf(|src|, cfg.splitSize);
            Reaches(T.Init(cfg, plan, now), r, src) && r.pool.hedges == 0 && Payload(r, plan) > cfg.bufferSize
  {
    var plan := PlanOf(|src|, cfg.splitSize);
    var s0 := T.Init(cfg, plan, now);
    PlanIsLayout(|src|, cfg.splitSize);
    StartFilled(cfg, plan, src, now);
    ReachSelf(s0, src);
    var m := Fitting(plan, |src|, cfg.bufferSize, 0);
    BoundaryStep(plan, |src|, 0);
    assert 0 < m && plan[m].length <= plan[0].length;
    hide Layout, Filled, Reaches, T.Init, PlanOf, Overfull, Payload;
    var s := Fill(s0, s0, cfg, plan, src, 0, m);
    r := Overfill(s0, s, cfg, plan, src, m);
    OverfullExceeds(cfg, plan, src, now, r, m);
  }

  lemma OverfullExceeds(cfg: Config, plan: seq<Chunk>, src: seq<byte>, now: nat, r: T.Stream, m: nat)
    requires T.ValidSetup(cfg, plan, src) && Reaches(T.Init(cfg, plan, now), r, src)
    requires m < |plan| && cfg.bufferSize < Boundary(plan, |src|, m + 1) && Overfull(r, plan, src, m)
    ensures r.pool.hedges == 0 && Payload(r, plan) > cfg.bufferSize
  {
    var es :| T.Legal(T.Init(cfg, plan, now), es, src) && T.Exec(T.Init(cfg, plan, now), es, src) == r;
    Ended(cfg, plan, src, now, es);
    OverfullPayload(r, plan, src, m);
  }

  /** Where duplicates can be started, a buffer for the object is not enough: some run holds the object and a copy of a
      chunk for every worker but one. */
  lemma CopiesExceed(cfg: Config, src: seq<byte>, now: nat) returns (r: T.Stream)
    requires ValidConfig(cfg) && cfg.streamMode && !NeverStarts(cfg, |src|)
    requires |src| <= cfg.bufferSize < |src| + (cfg.connections - 1) * cfg.splitSize
    ensures var plan := PlanOf(|src|, cfg.splitSize);
            Reaches(T.Init(cfg, plan, now), r, src) && Payload(r, plan) > cfg.bufferSize
  {
    var plan := PlanOf(|src|, cfg.splitSize);
    PlanIsLayout(|src|, cfg.splitSize);
    r := ManyCopies(cfg, plan, src, now);
  }

  lemma Breaks(cfg: Config, plan: seq<Chunk>, src: seq<byte>, now: nat, r: T.Stream)
    requires ValidConfig(cfg) && Reaches(T.Init(cfg, plan, now), r, src) && Payload(r, plan) > cfg.bufferSize
    ensures !WithinBuffer(cfg, plan, src, now)
  {
    hide Payload, T.Init;
  }

  // ----- settings without duplicates

  lemma WholeFits(s: T.Stream, plan: seq<Chunk>, src: seq<byte>)
    requires Layout(plan, |src|) && MInv(s, plan, src) && Tidy(s) && s.pool.hedges == 0
    ensures Payload(s, plan) <= |src|
  {
    Unfold(s.pool, plan);
    SinkLedger(s, plan, src);
    hide Inv, Budget, Balanced;
    PayloadInObject(s, plan, src);
  }

  lemma NothingBeingWritten(s: T.Stream, cfg: Config, plan: seq<Chunk>, src: seq<byte>)
    requires Layout(plan, |src|) && MInv(s, plan, src) && s.pool.hedges == 0 && s.sink.nextIndex == 0
    requires s.pool.sched.cfg == cfg
    ensures Payload(s, plan) <= cfg.bufferSize
  {
    SinkLedger(s, plan, src);
    NoCopies(s.pool.workers, plan);
    hide Inv, Solo, Budget;
  }

  lemma LimitKept(cfg: Config, plan: seq<Chunk>, src: seq<byte>, now: nat, es: seq<T.Event>)
    requires T.ValidSetup(cfg, plan, src) && T.Legal(T.Init(cfg, plan, now), es, src)
    requires T.Exec(T.Init(cfg, plan, now), es, src).pool.hedges == 0
    requires |src| <= cfg.bufferSize || (plan != [] && cfg.bufferSize < plan[0].length)
    ensures Payload(T.Exec(T.Init(cfg, plan, now), es, src), plan) <= cfg.bufferSize
  {
    var s0 := T.Init(cfg, plan, now);
    var s := T.Exec(s0, es, src);
    Ended(cfg, plan, src, now, es);
    if |src| <= cfg.bufferSize {
      WholeFits(s, plan, src);
    } else {
      InitMemory(cfg, plan, src, now);
      NeverTaken(s0, plan, src, es);
      T.Reachable(cfg, plan, src, now, es);
      NothingBeingWritten(s, cfg, plan, src);
    }
  }

  lemma KeptWithoutDuplicates(cfg: Config, src: seq<byte>, now: nat)
    requires ValidConfig(cfg) && cfg.streamMode && NeverStarts(cfg, |src|)
    requires |src| <= cfg.bufferSize || cfg.bufferSize < cfg.splitSize
    ensures WithinBuffer(cfg, PlanOf(|src|, cfg.splitSize), src, now)
  {
    var plan := PlanOf(|src|, cfg.splitSize);
    PlanIsLayout(|src|, cfg.splitSize);
    if |src| > cfg.bufferSize { PlannedChunk(|src|, cfg.splitSize, 0); }
    forall es | T.Legal(T.Init(cfg, plan, now), es, src)
      ensures Payload(T.Exec(T.Init(cfg, plan, now), es, src), plan) <= cfg.bufferSize
    {
      NoneStarted(cfg, src, now, es);
      LimitKept(cfg, plan, src, now, es);
    }
  }

  // ----- the theorem

  /** The memory limit over all runs. It is kept if the settings start no duplicate and the object fits the buffer, or
      not even one chunk does; or if the buffer holds the object, one more chunk and one chunk per connection. It is kept
      only if the settings start no duplicate and the same holds, or the buffer holds the object and one chunk for every
      connection but one. Where no duplicate can be started, the two conditions are the same. */
  lemma MemoryLimitExactly(cfg: Config, src: seq<byte>, now: nat)
    requires ValidConfig(cfg) && cfg.streamMode
    ensures var kept, fits, room := WithinBuffer(cfg, PlanOf(|src|, cfg.splitSize), src, now),
                                    |src| <= cfg.bufferSize || cfg.bufferSize < cfg.splitSize,
                                    cfg.bufferSize - |src|;
            && (NeverStarts(cfg, |src|) ==> (kept <==> fits))
            && (!NeverStarts(cfg, |src|) ==>
                  && (room >= (cfg.connections + 1) * cfg.splitSize ==> kept)
                  && (kept ==> room >= (cfg.connections - 1) * cfg.splitSize))
  {
    var plan := PlanOf(|src|, cfg.splitSize);
    if NeverStarts(cfg, |src|) && (|src| <= cfg.bufferSize || cfg.bufferSize < cfg.splitSize) {
      KeptWithoutDuplicates(cfg, src, now);
    } else if cfg.splitSize <= cfg.bufferSize < |src| {
      var r := LimitExceeded(cfg, src, now);
      Breaks(cfg, plan, src, now, r);
      NoRoom(cfg, |src|);
    } else {
      Room(cfg, src, now);
    }
  }

  lemma NoRoom(cfg: Config, size: nat)
    requires ValidConfig(cfg) && cfg.bufferSize < size
    ensures cfg.bufferSize - size < (cfg.connections - 1) * cfg.splitSize <= (cfg.connections + 1) * cfg.splitSize
  {
    assert (cfg.connections + 1) * cfg.splitSize == (cfg.connections - 1) * cfg.splitSize + 2 * cfg.splitSize;
    assert (cfg.connections - 1) * cfg.splitSize >= 0;
  }

  lemma Room(cfg: Config, src: seq<byte>, now: nat)
    requires ValidConfig(cfg) && cfg.streamMode && !NeverStarts(cfg, |src|) && |src| <= cfg.bufferSize
    ensures var kept, room := WithinBuffer(cfg, PlanOf(|src|, cfg.splitSize), src, now), cfg.bufferSize - |src|;
            && (room >= (cfg.connections + 1) * cfg.splitSize ==> kept)
            && (kept ==> room >= (cfg.connections - 1) * cfg.splitSize)
  {
    var plan := PlanOf(|src|, cfg.splitSize);
    if cfg.bufferSize - |src| >= (cfg.connections + 1) * cfg.splitSize {
      forall es | T.Legal(T.Init(cfg, plan, now), es, src)
        ensures Payload(T.Exec(T.Init(cfg, plan, now), es, src), plan) <= cfg.bufferSize
      {
        PayloadBounded(cfg, src, now, es);
      }
    }
    if cfg.bufferSize < |src| + (cfg.connections - 1) * cfg.splitSize {
      var r := CopiesExceed(cfg, src, now);
      Breaks(cfg, plan, src, now, r);
    }
  }
}
