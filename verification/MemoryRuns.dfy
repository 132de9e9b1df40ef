/** Runs of a download to a stream that hold more than the buffer size: the buffer is filled and the writer takes a chunk,
    or every worker but one holds a duplicate of the frontier chunk. */
module MemoryRuns {
  import opened Chunks
  import opened Scheduling
  import opened WorkerPool
  import opened Streaming
  import opened StreamMemory
  import opened StreamRuns
  import opened Frontier
  import opened DuplicateRace
  import T = StreamTransfer

  /** The chunk in the writer's hands. */
  function BeingWritten(s: T.Stream): nat {
    if s.writer.Writing? then |s.writer.cd.data| else 0
  }

  /** All payload in memory: reserved and not yet submitted, held for a duplicate, buffered, or being written. */
  function Payload(s: T.Stream, plan: seq<Chunk>): nat {
    HeldBytes(s.pool.workers, plan) + CopyBytes(s.pool.workers, plan)
    + BufferedBytes(s.sink.completed, plan, |plan|) + BeingWritten(s)
  }

  // ----- worker 0 fills the buffer

  /** The first k chunks are complete and buffered, and the writer has not looked yet. */
  ghost predicate Filled(s: T.Stream, cfg: Config, plan: seq<Chunk>, src: seq<byte>, k: nat)
    requires k <= |plan|
  {
    && Smooth(s, cfg, plan) && AtHead(s.pool, 0)
    && s.pool.sched.nextUndispatched == k && s.pool.sched.completedCount == k && s.pool.sched.activeCount == 0
    && |s.pool.sched.recent| <= DURATION_WINDOW
    && s.sink.reserved == Boundary(plan, |src|, k) && s.sink.nextIndex == 0 && s.writer.Entering?
    && (forall i :: 0 <= i < k ==> s.pool.sched.chunks[i].state == Completed && i in s.sink.completed)
    && (k > 0 ==> s.sink.completed[0].chunk.length == plan[0].length == |s.sink.completed[0].data|)
  }

  lemma StartFilled(cfg: Config, plan: seq<Chunk>, src: seq<byte>, now: nat)
    requires T.ValidSetup(cfg, plan, src) && forall i :: 0 <= i < |plan| ==> !plan[i].hedged
    ensures Filled(T.Init(cfg, plan, now), cfg, plan, src, 0) && T.Init(cfg, plan, now).pool.hedges == 0
  {
    assert InState(plan, Completed) == {};
  }

  lemma FilledParts(s: T.Stream, cfg: Config, plan: seq<Chunk>, src: seq<byte>, k: nat)
    requires k < |plan| && Filled(s, cfg, plan, src, k)
    ensures Smooth(s, cfg, plan) && AtHead(s.pool, 0) && NotOffered(s)
    ensures s.pool.sched.nextUndispatched == k && s.pool.sched.completedCount == k
    ensures s.pool.sched.activeCount < s.pool.sched.effectiveTarget && |s.pool.sched.recent| <= DURATION_WINDOW
    ensures s.sink.reserved == Boundary(plan, |src|, k) && s.sink.bufferSize == cfg.bufferSize
  {
  }

  lemma FilledMore(s: T.Stream, u: T.Stream, cfg: Config, plan: seq<Chunk>, src: seq<byte>, k: nat)
    requires Layout(plan, |src|) && k < |plan| && Filled(s, cfg, plan, src, k)
    requires Transferred(s, u, 0, k) && Smooth(u, cfg, plan)
    ensures Filled(u, cfg, plan, src, k + 1)
  {
    BoundaryStep(plan, |src|, k);
    hide Layout;
  }

  /** The other workers stay where they are. */
  ghost predicate OthersSame(s: T.Stream, t: T.Stream) {
    && |t.pool.workers| == |s.pool.workers| && t.pool.hedges == s.pool.hedges
    && forall v :: 1 <= v < |s.pool.workers| ==> t.pool.workers[v] == s.pool.workers[v]
  }

  lemma {:induction false} Fill(s0: T.Stream, s: T.Stream, cfg: Config, plan: seq<Chunk>, src: seq<byte>, k: nat, m: nat) returns (r: T.Stream)
    requires Layout(plan, |src|) && k <= m <= |plan| && Boundary(plan, |src|, m) <= cfg.bufferSize
    requires Reaches(s0, s, src) && Filled(s, cfg, plan, src, k)
    ensures Reaches(s0, r, src) && Filled(r, cfg, plan, src, m) && OthersSame(s, r)
    decreases m - k
  {
    if k == m {
      r := s;
    } else {
      FilledParts(s, cfg, plan, src, k);
      BoundaryStep(plan, |src|, k);
      BoundariesGrow(plan, |src|, k + 1, m);
      hide Filled, Reaches, Layout, Smooth, NotOffered;
      var u := TransferNext(s0, s, cfg, plan, src, 0);
      FilledMore(s, u, cfg, plan, src, k);
      r := Fill(s0, u, cfg, plan, src, k + 1, m);
    }
  }

  // ----- the writer makes room

  /** The writer has taken chunk 0, and the first chunk that did not fit has been reserved. */
  ghost predicate Overfull(s: T.Stream, plan: seq<Chunk>, src: seq<byte>, m: nat)
    requires m < |plan|
  {
    && s.pool.hedges == 0 && s.lost == 0
    && s.writer.Writing? && |s.writer.cd.data| == plan[0].length
    && s.sink.reserved == Boundary(plan, |src|, m + 1) - plan[0].length
  }

  lemma TakenParts(s: T.Stream, cfg: Config, plan: seq<Chunk>, src: seq<byte>, m: nat)
    requires 0 < m < |plan| && Filled(s, cfg, plan, src, m)
    ensures s.writer.Entering? && !s.sink.fatal && s.sink.nextIndex == 0 && 0 in s.sink.completed
    ensures var t := Taken(s);
            && Smooth(t, cfg, plan) && AtHead(t.pool, 0) && t.pool.hedges == s.pool.hedges
            && t.pool.sched.nextUndispatched == m && t.pool.sched.completedCount == m
            && t.pool.sched.activeCount < t.pool.sched.effectiveTarget
            && t.sink.reserved == Boundary(plan, |src|, m) - plan[0].length && t.sink.bufferSize == cfg.bufferSize
            && t.writer.Writing? && |t.writer.cd.data| == plan[0].length
  {
  }

  lemma TakenNotOffered(s: T.Stream, cfg: Config, plan: seq<Chunk>, src: seq<byte>, m: nat)
    requires 0 < m < |plan| && Filled(s, cfg, plan, src, m)
    ensures 0 in s.sink.completed && s.sink.nextIndex == 0 && NotOffered(Taken(s))
  {
  }

  lemma Overfill(s0: T.Stream, s: T.Stream, cfg: Config, plan: seq<Chunk>, src: seq<byte>, m: nat) returns (r: T.Stream)
    requires Layout(plan, |src|) && 0 < m < |plan| && Reaches(s0, s, src) && Filled(s, cfg, plan, src, m) && s.pool.hedges == 0
    requires Boundary(plan, |src|, m) <= cfg.bufferSize && plan[m].length <= plan[0].length
    ensures Reaches(s0, r, src) && Overfull(r, plan, src, m)
  {
    TakenParts(s, cfg, plan, src, m);
    TakenNotOffered(s, cfg, plan, src, m);
    BoundaryStep(plan, |src|, m);
    var a := Taken(s);
    DoTake(s0, s, src);
    hide Filled, Reaches, NotOffered;
    var b := Get(s0, a, cfg, plan, src, 0);
    GotCarries(a, b, cfg, plan, src, 0);
    assert T.HasPiece(b, 0, src) && T.ChunkAt(b, 0, src).length == plan[m].length && b.lost == 0;
    DoReserve(s0, b, src, 0);
    r := b.(pool := ReserveStep(b.pool, 0, true),
            sink := b.sink.(reserved := b.sink.reserved + plan[m].length), gross := b.gross + plan[m].length);
  }

  // ----- everybody holds a copy

  lemma CarriedFilled(s: T.Stream, e: nat, t: T.Stream, u: T.Stream, cfg: Config, plan: seq<Chunk>, src: seq<byte>, j: nat)
    requires Layout(plan, |src|) && |plan| >= 5 && HeldUp(s, cfg, plan, src, 0, 4) && Passed(Later(s, e), t, 0, j)
    requires Carrying(t, cfg, plan, src, 0, 0) && Done(t, u, src, 0, 0) && Smooth(u, cfg, plan)
    ensures Filled(u, cfg, plan, src, 5) && OthersSame(t, u)
  {
    BoundaryStep(plan, |src|, 0);
    hide Layout;
  }

  /** Nothing is active any more; a start does not look at that. */
  lemma FilledPoised(t: T.Stream, r: T.Stream, cfg: Config, plan: seq<Chunk>, src: seq<byte>, j: nat)
    requires Filled(r, cfg, plan, src, |plan|) && OthersSame(t, r) && plan != [] && plan[0].start + plan[0].length <= |src|
    requires 1 <= r.pool.sched.effectiveTarget <= cfg.connections && j < |t.pool.workers|
    requires forall v :: 1 <= v <= j ==> t.pool.workers[v].pc == Start && t.pool.workers[v].i == 0
    ensures Poised(r, src, 0, 0, j)
  {
    assert forall i :: 0 <= i < |plan| ==> r.pool.sched.chunks[i].state == Completed;
  }

  lemma {:induction false} AllBuffered(completed: map<nat, ChunkData>, plan: seq<Chunk>, size: nat, k: nat)
    requires Layout(plan, size) && k <= |plan| && forall i: nat :: i < k ==> i in completed
    ensures BufferedBytes(completed, plan, k) == Boundary(plan, size, k)
  {
    if k > 0 {
      AllBuffered(completed, plan, size, k - 1);
      BoundaryStep(plan, size, k - 1);
    }
  }

  lemma {:induction false} AllCopies(workers: seq<Worker>, plan: seq<Chunk>, length: nat)
    requires forall v :: 0 <= v < |workers| ==> CopyPart(workers[v], plan) == length
    ensures CopyBytes(workers, plan) == |workers| * length
  {
    if workers != [] {
      AllCopies(workers[1..], plan, length);
      assert |workers| * length == length + (|workers| - 1) * length;
    }
  }

  lemma CopiesHeld(s: T.Stream, r: T.Stream, cfg: Config, plan: seq<Chunk>, src: seq<byte>, j: nat)
    requires Layout(plan, |src|) && plan != [] && Filled(s, cfg, plan, src, |plan|) && Begun(s, r, 0, j)
    requires Poised(s, src, 0, 0, j) && j == |s.pool.workers| - 1
    ensures Payload(r, plan) >= |src| + j * plan[0].length
  {
    AllBuffered(r.sink.completed, plan, |src|, |plan|);
    AllCopies(r.pool.workers[1..], plan, plan[0].length);
  }

  /** All chunks are complete and buffered, and all workers but worker 0 are about to duplicate the first one. */
  lemma CopiesPoised(cfg: Config, plan: seq<Chunk>, src: seq<byte>, now: nat, j: nat) returns (v: T.Stream)
    requires T.ValidSetup(cfg, plan, src) && (forall i :: 0 <= i < |plan| ==> !plan[i].hedged && plan[i].length <= cfg.splitSize)
    requires j < cfg.connections && cfg.connections >= 2 && |plan| >= 5
    requires cfg.bufferSize >= 2 * cfg.splitSize && |src| <= cfg.bufferSize
    ensures Reaches(T.Init(cfg, plan, now), v, src) && Filled(v, cfg, plan, src, |plan|) && Poised(v, src, 0, 0, j)
    ensures |v.pool.workers| == cfg.connections
  {
    var s0 := T.Init(cfg, plan, now);
    BoundariesGrow(plan, |src|, 5, |plan|);
    BoundaryStep(plan, |src|, 0);
    hide *;
    var s, e, t := Poise(cfg, plan, src, now, 0, 4, j);
    PoisedSink(s, e, t, cfg, plan, src, j);
    var u := Carry(s0, t, cfg, plan, src, 0, 0);
    CarriedFilled(s, e, t, u, cfg, plan, src, j);
    v := Fill(s0, u, cfg, plan, src, 5, |plan|);
    OthersSameTwice(t, u, v);
    TargetOf(cfg, plan, src, now, v);
    FilledPoised(t, v, cfg, plan, src, j);
  }

  /** With n connections, some run holds the whole object and n - 1 copies of its first chunk. */
  lemma ManyCopies(cfg: Config, plan: seq<Chunk>, src: seq<byte>, now: nat) returns (r: T.Stream)
    requires T.ValidSetup(cfg, plan, src) && (forall i :: 0 <= i < |plan| ==> !plan[i].hedged && plan[i].length <= cfg.splitSize)
    requires cfg.connections >= 2 && |plan| >= 5 && cfg.bufferSize >= 2 * cfg.splitSize && |src| <= cfg.bufferSize
    ensures Reaches(T.Init(cfg, plan, now), r, src)
    ensures Payload(r, plan) >= |src| + (cfg.connections - 1) * plan[0].length
  {
    var j := cfg.connections - 1;
    assert Layout(plan, |src|) && ValidConfig(cfg);
    hide *;
    var v := CopiesPoised(cfg, plan, src, now, j);
    r := AllStart(T.Init(cfg, plan, now), v, src, 0, 0, j);
    CopiesHeld(v, r, cfg, plan, src, j);
  }

  lemma PoisedSink(s: T.Stream, e: nat, t: T.Stream, cfg: Config, plan: seq<Chunk>, src: seq<byte>, j: nat)
    requires |plan| >= 5 && HeldUp(s, cfg, plan, src, 0, 4) && Passed(Later(s, e), t, 0, j)
    ensures t.sink.reserved == Boundary(plan, |src|, 5) - Boundary(plan, |src|, 1) && t.sink.bufferSize == cfg.bufferSize
    ensures |t.pool.workers| == cfg.connections
    ensures forall v :: 1 <= v <= j ==> t.pool.workers[v].pc == Start && t.pool.workers[v].i == 0
  {
  }

  lemma OthersSameTwice(t: T.Stream, u: T.Stream, v: T.Stream)
    requires OthersSame(t, u) && OthersSame(u, v)
    ensures OthersSame(t, v) && |v.pool.workers| == |t.pool.workers|
  {
  }

  lemma TargetOf(cfg: Config, plan: seq<Chunk>, src: seq<byte>, now: nat, t: T.Stream)
    requires T.ValidSetup(cfg, plan, src) && Reaches(T.Init(cfg, plan, now), t, src)
    ensures 1 <= t.pool.sched.effectiveTarget <= cfg.connections
  {
    var es :| T.Legal(T.Init(cfg, plan, now), es, src) && T.Exec(T.Init(cfg, plan, now), es, src) == t;
    T.Reachable(cfg, plan, src, now, es);
  }
}
