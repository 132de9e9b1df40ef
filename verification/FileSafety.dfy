/** What a stop at any step leaves on disk: the invariant of downloads to a file and every event that keeps it. */
module FileSafety {
  import opened Basics
  import opened Chunks
  import opened Scheduling
  import opened WorkerPool
  import opened PoolInvariants
  import opened Streaming
  import opened Positional
  import opened Bitmap
  import opened Sidecar
  import G = ResumeGaps
  import opened F = FileTransfer

  // ----- what is safe

  /** The plan of a run: the full plan with some chunks complete. */
  ghost predicate PlanFits(plan: seq<Chunk>, job: Job)
    requires job.cfg.splitSize >= 1
  {
    var full := FullPlan(job);
    && ValidPlan(plan) && |plan| == |full|
    && forall i :: 0 <= i < |plan| ==>
         plan[i].index == i && plan[i].start == full[i].start && plan[i].length == full[i].length
  }

  /** Every byte of chunk i is in its place in the file. */
  ghost predicate ChunkInPlace(d: Disk, job: Job, i: nat)
    requires job.cfg.splitSize >= 1
  {
    var full := FullPlan(job);
    && i < |full| && full[i].start + full[i].length <= |job.src|
    && RightRange(FileOf(d), job.base, job.src, full[i].start, full[i].start + full[i].length)
  }

  /** A sidecar state for this job that marks only chunks whose bytes are in the file. */
  ghost predicate Truthful(st: SideState, d: Disk, job: Job)
    requires job.cfg.splitSize >= 1
  {
    && st.version == VERSION && |st.items| == 1
    && st.items[0].length == |job.src| && st.items[0].splitSize == job.cfg.splitSize
    && forall i :: i in Marked(st.items[0].bitmap) ==> ChunkInPlace(d, job, i)
  }

  /** The sidecar on disk, if the next run would resume from it, is truthful. A torn file, another version, and a
      sidecar for an object of another length are not resumed from. */
  ghost predicate DiskSafe(d: Disk, job: Job)
    requires job.cfg.splitSize >= 1
  {
    match Loaded(d.side)
    case None => true
    case Some(st) => st.items != [] && st.items[0].length == |job.src| ==> Truthful(st, d, job)
  }

  ghost predicate DoneInPlace(plan: seq<Chunk>, d: Disk, job: Job)
    requires job.cfg.splitSize >= 1
  {
    && PlanFits(plan, job)
    && forall i: nat :: i < |plan| && plan[i].state == Completed ==> ChunkInPlace(d, job, i)
  }

  ghost predicate AllInPlace(d: Disk, job: Job)
    requires job.cfg.splitSize >= 1
  {
    forall i: nat :: i < |FullPlan(job)| ==> ChunkInPlace(d, job, i)
  }

  /** What worker w has achieved inside WriteChunk. */
  ghost predicate SubOK(m: Machine, job: Job, w: nat)
    requires job.cfg.splitSize >= 1 && m.proc.Running? && w < |m.proc.subs| == |m.proc.pool.workers|
  {
    var sub, i := m.proc.subs[w], m.proc.pool.workers[w].i;
    && (sub != Writing(0) ==> m.proc.pool.workers[w].pc == Delivering)
    && (sub.Writing? && sub.done > 0 ==>
          && i < |FullPlan(job)| && sub.done <= FullPlan(job)[i].length
          && FullPlan(job)[i].start + sub.done <= |job.src|
          && RightRange(FileOf(m.disk), job.base, job.src, FullPlan(job)[i].start, FullPlan(job)[i].start + sub.done))
    && (sub in {Locked, TmpReady, Stored} ==> ChunkInPlace(m.disk, job, i))
    && (sub in {Locked, TmpReady} <==> m.proc.lock == Some(w))
    && (sub == TmpReady ==> m.disk.side.tmp == Some(Whole(m.proc.mem)))
  }

  ghost predicate SubsOK(m: Machine, job: Job)
    requires job.cfg.splitSize >= 1 && m.proc.Running?
  {
    |m.proc.subs| == |m.proc.pool.workers| && forall w: nat :: w < |m.proc.subs| ==> SubOK(m, job, w)
  }

  ghost predicate DeliveredInPlace(p: Pool, d: Disk, job: Job)
    requires job.cfg.splitSize >= 1
  {
    forall i: nat :: i in p.delivered ==> ChunkInPlace(d, job, i)
  }

  /** What WriteChunk and the sidecar have achieved in this run. */
  ghost predicate WritesOK(m: Machine, job: Job)
    requires job.cfg.splitSize >= 1 && m.proc.Running?
  {
    && DoneInPlace(m.proc.plan, m.disk, job)
    && Truthful(m.proc.mem, m.disk, job)
    && SubsOK(m, job)
    && DeliveredInPlace(m.proc.pool, m.disk, job)
  }

  ghost predicate ProcOK(m: Machine, job: Job)
    requires job.cfg.splitSize >= 1
  {
    match m.proc
    case Down => true
    case Creating(plan, mem, tmpReady) =>
      DoneInPlace(plan, m.disk, job) && Truthful(mem, m.disk, job) && (tmpReady ==> m.disk.side.tmp == Some(Whole(mem)))
    case OpeningFile(plan, mem) => DoneInPlace(plan, m.disk, job) && Truthful(mem, m.disk, job)
    case Running(plan, pool, _, _, _) => WritesOK(m, job) && Inv(pool, plan) && G.Unrepeated(pool, job.cfg)
    case Synced(plan) => PlanFits(plan, job) && (G.GapsHarmless(job.cfg, plan) ==> AllInPlace(m.disk, job))
    case Returned(plan, ok) => PlanFits(plan, job) && (ok && G.GapsHarmless(job.cfg, plan) ==> AllInPlace(m.disk, job))
  }

  ghost predicate Grounded(d: Disk, job: Job, f0: seq<byte>)
    requires job.cfg.splitSize >= 1
  {
    DiskSafe(d, job) && OutsideSame(FileOf(d), f0, job.base, |job.src|)
  }

  ghost predicate MInv(m: Machine, job: Job, f0: seq<byte>)
    requires job.cfg.splitSize >= 1
  {
    Grounded(m.disk, job, f0) && ProcOK(m, job)
  }

  // ----- writing

  /** Everything in place stays in place, and the file is untouched outside the segment. */
  ghost predicate Grows(d: Disk, d': Disk, job: Job) {
    && (forall o: nat :: o < |job.src| && RightByte(FileOf(d), job.base, job.src, o) ==>
          RightByte(FileOf(d'), job.base, job.src, o))
    && (forall f0 :: OutsideSame(FileOf(d), f0, job.base, |job.src|) ==> OutsideSame(FileOf(d'), f0, job.base, |job.src|))
  }

  lemma PlaceStays(d: Disk, d': Disk, job: Job, i: nat)
    requires job.cfg.splitSize >= 1 && Grows(d, d', job) && ChunkInPlace(d, job, i)
    ensures ChunkInPlace(d', job, i)
  {
  }

  lemma TruthStays(d: Disk, d': Disk, job: Job, st: SideState)
    requires job.cfg.splitSize >= 1 && Grows(d, d', job) && Truthful(st, d, job)
    ensures Truthful(st, d', job)
  {
    forall i | i in Marked(st.items[0].bitmap) ensures ChunkInPlace(d', job, i) { PlaceStays(d, d', job, i); }
  }

  lemma DoneStays(d: Disk, d': Disk, job: Job, plan: seq<Chunk>)
    requires job.cfg.splitSize >= 1 && Grows(d, d', job) && DoneInPlace(plan, d, job)
    ensures DoneInPlace(plan, d', job)
  {
    forall i: nat | i < |plan| && plan[i].state == Completed ensures ChunkInPlace(d', job, i) { PlaceStays(d, d', job, i); }
  }

  lemma SameFileGrows(d: Disk, d': Disk, job: Job)
    requires FileOf(d') == FileOf(d)
    ensures Grows(d, d', job)
  {
  }

  lemma SafeStays(d: Disk, d': Disk, job: Job)
    requires job.cfg.splitSize >= 1 && Grows(d, d', job) && DiskSafe(d, job) && d'.side == d.side
    ensures DiskSafe(d', job)
  {
    var st := Loaded(d.side);
    if st.Some? && st.value.items != [] && st.value.items[0].length == |job.src| { TruthStays(d, d', job, st.value); }
  }

  lemma ChunkInObject(job: Job, i: nat)
    requires job.cfg.splitSize >= 1 && i < |FullPlan(job)|
    ensures var c := FullPlan(job)[i]; c.index == i && 0 < c.length && c.start + c.length <= |job.src|
  {
    PlannedChunk(|job.src|, job.cfg.splitSize, i);
    IndexInRange(i, |job.src|, job.cfg.splitSize);
  }

  // ----- the beginning of a run

  lemma MarkedPlan(d: Disk, job: Job, done: set<nat>)
    requires job.cfg.splitSize >= 1
    requires forall i :: i in done && i < |FullPlan(job)| ==> ChunkInPlace(d, job, i)
    ensures DoneInPlace(MarkPlan(FullPlan(job), done), d, job)
  {
    PlanIsLayout(|job.src|, job.cfg.splitSize);
  }

  lemma FreshTruth(d: Disk, job: Job, done: set<nat>)
    requires job.cfg.splitSize >= 1
    requires forall i :: i in done && i < |FullPlan(job)| ==> ChunkInPlace(d, job, i)
    ensures Truthful(FreshState(job, done), d, job)
  {
    var flags := seq(|FullPlan(job)|, i requires 0 <= i < |FullPlan(job)| => i in done);
    EncodedPacks(flags);
  }

  lemma PlanKeeps(d: Disk, job: Job, f0: seq<byte>, done: set<nat>, removed: bool)
    requires job.cfg.splitSize >= 1 && DiskSafe(d, job) && OutsideSame(FileOf(d), f0, job.base, |job.src|)
    requires forall i :: i in done && i < |FullPlan(job)| ==> ChunkInPlace(d, job, i)
    ensures MInv(Plan(d, job, done, removed), job, f0)
  {
    var plan := MarkPlan(FullPlan(job), done);
    MarkedPlan(d, job, done);
    FreshTruth(d, job, done);
    if forall i :: 0 <= i < |plan| ==> plan[i].state == Completed {
      var d' := Plan(d, job, done, removed).disk;
      SameFileGrows(d, d', job);
      DoneStays(d, d', job, plan);
    }
  }

  lemma DownKeeps(d: Disk, job: Job, f0: seq<byte>)
    requires job.cfg.splitSize >= 1 && DiskSafe(d, job) && OutsideSame(FileOf(d), f0, job.base, |job.src|)
    ensures MInv(Machine(d, Down), job, f0)
  {
  }

  lemma DroppedSafe(d: Disk, job: Job, removed: bool)
    requires job.cfg.splitSize >= 1 && DiskSafe(d, job)
    ensures DiskSafe(d.(side := if removed then d.side.(sidecar := None) else d.side), job)
  {
    if !removed {
      assert d.(side := d.side) == d;
    }
  }

  lemma ResumeOne(items: seq<Item>)
    requires |items| == 1
    ensures ResumeSet(items) == Marked(items[0].bitmap)
  {
    assert ResumeSet(items[1..]) == {};
  }

  lemma BeginKeeps(d: Disk, job: Job, f0: seq<byte>, removed: bool)
    requires job.cfg.splitSize >= 1 && DiskSafe(d, job) && OutsideSame(FileOf(d), f0, job.base, |job.src|)
    ensures MInv(Begin(d, job, removed), job, f0)
  {
    var dropped := d.(side := if removed then d.side.(sidecar := None) else d.side);
    DownKeeps(d, job, f0);
    DroppedSafe(d, job, removed);
    hide Plan, MInv, ChunkInPlace;
    match Loaded(d.side)
    case None => PlanKeeps(if d.side.sidecar.Some? then dropped else d, job, f0, {}, removed);
    case Some(st) =>
      if st.items != [] && st.items[0].length != |job.src| {
        PlanKeeps(dropped, job, f0, {}, removed);
      } else if st.items != [] && ValidState(st) {
        assert Truthful(st, d, job);
        ResumeOne(st.items);
        PlanKeeps(d, job, f0, ResumeSet(st.items), removed);
      }
  }

  // ----- the steps before the workers start

  ghost predicate Preparing(m: Machine) { m.proc.Creating? || m.proc.OpeningFile? }

  /** Only the sidecar files and the process change, and the new sidecar is the old one or the state in memory. */
  lemma PreparedKeeps(m: Machine, m': Machine, job: Job, f0: seq<byte>)
    requires ValidJob(job) && MInv(m, job, f0) && Preparing(m) && FileOf(m'.disk) == FileOf(m.disk)
    requires m'.disk.side.sidecar in {m.disk.side.sidecar, Some(Whole(m.proc.mem))}
    requires
      || m'.proc == Returned(m.proc.plan, false)
      || (m'.proc.Creating? && m'.proc.plan == m.proc.plan && m'.proc.mem == m.proc.mem
          && (m'.proc.tmpReady ==> m'.disk.side.tmp == Some(Whole(m.proc.mem))))
      || m'.proc == OpeningFile(m.proc.plan, m.proc.mem)
    ensures MInv(m', job, f0)
  {
    SameFileGrows(m.disk, m'.disk, job);
    DoneStays(m.disk, m'.disk, job, m.proc.plan);
    TruthStays(m.disk, m'.disk, job, m.proc.mem);
    SidecarSafe(m.disk, m'.disk, job, m.proc.mem);
  }

  /** Replacing the sidecar by a truthful state keeps the disk safe. */
  lemma SidecarSafe(d: Disk, d': Disk, job: Job, mem: SideState)
    requires job.cfg.splitSize >= 1 && Grows(d, d', job) && DiskSafe(d, job) && Truthful(mem, d, job)
    requires d'.side.sidecar in {d.side.sidecar, Some(Whole(mem)), None}
    ensures DiskSafe(d', job)
  {
    TruthStays(d, d', job, mem);
    if d'.side.sidecar == d.side.sidecar {
      var st := Loaded(d.side);
      if st.Some? && st.value.items != [] && st.value.items[0].length == |job.src| { TruthStays(d, d', job, st.value); }
    }
  }

  lemma PrepareKeeps(m: Machine, e: F.Event, job: Job, f0: seq<byte>)
    requires ValidJob(job) && MInv(m, job, f0) && F.Enabled(m, e, job) && Preparing(m) && !e.Interrupt?
    ensures MInv(F.Apply(m, e, job), job, f0)
  {
    hide DoneInPlace, Truthful, DiskSafe, OutsideSame, Init;
    if e.OpenDest? && e.ok {
      OpenKeeps(m, job, f0, e.now);
    } else {
      PreparedKeeps(m, F.Apply(m, e, job), job, f0);
    }
  }

  lemma OpenKeeps(m: Machine, job: Job, f0: seq<byte>, now: nat)
    requires ValidJob(job) && MInv(m, job, f0) && F.Enabled(m, OpenDest(true, now), job)
    ensures MInv(F.Apply(m, OpenDest(true, now), job), job, f0)
  {
    hide DoneInPlace, Truthful, DiskSafe, OutsideSame, Inv;
    var m' := F.Apply(m, OpenDest(true, now), job);
    SameFileGrows(m.disk, m'.disk, job);
    DoneStays(m.disk, m'.disk, job, m.proc.plan);
    TruthStays(m.disk, m'.disk, job, m.proc.mem);
    SafeStays(m.disk, m'.disk, job);
    DoneFits(m.proc.plan, m.disk, job);
    InitInv(job.cfg, m.proc.plan, now);
    hide G.Unrepeated;
    G.InitUnrepeated(job.cfg, m.proc.plan, now);
  }

  lemma DoneFits(plan: seq<Chunk>, d: Disk, job: Job)
    requires job.cfg.splitSize >= 1 && DoneInPlace(plan, d, job)
    ensures PlanFits(plan, job) && ValidPlan(plan)
  {
  }

  // ----- the steps inside WriteChunk

  lemma SubSame(m: Machine, m': Machine, job: Job, v: nat)
    requires job.cfg.splitSize >= 1 && m.proc.Running? && m'.proc.Running?
    requires v < |m.proc.subs| == |m.proc.pool.workers| && |m'.proc.subs| == |m'.proc.pool.workers| == |m.proc.subs|
    requires m'.proc.subs[v] == m.proc.subs[v] && Grows(m.disk, m'.disk, job)
    requires m.proc.subs[v] != Writing(0) ==> m'.proc.pool.workers[v] == m.proc.pool.workers[v]
    requires (m.proc.lock == Some(v)) == (m'.proc.lock == Some(v))
    requires m.proc.subs[v] == TmpReady ==> m'.disk.side.tmp == m.disk.side.tmp && m'.proc.mem == m.proc.mem
    requires SubOK(m, job, v)
    ensures SubOK(m', job, v)
  {
    var sub, i := m.proc.subs[v], m.proc.pool.workers[v].i;
    if sub in {Locked, TmpReady, Stored} { PlaceStays(m.disk, m'.disk, job, i); }
  }

  /** Inside WriteChunk only the worker's own progress, the disk and the sidecar's memory and lock change. */
  ghost predicate SubStep(m: Machine, m': Machine, w: nat) {
    && m.proc.Running? && m'.proc.Running? && w < |m.proc.subs| == |m'.proc.subs|
    && m'.proc.plan == m.proc.plan && m'.proc.pool == m.proc.pool
    && m'.proc.subs == m.proc.subs[w := m'.proc.subs[w]]
  }

  /** ... and what it does to the disk can only help. */
  ghost predicate OneWrites(m: Machine, m': Machine, job: Job, w: nat) {
    && SubStep(m, m', w)
    && Grows(m.disk, m'.disk, job)
    && m'.disk.side.sidecar in {m.disk.side.sidecar, Some(Whole(m.proc.mem))}
    && ((m'.disk.side == m.disk.side && m'.proc.mem == m.proc.mem && m'.proc.lock == m.proc.lock) ||
        (m.proc.lock in {None, Some(w)} && m'.proc.lock in {None, Some(w)}))
  }

  lemma OneWritesSubs(m: Machine, m': Machine, job: Job, w: nat)
    requires job.cfg.splitSize >= 1 && OneWrites(m, m', job, w) && SubsOK(m, job)
    requires w < |m'.proc.pool.workers| == |m'.proc.subs| && SubOK(m', job, w)
    ensures SubsOK(m', job)
  {
    forall v: nat | v < |m'.proc.subs| ensures SubOK(m', job, v) {
      if v != w {
        NotHolding(m, job, v);
        SubSame(m, m', job, v);
      }
    }
  }

  lemma NotHolding(m: Machine, job: Job, v: nat)
    requires job.cfg.splitSize >= 1 && m.proc.Running? && v < |m.proc.subs| == |m.proc.pool.workers| && SubOK(m, job, v)
    ensures m.proc.lock != Some(v) ==> m.proc.subs[v] != TmpReady
  {
  }

  lemma DeliveredStays(p: Pool, d: Disk, d': Disk, job: Job)
    requires job.cfg.splitSize >= 1 && Grows(d, d', job) && DeliveredInPlace(p, d, job)
    ensures DeliveredInPlace(p, d', job)
  {
    forall i: nat | i in p.delivered ensures ChunkInPlace(d', job, i) { PlaceStays(d, d', job, i); }
  }

  lemma OneWritesKeeps(m: Machine, m': Machine, job: Job, f0: seq<byte>, w: nat)
    requires job.cfg.splitSize >= 1 && OneWrites(m, m', job, w) && WritesOK(m, job) && Grounded(m.disk, job, f0)
    requires Truthful(m'.proc.mem, m'.disk, job) && |m.proc.subs| == |m.proc.pool.workers| && SubOK(m', job, w)
    ensures WritesOK(m', job) && Grounded(m'.disk, job, f0)
  {
    hide SubOK, DoneInPlace, Truthful, DiskSafe, OutsideSame, SubsOK, DeliveredInPlace;
    DoneStays(m.disk, m'.disk, job, m.proc.plan);
    SidecarSafe(m.disk, m'.disk, job, m.proc.mem);
    OneWritesSubs(m, m', job, w);
    DeliveredStays(m.proc.pool, m.disk, m'.disk, job);
  }

  /** The chunks of the pool are the planned ones. */
  ghost predicate AsPlanned(p: Pool, job: Job)
    requires job.cfg.splitSize >= 1
  {
    && |p.sched.chunks| == |FullPlan(job)|
    && forall i :: 0 <= i < |p.sched.chunks| ==>
         && p.sched.chunks[i].index == i
         && p.sched.chunks[i].start == FullPlan(job)[i].start
         && p.sched.chunks[i].length == FullPlan(job)[i].length
  }

  lemma PoolIsPlanned(p: Pool, plan: seq<Chunk>, job: Job)
    requires job.cfg.splitSize >= 1 && Shape(p, plan) && PlanFits(plan, job)
    ensures AsPlanned(p, job)
  {
  }

  /** Worker w is inside WriteChunk with chunk i, `sub` being how far it is. */
  ghost predicate Inside(m: Machine, job: Job, w: nat, i: nat, sub: Sub)
    requires job.cfg.splitSize >= 1
  {
    && m.proc.Running? && w < |m.proc.subs| == |m.proc.pool.workers|
    && m.proc.pool.workers[w].pc == Delivering && m.proc.pool.workers[w].i == i
    && i < |FullPlan(job)|
    && m.proc.subs[w] == sub && SubOK(m, job, w)
  }

  lemma IsInside(m: Machine, job: Job, w: nat)
    requires job.cfg.splitSize >= 1 && AtDelivery(m, job, w) && AsPlanned(m.proc.pool, job) && SubsOK(m, job)
    ensures var c, i := ChunkOf(m, job, w), m.proc.pool.workers[w].i;
            && Inside(m, job, w, i, m.proc.subs[w])
            && c.index == i && c.start == FullPlan(job)[i].start && c.length == FullPlan(job)[i].length
            && 0 < c.length && c.start + c.length <= |job.src|
  {
    hide SubOK, FullPlan;
    ChunkInObject(job, m.proc.pool.workers[w].i);
  }

  lemma GrowsByWriting(d: Disk, job: Job, lo: nat, hi: nat)
    requires lo <= hi <= |job.src|
    ensures var d' := Deposit(d, job, lo, hi);
            d'.side == d.side && Grows(d, d', job) && RightRange(FileOf(d'), job.base, job.src, lo, hi)
  {
    WritingSource(FileOf(d), job.base, job.src, lo, hi);
  }

  /** Worker w, `done` bytes into chunk i, has put k more bytes in place and changed nothing else. */
  ghost predicate Deposited(m: Machine, m': Machine, job: Job, w: nat, i: nat, done: nat, k: nat)
    requires job.cfg.splitSize >= 1
  {
    && Inside(m, job, w, i, Writing(done)) && SubStep(m, m', w)
    && m'.proc.mem == m.proc.mem && m'.proc.lock == m.proc.lock && m'.proc.subs[w] == Writing(done + k)
    && m'.disk.side == m.disk.side && Grows(m.disk, m'.disk, job)
    && var c := FullPlan(job)[i];
       && done + k <= c.length && c.start + c.length <= |job.src|
       && RightRange(FileOf(m'.disk), job.base, job.src, c.start + done, c.start + done + k)
  }

  lemma WriteSomeEffect(m: Machine, job: Job, w: nat, k: nat)
    requires CanWriteSome(m, job, w, k)
    ensures var m', c, done := WriteSomeStep(m, job, w, k), ChunkOf(m, job, w), m.proc.subs[w].done;
            && SubStep(m, m', w) && m'.proc.mem == m.proc.mem && m'.proc.lock == m.proc.lock
            && m'.proc.subs[w] == Writing(done + k) && done + k <= c.length
            && m'.disk == Deposit(m.disk, job, c.start + done, c.start + done + k)
  {
  }

  lemma MakesDeposit(m: Machine, m': Machine, job: Job, w: nat, i: nat, c: Chunk, done: nat, k: nat)
    requires job.cfg.splitSize >= 1 && Inside(m, job, w, i, Writing(done)) && SubStep(m, m', w)
    requires m'.proc.mem == m.proc.mem && m'.proc.lock == m.proc.lock && m'.proc.subs[w] == Writing(done + k)
    requires c.start == FullPlan(job)[i].start && c.length == FullPlan(job)[i].length
    requires done + k <= c.length && c.start + c.length <= |job.src|
    requires m'.disk == Deposit(m.disk, job, c.start + done, c.start + done + k)
    ensures Deposited(m, m', job, w, i, done, k)
  {
    hide FullPlan, SubOK, Deposit, Grows, RightRange, FileOf;
    GrowsByWriting(m.disk, job, c.start + done, c.start + done + k);
  }

  lemma WriteSomeDeposits(m: Machine, job: Job, w: nat, k: nat)
    requires job.cfg.splitSize >= 1 && CanWriteSome(m, job, w, k) && AsPlanned(m.proc.pool, job) && SubsOK(m, job)
    ensures Deposited(m, WriteSomeStep(m, job, w, k), job, w, m.proc.pool.workers[w].i, m.proc.subs[w].done, k)
  {
    hide AsPlanned, SubsOK, Inside, FullPlan, WriteSomeStep, SubStep, Deposit, Deposited;
    IsInside(m, job, w);
    WriteSomeEffect(m, job, w, k);
    MakesDeposit(m, WriteSomeStep(m, job, w, k), job, w, m.proc.pool.workers[w].i, ChunkOf(m, job, w), m.proc.subs[w].done, k);
  }

  lemma PartWritten(m: Machine, m': Machine, job: Job, w: nat, i: nat, done: nat, k: nat)
    requires job.cfg.splitSize >= 1 && Deposited(m, m', job, w, i, done, k)
    ensures |m'.proc.subs| == |m'.proc.pool.workers| && SubOK(m', job, w)
  {
  }

  lemma SomeWritten(m: Machine, m': Machine, job: Job, f0: seq<byte>, w: nat, i: nat, done: nat, k: nat)
    requires job.cfg.splitSize >= 1 && Deposited(m, m', job, w, i, done, k)
    requires WritesOK(m, job) && Grounded(m.disk, job, f0)
    ensures WritesOK(m', job) && Grounded(m'.disk, job, f0)
  {
    PartWritten(m, m', job, w, i, done, k);
    hide Grows, SubOK, FullPlan, DoneInPlace, SubsOK, DeliveredInPlace, Truthful, Grounded, RightRange, FileOf;
    TruthStays(m.disk, m'.disk, job, m.proc.mem);
    OneWritesKeeps(m, m', job, f0, w);
  }

  lemma WriteSomeKeeps(m: Machine, job: Job, f0: seq<byte>, w: nat, k: nat)
    requires job.cfg.splitSize >= 1 && CanWriteSome(m, job, w, k)
    requires AsPlanned(m.proc.pool, job) && WritesOK(m, job) && Grounded(m.disk, job, f0)
    ensures var m' := WriteSomeStep(m, job, w, k);
            SubStep(m, m', w) && WritesOK(m', job) && Grounded(m'.disk, job, f0)
  {
    hide Deposited, WriteSomeStep, AsPlanned, SubsOK, DoneInPlace, DeliveredInPlace, Truthful, Grounded;
    WriteSomeEffect(m, job, w, k);
    WriteSomeDeposits(m, job, w, k);
    SomeWritten(m, WriteSomeStep(m, job, w, k), job, f0, w, m.proc.pool.workers[w].i, m.proc.subs[w].done, k);
  }

  /** Giving up on a write: nothing on disk changes. */
  lemma StopKeeps(m: Machine, job: Job, f0: seq<byte>, w: nat)
    requires job.cfg.splitSize >= 1 && CanWriteSome(m, job, w, 0)
    requires AsPlanned(m.proc.pool, job) && WritesOK(m, job) && Grounded(m.disk, job, f0)
    ensures var m' := SetSub(m, w, Bad);
            SubStep(m, m', w) && WritesOK(m', job) && Grounded(m'.disk, job, f0)
  {
    var m' := SetSub(m, w, Bad);
    IsInside(m, job, w);
    SameFileGrows(m.disk, m'.disk, job);
    hide DoneInPlace, Truthful, DiskSafe, OutsideSame, SubsOK, DeliveredInPlace, Grows, FullPlan;
    assert SubOK(m', job, w);
    OneWritesKeeps(m, m', job, f0, w);
  }

  /** The whole chunk is in the file when its bit is set in memory. */
  lemma MarkTruthful(mem: SideState, d: Disk, job: Job, i: nat)
    requires job.cfg.splitSize >= 1 && Truthful(mem, d, job) && ValidState(mem) && ChunkInPlace(d, job, i)
    ensures Mark(mem, 0, i).Some? ==> Truthful(Mark(mem, 0, i).value, d, job)
  {
    if Mark(mem, 0, i).Some? {
      MarkIsInsertion(mem, 0, i);
    }
  }

  lemma TakeLockKeeps(m: Machine, job: Job, f0: seq<byte>, w: nat)
    requires job.cfg.splitSize >= 1 && CanTakeLock(m, job, w)
    requires AsPlanned(m.proc.pool, job) && WritesOK(m, job) && Grounded(m.disk, job, f0)
    ensures var m' := TakeLockStep(m, job, w);
            SubStep(m, m', w) && WritesOK(m', job) && Grounded(m'.disk, job, f0)
  {
    var m', i := TakeLockStep(m, job, w), m.proc.pool.workers[w].i;
    IsInside(m, job, w);
    SameFileGrows(m.disk, m'.disk, job);
    assert ChunkInPlace(m.disk, job, i);
    hide DoneInPlace, Truthful, DiskSafe, OutsideSame, SubsOK, DeliveredInPlace, Grows, FullPlan, Mark;
    MarkTruthful(m.proc.mem, m.disk, job, i);
    assert SubOK(m', job, w);
    OneWritesKeeps(m, m', job, f0, w);
  }

  lemma TmpKeeps(m: Machine, job: Job, f0: seq<byte>, w: nat, ok: bool)
    requires job.cfg.splitSize >= 1 && CanCheckpoint(m, job, w, Locked)
    requires AsPlanned(m.proc.pool, job) && WritesOK(m, job) && Grounded(m.disk, job, f0)
    ensures var m' := TmpStep(m, w, ok);
            SubStep(m, m', w) && WritesOK(m', job) && Grounded(m'.disk, job, f0)
  {
    var m' := TmpStep(m, w, ok);
    IsInside(m, job, w);
    SameFileGrows(m.disk, m'.disk, job);
    TruthStays(m.disk, m'.disk, job, m.proc.mem);
    hide DoneInPlace, Truthful, DiskSafe, OutsideSame, SubsOK, DeliveredInPlace, Grows, FullPlan;
    assert SubOK(m', job, w);
    OneWritesKeeps(m, m', job, f0, w);
  }

  lemma RenameKeeps(m: Machine, job: Job, f0: seq<byte>, w: nat, ok: bool)
    requires job.cfg.splitSize >= 1 && CanCheckpoint(m, job, w, TmpReady)
    requires AsPlanned(m.proc.pool, job) && WritesOK(m, job) && Grounded(m.disk, job, f0)
    ensures var m' := RenameStep(m, w, ok);
            SubStep(m, m', w) && WritesOK(m', job) && Grounded(m'.disk, job, f0)
  {
    var m' := RenameStep(m, w, ok);
    IsInside(m, job, w);
    SameFileGrows(m.disk, m'.disk, job);
    TruthStays(m.disk, m'.disk, job, m.proc.mem);
    hide DoneInPlace, Truthful, DiskSafe, OutsideSame, SubsOK, DeliveredInPlace, Grows, FullPlan;
    assert SubOK(m', job, w);
    OneWritesKeeps(m, m', job, f0, w);
  }

  lemma TearKeeps(m: Machine, job: Job, f0: seq<byte>, w: nat)
    requires job.cfg.splitSize >= 1 && CanCheckpoint(m, job, w, Locked)
    requires AsPlanned(m.proc.pool, job) && WritesOK(m, job) && Grounded(m.disk, job, f0)
    ensures var m' := m.(disk := m.disk.(side := WriteTmp(m.disk.side, m.proc.mem, false)));
            SubStep(m, m', w) && WritesOK(m', job) && Grounded(m'.disk, job, f0)
  {
    var m' := m.(disk := m.disk.(side := WriteTmp(m.disk.side, m.proc.mem, false)));
    IsInside(m, job, w);
    SameFileGrows(m.disk, m'.disk, job);
    TruthStays(m.disk, m'.disk, job, m.proc.mem);
    hide DoneInPlace, Truthful, DiskSafe, OutsideSame, SubsOK, DeliveredInPlace, Grows, FullPlan;
    assert SubOK(m', job, w);
    OneWritesKeeps(m, m', job, f0, w);
  }

  // ----- the steps of the pool

  /** A worker inside the sink stays there until its own delivery returns. */
  lemma DeliveringStays(p: Pool, e: WorkerPool.Event, v: nat)
    requires WorkerPool.Enabled(p, e) && Stands(p, v, Delivering) && !(e.CallDeliver? && e.w == v)
    ensures v < |WorkerPool.Apply(p, e).workers| && WorkerPool.Apply(p, e).workers[v] == p.workers[v]
  {
    hide HedgeEligible, StartHedge, NextAssignment, MarkComplete, MarkFailed, OnAdmissionFailure, OnWorkerSuccess, CancelHedge;
  }

  lemma CallKeepsSubs(m: Machine, job: Job, pe: WorkerPool.Event)
    requires job.cfg.splitSize >= 1 && CanCall(m, pe) && SubsOK(m, job)
    ensures SubsOK(OfPoolStep(m, pe), job)
  {
    var m' := OfPoolStep(m, pe);
    SameWorkers(m.proc.pool, pe);
    SameFileGrows(m.disk, m'.disk, job);
    forall v: nat | v < |m'.proc.subs| ensures SubOK(m', job, v) {
      assert SubOK(m, job, v);
      if !(pe.CallDeliver? && pe.w == v) {
        if m.proc.subs[v] != Writing(0) { DeliveringStays(m.proc.pool, pe, v); }
        hide WorkerPool.Apply, WorkerPool.Enabled, SubOK, Grows;
        SubSame(m, m', job, v);
      }
    }
  }

  /** A delivered chunk is in place: only a stored one is reported as delivered. */
  lemma CallKeepsDelivered(m: Machine, job: Job, pe: WorkerPool.Event)
    requires job.cfg.splitSize >= 1 && CanCall(m, pe) && SubsOK(m, job) && DeliveredInPlace(m.proc.pool, m.disk, job)
    ensures DeliveredInPlace(OfPoolStep(m, pe).proc.pool, m.disk, job)
  {
    EventEffects(m.proc.pool, pe);
    if pe.CallDeliver? && pe.ok {
      assert SubOK(m, job, pe.w);
    }
  }

  lemma CallKeepsMachine(m: Machine, job: Job, f0: seq<byte>, pe: WorkerPool.Event)
    requires ValidJob(job) && CanCall(m, pe) && MInv(m, job, f0)
    ensures MInv(OfPoolStep(m, pe), job, f0)
  {
    DoneFits(m.proc.plan, m.disk, job);
    hide G.Unrepeated, Inv, ValidPlan, SubsOK, DeliveredInPlace, Grounded, DoneInPlace, Truthful, WorkerPool.Apply, WorkerPool.Enabled;
    StepKeeps(m.proc.pool, m.proc.plan, pe);
    G.StepUnrepeated(m.proc.pool, m.proc.plan, job.cfg, pe);
    CallKeepsSubs(m, job, pe);
    CallKeepsDelivered(m, job, pe);
  }

  // ----- the end of a run

  lemma HarmlessDone(m: Machine, job: Job)
    requires ValidConfig(job.cfg) && m.proc.Running? && WritesOK(m, job) && Inv(m.proc.pool, m.proc.plan)
    requires G.Unrepeated(m.proc.pool, job.cfg) && m.proc.pool.verdict == Some(true) && G.GapsHarmless(job.cfg, m.proc.plan)
    ensures AllInPlace(m.disk, job)
  {
    hide Inv, G.Unrepeated, G.GapsHarmless;
    G.SuccessHasAll(m.proc.pool, job.cfg, m.proc.plan);
  }

  lemma SyncKeeps(m: Machine, job: Job, f0: seq<byte>, ok: bool)
    requires ValidJob(job) && MInv(m, job, f0) && m.proc.Running? && m.proc.pool.verdict == Some(true)
    ensures MInv(m.(proc := if ok then Synced(m.proc.plan) else Returned(m.proc.plan, false)), job, f0)
  {
    DoneFits(m.proc.plan, m.disk, job);
    hide Inv, G.Unrepeated, G.GapsHarmless;
    if G.GapsHarmless(job.cfg, m.proc.plan) { HarmlessDone(m, job); }
  }

  lemma RemoveKeeps(m: Machine, job: Job, f0: seq<byte>)
    requires ValidJob(job) && MInv(m, job, f0) && m.proc.Synced?
    ensures MInv(Machine(m.disk.(side := m.disk.side.(sidecar := None)), Returned(m.proc.plan, true)), job, f0)
    ensures MInv(m.(proc := Returned(m.proc.plan, false)), job, f0)
  {
    var d' := m.disk.(side := m.disk.side.(sidecar := None));
    hide G.GapsHarmless;
    if G.GapsHarmless(job.cfg, m.proc.plan) {
      SameFileGrows(m.disk, d', job);
      forall i: nat | i < |FullPlan(job)| ensures ChunkInPlace(d', job, i) { PlaceStays(m.disk, d', job, i); }
    }
  }

  // ----- every step

  lemma WriteDone(m: Machine, m': Machine, job: Job, f0: seq<byte>, w: nat)
    requires job.cfg.splitSize >= 1 && MInv(m, job, f0) && SubStep(m, m', w)
    requires WritesOK(m', job) && Grounded(m'.disk, job, f0)
    ensures MInv(m', job, f0)
  {
  }

  lemma WritePossible(m: Machine, job: Job, f0: seq<byte>)
    requires job.cfg.splitSize >= 1 && MInv(m, job, f0) && m.proc.Running?
    ensures AsPlanned(m.proc.pool, job) && WritesOK(m, job) && Grounded(m.disk, job, f0)
  {
    PoolIsPlanned(m.proc.pool, m.proc.plan, job);
  }

  predicate IsWrite(e: F.Event) {
    e.WriteSome? || e.WriteStops? || e.TakeLock? || e.TearTmp? || e.WriteTheTmp? || e.RenameTheTmp?
  }

  lemma WriteKeeps(m: Machine, e: F.Event, job: Job, f0: seq<byte>)
    requires ValidJob(job) && MInv(m, job, f0) && F.Enabled(m, e, job) && IsWrite(e)
    ensures MInv(F.Apply(m, e, job), job, f0)
  {
    hide MInv, AsPlanned, WritesOK, Grounded, SubStep;
    hide WriteSomeStep, TakeLockStep, TmpStep, RenameStep, SetSub;
    WritePossible(m, job, f0);
    match e {
      case WriteSome(w, k) => WriteSomeKeeps(m, job, f0, w, k);
      case WriteStops(w) => StopKeeps(m, job, f0, w);
      case TakeLock(w) => TakeLockKeeps(m, job, f0, w);
      case TearTmp(w) => TearKeeps(m, job, f0, w);
      case WriteTheTmp(w, ok) => TmpKeeps(m, job, f0, w, ok);
      case RenameTheTmp(w, ok) => RenameKeeps(m, job, f0, w, ok);
    }
    WriteDone(m, F.Apply(m, e, job), job, f0, e.w);
  }

  lemma StepKeepsDisk(m: Machine, e: F.Event, job: Job, f0: seq<byte>)
    requires ValidJob(job) && MInv(m, job, f0) && F.Enabled(m, e, job)
    ensures MInv(F.Apply(m, e, job), job, f0)
  {
    if IsWrite(e) {
      WriteKeeps(m, e, job, f0);
    } else if Preparing(m) && !e.Interrupt? {
      PrepareKeeps(m, e, job, f0);
    } else {
      OtherKeeps(m, e, job, f0);
    }
  }

  lemma OtherKeeps(m: Machine, e: F.Event, job: Job, f0: seq<byte>)
    requires ValidJob(job) && MInv(m, job, f0) && F.Enabled(m, e, job) && !IsWrite(e) && !(Preparing(m) && !e.Interrupt?)
    ensures MInv(F.Apply(m, e, job), job, f0)
  {
    match e
    case StartRun(removed) => BeginKeeps(m.disk, job, f0, removed);
    case OfPool(pe) => CallKeepsMachine(m, job, f0, pe);
    case GiveUp => GiveUpKeeps(m, job, f0);
    case Sync(ok) => SyncKeeps(m, job, f0, ok);
    case RemoveSidecar(ok) => RemoveKeeps(m, job, f0);
    case Interrupt => InterruptKeeps(m, job, f0);
  }

  lemma GiveUpKeeps(m: Machine, job: Job, f0: seq<byte>)
    requires ValidJob(job) && MInv(m, job, f0) && m.proc.Running?
    ensures MInv(m.(proc := Returned(m.proc.plan, false)), job, f0)
  {
    DoneFits(m.proc.plan, m.disk, job);
  }

  lemma InterruptKeeps(m: Machine, job: Job, f0: seq<byte>)
    requires job.cfg.splitSize >= 1 && MInv(m, job, f0)
    ensures MInv(m.(proc := Down), job, f0)
  {
  }

  lemma {:induction false} RunsKeepDisk(m: Machine, es: seq<F.Event>, job: Job, f0: seq<byte>)
    requires ValidJob(job) && MInv(m, job, f0) && F.Legal(m, es, job)
    ensures MInv(F.Exec(m, es, job), job, f0)
    decreases |es|
  {
    hide MInv, F.Apply, F.Enabled;
    if es != [] {
      StepKeepsDisk(m, es[0], job, f0);
      RunsKeepDisk(F.Apply(m, es[0], job), es[1..], job, f0);
    }
  }
}
