/** What a download to a file records as it goes, and by which path it succeeds (`WriteChunk` and `Finalize` in
    internal/sink/file.go, `downloadParallelFile` in internal/job/runner.go). */
module FileProgress {
  import opened Basics
  import opened Chunks
  import opened WorkerPool
  import opened PoolInvariants
  import opened Streaming
  import opened Positional
  import opened Bitmap
  import opened Sidecar
  import opened F = FileTransfer
  import opened FileSafety
  import opened FileTheorems
  import FX = FileTheorems

  // ----- progress on disk

  ghost predicate Marks(st: SideState, i: nat) {
    |st.items| == 1 && i in Marked(st.items[0].bitmap)
  }

  /** Complete at the start, or accepted by the sink. */
  ghost predicate Achieved(m: Machine, i: nat) {
    m.proc.Running? && i < |m.proc.plan| && (m.proc.plan[i].state == Completed || i in m.proc.pool.delivered)
  }

  /** What is marked on disk is marked in memory, and what was achieved is marked on disk. */
  ghost predicate Noted(m: Machine, job: Job)
    requires m.proc.Running?
  {
    && m.disk.file.Some?
    && (forall i: nat :: Achieved(m, i) ==> i in Resumed(m.disk, job))
    && (forall i: nat :: i in Resumed(m.disk, job) ==> Marks(m.proc.mem, i))
    && (forall w: nat :: w < |m.proc.subs| && w < |m.proc.pool.workers| ==> SubNoted(m, job, w))
  }

  ghost predicate SubNoted(m: Machine, job: Job, w: nat)
    requires m.proc.Running? && w < |m.proc.subs| && w < |m.proc.pool.workers|
  {
    var sub, i := m.proc.subs[w], m.proc.pool.workers[w].i;
    && (sub == Locked || sub == TmpReady ==> Marks(m.proc.mem, i))
    && (sub == Stored ==> i in Resumed(m.disk, job))
  }

  ghost predicate PlanMarked(plan: seq<Chunk>, st: SideState) {
    forall i: nat :: i < |plan| && plan[i].state == Completed ==> Marks(st, i)
  }

  ghost predicate Recorded(m: Machine, job: Job) {
    match m.proc
    case Creating(plan, mem, _) => PlanMarked(plan, mem)
    case OpeningFile(plan, mem) => PlanMarked(plan, mem) && m.disk.side.sidecar == Some(Whole(mem))
    case Running(_, _, _, _, _) => Noted(m, job)
    case Synced(_) => m.disk.file.Some?
    case _ => true
  }

  /** A sidecar on disk that holds a state of this job is resumed from. */
  lemma StoredMarks(d: Disk, d0: Disk, job: Job, mem: SideState)
    requires ValidJob(job) && Truthful(mem, d0, job) && d.side.sidecar == Some(Whole(mem))
    ensures forall i: nat :: i in Resumed(d, job) <==> Marks(mem, i)
  {
    ResumeOne(mem.items);
    assert ValidState(mem);
  }

  lemma PlanRecorded(d: Disk, job: Job, done: set<nat>, removed: bool)
    requires ValidJob(job)
    ensures Recorded(Plan(d, job, done, removed), job)
  {
    PlanPlanned(d, d, job, done, removed);
    PlanIsLayout(|job.src|, job.cfg.splitSize);
    FreshMarks(job, done);
    hide FreshState, Marked;
  }

  lemma BeginRecorded(d: Disk, job: Job, removed: bool)
    requires ValidJob(job)
    ensures Recorded(Begin(d, job, removed), job)
  {
    var dropped := d.(side := if removed then d.side.(sidecar := None) else d.side);
    PlanRecorded(d, job, {}, removed);
    PlanRecorded(dropped, job, {}, removed);
    match Loaded(d.side)
    case None =>
    case Some(st) =>
      PlanRecorded(d, job, ResumeSet(st.items), removed);
      hide Plan, Recorded;
      assert Recorded(Machine(d, Down), job) by { DownRecorded(d, job); }
  }

  lemma DownRecorded(d: Disk, job: Job)
    ensures Recorded(Machine(d, Down), job)
  {
  }

  lemma PrepareRecorded(m: Machine, e: F.Event, job: Job, f0: seq<byte>)
    requires ValidJob(job) && MInv(m, job, f0) && Recorded(m, job) && F.Enabled(m, e, job) && Preparing(m) && !e.Interrupt?
    ensures Recorded(F.Apply(m, e, job), job)
  {
    if e.OpenDest? && e.ok {
      OpenRecorded(m, job, f0, e.now);
    } else {
      hide MInv, Marked, PlanMarked;
      if e.RenameNew? && e.ok { TmpIsMemory(m, job, f0); }
    }
  }

  lemma TmpIsMemory(m: Machine, job: Job, f0: seq<byte>)
    requires job.cfg.splitSize >= 1 && MInv(m, job, f0) && m.proc.Creating? && m.proc.tmpReady
    ensures m.disk.side.tmp == Some(Whole(m.proc.mem))
  {
  }

  lemma OpenRecorded(m: Machine, job: Job, f0: seq<byte>, now: nat)
    requires ValidJob(job) && MInv(m, job, f0) && Recorded(m, job) && F.Enabled(m, OpenDest(true, now), job)
    ensures Recorded(F.Apply(m, OpenDest(true, now), job), job)
  {
    var n := F.Apply(m, OpenDest(true, now), job);
    assert n.disk.side == m.disk.side && n.proc.pool.delivered == {};
    OpeningTruthful(m, job, f0);
    StoredMarks(n.disk, m.disk, job, m.proc.mem);
    hide MInv, Marked, Resumed, Marks, Truthful;
  }

  lemma OpeningTruthful(m: Machine, job: Job, f0: seq<byte>)
    requires job.cfg.splitSize >= 1 && MInv(m, job, f0) && m.proc.OpeningFile?
    ensures Truthful(m.proc.mem, m.disk, job)
  {
  }

  // ----- inside WriteChunk

  /** The sidecar on disk and the state in memory are as they were, and so are the other workers. */
  lemma QuietNoted(m: Machine, n: Machine, job: Job, w: nat)
    requires SubStep(m, n, w) && Noted(m, job) && n.disk.file.Some? && n.proc.mem == m.proc.mem
    requires n.disk.side.sidecar == m.disk.side.sidecar
    requires n.proc.subs[w] == m.proc.subs[w] || n.proc.subs[w].Writing? || n.proc.subs[w] == Bad ||
             (n.proc.subs[w] == TmpReady && m.proc.subs[w] == Locked)
    ensures Noted(n, job)
  {
    assert Resumed(n.disk, job) == Resumed(m.disk, job);
    assert forall i: nat :: Achieved(n, i) == Achieved(m, i);
    hide Resumed, Achieved, Marks;
    forall v: nat | v < |n.proc.subs| && v < |n.proc.pool.workers| ensures SubNoted(n, job, v) {
      assert SubNoted(m, job, v);
    }
  }

  /** The bit of worker w's chunk is set in memory. */
  lemma LockNoted(m: Machine, n: Machine, job: Job, w: nat, i: nat)
    requires SubStep(m, n, w) && Noted(m, job) && n.disk == m.disk && n.proc.subs[w] == Locked
    requires w < |m.proc.pool.workers| && m.proc.pool.workers[w].i == i
    requires forall j: nat :: Marks(n.proc.mem, j) <==> Marks(m.proc.mem, j) || j == i
    ensures Noted(n, job)
  {
    assert forall j: nat :: Achieved(n, j) == Achieved(m, j);
    hide Resumed, Achieved, Marks;
    forall v: nat | v < |n.proc.subs| && v < |n.proc.pool.workers| ensures SubNoted(n, job, v) {
      assert SubNoted(m, job, v);
    }
  }

  /** The state in memory has replaced the sidecar. */
  lemma StoreNoted(m: Machine, n: Machine, job: Job, w: nat)
    requires SubStep(m, n, w) && Noted(m, job) && n.disk.file.Some? && n.proc.mem == m.proc.mem
    requires w < |m.proc.pool.workers| && m.proc.subs[w] == TmpReady && n.proc.subs[w] == Stored
    requires forall i: nat :: i in Resumed(n.disk, job) <==> Marks(m.proc.mem, i)
    ensures Noted(n, job)
  {
    assert forall i: nat :: Achieved(n, i) == Achieved(m, i);
    hide Resumed, Achieved, Marks;
    forall v: nat | v < |n.proc.subs| && v < |n.proc.pool.workers| ensures SubNoted(n, job, v) {
      assert SubNoted(m, job, v);
    }
  }

  lemma TakeLockNoted(m: Machine, job: Job, f0: seq<byte>, w: nat)
    requires ValidJob(job) && MInv(m, job, f0) && m.proc.Running? && Noted(m, job) && CanTakeLock(m, job, w)
    ensures TakeLockStep(m, job, w).proc.Running? && Noted(TakeLockStep(m, job, w), job)
  {
    var n, i := TakeLockStep(m, job, w), m.proc.pool.workers[w].i;
    WritePossible(m, job, f0);
    IsInside(m, job, w);
    MemoryTruthful(m, job, f0);
    LockEffect(m, job, w, i);
    hide Noted, MInv, CanTakeLock, TakeLockStep, SubStep;
    if n.proc.subs[w] == Locked { LockNoted(m, n, job, w, i); } else { QuietNoted(m, n, job, w); }
  }

  lemma MemoryTruthful(m: Machine, job: Job, f0: seq<byte>)
    requires job.cfg.splitSize >= 1 && MInv(m, job, f0) && m.proc.Running?
    ensures Truthful(m.proc.mem, m.disk, job) && |m.proc.mem.items| == 1
  {
  }

  lemma LockEffect(m: Machine, job: Job, w: nat, i: nat)
    requires CanTakeLock(m, job, w) && i == ChunkOf(m, job, w).index && |m.proc.mem.items| == 1 && m.disk.file == m.disk.file
    ensures var n := TakeLockStep(m, job, w);
            && SubStep(m, n, w) && n.disk == m.disk
            && (if n.proc.subs[w] == Locked then forall j: nat :: Marks(n.proc.mem, j) <==> Marks(m.proc.mem, j) || j == i
                else n.proc.mem == m.proc.mem && n.proc.subs[w] == Bad)
  {
    if Mark(m.proc.mem, 0, i).Some? { MarkIsInsertion(m.proc.mem, 0, i); }
    hide Mark, Marked;
  }

  lemma RenameNoted(m: Machine, job: Job, f0: seq<byte>, w: nat, ok: bool)
    requires ValidJob(job) && MInv(m, job, f0) && m.proc.Running? && Noted(m, job) && CanCheckpoint(m, job, w, TmpReady)
    ensures RenameStep(m, w, ok).proc.Running? && Noted(RenameStep(m, w, ok), job)
  {
    var n := RenameStep(m, w, ok);
    TmpHolds(m, job, f0, w);
    MemoryTruthful(m, job, f0);
    RenameEffect(m, w, ok);
    if ok { StoredMarks(n.disk, m.disk, job, m.proc.mem); }
    hide Noted, MInv, RenameStep, SubStep, Truthful, Marks, Resumed;
    if ok { StoreNoted(m, n, job, w); } else { QuietNoted(m, n, job, w); }
  }

  lemma RenameEffect(m: Machine, w: nat, ok: bool)
    requires m.proc.Running? && w < |m.proc.subs| && m.disk.side.tmp == Some(Whole(m.proc.mem))
    ensures var n := RenameStep(m, w, ok);
            && SubStep(m, n, w) && n.proc.mem == m.proc.mem && n.disk.file == m.disk.file
            && n.proc.subs[w] == (if ok then Stored else Bad)
            && n.disk.side.sidecar == if ok then Some(Whole(m.proc.mem)) else m.disk.side.sidecar
  {
  }

  lemma TmpHolds(m: Machine, job: Job, f0: seq<byte>, w: nat)
    requires ValidJob(job) && MInv(m, job, f0) && CanCheckpoint(m, job, w, TmpReady)
    ensures m.disk.side.tmp == Some(Whole(m.proc.mem)) && w < |m.proc.pool.workers|
  {
    assert SubOK(m, job, w);
  }

  /** The other steps inside WriteChunk leave the sidecar and the state in memory alone. */
  lemma QuietStep(m: Machine, e: F.Event, job: Job)
    requires job.cfg.splitSize >= 1 && ValidConfig(job.cfg) && m.proc.Running? && F.Enabled(m, e, job)
    requires IsWrite(e) && !e.TakeLock? && !e.RenameTheTmp?
    ensures var n := F.Apply(m, e, job);
            && SubStep(m, n, e.w) && n.proc.mem == m.proc.mem && n.disk.side.sidecar == m.disk.side.sidecar
            && (m.disk.file.Some? ==> n.disk.file.Some?)
            && (n.proc.subs[e.w] == m.proc.subs[e.w] || n.proc.subs[e.w].Writing? || n.proc.subs[e.w] == Bad ||
                (n.proc.subs[e.w] == TmpReady && m.proc.subs[e.w] == Locked))
  {
    hide WriteAt, WorkerPool.Apply;
  }

  lemma WriteNoted(m: Machine, e: F.Event, job: Job, f0: seq<byte>)
    requires ValidJob(job) && MInv(m, job, f0) && m.proc.Running? && Noted(m, job) && F.Enabled(m, e, job) && IsWrite(e)
    ensures F.Apply(m, e, job).proc.Running? && Noted(F.Apply(m, e, job), job)
  {
    if e.TakeLock? {
      hide MInv, Noted, TakeLockStep;
      TakeLockNoted(m, job, f0, e.w);
    } else if e.RenameTheTmp? {
      hide MInv, Noted, RenameStep;
      RenameNoted(m, job, f0, e.w, e.ok);
    } else {
      QuietStep(m, e, job);
      FileThere(m, job);
      hide *;
      QuietNoted(m, F.Apply(m, e, job), job, e.w);
    }
  }

  lemma FileThere(m: Machine, job: Job)
    requires m.proc.Running? && Noted(m, job)
    ensures m.disk.file.Some?
  {
  }

  // ----- calls

  lemma CallAchieves(m: Machine, job: Job, pe: WorkerPool.Event, i: nat)
    requires m.proc.Running? && Noted(m, job) && CanCall(m, pe) && |m.proc.subs| == |m.proc.pool.workers|
    requires Achieved(OfPoolStep(m, pe), i)
    ensures i in Resumed(m.disk, job)
  {
    EventEffects(m.proc.pool, pe);
    hide WorkerPool.Apply, Resumed, Marks;
    if pe.CallDeliver? && pe.ok { assert SubNoted(m, job, pe.w); }
    assert Achieved(m, i) || (pe.CallDeliver? && pe.ok && i == m.proc.pool.workers[pe.w].i);
  }

  lemma CallSub(m: Machine, job: Job, pe: WorkerPool.Event, v: nat)
    requires m.proc.Running? && Noted(m, job) && CanCall(m, pe) && v < |m.proc.subs| == |m.proc.pool.workers|
    requires m.proc.subs[v] != Writing(0) ==> Stands(m.proc.pool, v, Delivering)
    requires v < |OfPoolStep(m, pe).proc.pool.workers|
    ensures v < |OfPoolStep(m, pe).proc.subs| && SubNoted(OfPoolStep(m, pe), job, v)
  {
    assert SubNoted(m, job, v);
    if !(pe.CallDeliver? && pe.w == v) && m.proc.subs[v] != Writing(0) { DeliveringStays(m.proc.pool, pe, v); }
    hide WorkerPool.Apply, WorkerPool.Enabled, Resumed, Marks, Achieved;
  }

  lemma CallNoted(m: Machine, job: Job, f0: seq<byte>, pe: WorkerPool.Event)
    requires ValidJob(job) && MInv(m, job, f0) && m.proc.Running? && Noted(m, job) && CanCall(m, pe)
    ensures Noted(OfPoolStep(m, pe), job)
  {
    var n := OfPoolStep(m, pe);
    SameWorkers(m.proc.pool, pe);
    InsideDelivers(m, job, f0);
    CallEffect(m, pe);
    hide *;
    forall i: nat | Achieved(n, i) ensures i in Resumed(m.disk, job) { CallAchieves(m, job, pe, i); }
    forall v: nat | v < |n.proc.subs| && v < |n.proc.pool.workers| ensures SubNoted(n, job, v) { CallSub(m, job, pe, v); }
    StillNoted(m, n, job);
  }

  lemma CallEffect(m: Machine, pe: WorkerPool.Event)
    requires CanCall(m, pe)
    ensures var n := OfPoolStep(m, pe);
            && m.proc.Running? && n.proc.Running? && n.disk == m.disk && n.proc.mem == m.proc.mem && |n.proc.subs| == |m.proc.subs|
            && n.proc.pool == WorkerPool.Apply(m.proc.pool, pe) && WorkerPool.Enabled(m.proc.pool, pe)
  {
    hide WorkerPool.Apply, WorkerPool.Enabled;
  }

  lemma StillNoted(m: Machine, n: Machine, job: Job)
    requires m.proc.Running? && n.proc.Running? && Noted(m, job) && n.disk == m.disk && n.proc.mem == m.proc.mem
    requires forall i: nat :: Achieved(n, i) ==> i in Resumed(m.disk, job)
    requires forall v: nat :: v < |n.proc.subs| && v < |n.proc.pool.workers| ==> SubNoted(n, job, v)
    ensures Noted(n, job)
  {
    hide Achieved, SubNoted, Marks, Resumed;
  }

  lemma InsideDelivers(m: Machine, job: Job, f0: seq<byte>)
    requires job.cfg.splitSize >= 1 && MInv(m, job, f0) && m.proc.Running?
    ensures |m.proc.subs| == |m.proc.pool.workers|
    ensures forall w: nat :: w < |m.proc.subs| && m.proc.subs[w] != Writing(0) ==> Stands(m.proc.pool, w, Delivering)
  {
    forall w: nat | w < |m.proc.subs| && m.proc.subs[w] != Writing(0) ensures Stands(m.proc.pool, w, Delivering) {
      assert SubOK(m, job, w);
    }
  }

  lemma StepRecorded(m: Machine, e: F.Event, job: Job, f0: seq<byte>)
    requires ValidJob(job) && MInv(m, job, f0) && Recorded(m, job) && F.Enabled(m, e, job)
    ensures Recorded(F.Apply(m, e, job), job)
  {
    if IsWrite(e) {
      WriteNoted(m, e, job, f0);
    } else if Preparing(m) && !e.Interrupt? {
      PrepareRecorded(m, e, job, f0);
    } else {
      OtherRecorded(m, e, job, f0);
    }
  }

  lemma OtherRecorded(m: Machine, e: F.Event, job: Job, f0: seq<byte>)
    requires ValidJob(job) && MInv(m, job, f0) && Recorded(m, job) && F.Enabled(m, e, job) && !IsWrite(e)
    requires !(Preparing(m) && !e.Interrupt?)
    ensures Recorded(F.Apply(m, e, job), job)
  {
    hide MInv, Resumed, Marked;
    match e
    case StartRun(removed) => BeginRecorded(m.disk, job, removed); hide Begin, Noted;
    case OfPool(pe) => CallNoted(m, job, f0, pe); hide Noted, OfPoolStep;
    case _ => hide Begin, OfPoolStep;
  }

  lemma {:induction false} RunRecorded(m: Machine, es: seq<F.Event>, job: Job, f0: seq<byte>)
    requires ValidJob(job) && MInv(m, job, f0) && Recorded(m, job) && F.Legal(m, es, job)
    ensures Recorded(F.Exec(m, es, job), job)
    decreases |es|
  {
    hide MInv, F.Apply, F.Enabled, Recorded;
    if es != [] {
      StepKeepsDisk(m, es[0], job, f0);
      StepRecorded(m, es[0], job, f0);
      RunRecorded(F.Apply(m, es[0], job), es[1..], job, f0);
    }
  }

  /** No progress is lost. After any history of runs, each stopped at any step: while a run is under way, every chunk that
      was complete when it began, or that its sink has accepted since, is one the next run would resume with; so a stop
      at this moment costs none of them. */
  lemma ProgressIsKept(d: Disk, job: Job, es: seq<F.Event>, i: nat, removed: bool)
    requires ValidJob(job) && DiskSafe(d, job) && F.Legal(Machine(d, Down), es, job)
    requires Achieved(F.Exec(Machine(d, Down), es, job), i)
    ensures var m := F.Exec(Machine(d, Down), es, job);
            && m.disk.file.Some? && i in Resumed(m.disk, job)
            && var next := Begin(m.disk, job, removed);
            !next.proc.Down? ==> i < |next.proc.plan| && next.proc.plan[i].state == Completed
  {
    var m := F.Exec(Machine(d, Down), es, job);
    FX.Start(d, job);
    DownRecorded(d, job);
    RunsKeepDisk(Machine(d, Down), es, job, FileOf(d));
    RunRecorded(Machine(d, Down), es, job, FileOf(d));
    hide F.Exec, F.Legal;
    PlanSize(m, job, FileOf(d));
    hide MInv;
    BeginPlan(m.disk, job, removed);
    PlanIsLayout(|job.src|, job.cfg.splitSize);
    hide Begin, Resumed;
  }

  lemma PlanSize(m: Machine, job: Job, f0: seq<byte>)
    requires job.cfg.splitSize >= 1 && MInv(m, job, f0) && m.proc.Running?
    ensures |m.proc.plan| == |FullPlan(job)|
  {
  }

  // ----- the path of success

  /** A step that fails, and the end of a run whose workers failed. */
  predicate Fails(e: F.Event) {
    match e
    case WriteNew(ok) => !ok
    case RenameNew(ok) => !ok
    case OpenDest(ok, _) => !ok
    case Sync(ok) => !ok
    case RemoveSidecar(ok) => !ok
    case GiveUp => true
    case Interrupt => true
    case _ => false
  }

  predicate Over(p: Proc) {
    p.Down? || (p.Returned? && !p.ok)
  }

  lemma StepOver(m: Machine, e: F.Event, job: Job)
    requires ValidConfig(job.cfg) && F.Enabled(m, e, job) && !e.StartRun? && (Over(m.proc) || Fails(e))
    ensures Over(F.Apply(m, e, job).proc)
  {
    hide WorkerPool.Apply, WorkerPool.Enabled;
  }

  lemma {:induction false} StaysOver(m: Machine, es: seq<F.Event>, job: Job)
    requires ValidConfig(job.cfg) && F.Legal(m, es, job) && (forall e :: e in es ==> !e.StartRun?) && Over(m.proc)
    ensures Over(F.Exec(m, es, job).proc)
    decreases |es|
  {
    if es != [] {
      assert es[0] in es && forall e :: e in es[1..] ==> e in es;
      StepOver(m, es[0], job);
      hide F.Apply, F.Enabled, Over;
      StaysOver(F.Apply(m, es[0], job), es[1..], job);
    }
  }

  ghost predicate Opens(es: seq<F.Event>) {
    exists e :: e in es && e.OpenDest? && e.ok
  }

  /** What a run still has to do to succeed. */
  ghost predicate Completes(p: Proc, es: seq<F.Event>) {
    && (!p.Returned? ==> RemoveSidecar(true) in es)
    && (p.Creating? || p.OpeningFile? || p.Running? ==> Sync(true) in es)
    && (p.Creating? || p.OpeningFile? ==> Opens(es))
    && (p.Creating? ==> RenameNew(true) in es)
    && (p.Creating? && !p.tmpReady ==> WriteNew(true) in es)
  }

  lemma StepCompletes(m: Machine, e: F.Event, job: Job, rest: seq<F.Event>)
    requires ValidConfig(job.cfg) && F.Enabled(m, e, job) && !e.StartRun? && !Over(m.proc) && !Fails(e)
    requires Completes(F.Apply(m, e, job).proc, rest)
    ensures Completes(m.proc, [e] + rest)
  {
    hide WorkerPool.Apply, WorkerPool.Enabled;
    assert e in [e] + rest && forall x :: x in rest ==> x in [e] + rest;
  }

  /** Success has one path. A run that has begun and reports success has written and renamed its new sidecar, opened the
      destination, synced it and removed the sidecar, and none of these, nor the workers, failed. */
  lemma {:induction false} SuccessPath(m: Machine, es: seq<F.Event>, job: Job)
    requires ValidConfig(job.cfg) && F.Legal(m, es, job) && forall e :: e in es ==> !e.StartRun?
    requires F.Exec(m, es, job).proc.Returned? && F.Exec(m, es, job).proc.ok
    ensures forall e :: e in es ==> !Fails(e)
    ensures Completes(m.proc, es)
    decreases |es|
  {
    if Over(m.proc) { StaysOver(m, es, job); }
    if es != [] {
      assert es[0] in es && forall e :: e in es[1..] ==> e in es;
      assert es == [es[0]] + es[1..];
      var n := F.Apply(m, es[0], job);
      hide F.Apply, F.Enabled, Completes, Fails;
      if Fails(es[0]) {
        StepOver(m, es[0], job);
        StaysOver(n, es[1..], job);
      }
      SuccessPath(n, es[1..], job);
      StepCompletes(m, es[0], job, es[1..]);
      assert forall e :: e in es ==> e == es[0] || e in es[1..];
    }
  }
}
