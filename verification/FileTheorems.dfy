/** What survives on disk, and what success means, for downloads to a file. */
module FileTheorems {
  import opened Basics
  import opened Chunks
  import opened WorkerPool
  import opened PoolInvariants
  import opened PoolTheorems
  import opened Streaming
  import opened Positional
  import opened Bitmap
  import opened Sidecar
  import opened F = FileTransfer
  import opened FileSafety

  // ----- the theorems

  lemma Start(d: Disk, job: Job)
    requires ValidJob(job) && DiskSafe(d, job)
    ensures MInv(Machine(d, Down), job, FileOf(d))
  {
  }

  /** Interrupted-run safety. Whatever runs are started, and wherever each is stopped: a sidecar that the next run
      would resume from marks only chunks whose bytes are all in place in the file, and no byte outside the object's
      segment of the file has changed. */
  lemma InterruptedRunSafety(d: Disk, job: Job, es: seq<F.Event>)
    requires ValidJob(job) && DiskSafe(d, job) && F.Legal(Machine(d, Down), es, job)
    ensures var d' := F.Exec(Machine(d, Down), es, job).disk;
            && DiskSafe(d', job)
            && (forall i :: i in Resumed(d', job) && i < |FullPlan(job)| ==> ChunkInPlace(d', job, i))
            && OutsideSame(FileOf(d'), FileOf(d), job.base, |job.src|)
  {
    Start(d, job);
    RunsKeepDisk(Machine(d, Down), es, job, FileOf(d));
    ResumedInPlace(F.Exec(Machine(d, Down), es, job).disk, job);
  }

  /** Whenever a worker is inside WriteChunk, its chunk lies in the object and the sidecar in memory is valid, so that
      each of its steps is defined. */
  lemma WritesDefined(d: Disk, job: Job, es: seq<F.Event>, w: nat)
    requires ValidJob(job) && DiskSafe(d, job) && F.Legal(Machine(d, Down), es, job)
    ensures var m := F.Exec(Machine(d, Down), es, job);
            m.proc.Running? && Stands(m.proc.pool, w, Delivering) ==> AtDelivery(m, job, w) && ValidState(m.proc.mem)
  {
    Start(d, job);
    RunsKeepDisk(Machine(d, Down), es, job, FileOf(d));
    hide *;
    InsideDefined(F.Exec(Machine(d, Down), es, job), job, FileOf(d), w);
  }

  lemma InsideDefined(m: Machine, job: Job, f0: seq<byte>, w: nat)
    requires ValidConfig(job.cfg) && MInv(m, job, f0)
    ensures m.proc.Running? && Stands(m.proc.pool, w, Delivering) ==> AtDelivery(m, job, w) && ValidState(m.proc.mem)
  {
    if m.proc.Running? && Stands(m.proc.pool, w, Delivering) {
      WritePossible(m, job, f0);
      DeliveryInRange(m.proc.pool, m.proc.plan, w);
      InsideOfPlan(m, job, w);
    }
  }

  lemma InsideOfPlan(m: Machine, job: Job, w: nat)
    requires ValidConfig(job.cfg) && m.proc.Running? && Stands(m.proc.pool, w, Delivering) && AsPlanned(m.proc.pool, job)
    requires SubsOK(m, job) && m.proc.pool.workers[w].i < |m.proc.pool.sched.chunks| && Truthful(m.proc.mem, m.disk, job)
    ensures AtDelivery(m, job, w) && ValidState(m.proc.mem)
  {
    ChunkInObject(job, m.proc.pool.workers[w].i);
  }

  lemma DeliveryInRange(p: Pool, plan: seq<Chunk>, w: nat)
    requires Inv(p, plan) && Stands(p, w, Delivering)
    ensures p.workers[w].i < |p.sched.chunks|
  {
  }

  /** The chunks a run started on this disk would not transfer again. */
  function Resumed(d: Disk, job: Job): set<nat> {
    match Loaded(d.side)
    case None => {}
    case Some(st) => if st.items == [] || st.items[0].length != |job.src| then {} else ResumeSet(st.items)
  }

  lemma ResumedInPlace(d: Disk, job: Job)
    requires job.cfg.splitSize >= 1 && DiskSafe(d, job)
    ensures forall i :: i in Resumed(d, job) && i < |FullPlan(job)| ==> ChunkInPlace(d, job, i)
  {
    if Resumed(d, job) != {} { ResumeOne(Loaded(d.side).value.items); }
  }

  /** The state the process would write out next. */
  function Memory(m: Machine): Option<SideState> {
    if m.proc.Creating? || m.proc.OpeningFile? || m.proc.Running? then Some(m.proc.mem) else None
  }

  /** At every single step the sidecar stays as it is, disappears, or becomes the whole state held in memory: it is
      never torn, and the new state too marks only chunks in place. */
  lemma SidecarAtomic(d: Disk, job: Job, es: seq<F.Event>, e: F.Event)
    requires ValidJob(job) && DiskSafe(d, job) && F.Legal(Machine(d, Down), es, job)
    requires F.Enabled(F.Exec(Machine(d, Down), es, job), e, job)
    ensures var m := F.Exec(Machine(d, Down), es, job);
            var before, after := m.disk.side.sidecar, F.Apply(m, e, job).disk.side.sidecar;
            || after == before || after == None
            || (Memory(m).Some? && after == Some(Whole(Memory(m).value)) && Truthful(Memory(m).value, m.disk, job))
  {
    var m := F.Exec(Machine(d, Down), es, job);
    Start(d, job);
    RunsKeepDisk(Machine(d, Down), es, job, FileOf(d));
    hide F.Exec, F.Legal;
    OneStepAtomic(m, e, job, FileOf(d));
  }

  lemma OneStepAtomic(m: Machine, e: F.Event, job: Job, f0: seq<byte>)
    requires ValidJob(job) && MInv(m, job, f0) && F.Enabled(m, e, job)
    ensures var before, after := m.disk.side.sidecar, F.Apply(m, e, job).disk.side.sidecar;
            || after == before || after == None
            || (Memory(m).Some? && after == Some(Whole(Memory(m).value)) && Truthful(Memory(m).value, m.disk, job))
  {
    hide Truthful, DoneInPlace, Inv, Grounded, WorkerPool.Apply, WorkerPool.Enabled;
    if e.RenameTheTmp? {
      assert SubOK(m, job, e.w);
    }
  }

  lemma Covered(d: Disk, job: Job)
    requires job.cfg.splitSize >= 1 && AllInPlace(d, job)
    ensures RightRange(FileOf(d), job.base, job.src, 0, |job.src|)
  {
    forall o: nat | o < |job.src| ensures RightByte(FileOf(d), job.base, job.src, o) {
      var i := o / job.cfg.splitSize;
      EveryByteInOneChunk(|job.src|, job.cfg.splitSize, o, 0);
      EveryByteInOneChunk(|job.src|, job.cfg.splitSize, o, i);
      assert ChunkInPlace(d, job, i);
    }
  }

  /** The chunks of `done` are the first few of n, without a gap. */
  ghost predicate PrefixSet(done: set<nat>, n: nat) {
    exists p: nat :: FirstFew(done, n, p)
  }

  ghost predicate FirstFew(done: set<nat>, n: nat, p: nat) {
    p <= n && forall i: nat :: i < n ==> (i in done <==> i < p)
  }

  /** The plan of a run has a completed prefix and nothing complete behind it exactly when the bitmap it resumed
      from had no gap. */
  lemma PrefixBitmap(plan: seq<Chunk>, done: set<nat>)
    requires forall i :: 0 <= i < |plan| ==> plan[i].state == Pending && plan[i].index == i
    ensures IsPrefix(MarkPlan(plan, done)) <==> PrefixSet(done, |plan|)
  {
    var marked := MarkPlan(plan, done);
    var next := Prefix(marked);
    assert forall i: nat :: i < |plan| ==> (i in done <==> marked[i].state == Completed);
    if IsPrefix(marked) {
      assert FirstFew(done, |plan|, next);
    }
    if PrefixSet(done, |plan|) {
      var p: nat :| FirstFew(done, |plan|, p);
      if next < p { assert next in done; }
    }
  }

  /** A run that starts afresh has no gaps. */
  lemma FreshIsPrefix(job: Job)
    requires job.cfg.splitSize >= 1
    ensures IsPrefix(MarkPlan(FullPlan(job), {})) && G.GapsHarmless(job.cfg, MarkPlan(FullPlan(job), {}))
  {
    PlanIsLayout(|job.src|, job.cfg.splitSize);
    assert FirstFew({}, |FullPlan(job)|, 0);
    PrefixBitmap(FullPlan(job), {});
  }

  function PlanIn(p: Proc): Option<seq<Chunk>> {
    if p.Down? then None else Some(p.plan)
  }

  /** Until it stops, a run keeps its plan. */
  lemma {:induction false} PlanFixed(m: Machine, es: seq<F.Event>, job: Job)
    requires ValidConfig(job.cfg) && F.Legal(m, es, job) && forall e :: e in es ==> !e.StartRun?
    ensures PlanIn(F.Exec(m, es, job).proc) in {None, PlanIn(m.proc)}
    decreases |es|
  {
    if es != [] {
      assert es[0] in es && forall e :: e in es[1..] ==> e in es;
      PlanKept(m, es[0], job);
      hide F.Apply, F.Enabled;
      PlanFixed(F.Apply(m, es[0], job), es[1..], job);
    }
  }

  lemma PlanKept(m: Machine, e: F.Event, job: Job)
    requires ValidConfig(job.cfg) && F.Enabled(m, e, job) && !e.StartRun?
    ensures PlanIn(F.Apply(m, e, job).proc) in {None, PlanIn(m.proc)}
  {
    hide WorkerPool.Apply, WorkerPool.Enabled;
  }

  lemma BeginPlan(d: Disk, job: Job, removed: bool)
    requires job.cfg.splitSize >= 1
    ensures PlanIn(Begin(d, job, removed).proc) in {None, Some(MarkPlan(FullPlan(job), Resumed(d, job)))}
  {
  }

  /** File success is exact. After any history of interrupted runs, a run that resumes from a bitmap whose gaps are
      harmless (in particular one without gaps, or none at all) and reports success leaves the whole object in its segment of the file
      and everything outside as it was; a new file is the object itself exactly when the segment starts at 0. */
  lemma FileSuccessIsExact(d: Disk, job: Job, history: seq<F.Event>, removed: bool, run: seq<F.Event>)
    requires ValidJob(job) && DiskSafe(d, job) && F.Legal(Machine(d, Down), history, job)
    requires var m := F.Exec(Machine(d, Down), history, job);
             && m.proc.Down? && G.GapsHarmless(job.cfg, MarkPlan(FullPlan(job), Resumed(m.disk, job)))
             && F.Legal(F.Apply(m, StartRun(removed), job), run, job)
             && (forall e :: e in run ==> !e.StartRun?)
             && var end := F.Exec(F.Apply(m, StartRun(removed), job), run, job);
                end.proc.Returned? && end.proc.ok
    ensures var m := F.Exec(Machine(d, Down), history, job);
            var file := FileOf(F.Exec(F.Apply(m, StartRun(removed), job), run, job).disk);
            && job.base + |job.src| <= |file| && file[job.base..job.base + |job.src|] == job.src
            && OutsideSame(file, FileOf(d), job.base, |job.src|)
            && (FileOf(d) == [] ==> file == Zeros(job.base) + job.src && (file == job.src <==> job.base == 0))
  {
    var m := F.Exec(Machine(d, Down), history, job);
    var m1 := F.Apply(m, StartRun(removed), job);
    Start(d, job);
    RunsKeepDisk(Machine(d, Down), history, job, FileOf(d));
    StepKeepsDisk(m, StartRun(removed), job, FileOf(d));
    RunsKeepDisk(m1, run, job, FileOf(d));
    var end := F.Exec(m1, run, job);
    PlanFixed(m1, run, job);
    BeginPlan(m.disk, job, removed);
    hide F.Exec, F.Legal, F.Apply, F.Enabled, Begin, Grounded, PlanFits, Layout, FullPlan, MarkPlan, G.GapsHarmless;
    SuccessInPlace(end, job, FileOf(d));
  }

  lemma SuccessInPlace(m: Machine, job: Job, f0: seq<byte>)
    requires ValidJob(job) && MInv(m, job, f0) && m.proc.Returned? && m.proc.ok && G.GapsHarmless(job.cfg, m.proc.plan)
    ensures var file := FileOf(m.disk);
            && job.base + |job.src| <= |file| && file[job.base..job.base + |job.src|] == job.src
            && OutsideSame(file, f0, job.base, |job.src|)
            && (f0 == [] ==> file == Zeros(job.base) + job.src && (file == job.src <==> job.base == 0))
  {
    Covered(m.disk, job);
    SegmentIsSource(FileOf(m.disk), job.base, job.src);
    if f0 == [] { NewFile(FileOf(m.disk), job.base, job.src); }
  }

  // ----- how a run begins and how it ends

  /** The state of a sidecar from which a run resumes. */
  ghost predicate ResumesFrom(d: Disk, job: Job, st: SideState) {
    d.side.sidecar == Some(Whole(st)) && st.version == 1 && st.items != [] && st.items[0].length == |job.src|
  }

  ghost predicate MarkedBy(items: seq<Item>, i: nat) {
    exists k :: 0 <= k < |items| && i in Marked(items[k].bitmap)
  }

  lemma {:induction false} InSomeBitmap(items: seq<Item>, i: nat)
    ensures i in ResumeSet(items) <==> MarkedBy(items, i)
  {
    if items != [] {
      InSomeBitmap(items[1..], i);
      assert forall k :: 1 <= k < |items| ==> items[k] == items[1..][k - 1];
      if MarkedBy(items[1..], i) {
        var k :| 0 <= k < |items[1..]| && i in Marked(items[1..][k].bitmap);
        assert items[k + 1] == items[1..][k];
      }
      hide Marked;
    }
  }

  /** The run has its plan, with exactly these chunks complete; it has nothing to do, or is about to store them. */
  ghost predicate Planned(d: Disk, m: Machine, job: Job, done: set<nat>)
    requires job.cfg.splitSize >= 1
  {
    && !m.proc.Down? && m.disk.file == d.file && |m.proc.plan| == |FullPlan(job)|
    && (forall i: nat :: i < |m.proc.plan| ==>
          m.proc.plan[i] == FullPlan(job)[i].(state := if i in done then Completed else Pending))
    && (if forall i: nat :: i < |m.proc.plan| ==> i in done then m.proc == Returned(m.proc.plan, true)
        else
          && m.proc.Creating? && !m.proc.tmpReady && |m.proc.mem.items| == 1 && m.proc.mem.version == 1
          && var item := m.proc.mem.items[0];
          && item == Item(job.base, |job.src|, job.cfg.splitSize, item.bitmap, false)
          && forall i: nat :: i in Marked(item.bitmap) <==> i < |FullPlan(job)| && i in done)
  }

  lemma PlanPlanned(d0: Disk, d: Disk, job: Job, done: set<nat>, removed: bool)
    requires ValidJob(job) && d.file == d0.file
    ensures Planned(d0, Plan(d, job, done, removed), job, done)
  {
    PlanIsLayout(|job.src|, job.cfg.splitSize);
    FreshMarks(job, done);
    hide FreshState, Marked;
  }

  lemma FreshMarks(job: Job, done: set<nat>)
    requires job.cfg.splitSize >= 1
    ensures var st := FreshState(job, done);
            && st.version == 1 && |st.items| == 1
            && st.items[0] == Item(job.base, |job.src|, job.cfg.splitSize, st.items[0].bitmap, false)
            && forall i: nat :: i in Marked(st.items[0].bitmap) <==> i < |FullPlan(job)| && i in done
  {
    var flags := seq(|FullPlan(job)|, i requires 0 <= i < |FullPlan(job)| => i in done);
    EncodedPacks(flags);
    hide FullPlan;
  }

  lemma FreshlyPlanned(d0: Disk, d: Disk, job: Job, removed: bool)
    requires ValidJob(job) && d.file == d0.file
    ensures Planned(d0, Plan(d, job, {}, removed), job, {}) && Plan(d, job, {}, removed).disk == d
  {
    PlanPlanned(d0, d, job, {}, removed);
    PlanIsLayout(|job.src|, job.cfg.splitSize);
    assert FullPlan(job) != [];
  }

  /** Which state a run begins from: that of a whole sidecar of the current version with items for this length. */
  lemma BeginsFrom(d: Disk, job: Job, removed: bool, st: SideState)
    requires ValidJob(job) && ResumesFrom(d, job, st)
    ensures Begin(d, job, removed) == if ValidState(st) then Plan(d, job, ResumeSet(st.items), removed) else Machine(d, Down)
  {
    hide Plan, ResumeSet;
  }

  /** A sidecar of the current version, if there is one, has items, but for another length. */
  ghost predicate Stale(d: Disk, job: Job) {
    forall st :: d.side.sidecar == Some(Whole(st)) && st.version == 1 ==> st.items != [] && st.items[0].length != |job.src|
  }

  lemma BeginsStale(d: Disk, job: Job, removed: bool)
    requires ValidJob(job) && Stale(d, job)
    ensures var dropped := d.(side := if removed then d.side.(sidecar := None) else d.side);
            Begin(d, job, removed) == Plan(dropped, job, {}, removed)
  {
    hide Plan, ResumeSet;
    assert d.side.sidecar.None? ==> d.side.(sidecar := None) == d.side;
  }

  /** How a run begins. A sidecar that is whole, of the current version, and of an object of this length is resumed from:
      exactly the chunks marked in any of its items are complete, and the file is left as it is. One that is torn, of
      another version or for another length is removed, if it can be, and every chunk is pending. A sidecar without
      items, or one resumed from with a split size of zero, stops the process. */
  lemma BeginsExactly(d: Disk, job: Job, removed: bool)
    requires ValidJob(job)
    ensures var m := Begin(d, job, removed);
            && (forall st :: ResumesFrom(d, job, st) ==>
                  if ValidState(st) then
                    Planned(d, m, job, ResumeSet(st.items)) && forall i: nat :: i in ResumeSet(st.items) <==> MarkedBy(st.items, i)
                  else m == Machine(d, Down))
            && (forall st :: d.side.sidecar == Some(Whole(st)) && st.version == 1 && st.items == [] ==> m == Machine(d, Down))
            && (Stale(d, job) ==>
                  Planned(d, m, job, {}) && m.disk.side == if removed then d.side.(sidecar := None) else d.side)
  {
    forall st | ResumesFrom(d, job, st)
      ensures if ValidState(st) then
                Planned(d, Begin(d, job, removed), job, ResumeSet(st.items)) && forall i: nat :: i in ResumeSet(st.items) <==> MarkedBy(st.items, i)
              else Begin(d, job, removed) == Machine(d, Down)
    {
      BeginsFrom(d, job, removed, st);
      if ValidState(st) { PlanPlanned(d, d, job, ResumeSet(st.items), removed); }
      forall i: nat ensures i in ResumeSet(st.items) <==> MarkedBy(st.items, i) { InSomeBitmap(st.items, i); }
      hide Plan, Planned, Begin, ResumeSet, MarkedBy;
    }
    if Stale(d, job) {
      BeginsStale(d, job, removed);
      FreshlyPlanned(d, d.(side := if removed then d.side.(sidecar := None) else d.side), job, removed);
    }
    hide Plan, Planned, ResumeSet, MarkedBy;
  }

  /** A run that had something to do and reports success leaves no sidecar behind. */
  lemma {:induction false} SuccessCleansUp(m: Machine, es: seq<F.Event>, job: Job)
    requires ValidConfig(job.cfg) && F.Legal(m, es, job) && (forall e :: e in es ==> !e.StartRun?)
    requires m.proc.Returned? && m.proc.ok ==> m.disk.side.sidecar == None
    ensures var n := F.Exec(m, es, job); n.proc.Returned? && n.proc.ok ==> n.disk.side.sidecar == None
    decreases |es|
  {
    if es != [] {
      assert es[0] in es && forall e :: e in es[1..] ==> e in es;
      StepCleansUp(m, es[0], job);
      hide F.Apply, F.Enabled;
      SuccessCleansUp(F.Apply(m, es[0], job), es[1..], job);
    }
  }

  lemma StepCleansUp(m: Machine, e: F.Event, job: Job)
    requires ValidConfig(job.cfg) && F.Enabled(m, e, job) && !e.StartRun?
    requires m.proc.Returned? && m.proc.ok ==> m.disk.side.sidecar == None
    ensures var n := F.Apply(m, e, job); n.proc.Returned? && n.proc.ok ==> n.disk.side.sidecar == None
  {
    hide WorkerPool.Apply, WorkerPool.Enabled;
  }
}
