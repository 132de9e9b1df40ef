/** Downloads to a file from any disk that earlier runs have left: a run that is started can always succeed. And what an
    interrupted run on an empty disk can leave behind: a sidecar whose gaps are not harmless. */
module FileRecovery {
  import opened Basics
  import opened Chunks
  import opened WorkerPool
  import opened PoolInvariants
  import opened Scheduling
  import opened Streaming
  import opened Bitmap
  import opened Sidecar
  import opened FileResume
  import R = Recovery
  import G = ResumeGaps
  import F = FileTransfer
  import FS = FileSafety
  import FX = FileTheorems

  // ----- the disk can follow any run of the pool

  lemma FollowOne(m0: F.Machine, m: F.Machine, job: F.Job, p: Pool, pe: Event, f0: seq<byte>) returns (n: F.Machine)
    requires F.ValidJob(job) && Reaches(m0, m, job) && Idle(m, p) && FS.MInv(m, job, f0) && Enabled(p, pe)
    ensures Reaches(m0, n, job) && Idle(n, Apply(p, pe))
  {
    if pe.CallDeliver? {
      hide FS.MInv, Reaches, F.FullPlan, Apply;
      FileResume.Delivery(m, job, f0, pe.w);
      hide F.AtDelivery, Mark, F.Deposit;
      if pe.ok { n := GoodDelivery(m0, m, job, p, pe.w); } else { n := FailedDelivery(m0, m, job, p, pe.w); }
    } else {
      hide FS.MInv, Reaches, F.FullPlan, Apply, Enabled;
      n := FollowOther(m0, m, job, p, pe);
    }
  }

  lemma {:induction false} FollowRun(m0: F.Machine, m: F.Machine, job: F.Job, p: Pool, es: seq<Event>, f0: seq<byte>) returns (n: F.Machine)
    requires F.ValidJob(job) && Reaches(m0, m, job) && Idle(m, p) && Legal(p, es)
    requires forall k :: Reaches(m0, k, job) ==> FS.MInv(k, job, f0)
    ensures Reaches(m0, n, job) && Idle(n, Exec(p, es))
    decreases |es|
  {
    if es == [] {
      n := m;
    } else {
      assert FS.MInv(m, job, f0);
      hide FS.MInv, Reaches, Idle, Apply, Enabled, F.FullPlan;
      var k := FollowOne(m0, m, job, p, es[0], f0);
      n := FollowRun(m0, k, job, Apply(p, es[0]), es[1..], f0);
    }
  }

  // ----- every run can succeed

  lemma BegunPlan(d: F.Disk, job: F.Job, removed: bool)
    requires F.ValidJob(job)
    ensures var m := F.Begin(d, job, removed);
            && (m.proc.Down? || m.proc.Returned? || m.proc.Creating?)
            && (m.proc.Returned? ==> m.proc.ok)
            && (m.proc.Creating? ==> !m.proc.tmpReady && ValidPlan(m.proc.plan))
  {
    PlanIsLayout(|job.src|, job.cfg.splitSize);
    hide F.ResumeSet, F.FreshState;
  }

  lemma FreshLive(cfg: Config, plan: seq<Chunk>)
    requires ValidConfig(cfg) && !cfg.streamMode
    ensures R.Live(Init(cfg, plan, 0)) && Legal(Init(cfg, plan, 0), []) && Exec(Init(cfg, plan, 0), []) == Init(cfg, plan, 0)
  {
  }

  /** From every disk that keeps the invariant (so after any history of interrupted runs) and on which a run starts at
      all, some run goes on to report success. */
  lemma DownloadCanSucceed(d: F.Disk, job: F.Job, removed: bool) returns (run: seq<F.Event>)
    requires F.ValidJob(job) && FS.DiskSafe(d, job) && !F.Begin(d, job, removed).proc.Down?
    ensures SuccessfulRun(d, removed, run, job)
  {
    var m0 := F.Begin(d, job, removed);
    BegunPlan(d, job, removed);
    ReachSelf(m0, job);
    AllKept(d, job, removed);
    hide Reaches, F.Begin, FS.MInv, FS.DiskSafe, R.Live;
    if m0.proc.Returned? {
      run := RunTo(m0, m0, job);
    } else {
      var m := Opened(m0, m0, job);
      var p := Init(job.cfg, m0.proc.plan, 0);
      FreshLive(job.cfg, m0.proc.plan);
      var es := R.CanStillSucceed(job.cfg, m0.proc.plan, 0, []);
      var n := FollowRun(m0, m, job, p, es, F.FileOf(d));
      var e := Closed(m0, n, job);
      run := RunTo(m0, e, job);
    }
  }

  // ----- an interrupted run from an empty disk

  const EMPTY := F.Disk(None, Files(None, None))


  lemma BothAssigned(s: Sched, slot: int)
    requires !s.cancelled && !s.fatal && s.completedCount == 0 && s.activeCount < s.effectiveTarget
    requires s.nextUndispatched < |s.chunks| && (0 <= slot < |s.workers| && s.workers[slot].suppressedUntil == 0)
    requires forall i :: 0 <= i < |s.chunks| ==> s.chunks[i].state != RetryWait
    ensures NextAssignment(s, slot, false, 0) ==
            (Assign(s.(nextUndispatched := s.nextUndispatched + 1), s.nextUndispatched, slot, 0), Assigned(s.nextUndispatched))
  {
    assert FirstRetryable(s.chunks, 0, 0) == |s.chunks|;
  }

  /** The states on the way. */
  ghost predicate Held(p: Pool, cfg: Config, plan: seq<Chunk>, k: nat) {
    && p.sched.cfg == cfg && !cfg.streamMode && !p.rootDone && p.now == 0
    && |p.workers| == |p.sched.workers| == cfg.connections >= 2
    && |p.sched.chunks| == |plan| && k <= 2 <= |plan| && p.sched.nextUndispatched == k == p.sched.activeCount
    && p.sched.completedCount == 0 && p.sched.effectiveTarget >= 2 && !p.sched.cancelled && !p.sched.fatal
    && (forall v :: 0 <= v < |p.sched.workers| ==> p.sched.workers[v].suppressedUntil == 0)
    && (forall i :: 0 <= i < |plan| ==> p.sched.chunks[i].state != RetryWait && p.sched.chunks[i].state != Completed)
    && (forall v :: k <= v < |p.workers| ==> p.workers[v] == Worker(v, Head, p.workers[v].i, false, p.workers[v].ok))
  }

  lemma InitHeld(cfg: Config, plan: seq<Chunk>)
    requires ValidConfig(cfg) && !cfg.streamMode && cfg.connections >= 2 && |plan| >= 2
    requires forall i :: 0 <= i < |plan| ==> plan[i].state == Pending
    ensures Held(Init(cfg, plan, 0), cfg, plan, 0)
  {
    assert InState(plan, Completed) == {};
  }

  lemma OneMoreHeld(p: Pool, cfg: Config, plan: seq<Chunk>, k: nat)
    requires Held(p, cfg, plan, k) && k < 2
    ensures Stands(p, k, Head) && Stands(CheckRootStep(p, k), k, Ask)
    ensures var q := AskStep(CheckRootStep(p, k), k);
            Held(q, cfg, plan, k + 1) && Stands(q, k, Opening) && q.workers[k].i == k && !q.workers[k].hedge
  {
    BothAssigned(p.sched, k);
    hide NextAssignment;
  }

  lemma CanDeliverOne(p: Pool)
    requires Stands(p, 1, Opening)
    ensures Stands(OpenStep(p, 1, true), 1, Reading)
    ensures Stands(ReadStep(OpenStep(p, 1, true), 1, true), 1, Delivering)
    ensures ReadStep(OpenStep(p, 1, true), 1, true).workers[1].i == p.workers[1].i
    ensures ReadStep(OpenStep(p, 1, true), 1, true).sched == p.sched
  {
  }

  /** Worker 0 takes chunk 0 and pauses; worker 1 takes chunk 1 and reads it. */
  lemma TwoTaken(cfg: Config, plan: seq<Chunk>) returns (p1: Pool, p2: Pool, p3: Pool, p4: Pool, p5: Pool, p6: Pool)
    requires ValidConfig(cfg) && !cfg.streamMode && cfg.connections >= 2 && |plan| >= 2
    requires forall i :: 0 <= i < |plan| ==> plan[i].state == Pending
    ensures var p0 := Init(cfg, plan, 0);
            && Enabled(p0, CheckRoot(0)) && Apply(p0, CheckRoot(0)) == p1
            && Enabled(p1, CallNextAssignment(0)) && Apply(p1, CallNextAssignment(0)) == p2
            && Enabled(p2, CheckRoot(1)) && Apply(p2, CheckRoot(1)) == p3
            && Enabled(p3, CallNextAssignment(1)) && Apply(p3, CallNextAssignment(1)) == p4
    ensures Enabled(p4, CallOpenRange(1, true)) && Apply(p4, CallOpenRange(1, true)) == p5
    ensures Enabled(p5, CallReadFull(1, true)) && Apply(p5, CallReadFull(1, true)) == p6
    ensures Stands(p6, 1, Delivering) && 1 < |p6.workers| && p6.workers[1].i == 1
  {
    var p0 := Init(cfg, plan, 0);
    InitHeld(cfg, plan);
    OneMoreHeld(p0, cfg, plan, 0);
    p1 := CheckRootStep(p0, 0);
    p2 := AskStep(p1, 0);
    OneMoreHeld(p2, cfg, plan, 1);
    p3 := CheckRootStep(p2, 1);
    p4 := AskStep(p3, 1);
    CanDeliverOne(p4);
    p5 := OpenStep(p4, 1, true);
    p6 := ReadStep(p5, 1, true);
    assert Stands(p0, 0, Head) && Stands(p1, 0, Ask) && Stands(p2, 1, Head) && Stands(p3, 1, Ask);
    hide *;
    HeadCalls(p0, 0);
    AskCalls(p1, 0);
    HeadCalls(p2, 1);
    AskCalls(p3, 1);
    OpenCalls(p4, 1);
  }

  lemma HeadCalls(p: Pool, w: nat)
    requires Stands(p, w, Head)
    ensures Enabled(p, CheckRoot(w)) && Apply(p, CheckRoot(w)) == CheckRootStep(p, w)
  {
  }

  lemma AskCalls(p: Pool, w: nat)
    requires Stands(p, w, Ask)
    ensures Enabled(p, CallNextAssignment(w)) && Apply(p, CallNextAssignment(w)) == AskStep(p, w)
  {
  }

  lemma OpenCalls(p: Pool, w: nat)
    requires Stands(p, w, Opening) && Stands(OpenStep(p, w, true), w, Reading)
    ensures Enabled(p, CallOpenRange(w, true)) && Apply(p, CallOpenRange(w, true)) == OpenStep(p, w, true)
    ensures var q := OpenStep(p, w, true);
            Enabled(q, CallReadFull(w, true)) && Apply(q, CallReadFull(w, true)) == ReadStep(q, w, true)
  {
  }

  /** ... on the disk: chunk 1 alone is about to be written. */
  lemma UpToDelivery(m0: F.Machine, m: F.Machine, job: F.Job, plan: seq<Chunk>) returns (n: F.Machine, p: Pool)
    requires F.ValidJob(job) && job.cfg.connections >= 2 && |plan| >= 2 && Reaches(m0, m, job)
    requires Idle(m, Init(job.cfg, plan, 0)) && forall i :: 0 <= i < |plan| ==> plan[i].state == Pending
    ensures Reaches(m0, n, job) && n.disk == m.disk && n.proc.Running? && n.proc.mem == m.proc.mem
    ensures Idle(n, p) && Stands(p, 1, Delivering) && 1 < |p.workers| && p.workers[1].i == 1
  {
    var p0 := Init(job.cfg, plan, 0);
    var p1, p2, p3, p4, p5, p6 := TwoTaken(job.cfg, plan);
    assert ValidConfig(job.cfg) && m.proc.Running?;
    hide *;
    var a := StepAlong(m0, m, job, p0, CheckRoot(0));
    var b := StepAlong(m0, a, job, p1, CallNextAssignment(0));
    var c := StepAlong(m0, b, job, p2, CheckRoot(1));
    var d := StepAlong(m0, c, job, p3, CallNextAssignment(1));
    var e := StepAlong(m0, d, job, p4, CallOpenRange(1, true));
    n := StepAlong(m0, e, job, p5, CallReadFull(1, true));
    p := p6;
  }

  lemma StepAlong(m0: F.Machine, m: F.Machine, job: F.Job, p: Pool, pe: Event) returns (n: F.Machine)
    requires ValidConfig(job.cfg) && Reaches(m0, m, job) && m.proc.Running? && Idle(m, p) && Enabled(p, pe) && !pe.CallDeliver?
    ensures n.proc.Running? && Reaches(m0, n, job) && Idle(n, Apply(p, pe)) && n.disk == m.disk && n.proc.mem == m.proc.mem
  {
    n := FollowOther(m0, m, job, p, pe);
    hide Reaches, Enabled, Apply;
  }

  lemma EmptyBegins(job: F.Job, removed: bool)
    requires F.ValidJob(job)
    ensures F.Begin(EMPTY, job, removed) == F.Machine(EMPTY, F.Creating(F.FullPlan(job), F.FreshState(job, {}), false))
    ensures FS.DiskSafe(EMPTY, job) && forall i :: 0 <= i < |F.FullPlan(job)| ==> F.FullPlan(job)[i].state == Pending
  {
    PlanIsLayout(|job.src|, job.cfg.splitSize);
    assert F.MarkPlan(F.FullPlan(job), {}) == F.FullPlan(job);
    hide F.FreshState;
  }

  lemma FreshMarks(job: F.Job, done: set<nat>)
    requires F.ValidJob(job)
    ensures ValidState(F.FreshState(job, done))
    ensures forall i: nat :: i in Marked(F.FreshState(job, done).items[0].bitmap) <==> i < |F.FullPlan(job)| && i in done
  {
    var flags := seq(|F.FullPlan(job)|, i requires 0 <= i < |F.FullPlan(job)| => i in done);
    EncodedPacks(flags);
    assert forall i: nat :: i in Marked(Encoded(flags)) <==> i < |flags| && flags[i];
  }

  lemma FreshMarksNothing(job: F.Job)
    requires F.ValidJob(job)
    ensures Marked(F.FreshState(job, {}).items[0].bitmap) == {} && ValidState(F.FreshState(job, {}))
  {
    FreshMarks(job, {});
    hide F.FreshState, F.FullPlan, Marked;
  }

  lemma OneMarked(job: F.Job, mem: SideState)
    requires F.ValidJob(job) && ValidState(F.FreshState(job, {}))
    requires Mark(F.FreshState(job, {}), 0, 1) == Some(mem)
    ensures mem.version == VERSION && |mem.items| == 1 && mem.items[0].length == |job.src|
    ensures Marked(mem.items[0].bitmap) == {1}
  {
    FreshMarksNothing(job);
    MarkIsInsertion(F.FreshState(job, {}), 0, 1);
    hide Mark, Marked, Encoded;
  }

  lemma Stop(m0: F.Machine, m: F.Machine, job: F.Job)
    requires ValidConfig(job.cfg) && Reaches(m0, m, job)
    ensures Reaches(m0, F.Machine(m.disk, F.Down), job)
  {
    hide Reaches;
    Reach(m0, m, F.Interrupt, job);
  }

  lemma ResumesOne(d: F.Disk, mem: SideState, job: F.Job)
    requires d.side == Files(Some(Whole(mem)), None) && mem.version == VERSION && |mem.items| == 1
    requires mem.items[0].length == |job.src| && Marked(mem.items[0].bitmap) == {1}
    ensures FX.Resumed(d, job) == {1}
  {
    FS.ResumeOne(mem.items);
  }

  ghost predicate KeepsDisk(m0: F.Machine, job: F.Job)
    requires F.ValidJob(job)
  {
    forall k :: Reaches(m0, k, job) ==> FS.MInv(k, job, F.FileOf(EMPTY))
  }

  lemma KeptAt(m0: F.Machine, m: F.Machine, job: F.Job)
    requires F.ValidJob(job) && KeepsDisk(m0, job) && Reaches(m0, m, job)
    ensures FS.MInv(m, job, F.FileOf(EMPTY)) && FS.DiskSafe(m.disk, job)
  {
    assert FS.MInv(m, job, F.FileOf(EMPTY));
    MachineIsSafe(m, job);
    hide FS.MInv;
  }

  lemma MachineIsSafe(m: F.Machine, job: F.Job)
    requires F.ValidJob(job) && FS.MInv(m, job, F.FileOf(EMPTY))
    ensures FS.DiskSafe(m.disk, job)
  {
  }

  lemma OpenedAndRead(job: F.Job, removed: bool) returns (m0: F.Machine, b: F.Machine, p: Pool)
    requires F.ValidJob(job) && job.cfg.connections >= 2 && |F.FullPlan(job)| >= 2
    ensures m0 == F.Begin(EMPTY, job, removed) && KeepsDisk(m0, job) && Reaches(m0, b, job)
    ensures Idle(b, p) && Stands(p, 1, Delivering) && 1 < |p.workers| && p.workers[1].i == 1 && F.FileOf(b.disk) == []
    ensures b.proc.Running? && b.proc.mem == F.FreshState(job, {})
  {
    m0 := F.Begin(EMPTY, job, removed);
    EmptyBegins(job, removed);
    ReachSelf(m0, job);
    AllKept(EMPTY, job, removed);
    EmptyFile();
    assert KeepsDisk(m0, job) && ValidConfig(job.cfg);
    hide *;
    var a := Opened(m0, m0, job);
    RunningIdle(a, Init(job.cfg, F.FullPlan(job), 0));
    b, p := UpToDelivery(m0, a, job, F.FullPlan(job));
  }

  /** From m to n chunk i was written, marked and checkpointed. */
  ghost predicate WroteChunk(m: F.Machine, n: F.Machine, job: F.Job, i: nat)
    requires job.cfg.splitSize >= 1
  {
    && m.proc.Running? && n.proc.Running? && ValidState(m.proc.mem)
    && Mark(m.proc.mem, 0, i) == Some(n.proc.mem) && n.disk.side == Files(Some(Whole(n.proc.mem)), None)
    && IsDeposited(m.disk, n.disk, job, i)
  }

  ghost predicate IsDeposited(d: F.Disk, d': F.Disk, job: F.Job, i: nat)
    requires job.cfg.splitSize >= 1
  {
    && i < |F.FullPlan(job)|
    && var c := F.FullPlan(job)[i];
    c.start + c.length <= |job.src| && d'.file == F.Deposit(d, job, c.start, c.start + c.length).file
  }

  /** What chunk 1 alone leaves behind. */
  ghost predicate OnlyChunkOne(d: F.Disk, job: F.Job)
    requires job.cfg.splitSize >= 1
  {
    FX.Resumed(d, job) == {1} && IsDeposited(EMPTY, d, job, 1)
  }

  lemma Wrote(m: F.Machine, n: F.Machine, job: F.Job, p: Pool, w: nat)
    requires F.ValidJob(job) && m.proc.Running? && n.proc.Running? && m.proc.pool == p && F.AtDelivery(m, job, w) && ValidState(m.proc.mem)
    requires var c, i := F.ChunkOf(m, job, w), p.workers[w].i;
             && i < |F.FullPlan(job)| && c.index == i && c.start == F.FullPlan(job)[i].start && c.length == F.FullPlan(job)[i].length
             && Mark(m.proc.mem, 0, c.index).Some?
             && n.disk.file == F.Deposit(m.disk, job, c.start, c.start + c.length).file
             && n.proc.mem == Mark(m.proc.mem, 0, c.index).value && n.disk.side == Files(Some(Whole(n.proc.mem)), None)
    ensures WroteChunk(m, n, job, p.workers[w].i)
  {
    FS.ChunkInObject(job, p.workers[w].i);
    hide F.FullPlan, F.Deposit, Mark;
  }

  /** WriteChunk of chunk i, in the hands of worker w, from beginning to end. */
  lemma WriteOne(m0: F.Machine, m: F.Machine, job: F.Job, p: Pool, w: nat) returns (n: F.Machine)
    requires F.ValidJob(job) && Reaches(m0, m, job) && Idle(m, p) && Stands(p, w, Delivering)
    requires KeepsDisk(m0, job)
    ensures Reaches(m0, n, job) && WroteChunk(m, n, job, p.workers[w].i)
  {
    RunningIdle(m, p);
    assert ValidConfig(job.cfg);
    hide *;
    KeptAt(m0, m, job);
    FileResume.Delivery(m, job, F.FileOf(EMPTY), w);
    n := WholeWrite(m0, m, job, p, w);
    Wrote(m, n, job, p, w);
  }

  lemma LeftBehind(b: F.Machine, c: F.Machine, job: F.Job)
    requires F.ValidJob(job) && b.proc.Running? && b.proc.mem == F.FreshState(job, {}) && F.FileOf(b.disk) == []
    requires WroteChunk(b, c, job, 1)
    ensures OnlyChunkOne(c.disk, job)
  {
    hide F.FreshState, F.FullPlan, Mark, F.Deposit, FX.Resumed;
    FreshMarksNothing(job);
    OneMarked(job, c.proc.mem);
    ResumesOne(c.disk, c.proc.mem, job);
    SameDeposit(b.disk, job, F.FullPlan(job)[1]);
  }

  /** Chunk 1 is written and marked, chunk 0 is neither, and the process is stopped. */
  lemma StoppedWithGap(job: F.Job, removed: bool) returns (m: F.Machine)
    requires F.ValidJob(job) && job.cfg.connections >= 2 && |F.FullPlan(job)| >= 2
    ensures Reaches(F.Begin(EMPTY, job, removed), m, job) && m.proc.Down? && FS.DiskSafe(m.disk, job) && OnlyChunkOne(m.disk, job)
  {
    assert ValidConfig(job.cfg);
    hide *;
    var m0, b, p := OpenedAndRead(job, removed);
    var c := WriteOne(m0, b, job, p, 1);
    LeftBehind(b, c, job);
    Stop(m0, c, job);
    m := F.Machine(c.disk, F.Down);
    KeptAt(m0, m, job);
  }

  lemma EmptyFile()
    ensures F.FileOf(EMPTY) == []
  {
  }

  lemma RunningIdle(m: F.Machine, p: Pool)
    requires Idle(m, p)
    ensures m.proc.Running? && m.proc.pool == p
  {
  }

  lemma SameDeposit(d: F.Disk, job: F.Job, c: Chunk)
    requires F.FileOf(d) == [] && c.start + c.length <= |job.src|
    ensures F.Deposit(d, job, c.start, c.start + c.length).file == F.Deposit(EMPTY, job, c.start, c.start + c.length).file
  {
  }

  /** What is resumed is read off the sidecar. */
  lemma SameResumed(d: F.Disk, job: F.Job)
    ensures FX.Resumed(d, job) == FX.Resumed(F.Disk(None, d.side), job)
  {
  }

  lemma GapAtZero(job: F.Job, side: Files)
    requires F.ValidJob(job) && FX.Resumed(F.Disk(None, side), job) == {1}
    requires |F.FullPlan(job)| >= 3 || (|F.FullPlan(job)| == 2 && job.cfg.maxTries >= 2)
    ensures !G.GapsHarmless(job.cfg, ResumedPlan(side, job))
    ensures job.cfg.maxTries >= 2 ==> G.Losable(job.cfg, ResumedPlan(side, job), 0)
  {
    PlanIsLayout(|job.src|, job.cfg.splitSize);
    var plan := ResumedPlan(side, job);
    assert plan[1].state == Completed && plan[0].state == Pending;
    assert InState(plan, Completed) == {1};
    assert Prefix(plan) == 0;
    if |plan| >= 3 { assert plan[|plan| - 1].state == Pending; }
  }

  /** Harmful gaps occur. On an empty disk a run can be stopped so that it leaves a sidecar from which a later run can
      report success with a chunk missing. */
  lemma HarmfulGapsOccur(job: F.Job, removed: bool) returns (m: F.Machine)
    requires F.ValidJob(job) && job.cfg.connections >= 2
    requires |F.FullPlan(job)| >= 3 || (|F.FullPlan(job)| == 2 && job.cfg.maxTries >= 2)
    ensures Reaches(F.Begin(EMPTY, job, removed), m, job) && m.proc.Down? && FS.DiskSafe(m.disk, job)
    ensures !G.GapsHarmless(job.cfg, ResumedPlan(m.disk.side, job)) && !SuccessIsWholeFile(m.disk.side, job)
  {
    m := StoppedWithGap(job, removed);
    hide Reaches, F.Begin, FS.DiskSafe, F.FullPlan, FX.Resumed;
    SameResumed(m.disk, job);
    GapAtZero(job, m.disk.side);
    FileResumeExactly(m.disk.side, job);
  }

  // ----- from an empty disk to a wrong file

  lemma DepositedAtEnd(job: F.Job)
    requires F.ValidJob(job) && |F.FullPlan(job)| == 2
    ensures var c := F.FullPlan(job)[1];
            && c.start + c.length == |job.src| && 0 < c.start
            && var f := F.Deposit(EMPTY, job, c.start, c.start + c.length).file;
            f.Some? && |f.value| == job.base + |job.src| && f.value[job.base] == 0
  {
    PlanIsLayout(|job.src|, job.cfg.splitSize);
  }

  lemma ZeroCovered(job: F.Job)
    requires F.ValidJob(job)
    ensures |F.FullPlan(job)| > 0 && Covers(F.FullPlan(job)[0], 0)
  {
    PlanIsLayout(|job.src|, job.cfg.splitSize);
  }

  /** Two runs. An object of two chunks that does not begin with a zero byte, an empty disk, retries allowed: the first
      run is stopped after chunk 1, the second reports success, and the first byte of the file is still zero. */
  lemma WrongFile(job: F.Job, removed: bool) returns (m: F.Machine, run: seq<F.Event>)
    requires F.ValidJob(job) && job.cfg.connections >= 2 && job.cfg.maxTries >= 2 && |F.FullPlan(job)| == 2 && job.src[0] != 0
    ensures Reaches(F.Begin(EMPTY, job, removed), m, job) && m.proc.Down?
    ensures SuccessfulRun(m.disk, true, run, job)
    ensures |FinalFile(m.disk, true, run, job)| == job.base + |job.src| && FinalFile(m.disk, true, run, job)[job.base] != job.src[0]
  {
    m := StoppedWithGap(job, removed);
    DepositedAtEnd(job);
    ZeroCovered(job);
    hide Reaches, F.Begin, FS.DiskSafe, F.FullPlan, F.Deposit, G.Losable, FX.Resumed;
    SameResumed(m.disk, job);
    GapAtZero(job, m.disk.side);
    run := ByteNotWritten(m.disk, job, 0, 0, 0);
  }
}
