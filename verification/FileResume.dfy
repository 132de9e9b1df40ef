/** Resuming a download to a file from a sidecar whose bitmap has gaps (`runOneJob` and `downloadParallelFile` in
    internal/job/runner.go): exactly which sidecars can be resumed so that success means the object is in the file. */
module FileResume {
  import opened Basics
  import opened Chunks
  import opened WorkerPool
  import opened PoolInvariants
  import opened Streaming
  import opened Positional
  import opened Bitmap
  import opened Sidecar
  import G = ResumeGaps
  import F = FileTransfer
  import FS = FileSafety
  import FX = FileTheorems

  ghost predicate Reaches(m: F.Machine, n: F.Machine, job: F.Job)
    requires ValidConfig(job.cfg)
  {
    exists es :: F.Legal(m, es, job) && NoStart(es) && F.Exec(m, es, job) == n
  }

  predicate NoStart(es: seq<F.Event>) {
    forall e :: e in es ==> !e.StartRun?
  }

  lemma ReachSelf(m: F.Machine, job: F.Job)
    requires ValidConfig(job.cfg)
    ensures Reaches(m, m, job)
  {
    assert F.Legal(m, [], job) && NoStart([]) && F.Exec(m, [], job) == m;
  }

  lemma {:induction false} OneMore(m: F.Machine, es: seq<F.Event>, e: F.Event, job: F.Job)
    requires ValidConfig(job.cfg) && F.Legal(m, es, job) && F.Enabled(F.Exec(m, es, job), e, job)
    ensures F.Legal(m, es + [e], job) && F.Exec(m, es + [e], job) == F.Apply(F.Exec(m, es, job), e, job)
    decreases |es|
  {
    hide F.Enabled, F.Apply;
    if es == [] {
      assert (es + [e])[1..] == [];
    } else {
      assert (es + [e])[1..] == es[1..] + [e];
      OneMore(F.Apply(m, es[0], job), es[1..], e, job);
    }
  }

  lemma Reach(m0: F.Machine, m: F.Machine, e: F.Event, job: F.Job)
    requires ValidConfig(job.cfg) && Reaches(m0, m, job) && F.Enabled(m, e, job) && !e.StartRun?
    ensures Reaches(m0, F.Apply(m, e, job), job)
  {
    hide F.Enabled, F.Apply;
    var es :| F.Legal(m0, es, job) && NoStart(es) && F.Exec(m0, es, job) == m;
    OneMore(m0, es, e, job);
    assert NoStart(es + [e]);
  }

  // ----- single steps

  lemma DoCall(m0: F.Machine, m: F.Machine, job: F.Job, pe: Event)
    requires ValidConfig(job.cfg) && Reaches(m0, m, job) && F.CanCall(m, pe)
    ensures Reaches(m0, F.OfPoolStep(m, pe), job)
  {
    hide Reaches, F.OfPoolStep;
    Reach(m0, m, F.OfPool(pe), job);
  }

  lemma DoWrite(m0: F.Machine, m: F.Machine, job: F.Job, w: nat, k: nat)
    requires ValidConfig(job.cfg) && Reaches(m0, m, job) && F.CanWriteSome(m, job, w, k)
    ensures Reaches(m0, F.WriteSomeStep(m, job, w, k), job)
  {
    hide Reaches, F.WriteSomeStep, F.CanWriteSome;
    Reach(m0, m, F.WriteSome(w, k), job);
  }

  lemma DoStop(m0: F.Machine, m: F.Machine, job: F.Job, w: nat)
    requires ValidConfig(job.cfg) && Reaches(m0, m, job) && F.CanWriteSome(m, job, w, 0)
    ensures Reaches(m0, F.SetSub(m, w, F.Bad), job)
  {
    hide Reaches, F.SetSub;
    Reach(m0, m, F.WriteStops(w), job);
  }

  lemma DoLock(m0: F.Machine, m: F.Machine, job: F.Job, w: nat)
    requires ValidConfig(job.cfg) && Reaches(m0, m, job) && F.CanTakeLock(m, job, w)
    ensures Reaches(m0, F.TakeLockStep(m, job, w), job)
  {
    hide Reaches, F.TakeLockStep, F.CanTakeLock;
    Reach(m0, m, F.TakeLock(w), job);
  }

  lemma DoTmp(m0: F.Machine, m: F.Machine, job: F.Job, w: nat)
    requires ValidConfig(job.cfg) && Reaches(m0, m, job) && F.CanCheckpoint(m, job, w, F.Locked)
    ensures Reaches(m0, F.TmpStep(m, w, true), job)
  {
    hide Reaches, F.TmpStep;
    Reach(m0, m, F.WriteTheTmp(w, true), job);
  }

  lemma DoRename(m0: F.Machine, m: F.Machine, job: F.Job, w: nat)
    requires ValidConfig(job.cfg) && Reaches(m0, m, job) && F.CanCheckpoint(m, job, w, F.TmpReady)
    ensures Reaches(m0, F.RenameStep(m, w, true), job)
  {
    hide Reaches, F.RenameStep;
    Reach(m0, m, F.RenameTheTmp(w, true), job);
  }

  // ----- the file machine can follow the pool

  /** No worker is inside WriteChunk. */
  ghost predicate Idle(m: F.Machine, p: Pool) {
    && m.proc.Running? && m.proc.pool == p && |m.proc.subs| == |p.workers|
    && (forall w :: 0 <= w < |m.proc.subs| ==> m.proc.subs[w] == F.Writing(0))
    && m.proc.lock.None?
  }

  /** The whole file is there already, and byte x is as it was. */
  ghost predicate Keeps(m: F.Machine, size: nat, x: nat, b: byte) {
    |F.FileOf(m.disk)| == size && x < size && F.FileOf(m.disk)[x] == b
  }

  lemma MarkPossible(mem: SideState, d: F.Disk, job: F.Job, i: nat)
    requires job.cfg.splitSize >= 1 && FS.Truthful(mem, d, job) && ValidState(mem) && i < |F.FullPlan(job)|
    ensures Mark(mem, 0, i).Some?
  {
  }

  lemma FailedDelivery(m0: F.Machine, m: F.Machine, job: F.Job, p: Pool, w: nat) returns (n: F.Machine)
    requires ValidConfig(job.cfg) && Reaches(m0, m, job) && Idle(m, p) && F.AtDelivery(m, job, w)
    ensures Reaches(m0, n, job) && Idle(n, Apply(p, CallDeliver(w, false))) && n.disk == m.disk
  {
    SameWorkers(p, CallDeliver(w, false));
    DoStop(m0, m, job, w);
    var a := F.SetSub(m, w, F.Bad);
    n := F.OfPoolStep(a, CallDeliver(w, false));
    hide Reaches, Apply;
    DoCall(m0, a, job, CallDeliver(w, false));
  }

  /** All of WriteChunk: the data, the mark, the temporary sidecar and the rename. */
  lemma WholeWrite(m0: F.Machine, m: F.Machine, job: F.Job, p: Pool, w: nat) returns (n: F.Machine)
    requires ValidConfig(job.cfg) && Reaches(m0, m, job) && Idle(m, p) && F.AtDelivery(m, job, w) && ValidState(m.proc.mem)
    requires Mark(m.proc.mem, 0, F.ChunkOf(m, job, w).index).Some?
    ensures Reaches(m0, n, job)
    ensures n.proc.Running? && n.proc.pool == p && n.proc.lock.None? && n.proc.subs == m.proc.subs[w := F.Stored]
    ensures var c := F.ChunkOf(m, job, w); n.disk.file == F.Deposit(m.disk, job, c.start, c.start + c.length).file
    ensures n.proc.mem == Mark(m.proc.mem, 0, F.ChunkOf(m, job, w).index).value && n.disk.side == Files(Some(Whole(n.proc.mem)), None)
  {
    var c := F.ChunkOf(m, job, w);
    DoWrite(m0, m, job, w, c.length);
    var a := F.WriteSomeStep(m, job, w, c.length);
    DoLock(m0, a, job, w);
    var b := F.TakeLockStep(a, job, w);
    DoTmp(m0, b, job, w);
    var d := F.TmpStep(b, w, true);
    DoRename(m0, d, job, w);
    n := F.RenameStep(d, w, true);
  }

  lemma GoodDelivery(m0: F.Machine, m: F.Machine, job: F.Job, p: Pool, w: nat) returns (n: F.Machine)
    requires ValidConfig(job.cfg) && Reaches(m0, m, job) && Idle(m, p) && F.AtDelivery(m, job, w) && ValidState(m.proc.mem)
    requires Mark(m.proc.mem, 0, F.ChunkOf(m, job, w).index).Some?
    ensures Reaches(m0, n, job) && Idle(n, Apply(p, CallDeliver(w, true)))
    ensures var c := F.ChunkOf(m, job, w); n.disk.file == F.Deposit(m.disk, job, c.start, c.start + c.length).file
  {
    SameWorkers(p, CallDeliver(w, true));
    var a := WholeWrite(m0, m, job, p, w);
    n := F.OfPoolStep(a, CallDeliver(w, true));
    hide Reaches, Apply, F.Deposit;
    DoCall(m0, a, job, CallDeliver(w, true));
  }

  /** Writing a chunk into a file that is long enough changes that chunk's bytes only. */
  lemma DepositKeeps(m: F.Machine, n: F.Machine, job: F.Job, c: Chunk, x: nat, b: byte)
    requires Keeps(m, job.base + |job.src|, x, b) && c.start + c.length <= |job.src|
    requires n.disk.file == F.Deposit(m.disk, job, c.start, c.start + c.length).file
    requires !(job.base + c.start <= x < job.base + c.start + c.length)
    ensures Keeps(n, job.base + |job.src|, x, b)
  {
  }

  /** Byte o belongs to chunk v and to no other. */
  lemma NotIn(job: F.Job, v: nat, i: nat, o: nat)
    requires job.cfg.splitSize >= 1 && v < |F.FullPlan(job)| && i < |F.FullPlan(job)| && i != v
    requires o < |job.src| && Covers(F.FullPlan(job)[v], o)
    ensures !Covers(F.FullPlan(job)[i], o)
  {
    EveryByteInOneChunk(|job.src|, job.cfg.splitSize, o, v);
    EveryByteInOneChunk(|job.src|, job.cfg.splitSize, o, i);
  }

  /** What a worker about to deliver brings. */
  lemma Delivery(m: F.Machine, job: F.Job, f0: seq<byte>, w: nat)
    requires F.ValidJob(job) && FS.MInv(m, job, f0) && m.proc.Running? && Stands(m.proc.pool, w, Delivering)
    ensures F.AtDelivery(m, job, w) && ValidState(m.proc.mem)
    ensures var c, i := F.ChunkOf(m, job, w), m.proc.pool.workers[w].i;
            && i < |F.FullPlan(job)| && c.index == i && c.start == F.FullPlan(job)[i].start && c.length == F.FullPlan(job)[i].length
            && Mark(m.proc.mem, 0, c.index).Some?
  {
    FX.InsideDefined(m, job, f0, w);
    FS.WritePossible(m, job, f0);
    hide FS.MInv, FS.AsPlanned, FS.SubsOK, FS.Truthful, FS.DeliveredInPlace, FS.DoneInPlace, Mark, F.FullPlan, FS.Grounded;
    FS.IsInside(m, job, w);
    MarkPossible(m.proc.mem, m.disk, job, m.proc.pool.workers[w].i);
  }

  /** What a worker about to deliver chunk i brings. */
  ghost predicate Brings(m: F.Machine, job: F.Job, w: nat, i: nat)
    requires job.cfg.splitSize >= 1
  {
    && F.AtDelivery(m, job, w) && ValidState(m.proc.mem) && i < |F.FullPlan(job)|
    && var c := F.ChunkOf(m, job, w);
    && c.start == F.FullPlan(job)[i].start && c.length == F.FullPlan(job)[i].length
    && Mark(m.proc.mem, 0, c.index).Some?
  }

  lemma FollowWrite(m0: F.Machine, m: F.Machine, job: F.Job, p: Pool, w: nat, i: nat, v: nat, o: nat, b: byte) returns (n: F.Machine)
    requires ValidConfig(job.cfg) && Reaches(m0, m, job) && Idle(m, p) && Brings(m, job, w, i) && i != v
    requires v < |F.FullPlan(job)| && o < |job.src| && Covers(F.FullPlan(job)[v], o)
    requires Keeps(m, job.base + |job.src|, job.base + o, b)
    ensures Reaches(m0, n, job) && Idle(n, Apply(p, CallDeliver(w, true))) && Keeps(n, job.base + |job.src|, job.base + o, b)
  {
    NotIn(job, v, i, o);
    hide Reaches, Keeps, F.FullPlan, Apply, Mark, F.Deposit;
    n := GoodDelivery(m0, m, job, p, w);
    DepositKeeps(m, n, job, F.ChunkOf(m, job, w), job.base + o, b);
  }

  lemma FollowOther(m0: F.Machine, m: F.Machine, job: F.Job, p: Pool, pe: Event) returns (n: F.Machine)
    requires ValidConfig(job.cfg) && Reaches(m0, m, job) && Idle(m, p) && Enabled(p, pe) && !pe.CallDeliver?
    ensures Reaches(m0, n, job) && Idle(n, Apply(p, pe)) && n.disk == m.disk && n.proc.mem == m.proc.mem
  {
    SameWorkers(p, pe);
    n := F.OfPoolStep(m, pe);
    hide Reaches, Apply, Enabled;
    DoCall(m0, m, job, pe);
  }

  lemma Follow(m0: F.Machine, m: F.Machine, job: F.Job, p: Pool, pe: Event, f0: seq<byte>, v: nat, o: nat, b: byte) returns (n: F.Machine)
    requires F.ValidJob(job) && Reaches(m0, m, job) && Idle(m, p) && FS.MInv(m, job, f0) && Enabled(p, pe)
    requires v < |F.FullPlan(job)| && o < |job.src| && Covers(F.FullPlan(job)[v], o)
    requires Keeps(m, job.base + |job.src|, job.base + o, b) && v !in Apply(p, pe).delivered
    ensures Reaches(m0, n, job) && Idle(n, Apply(p, pe)) && Keeps(n, job.base + |job.src|, job.base + o, b)
  {
    if pe.CallDeliver? {
      var w := pe.w;
      EventEffects(p, pe);
      hide FS.MInv, Reaches, F.FullPlan, Apply;
      if pe.ok {
        Delivery(m, job, f0, w);
        assert Brings(m, job, w, p.workers[w].i);
        hide Brings, F.AtDelivery, Mark;
        n := FollowWrite(m0, m, job, p, w, p.workers[w].i, v, o, b);
      } else {
        Delivery(m, job, f0, w);
        hide F.AtDelivery, Mark;
        n := FailedDelivery(m0, m, job, p, w);
      }
    } else {
      hide FS.MInv, Reaches, F.FullPlan, Apply, Enabled;
      n := FollowOther(m0, m, job, p, pe);
    }
  }

  lemma {:induction false} DeliveredGrows(p: Pool, es: seq<Event>, v: nat)
    requires Legal(p, es) && v !in Exec(p, es).delivered
    ensures v !in p.delivered
    ensures es != [] ==> v !in Apply(p, es[0]).delivered
    decreases |es|
  {
    if es != [] {
      DeliveredGrows(Apply(p, es[0]), es[1..], v);
      EventEffects(p, es[0]);
    }
  }

  /** Any run of the pool that does not deliver chunk v can be followed without touching byte o of it. */
  lemma {:induction false} FollowAll(m0: F.Machine, m: F.Machine, job: F.Job, p: Pool, es: seq<Event>, f0: seq<byte>, v: nat, o: nat, b: byte)
    returns (n: F.Machine)
    requires F.ValidJob(job) && Reaches(m0, m, job) && Idle(m, p) && Legal(p, es)
    requires forall k :: Reaches(m0, k, job) ==> FS.MInv(k, job, f0)
    requires v < |F.FullPlan(job)| && o < |job.src| && Covers(F.FullPlan(job)[v], o)
    requires Keeps(m, job.base + |job.src|, job.base + o, b) && v !in Exec(p, es).delivered
    ensures Reaches(m0, n, job) && Idle(n, Exec(p, es)) && Keeps(n, job.base + |job.src|, job.base + o, b)
    decreases |es|
  {
    if es == [] {
      n := m;
    } else {
      DeliveredGrows(p, es, v);
      assert FS.MInv(m, job, f0);
      hide FS.MInv, Reaches, Idle, Keeps, Apply, Enabled, F.FullPlan;
      var k := Follow(m0, m, job, p, es[0], f0, v, o, b);
      n := FollowAll(m0, k, job, Apply(p, es[0]), es[1..], f0, v, o, b);
    }
  }

  // ----- the beginning and the end of such a run

  /** The plan of a run that starts on this disk. */
  function ResumedPlan(side: Files, job: F.Job): seq<Chunk>
    requires job.cfg.splitSize >= 1
  {
    F.MarkPlan(F.FullPlan(job), FX.Resumed(F.Disk(None, side), job))
  }

  lemma BeginCreates(d: F.Disk, job: F.Job, v: nat)
    requires F.ValidJob(job) && FS.DiskSafe(d, job) && G.Losable(job.cfg, ResumedPlan(d.side, job), v)
    ensures F.Begin(d, job, true).disk == d
    ensures F.Begin(d, job, true).proc == F.Creating(ResumedPlan(d.side, job), F.FreshState(job, FX.Resumed(d, job)), false)
  {
    if FX.Resumed(d, job) == {} {
      FX.FreshIsPrefix(job);
    } else {
      FS.ResumeOne(Loaded(d.side).value.items);
    }
    hide F.FullPlan, F.MarkPlan, F.FreshState, F.ResumeSet;
  }

  /** Sidecar and destination are created; the workers start. */
  lemma Opened(m0: F.Machine, m: F.Machine, job: F.Job) returns (n: F.Machine)
    requires F.ValidJob(job) && Reaches(m0, m, job) && m.proc.Creating? && !m.proc.tmpReady
    ensures Reaches(m0, n, job) && Idle(n, Init(job.cfg, m.proc.plan, 0)) && F.FileOf(n.disk) == F.FileOf(m.disk)
    ensures n.proc.mem == m.proc.mem
  {
    Reach(m0, m, F.WriteNew(true), job);
    var a := F.Apply(m, F.WriteNew(true), job);
    Reach(m0, a, F.RenameNew(true), job);
    var b := F.Apply(a, F.RenameNew(true), job);
    Reach(m0, b, F.OpenDest(true, 0), job);
    n := F.Apply(b, F.OpenDest(true, 0), job);
    hide Reaches;
  }

  /** The workers have succeeded; the file is synced and the sidecar removed. */
  lemma Closed(m0: F.Machine, m: F.Machine, job: F.Job) returns (n: F.Machine)
    requires F.ValidJob(job) && Reaches(m0, m, job) && m.proc.Running? && m.proc.pool.verdict == Some(true)
    ensures Reaches(m0, n, job) && n.proc.Returned? && n.proc.ok && n.disk.file == m.disk.file
  {
    Reach(m0, m, F.Sync(true), job);
    var a := m.(proc := F.Synced(m.proc.plan));
    Reach(m0, a, F.RemoveSidecar(true), job);
    n := F.Apply(a, F.RemoveSidecar(true), job);
    hide Reaches;
  }

  function Flipped(b: byte): byte { if b == 0 then 1 else 0 }

  /** The object behind the base offset, except for byte o. */
  function AllBut(job: F.Job, o: nat): seq<byte>
    requires o < |job.src|
  {
    Zeros(job.base) + job.src[o := Flipped(job.src[o])]
  }

  lemma AllButRight(job: F.Job, o: nat, q: nat)
    requires o < |job.src| && q < |job.src|
    ensures RightByte(AllBut(job, o), job.base, job.src, q) <==> q != o
    ensures |AllBut(job, o)| == job.base + |job.src| && AllBut(job, o)[job.base + o] == Flipped(job.src[o])
  {
  }

  /** Some disk with this sidecar is safe, that is, the sidecar was written for this job. */
  ghost predicate Usable(side: Files, job: F.Job)
    requires job.cfg.splitSize >= 1
  {
    exists d: F.Disk :: d.side == side && FS.DiskSafe(d, job)
  }

  /** The disk on which only the first byte of chunk v is wrong is safe. */
  lemma WrongButSafe(side: Files, job: F.Job, v: nat)
    requires F.ValidJob(job) && Usable(side, job) && G.Losable(job.cfg, ResumedPlan(side, job), v)
    ensures v < |F.FullPlan(job)| && F.FullPlan(job)[v].start < |job.src| && Covers(F.FullPlan(job)[v], F.FullPlan(job)[v].start)
    ensures FS.DiskSafe(F.Disk(Some(AllBut(job, F.FullPlan(job)[v].start)), side), job)
  {
    var d0: F.Disk :| d0.side == side && FS.DiskSafe(d0, job);
    FS.ChunkInObject(job, v);
    var o := F.FullPlan(job)[v].start;
    var d := F.Disk(Some(AllBut(job, o)), side);
    var st := Loaded(side);
    if st.Some? && st.value.items != [] && st.value.items[0].length == |job.src| {
      FS.ResumeOne(st.value.items);
      NotMarked(side, job, v);
      forall i | i in Marked(st.value.items[0].bitmap) ensures FS.ChunkInPlace(d, job, i) {
        assert FS.ChunkInPlace(d0, job, i);
        OtherInPlace(job, v, i, side);
      }
    }
  }

  lemma NotMarked(side: Files, job: F.Job, v: nat)
    requires F.ValidJob(job) && G.Losable(job.cfg, ResumedPlan(side, job), v)
    ensures v !in FX.Resumed(F.Disk(None, side), job)
  {
    FS.ChunkInObject(job, v);
  }

  lemma OtherInPlace(job: F.Job, v: nat, i: nat, side: Files)
    requires F.ValidJob(job) && v < |F.FullPlan(job)| && i < |F.FullPlan(job)| && i != v && F.FullPlan(job)[v].start < |job.src|
    ensures FS.ChunkInPlace(F.Disk(Some(AllBut(job, F.FullPlan(job)[v].start)), side), job, i)
  {
    FS.ChunkInObject(job, v);
    FS.ChunkInObject(job, i);
    var c := F.FullPlan(job)[i];
    var o := F.FullPlan(job)[v].start;
    NotIn(job, v, i, o);
    forall q: nat | c.start <= q < c.start + c.length ensures RightByte(AllBut(job, o), job.base, job.src, q) {
      AllButRight(job, o, q);
    }
  }

  // ----- the theorem

  /** A run started on this disk that reports success. */
  ghost predicate SuccessfulRun(d: F.Disk, removed: bool, run: seq<F.Event>, job: F.Job)
    requires F.ValidJob(job)
  {
    var m := F.Begin(d, job, removed);
    F.Legal(m, run, job) && NoStart(run) && F.Exec(m, run, job).proc.Returned? && F.Exec(m, run, job).proc.ok
  }

  ghost function FinalFile(d: F.Disk, removed: bool, run: seq<F.Event>, job: F.Job): seq<byte>
    requires F.ValidJob(job) && SuccessfulRun(d, removed, run, job)
  {
    F.FileOf(F.Exec(F.Begin(d, job, removed), run, job).disk)
  }

  /** Whatever is in the file where the sidecar makes no claim, every successful run from this sidecar leaves the whole
      object in its segment. */
  ghost predicate SuccessIsWholeFile(side: Files, job: F.Job)
    requires F.ValidJob(job)
  {
    forall d: F.Disk, removed, run ::
      (d.side == side && FS.DiskSafe(d, job) && SuccessfulRun(d, removed, run, job)) ==>
        RightRange(FinalFile(d, removed, run, job), job.base, job.src, 0, |job.src|)
  }

  lemma HarmlessFile(d: F.Disk, removed: bool, run: seq<F.Event>, job: F.Job)
    requires F.ValidJob(job) && FS.DiskSafe(d, job) && SuccessfulRun(d, removed, run, job)
    requires G.GapsHarmless(job.cfg, ResumedPlan(d.side, job))
    ensures RightRange(FinalFile(d, removed, run, job), job.base, job.src, 0, |job.src|)
  {
    FX.FileSuccessIsExact(d, job, [], removed, run);
    var f := FinalFile(d, removed, run, job);
    hide F.Exec, F.Legal, F.Begin, SuccessfulRun;
    assert f[job.base..job.base + |job.src|] == job.src;
    forall q: nat | q < |job.src| ensures RightByte(f, job.base, job.src, q) {
      assert f[job.base..job.base + |job.src|][q] == f[job.base + q];
    }
  }

  lemma AllKept(d: F.Disk, job: F.Job, removed: bool)
    requires F.ValidJob(job) && FS.DiskSafe(d, job)
    ensures forall k :: Reaches(F.Begin(d, job, removed), k, job) ==> FS.MInv(k, job, F.FileOf(d))
  {
    var m := F.Begin(d, job, removed);
    FS.BeginKeeps(d, job, F.FileOf(d), removed);
    forall k | Reaches(m, k, job) ensures FS.MInv(k, job, F.FileOf(d)) {
      var es :| F.Legal(m, es, job) && NoStart(es) && F.Exec(m, es, job) == k;
      FS.RunsKeepDisk(m, es, job, F.FileOf(d));
    }
  }

  /** A losable chunk can stay as it is: byte o of it is not written in some successful run. */
  lemma ByteNotWritten(d: F.Disk, job: F.Job, v: nat, o: nat, b: byte) returns (run: seq<F.Event>)
    requires F.ValidJob(job) && FS.DiskSafe(d, job) && G.Losable(job.cfg, ResumedPlan(d.side, job), v)
    requires v < |F.FullPlan(job)| && o < |job.src| && Covers(F.FullPlan(job)[v], o)
    requires |F.FileOf(d)| == job.base + |job.src| && F.FileOf(d)[job.base + o] == b
    ensures SuccessfulRun(d, true, run, job)
    ensures |FinalFile(d, true, run, job)| == job.base + |job.src| && FinalFile(d, true, run, job)[job.base + o] == b
  {
    var plan := ResumedPlan(d.side, job);
    var m0 := F.Begin(d, job, true);
    BeginCreates(d, job, v);
    AllKept(d, job, true);
    PlanValid(d.side, job);
    ReachSelf(m0, job);
    hide Reaches, F.Begin, FS.MInv, FS.DiskSafe, F.FullPlan, F.MarkPlan, F.FreshState, FX.Resumed, G.Losable;
    var m := Opened(m0, m0, job);
    var t := G.LosingRun(job.cfg, plan, 0, v);
    var es := G.RunTo(Init(job.cfg, plan, 0), t);
    var n := FollowAll(m0, m, job, Init(job.cfg, plan, 0), es, F.FileOf(d), v, o, b);
    var e := Closed(m0, n, job);
    run := RunTo(m0, e, job);
  }

  lemma RunTo(m: F.Machine, n: F.Machine, job: F.Job) returns (es: seq<F.Event>)
    requires ValidConfig(job.cfg) && Reaches(m, n, job)
    ensures F.Legal(m, es, job) && NoStart(es) && F.Exec(m, es, job) == n
  {
    es :| F.Legal(m, es, job) && NoStart(es) && F.Exec(m, es, job) == n;
  }

  /** A losable chunk is lost: some disk with this sidecar and some successful run leave it wrong. */
  lemma LosingFile(side: Files, job: F.Job, v: nat)
    requires F.ValidJob(job) && Usable(side, job) && G.Losable(job.cfg, ResumedPlan(side, job), v)
    ensures !SuccessIsWholeFile(side, job)
  {
    WrongButSafe(side, job, v);
    var o := F.FullPlan(job)[v].start;
    var d := F.Disk(Some(AllBut(job, o)), side);
    AllButRight(job, o, o);
    hide FS.DiskSafe, F.FullPlan, AllBut, Usable, G.Losable;
    var run := ByteNotWritten(d, job, v, o, Flipped(job.src[o]));
    hide F.Exec, F.Legal, F.Begin, SuccessfulRun, FinalFile;
    assert !RightByte(FinalFile(d, true, run, job), job.base, job.src, o);
  }

  lemma PlanValid(side: Files, job: F.Job)
    requires F.ValidJob(job)
    ensures ValidPlan(ResumedPlan(side, job))
  {
    PlanIsLayout(|job.src|, job.cfg.splitSize);
  }

  /** Exactly which sidecars can be resumed. Every successful run from a sidecar of this job leaves the whole object in
      the file, whatever the file holds elsewhere, if and only if the gaps of its bitmap are harmless. */
  lemma FileResumeExactly(side: Files, job: F.Job)
    requires F.ValidJob(job) && Usable(side, job)
    ensures SuccessIsWholeFile(side, job) <==> G.GapsHarmless(job.cfg, ResumedPlan(side, job))
  {
    if G.GapsHarmless(job.cfg, ResumedPlan(side, job)) {
      forall d: F.Disk, removed, run | d.side == side && FS.DiskSafe(d, job) && SuccessfulRun(d, removed, run, job)
        ensures RightRange(FinalFile(d, removed, run, job), job.base, job.src, 0, |job.src|)
      {
        HarmlessFile(d, removed, run, job);
      }
    } else {
      var v := G.SomeLosable(job.cfg, ResumedPlan(side, job));
      LosingFile(side, job, v);
    }
  }
}
