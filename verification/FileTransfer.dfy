/** Resumable parallel downloads to a file (`downloadParallelFile` and the resume part of `runOneJob` in
    internal/job/runner.go), over any number of process runs, each of which may be stopped at any step. The state is
    the disk and the process; a stop loses the process and keeps the disk. */
module FileTransfer {
  import opened Basics
  import opened Chunks
  import opened Scheduling
  import opened WorkerPool
  import opened Streaming
  import opened Positional
  import opened Bitmap
  import opened Sidecar

  /** What all runs have in common: the object, the settings, and where in the file the object goes. */
  datatype Job = Job(cfg: Config, src: seq<byte>, base: nat)

  datatype Disk = Disk(file: Option<seq<byte>>, side: Files)

  /** How far a worker is inside WriteChunk. */
  datatype Sub =
    | Writing(done: nat)    // WriteAt has written this many bytes
    | Locked                // Manager.MarkComplete holds the mutex, bitmap updated in memory
    | TmpReady              // temporary sidecar written
    | Stored                // sidecar replaced, WriteChunk returns nil
    | Bad                   // WriteChunk returns an error

  datatype Proc =
    | Down
    | Creating(plan: seq<Chunk>, mem: SideState, tmpReady: bool)
    | OpeningFile(plan: seq<Chunk>, mem: SideState)
    | Running(plan: seq<Chunk>, pool: Pool, subs: seq<Sub>, mem: SideState, lock: Option<nat>)
    | Synced(plan: seq<Chunk>)
    | Returned(plan: seq<Chunk>, ok: bool)

  datatype Machine = Machine(disk: Disk, proc: Proc)

  datatype Event =
    | StartRun(removed: bool)
    | TearNew                          // the new temporary sidecar is half written
    | WriteNew(ok: bool)
    | RenameNew(ok: bool)
    | OpenDest(ok: bool, now: nat)
    | OfPool(e: WorkerPool.Event)
    | WriteSome(w: nat, k: nat)
    | WriteStops(w: nat)
    | TakeLock(w: nat)
    | TearTmp(w: nat)
    | WriteTheTmp(w: nat, ok: bool)
    | RenameTheTmp(w: nat, ok: bool)
    | GiveUp
    | Sync(ok: bool)
    | RemoveSidecar(ok: bool)
    | Interrupt

  ghost predicate ValidJob(job: Job) {
    ValidConfig(job.cfg) && !job.cfg.streamMode && job.src != []
  }

  function FullPlan(job: Job): seq<Chunk>
    requires job.cfg.splitSize >= 1
  {
    PlanOf(|job.src|, job.cfg.splitSize)
  }

  /** The loop that marks the chunks of the resume set complete. */
  function MarkPlan(plan: seq<Chunk>, done: set<nat>): (r: seq<Chunk>)
    ensures |r| == |plan|
  {
    seq(|plan|, i requires 0 <= i < |plan| => if plan[i].index in done then plan[i].(state := Completed) else plan[i])
  }

  /** The union of the bitmaps of all items. */
  function ResumeSet(items: seq<Item>): set<nat> {
    if items == [] then {} else Marked(items[0].bitmap) + ResumeSet(items[1..])
  }

  /** The sidecar a run begins with: one item, its bitmap the chunks already complete. */
  function FreshState(job: Job, done: set<nat>): SideState
    requires job.cfg.splitSize >= 1
  {
    var flags := seq(|FullPlan(job)|, i requires 0 <= i < |FullPlan(job)| => i in done);
    SideState(VERSION, [Item(job.base, |job.src|, job.cfg.splitSize, Encoded(flags), false)])
  }

  /** Beginning of a run: decide what is complete. A stale or unreadable sidecar is dropped. */
  function Begin(d: Disk, job: Job, removed: bool): Machine
    requires job.cfg.splitSize >= 1
  {
    var dropped := d.(side := if removed then d.side.(sidecar := None) else d.side);
    match Loaded(d.side)
    case None => Plan(if d.side.sidecar.Some? then dropped else d, job, {}, removed)
    case Some(st) =>
      if st.items == [] then Machine(d, Down)     // indexing Items[0] panics
      else if st.items[0].length != |job.src| then Plan(dropped, job, {}, removed)
      else if !ValidState(st) then Machine(d, Down)   // dividing by the split size panics
      else Plan(d, job, ResumeSet(st.items), removed)
  }

  /** downloadParallelFile up to the creation of the sidecar. */
  function Plan(d: Disk, job: Job, done: set<nat>, removed: bool): Machine
    requires job.cfg.splitSize >= 1
  {
    var plan := MarkPlan(FullPlan(job), done);
    if forall i :: 0 <= i < |plan| ==> plan[i].state == Completed then
      Machine(d.(side := if removed then d.side.(sidecar := None) else d.side), Returned(plan, true))
    else Machine(d, Creating(plan, FreshState(job, done), false))
  }

  /** The loops of runOneJob that collect the chunks a readable sidecar marks. */
  method CollectResumed(items: seq<Item>) returns (done: set<nat>)
    requires forall i :: 0 <= i < |items| ==> items[i].splitSize >= 1
    ensures done == ResumeSet(items)
  {
    done := {};
    var k := 0;
    while k < |items|
      invariant 0 <= k <= |items|
      invariant done + ResumeSet(items[k..]) == ResumeSet(items)
    {
      var flags := DecodeBitmap(items[k].bitmap, ChunksOf(items[k]));
      var marked: set<nat> := {};
      var j := 0;
      while j < |flags|
        invariant 0 <= j <= |flags|
        invariant forall i: nat :: i in marked <==> i < j && flags[i]
      {
        if flags[j] { marked := marked + {j}; }
        j := j + 1;
      }
      assert marked == Marked(items[k].bitmap);
      assert items[k..][1..] == items[k + 1..];
      done := done + marked;
      k := k + 1;
    }
  }

  /** The loop of downloadParallelFile that marks them in the plan and counts the others. */
  method MarkResumed(plan: array<Chunk>, done: set<nat>) returns (pending: nat)
    requires forall i :: 0 <= i < plan.Length ==> plan[i].state == Pending
    modifies plan
    ensures plan[..] == MarkPlan(old(plan[..]), done)
    ensures pending == 0 <==> forall i :: 0 <= i < plan.Length ==> plan[i].state == Completed
  {
    pending := 0;
    var i := 0;
    while i < plan.Length
      invariant 0 <= i <= plan.Length
      invariant forall j :: 0 <= j < i ==> plan[j] == MarkPlan(old(plan[..]), done)[j]
      invariant forall j :: i <= j < plan.Length ==> plan[j] == old(plan[j])
      invariant pending == 0 <==> forall j :: 0 <= j < i ==> plan[j].state == Completed
    {
      if plan[i].index in done {
        plan[i] := plan[i].(state := Completed);
      } else {
        pending := pending + 1;
      }
      i := i + 1;
    }
  }

  predicate AtDelivery(m: Machine, job: Job, w: nat) {
    && m.proc.Running? && w < |m.proc.pool.workers| && w < |m.proc.subs|
    && m.proc.pool.workers[w].pc == Delivering
    && m.proc.pool.workers[w].i < |m.proc.pool.sched.chunks|
    && var c := m.proc.pool.sched.chunks[m.proc.pool.workers[w].i]; c.start + c.length <= |job.src|
  }

  function ChunkOf(m: Machine, job: Job, w: nat): Chunk
    requires AtDelivery(m, job, w)
  {
    m.proc.pool.sched.chunks[m.proc.pool.workers[w].i]
  }

  predicate CanWriteSome(m: Machine, job: Job, w: nat, k: nat) {
    AtDelivery(m, job, w) && m.proc.subs[w].Writing? && m.proc.subs[w].done + k <= ChunkOf(m, job, w).length
  }

  predicate CanTakeLock(m: Machine, job: Job, w: nat) {
    && AtDelivery(m, job, w) && m.proc.subs[w] == Writing(ChunkOf(m, job, w).length)
    && m.proc.lock.None? && ValidState(m.proc.mem)
  }

  /** What WriteChunk answers is what it achieved. */
  predicate CanCall(m: Machine, pe: WorkerPool.Event) {
    && m.proc.Running? && WorkerPool.Enabled(m.proc.pool, pe)
    && (pe.CallDeliver? ==> pe.w < |m.proc.subs| && m.proc.subs[pe.w] == (if pe.ok then Stored else Bad))
  }

  predicate CanCheckpoint(m: Machine, job: Job, w: nat, sub: Sub) {
    AtDelivery(m, job, w) && m.proc.subs[w] == sub
  }

  predicate Enabled(m: Machine, e: Event, job: Job) {
    match e
    case StartRun(_) => m.proc.Down?
    case TearNew => m.proc.Creating? && !m.proc.tmpReady
    case WriteNew(_) => m.proc.Creating? && !m.proc.tmpReady
    case RenameNew(_) => m.proc.Creating? && m.proc.tmpReady
    case OpenDest(_, _) => m.proc.OpeningFile?
    case OfPool(pe) => CanCall(m, pe)
    case WriteSome(w, k) => CanWriteSome(m, job, w, k)
    case WriteStops(w) => CanWriteSome(m, job, w, 0)
    case TakeLock(w) => CanTakeLock(m, job, w)
    case TearTmp(w) => CanCheckpoint(m, job, w, Locked)
    case WriteTheTmp(w, _) => CanCheckpoint(m, job, w, Locked)
    case RenameTheTmp(w, _) => CanCheckpoint(m, job, w, TmpReady)
    case GiveUp => m.proc.Running? && m.proc.pool.verdict == Some(false)
    case Sync(_) => m.proc.Running? && m.proc.pool.verdict == Some(true)
    case RemoveSidecar(_) => m.proc.Synced?
    case Interrupt => true
  }

  function SetSub(m: Machine, w: nat, sub: Sub): Machine
    requires m.proc.Running? && w < |m.proc.subs|
  {
    m.(proc := m.proc.(subs := m.proc.subs[w := sub]))
  }

  function FileOf(d: Disk): seq<byte> {
    match d.file
    case None => []
    case Some(f) => f
  }

  /** Write the bytes [lo, hi) of the object where they belong. */
  function Deposit(d: Disk, job: Job, lo: nat, hi: nat): Disk
    requires lo <= hi <= |job.src|
  {
    d.(file := Some(WriteAt(FileOf(d), job.base + lo, job.src[lo..hi])))
  }

  function WriteSomeStep(m: Machine, job: Job, w: nat, k: nat): Machine
    requires CanWriteSome(m, job, w, k)
  {
    var from := ChunkOf(m, job, w).start + m.proc.subs[w].done;
    SetSub(m.(disk := Deposit(m.disk, job, from, from + k)), w, Writing(m.proc.subs[w].done + k))
  }

  function TakeLockStep(m: Machine, job: Job, w: nat): Machine
    requires CanTakeLock(m, job, w)
  {
    match Mark(m.proc.mem, 0, ChunkOf(m, job, w).index)
    case None => SetSub(m, w, Bad)
    case Some(t) => SetSub(m.(proc := m.proc.(mem := t, lock := Some(w))), w, Locked)
  }

  /** os.WriteFile on the temporary sidecar; a failure releases the mutex. */
  function TmpStep(m: Machine, w: nat, ok: bool): Machine
    requires m.proc.Running? && w < |m.proc.subs|
  {
    var d := m.disk.(side := WriteTmp(m.disk.side, m.proc.mem, ok));
    if ok then SetSub(m.(disk := d), w, TmpReady) else SetSub(Machine(d, m.proc.(lock := None)), w, Bad)
  }

  /** os.Rename onto the sidecar; either way the mutex is released. */
  function RenameStep(m: Machine, w: nat, ok: bool): Machine
    requires m.proc.Running? && w < |m.proc.subs|
  {
    SetSub(Machine(m.disk.(side := RenameTmp(m.disk.side, ok)), m.proc.(lock := None)), w, if ok then Stored else Bad)
  }

  /** The worker's call, and its return to the beginning of WriteChunk when it delivers. */
  function OfPoolStep(m: Machine, pe: WorkerPool.Event): Machine
    requires CanCall(m, pe)
  {
    m.(proc := m.proc.(pool := WorkerPool.Apply(m.proc.pool, pe),
                       subs := if pe.CallDeliver? then m.proc.subs[pe.w := Writing(0)] else m.proc.subs))
  }

  function Apply(m: Machine, e: Event, job: Job): Machine
    requires job.cfg.splitSize >= 1 && ValidConfig(job.cfg) && Enabled(m, e, job)
  {
    match e
    case StartRun(removed) => Begin(m.disk, job, removed)
    case TearNew => m.(disk := m.disk.(side := WriteTmp(m.disk.side, m.proc.mem, false)))
    case WriteNew(ok) =>
      Machine(m.disk.(side := WriteTmp(m.disk.side, m.proc.mem, ok)),
              if ok then m.proc.(tmpReady := true) else Returned(m.proc.plan, false))
    case RenameNew(ok) =>
      Machine(m.disk.(side := RenameTmp(m.disk.side, ok)),
              if ok then OpeningFile(m.proc.plan, m.proc.mem) else Returned(m.proc.plan, false))
    case OpenDest(ok, now) =>
      if !ok then m.(proc := Returned(m.proc.plan, false))
      else
        Machine(m.disk.(file := Some(FileOf(m.disk))),
                Running(m.proc.plan, Init(job.cfg, m.proc.plan, now), seq(job.cfg.connections, _ => Writing(0)), m.proc.mem, None))
    case OfPool(pe) => OfPoolStep(m, pe)
    case WriteSome(w, k) => WriteSomeStep(m, job, w, k)
    case WriteStops(w) => SetSub(m, w, Bad)
    case TakeLock(w) => TakeLockStep(m, job, w)
    case TearTmp(w) => m.(disk := m.disk.(side := WriteTmp(m.disk.side, m.proc.mem, false)))
    case WriteTheTmp(w, ok) => TmpStep(m, w, ok)
    case RenameTheTmp(w, ok) => RenameStep(m, w, ok)
    case GiveUp => m.(proc := Returned(m.proc.plan, false))
    case Sync(ok) => m.(proc := if ok then Synced(m.proc.plan) else Returned(m.proc.plan, false))
    case RemoveSidecar(ok) =>
      if ok then Machine(m.disk.(side := m.disk.side.(sidecar := None)), Returned(m.proc.plan, true))
      else m.(proc := Returned(m.proc.plan, false))
    case Interrupt => m.(proc := Down)
  }

  predicate Legal(m: Machine, es: seq<Event>, job: Job)
    requires ValidConfig(job.cfg)
    decreases |es|
  {
    es == [] || (Enabled(m, es[0], job) && Legal(Apply(m, es[0], job), es[1..], job))
  }

  function Exec(m: Machine, es: seq<Event>, job: Job): Machine
    requires ValidConfig(job.cfg) && Legal(m, es, job)
    decreases |es|
  {
    if es == [] then m else Exec(Apply(m, es[0], job), es[1..], job)
  }
}
