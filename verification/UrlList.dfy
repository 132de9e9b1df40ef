/** The loop over all URLs (`Run` in internal/job/runner.go). What each URL's transfer does is given; the parallel
    transfers are those of StreamTransfer and FileTransfer. */
module UrlList {
  import opened Basics
  import opened Chunks
  import opened Scheduling
  import opened WorkerPool
  import opened Streaming
  import opened Positional
  import opened SequentialCopy
  import ST = StreamTransfer
  import FT = FileTransfer
  import FR = FileResume
  import FV = FileRecovery
  import FX = FileTheorems
  import Sidecar

  const SUCCESS: nat := 0
  const PARSE_ERROR: nat := 2

  /** One call of runOneJob and its exit code. `known` says whether the probe has told the size. */
  datatype Attempt =
    | NotStarted(src: seq<byte>, code: nat)                // no metadata, or no destination
    | Sequential(src: seq<byte>, known: bool, body: Body, fault: Option<Fault>, code: nat)   // downloadSequential to the output
    | SequentialFile(src: seq<byte>, known: bool, code: nat)                                 // ... to a file of its own
    | Stream(src: seq<byte>, cfg: Config, now: nat, run: seq<ST.Event>, code: nat)           // downloadParallelStream
    | File(src: seq<byte>, cfg: Config, disk: FT.Disk, removed: bool, transfer: seq<FT.Event>, code: nat)
                                                           // downloadParallelFile, to a file of its own

  predicate ToFile(a: Attempt) {
    a.File? || a.SequentialFile?
  }

  function StreamEnd(a: Attempt): ST.Stream
    requires a.Stream? && Feasible(a)
  {
    ST.Exec(ST.Init(a.cfg, PlanOf(|a.src|, a.cfg.splitSize), a.now), a.run, a.src)
  }

  /** What transfers can do: a sequential one copies a body of the object; a parallel one is a run of the stream machine
      that has returned. */
  ghost predicate Feasible(a: Attempt) {
    match a
    case NotStarted(_, code) => code != SUCCESS
    case Sequential(src, _, body, fault, code) => BodyOf(body, src) && (code == SUCCESS <==> Copied(body, fault).1)
    case Stream(src, cfg, now, run, code) =>
      && cfg.splitSize >= 1 && src != []
      && var plan := PlanOf(|src|, cfg.splitSize);
      && ST.ValidSetup(cfg, plan, src)
      && ST.Legal(ST.Init(cfg, plan, now), run, src)
      && ST.Exec(ST.Init(cfg, plan, now), run, src).result == Some(code == SUCCESS)
    case _ => true
  }

  /** A parallel transfer to a file is a run of the file machine, at the base offset reached so far, that has returned. */
  ghost predicate RunsAt(a: Attempt, base: nat)
    requires a.File?
  {
    var job := FT.Job(a.cfg, a.src, base);
    && FT.ValidJob(job) && FT.Legal(FT.Begin(a.disk, job, a.removed), a.transfer, job) && FR.NoStart(a.transfer)
    && var end := FT.Exec(FT.Begin(a.disk, job, a.removed), a.transfer, job);
    end.proc.Returned? && (end.proc.ok <==> a.code == SUCCESS)
  }

  ghost function FileAfter(a: Attempt, base: nat): seq<byte>
    requires a.File? && RunsAt(a, base)
  {
    var job := FT.Job(a.cfg, a.src, base);
    FT.FileOf(FT.Exec(FT.Begin(a.disk, job, a.removed), a.transfer, job).disk)
  }

  ghost predicate AllFeasible(urls: seq<Attempt>) {
    forall i :: 0 <= i < |urls| ==> Feasible(urls[i])
  }

  /** What a transfer writes to standard output. */
  function Sent(a: Attempt): seq<byte>
    requires Feasible(a)
  {
    match a
    case Sequential(_, _, body, fault, _) => Copied(body, fault).0
    case Stream(_, _, _, _, _) => StreamEnd(a).out
    case _ => []
  }

  /** downloadParallelFile adds the size when there was nothing to do, and otherwise once its workers have returned,
      whatever their verdict; not when the sidecar or the destination cannot be opened. */
  predicate Counted(a: Attempt)
    requires a.File?
  {
    (a.cfg.splitSize >= 1 && FT.Begin(a.disk, FT.Job(a.cfg, a.src, 0), a.removed).proc.Returned?) || HasOpened(a.transfer)
  }

  predicate HasOpened(es: seq<FT.Event>) {
    exists i :: 0 <= i < |es| && es[i].OpenDest? && es[i].ok
  }

  /** By how much a transfer advances outputBaseOffset. */
  function Adds(a: Attempt): nat {
    match a
    case Sequential(src, known, _, _, code) => if code == SUCCESS && known then |src| else 0
    case SequentialFile(src, known, code) => if code == SUCCESS && known then |src| else 0
    case File(src, _, _, _, _, _) => if Counted(a) then |src| else 0
    case _ => 0
  }

  /** Standard output, and the offset variable shared by all URLs. */
  class Output {
    var bytes: seq<byte>
    var baseOffset: nat

    constructor ()
      ensures bytes == [] && baseOffset == 0
    {
      bytes, baseOffset := [], 0;
    }
  }

  /** How many URLs are attempted: with one common output, up to and including the first failure. */
  function Attempted(urls: seq<Attempt>, common: bool): (n: nat)
    ensures n <= |urls|
  {
    if urls == [] then 0
    else if common && urls[0].code != SUCCESS then 1
    else 1 + Attempted(urls[1..], common)
  }

  function AllSent(urls: seq<Attempt>): seq<byte>
    requires AllFeasible(urls)
  {
    if urls == [] then [] else AllSent(urls[..|urls| - 1]) + Sent(urls[|urls| - 1])
  }

  function Offset(urls: seq<Attempt>): nat {
    if urls == [] then 0 else Offset(urls[..|urls| - 1]) + Adds(urls[|urls| - 1])
  }

  function Worst(urls: seq<Attempt>): nat {
    if urls == [] then SUCCESS else Max(Worst(urls[..|urls| - 1]), urls[|urls| - 1].code)
  }

  function ExitCode(urls: seq<Attempt>, common: bool): nat {
    var n := Attempted(urls, common);
    if urls == [] then PARSE_ERROR
    else if common then urls[n - 1].code
    else Worst(urls)
  }

  lemma {:induction false} AttemptedStops(urls: seq<Attempt>, common: bool)
    ensures var n := Attempted(urls, common);
            && (urls != [] ==> n > 0)
            && (forall i :: 0 <= i < n - 1 ==> common ==> urls[i].code == SUCCESS)
            && (n < |urls| ==> common && urls[n - 1].code != SUCCESS)
    decreases |urls|
  {
    if urls != [] && !(common && urls[0].code != SUCCESS) {
      AttemptedStops(urls[1..], common);
      var n := Attempted(urls[1..], common);
      forall i | 0 <= i < n && common ensures urls[i].code == SUCCESS {
        if i > 0 { assert urls[1..][i - 1].code == SUCCESS; }
      }
    }
  }

  /** Nothing is attempted after position i fails with a common output, and otherwise the loop goes on. */
  lemma AttemptedAt(urls: seq<Attempt>, common: bool, i: nat)
    requires i < |urls|
    requires common ==> forall j :: 0 <= j < i ==> urls[j].code == SUCCESS
    ensures common && urls[i].code != SUCCESS ==> Attempted(urls, common) == i + 1
    ensures !(common && urls[i].code != SUCCESS) && i + 1 == |urls| ==> Attempted(urls, common) == |urls|
  {
    AttemptedStops(urls, common);
  }

  lemma OneMore(urls: seq<Attempt>, i: nat)
    requires i < |urls| && AllFeasible(urls)
    ensures AllSent(urls[..i + 1]) == AllSent(urls[..i]) + Sent(urls[i])
    ensures Offset(urls[..i + 1]) == Offset(urls[..i]) + Adds(urls[i])
    ensures Worst(urls[..i + 1]) == Max(Worst(urls[..i]), urls[i].code)
  {
    hide Sent, Adds, Feasible;
    assert urls[..i + 1][..i] == urls[..i];
  }

  lemma BeforeFirst(urls: seq<Attempt>)
    ensures urls[..0] == [] && AllSent([]) == [] && Offset([]) == 0 && Worst([]) == SUCCESS && Attempted([], true) == Attempted([], false) == 0
  {
  }

  /** `common` is true when all URLs go to one output. */
  method Run(urls: seq<Attempt>, common: bool, output: Output) returns (code: nat)
    requires AllFeasible(urls)
    modifies output
    ensures code == ExitCode(urls, common)
    ensures output.bytes == old(output.bytes) + AllSent(urls[..Attempted(urls, common)])
    ensures output.baseOffset == old(output.baseOffset) + Offset(urls[..Attempted(urls, common)])
  {
    hide AllSent, Sent, Offset, Adds, Worst, Feasible, Attempted;
    BeforeFirst(urls);
    if |urls| == 0 { return PARSE_ERROR; }
    var worst := SUCCESS;
    var i := 0;
    while i < |urls|
      invariant 0 <= i <= |urls|
      invariant worst == Worst(urls[..i])
      invariant common ==> forall j :: 0 <= j < i ==> urls[j].code == SUCCESS
      invariant common ==> worst == SUCCESS
      invariant output.bytes == old(output.bytes) + AllSent(urls[..i])
      invariant output.baseOffset == old(output.baseOffset) + Offset(urls[..i])
    {
      var a := urls[i];
      AttemptedAt(urls, common, i);
      OneMore(urls, i);
      output.bytes := output.bytes + Sent(a);   // by Copy or by the writer of the stream sink
      output.baseOffset := output.baseOffset + Adds(a);
      if a.code != SUCCESS && common { return a.code; }
      if a.code > worst { worst := a.code; }
      i := i + 1;
    }
    AttemptedAt(urls, common, |urls| - 1);
    assert urls[..|urls|] == urls;
    return worst;
  }

  // ----- the exit code

  lemma {:induction false} WorstIsMax(urls: seq<Attempt>)
    ensures forall i :: 0 <= i < |urls| ==> urls[i].code <= Worst(urls)
    ensures Worst(urls) == SUCCESS || exists i :: 0 <= i < |urls| && urls[i].code == Worst(urls)
  {
    if urls != [] {
      var front := urls[..|urls| - 1];
      WorstIsMax(front);
      assert forall i :: 0 <= i < |front| ==> front[i] == urls[i];
      if urls[|urls| - 1].code < Worst(front) && Worst(front) != SUCCESS {
        var i :| 0 <= i < |front| && front[i].code == Worst(front);
        assert urls[i].code == Worst(urls);
      }
    }
  }

  /** What the exit code says: 2 if no URL was given; 0 exactly if every URL succeeded; else the code of the first failure
      when all URLs share an output, and the greatest code of all when each has its own file. */
  lemma ExitCodeExactly(urls: seq<Attempt>, common: bool)
    ensures urls == [] ==> ExitCode(urls, common) == 2
    ensures urls != [] ==> (ExitCode(urls, common) == 0 <==> forall i :: 0 <= i < |urls| ==> urls[i].code == 0)
    ensures urls != [] && ExitCode(urls, common) != 0 ==>
              exists i :: 0 <= i < |urls| && urls[i].code == ExitCode(urls, common)
                && if common then forall j :: 0 <= j < i ==> urls[j].code == 0
                   else forall j :: 0 <= j < |urls| ==> urls[j].code <= urls[i].code
  {
    var n := Attempted(urls, common);
    AttemptedStops(urls, common);
    WorstIsMax(urls);
    hide Attempted, Worst;
    if urls != [] && common {
      assert urls[n - 1].code == ExitCode(urls, common);
    }
  }

  // ----- one output for all URLs

  lemma SentIsPrefix(a: Attempt)
    requires Feasible(a)
    ensures Sent(a) <= a.src
    ensures a.code == SUCCESS && !ToFile(a) ==> Sent(a) == a.src
  {
    if a.Sequential? { CopyIsPrefix(a.body, a.fault, a.src); }
    if a.Stream? {
      var plan := PlanOf(|a.src|, a.cfg.splitSize);
      ST.StreamOrder(a.cfg, plan, a.src, a.now, a.run);
      if a.code == SUCCESS { ST.StreamSuccessIsExact(a.cfg, plan, a.src, a.now, a.run); }
    }
  }

  /** The objects themselves, one after the other. */
  function Concatenation(urls: seq<Attempt>): seq<byte> {
    if urls == [] then [] else Concatenation(urls[..|urls| - 1]) + urls[|urls| - 1].src
  }

  lemma {:induction false} SuccessesConcatenate(urls: seq<Attempt>)
    requires AllFeasible(urls) && forall i :: 0 <= i < |urls| ==> !ToFile(urls[i]) && urls[i].code == SUCCESS
    ensures AllSent(urls) == Concatenation(urls)
  {
    if urls != [] {
      SuccessesConcatenate(urls[..|urls| - 1]);
      SentIsPrefix(urls[|urls| - 1]);
    }
  }

  /** Concatenation. With standard output as the destination, whatever path each URL takes: success means that the
      output is all objects in order. After a failure it is the objects of the URLs before the failing one and a
      prefix of that one's; later URLs add nothing, and the exit code is the failing URL's. */
  lemma ConcatenationExact(urls: seq<Attempt>)
    requires AllFeasible(urls) && urls != [] && forall i :: 0 <= i < |urls| ==> !ToFile(urls[i])
    ensures var n, out := Attempted(urls, true), AllSent(urls[..Attempted(urls, true)]);
            if ExitCode(urls, true) == SUCCESS then n == |urls| && out == Concatenation(urls)
            else
              && (forall i :: 0 <= i < n - 1 ==> urls[i].code == SUCCESS) && urls[n - 1].code == ExitCode(urls, true)
              && Concatenation(urls[..n - 1]) <= out <= Concatenation(urls[..n]) <= Concatenation(urls)
  {
    var n := Attempted(urls, true);
    AttemptedStops(urls, true);
    hide AllSent, Sent, Feasible, Concatenation, Attempted, RunsAt, Adds;
    SuccessesConcatenate(urls[..n - 1]);
    SentIsPrefix(urls[n - 1]);
    OneMore(urls, n - 1);
    OneLonger(urls, n - 1);
    assert urls[..|urls|] == urls;
    Longer(urls, n);
    PrefixAfter(Concatenation(urls[..n - 1]), Sent(urls[n - 1]), urls[n - 1].src);
  }

  lemma PrefixAfter(a: seq<byte>, b: seq<byte>, c: seq<byte>)
    requires b <= c
    ensures a <= a + b <= a + c
  {
  }

  lemma OneLonger(urls: seq<Attempt>, i: nat)
    requires i < |urls|
    ensures Concatenation(urls[..i + 1]) == Concatenation(urls[..i]) + urls[i].src
  {
    assert urls[..i + 1][..i] == urls[..i];
  }

  lemma {:induction false} Longer(urls: seq<Attempt>, n: nat)
    requires n <= |urls|
    ensures Concatenation(urls[..n]) <= Concatenation(urls)
    decreases |urls| - n
  {
    if n == |urls| {
      assert urls[..n] == urls;
    } else {
      Longer(urls, n + 1);
      OneLonger(urls, n);
    }
  }

  // ----- a file for each URL

  /** Every parallel transfer to a file begins where the URLs before it have moved the offset. */
  ghost predicate AllRun(urls: seq<Attempt>) {
    forall i :: 0 <= i < |urls| && urls[i].File? ==> RunsAt(urls[i], Offset(urls[..i]))
  }

  lemma {:induction false} OffsetZero(urls: seq<Attempt>)
    ensures Offset(urls) == 0 <==> forall i :: 0 <= i < |urls| ==> Adds(urls[i]) == 0
  {
    if urls != [] {
      var front := urls[..|urls| - 1];
      OffsetZero(front);
      assert forall i :: 0 <= i < |front| ==> urls[i] == front[i];
    }
  }

  /** Without OpenDest the workers never start. */
  lemma {:induction false} NeverOpened(m: FT.Machine, es: seq<FT.Event>, job: FT.Job)
    requires FT.ValidJob(job) && FT.Legal(m, es, job) && FR.NoStart(es) && !HasOpened(es)
    requires !m.proc.Running? && !m.proc.Synced? && (m.proc.Returned? ==> !m.proc.ok)
    ensures var n := FT.Exec(m, es, job); n.proc.Returned? ==> !n.proc.ok
    decreases |es|
  {
    if es != [] {
      assert !(es[0].OpenDest? && es[0].ok) && es[0] in es;
      assert forall i :: 0 <= i < |es[1..]| ==> es[1..][i] == es[i + 1];
      NotOpenedNow(m, es[0], job);
      hide FT.Apply, FT.Enabled;
      NeverOpened(FT.Apply(m, es[0], job), es[1..], job);
    }
  }

  lemma NotOpenedNow(m: FT.Machine, e: FT.Event, job: FT.Job)
    requires FT.ValidJob(job) && FT.Enabled(m, e, job) && !e.StartRun? && !(e.OpenDest? && e.ok)
    requires !m.proc.Running? && !m.proc.Synced? && (m.proc.Returned? ==> !m.proc.ok)
    ensures var n := FT.Apply(m, e, job); !n.proc.Running? && !n.proc.Synced? && (n.proc.Returned? ==> !n.proc.ok)
  {
  }

  lemma BeginAnyBase(a: Attempt, base: nat)
    requires a.File? && a.cfg.splitSize >= 1
    ensures var m, m' := FT.Begin(a.disk, FT.Job(a.cfg, a.src, base), a.removed), FT.Begin(a.disk, FT.Job(a.cfg, a.src, 0), a.removed);
            && (m.proc.Returned? <==> m'.proc.Returned?)
            && !m.proc.Running? && !m.proc.Synced?
  {
    hide FT.ResumeSet;
  }

  /** A successful parallel download to a file is always counted. */
  lemma SuccessCounts(a: Attempt, base: nat)
    requires a.File? && RunsAt(a, base) && a.code == SUCCESS
    ensures Adds(a) == |a.src| > 0
  {
    BeginAnyBase(a, base);
    var job := FT.Job(a.cfg, a.src, base);
    hide FT.Begin, FT.Exec, FT.Legal;
    if !Counted(a) { NeverOpened(FT.Begin(a.disk, job, a.removed), a.transfer, job); }
  }

  /** The base offset is carried over from file to file. When URL k is downloaded in parallel to a new file of its own
      and succeeds, the file is the object behind as many zero bytes as the URLs before it have counted; so it is the
      object if and only if they have counted nothing. After a parallel download to a file that succeeded, or whose workers
      were started, and after a sequential one of a known size it never is; after streams, transfers that were not started,
      and sequential ones that failed or had no known size alone it always is. */
  lemma FileOfItsOwn(urls: seq<Attempt>, k: nat)
    requires k < |urls| && AllRun(urls) && urls[k].File? && urls[k].code == SUCCESS
    requires urls[k].disk.file == None && Sidecar.Loaded(urls[k].disk.side) == None
    ensures var file := FileAfter(urls[k], Offset(urls[..k]));
            && file == Zeros(Offset(urls[..k])) + urls[k].src
            && (file == urls[k].src <==> forall i :: 0 <= i < k ==> Adds(urls[i]) == 0)
            && (forall i :: 0 <= i < k && urls[i].File? && urls[i].code == SUCCESS ==> file != urls[k].src)
            && (forall i :: 0 <= i < k && urls[i].src != [] && (Measured(urls[i]) || WorkersRan(urls[i])) ==> file != urls[k].src)
            && ((forall i :: 0 <= i < k ==> !urls[i].File? && !Measured(urls[i])) ==> file == urls[k].src)
  {
    var a, base := urls[k], Offset(urls[..k]);
    OwnFile(a, base);
    OffsetZero(urls[..k]);
    assert forall i :: 0 <= i < k ==> urls[..k][i] == urls[i];
    forall i | 0 <= i < k && urls[i].File? && urls[i].code == SUCCESS ensures Adds(urls[i]) > 0 {
      SuccessCounts(urls[i], Offset(urls[..i]));
    }
    MeasuredAdds(urls);
    hide Adds, Offset, RunsAt, Feasible;
  }

  /** A sequential transfer that succeeded, of an object whose size the probe had told. */
  predicate Measured(a: Attempt) {
    (a.Sequential? || a.SequentialFile?) && a.known && a.code == SUCCESS
  }

  /** A parallel transfer to a file whose workers were started, with whatever success. */
  predicate WorkersRan(a: Attempt) {
    a.File? && HasOpened(a.transfer)
  }

  lemma MeasuredAdds(urls: seq<Attempt>)
    ensures forall i :: 0 <= i < |urls| && !urls[i].File? ==> Adds(urls[i]) == if Measured(urls[i]) then |urls[i].src| else 0
    ensures forall i :: 0 <= i < |urls| && WorkersRan(urls[i]) ==> Adds(urls[i]) == |urls[i].src|
  {
  }

  lemma OwnFile(a: Attempt, base: nat)
    requires a.File? && RunsAt(a, base) && a.code == SUCCESS
    requires a.disk.file == None && Sidecar.Loaded(a.disk.side) == None
    ensures FileAfter(a, base) == Zeros(base) + a.src && (FileAfter(a, base) == a.src <==> base == 0)
  {
    var job := FT.Job(a.cfg, a.src, base);
    FX.FreshIsPrefix(job);
    FX.FileSuccessIsExact(a.disk, job, [], a.removed, a.transfer);
  }

  /** Such downloads exist at every offset. */
  lemma OwnFileExists(src: seq<byte>, cfg: Config, base: nat) returns (a: Attempt)
    requires ValidConfig(cfg) && !cfg.streamMode && src != []
    ensures a.File? && a.src == src && a.code == SUCCESS && RunsAt(a, base)
    ensures a.disk.file == None && Sidecar.Loaded(a.disk.side) == None
  {
    var job := FT.Job(cfg, src, base);
    FV.EmptyBegins(job, true);
    var run := FV.DownloadCanSucceed(FV.EMPTY, job, true);
    a := File(src, cfg, FV.EMPTY, true, run, SUCCESS);
  }
}
