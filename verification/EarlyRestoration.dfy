/** A download in which a connection slot is given up and restored at once, although "at least four chunks completed since
    the last reduction" (section 12.4 of ARCHITECTURE.md) does not hold: a run of the worker pool from its beginning. */
module EarlyRestoration {
  import opened Chunks
  import opened Backoff
  import opened Scheduling
  import opened WorkerPool
  import opened ResumeGaps

  /** Nothing is under way, and slot 0 has been turned away once since its last success. */
  predicate TurnedOnce(p: Pool) {
    FullTarget(p) && p.sched.cooldownUntil == 0 && |p.sched.workers| > 0 && p.sched.workers[0].admissionFailures == 1
  }

  /** The connection for chunk `next` is refused for the first time; the chunk waits for its retry. */
  lemma FirstRefusal(p: Pool, q: Pool, cfg: Config, plan: seq<Chunk>, next: nat, count: int)
    requires Ready(p, cfg, plan, next, count) && Took(p, q, next) && !cfg.streamMode && cfg.maxTries >= 2 && Unreduced(p)
    ensures Stands(q, 0, Opening) && Stands(OpenStep(q, 0, false), 0, Turned)
    ensures var a := AdmissionStep(OpenStep(q, 0, false), 0);
            && Stands(a, 0, Failing)
            && Ready(FailStep(a, 0), cfg, plan, next + 1, count) && TurnedOnce(FailStep(a, 0)) && FailStep(a, 0).now == p.now
  {
    assert RetryBackoff(1) == SECOND by { EarlyBackoff(1); }
  }

  lemma RefusedOnce(p0: Pool, p: Pool, q: Pool, cfg: Config, plan: seq<Chunk>, next: nat, count: int) returns (r: Pool)
    requires Reaches(p0, q) && Ready(p, cfg, plan, next, count) && Took(p, q, next)
    requires !cfg.streamMode && cfg.maxTries >= 2 && Unreduced(p)
    ensures Reaches(p0, r) && Ready(r, cfg, plan, next + 1, count) && TurnedOnce(r) && r.now == p.now
  {
    FirstRefusal(p, q, cfg, plan, next, count);
    hide Ready, Took, OpenStep, AdmissionStep, FailStep, Reaches, TurnedOnce, Unreduced;
    Reach(p0, q, CallOpenRange(0, false));
    var a := OpenStep(q, 0, false);
    Reach(p0, a, CallOnAdmissionFailure(0));
    var b := AdmissionStep(a, 0);
    Reach(p0, b, CallMarkFailed(0));
    r := FailStep(b, 0);
  }

  /** The second refusal lowers the target. */
  lemma SecondRefusal(p: Pool, q: Pool, cfg: Config, plan: seq<Chunk>, next: nat, count: int)
    requires Ready(p, cfg, plan, next, count) && Took(p, q, next) && !cfg.streamMode && TurnedOnce(p) && cfg.connections >= 2
    ensures Stands(q, 0, Opening) && Stands(OpenStep(q, 0, false), 0, Turned)
    ensures var a := AdmissionStep(OpenStep(q, 0, false), 0);
            && Stands(a, 0, Failing) && a.sched.effectiveTarget < q.sched.effectiveTarget && Restorable(a, count, p.now)
  {
  }

  /** A slot was given up, and no cooldown is in force. */
  predicate Restorable(p: Pool, count: int, now: int) {
    && p.sched.effectiveTarget < p.sched.cfg.connections && p.sched.cooldownUntil == 0
    && p.sched.completedCount == count && p.now == now && !p.sched.cfg.streamMode && !p.rootDone
  }

  lemma FailureKeeps(a: Pool, count: int, now: int)
    requires Stands(a, 0, Failing) && Restorable(a, count, now)
    ensures Stands(FailStep(a, 0), 0, Head)
    ensures var b := CheckRootStep(FailStep(a, 0), 0);
            Stands(b, 0, Ask) && Restorable(b, count, now) && b.sched.effectiveTarget == a.sched.effectiveTarget
  {
    hide RetryBackoff;
  }

  lemma AskRestores(b: Pool, count: int, now: int)
    requires Stands(b, 0, Ask) && Restorable(b, count, now) && count >= 4 && now >= 1
    ensures AskStep(b, 0).sched.effectiveTarget > b.sched.effectiveTarget
  {
    hide FirstRetryable;
  }

  lemma InitUnreduced(cfg: Config, plan: seq<Chunk>, now: nat)
    requires ValidConfig(cfg) && !cfg.streamMode && cfg.connections <= |plan|
    ensures Unreduced(Init(cfg, plan, now))
  {
  }

  /** Worker 0 transfers four chunks and is refused the next two. The second refusal takes its slot away (p to the state
      after AdmissionStep), and its very next call of NextAssignment (in q) gives it back, with no completion between. */
  lemma RestoredTooEarly(cfg: Config, plan: seq<Chunk>, now: nat) returns (p: Pool, q: Pool)
    requires ValidConfig(cfg) && !cfg.streamMode && 2 <= cfg.connections <= |plan| && |plan| >= 6 && cfg.maxTries >= 2
    requires now >= 1 && forall i :: 0 <= i < |plan| ==> plan[i].state == Pending && plan[i].attempts == 0
    ensures Reaches(Init(cfg, plan, now), p) && Stands(p, 0, Turned)
    ensures var reduced := AdmissionStep(p, 0);
            && reduced.sched.effectiveTarget < p.sched.effectiveTarget
            && Reaches(reduced, q) && Stands(q, 0, Ask)
            && q.sched.effectiveTarget == reduced.sched.effectiveTarget < AskStep(q, 0).sched.effectiveTarget
            && q.sched.completedCount == p.sched.completedCount
  {
    var p0 := Init(cfg, plan, now);
    assert InState(plan, Completed) == {};
    InitReady(cfg, plan, now);
    InitUnreduced(cfg, plan, now);
    ReachSelf(p0);
    hide Ready, Took, Reaches, Init, Unreduced, TurnedOnce, OpenStep, AdmissionStep, FailStep, CheckRootStep, AskStep;
    var a := Feed(p0, p0, cfg, plan, 0, 0, 4);
    var b := Take(p0, a, cfg, plan, 4, 4);
    var c := RefusedOnce(p0, a, b, cfg, plan, 4, 4);
    var d := Take(p0, c, cfg, plan, 5, 4);
    SecondRefusal(c, d, cfg, plan, 5, 4);
    Reach(p0, d, CallOpenRange(0, false));
    p := OpenStep(d, 0, false);
    OpenKeepsSched(d);
    var e := AdmissionStep(p, 0);
    FailureKeeps(e, 4, c.now);
    AskRestores(CheckRootStep(FailStep(e, 0), 0), 4, c.now);
    TookCounts(c, d, 5, cfg, plan);
    ReachSelf(e);
    Reach(e, e, CallMarkFailed(0));
    Reach(e, FailStep(e, 0), CheckRoot(0));
    q := CheckRootStep(FailStep(e, 0), 0);
  }

  lemma TookCounts(p: Pool, q: Pool, next: nat, cfg: Config, plan: seq<Chunk>)
    requires Ready(p, cfg, plan, next, 4) && Took(p, q, next)
    ensures q.sched.completedCount == 4
  {
  }

  lemma OpenKeepsSched(p: Pool)
    requires Stands(p, 0, Opening)
    ensures OpenStep(p, 0, false).sched == p.sched
  {
  }
}
