/** Theorems about whole runs of the worker system: stability of settled jobs, the exact step
    budget, backoff, and the order in which due jobs are served. */
module WorkerRuns {
  import opened Common
  import opened JobQueue
  import opened Validator
  import opened Worker
  import opened WorkerInvariant
  import TE = TrustEngine

  // ---- What one step does to the job table --------------------------------------------

  datatype Change = Same | Added(job: Job) | Replaced(row: nat, job: Job)

  function Applied(jobs: seq<Job>, c: Change): seq<Job> {
    if c.Added? then jobs + [c.job]
    else if c.Replaced? && c.row < |jobs| then jobs[c.row := c.job]
    else jobs
  }

  function Settles(w: World, s: Step): bool {
    s.FinaliseStep? && CanFinalise(w, s.worker)
  }

  function ChangeOf(w: World, s: Step): Change {
    match s
    case EnqueueStep(elapsed, portal, payer, action, payload, scheduledFor, maxAttempts) =>
      Added(NewJob(|w.db.jobs|, portal, payer, action, payload, scheduledFor, maxAttempts, w.now + elapsed))
    case ClaimStep(elapsed, _) =>
      var i := Taken(w, s);
      if i.Some? then Replaced(i.value, Started(w.db.jobs[i.value], w.now + elapsed)) else Same
    case FinaliseStep(elapsed, worker, report) =>
      if !CanFinalise(w, worker) then Same
      else
        var c := w.held[worker].job;
        Replaced(c.jobId, SettledJob(w.db.jobs[c.jobId], Settle(c, report), w.now + elapsed))
    case CrashStep(_) => Same
  }

  lemma ChangeIsStep(w: World, s: Step)
    ensures Next(w, s).db.jobs == Applied(w.db.jobs, ChangeOf(w, s))
  {
  }

  /** A finalisation replaces a RUNNING row: it stops running, keeps its attempts and, when it
      goes back to PENDING, is scheduled 30 seconds per attempt ahead of now. */
  lemma SettlingReplaces(w: World, s: Step)
    requires Inv(w) && Settles(w, s)
    ensures var i := w.held[s.worker].job.jobId;
            var after := ChangeOf(w, s).job;
            && ChangeOf(w, s) == Replaced(i, after)
            && w.db.jobs[i].status == Running && after.status != Running
            && w.db.jobs[i].attempts == after.attempts >= 1
            && (after.status == Pending ==> after.scheduledFor == w.now + s.elapsed + 30 * after.attempts)
            && Cap(w.db.jobs[i]) == Cap(after)
            && LaterRow(w.db.jobs[i], after)
  {
    var c := w.held[s.worker];
    assert ClaimOk(w.db, c);
    assert JobOk(w.db.jobs[c.job.jobId]);
    SettledJobOk(w.db.jobs[c.job.jobId], Settle(c.job, s.report), w.now + s.elapsed);
  }

  /** The change such a replacement makes to any total over the table. */
  function Moved(jobs: seq<Job>, c: Change, f: Job -> int): int {
    if c.Added? then f(c.job)
    else if c.Replaced? && c.row < |jobs| then f(c.job) - f(jobs[c.row])
    else 0
  }

  lemma SumApplied(jobs: seq<Job>, c: Change, f: Job -> int)
    ensures Sum(Applied(jobs, c), f) == Sum(jobs, f) + Moved(jobs, c, f)
  {
    if c.Added? {
      SumSingle(jobs, c.job, f);
    } else if c.Replaced? && c.row < |jobs| {
      SumUpdate(jobs, c.row, c.job, f);
    }
  }

  // ---- Rows never regress -------------------------------------------------------------

  /** What a later table may say about a job: same identity, no attempt taken back, and a
      settled job is exactly as it was. */
  ghost predicate LaterRow(a: Job, b: Job) {
    && a.id == b.id && a.portal == b.portal && a.payer == b.payer && a.action == b.action
    && a.payload == b.payload && a.maxAttempts == b.maxAttempts
    && a.attempts <= b.attempts
    && (Terminal(a.status) ==> a == b)
  }

  lemma ReplacedLater(w: World, s: Step)
    requires Inv(w)
    ensures var c := ChangeOf(w, s);
            c.Replaced? && c.row < |w.db.jobs| ==> LaterRow(w.db.jobs[c.row], c.job)
  {
    if Settles(w, s) {
      SettlingReplaces(w, s);
      hide Inv, ChangeOf, CanFinalise;
    }
  }

  lemma StepKeepsRows(w: World, s: Step)
    requires Inv(w)
    ensures |w.db.jobs| <= |Next(w, s).db.jobs|
    ensures forall i :: 0 <= i < |w.db.jobs| ==> LaterRow(w.db.jobs[i], Next(w, s).db.jobs[i])
  {
    hide Inv, Next, ChangeOf;
    ChangeIsStep(w, s);
    ReplacedLater(w, s);
  }

  /** Over any run no terminal status is ever left and no row changes identity. */
  lemma {:induction false} RunKeepsRows(w: World, steps: seq<Step>)
    requires Inv(w)
    ensures |w.db.jobs| <= |Run(w, steps).db.jobs|
    ensures forall i :: 0 <= i < |w.db.jobs| ==> LaterRow(w.db.jobs[i], Run(w, steps).db.jobs[i])
    decreases steps
  {
    if steps != [] {
      NextKeepsInv(w, steps[0]);
      StepKeepsRows(w, steps[0]);
      RunKeepsRows(Next(w, steps[0]), steps[1..]);
    }
  }

  lemma ClaimOutlivesStep(w: World, worker: nat, s: Step)
    requires Inv(w) && worker in w.held && worker in w.dead
    ensures var i, w' := w.held[worker].job.jobId, Next(w, s);
            && worker in w'.held && worker in w'.dead && w'.held[worker] == w.held[worker]
            && i < |w.db.jobs| && i < |w'.db.jobs| && w'.db.jobs[i] == w.db.jobs[i]
  {
    assert ClaimOk(w.db, w.held[worker]);
    ChangeIsStep(w, s);
    if Settles(w, s) {
      SettlingReplaces(w, s);
      assert s.worker != worker;
      assert w.held[s.worker].job.jobId != w.held[worker].job.jobId;
      hide Inv, ChangeOf, Settle, SettledRows;
    }
  }

  /** There is no reaper: a job whose worker died holding it never changes again. */
  lemma {:induction false} CrashStrandsJob(w: World, worker: nat, steps: seq<Step>)
    requires Inv(w) && worker in w.held && worker in w.dead
    ensures var i := w.held[worker].job.jobId;
            && i < |Run(w, steps).db.jobs|
            && Run(w, steps).db.jobs[i] == w.db.jobs[i]
            && w.db.jobs[i].status == Running
    decreases steps
  {
    assert ClaimOk(w.db, w.held[worker]);
    if steps != [] {
      NextKeepsInv(w, steps[0]);
      ClaimOutlivesStep(w, worker, steps[0]);
      hide Inv, Next, ClaimOk;
      CrashStrandsJob(Next(w, steps[0]), worker, steps[1..]);
    }
  }

  // ---- Exact step budget --------------------------------------------------------------

  function Potential(): Job -> int {
    (job: Job) => 2 * (Cap(job) - job.attempts) + Ind(job.status == Running)
  }

  /** Claim and finalise steps still possible if nothing settles early. */
  function Budget(w: World): int {
    Sum(w.db.jobs, Potential())
  }

  /** What a step adds to the budget: two per attempt a new job may use. */
  function Brought(s: Step): int {
    if s.EnqueueStep? then 2 * Max(1, s.maxAttempts) else 0
  }

  lemma StepSpendsOne(w: World, s: Step)
    requires Inv(w)
    ensures Budget(Next(w, s)) + Ind(Productive(w, s)) == Budget(w) + Brought(s)
  {
    ChangeIsStep(w, s);
    SumApplied(w.db.jobs, ChangeOf(w, s), Potential());
    if Settles(w, s) {
      SettlingReplaces(w, s);
    }
  }

  function ProductiveSteps(w: World, steps: seq<Step>): nat
    decreases steps
  {
    if steps == [] then 0
    else Ind(Productive(w, steps[0])) + ProductiveSteps(Next(w, steps[0]), steps[1..])
  }

  function BroughtBy(steps: seq<Step>): int
    decreases steps
  {
    if steps == [] then 0 else Brought(steps[0]) + BroughtBy(steps[1..])
  }

  lemma BudgetNonNegative(w: World)
    requires Inv(w)
    ensures Budget(w) >= 0
  {
    forall i | 0 <= i < |w.db.jobs| ensures Potential()(w.db.jobs[i]) >= 0 {
      assert JobOk(w.db.jobs[i]);
    }
    SumNonNegative(w.db.jobs, Potential());
  }

  /** Every claim and every finalisation spends exactly one unit of the budget, so a run makes
      at most as many of them as it started with plus what its enqueues brought. */
  lemma {:induction false} RunSpendsBudget(w: World, steps: seq<Step>)
    requires Inv(w)
    ensures ProductiveSteps(w, steps) + Budget(Run(w, steps)) == Budget(w) + BroughtBy(steps)
    ensures ProductiveSteps(w, steps) <= Budget(w) + BroughtBy(steps)
    decreases steps
  {
    if steps != [] {
      StepSpendsOne(w, steps[0]);
      NextKeepsInv(w, steps[0]);
      RunSpendsBudget(Next(w, steps[0]), steps[1..]);
    } else {
      BudgetNonNegative(w);
    }
  }

  // ---- Backoff ------------------------------------------------------------------------

  /** Spacing between neighbours adds up to a quadratic distance from the first. */
  lemma {:induction false} SpacingAddsUp(starts: seq<Start>, n: nat)
    requires 1 <= n <= |starts|
    requires forall k :: 1 <= k < |starts| ==> starts[k].at >= starts[k - 1].at + 30 * k
    ensures starts[n - 1].at >= starts[0].at + 15 * n * (n - 1)
  {
    if n > 1 {
      SpacingAddsUp(starts, n - 1);
    }
  }

  /** In every reachable table a job's attempt rows are numbered 1..attempts, and its n-th
      attempt began at least 15*n*(n-1) seconds after its first. */
  lemma BackoffBound(w: World, steps: seq<Step>, i: nat, n: nat)
    requires Inv(w) && i < |Run(w, steps).db.jobs|
    requires 1 <= n <= Run(w, steps).db.jobs[i].attempts
    ensures var db := Run(w, steps).db;
            var starts := Starts(db.attempts, i);
            && |starts| == db.jobs[i].attempts <= Cap(db.jobs[i])
            && starts[n - 1].number == n
            && starts[n - 1].at >= starts[0].at + 15 * n * (n - 1)
  {
    RunKeepsInv(w, steps);
    var w' := Run(w, steps);
    assert StartsOk(w'.db.jobs[i], Starts(w'.db.attempts, i), w'.now);
    SpacingAddsUp(Starts(w'.db.attempts, i), n);
  }

  // ---- Order of service ---------------------------------------------------------------

  function AheadOf(target: Job): Job -> int {
    (job: Job) => Ind(job.status == Pending && Before(job, target))
  }

  /** PENDING jobs that the queue would serve before job `t`. */
  function Ahead(w: World, t: nat): int
    requires t < |w.db.jobs|
  {
    Sum(w.db.jobs, AheadOf(w.db.jobs[t]))
  }

  /** An enqueue with an explicit schedule earlier than the target's. */
  predicate Overtakes(s: Step, target: Job) {
    s.EnqueueStep? && s.scheduledFor.Some? && s.scheduledFor.value < target.scheduledFor
  }

  ghost predicate Waiting(w: World, t: nat) {
    Inv(w) && t < |w.db.jobs| && Due(w.db.jobs[t], w.now)
  }

  /** While a job is due an idle worker that asks always gets something. */
  lemma AskingSucceeds(w: World, t: nat, s: Step)
    requires Waiting(w, t) && s.ClaimStep? && CanClaim(w, s.worker)
    ensures Taken(w, s).Some?
  {
    assert Due(w.db.jobs[t], w.now + s.elapsed);
  }

  lemma PendingRowUntouched(w: World, t: nat, s: Step)
    requires Inv(w) && t < |w.db.jobs| && w.db.jobs[t].status == Pending && Taken(w, s) != Some(t)
    ensures ChangeOf(w, s).Replaced? ==> ChangeOf(w, s).row != t
  {
    if Settles(w, s) {
      SettlingReplaces(w, s);
      hide Inv, ChangeOf, CanFinalise, LaterRow;
    }
  }

  /** A PENDING row changes only by being taken. */
  lemma RowChangesOnlyWhenTaken(w: World, t: nat, s: Step)
    requires Inv(w) && t < |w.db.jobs| && w.db.jobs[t].status == Pending && Taken(w, s) != Some(t)
    ensures t < |Next(w, s).db.jobs| && Next(w, s).db.jobs[t] == w.db.jobs[t]
  {
    hide Inv, Next, ChangeOf, Taken;
    ChangeIsStep(w, s);
    PendingRowUntouched(w, t, s);
  }

  lemma WaitingOn(w: World, t: nat, s: Step)
    requires Waiting(w, t) && Taken(w, s) != Some(t)
    ensures Waiting(Next(w, s), t) && Next(w, s).db.jobs[t] == w.db.jobs[t]
  {
    hide Inv, Taken;
    NextKeepsInv(w, s);
    RowChangesOnlyWhenTaken(w, t, s);
    assert Next(w, s).now >= w.now;
  }

  /** The next job taken while a due target waits was ahead of the target. */
  lemma ClaimComesFromAhead(jobs: seq<Job>, t: nat, i: nat, now: Time)
    requires IdsAreRows(jobs) && t < |jobs| && Due(jobs[t], now) && IsNext(jobs, now, i) && i != t
    ensures AheadOf(jobs[t])(jobs[i]) == 1 && AheadOf(jobs[t])(Started(jobs[i], now)) == 0
  {
    assert !Before(jobs[t], jobs[i]);
  }

  /** A settled job never re-enters ahead: its retry lies after now and the target is due. */
  lemma RetryGoesBehind(before: Job, after: Job, target: Job, now: Time)
    requires before.status == Running && Due(target, now)
    requires after.status == Pending ==> after.scheduledFor > now
    ensures AheadOf(target)(before) == 0 && AheadOf(target)(after) == 0
  {
  }

  lemma AheadMoves(w: World, t: nat, s: Step)
    requires Waiting(w, t) && Taken(w, s) != Some(t)
    ensures Moved(w.db.jobs, ChangeOf(w, s), AheadOf(w.db.jobs[t]))
            == Ind(Overtakes(s, w.db.jobs[t])) - Ind(Taken(w, s).Some?)
  {
    if Settles(w, s) {
      SettlingReplaces(w, s);
      var c := ChangeOf(w, s);
      RetryGoesBehind(w.db.jobs[c.row], c.job, w.db.jobs[t], w.now);
    } else if Taken(w, s).Some? {
      ClaimComesFromAhead(w.db.jobs, t, Taken(w, s).value, w.now + s.elapsed);
    }
  }

  lemma StepAhead(w: World, t: nat, s: Step)
    requires Waiting(w, t) && Taken(w, s) != Some(t)
    ensures Waiting(Next(w, s), t) && Next(w, s).db.jobs[t] == w.db.jobs[t]
    ensures Ahead(Next(w, s), t) + Ind(Taken(w, s).Some?)
            == Ahead(w, t) + Ind(Overtakes(s, w.db.jobs[t]))
  {
    WaitingOn(w, t, s);
    ChangeIsStep(w, s);
    SumApplied(w.db.jobs, ChangeOf(w, s), AheadOf(w.db.jobs[t]));
    AheadMoves(w, t, s);
  }

  ghost predicate NeverTaken(w: World, steps: seq<Step>, t: nat)
    decreases steps
  {
    steps == [] || (Taken(w, steps[0]) != Some(t) && NeverTaken(Next(w, steps[0]), steps[1..], t))
  }

  function Claims(w: World, steps: seq<Step>): nat
    decreases steps
  {
    if steps == [] then 0
    else Ind(Taken(w, steps[0]).Some?) + Claims(Next(w, steps[0]), steps[1..])
  }

  function Overtakers(steps: seq<Step>, target: Job): nat
    decreases steps
  {
    if steps == [] then 0 else Ind(Overtakes(steps[0], target)) + Overtakers(steps[1..], target)
  }

  /** While a due job waits, every claim takes one job that was ahead of it; nothing else
      moves the queue ahead except enqueues that ask for an earlier slot. */
  lemma {:induction false} AheadIsConserved(w: World, t: nat, steps: seq<Step>)
    requires Waiting(w, t) && NeverTaken(w, steps, t)
    ensures Waiting(Run(w, steps), t) && Run(w, steps).db.jobs[t] == w.db.jobs[t]
    ensures Ahead(Run(w, steps), t) + Claims(w, steps)
            == Ahead(w, t) + Overtakers(steps, w.db.jobs[t])
    decreases steps
  {
    if steps != [] {
      StepAhead(w, t, steps[0]);
      AheadIsConserved(Next(w, steps[0]), t, steps[1..]);
    }
  }

  function ServedBy(w: World, steps: seq<Step>, t: nat): int
    requires t < |w.db.jobs|
  {
    Ahead(w, t) + Overtakers(steps, w.db.jobs[t])
  }

  /** Index of the step that claims job `t`, or the length of the run. */
  function FirstService(w: World, steps: seq<Step>, t: nat): nat
    decreases steps
  {
    if steps == [] || Taken(w, steps[0]) == Some(t) then 0
    else 1 + FirstService(Next(w, steps[0]), steps[1..], t)
  }

  /** The step at which job `t` is claimed, with at most `bound` claims before it. */
  ghost predicate ServedAt(w: World, steps: seq<Step>, t: nat, k: nat, bound: int) {
    && k < |steps|
    && NeverTaken(w, steps[..k], t)
    && Taken(Run(w, steps[..k]), steps[k]) == Some(t)
    && Claims(w, steps[..k]) <= bound
  }

  /** No overtaking: once more claims succeed than there were jobs ahead (and slots bought by
      earlier schedules), the due job has been served, with no more than that many before it. */
  lemma {:induction false} DueJobIsServed(w: World, t: nat, steps: seq<Step>)
    requires Waiting(w, t)
    requires Claims(w, steps) > ServedBy(w, steps, t)
    ensures ServedAt(w, steps, t, FirstService(w, steps, t), ServedBy(w, steps, t))
    decreases steps
  {
    hide Inv, Next, Taken, ServedAt, Ahead;
    var bound := ServedBy(w, steps, t);
    AheadNonNegative(w, t);
    if Taken(w, steps[0]) == Some(t) {
      ServedFirst(w, steps, t, bound);
    } else {
      StepAhead(w, t, steps[0]);
      var w' := Next(w, steps[0]);
      assert ServedBy(w', steps[1..], t) == bound - Ind(Taken(w, steps[0]).Some?);
      DueJobIsServed(w', t, steps[1..]);
      ServedOneLater(w, steps, t, FirstService(w', steps[1..], t), bound);
    }
  }

  lemma ServedFirst(w: World, steps: seq<Step>, t: nat, bound: int)
    requires steps != [] && Taken(w, steps[0]) == Some(t) && bound >= 0
    ensures ServedAt(w, steps, t, 0, bound)
  {
    assert steps[..0] == [];
  }

  lemma ServedOneLater(w: World, steps: seq<Step>, t: nat, k: nat, bound: int)
    requires steps != [] && Taken(w, steps[0]) != Some(t)
    requires ServedAt(Next(w, steps[0]), steps[1..], t, k, bound - Ind(Taken(w, steps[0]).Some?))
    ensures ServedAt(w, steps, t, k + 1, bound)
  {
    assert steps[..k + 1][0] == steps[0] && steps[..k + 1][1..] == steps[1..][..k];
  }

  lemma AheadNonNegative(w: World, t: nat)
    requires t < |w.db.jobs|
    ensures Ahead(w, t) >= 0
  {
    SumNonNegative(w.db.jobs, AheadOf(w.db.jobs[t]));
  }

  /** With default enqueue times nothing ever gets ahead of a waiting job. */
  lemma {:induction false} DefaultEnqueuesNeverOvertake(steps: seq<Step>, target: Job)
    requires forall k :: 0 <= k < |steps| && steps[k].EnqueueStep? ==> steps[k].scheduledFor == None
    ensures Overtakers(steps, target) == 0
    decreases steps
  {
    if steps != [] {
      assert !Overtakes(steps[0], target);
      forall k | 0 <= k < |steps[1..]| && steps[1..][k].EnqueueStep? ensures steps[1..][k].scheduledFor == None {
        assert steps[1..][k] == steps[k + 1];
      }
      DefaultEnqueuesNeverOvertake(steps[1..], target);
    }
  }

  // ---- Trust ---------------------------------------------------------------------------

  lemma StepKeepsTrustCache(w: World, s: Step)
    requires TE.CacheAgrees(w.db.trust)
    ensures TE.CacheAgrees(Next(w, s).db.trust)
  {
    hide Next, TE.CacheAgrees, TE.Updated;
    if Settles(w, s) {
      var payer, now := w.held[s.worker].job.payer, w.now + s.elapsed;
      SettlingTrust(w, s);
      CacheKept(w.db.trust, Next(w, s).db.trust, payer, now);
    } else {
      QuietTrust(w, s);
    }
  }

  lemma QuietTrust(w: World, s: Step)
    requires !Settles(w, s)
    ensures Next(w, s).db.trust == w.db.trust
  {
  }

  lemma CacheKept(before: TE.TrustStore, after: TE.TrustStore, payer: string, now: Time)
    requires TE.CacheAgrees(before)
    requires || after == before
             || after == TE.Updated(before, payer, TE.CleanExtractionStreak, now)
             || after == TE.Updated(before, payer, TE.SilentFailCaught, now)
    ensures TE.CacheAgrees(after)
  {
    if after == TE.Updated(before, payer, TE.CleanExtractionStreak, now) {
      TE.UpdatedKeepsCache(before, payer, TE.CleanExtractionStreak, now);
    } else if after == TE.Updated(before, payer, TE.SilentFailCaught, now) {
      TE.UpdatedKeepsCache(before, payer, TE.SilentFailCaught, now);
    }
  }

  /** A finalisation emits at most one trust event, for the job's payer. */
  lemma SettlingTrust(w: World, s: Step)
    requires Settles(w, s)
    ensures var payer, now := w.held[s.worker].job.payer, w.now + s.elapsed;
            var trust := Next(w, s).db.trust;
            || trust == w.db.trust
            || trust == TE.Updated(w.db.trust, payer, TE.CleanExtractionStreak, now)
            || trust == TE.Updated(w.db.trust, payer, TE.SilentFailCaught, now)
  {
    hide TE.Updated, Settle, Validate, ShouldEmitCleanStreak, SettledJob, ClosedAttempt;
  }

  /** Whatever the workers do, the cached scores stay the replay of the event log. */
  lemma {:induction false} RunKeepsTrustCache(w: World, steps: seq<Step>)
    requires Inv(w) && TE.CacheAgrees(w.db.trust)
    ensures TE.CacheAgrees(Run(w, steps).db.trust)
    decreases steps
  {
    if steps != [] {
      var s := steps[0];
      NextKeepsInv(w, s);
      StepKeepsTrustCache(w, s);
      RunKeepsTrustCache(Next(w, s), steps[1..]);
    }
  }
}
