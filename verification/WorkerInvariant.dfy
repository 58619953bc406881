/** What every interleaving of workers, crashes included, keeps true of the tables. */
module WorkerInvariant {
  import opened Common
  import opened JobQueue
  import opened Validator
  import opened Worker

  /** Attempts a job may use: at least one, whatever `max_attempts` says. */
  function Cap(job: Job): nat {
    Max(1, job.maxAttempts)
  }

  ghost predicate JobOk(job: Job) {
    && job.attempts <= Cap(job)
    && (job.status == Pending ==> job.attempts < Cap(job))
    && (job.status != Pending ==> job.attempts >= 1)
    && (job.status == Failed ==> job.attempts == Cap(job))
    && (job.finishedAt.Some? <==> Terminal(job.status))
    && (job.startedAt.Some? <==> job.status != Pending)
  }

  // ---- Attempt rows -------------------------------------------------------------------

  datatype Start = Start(number: nat, at: Time)

  /** Number and start time of each attempt row of job `i`, in table order. */
  function Starts(attempts: seq<Attempt>, i: nat): seq<Start> {
    if attempts == [] then []
    else
      var n := |attempts| - 1;
      Starts(attempts[..n], i)
      + (if attempts[n].jobId == i then [Start(attempts[n].number, attempts[n].startedAt)] else [])
  }

  lemma StartsAppend(attempts: seq<Attempt>, a: Attempt, i: nat)
    ensures Starts(attempts + [a], i)
            == Starts(attempts, i) + (if a.jobId == i then [Start(a.number, a.startedAt)] else [])
  {
    assert (attempts + [a])[..|attempts|] == attempts;
  }

  /** Closing a row changes neither its number nor its start. */
  lemma {:induction false} StartsUpdate(attempts: seq<Attempt>, k: nat, a: Attempt, i: nat)
    requires k < |attempts|
    requires a.jobId == attempts[k].jobId && a.number == attempts[k].number && a.startedAt == attempts[k].startedAt
    ensures Starts(attempts[k := a], i) == Starts(attempts, i)
  {
    var n := |attempts| - 1;
    if k == n {
      assert attempts[k := a][..n] == attempts[..n];
    } else {
      assert attempts[k := a][..n] == attempts[..n][k := a];
      StartsUpdate(attempts[..n], k, a, i);
    }
  }

  lemma {:induction false} StartsOfNewJob(attempts: seq<Attempt>, i: nat)
    requires forall k :: 0 <= k < |attempts| ==> attempts[k].jobId < i
    ensures Starts(attempts, i) == []
  {
    if attempts != [] {
      StartsOfNewJob(attempts[..|attempts| - 1], i);
    }
  }

  /** Rows are numbered 1, 2, ...; each attempt starts at least 30*k seconds after the k-th
      did, and a job waiting for a retry is scheduled no earlier than that. */
  ghost predicate StartsOk(job: Job, starts: seq<Start>, now: Time) {
    && |starts| == job.attempts
    && (forall k :: 0 <= k < |starts| ==> starts[k].number == k + 1 && starts[k].at <= now)
    && (forall k :: 1 <= k < |starts| ==> starts[k].at >= starts[k - 1].at + 30 * k)
    && (job.status == Pending && |starts| > 0 ==>
          job.scheduledFor >= starts[|starts| - 1].at + 30 * |starts|)
  }

  // ---- Claims -------------------------------------------------------------------------

  ghost predicate Holds(w: World, worker: nat, i: nat) {
    worker in w.held && w.held[worker].job.jobId == i
  }

  /** A claim names a RUNNING job at its current attempt, and that attempt's open row. */
  ghost predicate ClaimOk(db: Tables, c: Claim) {
    && c.job.jobId < |db.jobs|
    && db.jobs[c.job.jobId].status == Running
    && c.job == ClaimOf(c.job.jobId, db.jobs[c.job.jobId])
    && c.attemptId < |db.attempts|
    && db.attempts[c.attemptId].jobId == c.job.jobId
    && db.attempts[c.attemptId].number == c.job.attemptNumber
    && db.attempts[c.attemptId].finishedAt == None
    && db.jobs[c.job.jobId].startedAt == Some(db.attempts[c.attemptId].startedAt)
  }

  ghost predicate TablesOk(db: Tables, now: Time) {
    && IdsAreRows(db.jobs)
    && (forall i :: 0 <= i < |db.jobs| ==> JobOk(db.jobs[i]))
    && (forall i :: 0 <= i < |db.jobs| ==> StartsOk(db.jobs[i], Starts(db.attempts, i), now))
    && (forall k :: 0 <= k < |db.attempts| ==> db.attempts[k].jobId < |db.jobs|)
  }

  /** RUNNING jobs and outstanding claims are in bijection. */
  ghost predicate ClaimsOk(w: World) {
    && (forall k :: k in w.held ==> ClaimOk(w.db, w.held[k]))
    && (forall k, l :: k in w.held && l in w.held && k != l ==> w.held[k].job.jobId != w.held[l].job.jobId)
    && (forall i :: 0 <= i < |w.db.jobs| && w.db.jobs[i].status == Running ==> exists k :: Holds(w, k, i))
  }

  ghost predicate Inv(w: World) {
    TablesOk(w.db, w.now) && ClaimsOk(w)
  }

  /** Any tables with no job and no attempt yet, and nobody at work. */
  ghost predicate Initial(w: World) {
    w.db.jobs == [] && w.db.attempts == [] && w.db.extractions == [] && w.db.health == [] && w.held == map[]
  }

  // ---- One step -----------------------------------------------------------------------

  lemma TickKeepsInv(w: World, elapsed: nat)
    requires Inv(w)
    ensures Inv(Tick(w, elapsed))
  {
    var w' := Tick(w, elapsed);
    forall i | 0 <= i < |w.db.jobs| && w.db.jobs[i].status == Running ensures exists k :: Holds(w', k, i) {
      var k :| Holds(w, k, i);
      assert Holds(w', k, i);
    }
  }

  lemma EnqueueKeepsTables(w: World, s: Step)
    requires TablesOk(w.db, w.now) && s.EnqueueStep?
    ensures TablesOk(Enqueued(w, s).db, w.now)
  {
    StartsOfNewJob(w.db.attempts, |w.db.jobs|);
    hide Starts;
  }

  lemma EnqueueKeepsInv(w: World, s: Step)
    requires Inv(w) && s.EnqueueStep?
    ensures Inv(Enqueued(w, s))
  {
    var w' := Enqueued(w, s);
    EnqueueKeepsTables(w, s);
    hide TablesOk, JobOk, StartsOk;
    forall i | 0 <= i < |w'.db.jobs| && w'.db.jobs[i].status == Running ensures exists k :: Holds(w', k, i) {
      var k :| Holds(w, k, i);
      assert Holds(w', k, i);
    }
  }

  lemma StartsAfterClaim(job: Job, starts: seq<Start>, now: Time)
    requires JobOk(job) && Due(job, now) && StartsOk(job, starts, now)
    ensures JobOk(Started(job, now))
    ensures StartsOk(Started(job, now), starts + [Start(job.attempts + 1, now)], now)
  {
  }

  lemma ClaimKeepsTables(db: Tables, i: nat, now: Time)
    requires TablesOk(db, now) && i < |db.jobs| && Due(db.jobs[i], now)
    ensures TablesOk(ClaimRow(db, i, now).0, now)
  {
    var (db', c) := ClaimRow(db, i, now);
    StartsAfterClaim(db.jobs[i], Starts(db.attempts, i), now);
    forall j | 0 <= j < |db'.jobs| ensures StartsOk(db'.jobs[j], Starts(db'.attempts, j), now) {
      StartsAppend(db.attempts, OpenAttempt(c.job, now), j);
      if j != i {
        assert Starts(db'.attempts, j) == Starts(db.attempts, j);
      }
    }
  }

  lemma ClaimKeepsOtherClaims(db: Tables, i: nat, now: Time, other: Claim)
    requires i < |db.jobs| && Due(db.jobs[i], now) && ClaimOk(db, other)
    ensures other.job.jobId != i
    ensures ClaimOk(ClaimRow(db, i, now).0, other)
  {
  }

  /** Handing row `i` to an idle worker extends the bijection by one pair. */
  lemma BijectionGrows(w: World, w': World, worker: nat, i: nat)
    requires ClaimsOk(w) && worker !in w.held && worker in w'.held
    requires w'.held == w.held[worker := w'.held[worker]] && w'.held[worker].job.jobId == i
    requires |w'.db.jobs| == |w.db.jobs|
    requires forall j :: 0 <= j < |w.db.jobs| && j != i ==> w'.db.jobs[j] == w.db.jobs[j]
    requires forall k :: k in w'.held ==> ClaimOk(w'.db, w'.held[k])
    requires forall k :: k in w.held ==> w.held[k].job.jobId != i
    ensures ClaimsOk(w')
  {
    forall j | 0 <= j < |w'.db.jobs| && w'.db.jobs[j].status == Running ensures exists k :: Holds(w', k, j) {
      if j == i {
        assert Holds(w', worker, j);
      } else {
        var k :| Holds(w, k, j);
        assert Holds(w', k, j);
      }
    }
  }

  lemma ClaimKeepsInv(w: World, worker: nat, i: nat)
    requires Inv(w) && CanClaim(w, worker) && i < |w.db.jobs| && Due(w.db.jobs[i], w.now)
    ensures Inv(Claimed(w, worker, i))
  {
    ClaimKeepsTables(w.db, i, w.now);
    var w' := Claimed(w, worker, i);
    forall k | k in w.held ensures ClaimOk(w'.db, w.held[k]) && w.held[k].job.jobId != i {
      ClaimKeepsOtherClaims(w.db, i, w.now, w.held[k]);
    }
    assert ClaimOk(w'.db, w'.held[worker]);
    BijectionGrows(w, w', worker, i);
  }

  lemma SettledJobOk(job: Job, s: Settlement, now: Time)
    requires JobOk(job) && job.status == Running
    ensures JobOk(SettledJob(job, s, now))
    ensures SettledJob(job, s, now).status != Running
    ensures SettledJob(job, s, now).attempts == job.attempts && SettledJob(job, s, now).id == job.id
    ensures SettledJob(job, s, now).status == Pending ==>
              SettledJob(job, s, now).scheduledFor == now + 30 * job.attempts
  {
  }

  /** What a finalisation does to the two tables the invariant is about. */
  lemma FinalisedTables(db: Tables, c: Claim, report: Report, now: Time)
    requires c.job.jobId < |db.jobs| && c.attemptId < |db.attempts|
    ensures var db', i := Finalised(db, c, report, now), c.job.jobId;
            && db'.jobs == db.jobs[i := SettledJob(db.jobs[i], Settle(c.job, report), now)]
            && db'.attempts == db.attempts[c.attemptId := ClosedAttempt(db.attempts[c.attemptId], c.job, report, now)]
  {
    hide Settle, SettledJob, ClosedAttempt, HealthOf, Detail, ShouldEmitCleanStreak;
  }

  lemma FinaliseKeepsTables(db: Tables, c: Claim, report: Report, now: Time)
    requires TablesOk(db, now) && ClaimOk(db, c)
    ensures TablesOk(Finalised(db, c, report, now), now)
  {
    hide Finalised, Settle, SettledJob, ClosedAttempt, JobOk, Starts;
    var db' := Finalised(db, c, report, now);
    var i := c.job.jobId;
    FinalisedTables(db, c, report, now);
    SettledJobOk(db.jobs[i], Settle(c.job, report), now);
    ClosedRow(db.attempts[c.attemptId], c.job, report, now);
    forall j | 0 <= j < |db'.jobs| ensures StartsOk(db'.jobs[j], Starts(db'.attempts, j), now) {
      StartsUpdate(db.attempts, c.attemptId, db'.attempts[c.attemptId], j);
      assert StartsOk(db.jobs[j], Starts(db.attempts, j), now);
    }
  }

  lemma FinaliseKeepsOtherClaims(db: Tables, c: Claim, report: Report, now: Time, other: Claim)
    requires ClaimOk(db, c) && ClaimOk(db, other) && other.job.jobId != c.job.jobId
    ensures ClaimOk(Finalised(db, c, report, now), other)
  {
    assert other.attemptId != c.attemptId;
  }

  lemma FinaliseKeepsInv(w: World, worker: nat, report: Report)
    requires Inv(w) && CanFinalise(w, worker)
    ensures Inv(Finalising(w, worker, report))
  {
    hide TablesOk, Finalised, Settle, SettledJob, ClosedAttempt;
    var c := w.held[worker];
    var i := c.job.jobId;
    var w' := Finalising(w, worker, report);
    assert ClaimOk(w.db, c);
    FinaliseKeepsTables(w.db, c, report, w.now);
    FinalisedTables(w.db, c, report, w.now);
    RunningJobOk(w.db, w.now, i);
    SettledJobOk(w.db.jobs[i], Settle(c.job, report), w.now);
    BijectionShrinks(w, w', worker, report);
  }

  lemma RunningJobOk(db: Tables, now: Time, i: nat)
    requires TablesOk(db, now) && i < |db.jobs|
    ensures JobOk(db.jobs[i])
  {
  }

  /** Taking a settled row and its worker out leaves a bijection. */
  lemma BijectionShrinks(w: World, w': World, worker: nat, report: Report)
    requires ClaimsOk(w) && worker in w.held && w'.held == w.held - {worker}
    requires ClaimOk(w.db, w.held[worker])
    requires w'.db == Finalised(w.db, w.held[worker], report, w.now)
    requires |w'.db.jobs| == |w.db.jobs|
    requires var i := w.held[worker].job.jobId;
             w'.db.jobs[i].status != Running
             && forall j :: 0 <= j < |w.db.jobs| && j != i ==> w'.db.jobs[j] == w.db.jobs[j]
    ensures ClaimsOk(w')
  {
    hide Finalised;
    var c := w.held[worker];
    forall k | k in w'.held ensures ClaimOk(w'.db, w.held[k]) {
      assert w.held[k].job.jobId != c.job.jobId;
      FinaliseKeepsOtherClaims(w.db, c, report, w.now, w.held[k]);
    }
    forall j | 0 <= j < |w'.db.jobs| && w'.db.jobs[j].status == Running ensures exists k :: Holds(w', k, j) {
      assert w.db.jobs[j].status == Running;
      var k :| Holds(w, k, j);
      assert Holds(w', k, j);
    }
  }

  lemma NextKeepsInv(w: World, s: Step)
    requires Inv(w)
    ensures Inv(Next(w, s))
  {
    match s {
      case EnqueueStep(elapsed, _, _, _, _, _, _) =>
        TickKeepsInv(w, elapsed);
        EnqueueKeepsInv(Tick(w, elapsed), s);
      case ClaimStep(elapsed, worker) =>
        TickKeepsInv(w, elapsed);
        var w1 := Tick(w, elapsed);
        var next := NextDue(w1.db.jobs, w1.now);
        if CanClaim(w1, worker) && next.Some? {
          ClaimKeepsInv(w1, worker, next.value);
        }
      case FinaliseStep(elapsed, worker, report) =>
        TickKeepsInv(w, elapsed);
        if CanFinalise(Tick(w, elapsed), worker) {
          FinaliseKeepsInv(Tick(w, elapsed), worker, report);
        }
      case CrashStep(worker) =>
        var w' := Next(w, s);
        forall i | 0 <= i < |w.db.jobs| && w.db.jobs[i].status == Running ensures exists k :: Holds(w', k, i) {
          var k :| Holds(w, k, i);
          assert Holds(w', k, i);
        }
    }
  }

  lemma InitialInv(w: World)
    requires Initial(w)
    ensures Inv(w)
  {
  }

  /** Safety of the whole protocol: the invariant holds after every run. */
  lemma {:induction false} RunKeepsInv(w: World, steps: seq<Step>)
    requires Inv(w)
    ensures Inv(Run(w, steps))
    decreases steps
  {
    if steps != [] {
      NextKeepsInv(w, steps[0]);
      RunKeepsInv(Next(w, steps[0]), steps[1..]);
    }
  }
}
