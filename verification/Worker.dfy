/** The claim/finalise protocol of one worker, as transactions on the session's tables, and the
    system of arbitrarily many workers that interleave them. */
module Worker {
  import opened Common
  import opened JobQueue
  import opened Validator
  import TE = TrustEngine

  const CLEAN_STREAK_THRESHOLD := 5

  /** What a worker holds between its two transactions. */
  datatype Claim = Claim(job: ClaimedJob, attemptId: nat)

  /** How the attempt went: the portal or credential was missing, or the harness ran. */
  datatype Report =
    | CannotStart(error: string)
    | Executed(harness: HarnessResult, parse: Parse, reviewer: Reviewer)

  // ---- Transactions as functions on the tables ----------------------------------------

  function OpenAttempt(claimed: ClaimedJob, now: Time): Attempt {
    Attempt(claimed.jobId, claimed.attemptNumber, now, None, None, None, None, None, None, None)
  }

  function ClaimRow(db: Tables, i: nat, now: Time): (Tables, Claim)
    requires i < |db.jobs|
  {
    var job := Started(db.jobs[i], now);
    var claimed := ClaimOf(i, job);
    (db.(jobs := db.jobs[i := job], attempts := db.attempts + [OpenAttempt(claimed, now)]),
     Claim(claimed, |db.attempts|))
  }

  function VerdictText(v: Verdict): string {
    match v
    case Pass => "PASS"
    case Fail => "FAIL"
    case Unknown => "UNKNOWN"
  }

  function ClosedAttempt(a: Attempt, c: ClaimedJob, report: Report, now: Time): Attempt {
    match report
    case CannotStart(error) => a.(finishedAt := Some(now), error := Some(error))
    case Executed(harness, parse, reviewer) =>
      var v := Validate(c.action, harness, parse, reviewer);
      var closed := a.(finishedAt := Some(now),
                       output := Some(Truncated(harness.output, 4000)), screenshot := harness.screenshot,
                       verdict := Some(VerdictText(v.verdict)), confidence := Some(v.confidence),
                       rationale := Some(v.rationale));
      if harness.ok then closed else closed.(error := harness.error)
  }

  /** `harness.error or rationale`, where an empty message counts as absent. */
  function FailureText(harness: HarnessResult, v: ValidationResult): string {
    if harness.error.Some? && harness.error.value != "" then harness.error.value else v.rationale
  }

  function IsOfPayer(payer: string): Extraction -> int {
    (x: Extraction) => Ind(x.payer == payer)
  }

  /** The query is limited to the threshold, so the count it sees never exceeds it. */
  function ShouldEmitCleanStreak(extractions: seq<Extraction>, payer: string): bool {
    var rows := Min(CLEAN_STREAK_THRESHOLD, Sum(extractions, IsOfPayer(payer)));
    rows >= CLEAN_STREAK_THRESHOLD && rows % CLEAN_STREAK_THRESHOLD == 0
  }

  /** How a report settles the job it belongs to. */
  datatype Settlement = Success(invoiceRows: nat) | Silent(rationale: string) | Hard(error: string)

  function Settle(c: ClaimedJob, report: Report): Settlement {
    match report
    case CannotStart(error) => Hard(error)
    case Executed(harness, parse, reviewer) =>
      var v := Validate(c.action, harness, parse, reviewer);
      if v.verdict == Pass then Success(v.invoiceRows)
      else if v.verdict == Fail && harness.ok then Silent(v.rationale)
      else Hard(FailureText(harness, v))
  }

  function SettledJob(job: Job, s: Settlement, now: Time): Job {
    match s
    case Success(_) => Finished(job, now)
    case Silent(rationale) => AfterFailure(job, now, rationale, None, true)
    case Hard(error) => AfterFailure(job, now, error, None, false)
  }

  function HealthOf(s: Settlement): HealthKind {
    match s
    case Success(_) => HealthSucceeded
    case Silent(_) => HealthSilentFail
    case Hard(_) => HealthFailed
  }

  /** What a health event says about it. */
  function Detail(s: Settlement): Option<string> {
    match s
    case Success(_) => None
    case Silent(rationale) => Some(Truncated(rationale, 200))
    case Hard(error) => Some(Truncated(error, 200))
  }

  function SettledRows(db: Tables, c: ClaimedJob, s: Settlement, now: Time): Tables
    requires c.jobId < |db.jobs|
  {
    var jobs := db.jobs[c.jobId := SettledJob(db.jobs[c.jobId], s, now)];
    var health := db.health + [HealthEvent(c.portal, HealthOf(s), Detail(s))];
    var extractions := if s.Success? then db.extractions + [Extraction(c.jobId, c.portal, c.payer, s.invoiceRows)]
                       else db.extractions;
    var trust :=
      if s.Success? && ShouldEmitCleanStreak(extractions, c.payer) then
        TE.Updated(db.trust, c.payer, TE.CleanExtractionStreak, now)
      else if s.Silent? then TE.Updated(db.trust, c.payer, TE.SilentFailCaught, now)
      else db.trust;
    Tables(jobs, db.attempts, extractions, health, trust)
  }

  function Finalised(db: Tables, c: Claim, report: Report, now: Time): Tables
    requires c.job.jobId < |db.jobs| && c.attemptId < |db.attempts|
  {
    var attempts := db.attempts[c.attemptId := ClosedAttempt(db.attempts[c.attemptId], c.job, report, now)];
    SettledRows(db.(attempts := attempts), c.job, Settle(c.job, report), now)
  }

  // ---- The same transactions as the worker performs them ------------------------------

  /** First transaction of `process_one_job`: claim, then open the attempt row. */
  method ClaimOne(session: Session, now: Time) returns (r: Option<Claim>)
    requires IdsAreRows(session.jobs)
    modifies session
    ensures match NextDue(old(session.jobs), now)
            case None => r == None && session.Rows() == old(session.Rows())
            case Some(i) => (session.Rows(), r) ==
                            (ClaimRow(old(session.Rows()), i, now).0, Some(ClaimRow(old(session.Rows()), i, now).1))
    // In fields: the row starts now, its attempt row shows the same reading, the claim carries its work.
    ensures r.Some? ==>
              var i, c := r.value.job.jobId, r.value.job;
              && i < |old(session.jobs)| && |session.jobs| == |old(session.jobs)|
              && var before, after := old(session.jobs)[i], session.jobs[i];
                 && before.status == Pending && before.scheduledFor <= now
                 && after == before.(status := Running, attempts := before.attempts + 1, startedAt := Some(now))
                 && (forall k :: 0 <= k < |session.jobs| && k != i ==> session.jobs[k] == old(session.jobs)[k])
                 && session.attempts == old(session.attempts) + [Attempt(i, after.attempts, now, None, None, None, None, None, None, None)]
                 && r.value.attemptId == |old(session.attempts)|
                 && c.portal == before.portal && c.payer == before.payer && c.action == before.action
                 && c.payload == before.payload && c.attemptNumber == before.attempts + 1
  {
    var queue := new SqliteJobQueue(session);
    var claimed := queue.ClaimNext(now);
    if claimed.None? {
      assert NextDue(session.jobs, now) == None;
      return None;
    }
    NextIsUnique(old(session.jobs), now, claimed.value.jobId);
    var attemptId := |session.attempts|;
    session.attempts := session.attempts + [OpenAttempt(claimed.value, now)];
    r := Some(Claim(claimed.value, attemptId));
  }

  /** Harness and schema agree, and no model that was shown the page objects. */
  predicate Passes(c: ClaimedJob, report: Report) {
    && report.Executed? && report.harness.ok
    && report.parse.Parsed? && (c.action == ExtractInvoices ==> report.parse.invoiceRows > 0)
    && !(report.harness.excerptPresent && report.reviewer.Answers? && report.reviewer.verdict == Fail)
  }

  /** The harness said it was fine, and the validation does not agree. */
  predicate FailsSilently(c: ClaimedJob, report: Report) {
    report.Executed? && report.harness.ok && !Passes(c, report)
  }

  /** What closing leaves on the attempt row. */
  lemma ClosedRow(a: Attempt, c: ClaimedJob, report: Report, now: Time)
    ensures var b := ClosedAttempt(a, c, report, now);
            && b.jobId == a.jobId && b.number == a.number && b.startedAt == a.startedAt && b.finishedAt == Some(now)
            && (report.CannotStart? ==> b == a.(finishedAt := Some(now), error := Some(report.error)))
            && (report.Executed? ==>
                  var h, v := report.harness, Validate(c.action, report.harness, report.parse, report.reviewer);
                  && b.verdict == Some(if Passes(c, report) then "PASS" else "FAIL")
                  && b.confidence == Some(v.confidence) && b.rationale == Some(v.rationale)
                  && b.output == Some(h.output[..Min(4000, |h.output|)]) && b.screenshot == h.screenshot
                  && b.error == if h.ok then a.error else h.error)
  {
  }

  /** What settling leaves on the job row, and which health event it logs. */
  lemma SettledRow(job: Job, c: ClaimedJob, report: Report, now: Time)
    ensures var after := SettledJob(job, Settle(c, report), now);
            if Passes(c, report) then after == job.(status := Succeeded, finishedAt := Some(now), lastError := None)
            else if FailsSilently(c, report) then
              after.status == SilentFail && after == job.(status := SilentFail, finishedAt := Some(now), lastError := after.lastError)
            else if job.attempts < job.maxAttempts then
              after == job.(status := Pending, startedAt := None, scheduledFor := now + 30 * job.attempts,
                            lastError := after.lastError)
            else after == job.(status := Failed, finishedAt := Some(now), lastError := after.lastError)
    ensures HealthOf(Settle(c, report))
            == if Passes(c, report) then HealthSucceeded
               else if FailsSilently(c, report) then HealthSilentFail
               else HealthFailed
    ensures !Passes(c, report) ==>
              var why := if report.CannotStart? then report.error
                         else if !report.harness.ok && report.harness.error.Some? && report.harness.error.value != ""
                         then report.harness.error.value
                         else Validate(c.action, report.harness, report.parse, report.reviewer).rationale;
              && SettledJob(job, Settle(c, report), now).lastError == Some(why[..Min(500, |why|)])
              && Detail(Settle(c, report)) == Some(why[..Min(200, |why|)])
  {
  }

  /** Last transaction: close the attempt, settle the job, log health, extraction and trust. */
  method RunAttempt(session: Session, c: Claim, report: Report, now: Time)
    requires c.job.jobId < |session.jobs| && c.attemptId < |session.attempts|
    modifies session
    ensures session.Rows() == Finalised(old(session.Rows()), c, report, now)
    // The attempt row: closed, and no other row touched.
    ensures session.attempts == old(session.attempts)[c.attemptId := session.attempts[c.attemptId]]
    ensures var a, b := old(session.attempts)[c.attemptId], session.attempts[c.attemptId];
            && b.jobId == a.jobId && b.number == a.number && b.startedAt == a.startedAt && b.finishedAt == Some(now)
            && (report.CannotStart? ==> b.error == Some(report.error) && b.verdict == a.verdict)
            && (report.Executed? ==>
                  var h, v := report.harness, Validate(c.job.action, report.harness, report.parse, report.reviewer);
                  && b.verdict == Some(if Passes(c.job, report) then "PASS" else "FAIL")
                  && b.confidence == Some(v.confidence) && b.rationale == Some(v.rationale)
                  && b.output == Some(h.output[..Min(4000, |h.output|)]) && b.screenshot == h.screenshot
                  && b.error == if h.ok then a.error else h.error)
    // The job row: the status the report calls for, and no other row touched.
    ensures session.jobs == old(session.jobs)[c.job.jobId := session.jobs[c.job.jobId]]
    ensures var before, after := old(session.jobs)[c.job.jobId], session.jobs[c.job.jobId];
            after.status == (if Passes(c.job, report) then Succeeded
                             else if FailsSilently(c.job, report) then SilentFail
                             else if before.attempts < before.maxAttempts then Pending
                             else Failed)
    // One health event, for the job's portal.
    ensures |session.health| == |old(session.health)| + 1 && old(session.health) <= session.health
    ensures var e := session.health[|old(session.health)|];
            && e.portal == c.job.portal
            && e.kind == (if Passes(c.job, report) then HealthSucceeded
                          else if FailsSilently(c.job, report) then HealthSilentFail
                          else HealthFailed)
  {
    ghost var db := session.Rows();
    ClosedRow(db.attempts[c.attemptId], c.job, report, now);
    SettledRow(db.jobs[c.job.jobId], c.job, report, now);
    PersistOutcome(session, c, report, now);
    hide Validate, ClosedAttempt, Passes, FailsSilently, Settle, SettledJob, HealthOf, Detail;
  }

  /** The writes of that transaction, branch by branch. */
  method PersistOutcome(session: Session, c: Claim, report: Report, now: Time)
    requires c.job.jobId < |session.jobs| && c.attemptId < |session.attempts|
    modifies session
    ensures session.Rows() == Finalised(old(session.Rows()), c, report, now)
  {
    var attempt := session.attempts[c.attemptId];
    session.attempts := session.attempts[c.attemptId := ClosedAttempt(attempt, c.job, report, now)];
    var queue := new SqliteJobQueue(session);
    match report {
      case CannotStart(error) =>
        queue.MarkFailed(c.job.jobId, error, None, false, now);
        session.health := session.health + [HealthEvent(c.job.portal, HealthFailed, Some(Truncated(error, 200)))];
      case Executed(harness, parse, reviewer) =>
        var v := Validate(c.job.action, harness, parse, reviewer);
        if v.verdict == Pass {
          queue.MarkSucceeded(c.job.jobId, now);
          session.extractions := session.extractions
            + [Extraction(c.job.jobId, c.job.portal, c.job.payer, v.invoiceRows)];
          session.health := session.health + [HealthEvent(c.job.portal, HealthSucceeded, None)];
          if ShouldEmitCleanStreak(session.extractions, c.job.payer) {
            EmitTrust(session, c.job.payer, TE.CleanExtractionStreak, now);
          }
        } else if v.verdict == Fail && harness.ok {
          queue.MarkFailed(c.job.jobId, v.rationale, None, true, now);
          session.health := session.health
            + [HealthEvent(c.job.portal, HealthSilentFail, Some(Truncated(v.rationale, 200)))];
          EmitTrust(session, c.job.payer, TE.SilentFailCaught, now);
        } else {
          var error := FailureText(harness, v);
          queue.MarkFailed(c.job.jobId, error, None, false, now);
          session.health := session.health + [HealthEvent(c.job.portal, HealthFailed, Some(Truncated(error, 200)))];
        }
    }
  }

  method EmitTrust(session: Session, payer: string, kind: TE.EventKind, now: Time)
    modifies session`trust
    ensures session.trust == TE.Updated(old(session.trust), payer, kind, now)
  {
    var engine := new TE.TrustEngine(session.trust);
    var _ := engine.UpdateTrust(payer, kind, now);
    session.trust := engine.Store();
  }

  // ---- Many workers -------------------------------------------------------------------

  /** `held` maps each busy worker to its claim; dead workers never act again, and a dead
      worker that was busy keeps its claim for ever. */
  datatype World = World(now: Time, db: Tables, held: map<nat, Claim>, dead: set<nat>)

  /** Every step but a crash first lets some time pass, so the clock never runs backwards. */
  datatype Step =
    | EnqueueStep(elapsed: nat, portal: string, payer: string, action: JobAction, payload: string,
                  scheduledFor: Option<Time>, maxAttempts: int)
    | ClaimStep(elapsed: nat, worker: nat)
    | FinaliseStep(elapsed: nat, worker: nat, report: Report)
    | CrashStep(worker: nat)

  function Tick(w: World, elapsed: nat): World {
    w.(now := w.now + elapsed)
  }

  predicate CanClaim(w: World, worker: nat) {
    worker !in w.held && worker !in w.dead
  }

  predicate CanFinalise(w: World, worker: nat) {
    && worker in w.held && worker !in w.dead
    && w.held[worker].job.jobId < |w.db.jobs|
    && w.held[worker].attemptId < |w.db.attempts|
  }

  function Enqueued(w: World, s: Step): World
    requires s.EnqueueStep?
  {
    w.(db := w.db.(jobs := w.db.jobs + [NewJob(|w.db.jobs|, s.portal, s.payer, s.action, s.payload,
                                                s.scheduledFor, s.maxAttempts, w.now)]))
  }

  function Claimed(w: World, worker: nat, i: nat): World
    requires i < |w.db.jobs|
  {
    var (db, claim) := ClaimRow(w.db, i, w.now);
    w.(db := db, held := w.held[worker := claim])
  }

  function Finalising(w: World, worker: nat, report: Report): World
    requires CanFinalise(w, worker)
  {
    w.(db := Finalised(w.db, w.held[worker], report, w.now), held := w.held - {worker})
  }

  /** A step that its worker is in no position to take leaves everything as it was. */
  function Next(w: World, s: Step): World {
    match s
    case EnqueueStep(elapsed, _, _, _, _, _, _) => Enqueued(Tick(w, elapsed), s)
    case ClaimStep(elapsed, worker) =>
      var w1 := Tick(w, elapsed);
      var next := NextDue(w1.db.jobs, w1.now);
      if CanClaim(w1, worker) && next.Some? then Claimed(w1, worker, next.value) else w1
    case FinaliseStep(elapsed, worker, report) =>
      var w1 := Tick(w, elapsed);
      if CanFinalise(w1, worker) then Finalising(w1, worker, report) else w1
    case CrashStep(worker) => w.(dead := w.dead + {worker})
  }

  function Run(w: World, steps: seq<Step>): World
    decreases steps
  {
    if steps == [] then w else Run(Next(w, steps[0]), steps[1..])
  }

  /** The row a claim step takes, if it takes one. */
  function Taken(w: World, s: Step): Option<nat> {
    if s.ClaimStep? && CanClaim(w, s.worker) then NextDue(w.db.jobs, w.now + s.elapsed) else None
  }

  /** The step moved a job: a successful claim or a finalisation. */
  predicate Productive(w: World, s: Step) {
    Taken(w, s).Some? || (s.FinaliseStep? && CanFinalise(w, s.worker))
  }
}
