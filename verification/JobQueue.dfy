/** The job table and the four queue operations. A job's id is its row number; a queue works on
    the tables of the session it was given, and every operation is one transaction. */
module JobQueue {
  import opened Common
  import TE = TrustEngine

  datatype JobStatus = Pending | Running | Succeeded | Failed | SilentFail

  datatype JobAction = Login | ExtractInvoices | DownloadStatement | ConfirmPayment

  datatype Job = Job(
    id: nat,
    portal: string,
    payer: string,
    action: JobAction,
    payload: string,
    status: JobStatus,
    attempts: nat,
    maxAttempts: int,
    scheduledFor: Time,
    startedAt: Option<Time>,
    finishedAt: Option<Time>,
    lastError: Option<string>)

  datatype ClaimedJob = ClaimedJob(
    jobId: nat,
    portal: string,
    payer: string,
    action: JobAction,
    payload: string,
    attemptNumber: nat)

  datatype Attempt = Attempt(
    jobId: nat,
    number: nat,
    startedAt: Time,
    finishedAt: Option<Time>,
    output: Option<string>,
    screenshot: Option<string>,
    verdict: Option<string>,
    confidence: Option<real>,
    rationale: Option<string>,
    error: Option<string>)

  datatype Extraction = Extraction(jobId: nat, portal: string, payer: string, invoiceCount: nat)

  datatype HealthKind = HealthSucceeded | HealthFailed | HealthSilentFail

  datatype HealthEvent = HealthEvent(portal: string, kind: HealthKind, detail: Option<string>)

  /** The rows of every table the browser vertical writes. */
  datatype Tables = Tables(
    jobs: seq<Job>,
    attempts: seq<Attempt>,
    extractions: seq<Extraction>,
    health: seq<HealthEvent>,
    trust: TE.TrustStore)

  predicate Terminal(s: JobStatus) {
    s == Succeeded || s == Failed || s == SilentFail
  }

  // ---- What each operation does to one row --------------------------------------------

  function NewJob(id: nat, portal: string, payer: string, action: JobAction, payload: string,
                  scheduledFor: Option<Time>, maxAttempts: int, now: Time): Job
  {
    var at := if scheduledFor.Some? then scheduledFor.value else now;
    Job(id, portal, payer, action, payload, Pending, 0, maxAttempts, at, None, None, None)
  }

  function Started(job: Job, cutoff: Time): Job {
    job.(status := Running, attempts := job.attempts + 1, startedAt := Some(cutoff))
  }

  function Finished(job: Job, now: Time): Job {
    job.(status := Succeeded, finishedAt := Some(now), lastError := None)
  }

  function Truncated(s: string, n: nat): (r: string)
    ensures r == s[..Min(n, |s|)]
  {
    assert s[..|s|] == s;
    if |s| <= n then s else s[..n]
  }

  /** A zero `retry_in` is falsy in the source, so it too selects the linear backoff. */
  function RetryDelay(attempts: nat, retryIn: Option<int>): int {
    if retryIn.Some? && retryIn.value != 0 then retryIn.value else 30 * attempts
  }

  /** A requested delay is honoured exactly when it is not zero or there is no backoff to replace it. */
  lemma RetryAsAskedIff(attempts: nat, asked: int)
    ensures RetryDelay(attempts, Some(asked)) == asked <==> asked != 0 || attempts == 0
    ensures RetryDelay(attempts, None) == RetryDelay(attempts, Some(0)) == 30 * attempts
  {
  }

  function AfterFailure(job: Job, now: Time, error: string, retryIn: Option<int>, silentFail: bool): Job {
    var noted := job.(lastError := Some(Truncated(error, 500)));
    if silentFail then noted.(status := SilentFail, finishedAt := Some(now))
    else if job.attempts < job.maxAttempts then
      noted.(status := Pending, scheduledFor := now + RetryDelay(job.attempts, retryIn), startedAt := None)
    else noted.(status := Failed, finishedAt := Some(now))
  }

  // ---- Claim order --------------------------------------------------------------------

  predicate Due(job: Job, cutoff: Time) {
    job.status == Pending && job.scheduledFor <= cutoff
  }

  /** The queue's order: by schedule, then by id. */
  predicate Before(a: Job, b: Job) {
    a.scheduledFor < b.scheduledFor || (a.scheduledFor == b.scheduledFor && a.id < b.id)
  }

  predicate IdsAreRows(jobs: seq<Job>) {
    forall i :: 0 <= i < |jobs| ==> jobs[i].id == i
  }

  /** Row `i` is due and no due row comes before it. */
  ghost predicate IsNext(jobs: seq<Job>, cutoff: Time, i: nat) {
    && i < |jobs|
    && Due(jobs[i], cutoff)
    && forall k :: 0 <= k < |jobs| && Due(jobs[k], cutoff) ==> !Before(jobs[k], jobs[i])
  }

  function NextDue(jobs: seq<Job>, cutoff: Time): (r: Option<nat>)
    ensures r.Some? ==> IsNext(jobs, cutoff, r.value)
    ensures r.None? ==> forall k :: 0 <= k < |jobs| ==> !Due(jobs[k], cutoff)
  {
    if jobs == [] then None
    else
      var n := |jobs| - 1;
      var best := NextDue(jobs[..n], cutoff);
      if Due(jobs[n], cutoff) && (best.None? || Before(jobs[n], jobs[best.value])) then Some(n)
      else best
  }

  /** Ids break every tie, so the next job is unique. */
  lemma NextIsUnique(jobs: seq<Job>, cutoff: Time, i: nat)
    requires IdsAreRows(jobs) && IsNext(jobs, cutoff, i)
    ensures NextDue(jobs, cutoff) == Some(i)
  {
    var r := NextDue(jobs, cutoff);
    assert !Before(jobs[i], jobs[r.value]) && !Before(jobs[r.value], jobs[i]);
  }

  class Session {
    var jobs: seq<Job>
    var attempts: seq<Attempt>
    var extractions: seq<Extraction>
    var health: seq<HealthEvent>
    var trust: TE.TrustStore

    constructor (db: Tables)
      ensures Rows() == db
    {
      jobs, attempts, extractions := db.jobs, db.attempts, db.extractions;
      health, trust := db.health, db.trust;
    }

    function Rows(): Tables
      reads this
    {
      Tables(jobs, attempts, extractions, health, trust)
    }
  }

  class SqliteJobQueue {
    const session: Session

    constructor (session: Session)
      ensures this.session == session
    {
      this.session := session;
    }

    method Enqueue(portal: string, payer: string, action: JobAction, payload: string,
                   scheduledFor: Option<Time>, maxAttempts: int, now: Time) returns (id: nat)
      modifies session`jobs
      ensures id == |old(session.jobs)|
      ensures session.jobs == old(session.jobs)
              + [NewJob(id, portal, payer, action, payload, scheduledFor, maxAttempts, now)]
    {
      id := |session.jobs|;
      var at := now;
      if scheduledFor.Some? {
        at := scheduledFor.value;
      }
      session.jobs := session.jobs
        + [Job(id, portal, payer, action, payload, Pending, 0, maxAttempts, at, None, None, None)];
    }

    /** Nothing changes when nothing is due; otherwise exactly the next due row starts. */
    method ClaimNext(cutoff: Time) returns (r: Option<ClaimedJob>)
      modifies session`jobs
      ensures r.None? ==>
                && session.jobs == old(session.jobs)
                && forall k :: 0 <= k < |session.jobs| ==> !Due(session.jobs[k], cutoff)
      ensures r.Some? ==>
                var i := r.value.jobId;
                && IsNext(old(session.jobs), cutoff, i)
                && session.jobs == old(session.jobs)[i := Started(old(session.jobs)[i], cutoff)]
                && r.value == ClaimOf(i, session.jobs[i])
    {
      var best: Option<nat> := None;
      for i := 0 to |session.jobs|
        invariant session.jobs == old(session.jobs)
        invariant best.None? ==> forall k :: 0 <= k < i ==> !Due(session.jobs[k], cutoff)
        invariant best.Some? ==> IsNext(session.jobs[..i], cutoff, best.value)
      {
        if Due(session.jobs[i], cutoff)
           && (best.None? || Before(session.jobs[i], session.jobs[best.value])) {
          best := Some(i);
        }
      }
      assert session.jobs[..|session.jobs|] == session.jobs;
      if best.None? {
        return None;
      }
      var i := best.value;
      var job := session.jobs[i];
      job := job.(status := Running);
      job := job.(attempts := job.attempts + 1);
      job := job.(startedAt := Some(cutoff));
      session.jobs := session.jobs[i := job];
      r := Some(ClaimOf(i, job));
    }

    method MarkSucceeded(jobId: nat, now: Time)
      modifies session`jobs
      ensures session.jobs == if jobId < |old(session.jobs)|
                              then old(session.jobs)[jobId := Finished(old(session.jobs)[jobId], now)]
                              else old(session.jobs)
    {
      if jobId >= |session.jobs| {
        return;
      }
      var job := session.jobs[jobId];
      job := job.(status := Succeeded);
      job := job.(finishedAt := Some(now));
      job := job.(lastError := None);
      session.jobs := session.jobs[jobId := job];
    }

    method MarkFailed(jobId: nat, error: string, retryIn: Option<int>, silentFail: bool, now: Time)
      modifies session`jobs
      ensures session.jobs == if jobId < |old(session.jobs)|
                              then old(session.jobs)[jobId :=
                                AfterFailure(old(session.jobs)[jobId], now, error, retryIn, silentFail)]
                              else old(session.jobs)
    {
      if jobId >= |session.jobs| {
        return;
      }
      var job := session.jobs[jobId];
      job := job.(lastError := Some(Truncated(error, 500)));
      if silentFail {
        job := job.(status := SilentFail);
        job := job.(finishedAt := Some(now));
      } else if job.attempts < job.maxAttempts {
        job := job.(status := Pending);
        var delay := RetryDelay(job.attempts, retryIn);
        job := job.(scheduledFor := now + delay);
        job := job.(startedAt := None);
      } else {
        job := job.(status := Failed);
        job := job.(finishedAt := Some(now));
      }
      session.jobs := session.jobs[jobId := job];
    }
  }

  function ClaimOf(id: nat, job: Job): ClaimedJob {
    ClaimedJob(id, job.portal, job.payer, job.action, job.payload, job.attempts)
  }
}
