/** The logs the workers write agree with the job table, row for row, after every run. */
module WorkerAccounts {
  import opened Common
  import opened JobQueue
  import opened Validator
  import opened Worker
  import opened WorkerInvariant
  import opened WorkerRuns
  import TE = TrustEngine

  function IsRunning(): Job -> int {
    (job: Job) => Ind(job.status == Running)
  }

  function AtPortal(portal: string, status: JobStatus): Job -> int {
    (job: Job) => Ind(job.portal == portal && job.status == status)
  }

  function ForPayer(payer: string, status: JobStatus): Job -> int {
    (job: Job) => Ind(job.payer == payer && job.status == status)
  }

  /** Attempts that ended in a hard failure: all but a running, passed or silently failed one. */
  function HardFailures(portal: string): Job -> int {
    (job: Job) =>
      if job.portal != portal then 0
      else job.attempts - Ind(job.status == Running || job.status == Succeeded || job.status == SilentFail)
  }

  function IsHealth(portal: string, kind: HealthKind): HealthEvent -> int {
    (h: HealthEvent) => Ind(h.portal == portal && h.kind == kind)
  }

  function IsTrust(payer: string, kind: TE.EventKind): TE.Event -> int {
    (e: TE.Event) => Ind(e.payer == payer && e.kind == kind)
  }

  // ---- Claims and health events -------------------------------------------------------

  ghost predicate AttemptsBalance(w: World) {
    && |w.db.attempts| == |w.db.health| + |w.held|
    && Sum(w.db.jobs, IsRunning()) == |w.held|
  }

  /** A portal's health log is the tally of how its jobs' attempts ended. */
  ghost predicate HealthBalance(db: Tables, portal: string) {
    && Sum(db.health, IsHealth(portal, HealthSucceeded)) == Sum(db.jobs, AtPortal(portal, Succeeded))
    && Sum(db.health, IsHealth(portal, HealthSilentFail)) == Sum(db.jobs, AtPortal(portal, SilentFail))
    && Sum(db.health, IsHealth(portal, HealthFailed)) == Sum(db.jobs, HardFailures(portal))
  }

  lemma HeldShrinks(held: map<nat, Claim>, k: nat)
    requires k in held
    ensures |held - {k}| == |held| - 1
  {
    assert held == (held - {k})[k := held[k]];
  }

  /** Enqueues and claims leave the settled counts alone; a claim adds an attempt that runs. */
  lemma QuietMoves(w: World, s: Step, portal: string, payer: string)
    requires Inv(w) && !Settles(w, s)
    ensures var c := ChangeOf(w, s);
            && Moved(w.db.jobs, c, IsRunning()) == Ind(Taken(w, s).Some?)
            && Moved(w.db.jobs, c, AtPortal(portal, Succeeded)) == 0
            && Moved(w.db.jobs, c, AtPortal(portal, SilentFail)) == 0
            && Moved(w.db.jobs, c, HardFailures(portal)) == 0
            && Moved(w.db.jobs, c, ForPayer(payer, Succeeded)) == 0
            && Moved(w.db.jobs, c, ForPayer(payer, SilentFail)) == 0
  {
    if Taken(w, s).Some? {
      assert Due(w.db.jobs[Taken(w, s).value], w.now + s.elapsed);
    }
  }

  lemma QuietLogs(w: World, s: Step)
    requires !Settles(w, s)
    ensures Next(w, s).db.health == w.db.health
    ensures Next(w, s).db.extractions == w.db.extractions && Next(w, s).db.trust == w.db.trust
    ensures |Next(w, s).db.attempts| == |w.db.attempts| + Ind(Taken(w, s).Some?)
    ensures |Next(w, s).held| == |w.held| + Ind(Taken(w, s).Some?)
  {
  }

  /** How a settlement shows in the tallies over the job table. */
  lemma SettledTallies(job: Job, s: Settlement, now: Time, portal: string, payer: string)
    requires JobOk(job) && job.status == Running
    ensures var after := SettledJob(job, s, now);
            && IsRunning()(after) == IsRunning()(job) - 1
            && AtPortal(portal, Succeeded)(after) == AtPortal(portal, Succeeded)(job) + Ind(job.portal == portal && s.Success?)
            && AtPortal(portal, SilentFail)(after) == AtPortal(portal, SilentFail)(job) + Ind(job.portal == portal && s.Silent?)
            && HardFailures(portal)(after) == HardFailures(portal)(job) + Ind(job.portal == portal && s.Hard?)
            && ForPayer(payer, Succeeded)(after) == ForPayer(payer, Succeeded)(job) + Ind(job.payer == payer && s.Success?)
            && ForPayer(payer, SilentFail)(after) == ForPayer(payer, SilentFail)(job) + Ind(job.payer == payer && s.Silent?)
  {
  }

  lemma SettlingMoves(w: World, s: Step, portal: string, payer: string)
    requires Inv(w) && Settles(w, s)
    ensures var c := ChangeOf(w, s);
            var job, how := w.held[s.worker].job, Settle(w.held[s.worker].job, s.report);
            && Moved(w.db.jobs, c, IsRunning()) == -1
            && Moved(w.db.jobs, c, AtPortal(portal, Succeeded)) == Ind(job.portal == portal && how.Success?)
            && Moved(w.db.jobs, c, AtPortal(portal, SilentFail)) == Ind(job.portal == portal && how.Silent?)
            && Moved(w.db.jobs, c, HardFailures(portal)) == Ind(job.portal == portal && how.Hard?)
            && Moved(w.db.jobs, c, ForPayer(payer, Succeeded)) == Ind(job.payer == payer && how.Success?)
            && Moved(w.db.jobs, c, ForPayer(payer, SilentFail)) == Ind(job.payer == payer && how.Silent?)
  {
    var c := w.held[s.worker];
    assert ClaimOk(w.db, c);
    assert JobOk(w.db.jobs[c.job.jobId]);
    SettledTallies(w.db.jobs[c.job.jobId], Settle(c.job, s.report), w.now + s.elapsed, portal, payer);
  }

  function HealthRow(c: ClaimedJob, s: Settlement): HealthEvent {
    HealthEvent(c.portal, HealthOf(s), Detail(s))
  }

  lemma SettlingLogs(w: World, s: Step)
    requires Settles(w, s)
    ensures s.worker in w.held
    ensures var c := w.held[s.worker].job;
            && Next(w, s).db.health == w.db.health + [HealthRow(c, Settle(c, s.report))]
            && |Next(w, s).db.attempts| == |w.db.attempts|
            && |Next(w, s).held| == |w.held| - 1
  {
    HeldShrinks(w.held, s.worker);
  }

  lemma StepKeepsAttemptsBalance(w: World, s: Step)
    requires Inv(w) && AttemptsBalance(w)
    ensures AttemptsBalance(Next(w, s))
  {
    ChangeIsStep(w, s);
    SumApplied(w.db.jobs, ChangeOf(w, s), IsRunning());
    if Settles(w, s) {
      SettlingMoves(w, s, "", "");
      SettlingLogs(w, s);
    } else {
      QuietMoves(w, s, "", "");
      QuietLogs(w, s);
    }
  }

  lemma HealthSums(health: seq<HealthEvent>, h: HealthEvent, portal: string)
    ensures forall k :: Sum(health + [h], IsHealth(portal, k))
                        == Sum(health, IsHealth(portal, k)) + Ind(h.portal == portal && h.kind == k)
  {
    forall k ensures Sum(health + [h], IsHealth(portal, k))
                     == Sum(health, IsHealth(portal, k)) + Ind(h.portal == portal && h.kind == k)
    {
      SumSingle(health, h, IsHealth(portal, k));
    }
  }

  lemma PortalJobSums(w: World, s: Step, portal: string)
    ensures var change, jobs, jobs' := ChangeOf(w, s), w.db.jobs, Next(w, s).db.jobs;
            && Sum(jobs', AtPortal(portal, Succeeded))
               == Sum(jobs, AtPortal(portal, Succeeded)) + Moved(jobs, change, AtPortal(portal, Succeeded))
            && Sum(jobs', AtPortal(portal, SilentFail))
               == Sum(jobs, AtPortal(portal, SilentFail)) + Moved(jobs, change, AtPortal(portal, SilentFail))
            && Sum(jobs', HardFailures(portal))
               == Sum(jobs, HardFailures(portal)) + Moved(jobs, change, HardFailures(portal))
  {
    ChangeIsStep(w, s);
    SumApplied(w.db.jobs, ChangeOf(w, s), AtPortal(portal, Succeeded));
    SumApplied(w.db.jobs, ChangeOf(w, s), AtPortal(portal, SilentFail));
    SumApplied(w.db.jobs, ChangeOf(w, s), HardFailures(portal));
  }

  lemma StepKeepsHealthBalance(w: World, s: Step, portal: string)
    requires Inv(w) && HealthBalance(w.db, portal)
    ensures HealthBalance(Next(w, s).db, portal)
  {
    hide Inv, Next, ChangeOf, Moved, Settle, Sum;
    PortalJobSums(w, s, portal);
    if Settles(w, s) {
      SettlingMoves(w, s, portal, "");
      SettlingLogs(w, s);
      var c := w.held[s.worker].job;
      HealthSums(w.db.health, HealthRow(c, Settle(c, s.report)), portal);
    } else {
      QuietMoves(w, s, portal, "");
      QuietLogs(w, s);
    }
  }

  // ---- Extractions and trust events ---------------------------------------------------

  /** One extraction per succeeded job, a clean-streak event for every extraction from the
      fifth on, one silent-fail event per silently failed job. */
  ghost predicate PayerBalance(db: Tables, payer: string) {
    && Sum(db.extractions, IsOfPayer(payer)) == Sum(db.jobs, ForPayer(payer, Succeeded))
    && Sum(db.trust.events, IsTrust(payer, TE.CleanExtractionStreak))
       == Max(0, Sum(db.extractions, IsOfPayer(payer)) - 4)
    && Sum(db.trust.events, IsTrust(payer, TE.SilentFailCaught)) == Sum(db.jobs, ForPayer(payer, SilentFail))
  }

  /** The logs touched by a settlement, apart from the job row itself. */
  lemma SettledLogs(db: Tables, c: ClaimedJob, s: Settlement, now: Time, payer: string)
    requires c.jobId < |db.jobs|
    requires Sum(db.trust.events, IsTrust(payer, TE.CleanExtractionStreak))
             == Max(0, Sum(db.extractions, IsOfPayer(payer)) - 4)
    ensures var db' := SettledRows(db, c, s, now);
            && Sum(db'.extractions, IsOfPayer(payer))
               == Sum(db.extractions, IsOfPayer(payer)) + Ind(s.Success? && c.payer == payer)
            && Sum(db'.trust.events, IsTrust(payer, TE.CleanExtractionStreak))
               == Max(0, Sum(db'.extractions, IsOfPayer(payer)) - 4)
            && Sum(db'.trust.events, IsTrust(payer, TE.SilentFailCaught))
               == Sum(db.trust.events, IsTrust(payer, TE.SilentFailCaught)) + Ind(s.Silent? && c.payer == payer)
  {
    if s.Success? {
      var x := Extraction(c.jobId, c.portal, c.payer, s.invoiceRows);
      SumSingle(db.extractions, x, IsOfPayer(payer));
      TrustSums(db.trust, c.payer, TE.CleanExtractionStreak, now, payer);
    } else if s.Silent? {
      TrustSums(db.trust, c.payer, TE.SilentFailCaught, now, payer);
    }
  }

  lemma TrustSums(st: TE.TrustStore, payer: string, kind: TE.EventKind, now: Time, q: string)
    ensures forall k :: Sum(TE.Updated(st, payer, kind, now).events, IsTrust(q, k))
                        == Sum(st.events, IsTrust(q, k)) + Ind(payer == q && kind == k)
  {
    forall k ensures Sum(TE.Updated(st, payer, kind, now).events, IsTrust(q, k))
                     == Sum(st.events, IsTrust(q, k)) + Ind(payer == q && kind == k)
    {
      SumSingle(st.events, TE.Event(payer, kind, TE.EventDelta(kind), now), IsTrust(q, k));
    }
  }

  lemma StepKeepsPayerBalance(w: World, s: Step, payer: string)
    requires Inv(w) && PayerBalance(w.db, payer)
    ensures PayerBalance(Next(w, s).db, payer)
  {
    hide Inv, Next, ChangeOf, Moved, Settle, Sum, Applied;
    ChangeIsStep(w, s);
    SumApplied(w.db.jobs, ChangeOf(w, s), ForPayer(payer, Succeeded));
    SumApplied(w.db.jobs, ChangeOf(w, s), ForPayer(payer, SilentFail));
    if Settles(w, s) {
      SettlingMoves(w, s, "", payer);
      SettlingPayerLogs(w, s, payer);
    } else {
      QuietMoves(w, s, "", payer);
      QuietLogs(w, s);
    }
  }

  lemma SettlingIsRows(w: World, s: Step) returns (db: Tables)
    requires Settles(w, s)
    ensures db == w.db.(attempts := db.attempts)
    ensures var c := w.held[s.worker].job;
            Next(w, s).db == SettledRows(db, c, Settle(c, s.report), w.now + s.elapsed)
  {
    hide SettledRows, Settle, ClosedAttempt;
    var c := w.held[s.worker];
    db := w.db.(attempts := w.db.attempts[c.attemptId :=
                  ClosedAttempt(w.db.attempts[c.attemptId], c.job, s.report, w.now + s.elapsed)]);
  }

  lemma SettlingPayerLogs(w: World, s: Step, payer: string)
    requires Settles(w, s)
    requires Sum(w.db.trust.events, IsTrust(payer, TE.CleanExtractionStreak))
             == Max(0, Sum(w.db.extractions, IsOfPayer(payer)) - 4)
    ensures var db' := Next(w, s).db;
            var c, how := w.held[s.worker].job, Settle(w.held[s.worker].job, s.report);
            && Sum(db'.extractions, IsOfPayer(payer))
               == Sum(w.db.extractions, IsOfPayer(payer)) + Ind(how.Success? && c.payer == payer)
            && Sum(db'.trust.events, IsTrust(payer, TE.CleanExtractionStreak))
               == Max(0, Sum(db'.extractions, IsOfPayer(payer)) - 4)
            && Sum(db'.trust.events, IsTrust(payer, TE.SilentFailCaught))
               == Sum(w.db.trust.events, IsTrust(payer, TE.SilentFailCaught)) + Ind(how.Silent? && c.payer == payer)
  {
    hide Next, SettledRows, Settle, ClosedAttempt, Sum;
    var c := w.held[s.worker].job;
    var db := SettlingIsRows(w, s);
    SettledLogs(db, c, Settle(c, s.report), w.now + s.elapsed, payer);
  }

  // ---- Runs ---------------------------------------------------------------------------

  /** All the books, for one portal and one payer. */
  ghost predicate BooksBalance(w: World, portal: string, payer: string) {
    AttemptsBalance(w) && HealthBalance(w.db, portal) && PayerBalance(w.db, payer)
  }

  lemma {:induction false} RunKeepsBooks(w: World, steps: seq<Step>, portal: string, payer: string)
    requires Inv(w) && BooksBalance(w, portal, payer)
    ensures BooksBalance(Run(w, steps), portal, payer)
    decreases steps
  {
    if steps != [] {
      var s := steps[0];
      NextKeepsInv(w, s);
      StepKeepsAttemptsBalance(w, s);
      StepKeepsHealthBalance(w, s, portal);
      StepKeepsPayerBalance(w, s, payer);
      RunKeepsBooks(Next(w, s), steps[1..], portal, payer);
    }
  }

  /** From fresh tables the books balance for every portal and payer after every run: attempt
      rows without a health event are exactly the claims still outstanding. */
  lemma BooksBalanceFromStart(w: World, steps: seq<Step>, portal: string, payer: string)
    requires Initial(w) && w.db.trust == TE.EMPTY_STORE
    ensures Inv(Run(w, steps)) && BooksBalance(Run(w, steps), portal, payer)
  {
    InitialInv(w);
    RunKeepsInv(w, steps);
    RunKeepsBooks(w, steps, portal, payer);
  }
}
