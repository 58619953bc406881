/** What the rows say at every moment: which attempt rows are open, what a claim carries, and that
    no attempt starts before its job was scheduled. */
module WorkerRows {
  import opened Common
  import opened JobQueue
  import opened Validator
  import opened Worker
  import opened WorkerInvariant
  import opened WorkerRuns

  // ---- Open rows ------------------------------------------------------------------------

  ghost predicate RowHeld(w: World, k: nat) {
    exists worker :: worker in w.held && w.held[worker].attemptId == k
  }

  /** An attempt row is open exactly while some worker holds it. */
  ghost predicate OpenRowsAreHeld(w: World) {
    forall k :: 0 <= k < |w.db.attempts| ==> (w.db.attempts[k].finishedAt == None <==> RowHeld(w, k))
  }

  lemma ClaimHoldsNewRow(w: World, worker: nat, i: nat)
    requires Inv(w) && OpenRowsAreHeld(w) && CanClaim(w, worker) && i < |w.db.jobs|
    ensures OpenRowsAreHeld(Claimed(w, worker, i))
  {
    var w' := Claimed(w, worker, i);
    forall k | 0 <= k < |w'.db.attempts| ensures w'.db.attempts[k].finishedAt == None <==> RowHeld(w', k) {
      if k == |w.db.attempts| {
        assert w'.held[worker].attemptId == k;
      } else {
        assert w'.db.attempts[k] == w.db.attempts[k];
        if RowHeld(w, k) {
          var other :| other in w.held && w.held[other].attemptId == k;
          assert w'.held[other].attemptId == k;
        }
        if RowHeld(w', k) {
          var other :| other in w'.held && w'.held[other].attemptId == k;
          assert w.held[other].attemptId == k;
        }
      }
    }
  }

  /** Two workers never hold the same row. */
  lemma RowsHeldOnce(w: World, a: nat, b: nat)
    requires Inv(w) && a in w.held && b in w.held && a != b
    ensures w.held[a].attemptId != w.held[b].attemptId
  {
    assert ClaimOk(w.db, w.held[a]) && ClaimOk(w.db, w.held[b]);
  }

  /** A finalisation writes only the row its worker holds. */
  lemma FinalisedAttempts(w: World, worker: nat, report: Report)
    requires CanFinalise(w, worker)
    ensures worker in w.held && w.held[worker].attemptId < |w.db.attempts|
    ensures var k, w' := w.held[worker].attemptId, Finalising(w, worker, report);
            && w'.held == w.held - {worker}
            && |w'.db.attempts| == |w.db.attempts| && w'.db.attempts[k].finishedAt == Some(w.now)
            && forall j :: 0 <= j < |w.db.attempts| && j != k ==> w'.db.attempts[j] == w.db.attempts[j]
  {
    hide Settle, SettledRows;
    ClosedRow(w.db.attempts[w.held[worker].attemptId], w.held[worker].job, report, w.now);
    FinalisedTables(w.db, w.held[worker], report, w.now);
  }

  lemma OthersHoldOtherRows(w: World, worker: nat)
    requires Inv(w) && worker in w.held
    ensures forall other :: other in w.held && other != worker ==> w.held[other].attemptId != w.held[worker].attemptId
  {
    forall other | other in w.held && other != worker ensures w.held[other].attemptId != w.held[worker].attemptId {
      RowsHeldOnce(w, other, worker);
    }
  }

  lemma FinaliseReleasesRow(w: World, worker: nat, report: Report)
    requires Inv(w) && OpenRowsAreHeld(w) && CanFinalise(w, worker)
    ensures OpenRowsAreHeld(Finalising(w, worker, report))
  {
    hide Inv, Finalising, CanFinalise;
    var w' := Finalising(w, worker, report);
    FinalisedAttempts(w, worker, report);
    OthersHoldOtherRows(w, worker);
    forall k | 0 <= k < |w'.db.attempts| ensures w'.db.attempts[k].finishedAt == None <==> RowHeld(w', k) {
      if RowHeld(w, k) {
        var other :| other in w.held && w.held[other].attemptId == k;
        assert other != worker ==> other in w'.held && w'.held[other].attemptId == k;
      }
      if RowHeld(w', k) {
        var other :| other in w'.held && w'.held[other].attemptId == k;
        assert w.held[other].attemptId == k;
      }
    }
  }

  lemma SameHolders(w: World, w': World)
    requires OpenRowsAreHeld(w) && w'.db.attempts == w.db.attempts && w'.held == w.held
    ensures OpenRowsAreHeld(w')
  {
    forall k | 0 <= k < |w'.db.attempts| ensures RowHeld(w, k) <==> RowHeld(w', k) {
    }
  }

  lemma StepKeepsOpenRows(w: World, s: Step)
    requires Inv(w) && OpenRowsAreHeld(w)
    ensures OpenRowsAreHeld(Next(w, s))
  {
    hide OpenRowsAreHeld, Claimed, Finalising, Inv;
    match s {
      case EnqueueStep(elapsed, _, _, _, _, _, _) => SameHolders(w, Next(w, s));
      case ClaimStep(elapsed, worker) =>
        var w1 := Tick(w, elapsed);
        TickKeepsInv(w, elapsed);
        SameHolders(w, w1);
        var next := NextDue(w1.db.jobs, w1.now);
        if CanClaim(w1, worker) && next.Some? {
          ClaimHoldsNewRow(w1, worker, next.value);
        }
      case FinaliseStep(elapsed, worker, report) =>
        var w1 := Tick(w, elapsed);
        TickKeepsInv(w, elapsed);
        SameHolders(w, w1);
        if CanFinalise(w1, worker) {
          FinaliseReleasesRow(w1, worker, report);
        }
      case CrashStep(worker) => SameHolders(w, Next(w, s));
    }
  }

  /** After every run from fresh tables an attempt row is open exactly while a worker holds it, and
      no two workers hold the same one. */
  lemma {:induction false} RunKeepsOpenRows(w: World, steps: seq<Step>)
    requires Inv(w) && OpenRowsAreHeld(w)
    ensures OpenRowsAreHeld(Run(w, steps))
    ensures forall a, b :: a in Run(w, steps).held && b in Run(w, steps).held && a != b
                           ==> Run(w, steps).held[a].attemptId != Run(w, steps).held[b].attemptId
    decreases steps
  {
    if steps != [] {
      NextKeepsInv(w, steps[0]);
      StepKeepsOpenRows(w, steps[0]);
      hide Inv, Next, OpenRowsAreHeld;
      RunKeepsOpenRows(Next(w, steps[0]), steps[1..]);
    } else {
      forall a, b | a in w.held && b in w.held && a != b ensures w.held[a].attemptId != w.held[b].attemptId {
        RowsHeldOnce(w, a, b);
      }
    }
  }

  // ---- Closed rows ----------------------------------------------------------------------

  /** A later attempt row: same job, number and start, and nothing changes once it is closed. */
  ghost predicate LaterAttempt(a: Attempt, b: Attempt) {
    a.jobId == b.jobId && a.number == b.number && a.startedAt == b.startedAt && (a.finishedAt.Some? ==> a == b)
  }

  lemma StepKeepsAttempts(w: World, s: Step)
    requires Inv(w)
    ensures |w.db.attempts| <= |Next(w, s).db.attempts|
    ensures forall k :: 0 <= k < |w.db.attempts| ==> LaterAttempt(w.db.attempts[k], Next(w, s).db.attempts[k])
  {
    if Settles(w, s) {
      var w1 := Tick(w, s.elapsed);
      var c := w.held[s.worker];
      assert ClaimOk(w.db, c);
      ClosedRow(w.db.attempts[c.attemptId], c.job, s.report, w1.now);
      FinalisedTables(w.db, c, s.report, w1.now);
      hide Inv, Finalised, ClosedAttempt;
    }
  }

  /** The attempt log is only appended to, apart from closing an open row once. */
  lemma {:induction false} RunKeepsAttempts(w: World, steps: seq<Step>)
    requires Inv(w)
    ensures |w.db.attempts| <= |Run(w, steps).db.attempts|
    ensures forall k :: 0 <= k < |w.db.attempts| ==> LaterAttempt(w.db.attempts[k], Run(w, steps).db.attempts[k])
    decreases steps
  {
    if steps != [] {
      NextKeepsInv(w, steps[0]);
      StepKeepsAttempts(w, steps[0]);
      hide Inv, Next;
      RunKeepsAttempts(Next(w, steps[0]), steps[1..]);
    }
  }

  // ---- What a claim carries -------------------------------------------------------------

  /** At any time after any run: a held claim carries its job's own portal, payer, action and
      payload, its current attempt number, and the start its attempt row shows. */
  lemma ClaimCarriesItsJob(w: World, steps: seq<Step>, worker: nat)
    requires Inv(w) && worker in Run(w, steps).held
    ensures var now := Run(w, steps);
            var c := now.held[worker];
            && c.job.jobId < |now.db.jobs| && c.attemptId < |now.db.attempts|
            && var job, row := now.db.jobs[c.job.jobId], now.db.attempts[c.attemptId];
               && c.job.portal == job.portal && c.job.payer == job.payer
               && c.job.action == job.action && c.job.payload == job.payload
               && c.job.attemptNumber == job.attempts == row.number && row.jobId == c.job.jobId
               && job.startedAt == Some(row.startedAt)
  {
    RunKeepsInv(w, steps);
    assert ClaimOk(Run(w, steps).db, Run(w, steps).held[worker]);
  }

  // ---- Not before its time --------------------------------------------------------------

  ghost predicate NoneStartsBefore(attempts: seq<Attempt>, i: nat, at: Time) {
    forall k :: 0 <= k < |attempts| && attempts[k].jobId == i ==> attempts[k].startedAt >= at
  }

  /** Job `i` has not been, and cannot yet be, started before `at`. */
  ghost predicate NotBefore(w: World, i: nat, at: Time) {
    && i < |w.db.jobs|
    && (w.db.jobs[i].status == Pending ==> w.db.jobs[i].scheduledFor >= at)
    && (w.db.jobs[i].status != Pending ==> w.now >= at)
    && NoneStartsBefore(w.db.attempts, i, at)
  }

  lemma SettlingKeepsNotBefore(w: World, s: Step, i: nat, at: Time)
    requires Inv(w) && NotBefore(w, i, at) && Settles(w, s)
    ensures NotBefore(Next(w, s), i, at)
  {
    hide Inv, Next, ChangeOf, CanFinalise, LaterRow, NoneStartsBefore;
    SettlingReplaces(w, s);
    ChangeIsStep(w, s);
    SettlingKeepsStarts(w, s, i, at);
    SettlingTime(w, s);
  }

  lemma SettlingTime(w: World, s: Step)
    requires Settles(w, s)
    ensures Next(w, s).now == w.now + s.elapsed && |Next(w, s).db.attempts| == |w.db.attempts|
  {
    FinalisedTables(w.db, w.held[s.worker], s.report, w.now + s.elapsed);
    hide Finalised;
  }

  lemma SettlingKeepsStarts(w: World, s: Step, i: nat, at: Time)
    requires Inv(w) && Settles(w, s) && NoneStartsBefore(w.db.attempts, i, at)
    ensures NoneStartsBefore(Next(w, s).db.attempts, i, at)
  {
    hide Inv, Next, CanFinalise;
    StepKeepsAttempts(w, s);
    SettlingTime(w, s);
  }

  lemma ClaimKeepsNotBefore(w: World, worker: nat, j: nat, i: nat, at: Time)
    requires NotBefore(w, i, at) && j < |w.db.jobs| && Due(w.db.jobs[j], w.now)
    ensures NotBefore(Claimed(w, worker, j), i, at)
  {
  }

  lemma StepKeepsNotBefore(w: World, s: Step, i: nat, at: Time)
    requires Inv(w) && NotBefore(w, i, at)
    ensures NotBefore(Next(w, s), i, at)
  {
    hide Inv, NoneStartsBefore, Claimed, Finalising;
    if Settles(w, s) {
      SettlingKeepsNotBefore(w, s, i, at);
    } else if s.ClaimStep? {
      var w1 := Tick(w, s.elapsed);
      var next := NextDue(w1.db.jobs, w1.now);
      if CanClaim(w1, s.worker) && next.Some? {
        ClaimKeepsNotBefore(w1, s.worker, next.value, i, at);
      }
    }
  }

  lemma {:induction false} RunKeepsNotBefore(w: World, steps: seq<Step>, i: nat, at: Time)
    requires Inv(w) && NotBefore(w, i, at)
    ensures NotBefore(Run(w, steps), i, at)
    decreases steps
  {
    if steps != [] {
      NextKeepsInv(w, steps[0]);
      StepKeepsNotBefore(w, steps[0], i, at);
      hide Inv, Next, NotBefore;
      RunKeepsNotBefore(Next(w, steps[0]), steps[1..], i, at);
    }
  }

  /** A job never starts before the time it was enqueued for: the requested one, or the moment of
      the enqueue. */
  lemma NeverStartsEarly(w: World, s: Step, steps: seq<Step>)
    requires Inv(w) && s.EnqueueStep?
    ensures var i, at := |w.db.jobs|, if s.scheduledFor.Some? then s.scheduledFor.value else w.now + s.elapsed;
            var later := Run(Next(w, s), steps);
            && i < |later.db.jobs| && NoneStartsBefore(later.db.attempts, i, at)
            && (later.now < at ==> later.db.jobs[i].status == Pending)
  {
    NextKeepsInv(w, s);
    var at := if s.scheduledFor.Some? then s.scheduledFor.value else w.now + s.elapsed;
    assert Next(w, s).db.attempts == w.db.attempts;
    assert NotBefore(Next(w, s), |w.db.jobs|, at);
    hide Inv, Next;
    RunKeepsNotBefore(Next(w, s), steps, |w.db.jobs|, at);
  }
}
