/** Clean-streak events as described, one per five consecutive successful extractions of a payer,
    against what the workers emit. */
module WorkerStreaks {
  import opened Common
  import opened JobQueue
  import opened Validator
  import opened Worker
  import opened WorkerInvariant
  import opened WorkerRuns
  import opened WorkerAccounts
  import TE = TrustEngine

  // ---- The description ------------------------------------------------------------------

  /** How a payer's attempts ended, in order; true for a success. */
  type History = seq<bool>

  /** Successes since the last failure. */
  function Streak(h: History): nat {
    if h == [] || !h[|h| - 1] then 0 else Streak(h[..|h| - 1]) + 1
  }

  /** One event each time the streak reaches another multiple of five. */
  function Described(h: History): nat {
    if h == [] then 0
    else Described(h[..|h| - 1]) + Ind(h[|h| - 1] && Streak(h) % CLEAN_STREAK_THRESHOLD == 0)
  }

  function Successes(h: History): nat {
    if h == [] then 0 else Successes(h[..|h| - 1]) + Ind(h[|h| - 1])
  }

  ghost predicate FiveFrom(h: History, i: nat) {
    i + CLEAN_STREAK_THRESHOLD <= |h| && forall k :: i <= k < i + CLEAN_STREAK_THRESHOLD ==> h[k]
  }

  ghost predicate FiveInARow(h: History) {
    exists i: nat :: FiveFrom(h, i)
  }

  lemma {:induction false} DescribedBounds(h: History)
    ensures 5 * Described(h) + Streak(h) % 5 <= Successes(h)
    ensures Described(h) >= Streak(h) / 5
  {
    if h != [] {
      DescribedBounds(h[..|h| - 1]);
    }
  }

  /** The current streak is a run of successes at the end. */
  lemma {:induction false} StreakIsTail(h: History)
    ensures Streak(h) <= |h| && forall k :: |h| - Streak(h) <= k < |h| ==> h[k]
  {
    if h != [] {
      StreakIsTail(h[..|h| - 1]);
    }
  }

  lemma {:induction false} TailIsStreak(h: History, n: nat)
    requires n <= |h| && forall k :: |h| - n <= k < |h| ==> h[k]
    ensures Streak(h) >= n
  {
    if n > 0 {
      TailIsStreak(h[..|h| - 1], n - 1);
    }
  }

  lemma {:induction false} DescribedNeedsFive(h: History)
    ensures Described(h) > 0 <==> FiveInARow(h)
  {
    if h == [] {
    } else {
      var n := |h| - 1;
      var front := h[..n];
      DescribedNeedsFive(front);
      StreakIsTail(h);
      if FiveInARow(front) {
        var i: nat :| FiveFrom(front, i);
        assert FiveFrom(h, i);
      } else if h[n] && Streak(h) % 5 == 0 {
        assert FiveFrom(h, n - 4);
      }
      if FiveInARow(h) {
        var i: nat :| FiveFrom(h, i);
        if i + 5 <= n {
          assert FiveFrom(front, i);
        } else {
          TailIsStreak(h, 5);
          DescribedBounds(h);
        }
      }
    }
  }

  /** The emitted max(0, n-4) is the described number exactly when the payer has at most four
      successes, or five without a failure among them. */
  lemma EmittedIsDescribedIff(h: History)
    ensures Max(0, Successes(h) - 4) == Described(h)
            <==> Successes(h) <= 4 || (Successes(h) == 5 && FiveInARow(h))
  {
    DescribedBounds(h);
    DescribedNeedsFive(h);
    hide Described, Successes, Streak, FiveInARow;
  }

  // ---- Histories of runs ----------------------------------------------------------------

  function OutcomeOf(w: World, s: Step, payer: string): History {
    if Settles(w, s) && w.held[s.worker].job.payer == payer then [Settle(w.held[s.worker].job, s.report).Success?]
    else []
  }

  function Outcomes(w: World, steps: seq<Step>, payer: string): History
    decreases steps
  {
    if steps == [] then [] else OutcomeOf(w, steps[0], payer) + Outcomes(Next(w, steps[0]), steps[1..], payer)
  }

  lemma {:induction false} SuccessesAppend(a: History, b: History)
    ensures Successes(a + b) == Successes(a) + Successes(b)
  {
    if b == [] {
      assert a + b == a;
    } else {
      SuccessesAppend(a, b[..|b| - 1]);
      assert (a + b)[..|a + b| - 1] == a + b[..|b| - 1];
    }
  }

  lemma StepExtractions(w: World, s: Step, payer: string)
    ensures Sum(Next(w, s).db.extractions, IsOfPayer(payer))
            == Sum(w.db.extractions, IsOfPayer(payer)) + Successes(OutcomeOf(w, s, payer))
  {
    hide Next, Settle, Sum;
    if Settles(w, s) {
      var c := w.held[s.worker].job;
      var db := SettlingIsRows(w, s);
      var how := Settle(c, s.report);
      if how.Success? {
        SumSingle(w.db.extractions, Extraction(c.jobId, c.portal, c.payer, how.invoiceRows), IsOfPayer(payer));
      }
      assert OutcomeOf(w, s, payer) == [] || OutcomeOf(w, s, payer)[..0] == [];
    } else {
      QuietLogs(w, s);
    }
  }

  /** A payer's extraction rows are the successes of its history. */
  lemma {:induction false} ExtractionsAreSuccesses(w: World, steps: seq<Step>, payer: string)
    ensures Sum(Run(w, steps).db.extractions, IsOfPayer(payer))
            == Sum(w.db.extractions, IsOfPayer(payer)) + Successes(Outcomes(w, steps, payer))
    decreases steps
  {
    hide Next, OutcomeOf, Sum;
    if steps != [] {
      StepExtractions(w, steps[0], payer);
      ExtractionsAreSuccesses(Next(w, steps[0]), steps[1..], payer);
      SuccessesAppend(OutcomeOf(w, steps[0], payer), Outcomes(Next(w, steps[0]), steps[1..], payer));
    }
  }

  function Emitted(w: World, payer: string): int {
    Sum(w.db.trust.events, IsTrust(payer, TE.CleanExtractionStreak))
  }

  /** After any run from fresh tables: how many events were emitted, and when that is the number
      the description asks for. */
  lemma StreakMatchesDescription(w: World, steps: seq<Step>, payer: string)
    requires Initial(w) && w.db.trust == TE.EMPTY_STORE
    ensures var h := Outcomes(w, steps, payer);
            && Emitted(Run(w, steps), payer) == Max(0, Successes(h) - 4)
            && (Emitted(Run(w, steps), payer) == Described(h)
                <==> Successes(h) <= 4 || (Successes(h) == 5 && FiveInARow(h)))
  {
    BooksBalanceFromStart(w, steps, "", payer);
    ExtractionsAreSuccesses(w, steps, payer);
    EmittedIsDescribedIff(Outcomes(w, steps, payer));
    hide Run, Outcomes, Described, Successes, FiveInARow, Inv;
  }

  // ---- Every history happens --------------------------------------------------------------

  /** One job of the payer, from enqueue to a success or a silent failure. */
  function Round(ok: bool, payer: string): seq<Step> {
    [EnqueueStep(0, "portal", payer, Login, "", None, 1),
     ClaimStep(0, 0),
     FinaliseStep(0, 0, Executed(HarnessResult(true, "{}", None, None, false),
                                  if ok then Parsed(0) else Mismatch("no match"), NoReviewer))]
  }

  function Rounds(h: History, payer: string): seq<Step> {
    if h == [] then [] else Round(h[0], payer) + Rounds(h[1..], payer)
  }

  /** Nothing waits, nothing runs, everybody is alive. */
  ghost predicate Idle(w: World) {
    && w.held == map[] && w.dead == {} && IdsAreRows(w.db.jobs)
    && forall i :: 0 <= i < |w.db.jobs| ==> w.db.jobs[i].status != Pending
  }

  lemma OnlyDueJob(w: World, job: Job)
    requires Idle(w) && job.id == |w.db.jobs| && Due(job, w.now)
    ensures NextDue(w.db.jobs + [job], w.now) == Some(|w.db.jobs|)
  {
    var jobs := w.db.jobs + [job];
    assert jobs[|w.db.jobs|] == job;
    assert IsNext(jobs, w.now, |w.db.jobs|);
    NextIsUnique(jobs, w.now, |w.db.jobs|);
  }

  lemma RoundSettles(w: World, ok: bool, payer: string)
    requires Idle(w)
    ensures var round := Round(ok, payer);
            var claimed := Next(Next(w, round[0]), round[1]);
            && OutcomeOf(w, round[0], payer) == [] && OutcomeOf(Next(w, round[0]), round[1], payer) == []
            && OutcomeOf(claimed, round[2], payer) == [ok]
            && Idle(Next(claimed, round[2]))
  {
    var round, i := Round(ok, payer), |w.db.jobs|;
    var enqueued := Next(w, round[0]);
    OnlyDueJob(w, enqueued.db.jobs[i]);
    var claimed := Next(enqueued, round[1]);
    assert claimed == Claimed(Tick(enqueued, 0), 0, i);
    assert CanFinalise(claimed, 0);
    var end := Next(claimed, round[2]);
    assert end.held == map[];
    assert end.db.jobs[..i] == w.db.jobs;
  }

  lemma {:induction false} RoundsHappen(w: World, h: History, payer: string)
    requires Idle(w)
    ensures Outcomes(w, Rounds(h, payer), payer) == h
    decreases |h|
  {
    if h != [] {
      var round, rest := Round(h[0], payer), Rounds(h[1..], payer);
      RoundSettles(w, h[0], payer);
      var w1 := Next(w, round[0]);
      var w2 := Next(w1, round[1]);
      var w3 := Next(w2, round[2]);
      RoundsHappen(w3, h[1..], payer);
      hide Next, OutcomeOf, Idle, Round;
      var steps := round + rest;
      assert steps[1..][1..][1..] == rest;
      assert Outcomes(w, steps, payer) == [] + Outcomes(w1, steps[1..], payer);
      assert Outcomes(w1, steps[1..], payer) == [] + Outcomes(w2, steps[1..][1..], payer);
      assert Outcomes(w2, steps[1..][1..], payer) == [h[0]] + Outcomes(w3, rest, payer);
    }
  }

  lemma {:induction false} AllSuccesses(h: History)
    requires forall k :: 0 <= k < |h| ==> h[k]
    ensures Streak(h) == Successes(h) == |h| && Described(h) == |h| / 5
  {
    if h != [] {
      AllSuccesses(h[..|h| - 1]);
    }
  }

  const SIX: History := [true, true, true, true, true, true]
  const BROKEN: History := [true, true, true, true] + [false] + [true]

  /** Six successes in a row emit two events instead of one; five with a failure among them emit
      one instead of none. */
  lemma StreakCanMissDescription(w: World)
    requires Initial(w) && w.db.trust == TE.EMPTY_STORE && w.dead == {}
    ensures Emitted(Run(w, Rounds(SIX, "p")), "p") == 2 && Described(Outcomes(w, Rounds(SIX, "p"), "p")) == 1
    ensures Emitted(Run(w, Rounds(BROKEN, "p")), "p") == 1 && Described(Outcomes(w, Rounds(BROKEN, "p"), "p")) == 0
  {
    RoundsHappen(w, SIX, "p");
    RoundsHappen(w, BROKEN, "p");
    StreakMatchesDescription(w, Rounds(SIX, "p"), "p");
    StreakMatchesDescription(w, Rounds(BROKEN, "p"), "p");
    hide Run, Rounds, Outcomes, Initial, Emitted;
    AllSuccesses(SIX);
    BrokenCounts();
  }

  lemma BrokenCounts()
    ensures Successes(BROKEN) == 5 && Described(BROKEN) == 0
  {
    AllSuccesses([true, true, true, true]);
    AllSuccesses([true]);
    SuccessesAppend([true, true, true, true], [false]);
    SuccessesAppend([true, true, true, true] + [false], [true]);
    assert Successes([false]) == Successes([false][..0]) + 0;
    DescribedNeedsFive(BROKEN);
    assert !BROKEN[4];
  }
}
