# Receivables automation: a verified model

The repository automates three parts of accounts receivable that share one per-payer trust score: a queue of browser
jobs run by competing workers, the reconciliation of incoming wires with open invoices, and a collections call agent.
This project models their state machines and algorithms in Dafny and proves what holds over every input, every run and
every interleaving.

## How the model is built

Code that updates rows or sessions in place is a class or a method with a loop; each such method is proved equal to a
function on values, and the theorems are about those functions and about runs (arbitrary sequences of steps) built from
them. Pure code is a function. Modules follow the source files:

- `JobQueue`, `Validator`, `Worker`, then `WorkerInvariant`, `WorkerRuns`, `WorkerRows`, `WorkerAccounts`,
  `WorkerStreaks`: the claim/finalise protocol of any number of workers, crashes included.
- `Combinations`, `Bundler`, `Sorting`, then `BundlerLimits`: the capped subset-sum search, its stable ranking, and what
  its cut-offs cost.
- `Features`, `IdList`, `Ledger`, `ReconService`, then `LedgerInvariant`, `LedgerRuns`, `LedgerFields`,
  `LedgerConservation`, `LedgerPostings`, `LedgerTrust`: ingest, confirm, override and reject.
- `TrustEngine`, `TrustDecay`: cached score, event log, dashboard replay, decay and auto-match threshold.
- `StateMachine`, `Signals`, `Compliance`, `TurnGraph`, `Streaming`: the call agent, synchronous and streamed.
- `Auc`: the ranker's hand-rolled area under the ROC curve.
- `Common`: optional values, sums and filters.

## Conventions and assumptions

- Every queue operation, every worker transaction and every ledger call is one atomic step. `claim_next` is a select
  followed by a flush; that no other worker gets between the two is assumed, as `browser_orchestration/queue.py:3-6`
  promises. The intermediate commits of `ingest_wire` (the PENDING row) and the separate commit of a trust event are part
  of the call's one step.
- One clock reading per step, and the clock is monotone: steps carry the time that passes before them. The attempt row's
  start time is the reading its claim used.
- Ids assigned by the database are row numbers. Invoice ids are distinct and free of commas, and a wire id is fresh at
  ingest; a second ingest of an id is a failed insert that changes nothing. An empty invoice id is allowed.
- Money is integer cents, so rounding to two decimals is the identity and `< 0.01` means equal. Raw trust is integer
  hundredths. Decay, thresholds and probabilities are exact reals; nothing is claimed about floating point.
- The ranker, entity resolution, the browser harness, language-model answers and pattern matches are inputs: arbitrary
  functions or values.
- `list.sort` and `ORDER BY` are stable sorts; any two stable sorts by a key agree (`Sorting.StableSortUnique`). Rows
  with equal timestamps are read in insertion order.

## Where the code and its documentation differ

- `_should_emit_clean_streak` is described as firing on every fifth consecutive successful extraction; its query looks at
  the last five extraction rows only, which failures do not enter, so it fires on every extraction from the fifth on. A
  failed attempt of the payer is taken to break the streak. `WorkerStreaks.StreakMatchesDescription` says exactly when the
  two numbers agree, and `WorkerStreaks.StreakCanMissDescription` gives two runs on which they do not.
- The bundler is described as ranked by smallest delta first and as working for pools of any size; it looks at the first
  twenty invoices and stops after four hits per result. `BundlerLimits.CapCanHideTheBest` and
  `BundlerLimits.PoolCanHideTheOnly` lose the best bundle to either cut at the default limits.
  `BundlerLimits.FoundIffEarlyChoice` and `BundlerLimits.HeadIsBestIff` say, over the whole invoice list, exactly when
  something is found and when the first result is a best one.
- The dashboard's line is described as the running raw score; it restarts from 0.5 at the cutoff
  (`TrustEngine.PlotCanMissCache`, `TrustEngine.PlotMeetsCacheIff`).
- A confirm is described as marking invoices for a wire, with auto-posted wires spared; nothing spares a wire confirmed
  before, so its cash is posted again (`LedgerPostings.DoubleConfirmDoublesCash`). `LedgerPostings.PostsOnceIff` gives the
  exact condition for at most one posting, which a caller can read off the match table before each confirm, and
  `LedgerPostings.CashIsWiresOnce` what a run then moves. Without it, conservation is stated per posting.
- The streaming path's deferred sentiment is folded in "for the next turn" only if its task lands before that turn
  starts; otherwise it is overwritten or reordered (`Streaming.MidTurnLandingIsLost`, `Streaming.LateLandingSwaps`, `Streaming.LateTasksDoHarm`).
  `Streaming.AgreesIffNothingLost` is the exact condition for every schedule.
- Several broken promises are called the strongest signal for a call's starting phase; from 30 to 59 days overdue a second
  one turns PRE_LEGAL into ESCALATION (`StateMachine.SeverityGrowsIff`).
- The area under the ROC curve depends on an unstable sort when a positive ties a negative
  (`Auc.DeterminedIffNoTies`).

## Model

| member | source | states |
|---|---|---|
| JobQueue.NextDue | browser_orchestration/queue.py:106-111 | finds a due row that no due row precedes, or shows that nothing is due |
| JobQueue.NextIsUnique | browser_orchestration/queue.py:106-111 | the order by schedule and id leaves exactly one next job |
| JobQueue.SqliteJobQueue.Enqueue | browser_orchestration/queue.py:77-98 | appends one PENDING row, scheduled now unless asked otherwise, and changes no other row |
| JobQueue.SqliteJobQueue.ClaimNext | browser_orchestration/queue.py:100-128 | starts the least due row and nothing else; changes nothing when nothing is due |
| JobQueue.SqliteJobQueue.MarkSucceeded | browser_orchestration/queue.py:130-138 | finishes the named row whatever its status; an unknown id is ignored |
| JobQueue.SqliteJobQueue.MarkFailed | browser_orchestration/queue.py:140-169 | silent fail, linear backoff below the attempt limit, or FAILED, without a status guard |
| JobQueue.RetryAsAskedIff | browser_orchestration/queue.py:162 | a requested delay is honoured iff it is not zero, the backoff taking its place otherwise |
| Validator.Validate | browser_orchestration/validator.py:203-274 | never UNKNOWN; PASS exactly when harness and schema agree and no model shown the page objects; the confidence of every case |
| Worker.ClaimOne | browser_orchestration/worker.py:105-118 | in one transaction the next due row starts now, its attempt row shows the same reading, and the claim carries the row's own work; no other row changes |
| Worker.RunAttempt | browser_orchestration/worker.py:183-311 | the attempt row is closed now with the verdict, confidence, rationale, clipped output, screenshot and error of its report; the job takes the status and the portal the health event the report calls for; no other attempt or job changes |
| Worker.EmitTrust | browser_orchestration/worker.py:229-235 | a worker's trust event is one engine update |
| Worker.SettledRow | browser_orchestration/queue.py:130-169 | the whole job row after each report, with the text of its last error and of the health event |
| WorkerInvariant.InitialInv | browser_orchestration/models.py:58-85 | empty tables satisfy the protocol invariant |
| WorkerInvariant.ClaimKeepsInv | browser_orchestration/worker.py:105-118 | a claim extends the bijection between RUNNING jobs and outstanding claims |
| WorkerInvariant.SettledJobOk | browser_orchestration/queue.py:130-169 | a settled job is no longer RUNNING, keeps its attempts, is FAILED only at its cap, and waits 30 s per attempt to retry |
| WorkerInvariant.FinaliseKeepsInv | browser_orchestration/worker.py:183-311 | finalising one claim keeps every other claim valid and the bijection exact |
| WorkerInvariant.NextKeepsInv | browser_orchestration/worker.py:93-311 | every step of every worker, crashes included, keeps the invariant |
| WorkerInvariant.RunKeepsInv | browser_orchestration/worker.py:319-348 | so does every interleaving: attempts within max(1, max_attempts), FAILED only at the cap, finished_at iff terminal, claims name the current attempt |
| WorkerRuns.SettlingReplaces | browser_orchestration/worker.py:203-272 | under the invariant a finalisation only ever replaces a RUNNING row, despite the missing guard |
| WorkerRuns.RunKeepsRows | browser_orchestration/queue.py:130-169 | over any run terminal jobs never change, identities are fixed and attempts never fall |
| WorkerRuns.CrashStrandsJob | browser_orchestration/worker.py:110-118 | there is no reaper: the job of a worker that died holding it stays RUNNING for ever |
| WorkerRuns.StepSpendsOne | browser_orchestration/queue.py:115-166 | each claim or finalisation uses exactly one unit of 2*(cap - attempts) + [RUNNING] |
| WorkerRuns.RunSpendsBudget | browser_orchestration/queue.py:115-166 | termination with an exact account: productive steps plus what is left equals the start plus what enqueues brought |
| WorkerRuns.BackoffBound | browser_orchestration/queue.py:158-163 | attempts are numbered 1..n and the n-th starts at least 15*n*(n-1) seconds after the first |
| WorkerRuns.AskingSucceeds | browser_orchestration/queue.py:105-113 | while a job is due, an idle worker that asks gets a job |
| WorkerRuns.ClaimComesFromAhead | browser_orchestration/queue.py:106-111 | a claim that is not the waiting job takes one from ahead of it |
| WorkerRuns.RetryGoesBehind | browser_orchestration/queue.py:158-163 | a retried job never re-enters ahead of a due job |
| WorkerRuns.StepAhead | browser_orchestration/queue.py:92-111 | each step changes the number of jobs ahead by exactly the claims and the earlier-scheduled enqueues |
| WorkerRuns.AheadIsConserved | browser_orchestration/queue.py:92-163 | the same balance over any run in which the job is not taken |
| WorkerRuns.DueJobIsServed | browser_orchestration/queue.py:92-163 | no overtaking: with a jobs ahead, the due job is taken before a+1 other claims succeed |
| WorkerRuns.DefaultEnqueuesNeverOvertake | browser_orchestration/queue.py:92 | enqueues at the default time contribute nothing to that bound |
| WorkerRuns.RunKeepsTrustCache | browser_orchestration/worker.py:229-257 | whatever the workers do, cached trust stays the replay of the log |
| WorkerRows.RunKeepsOpenRows | browser_orchestration/worker.py:110-118 | at all times an attempt row is open iff some worker holds exactly that row, and no two hold the same |
| WorkerRows.RunKeepsAttempts | browser_orchestration/worker.py:184-196 | attempt rows keep job, number and start, and never change once closed |
| WorkerRows.ClaimCarriesItsJob | browser_orchestration/queue.py:115-128 | at all times a held claim has its job's own portal, payer, action, payload and attempt number, and the job's start is its attempt row's |
| WorkerRows.NeverStartsEarly | browser_orchestration/queue.py:92-107 | over any run no attempt of a job starts before the time it was enqueued for, and until then it is PENDING |
| WorkerAccounts.StepKeepsAttemptsBalance | browser_orchestration/worker.py:110-118 | attempt rows minus health events are the outstanding claims, and those are the RUNNING jobs |
| WorkerAccounts.StepKeepsHealthBalance | browser_orchestration/worker.py:225-302 | per portal, health events tally succeeded jobs, silent fails and hard failures |
| WorkerAccounts.StepKeepsPayerBalance | browser_orchestration/worker.py:73-85 | one extraction per succeeded job and max(0, n-4) clean-streak events for n of them |
| WorkerAccounts.BooksBalanceFromStart | browser_orchestration/worker.py:203-311 | all three balances hold for every portal and payer after every run from fresh tables |
| WorkerStreaks.ExtractionsAreSuccesses | browser_orchestration/worker.py:203-223 | a payer's extraction rows are the successes in the order its attempts ended |
| WorkerStreaks.DescribedNeedsFive | browser_orchestration/worker.py:64-68 | the described rule, one event per five consecutive successes, fires iff five successes follow one another |
| WorkerStreaks.StreakMatchesDescription | browser_orchestration/worker.py:64-85 | after any run max(0, n-4) events are emitted, which is the described number iff n <= 4, or n = 5 with no failure among the five |
| WorkerStreaks.RoundsHappen | browser_orchestration/worker.py:93-281 | every history of successes and failures is that of some run of the workers |
| WorkerStreaks.StreakCanMissDescription | browser_orchestration/worker.py:73-85 | runs with six successes in a row, and with five broken by a failure, emit one event more than described |
| Combinations.EnumerationExact | cash_recon/bundler.py:58-59 | the loops visit exactly the choices of 2..k different positions |
| Combinations.EnumerationOrdered | cash_recon/bundler.py:58-59 | in strictly increasing size-then-lexicographic order, and no combination twice |
| Bundler.SearchSize | cash_recon/bundler.py:59-71 | one size extends the list by a prefix of that size's hits, cut where the inner break says |
| Bundler.Search | cash_recon/bundler.py:53-73 | both loops collect the capped prefix of all hits, for any cap |
| Bundler.FindBundles | cash_recon/bundler.py:36-76 | the whole function: guards, pool of twenty, capped search, stable sort, slice |
| Bundler.AllHitsExact | cash_recon/bundler.py:54-69 | the hits are exactly the in-tolerance bundles of 2..max_size different pool invoices |
| BundlerLimits.AllHitsNeverRepeat | cash_recon/bundler.py:58-69 | invoices with different ids never yield the same bundle twice |
| BundlerLimits.NothingMissedIff | cash_recon/bundler.py:58-73 | the first min(4*max_results, total) hits are kept, and every admissible bundle of the pool is among them iff there are no more than that |
| Bundler.BundlesSound | cash_recon/bundler.py:48-76 | everything returned is an admissible bundle for a positive target |
| Bundler.NothingBetterDropped | cash_recon/bundler.py:75-76 | as many results as the limit and the hits allow, and nothing collected ranks before a result without being one |
| Bundler.BundlesRanked | cash_recon/bundler.py:75-76 | each result is closer to the target than the next, or as close and no larger; no more than asked |
| Bundler.BestBundleFirst | cash_recon/bundler.py:70-76 | when the cap did not cut, no admissible bundle of the pool is closer than the head, or as close and smaller |
| BundlerLimits.HeadIsBestIff | cash_recon/bundler.py:54-76 | the head is best among the bundles of the whole list iff one of those best ones is among the first 4*max_results hits of the pool |
| BundlerLimits.FewCombinationsAreExact | cash_recon/bundler.py:54-76 | when there are no more combinations than the cap, the head is best of the whole list |
| BundlerLimits.ExactTripleBeatsLoosePair | cash_recon/bundler.py:75 | at the default limits an exact triple comes before a pair 0.40 off |
| Bundler.FoundIffAdmissible | cash_recon/bundler.py:48-76 | with or without the cap, something is returned iff the pool has an admissible bundle |
| BundlerLimits.FoundIffEarlyChoice | cash_recon/bundler.py:48-76 | something is returned iff some in-tolerance choice of 2..max_size invoices of the whole list ends before position twenty |
| Bundler.NoResultsForNonPositiveLimit | cash_recon/bundler.py:70-76 | a result limit of zero or less yields nothing, although the search lets one hit through |
| BundlerLimits.CapCanHideTheBest | cash_recon/bundler.py:70-76 | eight equal invoices for which, at the default limits, an exact triple is lost behind twenty loose pairs |
| BundlerLimits.PoolCanHideTheOnly | cash_recon/bundler.py:54-56 | twenty-one invoices for which, at the default limits, the only exact pair is not seen and nothing is returned |
| Sorting.StableSortCorrect | cash_recon/bundler.py:75 | sorted, and every key class keeps its order |
| Sorting.StableSortUnique | cash_recon/bundler.py:75 | those two properties determine the result, so any stable sort is this one |
| Features.CandidatesForWire | cash_recon/features.py:59-100 | the filter loop keeps exactly the in-scope invoices within the given tolerances, in order |
| Features.PlausibleWireIsPositive | cash_recon/features.py:88-95 | the amount window alone forces a positive wire between half and one and a half invoices |
| IdList.SplitJoin | cash_recon/service.py:272-287 | splitting a stored comma-joined id list gives the list back |
| Ledger.BestOf | cash_recon/service.py:181-201 | the scoring loop's result is a maximum, and its id names the first row that attains it |
| Ledger.WorstProb | cash_recon/service.py:251-258 | a bundle's confidence is attained by one member and no larger than any member's |
| Ledger.ThresholdFor | cash_recon/service.py:203-207 | the known payer's read score on the line 1.03 - 0.2*t cut off at 0.88 and 0.97; 0.93 without engine or payer |
| ReconService.Service.ApplyPaymentToInvoices | cash_recon/service.py:114-135 | in place, exactly the listed rows are credited and restatused |
| ReconService.Service.ScoreSingles | cash_recon/service.py:181-201 | one stored row per plausible invoice, and the first strictly best of them |
| ReconService.Service.ScoreBundle | cash_recon/service.py:238-277 | the first bundle found, scored by its worst open member |
| ReconService.Service.Conclude | cash_recon/service.py:176-328 | the decision tree and the rows it stores |
| ReconService.Service.IngestWire | cash_recon/service.py:138-339 | the whole new state and answer of ingest; a repeated wire id changes nothing |
| ReconService.Service.ConfirmMatch | cash_recon/service.py:342-403 | succeeds iff wire and candidate belong together; the wire is MATCHED, match and decision rows as recorded; posts and rewards unless the wire was auto-matched |
| ReconService.Service.OverrideMatch | cash_recon/service.py:406-448 | the wire is MATCHED, match and decision rows as recorded, trust penalised, no invoice touched |
| ReconService.Service.RejectWire | cash_recon/service.py:451-472 | the wire is REJECTED with its decision row; no invoice, match or trust changes |
| LedgerRuns.SingleCovered | cash_recon/features.py:86-99 | a single candidate names one open invoice and its wire is positive |
| LedgerRuns.FirstBundle | cash_recon/service.py:240-278 | the bundle scored is 2 to 5 different open in-scope invoices within 1.00 of the wire, and its stored form splits back |
| LedgerRuns.VerdictExact | cash_recon/service.py:210-328 | each outcome of the decision tree holds iff its declarative condition does, for every ranker |
| LedgerRuns.IngestDecisionExact | cash_recon/service.py:163-339 | stored status equals reported status; AUTO_MATCHED iff a single or every member of the first bundle reaches the threshold; UNMATCHED iff there is neither |
| LedgerRuns.AutoMatchIsJustified | cash_recon/service.py:212-301 | an automatic match adds one row at or above the threshold naming open in-scope invoices, and posts those; any other outcome posts nothing |
| LedgerFields.StoredSingles | cash_recon/service.py:163-201 | the single candidates are, in table order, the OPEN or PARTIAL invoices in scope within half their amount and sixty days, with the ranker's two scores; the wire is stored with its own fields and final status |
| LedgerFields.BundlerInput | cash_recon/service.py:240-243 | the bundler is given exactly the OPEN or PARTIAL invoices in scope, in table order |
| LedgerFields.FoundIffPayTogether | cash_recon/service.py:240-245 | a bundle is found iff two to five of the first twenty such invoices add up to the wire within 1.00 |
| LedgerFields.DecisionInFields | cash_recon/service.py:163-328 | AUTO_MATCHED and UNMATCHED, each iff a condition on amounts, dates, payers, statuses and scores |
| LedgerFields.ReviewAnswerExact | cash_recon/service.py:303-339 | an UNMATCHED answer names nothing; one under review names the stored bundle, or the first best single, with its score |
| LedgerInvariant.CreditedRow | cash_recon/service.py:127-135 | PAID iff fully paid, PARTIAL otherwise, never over the amount, never backwards |
| LedgerInvariant.PostingGrowth | cash_recon/service.py:114-135 | a covered posting moves between nothing and the wire plus 1.00 for a bundle |
| LedgerInvariant.CoveredLater | cash_recon/service.py:362-381 | cover established at ingest survives until a later confirm |
| LedgerInvariant.BundleOffersTotal | cash_recon/bundler.py:60-69 | crediting each member in full offers exactly the bundler's total |
| LedgerConservation.StoredAreCovered | cash_recon/service.py:181-277 | every candidate ingest stores is covered by its wire, whose amount is positive |
| LedgerConservation.IngestIsSafe | cash_recon/service.py:138-339 | ingest keeps the ledger invariant and its allowance |
| LedgerConservation.ConfirmIsSafe | cash_recon/service.py:342-403 | so does confirming any stored candidate at any later time |
| LedgerConservation.StepIsSafe | cash_recon/service.py:138-472 | so does every operation; without a posting no invoice changes |
| LedgerConservation.RunConservesCash | cash_recon/service.py:114-472 | over any run 0 <= paid <= amount, payments never shrink, PAID is never undone, and total cash grows by at most the posted wires plus 1.00 per bundle posting |
| LedgerPostings.StepTells | cash_recon/service.py:138-472 | the match table shows a wire's posting exactly from the operation that posts it on, and a confirm posts again iff the table already shows one and the wire is not auto-matched |
| LedgerPostings.PostsOnceIff | cash_recon/service.py:362-381 | over any run a wire's cash is applied at most once iff no confirm that would post finds a posting of it in the match table |
| LedgerPostings.CashIsWiresOnce | cash_recon/service.py:114-472 | then no wire is posted twice and total cash grows by at most the sum over those different wires plus 1.00 per bundle |
| LedgerPostings.RunSettlesPosted | cash_recon/service.py:127-135 | after any run every invoice some posting named is PAID iff fully paid and PARTIAL iff not, and every other invoice is untouched |
| LedgerPostings.DoubleConfirmDoublesCash | cash_recon/service.py:362-381 | a concrete ledger where two confirmations of one wire pay twice its amount |
| LedgerPostings.CarefulRunPostsOnce | cash_recon/service.py:342-403 | a guard on the status alone that suffices, from any ledger: confirm only while the wire is neither MATCHED nor REJECTED |
| LedgerConservation.RunKeepsTrustCache | cash_recon/service.py:231-235 | reconciliation keeps cached trust the replay of the log |
| LedgerTrust.StepMovesTrust | cash_recon/service.py:231-235 | every operation moves a payer's score by one hundredth for a match posted, minus two for an override, nothing otherwise, within 0..1 |
| LedgerTrust.OverridesDrain | cash_recon/service.py:442-447 | n overrides leave max(0, s - 0.02n) |
| LedgerTrust.MatchesFill | cash_recon/service.py:396-402 | n posted matches leave min(1, s + 0.01n) |
| LedgerTrust.OverrideNeverHelps | cash_recon/service.py:442-447 | an override raises nobody's score and, within the grace period, lowers nobody's bar |
| TrustEngine.TrustEngine.UpdateTrust | shared/trust_engine.py:67-95 | the new score in numbers for each of the eight kinds, the row's time, one appended event, and no other payer touched |
| TrustEngine.RunKeepsCache | shared/trust_engine.py:67-95 | for any interleaving over payers each cached score is the fold of clamped deltas over that payer's log |
| TrustEngine.ReplayIsOneShift | shared/trust_engine.py:30-31 | any fold of clamped additions is one clamped shift with 0 <= lo <= hi <= 1 |
| TrustEngine.CachedScoreClosedForm | shared/trust_engine.py:80-83 | the cached score in that closed form, and its range |
| TrustEngine.TrustHistory | ops_dashboard/api.py:381-414 | the plotted points are the baseline, each prefix replay of the window, and the closing point |
| TrustEngine.PointsAreReplays | ops_dashboard/api.py:397-409 | the i-th point is the replay of the first i windowed events |
| TrustEngine.WindowIsFilter | ops_dashboard/api.py:389-396 | with a log in time order the query's sort changes nothing |
| TrustEngine.GapNarrowsOnce | ops_dashboard/api.py:397-400 | one later event never widens or flips the gap between plot and cache |
| TrustEngine.GapNarrows | ops_dashboard/api.py:397-400 | nor does any later run of events |
| TrustEngine.GapBoundedByScoreAtCutoff | ops_dashboard/api.py:385-400 | the gap stays within the score at the cutoff minus 0.5, and is zero for a payer without earlier events |
| TrustEngine.ZeroGapStays | ops_dashboard/api.py:397-400 | once zero, the gap is zero for good |
| TrustEngine.PlotMeetsCacheIff | ops_dashboard/api.py:385-400 | the plot ends on the cached score iff the score at the cutoff was 0.5 or the window clamps both to the same end |
| TrustEngine.PlotCanMissCache | ops_dashboard/api.py:397-398 | one earlier event is enough for the plot to be off |
| TrustDecay.DecayScalesDistance | shared/trust_engine.py:49-51 | decay scales the distance to 0.5 by the part of the window that is left |
| TrustDecay.DriftIsLinear | shared/trust_engine.py:49-50 | between day 30 and day 210 each day adds one 180th |
| TrustDecay.DecayMovesTowardHalf | shared/trust_engine.py:34-51 | the decayed score lies between raw and 0.5 and never moves away again |
| TrustDecay.ReadScoreDecays | shared/trust_engine.py:61-65 | the same of the score as read: raw for 30 whole days, 0.5 from 210, with the limits in seconds |
| TrustDecay.ThresholdClosedForm | cash_recon/service.py:62-75 | the three branches are one straight line cut off at both ends |
| TrustDecay.ThresholdShape | cash_recon/service.py:62-75 | antitone, within [0.88, 0.97], and 0.2-Lipschitz |
| TrustDecay.OneEventMovesThresholdLittle | shared/models.py:38-47 | within the grace period one event moves the payer's bar by at most 0.02, in the right direction, and nobody else's |
| StateMachine.ApplySignals | voice_agent/orchestrator.py:153-167 | the loop's state and log are the fold of transitions appended to what was there |
| StateMachine.CallClosedForm | voice_agent/state_machine.py:119-148 | phase and tone after any signals: fixed by the last commitment or bankruptcy, then min(3, base + softenings) |
| StateMachine.LatePhasesAreClosed | voice_agent/state_machine.py:122-125 | PAUSED is left only by bankruptcy, and the two late phases are never left |
| StateMachine.InitialStateIsProper | voice_agent/state_machine.py:72-116 | calls start in a state the closed form covers; late phases never start warm |
| StateMachine.InitialPhaseExact | voice_agent/state_machine.py:85-97 | each starting phase is a region of days overdue and broken promises |
| StateMachine.SeverityGrowsIff | voice_agent/state_machine.py:85-97 | more days never start a softer phase; more broken promises do exactly from one to several at 30 to 59 days |
| StateMachine.InitialToneExact | voice_agent/state_machine.py:100-116 | the starting tone counts the trust levels reached for its phase |
| StateMachine.TrustWarms | voice_agent/state_machine.py:72-116 | more trust never starts a colder call nor another phase |
| StateMachine.LogGivesReasons | voice_agent/orchestrator.py:153-167 | every log line carries its signal's own reason, or no change while paused |
| StateMachine.ApplyConcat | voice_agent/orchestrator.py:153-167 | applying two lists one after the other is applying their concatenation, log included |
| Signals.FirstMatchIsFirst | voice_agent/signals.py:69-74 | the signal of the first pattern that matches, with no earlier one matching, or none when nothing matches |
| Signals.HardSignalExact | voice_agent/signals.py:24-74 | the hard signal by matches alone, bankruptcy before dispute, manager, commitment and hesitation |
| Signals.BranchExact | voice_agent/orchestrator.py:170-177 | both paths hand off iff bankruptcy matches, else dispute, else call back, else respond, by matches alone |
| Signals.SoftSignalExact | voice_agent/orchestrator.py:127-143 | the soft signal is heard iff no pattern but hesitation matches and the mood is not neutral at 0.6 or more |
| Signals.SoftNeverRoutes | voice_agent/orchestrator.py:127-177 | the soft signal never changes the branch, and hard and soft signals never coincide |
| Compliance.RegexScreen | voice_agent/compliance.py:101-118 | the verdict is the worst among the rules that fired, with their ids in rule order |
| Compliance.CheckCompliance | voice_agent/orchestrator.py:180-195 | despite the short circuit the verdict is the worse of the pattern and model verdicts |
| Compliance.ReviewIsExplained | voice_agent/compliance.py:161-183 | the rules and the reason a retry is told, in every case |
| TurnGraph.StepKeepsTurnOk | voice_agent/orchestrator.py:398-435 | every edge of the graph keeps the turn invariant and comes closer to the end |
| TurnGraph.RunTurn | voice_agent/orchestrator.py:441-455 | the graph halts after at most R+1 reviews; branch and first reviewed text follow from the utterance's matches; spoken is the first unblocked draft or, when all are blocked, the fallback |
| TurnGraph.SpokenTextIsNotBlocked | voice_agent/orchestrator.py:369-372 | what is spoken is the fallback or a text that neither patterns nor model blocked |
| Streaming.CallSession.Chat | voice_agent/server.py:258-277 | a synchronous request leaves the session where the synchronous turn does, on the branch its matches call for |
| Streaming.CallSession.StartStream | voice_agent/server.py:322-346 | what a streamed turn computes from hard signals alone, before streaming, from the session it finds |
| Streaming.CallSession.FinishStream | voice_agent/server.py:376-391 | when the stream ends or fails, that earlier result replaces whatever the session holds by then |
| Streaming.CallSession.StreamingChat | voice_agent/server.py:303-391 | a streamed request that nothing interrupts: hard signals only, the text of the branch its matches call for, the check pending |
| Streaming.CallSession.AsyncSoftSentiment | voice_agent/server.py:439-462 | when the background task adds a transition, by matches and mood, and the one step softer it makes unless the call is paused |
| Streaming.CallSession.AsyncCompliance | voice_agent/server.py:413-436 | the background review records its verdict, or its exception, and leaves state, log and history alone |
| Streaming.OneTurnRefines | voice_agent/orchestrator.py:206-255 | a streamed turn followed by its task is a synchronous turn |
| Streaming.StreamingRefinesSync | voice_agent/server.py:322-462 | over any conversation with prompt tasks: same branches, same state and log between turns |
| Streaming.SessionIsSurvivors | voice_agent/server.py:322-462 | under every interleaving of turns, tasks and plain requests the session is its start moved by the signals that survive |
| Streaming.AgreesIffNothingLost | voice_agent/server.py:322-462 | a schedule ends where the synchronous path does iff the surviving signals are the spoken ones |
| Streaming.PromptRunIsSync | voice_agent/server.py:360-401 | the prompt schedule loses nothing and ends where the synchronous path does |
| Streaming.MidTurnLandingIsLost | voice_agent/server.py:379-381 | on the schedule where a task lands during the next turn, the result is the synchronous one iff it found no soft signal |
| Streaming.LateLandingSwaps | voice_agent/server.py:451-462 | on the schedule where a task lands one turn late, iff it found no soft signal or the later turn had no hard one |
| Streaming.LateTasksDoHarm | voice_agent/server.py:379-462 | a caller for whom both schedules end elsewhere than the synchronous path |
| Streaming.LogNeverLies | voice_agent/server.py:258-462 | under every interleaving the session's state is the replay of its own log |
| Auc.NumeratorCountsPairs | cash_recon/ranker.py:185-187 | the cumulative-sum numerator is the number of pairs with the positive placed first |
| Auc.NumeratorBetweenPairCounts | cash_recon/ranker.py:176-188 | for any descending order it lies between the strict and the weak score-pair counts, and is both without ties |
| Auc.AreaIsPairShare | cash_recon/ranker.py:176-188 | the number is in [0, 1], between those shares of all pairs, the numerator's share itself, and one half when a class is empty |
| Auc.DeterminedIffNoTies | cash_recon/ranker.py:176-188 | the returned area is independent of the sort's choice exactly when no positive ties a negative |

## Left out

- Routes, request models, lifespans, SSE framing, the dashboard UI and the other dashboard queries: input and output only.
- SQL isolation, sessions, commits and timezone coercion: each transaction is one atomic step, as listed above.
- The interrupted middle of a call: a process dying between two commits of `ingest_wire` or before the trust commit.
- ReconService.Service.IngestWire: does not model ingesting again a wire object that is already persistent, because fresh wire ids are assumed.
- Worker.RunAttempt: omits the extracted payload text stored on the extraction row, because nothing modelled reads it.
- Validator.Validate: schema parsing is an input, so which outputs match which schema is not modelled.
- Compliance.RegexScreen: which texts a pattern matches is an input.
- Streaming.CallSession.FinishStream: a client that disconnects, so that the session update is never reached, is a started turn that never finishes.
- TurnGraph.RunTurn: node updates are atomic and the workflow library's scheduling is taken to follow the edges.
- Streaming.StreamingRefinesSync: the sentiment answer is a function of the message; a model that answers the same message differently is not compared.
- Ledger.ThresholdFor: exact reals, no floating-point rounding; the same holds for every other real-valued member.
- Auc.DeterminedIffNoTies: labels are zero or one; scores that are not numbers are not modelled.
- Feature values, fuzzy matching, calibration and training of the ranker: foreign libraries behind an arbitrary function.
- Entity resolution, memory summaries, prompts, credential vault, scheduling buckets, synthetic data and the demo portal: lookups and templates that would only add easy members.
- The message numbers, notes, currency, issue date, timestamps and provenance strings of rows that no modelled decision reads.
